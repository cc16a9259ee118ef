/**
 * `MatlabRunner`: an executable path and a stored options dict, the header
 * `path + " " + flags`, and the command line that `execute` hands to the
 * process launcher.
 */
module Runner {
  import opened Results
  import opened PyDict
  import opened Text
  import opened Options
  import opened Statements

  /** The run-mode flag: `-batch` when asked for, `-r` otherwise. */
  function RunOption(batch: bool): string
  {
    if batch then "-batch" else "-r"
  }

  /** `_build_command_header()`: the path, one space, then the flags. */
  function Header(exePath: string, options: Dict<Value>): (r: Result<string, Error>)
    ensures r.Ok? <==> Tokens(options).Ok?
    ensures r.Err? ==> Tokens(options) == Err(r.error)
    ensures r.Ok? ==> exePath + " " <= r.value
  {
    match OptionsString(options)
    case Err(e) => Err(e)
    case Ok(flags) => Ok(exePath + " " + flags)
  }

  /**
   * The command `execute` builds once the executable has been found:
   * `header run "statement"`, the statement quoted as one argument.
   */
  function CommandLine(exePath: string, options: Dict<Value>, st: Statement,
                       batch: bool, tryCatch: bool, autoExit: bool): (r: Result<string, Error>)
    ensures r.Ok? <==> Tokens(options).Ok?
    ensures r.Err? ==> Tokens(options) == Err(r.error)
    ensures r.Ok? ==> exePath + " " <= r.value && r.value[|r.value| - 1] == '"'
  {
    match Header(exePath, options)
    case Err(e) => Err(e)
    case Ok(header) =>
      var cmd := header + " " + RunOption(batch) + " \"" + Compose(st, tryCatch, autoExit) + "\"";
      assert cmd[..|header|] == header && cmd[|cmd| - 1] == '"';
      Ok(cmd)
  }

  /**
   * The command line is a faithful encoding of its inputs: it is the path,
   * a space, the flag tokens (which read back as exactly the flags that are
   * not off, in stored order), a space, the run flag and the quoted
   * statement, from which the joined statement is recovered.
   */
  lemma {:induction false} CommandLineDecodes(exePath: string, options: Dict<Value>, st: Statement,
                                              batch: bool, tryCatch: bool, autoExit: bool)
    requires Tokens(options).Ok?
    ensures CommandLine(exePath, options, st, batch, tryCatch, autoExit).Ok?
    ensures var cmd := CommandLine(exePath, options, st, batch, tryCatch, autoExit).value;
            var ts := Tokens(options).value;
            var s := Compose(st, tryCatch, autoExit);
            && cmd == exePath + " " + Join(" ", ts) + " " + RunOption(batch) + " \"" + s + "\""
            && DecodeTokens(ts) == Some(Active(options))
            && Unwrap(s, tryCatch, autoExit) == Some(Flatten(st))
  ensures var ts := Tokens(options).value;
          |ts| == |Active(options)| &&
          forall i :: 0 <= i < |ts| ==> FlagToken(Active(options)[i].0, Active(options)[i].1) == Ok(Some(ts[i]))
  {
    TokensDecode(options);
    TokensOfActive(options);
    ComposeRoundTrip(st, tryCatch, autoExit);
  }

  /**
   * The flags of a runner's options appear in registry order, whatever order
   * the `set_options` calls named them in, and exactly the flags that are
   * not off appear.
   */
  lemma {:induction false} OptionsInRegistryOrder(options: Dict<Value>)
    requires Keys(options) == Registry && Tokens(options).Ok?
    ensures DecodeTokens(Tokens(options).value) == Some(Active(options))
    ensures SubsequenceOf(Keys(Active(options)), Registry)
  {
    TokensDecode(options);
    ActiveKeysInOrder(options);
  }

  /**
   * With every flag off the header still ends in the separating space; the
   * run flag is `-batch` when asked for and `-r` otherwise.
   */
  lemma {:induction false} NoFlagsCommand(exePath: string, options: Dict<Value>, st: Statement, batch: bool)
    requires forall i :: 0 <= i < |options| ==> options[i].0 in Registry && options[i].1 == Bool(false)
    ensures Header(exePath, options) == Ok(exePath + " ")
    ensures CommandLine(exePath, options, st, batch, false, false) ==
      Ok(exePath + "  " + RunOption(batch) + " \"" + Flatten(st) + "\"")
    ensures CommandLine(exePath, options, st, true, false, false) ==
      Ok(exePath + "  " + "-batch" + " \"" + Flatten(st) + "\"")
    ensures CommandLine(exePath, options, st, false, false, false) ==
      Ok(exePath + "  " + "-r" + " \"" + Flatten(st) + "\"")
  {
    AllOffOptionsString(options);
    assert exePath + " " + "" == exePath + " ";
    assert exePath + " " + " " == exePath + "  ";
  }

  lemma {:induction false} ExampleTokens()
    ensures Tokens([("nodesktop", Bool(true)), ("sd", Str("/work"))]) == Ok(["-nodesktop", "-sd \"/work\""])
  {
    var d := [("nodesktop", Bool(true)), ("sd", Str("/work"))];
    var t0, t1 := "-nodesktop", "-sd \"/work\"";
    assert "nodesktop" in Registry && "sd" in Registry;
    assert "-" + "nodesktop" == t0;
    assert "-" + "sd" + " \"" + "/work" + "\"" == t1;
    assert d[0] == ("nodesktop", Bool(true)) && d[1..][0] == ("sd", Str("/work")) && d[1..][1..] == [];
    assert FlagToken(d[0].0, d[0].1) == Ok(Some(t0));
    assert FlagToken(d[1..][0].0, d[1..][0].1) == Ok(Some(t1));
    assert Tokens(d[1..][1..]) == Ok([]);
    assert [t1] + [] == [t1];
    assert Tokens(d[1..]) == Ok([t1]);
    assert [t0] + [t1] == [t0, t1];
    assert Tokens(d) == Ok([t0, t1]);
  }

  /** The flags of a worked example, written out. */
  lemma {:induction false} ExampleFlags(options: Dict<Value>)
    requires Tokens(options).Ok?
    requires Active(options) == [("nodesktop", Bool(true)), ("sd", Str("/work"))]
    ensures OptionsString(options) == Ok("-nodesktop" + " " + "-sd \"/work\"")
  {
    TokensActive(options);
    ExampleTokens();
    var ts := ["-nodesktop", "-sd \"/work\""];
    assert ts[1..] == [ts[1]];
  }

  /**
   * A worked example: options whose only flags that are not off are
   * `nodesktop=True` and then `sd="/work"` give the command
   * `/bin/tool -nodesktop -sd "/work" -r "run"`, written here piece by piece.
   */
  lemma {:induction false} ExampleCommand(options: Dict<Value>)
    requires Tokens(options).Ok?
    requires Active(options) == [("nodesktop", Bool(true)), ("sd", Str("/work"))]
    ensures CommandLine("/bin/tool", options, Single("run"), false, false, false) ==
      Ok("/bin/tool" + " " + ("-nodesktop" + " " + "-sd \"/work\"") + " " + "-r" + " \"" + "run" + "\"")
  {
    ExampleFlags(options);
  }

  /** Runs statements through one MATLAB executable with stored flags. */
  class MatlabRunner {
    var exePath: string
    var options: Dict<Value>

    /** The stored options name each registry flag at most once. */
    ghost predicate Valid()
      reads this
    {
      WellKeyed(options)
    }

    /** The first two lines of `__init__`: the path is kept and no options are stored yet. */
    constructor Blank(exePath: string)
      ensures Valid()
      ensures this.exePath == exePath && options == []
    {
      this.exePath := exePath;
      options := [];
    }

    /**
     * `MatlabRunner(exe_path, **initial)`: the path is kept unchecked and the
     * initial options merged over the defaults; unknown names fail the
     * construction.
     */
    static method New(exePath: string, initial: Dict<Value>) returns (r: Result<MatlabRunner, Error>)
      ensures MergeOptions([], initial).Err? ==> r == Err(MergeOptions([], initial).error)
      ensures MergeOptions([], initial).Ok? ==>
        && r.Ok? && fresh(r.value) && r.value.Valid()
        && r.value.exePath == exePath
        && r.value.options == MergeOptions([], initial).value
        && Keys(r.value.options) == Registry
    {
      var runner := new MatlabRunner.Blank(exePath);
      var outcome := runner.SetOptions(initial);
      if outcome.Fail? {
        r := Err(outcome.error);
      } else {
        r := Ok(runner);
      }
    }

    /** `set_exe_path`: replaces the path and nothing else. */
    method SetExePath(exePath: string)
      modifies this
      ensures this.exePath == exePath
      ensures options == old(options)
    {
      this.exePath := exePath;
    }

    /**
     * `set_options`: unknown names fail the whole call, naming them all, and
     * leave the stored options untouched; otherwise the new options are the
     * defaults, overridden by the stored ones, overridden by the supplied ones.
     */
    method SetOptions(supplied: Dict<Value>) returns (r: Outcome<Error>)
      requires Valid()
      modifies this
      ensures Valid() && exePath == old(exePath)
      ensures match MergeOptions(old(options), supplied)
              case Err(e) => r == Fail(e) && options == old(options)
              case Ok(merged) => r == Pass && options == merged && Keys(options) == Registry
    {
      var merged := MergeOptions(options, supplied);
      match merged
      case Err(e) =>
        r := Fail(e);
      case Ok(d) =>
        MergeOptionsKeys(options, supplied);
        options := d;
        r := Pass;
    }

    /**
     * `execute`, up to the launch: fails when the executable is missing
     * (`exeExists` is the file-system probe), otherwise yields the command
     * line that is handed to the process launcher.
     */
    method Execute(st: Statement, batch: bool, tryCatch: bool, autoExit: bool, exeExists: bool)
      returns (r: Result<string, Error>)
      ensures !exeExists ==> r == Err(ExecutableNotFound(exePath))
      ensures exeExists ==> r == CommandLine(exePath, options, st, batch, tryCatch, autoExit)
    {
      if !exeExists {
        return Err(ExecutableNotFound(exePath));
      }
      var header := Header(exePath, options);
      if header.Err? {
        return Err(header.error);
      }
      var runOption := if batch then "-batch" else "-r";
      var statement := Flatten(st);
      if tryCatch {
        statement := WrapTryCatch(statement);
      }
      if autoExit {
        statement := WrapExit(statement);
      }
      r := Ok(header.value + " " + runOption + " \"" + statement + "\"");
    }
  }
}
