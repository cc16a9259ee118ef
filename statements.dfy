/**
 * The MATLAB statement handed to the launcher: a single line or a list of
 * lines, joined with ", " and optionally wrapped so that an error is printed
 * instead of raised and so that MATLAB exits afterwards.
 */
module Statements {
  import opened Results
  import opened Text

  /** What `execute` accepts: a `str`, or a list of `str` to join. */
  datatype Statement = Single(line: string) | Multi(lines: seq<string>)

  /** The two halves of `try_catch_wrapper` around its `{}`. */
  const TryCatchPrefix: string := "try, "
  const TryCatchSuffix: string := ", catch err, fprintf('%s %s', err.identifier, err.message), end"

  /** `exit_wrapper` after its `{}`. */
  const ExitSuffix: string := ", exit"

  /** A list of lines becomes one line, joined with ", "; a single line is kept. */
  function Flatten(st: Statement): string
  {
    match st
    case Single(line) => line
    case Multi(lines) => Join(", ", lines)
  }

  /** `try_catch_wrapper.format(s)` */
  function WrapTryCatch(s: string): string
  {
    TryCatchPrefix + s + TryCatchSuffix
  }

  /** `exit_wrapper.format(s)` */
  function WrapExit(s: string): string
  {
    s + ExitSuffix
  }

  /**
   * The final statement: joined, then try/catch-wrapped, then given the exit.
   * The try block opens the statement and the exit, when asked for, closes it.
   */
  function Compose(st: Statement, tryCatch: bool, autoExit: bool): (r: string)
    ensures !tryCatch && !autoExit ==> r == Flatten(st)
    ensures tryCatch ==> TryCatchPrefix <= r
    ensures autoExit ==> |ExitSuffix| <= |r| && r[|r| - |ExitSuffix|..] == ExitSuffix
    ensures tryCatch && !autoExit ==> |TryCatchSuffix| <= |r| && r[|r| - |TryCatchSuffix|..] == TryCatchSuffix
  {
    var joined := Flatten(st);
    var guarded := if tryCatch then WrapTryCatch(joined) else joined;
    if autoExit then WrapExit(guarded) else guarded
  }

  /** `s` without the suffix `suf`, when it ends with it. */
  function StripSuffix(s: string, suf: string): (r: Option<string>)
    ensures r.Some? ==> r.value + suf == s
  {
    if |suf| <= |s| && s[|s| - |suf|..] == suf then
      assert s[..|s| - |suf|] + s[|s| - |suf|..] == s;
      Some(s[..|s| - |suf|])
    else None
  }

  /** `s` without `pre` in front and `suf` behind, when it has both. */
  function StripAround(s: string, pre: string, suf: string): (r: Option<string>)
    ensures r.Some? ==> pre + r.value + suf == s
  {
    if |pre| + |suf| <= |s| && s[..|pre|] == pre && s[|s| - |suf|..] == suf then
      assert s[..|pre|] + s[|pre|..|s| - |suf|] + s[|s| - |suf|..] == s;
      Some(s[|pre|..|s| - |suf|])
    else None
  }

  /** Undoes the wrapping that `Compose` applied under the same flags. */
  function Unwrap(s: string, tryCatch: bool, autoExit: bool): Option<string>
  {
    var outer := if autoExit then StripSuffix(s, ExitSuffix) else Some(s);
    match outer
    case None => None
    case Some(guarded) => if tryCatch then StripAround(guarded, TryCatchPrefix, TryCatchSuffix) else Some(guarded)
  }

  lemma {:induction false} StripSuffixOf(s: string, suf: string)
    ensures StripSuffix(s + suf, suf) == Some(s)
  {
    var t := s + suf;
    assert t[|t| - |suf|..] == suf && t[..|t| - |suf|] == s;
  }

  lemma {:induction false} StripAroundOf(pre: string, s: string, suf: string)
    ensures StripAround(pre + s + suf, pre, suf) == Some(s)
  {
    var t := pre + s + suf;
    assert t[..|pre|] == pre && t[|t| - |suf|..] == suf && t[|pre|..|t| - |suf|] == s;
  }

  /**
   * The wrapping loses nothing: under the same flags the joined statement is
   * recovered from the final one, the exit being the outermost layer.
   */
  lemma {:induction false} ComposeRoundTrip(st: Statement, tryCatch: bool, autoExit: bool)
    ensures Unwrap(Compose(st, tryCatch, autoExit), tryCatch, autoExit) == Some(Flatten(st))
  {
    var joined := Flatten(st);
    var guarded := if tryCatch then WrapTryCatch(joined) else joined;
    if autoExit {
      StripSuffixOf(guarded, ExitSuffix);
    }
    if tryCatch {
      StripAroundOf(TryCatchPrefix, joined, TryCatchSuffix);
    }
  }

  /**
   * With both wrappers the exit is appended after the end of the try/catch
   * block, so it runs whether or not the statement failed.
   */
  lemma {:induction false} BothWrappersOrder()
    ensures Compose(Single("x"), true, true) ==
      "try, x" + ", catch err, fprintf('%s %s', err.identifier, err.message), end" + ", exit"
  {
    assert TryCatchPrefix + "x" == "try, x";
  }

  /** The multi-statement example of `execute`'s docstring, and the empty list. */
  lemma {:induction false} JoinExample()
    ensures Flatten(Multi(["myvar=123", "myscript"])) == "myvar=123" + ", " + "myscript"
    ensures Flatten(Multi([])) == ""
  {
    var lines := ["myvar=123", "myscript"];
    assert lines[1..] == ["myscript"];
  }
}
