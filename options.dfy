/**
 * The MATLAB launcher flags: the fixed registry of flag names
 * (`option_defaults`), the translation of one flag into a command-line
 * token, the options string built from a stored options dict, and the merge
 * performed by `set_options`.
 */
module Options {
  import opened Results
  import opened PyDict
  import opened Text

  /**
   * A flag value. `Other` stands for any Python value that is not a bool,
   * a str or an int (`None`, a list, ...): `set_options` stores such values
   * unchecked, and only the token builder rejects them.
   */
  datatype Value = Bool(b: bool) | Str(s: string) | Int(n: int) | Other

  datatype Error =
    | InvalidOption(key: string)        // a flag name outside the registry, met while building a token
    | InvalidValue(key: string)         // a flag whose value is not a bool, a string or a number
    | InvalidOptions(keys: set<string>) // `set_options` called with these unknown names
    | ExecutableNotFound(path: string)  // the executable path names no existing file

  /** The recognised flag names, in the declaration order of `option_defaults`. */
  const Registry: seq<string> := [
    "nodesktop", "noFigureWindows", "nosplash", "sd", "useStartupFolderPref",
    "logfile", "jbd", "singleCompThread", "nouserjavapath", "softwareopengl",
    "nosoftwareopengl", "automation", "regserver", "unregserver", "wait"
  ]

  /** Every key of `keys`, in order, mapped to `False`. */
  function AllOff(keys: seq<string>): (d: Dict<Value>)
    ensures Keys(d) == keys
    ensures forall i :: 0 <= i < |d| ==> d[i].1 == Bool(false)
  {
    seq(|keys|, i requires 0 <= i < |keys| => (keys[i], Bool(false)))
  }

  /** `option_defaults`: every registry flag, off. */
  const OptionDefaults: Dict<Value> := AllOff(Registry)

  lemma {:induction false} RegistryDistinct()
    ensures Distinct(Registry)
  {
  }

  lemma {:induction false} FlagNameHasNoSpace(k: string)
    requires k in Registry
    ensures ' ' !in k
  {
  }

  /** Looking a key up in a dict whose every value is `False`. */
  lemma {:induction false} AllOffGet(d: Dict<Value>, k: string)
    requires forall i :: 0 <= i < |d| ==> d[i].1 == Bool(false)
    ensures Get(d, k) == if k in Keys(d) then Some(Bool(false)) else None
  {
    if d != [] && d[0].0 != k {
      AllOffGet(d[1..], k);
    }
  }

  /**
   * `_build_options_parameter(k, v)`: the token for one flag, `None` when the
   * flag is off.
   */
  function FlagToken(k: string, v: Value): (r: Result<Option<string>, Error>)
    ensures k !in Registry ==> r == Err(InvalidOption(k))
    ensures k in Registry ==> (r.Err? <==> v.Other?) && (r.Err? ==> r.error == InvalidValue(k))
    ensures r.Ok? ==> (r.value.None? <==> v == Bool(false))
  {
    if k !in Registry then Err(InvalidOption(k))
    else match v
      case Bool(b) => if b then Ok(Some("-" + k)) else Ok(None)
      case Str(s) => Ok(Some("-" + k + " \"" + s + "\""))
      case Int(n) => Ok(Some("-" + k + " " + DecimalString(n)))
      case Other => Err(InvalidValue(k))
  }

  /**
   * Reads a flag's parameter back: `"s"` is the string parameter (everything
   * between the outer quotes) and `12` a number.
   */
  function ParseParameter(param: string): Option<Value>
  {
    if 2 <= |param| && param[0] == '"' && param[|param| - 1] == '"' then
      Some(Str(param[1..|param| - 1]))
    else
      match ParseInt(param)
      case None => None
      case Some(n) => Some(Int(n))
  }

  /**
   * Reads one token back: `-k` is the flag switched on, and `-k p` the flag
   * with the parameter `p`, split at the first space.
   */
  function ParseToken(t: string): Option<(string, Value)>
  {
    if |t| == 0 || t[0] != '-' then None
    else
      var rest := t[1..];
      match IndexOf(rest, ' ')
      case None => Some((rest, Bool(true)))
      case Some(i) =>
        match ParseParameter(rest[i + 1..])
        case None => None
        case Some(v) => Some((rest[..i], v))
  }

  /** How a token made of a space-free name, a space and a parameter reads back. */
  lemma {:induction false} ParseParameterToken(k: string, param: string)
    requires ' ' !in k
    ensures ParseToken("-" + k + " " + param) ==
      if ParseParameter(param).Some? then Some((k, ParseParameter(param).value)) else None
  {
    var t := "-" + k + " " + param;
    var rest := t[1..];
    assert rest == k + [' '] + param;
    IndexOfFirst(k, ' ', param);
    assert rest[..|k|] == k && rest[|k| + 1..] == param;
  }

  /**
   * Although string parameters are quoted without escaping, every token the
   * builder emits reads back as exactly its flag and value.
   */
  lemma {:induction false} TokenRoundTrip(k: string, v: Value)
    requires FlagToken(k, v).Ok? && FlagToken(k, v).value.Some?
    ensures ParseToken(FlagToken(k, v).value.value) == Some((k, v))
  {
    FlagNameHasNoSpace(k);
    match v
    case Bool(b) =>
      assert ("-" + k)[1..] == k;
    case Str(s) =>
      var param := "\"" + s + "\"";
      assert "-" + k + " \"" + s + "\"" == "-" + k + " " + param;
      ParseParameterToken(k, param);
    case Int(n) =>
      ParseParameterToken(k, DecimalString(n));
      DecimalRoundTrip(n);
  }

  /** Entry `i` of `d` is the first whose token cannot be built, failing with `e`. */
  predicate FailsFirstAt(d: Dict<Value>, i: int, e: Error) {
    && 0 <= i < |d|
    && FlagToken(d[i].0, d[i].1) == Err(e)
    && forall j :: 0 <= j < i ==> FlagToken(d[j].0, d[j].1).Ok?
  }

  /** A first failure in the tail is the first failure of the dict when its head builds. */
  lemma {:induction false} FailsFirstShift(d: Dict<Value>, i: int, e: Error)
    requires d != [] && FlagToken(d[0].0, d[0].1).Ok? && FailsFirstAt(d[1..], i, e)
    ensures FailsFirstAt(d, i + 1, e)
  {
    forall j | 0 <= j < i + 1 ensures FlagToken(d[j].0, d[j].1).Ok? {
      if j > 0 { assert d[j] == d[1..][j - 1]; }
    }
  }

  /**
   * The list comprehension of `_build_options_string`: one token per entry
   * that is not off, in the dict's iteration order; the first entry whose
   * token cannot be built raises.
   */
  function Tokens(d: Dict<Value>): (r: Result<seq<string>, Error>)
    ensures r.Ok? <==> forall i :: 0 <= i < |d| ==> FlagToken(d[i].0, d[i].1).Ok?
    ensures r.Err? ==> exists i :: FailsFirstAt(d, i, r.error)
  {
    if d == [] then Ok([])
    else match FlagToken(d[0].0, d[0].1)
      case Err(e) =>
        assert FailsFirstAt(d, 0, e);
        Err(e)
      case Ok(t) =>
        match Tokens(d[1..])
        case Err(e) =>
          ghost var i :| FailsFirstAt(d[1..], i, e);
          FailsFirstShift(d, i, e);
          Err(e)
        case Ok(ts) =>
          assert forall i :: 1 <= i < |d| ==> d[i] == d[1..][i - 1];
          Ok(if t.Some? then [t.value] + ts else ts)
  }

  /**
   * `_build_options_string()`: the tokens separated by single spaces. It fails
   * exactly when a token cannot be built, and otherwise starts with the first
   * token and ends with the last.
   */
  function OptionsString(d: Dict<Value>): (r: Result<string, Error>)
    ensures r.Ok? <==> Tokens(d).Ok?
    ensures r.Err? ==> Tokens(d) == Err(r.error)
    ensures r.Ok? && Tokens(d).value != [] ==> Tokens(d).value[0] <= r.value
    ensures r.Ok? && Tokens(d).value != [] ==>
      var last := Tokens(d).value[|Tokens(d).value| - 1];
      |last| <= |r.value| && r.value[|r.value| - |last|..] == last
    ensures r.Ok? && Tokens(d).value == [] ==> r.value == ""
  {
    match Tokens(d)
    case Err(e) => Err(e)
    case Ok(ts) => Ok(Join(" ", ts))
  }

  /** Reads a list of tokens back into the flags they set, in order. */
  function DecodeTokens(ts: seq<string>): Option<Dict<Value>>
  {
    if ts == [] then Some([])
    else match ParseToken(ts[0])
      case None => None
      case Some(e) =>
        match DecodeTokens(ts[1..])
        case None => None
        case Some(rest) => Some([e] + rest)
  }

  /** The entries of `d` that are not off, in order. */
  function Active(d: Dict<Value>): Dict<Value>
  {
    if d == [] then []
    else (if d[0].1 == Bool(false) then [] else [d[0]]) + Active(d[1..])
  }

  /**
   * The tokens are a faithful encoding of the stored options: reading them
   * back gives exactly the entries that are not off, in the dict's order.
   */
  lemma {:induction false} TokensDecode(d: Dict<Value>)
    requires Tokens(d).Ok?
    ensures DecodeTokens(Tokens(d).value) == Some(Active(d))
  {
    if d != [] {
      TokensDecode(d[1..]);
      var ts := Tokens(d[1..]).value;
      var t := FlagToken(d[0].0, d[0].1).value;
      if t.Some? {
        TokenRoundTrip(d[0].0, d[0].1);
        assert Tokens(d).value == [t.value] + ts;
        assert ([t.value] + ts)[1..] == ts;
        assert Active(d) == [d[0]] + Active(d[1..]);
      } else {
        assert Tokens(d).value == ts;
        assert Active(d) == Active(d[1..]);
      }
    }
  }

  /** Entries that are off contribute nothing: the tokens depend on the active entries only. */
  lemma {:induction false} TokensActive(d: Dict<Value>)
    requires Tokens(d).Ok?
    ensures Tokens(Active(d)) == Tokens(d)
  {
    if d != [] {
      assert Tokens(d[1..]).Ok?;
      TokensActive(d[1..]);
      var t := FlagToken(d[0].0, d[0].1);
      var ts := Tokens(d[1..]).value;
      if d[0].1 != Bool(false) {
        var a := [d[0]] + Active(d[1..]);
        assert Active(d) == a && a[0] == d[0] && a[1..] == Active(d[1..]);
        assert Tokens(a) == Ok([t.value.value] + ts);
      } else {
        assert Active(d) == Active(d[1..]);
        assert Tokens(d) == Ok(ts);
      }
    }
  }

  /**
   * Each listed token is the text `_build_options_parameter` builds for the
   * matching flag that is not off, so integers appear in canonical decimal.
   */
  lemma {:induction false} TokensOfActive(d: Dict<Value>)
    requires Tokens(d).Ok?
    ensures |Tokens(d).value| == |Active(d)|
    ensures forall i :: 0 <= i < |Active(d)| ==>
      FlagToken(Active(d)[i].0, Active(d)[i].1) == Ok(Some(Tokens(d).value[i]))
  {
    if d != [] {
      TokensOfActive(d[1..]);
      var ts := Tokens(d[1..]).value;
      var t := FlagToken(d[0].0, d[0].1).value;
      if d[0].1 != Bool(false) {
        assert Tokens(d).value == [t.value] + ts;
        assert Active(d) == [d[0]] + Active(d[1..]);
      } else {
        assert Tokens(d).value == ts;
        assert Active(d) == Active(d[1..]);
      }
    }
  }

  /** `a` occurs in `b` in the same order, possibly with gaps. */
  predicate SubsequenceOf(a: seq<string>, b: seq<string>)
    decreases |b|
  {
    a == [] || (b != [] && ((a[0] == b[0] && SubsequenceOf(a[1..], b[1..])) || SubsequenceOf(a, b[1..])))
  }

  /** The active entries keep the dict's key order. */
  lemma {:induction false} ActiveKeysInOrder(d: Dict<Value>)
    ensures SubsequenceOf(Keys(Active(d)), Keys(d))
  {
    if d != [] {
      ActiveKeysInOrder(d[1..]);
      assert Keys(d)[1..] == Keys(d[1..]);
      if d[0].1 != Bool(false) {
        var a := [d[0]] + Active(d[1..]);
        assert Active(d) == a;
        assert Keys(a)[0] == Keys(d)[0] && Keys(a)[1..] == Keys(Active(d[1..]));
      } else {
        assert Active(d) == Active(d[1..]);
      }
    }
  }

  /** A dict whose flags are all off yields the empty options string. */
  lemma {:induction false} AllOffOptionsString(d: Dict<Value>)
    requires forall i :: 0 <= i < |d| ==> d[i].0 in Registry && d[i].1 == Bool(false)
    ensures OptionsString(d) == Ok("")
  {
    if d != [] {
      assert forall i :: 0 <= i < |d| - 1 ==> d[1..][i] == d[i + 1];
      AllOffOptionsString(d[1..]);
    }
  }

  /** The names in a `set_options` call that are not registry flags. */
  function InvalidKeys(supplied: Dict<Value>): set<string>
  {
    set k | k in Keys(supplied) && k !in Registry
  }

  lemma {:induction false} InvalidKeysAppend(first: Dict<Value>, second: Dict<Value>)
    requires InvalidKeys(first) == {}
    ensures InvalidKeys(first + second) == InvalidKeys(second)
  {
    assert Keys(first + second) == Keys(first) + Keys(second);
    forall k ensures k in InvalidKeys(first + second) <==> k in InvalidKeys(second) {
      if k in Keys(first) {
        assert k !in InvalidKeys(first);
      }
    }
  }

  /** What a runner may hold: distinct registry names (none before the first merge). */
  predicate WellKeyed(d: Dict<Value>) {
    Distinct(Keys(d)) && forall k :: k in Keys(d) ==> k in Registry
  }

  /**
   * `set_options(**supplied)` on stored options `stored`: fails naming every
   * unknown key, otherwise `{**option_defaults, **stored, **supplied}`.
   */
  function MergeOptions(stored: Dict<Value>, supplied: Dict<Value>): (r: Result<Dict<Value>, Error>)
    ensures r.Err? <==> exists k :: k in Keys(supplied) && k !in Registry
    ensures r.Err? ==> r.error.InvalidOptions? && forall k :: k in r.error.keys <==> k in Keys(supplied) && k !in Registry
  {
    var invalid := InvalidKeys(supplied);
    assert forall k :: k in Keys(supplied) && k !in Registry ==> k in invalid;
    if invalid != {} then
      Err(InvalidOptions(invalid))
    else
      Ok(Spread(Spread(OptionDefaults, stored), supplied))
  }

  /**
   * After a successful merge over well-keyed options the stored keys are
   * exactly the registry, in registry order, whatever order the call named them in.
   */
  lemma {:induction false} MergeOptionsKeys(stored: Dict<Value>, supplied: Dict<Value>)
    requires WellKeyed(stored) && MergeOptions(stored, supplied).Ok?
    ensures Keys(MergeOptions(stored, supplied).value) == Registry
    ensures WellKeyed(MergeOptions(stored, supplied).value)
  {
    RegistryDistinct();
    SpreadKeys(OptionDefaults, stored);
    SpreadKeys(Spread(OptionDefaults, stored), supplied);
  }

  /**
   * The precedence of the merge, key by key: a supplied value wins, then the
   * stored one, then the registry default `False`; unknown names read nothing.
   */
  lemma {:induction false} MergeOptionsLookup(stored: Dict<Value>, supplied: Dict<Value>, k: string)
    requires WellKeyed(stored) && Distinct(Keys(supplied))
    requires MergeOptions(stored, supplied).Ok?
    ensures Get(MergeOptions(stored, supplied).value, k) ==
      if k in Keys(supplied) then Get(supplied, k)
      else if k in Keys(stored) then Get(stored, k)
      else if k in Registry then Some(Bool(false))
      else None
  {
    SpreadGet(Spread(OptionDefaults, stored), supplied, k);
    SpreadGet(OptionDefaults, stored, k);
    AllOffGet(OptionDefaults, k);
  }

  /**
   * Two successive `set_options` calls act as one call naming the first
   * call's options followed by the second's: disjoint calls accumulate, and
   * on a shared key the later call wins.
   */
  lemma {:induction false} MergeOptionsCumulative(stored: Dict<Value>, first: Dict<Value>, second: Dict<Value>)
    requires WellKeyed(stored) && MergeOptions(stored, first).Ok?
    ensures MergeOptions(MergeOptions(stored, first).value, second) == MergeOptions(stored, first + second)
  {
    var m1 := MergeOptions(stored, first).value;
    MergeOptionsKeys(stored, first);
    InvalidKeysAppend(first, second);
    if InvalidKeys(second) == {} {
      RegistryDistinct();
      SpreadOnto(OptionDefaults, m1);
      SpreadAppend(Spread(OptionDefaults, stored), first, second);
    }
  }

  /** `set_options()` with no arguments leaves a runner's options as they are. */
  lemma {:induction false} MergeOptionsNothing(stored: Dict<Value>)
    requires Keys(stored) == Registry
    ensures MergeOptions(stored, []) == Ok(stored)
  {
    assert InvalidKeys([]) == {};
    RegistryDistinct();
    SpreadOnto(OptionDefaults, stored);
    assert Spread(Spread(OptionDefaults, stored), []) == stored;
  }
}
