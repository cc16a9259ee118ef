/**
 * The string operations the command builder relies on: Python's
 * `sep.join(parts)`, the decimal rendering of an `int` in an f-string, and
 * the parsers that undo them.
 */
module Text {
  import opened Results

  /**
   * `sep.join(parts)`: it starts with the first part and ends with the last;
   * with `JoinAppend` (one separator between any two non-empty halves) this
   * determines it.
   */
  function Join(sep: string, parts: seq<string>): (r: string)
    ensures parts == [] ==> r == ""
    ensures |parts| == 1 ==> r == parts[0]
    ensures parts != [] ==> |parts[0]| <= |r| && r[..|parts[0]|] == parts[0]
    ensures parts != [] ==> |parts[|parts| - 1]| <= |r| && r[|r| - |parts[|parts| - 1]|..] == parts[|parts| - 1]
  {
    if |parts| == 0 then ""
    else if |parts| == 1 then parts[0]
    else parts[0] + sep + Join(sep, parts[1..])
  }

  /** String concatenation is associative. */
  lemma AppendAssoc(p: string, x: string, sep: string, y: string)
    ensures p + (x + sep + y) == (p + x) + sep + y
  {
  }

  /** Joining two non-empty lists puts exactly one separator between their joins. */
  lemma {:induction false} JoinAppend(sep: string, a: seq<string>, b: seq<string>)
    requires a != [] && b != []
    ensures Join(sep, a + b) == Join(sep, a) + sep + Join(sep, b)
    decreases |a|
  {
    var ab := a + b;
    assert ab[0] == a[0];
    if |a| == 1 {
      assert ab[1..] == b;
    } else {
      assert ab[1..] == a[1..] + b;
      JoinAppend(sep, a[1..], b);
      AppendAssoc(a[0] + sep, Join(sep, a[1..]), sep, Join(sep, b));
    }
  }

  predicate IsDigit(c: char) {
    '0' <= c <= '9'
  }

  function DigitChar(d: nat): (c: char)
    requires d < 10
    ensures IsDigit(c)
  {
    ('0' as int + d) as char
  }

  function DigitValue(c: char): nat
    requires IsDigit(c)
  {
    c as int - '0' as int
  }

  /** The decimal digits of `n`, most significant first, with no leading zero. */
  function NatDigits(n: nat): (s: string)
    ensures |s| >= 1
    ensures forall i :: 0 <= i < |s| ==> IsDigit(s[i])
    ensures s[0] == '0' <==> n == 0
  {
    if n < 10 then [DigitChar(n)]
    else
      var front := NatDigits(n / 10);
      assert (front + [DigitChar(n % 10)])[0] == front[0];
      front + [DigitChar(n % 10)]
  }

  /**
   * `str(n)` for a Python `int`, in its canonical form: a minus sign exactly
   * for negatives, then the digits with no leading zero (so no `-0` and no
   * `007`).
   */
  function DecimalString(n: int): (s: string)
    ensures |s| >= 1 && s[0] != '"' && '"' !in s
    ensures s[0] == '-' <==> n < 0
    ensures n == 0 <==> s == "0"
    ensures n < 0 ==> |s| >= 2 && IsDigit(s[1]) && s[1] != '0'
    ensures n >= 0 ==> s[0] != '0' || s == "0"
  {
    if n < 0 then "-" + NatDigits(-n) else NatDigits(n)
  }

  /** Reads a non-empty run of decimal digits. */
  function ParseNat(s: string): Option<nat>
    decreases |s|
  {
    if |s| == 0 || !IsDigit(s[|s| - 1]) then None
    else if |s| == 1 then Some(DigitValue(s[0]))
    else match ParseNat(s[..|s| - 1])
      case None => None
      case Some(p) => Some(p * 10 + DigitValue(s[|s| - 1]))
  }

  /** Reads an optional minus sign followed by decimal digits. */
  function ParseInt(s: string): Option<int>
  {
    if |s| > 0 && s[0] == '-' then
      match ParseNat(s[1..])
      case None => None
      case Some(m) => Some(-(m as int))
    else
      match ParseNat(s)
      case None => None
      case Some(m) => Some(m)
  }

  lemma {:induction false} NatDigitsRoundTrip(n: nat)
    ensures ParseNat(NatDigits(n)) == Some(n)
  {
    if n >= 10 {
      var s := NatDigits(n);
      assert s[..|s| - 1] == NatDigits(n / 10);
      NatDigitsRoundTrip(n / 10);
    }
  }

  /** A string that starts with a digit reads as a natural number or not at all. */
  lemma {:induction false} ParseIntUnsigned(s: string)
    requires |s| >= 1 && IsDigit(s[0])
    ensures ParseInt(s) == if ParseNat(s).Some? then Some(ParseNat(s).value as int) else None
  {
  }

  /** A minus sign in front negates what the rest reads as. */
  lemma {:induction false} ParseIntSigned(d: string)
    ensures ParseInt("-" + d) == if ParseNat(d).Some? then Some(-(ParseNat(d).value as int)) else None
  {
    assert ("-" + d)[1..] == d;
  }

  /** Reading back the decimal rendering of any integer gives that integer. */
  lemma {:induction false} DecimalRoundTrip(n: int)
    ensures ParseInt(DecimalString(n)) == Some(n)
  {
    if n < 0 {
      NatDigitsRoundTrip(-n);
      ParseIntSigned(NatDigits(-n));
    } else {
      NatDigitsRoundTrip(n);
      ParseIntUnsigned(NatDigits(n));
    }
  }

  /** `s.index(c)` when `c` occurs in `s`: the position of its first occurrence. */
  function IndexOf(s: string, c: char): (r: Option<nat>)
    ensures r.None? <==> c !in s
    ensures r.Some? ==> r.value < |s| && s[r.value] == c && c !in s[..r.value]
  {
    if |s| == 0 then None
    else if s[0] == c then Some(0)
    else match IndexOf(s[1..], c)
      case None => None
      case Some(i) => (assert s[..i + 1] == [s[0]] + s[1..][..i]; Some(i + 1))
  }

  /** The first `c` in `a + [c] + b`, when `a` has none, is the one after `a`. */
  lemma IndexOfFirst(a: string, c: char, b: string)
    requires c !in a
    ensures IndexOf(a + [c] + b, c) == Some(|a|)
  {
    var s := a + [c] + b;
    assert s[|a|] == c;
  }
}
