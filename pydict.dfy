/**
 * A Python `dict` with string keys, as an association list in insertion
 * order. `Put` is `d[k] = v` (an existing key keeps its position, a new key
 * goes to the end) and `Spread(d, e)` is the literal `{**d, **e}`.
 */
module PyDict {
  import opened Results

  type Dict<V> = seq<(string, V)>

  /** The keys in iteration order, as `d.keys()` gives them. */
  function Keys<V>(d: Dict<V>): (ks: seq<string>)
    ensures |ks| == |d|
    ensures forall i :: 0 <= i < |d| ==> ks[i] == d[i].0
  {
    if d == [] then [] else [d[0].0] + Keys(d[1..])
  }

  predicate Distinct(s: seq<string>) {
    forall i, j :: 0 <= i < j < |s| ==> s[i] != s[j]
  }

  /** `d.get(k)`: the value stored under `k`, if any. */
  function Get<V>(d: Dict<V>, k: string): (r: Option<V>)
    ensures r.Some? <==> k in Keys(d)
  {
    if d == [] then None
    else if d[0].0 == k then Some(d[0].1)
    else Get(d[1..], k)
  }

  /** `d[k] = v` */
  function Put<V>(d: Dict<V>, k: string, v: V): Dict<V>
  {
    if d == [] then [(k, v)]
    else if d[0].0 == k then [(k, v)] + d[1..]
    else [d[0]] + Put(d[1..], k, v)
  }

  /** `{**d, **e}`: the entries of `e`, in order, stored over a copy of `d`. */
  function Spread<V>(d: Dict<V>, e: Dict<V>): Dict<V>
    decreases |e|
  {
    if e == [] then d else Spread(Put(d, e[0].0, e[0].1), e[1..])
  }

  lemma {:induction false} DistinctTail(s: seq<string>)
    requires |s| > 0 && Distinct(s)
    ensures s[0] !in s[1..] && Distinct(s[1..])
  {
  }

  /** Storing under a present key keeps the key order; a new key is appended. */
  lemma {:induction false} PutKeys<V>(d: Dict<V>, k: string, v: V)
    ensures Keys(Put(d, k, v)) == if k in Keys(d) then Keys(d) else Keys(d) + [k]
  {
    if d != [] && d[0].0 != k {
      PutKeys(d[1..], k, v);
      assert Keys(d) == [d[0].0] + Keys(d[1..]);
      assert Keys(Put(d, k, v)) == [d[0].0] + Keys(Put(d[1..], k, v));
    }
  }

  /** After `d[k] = v`, `k` reads `v` and every other key reads what it read before. */
  lemma {:induction false} PutGet<V>(d: Dict<V>, k: string, v: V, j: string)
    ensures Get(Put(d, k, v), j) == if j == k then Some(v) else Get(d, j)
  {
    if d != [] && d[0].0 != k {
      PutGet(d[1..], k, v, j);
      assert Put(d, k, v)[1..] == Put(d[1..], k, v);
    } else if d != [] {
      assert Put(d, k, v)[1..] == d[1..];
    }
  }

  /** Spreading entries whose keys are all present keeps the key order of `d`. */
  lemma {:induction false} SpreadKeys<V>(d: Dict<V>, e: Dict<V>)
    requires forall k :: k in Keys(e) ==> k in Keys(d)
    ensures Keys(Spread(d, e)) == Keys(d)
    decreases |e|
  {
    if e != [] {
      PutKeys(d, e[0].0, e[0].1);
      assert Keys(e) == [e[0].0] + Keys(e[1..]);
      SpreadKeys(Put(d, e[0].0, e[0].1), e[1..]);
    }
  }

  /** In `{**d, **e}` with the keys of `e` distinct, `e` wins wherever it has the key. */
  lemma {:induction false} SpreadGet<V>(d: Dict<V>, e: Dict<V>, j: string)
    requires Distinct(Keys(e))
    ensures Get(Spread(d, e), j) == if j in Keys(e) then Get(e, j) else Get(d, j)
    decreases |e|
  {
    if e != [] {
      var d' := Put(d, e[0].0, e[0].1);
      assert Keys(e) == [e[0].0] + Keys(e[1..]);
      DistinctTail(Keys(e));
      SpreadGet(d', e[1..], j);
      PutGet(d, e[0].0, e[0].1, j);
    }
  }

  /** `{**d, **(a + b)}` is `{**{**d, **a}, **b}`: a later entry overrides an earlier one. */
  lemma {:induction false} SpreadAppend<V>(d: Dict<V>, a: Dict<V>, b: Dict<V>)
    ensures Spread(d, a + b) == Spread(Spread(d, a), b)
    decreases |a|
  {
    if a != [] {
      assert (a + b)[0] == a[0];
      assert (a + b)[1..] == a[1..] + b;
      SpreadAppend(Put(d, a[0].0, a[0].1), a[1..], b);
    } else {
      assert a + b == b;
    }
  }

  /** Two dictionaries with the same distinct keys in the same order and the same lookups are equal. */
  lemma {:induction false} DictExt<V>(d1: Dict<V>, d2: Dict<V>)
    requires Keys(d1) == Keys(d2) && Distinct(Keys(d1))
    requires forall k :: Get(d1, k) == Get(d2, k)
    ensures d1 == d2
  {
    if d1 != [] {
      var k0 := d1[0].0;
      assert Get(d1, k0) == Some(d1[0].1) && Get(d2, k0) == Some(d2[0].1);
      DistinctTail(Keys(d1));
      assert Keys(d1) == [k0] + Keys(d1[1..]);
      assert Keys(d2) == [k0] + Keys(d2[1..]);
      forall k ensures Get(d1[1..], k) == Get(d2[1..], k) {
        if k != k0 {
          assert Get(d1, k) == Get(d1[1..], k);
          assert Get(d2, k) == Get(d2[1..], k);
        }
      }
      DictExt(d1[1..], d2[1..]);
    }
  }

  /** Spreading `e` over a dict with exactly its keys, in the same order, gives `e` back. */
  lemma {:induction false} SpreadOnto<V>(d: Dict<V>, e: Dict<V>)
    requires Keys(e) == Keys(d) && Distinct(Keys(d))
    ensures Spread(d, e) == e
  {
    SpreadKeys(d, e);
    forall k ensures Get(Spread(d, e), k) == Get(e, k) {
      SpreadGet(d, e, k);
    }
    DictExt(Spread(d, e), e);
  }
}
