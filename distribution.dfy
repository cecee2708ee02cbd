/**
 * A tool's `coDistribution`: a JavaScript object from CO id to marks. Such an
 * object lists the keys that are not array indices in insertion order
 * (Object.keys / Object.entries), and the CO ids the page creates are such
 * keys. It is modelled as a sequence of (key, value) pairs in insertion order,
 * in which each key occurs at most once; keys that are array indices, which
 * JavaScript lists first in ascending order, are not ordered that way here.
 */
module Distribution {
  import opened Js

  type Dist = seq<(string, int)>

  /** `Object.keys(d)`. */
  function Keys(d: Dist): (ks: seq<string>)
    ensures |ks| == |d|
    ensures forall i :: 0 <= i < |d| ==> ks[i] == d[i].0
    decreases |d|
  {
    if |d| == 0 then [] else [d[0].0] + Keys(d[1..])
  }

  /** `d[k]`, absent when `k` is not a key. */
  function Lookup(d: Dist, k: string): (r: Option<int>)
    ensures r.Some? <==> k in Keys(d)
    ensures r.Some? ==> (k, r.value) in d
    decreases |d|
  {
    if |d| == 0 then None
    else if d[0].0 == k then Some(d[0].1)
    else Lookup(d[1..], k)
  }

  /** No key occurs twice (true of every JavaScript object). */
  predicate UniqueKeys(d: Dist)
    decreases |d|
  {
    |d| == 0 || (d[0].0 !in Keys(d[1..]) && UniqueKeys(d[1..]))
  }

  /** Every allotted mark is positive. */
  predicate AllPositive(d: Dist) {
    forall e :: e in d ==> e.1 > 0
  }

  /** `Object.values(d).reduce((a, b) => a + b, 0)`. */
  function Total(d: Dist): int
    decreases |d|
  {
    if |d| == 0 then 0 else d[0].1 + Total(d[1..])
  }

  /** `d[k] = v`. */
  function Assign(d: Dist, k: string, v: int): (r: Dist)
    ensures Lookup(r, k) == Some(v)
    ensures forall j :: j != k ==> Lookup(r, j) == Lookup(d, j)
    ensures forall j :: j in Keys(r) <==> j in Keys(d) || j == k
    ensures forall e :: e in r ==> e in d || e == (k, v)
    decreases |d|
  {
    if |d| == 0 then [(k, v)]
    else if d[0].0 == k then
      assert ([(k, v)] + d[1..])[1..] == d[1..];
      [(k, v)] + d[1..]
    else
      var rest := Assign(d[1..], k, v);
      assert ([d[0]] + rest)[1..] == rest;
      [d[0]] + rest
  }

  /** Assigning to an existing key keeps its place; a new key goes last. */
  lemma {:induction false} AssignOrder(d: Dist, k: string, v: int)
    ensures k in Keys(d) ==> Keys(Assign(d, k, v)) == Keys(d)
    ensures k !in Keys(d) ==> Assign(d, k, v) == d + [(k, v)]
    decreases |d|
  {
    if |d| > 0 && d[0].0 != k {
      AssignOrder(d[1..], k, v);
      assert d == [d[0]] + d[1..];
      assert Keys(d) == [d[0].0] + Keys(d[1..]);
    }
  }

  /** Assignment keeps every key unique. */
  lemma {:induction false} AssignKeepsUnique(d: Dist, k: string, v: int)
    ensures UniqueKeys(d) ==> UniqueKeys(Assign(d, k, v))
    decreases |d|
  {
    if |d| > 0 && UniqueKeys(d) {
      var r := Assign(d, k, v);
      if d[0].0 == k {
        assert r[1..] == d[1..];
      } else {
        AssignKeepsUnique(d[1..], k, v);
        assert r[1..] == Assign(d[1..], k, v);
      }
    }
  }

  /** `delete d[k]`: the other keys keep their values and their order. */
  function Delete(d: Dist, k: string): (r: Dist)
    ensures k !in Keys(r)
    ensures forall j :: j != k ==> Lookup(r, j) == Lookup(d, j)
    ensures forall j :: j in Keys(r) <==> j in Keys(d) && j != k
    ensures forall e :: e in r ==> e in d
    ensures Subsequence(r, d)
    ensures UniqueKeys(d) ==> UniqueKeys(r)
    decreases |d|
  {
    if |d| == 0 then []
    else if d[0].0 == k then Delete(d[1..], k)
    else
      var rest := Delete(d[1..], k);
      assert ([d[0]] + rest)[1..] == rest;
      [d[0]] + rest
  }
}
