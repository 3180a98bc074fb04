/** `Array.prototype.findIndex` by key, shared by the frontend stores. */
module Sequences {

  /** `xs.findIndex(x => key(x) === k)`: the first position whose key is
      `k`, or -1. */
  function FindIndex<T, K(==)>(xs: seq<T>, key: T -> K, k: K): (r: int)
    ensures -1 <= r < |xs|
    ensures r >= 0 ==> key(xs[r]) == k
    ensures forall j :: 0 <= j < |xs| && (r == -1 || j < r) ==> key(xs[j]) != k
  {
    if xs == [] then -1
    else if key(xs[0]) == k then 0
    else
      var r := FindIndex(xs[1..], key, k);
      assert forall j :: 1 <= j < |xs| ==> xs[j] == xs[1..][j - 1];
      if r == -1 then -1 else r + 1
  }

  /** The first element with the key is at `p`. */
  lemma FindIndexAt<T, K>(xs: seq<T>, key: T -> K, k: K, p: int)
    requires 0 <= p < |xs| && key(xs[p]) == k
    requires forall j :: 0 <= j < p ==> key(xs[j]) != k
    ensures FindIndex(xs, key, k) == p
  {
  }

  /** No element has the key. */
  lemma FindIndexNone<T, K>(xs: seq<T>, key: T -> K, k: K)
    requires forall j :: 0 <= j < |xs| ==> key(xs[j]) != k
    ensures FindIndex(xs, key, k) == -1
  {
  }
}
