/** Array.prototype.find over a sequence of records keyed by an integer id. */
module Find {

  /** Index of the first element whose key is `id`, or `|xs|` when there is none. */
  function FirstIndex<T>(xs: seq<T>, key: T -> int, id: int): (k: nat)
    ensures k <= |xs|
    ensures forall j :: 0 <= j < k ==> key(xs[j]) != id
    ensures k < |xs| ==> key(xs[k]) == id
  {
    if xs == [] then 0
    else if key(xs[0]) == id then 0
    else 1 + FirstIndex(xs[1..], key, id)
  }

  /** The first index depends only on the keys up to it: a sequence that keeps those
      keys has the same first index. */
  lemma FirstIndexStable<T>(xs: seq<T>, ys: seq<T>, key: T -> int, id: int)
    requires FirstIndex(xs, key, id) < |xs| <= |ys|
    requires forall i :: 0 <= i < |xs| ==> key(ys[i]) == key(xs[i])
    ensures FirstIndex(ys, key, id) == FirstIndex(xs, key, id)
  {
    var k := FirstIndex(xs, key, id);
    var k' := FirstIndex(ys, key, id);
    assert key(ys[k]) == id;
    assert k' <= k;
    assert key(xs[k']) == key(ys[k']);
  }
}
