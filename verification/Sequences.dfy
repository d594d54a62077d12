/** Insertion into a sequence. */
module Sequences {
  function Spliced<T>(r: seq<T>, x: T, k: nat): (r': seq<T>)
    requires k <= |r|
    ensures |r'| == |r| + 1
    ensures forall i :: 0 <= i < |r'| ==> r'[i] == if i < k then r[i] else if i == k then x else r[i - 1]
    ensures multiset(r') == multiset(r) + multiset{x}
  {
    assert r == r[..k] + r[k..];
    r[..k] + [x] + r[k..]
  }
}
