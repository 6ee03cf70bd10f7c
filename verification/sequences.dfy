/** Sequence helpers shared by the retrieval code. */
module Sequences {
  import opened Wrappers

  /** The images under `f` of the elements `f` keeps, in order. */
  function FilterMap<T, U>(xs: seq<T>, f: T -> Option<U>): (ys: seq<U>)
    ensures |ys| <= |xs|
    decreases |xs|
  {
    if xs == [] then []
    else FilterMap(xs[..|xs| - 1], f) + match f(xs[|xs| - 1]) case Some(y) => [y] case None => []
  }

  /**
   * `FilterMap` keeps each kept element exactly once and in order: `idx` lists the positions of
   * the elements `f` keeps, strictly increasing, and `ys[k]` is the image of `xs[idx[k]]`.
   */
  lemma {:induction false} FilterMapFollows<T, U>(xs: seq<T>, f: T -> Option<U>) returns (idx: seq<nat>)
    ensures |idx| == |FilterMap(xs, f)|
    ensures forall k | 0 <= k < |idx| :: idx[k] < |xs| && f(xs[idx[k]]) == Some(FilterMap(xs, f)[k])
    ensures forall k, l | 0 <= k < l < |idx| :: idx[k] < idx[l]
    ensures forall i | 0 <= i < |xs| && f(xs[i]).Some? :: i in idx
  {
    if xs == [] {
      idx := [];
    } else {
      var n := |xs| - 1;
      var init := xs[..n];
      var prev := FilterMapFollows(init, f);
      assert forall i | 0 <= i < n :: init[i] == xs[i];
      if f(xs[n]).Some? {
        idx := prev + [n];
        assert FilterMap(xs, f) == FilterMap(init, f) + [f(xs[n]).value];
      } else {
        idx := prev;
        assert FilterMap(xs, f) == FilterMap(init, f) + [];
      }
    }
  }
}
