/** Order-preserving selection from a sequence, the shape shared by the
    per-symbol aggregation loop and the importance filter. */
module Subsequences {
  import opened Outcomes

  /** The values `f` yields on the elements of `xs`, in order, skipping the
      elements on which it yields `None`. */
  function KeepMap<T, U>(xs: seq<T>, f: T -> Option<U>): (ys: seq<U>)
    ensures |ys| <= |xs|
  {
    if |xs| == 0 then []
    else
      var last := xs[|xs| - 1];
      KeepMap(xs[..|xs| - 1], f) + (if f(last).Some? then [f(last).value] else [])
  }

  /** The positions of `xs` on which `f` yields a value, in increasing order. */
  function KeptIndices<T, U>(xs: seq<T>, f: T -> Option<U>): seq<int> {
    if |xs| == 0 then []
    else KeptIndices(xs[..|xs| - 1], f) + (if f(xs[|xs| - 1]).Some? then [|xs| - 1] else [])
  }

  /** `ys` is `xs` read at the strictly increasing positions `idx`. */
  ghost predicate EmbedsAt<T>(ys: seq<T>, xs: seq<T>, idx: seq<int>) {
    && |idx| == |ys|
    && (forall k :: 0 <= k < |idx| ==> 0 <= idx[k] < |xs| && xs[idx[k]] == ys[k])
    && (forall k, l :: 0 <= k < l < |idx| ==> idx[k] < idx[l])
  }

  /** `KeepMap` visits `xs` in order: its k-th value comes from the k-th
      position at which `f` yields a value, and every such position is used. */
  lemma {:induction false} KeepMapSelects<T, U>(xs: seq<T>, f: T -> Option<U>)
    ensures var ys := KeepMap(xs, f); var idx := KeptIndices(xs, f);
      && |idx| == |ys|
      && (forall k :: 0 <= k < |idx| ==> 0 <= idx[k] < |xs| && f(xs[idx[k]]) == Some(ys[k]))
      && (forall k, l :: 0 <= k < l < |idx| ==> idx[k] < idx[l])
      && (forall i :: 0 <= i < |xs| ==> (f(xs[i]).Some? <==> i in idx))
  {
    if |xs| > 0 {
      var init := xs[..|xs| - 1];
      KeepMapSelects(init, f);
      var idx0 := KeptIndices(init, f);
      assert forall k :: 0 <= k < |idx0| ==> xs[idx0[k]] == init[idx0[k]];
      assert forall i :: 0 <= i < |init| ==> xs[i] == init[i];
    }
  }

  /** Selecting the elements themselves (an `f` that yields either `None`
      or its argument) gives an order-preserving subsequence that holds
      exactly the selected elements. */
  lemma {:induction false} FilterIsSubsequence<T>(xs: seq<T>, f: T -> Option<T>)
    requires forall x :: f(x).Some? ==> f(x).value == x
    ensures EmbedsAt(KeepMap(xs, f), xs, KeptIndices(xs, f))
    ensures forall i :: 0 <= i < |xs| ==> (f(xs[i]).Some? <==> i in KeptIndices(xs, f))
  {
    KeepMapSelects(xs, f);
  }

  /** Selecting from a concatenation selects from each part in turn. */
  lemma {:induction false} KeepMapAppend<T, U>(xs: seq<T>, ys: seq<T>, f: T -> Option<U>)
    ensures KeepMap(xs + ys, f) == KeepMap(xs, f) + KeepMap(ys, f)
  {
    if |ys| > 0 {
      var init := ys[..|ys| - 1];
      KeepMapAppend(xs, init, f);
      assert (xs + ys)[..|xs + ys| - 1] == xs + init;
    } else {
      assert xs + ys == xs;
    }
  }
}
