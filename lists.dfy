/**
 * Order-preserving selection over sequences: the `filter`/`map` pairs and
 * push-when-matched loops of the analyzer, and `slice(0, n)`.
 */
module Lists {
  import opened Wrappers

  /** Keeps `f(x).value` for each `x` where `f` gives a value, in order. */
  function MapFilter<T, U>(xs: seq<T>, f: T -> Option<U>): (r: seq<U>)
    ensures |r| <= |xs|
  {
    if xs == [] then []
    else
      var n := |xs| - 1;
      MapFilter(xs[..n], f) + if f(xs[n]).Some? then [f(xs[n]).value] else []
  }

  /** The positions at which `f` gives a value, in increasing order. */
  function KeptIndices<T, U>(xs: seq<T>, f: T -> Option<U>): (idx: seq<nat>)
    ensures forall k :: 0 <= k < |idx| ==> idx[k] < |xs|
  {
    if xs == [] then []
    else
      var n := |xs| - 1;
      KeptIndices(xs[..n], f) + if f(xs[n]).Some? then [n] else []
  }

  lemma MapFilterStep<T, U>(xs: seq<T>, f: T -> Option<U>, i: nat)
    requires i < |xs|
    ensures MapFilter(xs[..i + 1], f) == MapFilter(xs[..i], f) + if f(xs[i]).Some? then [f(xs[i]).value] else []
  {
    assert xs[..i + 1][..i] == xs[..i];
  }

  /**
   * `MapFilter` yields exactly the values at the kept positions: one per
   * kept element, none for the others, in the original order.
   */
  lemma {:induction false} MapFilterAt<T, U>(xs: seq<T>, f: T -> Option<U>)
    ensures var r, idx := MapFilter(xs, f), KeptIndices(xs, f);
      && |r| == |idx|
      && (forall k :: 0 <= k < |r| ==> f(xs[idx[k]]).Some? && r[k] == f(xs[idx[k]]).value)
      && (forall k1, k2 :: 0 <= k1 < k2 < |idx| ==> idx[k1] < idx[k2])
      && (forall i :: 0 <= i < |xs| ==> (i in idx <==> f(xs[i]).Some?))
  {
    if xs != [] {
      var n := |xs| - 1;
      MapFilterAt(xs[..n], f);
      forall i | 0 <= i < n
        ensures xs[..n][i] == xs[i]
      {
      }
    }
  }

  /** When `f` gives a value everywhere and returns its argument, nothing is dropped. */
  lemma {:induction false} MapFilterKeepsAll<T>(xs: seq<T>, f: T -> Option<T>)
    requires forall i :: 0 <= i < |xs| ==> f(xs[i]) == Some(xs[i])
    ensures MapFilter(xs, f) == xs
  {
    if xs != [] {
      var n := |xs| - 1;
      MapFilterKeepsAll(xs[..n], f);
      assert xs[..n] + [xs[n]] == xs;
    }
  }

  /** `MapFilter` of values mapped one to one gives the images in order. */
  lemma {:induction false} MapFilterImages<T, U>(xs: seq<T>, f: T -> Option<U>, ys: seq<U>)
    requires |xs| == |ys|
    requires forall i :: 0 <= i < |xs| ==> f(xs[i]) == Some(ys[i])
    ensures MapFilter(xs, f) == ys
  {
    if xs != [] {
      var n := |xs| - 1;
      MapFilterImages(xs[..n], f, ys[..n]);
      assert ys[..n] + [ys[n]] == ys;
    }
  }

  /** `xs.slice(0, n)`. */
  function Take<T>(xs: seq<T>, n: nat): (r: seq<T>)
    ensures |r| == if |xs| <= n then |xs| else n
    ensures r <= xs
  {
    if |xs| <= n then xs else xs[..n]
  }
}
