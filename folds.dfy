/**
 * Folds over a sequence that a `for _, x := range xs` loop computes: the
 * set of the values some elements yield, and the concatenation of what
 * every element yields, each with its membership law.
 */
module Folds {
  import opened Wrappers

  /** The set of the values `f` yields on the elements of `xs`, elements yielding `None` adding nothing. */
  function Image<T, U>(xs: seq<T>, f: T -> Option<U>): set<U> {
    if xs == [] then {}
    else
      Image(xs[..|xs| - 1], f) + match f(xs[|xs| - 1]) { case Some(u) => {u} case None => {} }
  }

  /** A value is in the image exactly when some element yields it. */
  lemma {:induction false} ImageMembership<T, U>(xs: seq<T>, f: T -> Option<U>, u: U)
    ensures u in Image(xs, f) <==> exists i :: 0 <= i < |xs| && f(xs[i]) == Some(u)
  {
    if xs != [] {
      var n := |xs| - 1;
      var prefix := xs[..n];
      ImageMembership(prefix, f, u);
      if u in Image(prefix, f) {
        var i :| 0 <= i < |prefix| && f(prefix[i]) == Some(u);
        assert xs[i] == prefix[i];
      }
      if i :| 0 <= i < |xs| && f(xs[i]) == Some(u) {
        if i < n {
          assert prefix[i] == xs[i];
        }
      }
    }
  }

  /** What `f` yields on each element of `xs`, one after the other. */
  function FlatMap<T, U>(xs: seq<T>, f: T -> seq<U>): seq<U> {
    if xs == [] then [] else FlatMap(xs[..|xs| - 1], f) + f(xs[|xs| - 1])
  }

  /** An element of the concatenation comes from some element of `xs`, and all of them are there. */
  lemma {:induction false} FlatMapMembership<T, U>(xs: seq<T>, f: T -> seq<U>, u: U)
    ensures u in FlatMap(xs, f) <==> exists i :: 0 <= i < |xs| && u in f(xs[i])
  {
    if xs != [] {
      var n := |xs| - 1;
      var prefix := xs[..n];
      FlatMapMembership(prefix, f, u);
      if u in FlatMap(prefix, f) {
        var i :| 0 <= i < |prefix| && u in f(prefix[i]);
        assert xs[i] == prefix[i];
      }
      if i :| 0 <= i < |xs| && u in f(xs[i]) {
        if i < n {
          assert prefix[i] == xs[i];
        }
      }
    }
  }

  /** If every element yields at most `b` values, the concatenation holds at most `b` per element. */
  lemma {:induction false} FlatMapBound<T, U>(xs: seq<T>, f: T -> seq<U>, b: nat)
    requires forall i :: 0 <= i < |xs| ==> |f(xs[i])| <= b
    ensures |FlatMap(xs, f)| <= b * |xs|
  {
    if xs != [] {
      var n := |xs| - 1;
      var prefix := xs[..n];
      forall i | 0 <= i < |prefix| ensures |f(prefix[i])| <= b {
        assert prefix[i] == xs[i];
      }
      FlatMapBound(prefix, f, b);
      assert b * |xs| == b * n + b;
    }
  }
}
