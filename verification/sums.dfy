/**
 Exact sums over sequences of reals. Every running total in the script
 (the sum of inverse volatilities, the portfolio value, the cash update)
 adds its terms left to right; `Sum` folds in that same order.
 */
module Sums {

  /** Left-to-right sum of `s`. */
  function Sum(s: seq<real>): real
  {
    if |s| == 0 then 0.0 else Sum(s[..|s| - 1]) + s[|s| - 1]
  }

  /** Every term multiplied by `c`. */
  function Scale(s: seq<real>, c: real): (r: seq<real>)
    ensures |r| == |s|
  {
    seq(|s|, i requires 0 <= i < |s| => s[i] * c)
  }

  /** Pointwise difference. */
  function Diff(u: seq<real>, w: seq<real>): (r: seq<real>)
    requires |u| == |w|
    ensures |r| == |u|
  {
    seq(|u|, i requires 0 <= i < |u| => u[i] - w[i])
  }

  /** Pointwise product. */
  function Products(u: seq<real>, w: seq<real>): (r: seq<real>)
    requires |u| == |w|
    ensures |r| == |u|
  {
    seq(|u|, i requires 0 <= i < |u| => u[i] * w[i])
  }

  /** Sum of pointwise products: Σ u[i]·w[i]. */
  function Dot(u: seq<real>, w: seq<real>): real
    requires |u| == |w|
  {
    Sum(Products(u, w))
  }

  /** Integers viewed as reals. */
  function AsReals(t: seq<int>): (r: seq<real>)
    ensures |r| == |t|
  {
    seq(|t|, i requires 0 <= i < |t| => t[i] as real)
  }

  /** Scaling commutes with summation. */
  lemma {:induction false} SumScale(s: seq<real>, c: real)
    ensures Sum(Scale(s, c)) == Sum(s) * c
  {
    if |s| > 0 {
      var n := |s| - 1;
      assert forall i :: 0 <= i < n ==> Scale(s, c)[..n][i] == Scale(s[..n], c)[i];
      assert Scale(s, c)[..n] == Scale(s[..n], c);
      SumScale(s[..n], c);
    }
  }

  /** Summation is linear in a pointwise difference. */
  lemma {:induction false} SumDiff(u: seq<real>, w: seq<real>)
    requires |u| == |w|
    ensures Sum(Diff(u, w)) == Sum(u) - Sum(w)
  {
    if |u| > 0 {
      var n := |u| - 1;
      assert Diff(u, w)[..n] == Diff(u[..n], w[..n]);
      SumDiff(u[..n], w[..n]);
    }
  }

  /** Summation is monotone. */
  lemma {:induction false} SumLe(u: seq<real>, w: seq<real>)
    requires |u| == |w|
    requires forall i :: 0 <= i < |u| ==> u[i] <= w[i]
    ensures Sum(u) <= Sum(w)
  {
    if |u| > 0 {
      var n := |u| - 1;
      SumLe(u[..n], w[..n]);
    }
  }

  /** Summation is strictly monotone on nonempty sequences. */
  lemma {:induction false} SumLt(u: seq<real>, w: seq<real>)
    requires |u| == |w| > 0
    requires forall i :: 0 <= i < |u| ==> u[i] < w[i]
    ensures Sum(u) < Sum(w)
  {
    var n := |u| - 1;
    if n > 0 {
      SumLt(u[..n], w[..n]);
    } else {
      assert u[..n] == [] && w[..n] == [];
    }
  }

  /** A nonempty sum of positive terms is positive. */
  lemma {:induction false} SumPositive(s: seq<real>)
    requires |s| > 0
    requires forall i :: 0 <= i < |s| ==> s[i] > 0.0
    ensures Sum(s) > 0.0
  {
    var n := |s| - 1;
    if n > 0 {
      SumPositive(s[..n]);
    } else {
      assert s[..n] == [];
    }
  }

  /** Extending both factors by one element adds one product to the dot product. */
  lemma DotStep(u: seq<real>, w: seq<real>, i: int)
    requires |u| == |w|
    requires 0 <= i < |u|
    ensures Dot(u[..i + 1], w[..i + 1]) == Dot(u[..i], w[..i]) + u[i] * w[i]
  {
    assert forall j :: 0 <= j < i ==> Products(u[..i + 1], w[..i + 1])[..i][j] == Products(u[..i], w[..i])[j];
    assert Products(u[..i + 1], w[..i + 1])[..i] == Products(u[..i], w[..i]);
  }

  /** The dot product is linear in a pointwise difference of its first factor. */
  lemma {:induction false} DotDiff(u: seq<real>, w: seq<real>, p: seq<real>)
    requires |u| == |w| == |p|
    ensures Dot(Diff(u, w), p) == Dot(u, p) - Dot(w, p)
  {
    if |u| > 0 {
      var n := |u| - 1;
      var d := Diff(u, w);
      assert Diff(u, w)[..n] == Diff(u[..n], w[..n]);
      DotDiff(u[..n], w[..n], p[..n]);
      DotStep(d, p, n);
      DotStep(u, p, n);
      DotStep(w, p, n);
      assert d[..n + 1] == d && u[..n + 1] == u && w[..n + 1] == w && p[..n + 1] == p;
      assert (u[n] - w[n]) * p[n] == u[n] * p[n] - w[n] * p[n];
    }
  }
}
