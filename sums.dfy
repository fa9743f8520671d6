/** Finite sums of reals, the arithmetic that numpy's `sum`, `mean` and
    row-wise division stand for in the mixture model. */
module Sums {

  /** Sum of a sequence, accumulated left to right. */
  function Sum(s: seq<real>): real
    decreases |s|
  {
    if |s| == 0 then 0.0 else Sum(s[..|s| - 1]) + s[|s| - 1]
  }

  /** Every element multiplied by the same factor `c`. */
  function Scale(s: seq<real>, c: real): (r: seq<real>)
    ensures |r| == |s|
  {
    seq(|s|, i requires 0 <= i < |s| => c * s[i])
  }

  /** Element-wise sum of two sequences of the same length. */
  function Plus(a: seq<real>, b: seq<real>): (r: seq<real>)
    requires |a| == |b|
    ensures |r| == |a|
  {
    seq(|a|, i requires 0 <= i < |a| => a[i] + b[i])
  }

  /** Element-wise product of two sequences of the same length. */
  function Products(a: seq<real>, b: seq<real>): (r: seq<real>)
    requires |a| == |b|
    ensures |r| == |a|
  {
    seq(|a|, i requires 0 <= i < |a| => a[i] * b[i])
  }

  /** n copies of c add up to n * c. */
  lemma {:induction false} SumOfConstant(n: nat, c: real)
    ensures Sum(seq(n, _ => c)) == n as real * c
  {
    if n > 0 {
      assert seq(n, _ => c)[..n - 1] == seq(n - 1, _ => c);
      SumOfConstant(n - 1, c);
    }
  }

  /** A common factor comes out of a sum. */
  lemma {:induction false} SumOfScaled(s: seq<real>, c: real)
    ensures Sum(Scale(s, c)) == c * Sum(s)
  {
    if |s| > 0 {
      var n := |s| - 1;
      forall i | 0 <= i < n ensures Scale(s, c)[..n][i] == Scale(s[..n], c)[i] {
      }
      assert Scale(s, c)[..n] == Scale(s[..n], c);
      SumOfScaled(s[..n], c);
    }
  }

  /** Sums are additive over element-wise addition. */
  lemma {:induction false} SumOfPlus(a: seq<real>, b: seq<real>)
    requires |a| == |b|
    ensures Sum(Plus(a, b)) == Sum(a) + Sum(b)
  {
    if |a| > 0 {
      var n := |a| - 1;
      assert Plus(a, b)[..n] == Plus(a[..n], b[..n]);
      SumOfPlus(a[..n], b[..n]);
    }
  }

  /** A sum of nonnegative terms is nonnegative and bounds each term. */
  lemma {:induction false} SumOfNonNegative(s: seq<real>)
    requires forall i :: 0 <= i < |s| ==> s[i] >= 0.0
    ensures Sum(s) >= 0.0
    ensures forall i :: 0 <= i < |s| ==> s[i] <= Sum(s)
  {
    if |s| > 0 {
      SumOfNonNegative(s[..|s| - 1]);
      assert forall i :: 0 <= i < |s| - 1 ==> s[i] == s[..|s| - 1][i];
    }
  }

  /** A nonempty sum of positive terms is positive. */
  lemma {:induction false} SumOfPositive(s: seq<real>)
    requires |s| > 0
    requires forall i :: 0 <= i < |s| ==> s[i] > 0.0
    ensures Sum(s) > 0.0
  {
    if |s| > 1 {
      SumOfPositive(s[..|s| - 1]);
    }
  }

  /** Sums are monotone in every term. */
  lemma {:induction false} SumMonotone(a: seq<real>, b: seq<real>)
    requires |a| == |b|
    requires forall i :: 0 <= i < |a| ==> a[i] <= b[i]
    ensures Sum(a) <= Sum(b)
  {
    if |a| > 0 {
      SumMonotone(a[..|a| - 1], b[..|b| - 1]);
    }
  }

  /** With nonnegative weights w and every x[i] in [lo, hi], the weighted
      sum of x lies between lo and hi times the total weight. */
  lemma WeightedSumBounds(w: seq<real>, x: seq<real>, lo: real, hi: real)
    requires |w| == |x|
    requires forall i :: 0 <= i < |w| ==> w[i] >= 0.0
    requires forall i :: 0 <= i < |x| ==> lo <= x[i] <= hi
    ensures lo * Sum(w) <= Sum(Products(w, x)) <= hi * Sum(w)
  {
    ProductsBetween(w, x, lo, hi);
    SumMonotone(Scale(w, lo), Products(w, x));
    SumMonotone(Products(w, x), Scale(w, hi));
    SumOfScaled(w, lo);
    SumOfScaled(w, hi);
  }

  lemma ProductsBetween(w: seq<real>, x: seq<real>, lo: real, hi: real)
    requires |w| == |x|
    requires forall i :: 0 <= i < |w| ==> w[i] >= 0.0
    requires forall i :: 0 <= i < |x| ==> lo <= x[i] <= hi
    ensures forall i :: 0 <= i < |w| ==> Scale(w, lo)[i] <= Products(w, x)[i] <= Scale(w, hi)[i]
  {
    forall i | 0 <= i < |w|
      ensures Scale(w, lo)[i] <= Products(w, x)[i] <= Scale(w, hi)[i]
    {
      ScaledBelow(w[i], lo, x[i]);
      ScaledBelow(w[i], x[i], hi);
      assert Scale(w, lo)[i] == w[i] * lo && Scale(w, hi)[i] == w[i] * hi;
    }
  }

  /** Multiplying by a nonnegative weight preserves order. */
  lemma ScaledBelow(w: real, x: real, y: real)
    requires w >= 0.0 && x <= y
    ensures w * x <= w * y
  {
    assert w * y - w * x == w * (y - x);
  }
}
