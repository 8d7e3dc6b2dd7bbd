/**
 * The scaled distance and inner product of the local-correction predictor
 * (`delta` and `scalar` in ppredict/ppredict.cpp). Both take two coordinate
 * vectors that may differ in length and a per-dimension scale `s2`, and divide
 * each term by `s2[i]` without checking it: the divisions are exposed as
 * preconditions. The `sqrt` that `delta` applies to its sum is not modelled:
 * the distance is only used to order neighbours, and `sqrt` is monotone.
 */
module ScaledMetric {
  import opened Vectors

  /** Every scale entry below index `n` that exists is non-zero. */
  predicate NonZeroBelow(s2: seq<real>, n: int)
  {
    forall i :: 0 <= i < n && i < |s2| ==> s2[i] != 0.0
  }

  /** Every scale entry is strictly positive. */
  predicate Positive(s2: seq<real>)
  {
    forall i :: 0 <= i < |s2| ==> s2[i] > 0.0
  }

  /** The indices `delta` visits: below `|s2|` and present in `x` or in `y`. */
  function Span(x: seq<real>, y: seq<real>, s2: seq<real>): nat
  {
    Min(|s2|, Max(|x|, |y|))
  }

  /** The term of index `i`, with a missing coordinate read as 0. */
  function Term(x: seq<real>, y: seq<real>, s2: seq<real>, i: nat): real
    requires i < |s2| && s2[i] != 0.0
  {
    (Pad(x, i) - Pad(y, i)) * (Pad(x, i) - Pad(y, i)) / s2[i]
  }

  function TermSum(x: seq<real>, y: seq<real>, s2: seq<real>, n: nat): real
    requires n <= |s2| && NonZeroBelow(s2, n)
  {
    if n == 0 then 0.0 else TermSum(x, y, s2, n - 1) + Term(x, y, s2, n - 1)
  }

  /**
   * Reference definition of the squared scaled distance: the shorter vector is
   * padded with zeros and the index range is cut at `|s2|`.
   */
  function SquaredDistance(x: seq<real>, y: seq<real>, s2: seq<real>): real
    requires NonZeroBelow(s2, Max(|x|, |y|))
  {
    TermSum(x, y, s2, Span(x, y, s2))
  }

  /**
   * `delta`: three index loops, the matched prefix, then the tail of `x`, then
   * the tail of `y`, each stopping at `|s2|`. Its result is the padded
   * reference sum above.
   */
  method Delta(x: seq<real>, y: seq<real>, s2: seq<real>) returns (s: real)
    requires NonZeroBelow(s2, Max(|x|, |y|))
    ensures s == SquaredDistance(x, y, s2)
  {
    s := 0.0;
    var i := 0;
    while i < |x| && i < |y| && i < |s2|
      invariant 0 <= i <= Min(|s2|, Min(|x|, |y|))
      invariant s == TermSum(x, y, s2, i)
    {
      TermMatched(x, y, s2, i);
      s := s + (x[i] - y[i]) * (x[i] - y[i]) / s2[i];
      i := i + 1;
    }
    while i < |x| && i < |s2|
      invariant 0 <= i <= |s2| && (i <= |x| || i <= |y|)
      invariant |y| <= i || !(i < |x| && i < |s2|)
      invariant s == TermSum(x, y, s2, i)
    {
      TermTailOfX(x, y, s2, i);
      s := s + x[i] * x[i] / s2[i];
      i := i + 1;
    }
    while i < |y| && i < |s2|
      invariant 0 <= i <= |s2| && (i <= |x| || i <= |y|)
      invariant |x| <= i || i == |s2|
      invariant s == TermSum(x, y, s2, i)
    {
      TermTailOfY(x, y, s2, i);
      s := s + y[i] * y[i] / s2[i];
      i := i + 1;
    }
  }

  lemma {:induction false} TermMatched(x: seq<real>, y: seq<real>, s2: seq<real>, i: nat)
    requires i < |x| && i < |y| && i < |s2| && s2[i] != 0.0
    ensures Term(x, y, s2, i) == (x[i] - y[i]) * (x[i] - y[i]) / s2[i]
  {
  }

  lemma {:induction false} TermTailOfX(x: seq<real>, y: seq<real>, s2: seq<real>, i: nat)
    requires |y| <= i < |x| && i < |s2| && s2[i] != 0.0
    ensures Term(x, y, s2, i) == x[i] * x[i] / s2[i]
  {
  }

  lemma {:induction false} TermTailOfY(x: seq<real>, y: seq<real>, s2: seq<real>, i: nat)
    requires |x| <= i < |y| && i < |s2| && s2[i] != 0.0
    ensures Term(x, y, s2, i) == y[i] * y[i] / s2[i]
  {
    var d := 0.0 - y[i];
    assert d * d == y[i] * y[i];
  }

  function ProductSum(x: seq<real>, y: seq<real>, s2: seq<real>, n: nat): real
    requires n <= |x| && n <= |y| && n <= |s2| && NonZeroBelow(s2, n)
  {
    if n == 0 then 0.0 else ProductSum(x, y, s2, n - 1) + x[n - 1] * y[n - 1] / s2[n - 1]
  }

  /** The scaled inner product over the indices all three vectors have; no tail. */
  function InnerProduct(x: seq<real>, y: seq<real>, s2: seq<real>): real
    requires NonZeroBelow(s2, Min(|x|, |y|))
  {
    ProductSum(x, y, s2, Min(|s2|, Min(|x|, |y|)))
  }

  /** `scalar`: one index loop over the matched prefix. */
  method Scalar(x: seq<real>, y: seq<real>, s2: seq<real>) returns (s: real)
    requires NonZeroBelow(s2, Min(|x|, |y|))
    ensures s == InnerProduct(x, y, s2)
  {
    s := 0.0;
    var i := 0;
    while i < |x| && i < |y| && i < |s2|
      invariant 0 <= i <= Min(|s2|, Min(|x|, |y|))
      invariant s == ProductSum(x, y, s2, i)
    {
      s := s + (x[i] * y[i]) / s2[i];
      i := i + 1;
    }
  }

  // ---------------------------------------------------------------------------
  // Properties of the distance

  lemma {:induction false} TermSumSelf(x: seq<real>, s2: seq<real>, n: nat)
    requires n <= |s2| && NonZeroBelow(s2, n)
    ensures TermSum(x, x, s2, n) == 0.0
  {
    if n > 0 { TermSumSelf(x, s2, n - 1); }
  }

  /** `delta(x, x, s2)` is 0, for any scale that is non-zero where it divides. */
  lemma {:induction false} DistanceToSelf(x: seq<real>, s2: seq<real>)
    requires NonZeroBelow(s2, |x|)
    ensures SquaredDistance(x, x, s2) == 0.0
  {
    TermSumSelf(x, s2, Span(x, x, s2));
  }

  lemma {:induction false} TermSumNonNegative(x: seq<real>, y: seq<real>, s2: seq<real>, n: nat)
    requires n <= |s2| && Positive(s2)
    ensures TermSum(x, y, s2, n) >= 0.0
  {
    if n > 0 {
      TermSumNonNegative(x, y, s2, n - 1);
      var d := Pad(x, n - 1) - Pad(y, n - 1);
      assert d * d >= 0.0;
      assert Term(x, y, s2, n - 1) >= 0.0;
    }
  }

  /** With every scale entry positive the distance is never negative. */
  lemma {:induction false} DistanceNonNegative(x: seq<real>, y: seq<real>, s2: seq<real>)
    requires Positive(s2)
    ensures SquaredDistance(x, y, s2) >= 0.0
  {
    TermSumNonNegative(x, y, s2, Span(x, y, s2));
  }

  lemma {:induction false} TermSumSymmetric(x: seq<real>, y: seq<real>, s2: seq<real>, n: nat)
    requires n <= |s2| && NonZeroBelow(s2, n)
    ensures TermSum(x, y, s2, n) == TermSum(y, x, s2, n)
  {
    if n > 0 {
      TermSumSymmetric(x, y, s2, n - 1);
      var d := Pad(x, n - 1) - Pad(y, n - 1);
      assert d * d == (-d) * (-d);
    }
  }

  /** The distance does not depend on the order of its two vectors. */
  lemma {:induction false} DistanceSymmetric(x: seq<real>, y: seq<real>, s2: seq<real>)
    requires NonZeroBelow(s2, Max(|x|, |y|))
    ensures SquaredDistance(x, y, s2) == SquaredDistance(y, x, s2)
  {
    TermSumSymmetric(x, y, s2, Span(x, y, s2));
  }

  lemma {:induction false} TermSumTruncate(x: seq<real>, y: seq<real>, s2: seq<real>, n: nat, k: nat)
    requires n <= k <= |s2| && NonZeroBelow(s2, n)
    ensures TermSum(x, y, s2, n) == TermSum(Take(x, k), Take(y, k), s2, n)
  {
    if n > 0 {
      TermSumTruncate(x, y, s2, n - 1, k);
      assert Pad(x, n - 1) == Pad(Take(x, k), n - 1);
      assert Pad(y, n - 1) == Pad(Take(y, k), n - 1);
    }
  }

  /** The first `k` coordinates of `v`, or all of them if there are fewer. */
  function Take(v: seq<real>, k: nat): (r: seq<real>)
    ensures |r| == Min(|v|, k)
  {
    if |v| <= k then v else v[..k]
  }

  /** Coordinates at or beyond `|s2|` never contribute to the distance. */
  lemma {:induction false} DistanceIgnoresBeyondScale(x: seq<real>, y: seq<real>, s2: seq<real>)
    requires NonZeroBelow(s2, Max(|x|, |y|))
    ensures SquaredDistance(x, y, s2) == SquaredDistance(Take(x, |s2|), Take(y, |s2|), s2)
  {
    var n := Span(x, y, s2);
    assert n == Span(Take(x, |s2|), Take(y, |s2|), s2);
    TermSumTruncate(x, y, s2, n, |s2|);
  }

  // ---------------------------------------------------------------------------
  // Properties of the inner product

  lemma {:induction false} ProductSumSymmetric(x: seq<real>, y: seq<real>, s2: seq<real>, n: nat)
    requires n <= |x| && n <= |y| && n <= |s2| && NonZeroBelow(s2, n)
    ensures ProductSum(x, y, s2, n) == ProductSum(y, x, s2, n)
  {
    if n > 0 { ProductSumSymmetric(x, y, s2, n - 1); }
  }

  /** `scalar(x, y, s2) == scalar(y, x, s2)`. */
  lemma {:induction false} InnerProductSymmetric(x: seq<real>, y: seq<real>, s2: seq<real>)
    requires NonZeroBelow(s2, Min(|x|, |y|))
    ensures InnerProduct(x, y, s2) == InnerProduct(y, x, s2)
  {
    ProductSumSymmetric(x, y, s2, Min(|s2|, Min(|x|, |y|)));
  }

  lemma {:induction false} ProductSumPrefix(x: seq<real>, y: seq<real>, s2: seq<real>, n: nat, k: nat)
    requires n <= k <= |x| && k <= |y| && k <= |s2| && NonZeroBelow(s2, n)
    ensures ProductSum(x, y, s2, n) == ProductSum(x[..k], y[..k], s2[..k], n)
  {
    if n > 0 { ProductSumPrefix(x, y, s2, n - 1, k); }
  }

  /** The inner product reads only the indices below `min(|x|, |y|, |s2|)`. */
  lemma {:induction false} InnerProductReadsMatchedPrefix(x: seq<real>, y: seq<real>, s2: seq<real>)
    requires NonZeroBelow(s2, Min(|x|, |y|))
    ensures var k := Min(|s2|, Min(|x|, |y|));
      InnerProduct(x, y, s2) == InnerProduct(x[..k], y[..k], s2[..k])
  {
    var k := Min(|s2|, Min(|x|, |y|));
    ProductSumPrefix(x, y, s2, k, k);
  }

  lemma {:induction false} ProductSumOfZero(x: seq<real>, y: seq<real>, s2: seq<real>, n: nat)
    requires n <= |x| && n <= |y| && n <= |s2| && NonZeroBelow(s2, n)
    requires forall i :: 0 <= i < n ==> x[i] == 0.0
    ensures ProductSum(x, y, s2, n) == 0.0
  {
    if n > 0 { ProductSumOfZero(x, y, s2, n - 1); }
  }

  /** `scalar` of a zero vector with anything is 0. */
  lemma {:induction false} InnerProductOfZero(x: seq<real>, y: seq<real>, s2: seq<real>)
    requires NonZeroBelow(s2, Min(|x|, |y|))
    requires forall i :: 0 <= i < |x| ==> x[i] == 0.0
    ensures InnerProduct(x, y, s2) == 0.0
  {
    ProductSumOfZero(x, y, s2, Min(|s2|, Min(|x|, |y|)));
  }

  lemma {:induction false} ProductSumSelf(x: seq<real>, s2: seq<real>, n: nat)
    requires n <= |x| && n <= |s2| && Positive(s2)
    ensures ProductSum(x, x, s2, n) >= 0.0
    ensures ProductSum(x, x, s2, n) == 0.0 <==> forall i :: 0 <= i < n ==> x[i] == 0.0
  {
    if n > 0 {
      ProductSumSelf(x, s2, n - 1);
      SquareOverPositive(x[n - 1], s2[n - 1]);
    }
  }

  /** `a * a / s` is non-negative for `s > 0`, and 0 exactly when `a` is. */
  lemma {:induction false} SquareOverPositive(a: real, s: real)
    requires s > 0.0
    ensures a * a / s >= 0.0
    ensures a * a / s == 0.0 <==> a == 0.0
  {
    if a > 0.0 {
      ProductOverPositive(a, a, s);
    } else if a < 0.0 {
      ProductOverPositive(-a, -a, s);
      assert (-a) * (-a) == a * a;
    }
  }

  lemma {:induction false} ProductOverPositive(a: real, b: real, s: real)
    requires a > 0.0 && b > 0.0 && s > 0.0
    ensures a * b / s > 0.0
  {
  }

  /**
   * With every scale entry positive, `scalar(x, x, s2)` is non-negative, and it
   * is 0 exactly when every coordinate it reads is 0.
   */
  lemma {:induction false} InnerProductSelf(x: seq<real>, s2: seq<real>)
    requires Positive(s2)
    ensures InnerProduct(x, x, s2) >= 0.0
    ensures InnerProduct(x, x, s2) == 0.0 <==> forall i :: 0 <= i < Min(|x|, |s2|) ==> x[i] == 0.0
  {
    ProductSumSelf(x, s2, Min(|s2|, |x|));
  }

  lemma {:induction false} ProductSumOfDifference(x: seq<real>, y: seq<real>, s2: seq<real>, n: nat)
    requires |x| == |y| && n <= |x| && n <= |s2| && NonZeroBelow(s2, n)
    ensures ProductSum(Sub(x, y), Sub(x, y), s2, n) == TermSum(x, y, s2, n)
  {
    if n > 0 { ProductSumOfDifference(x, y, s2, n - 1); }
  }

  /**
   * For vectors of equal length, the inner product of their difference with
   * itself is their squared distance: the projection denominator of the
   * local-correction predictor is the squared distance between two neighbours.
   */
  lemma {:induction false} InnerProductOfDifference(x: seq<real>, y: seq<real>, s2: seq<real>)
    requires |x| == |y| && NonZeroBelow(s2, |x|)
    ensures InnerProduct(Sub(x, y), Sub(x, y), s2) == SquaredDistance(x, y, s2)
  {
    ProductSumOfDifference(x, y, s2, Min(|s2|, |x|));
  }
}
