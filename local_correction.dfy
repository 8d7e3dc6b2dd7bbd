/**
 * The local-correction predictor of ppredict/ppredict.cpp.
 *
 * `predict` ranks every historical sample by its scaled distance to the query,
 * keeps the closest `p`, and returns
 *
 *     sum over retained i of  price_i * product over retained j != i of
 *         scalar(x - x_j, x_i - x_j, s2) / scalar(x_i - x_j, x_i - x_j, s2)
 *
 * Each factor is the scaled projection of the query onto the segment from
 * `x_j` to `x_i`: it is 1 at `x_i` and 0 at `x_j`, so the combination passes
 * through every retained sample. `main` builds the scale `s2` from the
 * per-dimension variance of the history, then either predicts one point or
 * searches the grid for the cheapest one.
 */
module LocalCorrection {
  import opened Vectors
  import opened ScaledMetric
  import opened Neighbors
  import opened GridSearch

  /** Number of neighbours kept when `-p` is not given. */
  const DefaultP: nat := 3

  /** `s2` when no history file is given: four ones. */
  const DefaultScale: seq<real> := [1.0, 1.0, 1.0, 1.0]

  // ---------------------------------------------------------------------------
  // Neighbour selection

  /** Every sample paired with its scaled distance to `x`, in history order. */
  function Candidates(x: seq<real>, h: seq<Sample>, s2: seq<real>): (c: seq<Neighbor>)
    requires |x| == 4 && NonZeroBelow(s2, 4)
    ensures |c| == |h|
    ensures forall t :: 0 <= t < |h| ==>
      c[t] == Neighbor(h[t], SquaredDistance(x, Features(h[t]), s2))
  {
    seq(|h|, t requires 0 <= t < |h| => Neighbor(h[t], SquaredDistance(x, Features(h[t]), s2)))
  }

  /** The neighbours kept after sorting and `resize(min(p, N))`. */
  function Retained(x: seq<real>, h: seq<Sample>, s2: seq<real>, p: nat): seq<Neighbor>
    requires |x| == 4 && NonZeroBelow(s2, 4)
  {
    SortLength(Candidates(x, h, s2));
    SortedByDist(Candidates(x, h, s2))[..Min(p, |h|)]
  }

  /**
   * The retained list has `min(p, N)` elements, is sorted by distance, no
   * dropped sample is closer than a retained one, and retained and dropped
   * together are all the samples.
   */
  lemma {:induction false} RetainedClosest(x: seq<real>, h: seq<Sample>, s2: seq<real>, p: nat)
    requires |x| == 4 && NonZeroBelow(s2, 4)
    ensures var t := SortedByDist(Candidates(x, h, s2)); var k := Min(p, |h|);
      && |t| == |h|
      && Retained(x, h, s2, p) == t[..k]
      && |Retained(x, h, s2, p)| == k
      && Sorted(Retained(x, h, s2, p))
      && multiset(t[..k]) + multiset(t[k..]) == multiset(Candidates(x, h, s2))
      && forall i, j :: 0 <= i < k <= j < |h| ==> t[i].dist <= t[j].dist
  {
    Truncation(Candidates(x, h, s2), Min(p, |h|));
  }

  /** Each retained neighbour is a sample of the history, tagged with its distance. */
  lemma {:induction false} RetainedFromHistory(x: seq<real>, h: seq<Sample>, s2: seq<real>, p: nat)
    requires |x| == 4 && NonZeroBelow(s2, 4)
    ensures forall i :: 0 <= i < |Retained(x, h, s2, p)| ==>
      Retained(x, h, s2, p)[i].sample in h &&
      Retained(x, h, s2, p)[i].dist == SquaredDistance(x, Features(Retained(x, h, s2, p)[i].sample), s2)
  {
    var c := Candidates(x, h, s2);
    SortLength(c);
    SortedMembers(c);
    forall i | 0 <= i < |Retained(x, h, s2, p)|
      ensures Retained(x, h, s2, p)[i].sample in h
      ensures Retained(x, h, s2, p)[i].dist == SquaredDistance(x, Features(Retained(x, h, s2, p)[i].sample), s2)
    {
      assert Retained(x, h, s2, p)[i] == SortedByDist(c)[i];
      var t :| 0 <= t < |c| && c[t] == SortedByDist(c)[i];
    }
  }

  /**
   * The first retained neighbour is a closest sample: no sample of the history
   * is nearer to the query.
   */
  lemma {:induction false} FirstRetainedIsClosest(x: seq<real>, h: seq<Sample>, s2: seq<real>, p: nat, t: nat)
    requires |x| == 4 && NonZeroBelow(s2, 4)
    requires p >= 1 && t < |h|
    ensures |Retained(x, h, s2, p)| >= 1
    ensures Retained(x, h, s2, p)[0].dist <= SquaredDistance(x, Features(h[t]), s2)
  {
    var c := Candidates(x, h, s2);
    var sorted := SortedByDist(c);
    RetainedClosest(x, h, s2, p);
    SortSorts(c);
    SortPermutes(c);
    assert c[t] in multiset(sorted);
    var j :| 0 <= j < |sorted| && sorted[j] == c[t];
    assert Retained(x, h, s2, p)[0] == sorted[0];
  }

  // ---------------------------------------------------------------------------
  // The combination

  /**
   * `scalar(x_i - x_j, x_i - x_j, s2)`: the projection denominator, which is
   * the squared scaled distance between the two samples.
   */
  function Spread(a: Sample, b: Sample, s2: seq<real>): real
    requires NonZeroBelow(s2, 4)
  {
    InnerProduct(Sub(Features(a), Features(b)), Sub(Features(a), Features(b)), s2)
  }

  /**
   * No two distinct retained neighbours have a zero projection denominator:
   * the condition under which `predict` divides by non-zero values only.
   */
  predicate Separated(nb: seq<Neighbor>, s2: seq<real>)
    requires NonZeroBelow(s2, 4)
  {
    forall i, j {:trigger Spread(nb[i].sample, nb[j].sample, s2)} ::
      0 <= i < |nb| && 0 <= j < |nb| && i != j ==> Spread(nb[i].sample, nb[j].sample, s2) != 0.0
  }

  /** The factor of neighbour `b` in the contribution of neighbour `a`. */
  function Factor(x: seq<real>, a: Sample, b: Sample, s2: seq<real>): real
    requires |x| == 4 && NonZeroBelow(s2, 4) && Spread(a, b, s2) != 0.0
  {
    InnerProduct(Sub(x, Features(b)), Sub(Features(a), Features(b)), s2) / Spread(a, b, s2)
  }

  /**
   * The factors the inner loop of `predict` multiplies into the contribution
   * of neighbour `i`, one per neighbour; entry `i` is skipped by the loop and
   * holds 1.
   */
  function Factors(x: seq<real>, nb: seq<Neighbor>, s2: seq<real>, i: nat): (fs: seq<real>)
    requires |x| == 4 && NonZeroBelow(s2, 4) && Separated(nb, s2) && i < |nb|
    ensures |fs| == |nb|
  {
    seq(|nb|, j requires 0 <= j < |nb| =>
      if j == i then 1.0 else Factor(x, nb[i].sample, nb[j].sample, s2))
  }

  /** Entry `j` of the factors is the projection factor of neighbour `j`. */
  lemma {:induction false} FactorsAt(x: seq<real>, nb: seq<Neighbor>, s2: seq<real>, i: nat, j: nat)
    requires |x| == 4 && NonZeroBelow(s2, 4) && Separated(nb, s2)
    requires i < |nb| && j < |nb| && i != j
    ensures Spread(nb[i].sample, nb[j].sample, s2) != 0.0
    ensures Factors(x, nb, s2, i)[j] == Factor(x, nb[i].sample, nb[j].sample, s2)
  {
  }

  /**
   * The value of `s` once the inner loop has visited the first `n` entries:
   * `price` times every visited factor except the one at `skip`.
   */
  function Scaled(price: real, fs: seq<real>, skip: nat, n: nat): real
    requires n <= |fs|
  {
    if n == 0 then price
    else if n - 1 == skip then Scaled(price, fs, skip, n - 1)
    else Scaled(price, fs, skip, n - 1) * fs[n - 1]
  }

  lemma {:induction false} ScaledTimes(price: real, fs: seq<real>, skip: nat, j: nat, s: real, f: real)
    requires j < |fs| && j != skip && s == Scaled(price, fs, skip, j) && f == fs[j]
    ensures s * f == Scaled(price, fs, skip, j + 1)
  {
  }

  /** What neighbour `i` adds to the prediction. */
  function Contribution(x: seq<real>, nb: seq<Neighbor>, s2: seq<real>, i: nat): real
    requires |x| == 4 && NonZeroBelow(s2, 4) && Separated(nb, s2) && i < |nb|
  {
    Scaled(nb[i].sample.price, Factors(x, nb, s2, i), i, |nb|)
  }

  /** Every retained neighbour's contribution, in order. */
  function Contributions(x: seq<real>, nb: seq<Neighbor>, s2: seq<real>): (cs: seq<real>)
    requires |x| == 4 && NonZeroBelow(s2, 4) && Separated(nb, s2)
    ensures |cs| == |nb|
    ensures forall i :: 0 <= i < |nb| ==> cs[i] == Contribution(x, nb, s2, i)
  {
    seq(|nb|, i requires 0 <= i < |nb| => Contribution(x, nb, s2, i))
  }

  function Correction(x: seq<real>, nb: seq<Neighbor>, s2: seq<real>): real
    requires |x| == 4 && NonZeroBelow(s2, 4) && Separated(nb, s2)
  {
    PrefixSum(Contributions(x, nb, s2), |nb|)
  }

  /** The price `predict` returns for query `x`. */
  function PredictedPrice(x: seq<real>, h: seq<Sample>, s2: seq<real>, p: nat): real
    requires |x| == 4 && NonZeroBelow(s2, 4) && Separated(Retained(x, h, s2, p), s2)
  {
    Correction(x, Retained(x, h, s2, p), s2)
  }

  /** The loop of `predict` that pairs every sample with its `delta` to `x`. */
  method BuildNeighbors(x: seq<real>, h: seq<Sample>, s2: seq<real>) returns (neighbors: array<Neighbor>)
    requires |x| == 4 && NonZeroBelow(s2, 4)
    ensures fresh(neighbors)
    ensures neighbors[..] == Candidates(x, h, s2)
  {
    neighbors := new Neighbor[|h|];
    var t := 0;
    while t < |h|
      invariant 0 <= t <= |h|
      invariant forall k :: 0 <= k < t ==> neighbors[k] == Candidates(x, h, s2)[k]
    {
      var d := Delta(x, Features(h[t]), s2);
      neighbors[t] := Neighbor(h[t], d);
      t := t + 1;
    }
  }

  /** `scalar(xxj, xixj, s2) / scalar(xixj, xixj, s2)` for neighbours `i` and `j`. */
  method ProjectionFactor(x: seq<real>, nb: seq<Neighbor>, s2: seq<real>, i: nat, j: nat) returns (f: real)
    requires |x| == 4 && NonZeroBelow(s2, 4) && Separated(nb, s2)
    requires i < |nb| && j < |nb| && i != j
    ensures f == Factors(x, nb, s2, i)[j]
  {
    var xi, xj := Features(nb[i].sample), Features(nb[j].sample);
    var xxj := Difference(x, xj);
    var xixj := Difference(xi, xj);
    assert xxj == Sub(x, xj) && xixj == Sub(xi, xj);
    var num := Scalar(xxj, xixj, s2);
    var den := Scalar(xixj, xixj, s2);
    assert Spread(nb[i].sample, nb[j].sample, s2) != 0.0;
    f := num / den;
  }

  /** The inner loop of `predict`: `s` starts at the price and takes every factor. */
  method Contribute(x: seq<real>, nb: seq<Neighbor>, s2: seq<real>, i: nat) returns (s: real)
    requires |x| == 4 && NonZeroBelow(s2, 4) && Separated(nb, s2) && i < |nb|
    ensures s == Contribution(x, nb, s2, i)
  {
    s := nb[i].sample.price;
    var j := 0;
    while j < |nb|
      invariant 0 <= j <= |nb|
      invariant s == Scaled(nb[i].sample.price, Factors(x, nb, s2, i), i, j)
    {
      s := ContributeStep(x, nb, s2, i, j, s);
      j := j + 1;
    }
  }

  /** One pass of the inner loop: every neighbour but `i` itself scales `s`. */
  method ContributeStep(x: seq<real>, nb: seq<Neighbor>, s2: seq<real>, i: nat, j: nat, s: real) returns (s': real)
    requires |x| == 4 && NonZeroBelow(s2, 4) && Separated(nb, s2) && i < |nb| && j < |nb|
    requires s == Scaled(nb[i].sample.price, Factors(x, nb, s2, i), i, j)
    ensures s' == Scaled(nb[i].sample.price, Factors(x, nb, s2, i), i, j + 1)
  {
    if i != j {
      var f := ProjectionFactor(x, nb, s2, i, j);
      ScaledTimes(nb[i].sample.price, Factors(x, nb, s2, i), i, j, s, f);
      s' := s * f;
    } else {
      s' := s;
    }
  }

  /** The outer loop of `predict` over the retained neighbours. */
  method Combine(x: seq<real>, nb: seq<Neighbor>, s2: seq<real>) returns (y: real)
    requires |x| == 4 && NonZeroBelow(s2, 4) && Separated(nb, s2)
    ensures y == Correction(x, nb, s2)
  {
    ghost var cs := Contributions(x, nb, s2);
    y := 0.0;
    var i := 0;
    while i < |nb|
      invariant 0 <= i <= |nb|
      invariant y == PrefixSum(cs, i)
    {
      var s := Contribute(x, nb, s2, i);
      y := y + s;
      i := i + 1;
    }
  }

  /**
   * `predict`: build the neighbour vector, sort it in place, keep the first
   * `min(p, N)` entries and combine them. A negative `p` makes `resize`
   * throw, so `p` is a natural number here.
   */
  method Predict(gridSize: real, blockSize: real, m: real, n: real,
                 h: seq<Sample>, s2: seq<real>, p: nat) returns (y: real)
    requires NonZeroBelow(s2, 4)
    requires Separated(Retained(Query(gridSize, blockSize, m, n), h, s2, p), s2)
    ensures y == PredictedPrice(Query(gridSize, blockSize, m, n), h, s2, p)
  {
    var x := Query(gridSize, blockSize, m, n);
    var neighbors := BuildNeighbors(x, h, s2);
    SortByDistance(neighbors);
    var nb := neighbors[..Min(p, neighbors.Length)];
    RetainedClosest(x, h, s2, p);
    y := Combine(x, nb, s2);
  }

  // ---------------------------------------------------------------------------
  // What the combination gives

  /** With no sample or `p == 0` nothing is retained and the prediction is 0. */
  lemma {:induction false} NothingRetainedPredictsZero(x: seq<real>, h: seq<Sample>, s2: seq<real>, p: nat)
    requires |x| == 4 && NonZeroBelow(s2, 4)
    requires |h| == 0 || p == 0
    ensures Separated(Retained(x, h, s2, p), s2)
    ensures PredictedPrice(x, h, s2, p) == 0.0
  {
    RetainedClosest(x, h, s2, p);
  }

  /**
   * With exactly one neighbour retained (`min(p, N) == 1`) the inner loop only
   * meets `iti == itj`, so the prediction is the price of the closest sample,
   * taken as is.
   */
  lemma {:induction false} OneRetainedPredictsClosestPrice(x: seq<real>, h: seq<Sample>, s2: seq<real>, p: nat, t: nat)
    requires |x| == 4 && NonZeroBelow(s2, 4) && t < |h|
    requires Min(p, |h|) == 1
    ensures |Retained(x, h, s2, p)| == 1 && Separated(Retained(x, h, s2, p), s2)
    ensures Retained(x, h, s2, p)[0].sample in h
    ensures Retained(x, h, s2, p)[0].dist <= SquaredDistance(x, Features(h[t]), s2)
    ensures PredictedPrice(x, h, s2, p) == Retained(x, h, s2, p)[0].sample.price
  {
    RetainedClosest(x, h, s2, p);
    RetainedFromHistory(x, h, s2, p);
    FirstRetainedIsClosest(x, h, s2, p, t);
    var nb := Retained(x, h, s2, p);
    assert Scaled(nb[0].sample.price, Factors(x, nb, s2, 0), 0, 1) == nb[0].sample.price;
    assert PrefixSum(Contributions(x, nb, s2), 1) == Contribution(x, nb, s2, 0);
  }

  /**
   * With the default settings (`p == 3`, the all-ones scale used without a
   * history file) a one-sample history predicts that sample's price everywhere.
   */
  lemma {:induction false} SingleSampleAtDefaults(x: seq<real>, s: Sample)
    requires |x| == 4
    ensures NonZeroBelow(DefaultScale, 4)
    ensures Separated(Retained(x, [s], DefaultScale, DefaultP), DefaultScale)
    ensures PredictedPrice(x, [s], DefaultScale, DefaultP) == s.price
  {
    assert NonZeroBelow(DefaultScale, 4);
    OneRetainedPredictsClosestPrice(x, [s], DefaultScale, DefaultP, 0);
  }

  /** At `x_i` the factor of every other neighbour is 1. */
  lemma {:induction false} FactorAtOwnSample(x: seq<real>, a: Sample, b: Sample, s2: seq<real>)
    requires |x| == 4 && NonZeroBelow(s2, 4) && Spread(a, b, s2) != 0.0
    requires x == Features(a)
    ensures Factor(x, a, b, s2) == 1.0
  {
  }

  /** At `x_j` the factor of neighbour `j` is 0. */
  lemma {:induction false} FactorAtOtherSample(x: seq<real>, a: Sample, b: Sample, s2: seq<real>)
    requires |x| == 4 && NonZeroBelow(s2, 4) && Spread(a, b, s2) != 0.0
    requires x == Features(b)
    ensures Factor(x, a, b, s2) == 0.0
  {
    InnerProductOfZero(Sub(x, Features(b)), Sub(Features(a), Features(b)), s2);
  }

  /** With every visited factor 1, the running product is the price. */
  lemma {:induction false} ScaledByOnes(price: real, fs: seq<real>, skip: nat, n: nat)
    requires n <= |fs|
    requires forall j :: 0 <= j < n && j != skip ==> fs[j] == 1.0
    ensures Scaled(price, fs, skip, n) == price
  {
    if n > 0 { ScaledByOnes(price, fs, skip, n - 1); }
  }

  /** A visited zero factor makes the running product 0. */
  lemma {:induction false} ScaledByZero(price: real, fs: seq<real>, skip: nat, k: nat, n: nat)
    requires k < n <= |fs| && k != skip && fs[k] == 0.0
    ensures Scaled(price, fs, skip, n) == 0.0
  {
    if n - 1 != k { ScaledByZero(price, fs, skip, k, n - 1); }
  }

  /** At its own coordinates a neighbour contributes its whole price. */
  lemma {:induction false} ContributionAtOwnSample(x: seq<real>, nb: seq<Neighbor>, s2: seq<real>, i: nat)
    requires |x| == 4 && NonZeroBelow(s2, 4) && Separated(nb, s2)
    requires i < |nb| && x == Features(nb[i].sample)
    ensures Contribution(x, nb, s2, i) == nb[i].sample.price
  {
    var fs := Factors(x, nb, s2, i);
    forall j | 0 <= j < |nb| && j != i ensures fs[j] == 1.0 {
      FactorsAt(x, nb, s2, i, j);
      FactorAtOwnSample(x, nb[i].sample, nb[j].sample, s2);
    }
    ScaledByOnes(nb[i].sample.price, fs, i, |nb|);
  }

  /** At the coordinates of another retained neighbour a neighbour contributes 0. */
  lemma {:induction false} ContributionAtOtherSample(x: seq<real>, nb: seq<Neighbor>, s2: seq<real>, i: nat, k: nat)
    requires |x| == 4 && NonZeroBelow(s2, 4) && Separated(nb, s2)
    requires i < |nb| && k < |nb| && i != k && x == Features(nb[k].sample)
    ensures Contribution(x, nb, s2, i) == 0.0
  {
    var fs := Factors(x, nb, s2, i);
    FactorsAt(x, nb, s2, i, k);
    FactorAtOtherSample(x, nb[i].sample, nb[k].sample, s2);
    ScaledByZero(nb[i].sample.price, fs, i, k, |nb|);
  }

  /**
   * The combination interpolates: at the coordinates of a retained neighbour
   * it returns that neighbour's price.
   */
  lemma {:induction false} InterpolatesRetained(x: seq<real>, nb: seq<Neighbor>, s2: seq<real>, k: nat)
    requires |x| == 4 && NonZeroBelow(s2, 4) && Separated(nb, s2)
    requires k < |nb| && x == Features(nb[k].sample)
    ensures Correction(x, nb, s2) == nb[k].sample.price
  {
    var cs := Contributions(x, nb, s2);
    forall i | 0 <= i < |nb| && i != k ensures cs[i] == 0.0 {
      ContributionAtOtherSample(x, nb, s2, i, k);
    }
    ContributionAtOwnSample(x, nb, s2, k);
    PrefixSumOfSingle(cs, k, |nb|);
  }

  /** Under a positive scale, distance 0 means equal coordinates. */
  lemma {:induction false} ZeroDistanceMeansSameSample(x: seq<real>, y: seq<real>, s2: seq<real>)
    requires |x| == 4 && |y| == 4 && |s2| >= 4 && Positive(s2)
    requires SquaredDistance(x, y, s2) == 0.0
    ensures x == y
  {
    InnerProductOfDifference(x, y, s2);
    InnerProductSelf(Sub(x, y), s2);
    assert forall i :: 0 <= i < 4 ==> Sub(x, y)[i] == 0.0;
  }

  /**
   * Predicting at the coordinates of a historical sample, under a positive
   * scale and with `p >= 1`, returns the price of a sample with exactly those
   * coordinates.
   */
  lemma {:induction false} PredictsHistoryAtItsSamples(x: seq<real>, h: seq<Sample>, s2: seq<real>, p: nat, t: nat)
    requires |x| == 4 && |s2| >= 4 && Positive(s2)
    requires p >= 1 && t < |h| && x == Features(h[t])
    requires Separated(Retained(x, h, s2, p), s2)
    ensures |Retained(x, h, s2, p)| >= 1
    ensures Retained(x, h, s2, p)[0].sample in h
    ensures Features(Retained(x, h, s2, p)[0].sample) == x
    ensures PredictedPrice(x, h, s2, p) == Retained(x, h, s2, p)[0].sample.price
  {
    var nb := Retained(x, h, s2, p);
    FirstRetainedIsClosest(x, h, s2, p, t);
    RetainedFromHistory(x, h, s2, p);
    DistanceToSelf(x, s2);
    DistanceNonNegative(x, Features(nb[0].sample), s2);
    ZeroDistanceMeansSameSample(x, Features(nb[0].sample), s2);
    InterpolatesRetained(x, nb, s2, 0);
  }

  // ---------------------------------------------------------------------------
  // The scale: per-dimension variance of the history

  function Coord(s: Sample, d: nat): real
    requires d < 4
  {
    Features(s)[d]
  }

  /** Coordinate `d` of every sample, in order. */
  function Column(h: seq<Sample>, d: nat): (c: seq<real>)
    requires d < 4
    ensures |c| == |h|
    ensures forall t :: 0 <= t < |h| ==> c[t] == Coord(h[t], d)
  {
    seq(|h|, t requires 0 <= t < |h| => Coord(h[t], d))
  }

  /** Sum of the squares of the first `n` values. */
  function SquareTotal(xs: seq<real>, n: nat): real
    requires n <= |xs|
  {
    if n == 0 then 0.0 else SquareTotal(xs, n - 1) + xs[n - 1] * xs[n - 1]
  }

  function Average(xs: seq<real>): real
    requires |xs| >= 1
  {
    PrefixSum(xs, |xs|) / |xs| as real
  }

  /** `m1[d]` after the division: the mean of coordinate `d`. */
  function Mean(h: seq<Sample>, d: nat): real
    requires d < 4 && |h| >= 1
  {
    Average(Column(h, d))
  }

  /** `m2[d] - m1[d] * m1[d]`: mean of squares minus square of the mean. */
  function Variance(h: seq<Sample>, d: nat): real
    requires d < 4 && |h| >= 1
  {
    SquareTotal(Column(h, d), |h|) / |h| as real - Mean(h, d) * Mean(h, d)
  }

  /**
   * The loop that reads the history accumulating `m1` and `m2`, the two
   * divisions by the number of samples, and the loop writing `s2`. An empty
   * history divides by zero, so at least one sample is required.
   */
  method FeatureScale(h: seq<Sample>) returns (s2: seq<real>)
    requires |h| >= 1
    ensures |s2| == 4
    ensures forall d :: 0 <= d < 4 ==> s2[d] == Variance(h, d)
  {
    var m1, m2 := Accumulate(h);
    var size := |h| as real;
    m1 := DivideAll(m1, size);
    m2 := DivideAll(m2, size);
    s2 := CentralMoments(m1, m2);
    forall d | 0 <= d < 4 ensures s2[d] == Variance(h, d) {
      VarianceFromMoments(h, d, m2[d], m1[d]);
    }
  }

  /** The reading loop of `main`: `m1` sums the coordinates, `m2` their squares. */
  method Accumulate(h: seq<Sample>) returns (m1: seq<real>, m2: seq<real>)
    ensures |m1| == 4 && |m2| == 4
    ensures forall d :: 0 <= d < 4 ==> m1[d] == PrefixSum(Column(h, d), |h|)
    ensures forall d :: 0 <= d < 4 ==> m2[d] == SquareTotal(Column(h, d), |h|)
  {
    ghost var c0, c1, c2, c3 := Column(h, 0), Column(h, 1), Column(h, 2), Column(h, 3);
    m1, m2 := [0.0, 0.0, 0.0, 0.0], [0.0, 0.0, 0.0, 0.0];
    var t := 0;
    while t < |h|
      invariant 0 <= t <= |h| && |m1| == 4 && |m2| == 4
      invariant m1[0] == PrefixSum(c0, t) && m1[1] == PrefixSum(c1, t)
      invariant m1[2] == PrefixSum(c2, t) && m1[3] == PrefixSum(c3, t)
      invariant m2[0] == SquareTotal(c0, t) && m2[1] == SquareTotal(c1, t)
      invariant m2[2] == SquareTotal(c2, t) && m2[3] == SquareTotal(c3, t)
    {
      var s := h[t];
      assert c0[t] == s.m && c1[t] == s.n && c2[t] == s.gridSize && c3[t] == s.blockSize;
      m1 := [m1[0] + s.m, m1[1] + s.n, m1[2] + s.gridSize, m1[3] + s.blockSize];
      m2 := [m2[0] + s.m * s.m, m2[1] + s.n * s.n,
             m2[2] + s.gridSize * s.gridSize, m2[3] + s.blockSize * s.blockSize];
      t := t + 1;
    }
  }

  /** The loops `*it /= previous_results.size()` over `m1` and `m2`. */
  method DivideAll(v: seq<real>, size: real) returns (r: seq<real>)
    requires size != 0.0
    ensures |r| == |v|
    ensures forall d :: 0 <= d < |v| ==> r[d] == v[d] / size
  {
    r := v;
    var d := 0;
    while d < |v|
      invariant 0 <= d <= |v| && |r| == |v|
      invariant forall e :: 0 <= e < d ==> r[e] == v[e] / size
      invariant forall e :: d <= e < |v| ==> r[e] == v[e]
    {
      r := r[d := r[d] / size];
      d := d + 1;
    }
  }

  /** The loop writing `s2[i] = m2[i] - m1[i] * m1[i]`. */
  method CentralMoments(m1: seq<real>, m2: seq<real>) returns (s2: seq<real>)
    requires |m1| == 4 && |m2| == 4
    ensures |s2| == 4
    ensures forall d :: 0 <= d < 4 ==> s2[d] == m2[d] - m1[d] * m1[d]
  {
    s2 := [];
    var d := 0;
    while d < 4
      invariant 0 <= d <= 4 && |s2| == d
      invariant forall e :: 0 <= e < d ==> s2[e] == m2[e] - m1[e] * m1[e]
    {
      s2 := s2 + [m2[d] - m1[d] * m1[d]];
      d := d + 1;
    }
  }

  lemma {:induction false} VarianceFromMoments(h: seq<Sample>, d: nat, second: real, first: real)
    requires d < 4 && |h| >= 1
    requires second == SquareTotal(Column(h, d), |h|) / |h| as real && first == Mean(h, d)
    ensures second - first * first == Variance(h, d)
  {
  }

  /** Sum of squared deviations from `mu` over the first `n` values. */
  function Deviation(xs: seq<real>, mu: real, n: nat): real
    requires n <= |xs|
  {
    if n == 0 then 0.0 else Deviation(xs, mu, n - 1) + (xs[n - 1] - mu) * (xs[n - 1] - mu)
  }

  lemma {:induction false} DeviationExpands(xs: seq<real>, mu: real, n: nat)
    requires n <= |xs|
    ensures Deviation(xs, mu, n) == SquareTotal(xs, n) - 2.0 * mu * PrefixSum(xs, n) + n as real * mu * mu
  {
    if n > 0 {
      DeviationExpands(xs, mu, n - 1);
      ExpandStep(Deviation(xs, mu, n - 1), SquareTotal(xs, n - 1), PrefixSum(xs, n - 1), (n - 1) as real,
                 Deviation(xs, mu, n), SquareTotal(xs, n), PrefixSum(xs, n), n as real,
                 mu, xs[n - 1]);
    }
  }

  /** One more value in the expansion of the squared deviations, on plain reals. */
  lemma {:induction false} ExpandStep(dev: real, q: real, s: real, k: real, dev': real, q': real, s': real, k': real, mu: real, v: real)
    requires dev == q - 2.0 * mu * s + k * mu * mu
    requires dev' == dev + (v - mu) * (v - mu) && q' == q + v * v && s' == s + v && k' == k + 1.0
    ensures dev' == q' - 2.0 * mu * s' + k' * mu * mu
  {
    assert (v - mu) * (v - mu) == v * v - 2.0 * mu * v + mu * mu;
    assert 2.0 * mu * (s + v) == 2.0 * mu * s + 2.0 * mu * v;
    assert (k + 1.0) * mu * mu == k * mu * mu + mu * mu;
  }

  lemma {:induction false} DeviationNonNegative(xs: seq<real>, mu: real, n: nat)
    requires n <= |xs|
    ensures Deviation(xs, mu, n) >= 0.0
    ensures Deviation(xs, mu, n) == 0.0 <==> forall t :: 0 <= t < n ==> xs[t] == mu
  {
    if n > 0 {
      DeviationNonNegative(xs, mu, n - 1);
      SquareOverPositive(xs[n - 1] - mu, 1.0);
    }
  }

  /** Mean of squares minus square of the mean is the mean squared deviation. */
  lemma {:induction false} DeviationAboutAverage(xs: seq<real>)
    requires |xs| >= 1
    ensures Deviation(xs, Average(xs), |xs|) / |xs| as real ==
      SquareTotal(xs, |xs|) / |xs| as real - Average(xs) * Average(xs)
  {
    var mu := Average(xs);
    assert mu * |xs| as real == PrefixSum(xs, |xs|);
    DeviationAbout(xs, mu, |xs|);
    DivideMoments(Deviation(xs, mu, |xs|), SquareTotal(xs, |xs|), |xs| as real, mu);
  }

  /** About a centre `mu` with `n * mu` the total, the squared deviations are `q - n mu^2`. */
  lemma {:induction false} DeviationAbout(xs: seq<real>, mu: real, n: nat)
    requires n <= |xs| && mu * n as real == PrefixSum(xs, n)
    ensures Deviation(xs, mu, n) == SquareTotal(xs, n) - n as real * mu * mu
  {
    DeviationExpands(xs, mu, n);
    MomentIdentity(SquareTotal(xs, n), PrefixSum(xs, n), n as real, mu);
  }

  /**
   * The variance is the mean squared deviation from the mean: the formula
   * `m2 - m1 * m1` agrees with the textbook definition.
   */
  lemma {:induction false} VarianceIsMeanSquaredDeviation(h: seq<Sample>, d: nat)
    requires d < 4 && |h| >= 1
    ensures Variance(h, d) == Deviation(Column(h, d), Mean(h, d), |h|) / |h| as real
  {
    DeviationAboutAverage(Column(h, d));
  }

  /** `q - 2 mu s + n mu^2 == q - n mu^2` when `mu * n == s`. */
  lemma MomentIdentity(q: real, s: real, size: real, mu: real)
    requires mu * size == s
    ensures q - 2.0 * mu * s + size * mu * mu == q - size * mu * mu
  {
  }

  /** Dividing `dev == q - n mu^2` by a positive `n`. */
  lemma DivideMoments(dev: real, q: real, size: real, mu: real)
    requires size > 0.0 && dev == q - size * mu * mu
    ensures dev / size == q / size - mu * mu
  {
    assert (q - size * mu * mu) / size == q / size - mu * mu;
  }

  /** The variance of every dimension is non-negative. */
  lemma {:induction false} VarianceNonNegative(h: seq<Sample>, d: nat)
    requires d < 4 && |h| >= 1
    ensures Variance(h, d) >= 0.0
  {
    VarianceIsMeanSquaredDeviation(h, d);
    DeviationNonNegative(Column(h, d), Mean(h, d), |h|);
  }

  /** Every sample has the same coordinate `d`. */
  predicate ConstantIn(h: seq<Sample>, d: nat)
    requires d < 4
  {
    forall t :: 0 <= t < |h| ==> Coord(h[t], d) == Coord(h[0], d)
  }

  /**
   * A dimension has variance 0 exactly when every sample agrees on it; so
   * the scale built from the history is positive in every dimension exactly
   * when no dimension is constant.
   */
  lemma {:induction false} VarianceZeroIffConstant(h: seq<Sample>, d: nat)
    requires d < 4 && |h| >= 1
    ensures Variance(h, d) == 0.0 <==> ConstantIn(h, d)
  {
    var c, mu := Column(h, d), Mean(h, d);
    VarianceIsMeanSquaredDeviation(h, d);
    DeviationNonNegative(c, mu, |h|);
    ZeroQuotient(Deviation(c, mu, |h|), |h| as real);
    if ConstantIn(h, d) {
      PrefixSumOfConstant(c, c[0], |h|);
      MeanOfConstant(PrefixSum(c, |h|), |h| as real, c[0]);
    } else {
      var t :| 0 <= t < |h| && Coord(h[t], d) != Coord(h[0], d);
      assert c[t] != mu || c[0] != mu;
    }
  }

  lemma ZeroQuotient(a: real, t: real)
    requires t > 0.0
    ensures a / t == 0.0 <==> a == 0.0
  {
    assert (a / t) * t == a;
  }

  lemma MeanOfConstant(s: real, size: real, c: real)
    requires size > 0.0 && s == size * c
    ensures s / size == c
  {
  }

  /** A single sample gives variance 0 in every dimension. */
  lemma {:induction false} SingleSampleHasZeroVariance(s: Sample, d: nat)
    requires d < 4
    ensures Variance([s], d) == 0.0
  {
    VarianceZeroIffConstant([s], d);
  }

  // ---------------------------------------------------------------------------
  // THEBEST

  /**
   * The search of `main`: every `(i, j)` with `1 <= i <= gmax`,
   * `1 <= j <= bmax`, returning the last cell of least predicted price in
   * row-major order. With nothing retained every cell predicts 0, so the
   * search ends on the last cell.
   */
  method Thebest(m: int, n: int, h: seq<Sample>, s2: seq<real>, p: nat, gmax: int, bmax: int)
    returns (gridSize: int, blockSize: int, price: real)
    requires gmax >= 1 && bmax >= 1 && NonZeroBelow(s2, 4)
    requires forall i, j :: InGrid(i, j, gmax, bmax) ==>
      Separated(Retained(Query(i as real, j as real, m as real, n as real), h, s2, p), s2)
    ensures InGrid(gridSize, blockSize, gmax, bmax)
    ensures price == PredictedPrice(Query(gridSize as real, blockSize as real, m as real, n as real), h, s2, p)
    ensures forall i, j :: InGrid(i, j, gmax, bmax) ==>
      price <= PredictedPrice(Query(i as real, j as real, m as real, n as real), h, s2, p)
    ensures forall i, j :: InGrid(i, j, gmax, bmax) && Before(gridSize, blockSize, i, j) ==>
      price < PredictedPrice(Query(i as real, j as real, m as real, n as real), h, s2, p)
    ensures |h| == 0 || p == 0 ==> gridSize == gmax && blockSize == bmax && price == 0.0
  {
    var f := (i: int, j: int) requires InGrid(i, j, gmax, bmax) =>
      PredictedPrice(Query(i as real, j as real, m as real, n as real), h, s2, p);
    gridSize, blockSize, price := ArgMin(f, gmax, bmax);
    if |h| == 0 || p == 0 {
      forall i, j | InGrid(i, j, gmax, bmax) ensures f(i, j) == f(1, 1) {
        NothingRetainedPredictsZero(Query(i as real, j as real, m as real, n as real), h, s2, p);
        NothingRetainedPredictsZero(Query(1.0, 1.0, m as real, n as real), h, s2, p);
      }
      ConstantPicksLastCell(f, gmax, bmax, gridSize, blockSize);
      NothingRetainedPredictsZero(Query(gmax as real, bmax as real, m as real, n as real), h, s2, p);
    }
  }
}
