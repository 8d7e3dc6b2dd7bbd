/**
 * The inverse-distance predictor of predict/predict.cpp: rank every sample by
 * its unscaled squared distance to the query, keep the closest six, and
 * average their prices with weights `1 / (1 + d)`.
 *
 * The coordinates the program works on are logarithms (`log(m)`, ...); the
 * model takes them as given reals, and the search takes the logarithm as a
 * parameter `lg`.
 */
module InverseDistance {
  import opened Vectors
  import opened Neighbors
  import opened GridSearch
  import ScaledMetric

  /** Number of neighbours the program keeps (`std::min(6, ...)`). */
  const Keep: nat := 6
  /** The search visits `1 <= i < 32` and `1 <= j < 1024`. */
  const GridMax: int := 31
  const BlockMax: int := 1023

  // ---------------------------------------------------------------------------
  // delta

  function Square(v: real): real { v * v }

  function PlainSum(x: seq<real>, y: seq<real>, n: nat): real
  {
    if n == 0 then 0.0 else PlainSum(x, y, n - 1) + Square(Pad(x, n - 1) - Pad(y, n - 1))
  }

  /**
   * Reference definition of `delta`: the sum of squared coordinate differences
   * after padding the shorter vector with zeros. There is no square root.
   */
  function PlainDistance(x: seq<real>, y: seq<real>): real
  {
    PlainSum(x, y, Max(|x|, |y|))
  }

  /** `delta`: the matched prefix, then the tail of `x`, then the tail of `y`. */
  method Delta(x: seq<real>, y: seq<real>) returns (s: real)
    ensures s == PlainDistance(x, y)
  {
    s := 0.0;
    var i := 0;
    while i < |x| && i < |y|
      invariant 0 <= i <= Min(|x|, |y|)
      invariant s == PlainSum(x, y, i)
    {
      s := s + (x[i] - y[i]) * (x[i] - y[i]);
      i := i + 1;
    }
    while i < |x|
      invariant 0 <= i <= Max(|x|, |y|)
      invariant |y| <= i || !(i < |x|)
      invariant s == PlainSum(x, y, i)
    {
      s := s + x[i] * x[i];
      i := i + 1;
    }
    while i < |y|
      invariant 0 <= i <= Max(|x|, |y|)
      invariant |x| <= i
      invariant s == PlainSum(x, y, i)
    {
      assert Square(Pad(x, i) - Pad(y, i)) == Square(y[i]) by {
        assert Pad(x, i) - Pad(y, i) == -y[i];
      }
      s := s + y[i] * y[i];
      i := i + 1;
    }
  }

  lemma {:induction false} PlainSumSelf(x: seq<real>, n: nat)
    ensures PlainSum(x, x, n) == 0.0
  {
    if n > 0 { PlainSumSelf(x, n - 1); }
  }

  /** `delta(x, x) == 0`. */
  lemma {:induction false} PlainDistanceToSelf(x: seq<real>)
    ensures PlainDistance(x, x) == 0.0
  {
    PlainSumSelf(x, |x|);
  }

  lemma {:induction false} PlainSumNonNegative(x: seq<real>, y: seq<real>, n: nat)
    ensures PlainSum(x, y, n) >= 0.0
  {
    if n > 0 {
      PlainSumNonNegative(x, y, n - 1);
      var d := Pad(x, n - 1) - Pad(y, n - 1);
      assert Square(d) >= 0.0;
    }
  }

  /** `delta` is never negative. */
  lemma {:induction false} PlainDistanceNonNegative(x: seq<real>, y: seq<real>)
    ensures PlainDistance(x, y) >= 0.0
  {
    PlainSumNonNegative(x, y, Max(|x|, |y|));
  }

  lemma {:induction false} PlainSumSymmetric(x: seq<real>, y: seq<real>, n: nat)
    ensures PlainSum(x, y, n) == PlainSum(y, x, n)
  {
    if n > 0 {
      PlainSumSymmetric(x, y, n - 1);
      var d := Pad(x, n - 1) - Pad(y, n - 1);
      assert Square(d) == Square(-d);
    }
  }

  /** `delta(x, y) == delta(y, x)`. */
  lemma {:induction false} PlainDistanceSymmetric(x: seq<real>, y: seq<real>)
    ensures PlainDistance(x, y) == PlainDistance(y, x)
  {
    PlainSumSymmetric(x, y, Max(|x|, |y|));
  }

  function Ones(k: nat): (r: seq<real>)
    ensures |r| == k && forall i :: 0 <= i < k ==> r[i] == 1.0
  {
    seq(k, _ => 1.0)
  }

  lemma {:induction false} PlainSumIsUnitScaled(x: seq<real>, y: seq<real>, n: nat, k: nat)
    requires n <= k
    ensures PlainSum(x, y, n) == ScaledMetric.TermSum(x, y, Ones(k), n)
  {
    if n > 0 { PlainSumIsUnitScaled(x, y, n - 1, k); }
  }

  /**
   * `delta` of predict/predict.cpp is `delta` of ppredict/ppredict.cpp without
   * the square root, on a scale of ones covering both vectors.
   */
  lemma {:induction false} PlainDistanceIsUnitScaled(x: seq<real>, y: seq<real>)
    ensures PlainDistance(x, y) == ScaledMetric.SquaredDistance(x, y, Ones(Max(|x|, |y|)))
  {
    PlainSumIsUnitScaled(x, y, Max(|x|, |y|), Max(|x|, |y|));
  }

  // ---------------------------------------------------------------------------
  // Neighbour selection

  /** Every sample paired with its distance to `x`, in history order. */
  function Candidates(x: seq<real>, h: seq<Sample>): (c: seq<Neighbor>)
    ensures |c| == |h|
    ensures forall t :: 0 <= t < |h| ==> c[t] == Neighbor(h[t], PlainDistance(x, Features(h[t])))
  {
    seq(|h|, t requires 0 <= t < |h| => Neighbor(h[t], PlainDistance(x, Features(h[t]))))
  }

  /** The neighbours kept after sorting and `resize(min(6, N))`. */
  function Retained(x: seq<real>, h: seq<Sample>): seq<Neighbor>
  {
    SortLength(Candidates(x, h));
    SortedByDist(Candidates(x, h))[..Min(Keep, |h|)]
  }

  /**
   * The retained list has `min(6, N)` elements, is sorted by distance, no
   * dropped sample is closer than a retained one, and retained and dropped
   * together are all the samples.
   */
  lemma {:induction false} RetainedClosest(x: seq<real>, h: seq<Sample>)
    ensures var t := SortedByDist(Candidates(x, h)); var k := Min(Keep, |h|);
      && |t| == |h|
      && Retained(x, h) == t[..k]
      && |Retained(x, h)| == k
      && Sorted(Retained(x, h))
      && multiset(t[..k]) + multiset(t[k..]) == multiset(Candidates(x, h))
      && forall i, j :: 0 <= i < k <= j < |h| ==> t[i].dist <= t[j].dist
  {
    Truncation(Candidates(x, h), Min(Keep, |h|));
  }

  /** Each retained neighbour is a sample of the history, tagged with its distance. */
  lemma {:induction false} RetainedFromHistory(x: seq<real>, h: seq<Sample>)
    ensures forall i :: 0 <= i < |Retained(x, h)| ==>
      Retained(x, h)[i].sample in h &&
      Retained(x, h)[i].dist == PlainDistance(x, Features(Retained(x, h)[i].sample))
  {
    var c := Candidates(x, h);
    SortLength(c);
    SortedMembers(c);
    forall i | 0 <= i < |Retained(x, h)|
      ensures Retained(x, h)[i].sample in h
      ensures Retained(x, h)[i].dist == PlainDistance(x, Features(Retained(x, h)[i].sample))
    {
      assert Retained(x, h)[i] == SortedByDist(c)[i];
      var t :| 0 <= t < |c| && c[t] == SortedByDist(c)[i];
    }
  }

  // ---------------------------------------------------------------------------
  // Inverse-distance weighting

  predicate NonNegativeDists(nb: seq<Neighbor>)
  {
    forall i :: 0 <= i < |nb| ==> nb[i].dist >= 0.0
  }

  lemma {:induction false} RetainedNonNegative(x: seq<real>, h: seq<Sample>)
    ensures NonNegativeDists(Retained(x, h))
  {
    RetainedFromHistory(x, h);
    forall i | 0 <= i < |Retained(x, h)| ensures Retained(x, h)[i].dist >= 0.0 {
      PlainDistanceNonNegative(x, Features(Retained(x, h)[i].sample));
    }
  }

  /** `w = 1.0 / (1.0 + d)`: a weight in `(0, 1]` for every distance `d >= 0`. */
  function Weight(d: real): (w: real)
    requires d >= 0.0
    ensures 0.0 < w <= 1.0
  {
    assert (1.0 / (1.0 + d)) * (1.0 + d) == 1.0;
    1.0 / (1.0 + d)
  }

  /** The retained prices, in order. */
  function Prices(nb: seq<Neighbor>): (ps: seq<real>)
    ensures |ps| == |nb|
    ensures forall i :: 0 <= i < |nb| ==> ps[i] == nb[i].sample.price
  {
    seq(|nb|, i requires 0 <= i < |nb| => nb[i].sample.price)
  }

  /** The weights `1 / (1 + d)` of the retained neighbours, in order. */
  function Weights(nb: seq<Neighbor>): (ws: seq<real>)
    requires NonNegativeDists(nb)
    ensures |ws| == |nb|
    ensures forall i :: 0 <= i < |nb| ==> ws[i] == Weight(nb[i].dist) && 0.0 < ws[i] <= 1.0
  {
    seq(|nb|, i requires 0 <= i < |nb| => Weight(nb[i].dist))
  }

  /** `sy` once the first `n` neighbours are added. */
  function WeightedSum(ps: seq<real>, ws: seq<real>, n: nat): real
    requires n <= |ps| && n <= |ws|
  {
    if n == 0 then 0.0 else WeightedSum(ps, ws, n - 1) + ps[n - 1] * ws[n - 1]
  }

  /** Weights in `(0, 1]` add up to a total in `(0, n]` once `n >= 1`. */
  lemma {:induction false} SumBounds(ws: seq<real>, n: nat)
    requires n <= |ws|
    requires forall i :: 0 <= i < n ==> 0.0 < ws[i] <= 1.0
    ensures 0.0 <= PrefixSum(ws, n) <= n as real
    ensures n >= 1 ==> PrefixSum(ws, n) > 0.0
  {
    if n > 0 { SumBounds(ws, n - 1); }
  }

  /** `sy / sw`, defined once at least one neighbour is retained. */
  function Estimate(nb: seq<Neighbor>): real
    requires |nb| >= 1 && NonNegativeDists(nb)
  {
    SumBounds(Weights(nb), |nb|);
    WeightedSum(Prices(nb), Weights(nb), |nb|) / PrefixSum(Weights(nb), |nb|)
  }

  /** The price the program prints for query `x`; it needs at least one sample. */
  function PredictedPrice(x: seq<real>, h: seq<Sample>): real
    requires |h| >= 1
  {
    RetainedClosest(x, h);
    RetainedNonNegative(x, h);
    Estimate(Retained(x, h))
  }

  /** The loop of `predict` that pairs every sample with its `delta` to `x1`. */
  method BuildNeighbors(x1: seq<real>, h: seq<Sample>) returns (neighbors: array<Neighbor>)
    ensures fresh(neighbors)
    ensures neighbors[..] == Candidates(x1, h)
  {
    neighbors := new Neighbor[|h|];
    var t := 0;
    while t < |h|
      invariant 0 <= t <= |h|
      invariant forall k :: 0 <= k < t ==> neighbors[k] == Candidates(x1, h)[k]
    {
      var d := Delta(x1, Features(h[t]));
      neighbors[t] := Neighbor(h[t], d);
      t := t + 1;
    }
  }

  /** The loop accumulating `sy` and `sw`, then `sy / sw`. */
  method Combine(nb: seq<Neighbor>) returns (price: real)
    requires |nb| >= 1 && NonNegativeDists(nb)
    ensures price == Estimate(nb)
  {
    ghost var ps, ws := Prices(nb), Weights(nb);
    var sy, sw := 0.0, 0.0;
    var i := 0;
    while i < |nb|
      invariant 0 <= i <= |nb|
      invariant sy == WeightedSum(ps, ws, i) && sw == PrefixSum(ws, i)
    {
      var w := 1.0 / (1.0 + nb[i].dist);
      sy := sy + nb[i].sample.price * w;
      sw := sw + w;
      i := i + 1;
    }
    SumBounds(ws, |nb|);
    price := sy / sw;
  }

  /**
   * `predict`: build the neighbour vector, sort it in place, keep the first
   * `min(6, N)` entries and return `sy / sw`. An empty history makes this
   * `0/0` in the program, so the model requires a sample.
   */
  method Predict(logGrid: real, logBlock: real, logM: real, logN: real, h: seq<Sample>)
    returns (price: real)
    requires |h| >= 1
    ensures price == PredictedPrice(Query(logGrid, logBlock, logM, logN), h)
  {
    var x1 := Query(logGrid, logBlock, logM, logN);
    var neighbors := BuildNeighbors(x1, h);
    SortByDistance(neighbors);
    var nb := neighbors[..Min(Keep, neighbors.Length)];
    RetainedClosest(x1, h);
    RetainedNonNegative(x1, h);
    price := Combine(nb);
  }

  // ---------------------------------------------------------------------------
  // The estimate is a convex combination of the retained prices

  /** One step of the bound on the weighted sum, on plain reals. */
  lemma {:induction false} BoundStep(lo: real, hi: real, a: real, t: real, p: real, w: real, a': real, t': real)
    requires lo * t <= a <= hi * t
    requires lo <= p <= hi && w > 0.0
    requires a' == a + p * w && t' == t + w
    ensures lo * t' <= a' <= hi * t'
    ensures lo < p ==> lo * t' < a'
    ensures p < hi ==> a' < hi * t'
  {
    assert lo * (t + w) == lo * t + lo * w;
    assert hi * (t + w) == hi * t + hi * w;
    ScaleBounds(lo, p, hi, w);
  }

  /** A strict bound is kept by one more non-strict step. */
  lemma {:induction false} StrictStep(lo: real, hi: real, a: real, t: real, p: real, w: real, a': real, t': real)
    requires lo * t <= a <= hi * t
    requires lo <= p <= hi && w > 0.0
    requires a' == a + p * w && t' == t + w
    ensures lo * t < a ==> lo * t' < a'
    ensures a < hi * t ==> a' < hi * t'
  {
    assert lo * (t + w) == lo * t + lo * w;
    assert hi * (t + w) == hi * t + hi * w;
    ScaleBounds(lo, p, hi, w);
  }

  lemma {:induction false} WeightedSumBounds(ps: seq<real>, ws: seq<real>, n: nat, lo: real, hi: real)
    requires n <= |ps| && n <= |ws|
    requires forall i :: 0 <= i < n ==> lo <= ps[i] <= hi && ws[i] > 0.0
    ensures lo * PrefixSum(ws, n) <= WeightedSum(ps, ws, n) <= hi * PrefixSum(ws, n)
  {
    if n == 0 {
      assert PrefixSum(ws, n) == 0.0 && WeightedSum(ps, ws, n) == 0.0;
    } else {
      WeightedSumBounds(ps, ws, n - 1, lo, hi);
      var a, t, p, w := WeightedSum(ps, ws, n - 1), PrefixSum(ws, n - 1), ps[n - 1], ws[n - 1];
      BoundStep(lo, hi, a, t, p, w, WeightedSum(ps, ws, n), PrefixSum(ws, n));
    }
  }

  lemma {:induction false} ScaleBounds(lo: real, p: real, hi: real, w: real)
    requires lo <= p <= hi && w > 0.0
    ensures lo * w <= p * w <= hi * w
    ensures lo < p ==> lo * w < p * w
    ensures p < hi ==> p * w < hi * w
  {
  }

  lemma {:induction false} QuotientBounds(a: real, t: real, lo: real, hi: real)
    requires t > 0.0 && lo * t <= a <= hi * t
    ensures lo <= a / t <= hi
    ensures lo * t < a ==> lo < a / t
    ensures a < hi * t ==> a / t < hi
  {
    assert (a / t) * t == a;
  }

  /**
   * If every retained price lies in `[lo, hi]` then so does the estimate: the
   * estimate is between the smallest and the largest retained price.
   */
  lemma {:induction false} EstimateWithinPrices(nb: seq<Neighbor>, lo: real, hi: real)
    requires |nb| >= 1 && NonNegativeDists(nb)
    requires forall i :: 0 <= i < |nb| ==> lo <= nb[i].sample.price <= hi
    ensures lo <= Estimate(nb) <= hi
  {
    var ps, ws := Prices(nb), Weights(nb);
    SumBounds(ws, |nb|);
    WeightedSumBounds(ps, ws, |nb|, lo, hi);
    QuotientBounds(WeightedSum(ps, ws, |nb|), PrefixSum(ws, |nb|), lo, hi);
  }

  /** If all retained prices equal `c`, the estimate is `c`. */
  lemma {:induction false} EstimateOfEqualPrices(nb: seq<Neighbor>, c: real)
    requires |nb| >= 1 && NonNegativeDists(nb)
    requires forall i :: 0 <= i < |nb| ==> nb[i].sample.price == c
    ensures Estimate(nb) == c
  {
    EstimateWithinPrices(nb, c, c);
  }

  lemma {:induction false} WeightedSumAboveMin(ps: seq<real>, ws: seq<real>, n: nat, lo: real, hi: real, k: nat)
    requires n <= |ps| && n <= |ws|
    requires forall i :: 0 <= i < n ==> lo <= ps[i] <= hi && ws[i] > 0.0
    requires k < n && lo < ps[k]
    ensures lo * PrefixSum(ws, n) < WeightedSum(ps, ws, n)
  {
    var a, t := WeightedSum(ps, ws, n - 1), PrefixSum(ws, n - 1);
    WeightedSumBounds(ps, ws, n - 1, lo, hi);
    BoundStep(lo, hi, a, t, ps[n - 1], ws[n - 1], WeightedSum(ps, ws, n), PrefixSum(ws, n));
    if k < n - 1 {
      WeightedSumAboveMin(ps, ws, n - 1, lo, hi, k);
      StrictStep(lo, hi, a, t, ps[n - 1], ws[n - 1], WeightedSum(ps, ws, n), PrefixSum(ws, n));
    }
  }

  lemma {:induction false} WeightedSumBelowMax(ps: seq<real>, ws: seq<real>, n: nat, lo: real, hi: real, k: nat)
    requires n <= |ps| && n <= |ws|
    requires forall i :: 0 <= i < n ==> lo <= ps[i] <= hi && ws[i] > 0.0
    requires k < n && ps[k] < hi
    ensures WeightedSum(ps, ws, n) < hi * PrefixSum(ws, n)
  {
    var a, t := WeightedSum(ps, ws, n - 1), PrefixSum(ws, n - 1);
    WeightedSumBounds(ps, ws, n - 1, lo, hi);
    BoundStep(lo, hi, a, t, ps[n - 1], ws[n - 1], WeightedSum(ps, ws, n), PrefixSum(ws, n));
    if k < n - 1 {
      WeightedSumBelowMax(ps, ws, n - 1, lo, hi, k);
      StrictStep(lo, hi, a, t, ps[n - 1], ws[n - 1], WeightedSum(ps, ws, n), PrefixSum(ws, n));
    }
  }

  lemma {:induction false} RatioStrictlyInside(ps: seq<real>, ws: seq<real>, n: nat, lo: real, hi: real, a: nat, b: nat)
    requires n <= |ps| && n <= |ws|
    requires forall i :: 0 <= i < n ==> lo <= ps[i] <= hi && 0.0 < ws[i] <= 1.0
    requires a < n && b < n && lo < ps[a] && ps[b] < hi
    ensures PrefixSum(ws, n) > 0.0
    ensures lo < WeightedSum(ps, ws, n) / PrefixSum(ws, n) < hi
  {
    SumBounds(ws, n);
    WeightedSumAboveMin(ps, ws, n, lo, hi, a);
    WeightedSumBelowMax(ps, ws, n, lo, hi, b);
    StrictQuotient(WeightedSum(ps, ws, n), PrefixSum(ws, n), lo, hi);
  }

  lemma {:induction false} StrictQuotient(a: real, t: real, lo: real, hi: real)
    requires t > 0.0 && lo * t < a < hi * t
    ensures lo < a / t < hi
  {
    assert (a / t) * t == a;
  }

  /**
   * Every retained neighbour has a positive weight, so a retained price above
   * the lower bound lifts the estimate strictly above it, and one below the
   * upper bound pulls it strictly below: with two different retained prices
   * the estimate lies strictly between the smallest and the largest.
   */
  lemma {:induction false} EstimateStrictlyInside(nb: seq<Neighbor>, lo: real, hi: real, a: nat, b: nat)
    requires |nb| >= 1 && NonNegativeDists(nb)
    requires forall i :: 0 <= i < |nb| ==> lo <= nb[i].sample.price <= hi
    requires a < |nb| && b < |nb| && lo < nb[a].sample.price && nb[b].sample.price < hi
    ensures lo < Estimate(nb) < hi
  {
    RatioStrictlyInside(Prices(nb), Weights(nb), |nb|, lo, hi, a, b);
  }

  /**
   * The predicted price lies between the smallest and the largest price of the
   * history, since every retained neighbour is a sample of it.
   */
  lemma {:induction false} PredictedWithinHistoryPrices(x: seq<real>, h: seq<Sample>, lo: real, hi: real)
    requires |h| >= 1
    requires forall t :: 0 <= t < |h| ==> lo <= h[t].price <= hi
    ensures lo <= PredictedPrice(x, h) <= hi
  {
    RetainedClosest(x, h);
    RetainedFromHistory(x, h);
    RetainedNonNegative(x, h);
    var nb := Retained(x, h);
    forall i | 0 <= i < |nb| ensures lo <= nb[i].sample.price <= hi {
      var t :| 0 <= t < |h| && h[t] == nb[i].sample;
    }
    EstimateWithinPrices(nb, lo, hi);
  }

  // ---------------------------------------------------------------------------
  // THEBEST

  /**
   * The search of `main`: every `(i, j)` with `1 <= i < 32`, `1 <= j < 1024`,
   * evaluated at `(lg(i), lg(j), lg(m), lg(n))`, where `lg` is the logarithm.
   * It returns the last cell of least predicted price in row-major order.
   */
  method Thebest(m: int, n: int, h: seq<Sample>, lg: int -> real)
    returns (gridSize: int, blockSize: int, price: real)
    requires |h| >= 1
    ensures InGrid(gridSize, blockSize, GridMax, BlockMax)
    ensures price == PredictedPrice(Query(lg(gridSize), lg(blockSize), lg(m), lg(n)), h)
    ensures forall i, j :: InGrid(i, j, GridMax, BlockMax) ==>
      price <= PredictedPrice(Query(lg(i), lg(j), lg(m), lg(n)), h)
    ensures forall i, j :: InGrid(i, j, GridMax, BlockMax) && Before(gridSize, blockSize, i, j) ==>
      price < PredictedPrice(Query(lg(i), lg(j), lg(m), lg(n)), h)
    ensures (forall t :: 0 <= t < |h| ==> h[t].price == h[0].price) ==>
      gridSize == GridMax && blockSize == BlockMax && price == h[0].price
  {
    var f := (i: int, j: int) => PredictedPrice(Query(lg(i), lg(j), lg(m), lg(n)), h);
    gridSize, blockSize, price := ArgMin(f, GridMax, BlockMax);
    var c := h[0].price;
    if forall t :: 0 <= t < |h| ==> h[t].price == c {
      forall i, j | InGrid(i, j, GridMax, BlockMax) ensures f(i, j) == f(1, 1) {
        PredictedWithinHistoryPrices(Query(lg(i), lg(j), lg(m), lg(n)), h, c, c);
        PredictedWithinHistoryPrices(Query(lg(1), lg(1), lg(m), lg(n)), h, c, c);
      }
      ConstantPicksLastCell(f, GridMax, BlockMax, gridSize, blockSize);
      PredictedWithinHistoryPrices(Query(lg(gridSize), lg(blockSize), lg(m), lg(n)), h, c, c);
    }
  }
}
