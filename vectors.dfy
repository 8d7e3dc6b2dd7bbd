/** Coordinate vectors of the predictors: `std::vector<double>` modelled as `seq<real>`. */
module Vectors {

  function Min(a: int, b: int): int { if a <= b then a else b }

  function Max(a: int, b: int): int { if a <= b then b else a }

  /** Coordinate `i` of `v`, reading a missing coordinate as 0. */
  function Pad(v: seq<real>, i: nat): real { if i < |v| then v[i] else 0.0 }

  /** Element-wise difference over the indices both vectors have. */
  function Sub(x: seq<real>, y: seq<real>): (r: seq<real>)
    ensures |r| == Min(|x|, |y|)
    ensures forall i :: 0 <= i < |r| ==> r[i] == x[i] - y[i]
  {
    seq(Min(|x|, |y|), i requires 0 <= i < Min(|x|, |y|) => x[i] - y[i])
  }

  /** The loop that `push_back`s `x[i] - y[i]` while both vectors have index `i`. */
  method Difference(x: seq<real>, y: seq<real>) returns (d: seq<real>)
    ensures |d| == Min(|x|, |y|)
    ensures forall i :: 0 <= i < |d| ==> d[i] == x[i] - y[i]
  {
    d := [];
    var i := 0;
    while i < |x| && i < |y|
      invariant 0 <= i <= Min(|x|, |y|)
      invariant |d| == i
      invariant forall k :: 0 <= k < i ==> d[k] == x[k] - y[k]
    {
      d := d + [x[i] - y[i]];
      i := i + 1;
    }
  }

  /** Sum of the first `n` values: the accumulators `y`, `sw` and `m1[d]` of the programs. */
  function PrefixSum(xs: seq<real>, n: nat): real
    requires n <= |xs|
  {
    if n == 0 then 0.0 else PrefixSum(xs, n - 1) + xs[n - 1]
  }

  /** A sum whose only non-zero entry is at `k`. */
  lemma {:induction false} PrefixSumOfSingle(xs: seq<real>, k: nat, n: nat)
    requires k < |xs| && n <= |xs|
    requires forall i :: 0 <= i < |xs| && i != k ==> xs[i] == 0.0
    ensures PrefixSum(xs, n) == if k < n then xs[k] else 0.0
  {
    if n > 0 { PrefixSumOfSingle(xs, k, n - 1); }
  }

  /** `n` equal values `c` sum to `n * c`. */
  lemma {:induction false} PrefixSumOfConstant(xs: seq<real>, c: real, n: nat)
    requires n <= |xs|
    requires forall t :: 0 <= t < n ==> xs[t] == c
    ensures PrefixSum(xs, n) == n as real * c
  {
    if n > 0 { PrefixSumOfConstant(xs, c, n - 1); }
  }

  /** The difference of a vector with itself is the zero vector. */
  lemma {:induction false} SubSelf(x: seq<real>)
    ensures forall i :: 0 <= i < |Sub(x, x)| ==> Sub(x, x)[i] == 0.0
  {
  }
}
