# Price predictors and grid search, modelled in Dafny

The repository holds two small programs. Each estimates the "price" of a
configuration `(m, n, grid_size, block_size)` from a table of past samples,
then searches a grid of `(grid_size, block_size)` pairs for the cheapest
estimate.

- `ppredict/ppredict.cpp` is the **local-correction** predictor:
  - it scales each dimension by the variance of the history (`s2`);
  - it ranks the samples by scaled distance and keeps the closest `p` (default 3);
  - it sums, over the kept samples, the price times a product of pairwise
    projection ratios.
- `predict/predict.cpp` is the **inverse-distance** predictor:
  - it uses the logarithms of the coordinates and an unscaled squared distance;
  - it keeps the closest six samples;
  - it returns their prices averaged with weights `1 / (1 + d)`.

Both programs then run THEBEST. This is a row-major scan of the grid that keeps
a running best and replaces it unless it is already strictly cheaper. On a tie
the **last** minimal cell wins.

Modules:

- `Vectors`: element-wise difference of vectors that may differ in length
  (used by `ppredict`), and the running sum of the first `n` values (used by
  both programs).
- `ScaledMetric`: `delta` and `scalar` of `ppredict`, each as an imperative
  loop proved equal to a specification function, plus their algebra.
  - The distance is zero on equal vectors, non-negative, and symmetric.
  - Indices at or beyond `|s2|` are ignored.
  - The inner product is symmetric and reads only the matched prefix.
  - The inner product of a difference with itself is the distance.
- `Neighbors`: samples, neighbours, and the sort of the neighbour vector.
  - The sort is an in-place insertion sort on an `array`.
  - It is proved equal to a functional stable insertion sort.
  - That sort is sorted, a permutation, and keeps the retained prefix no
    farther than the dropped suffix.
- `GridSearch`: the THEBEST scan, generic over the objective `f(i, j)`. It is
  proved to return the last minimal cell.
- `LocalCorrection`: `predict` and the feature scale of `ppredict`, and its
  search.
  - `predict` is split into its build, sort, `resize` and the two nested
    combination loops.
  - Interpolation: at a retained sample's own features every factor is 1 for
    that sample and 0 for the others, so the prediction is that sample's
    price.
  - The variance formula equals the mean squared deviation, is non-negative,
    and is 0 exactly when the dimension is constant.
- `InverseDistance`: `delta`, `predict` and the search of `predict.cpp`.
  - Every weight lies in `(0, 1]`.
  - The estimate lies between the smallest and largest retained price, and
    strictly inside when the prices differ.
  - With all prices equal, the search returns the last cell at that price.

The arithmetic is over Dafny `real`. A division the code performs without a
guard becomes a precondition, not an invented fallback:
- no zero entry of `s2` below index 4, for the divisions in `delta` and `scalar`;
- no two retained samples at zero scaled spread, for the denominator of the
  projection ratio;
- at least one sample, for `sy / sw` and for the variance.

The model follows the code as written:
- `delta` and `scalar` have no positivity guard on `s2`;
- the sort is `std::sort`, which is not stable;
- the search keeps the last minimal cell, not the first;
- a history file with no lines divides by zero when the scale is built; the
  scale stays all ones only when no history file is given.

The two programs share the running sum (`Vectors.PrefixSum`: `y`, `sw`
and `m1[d]`) and the query vector `[m, n, grid_size, block_size]`
(`Neighbors.Query`). Only `ppredict` builds element-wise differences
(`Vectors.Difference`, its `xxj` and `xixj` loops); the `delta` of
`predict.cpp` squares `x[i] - y[i]` inline.

## Model

| member | source | states |
|---|---|---|
| Vectors.Difference | ppredict/ppredict.cpp:90-91 | the loops building `xxj` and `xixj` produce a vector of length `min(|x|, |y|)` whose entries are `x[i] - y[i]` |
| Vectors.SubSelf | ppredict/ppredict.cpp:90-91 | the difference of a vector with itself is all zeros |
| ScaledMetric.Delta | ppredict/ppredict.cpp:22-30 | the three loops return the scaled squared distance: the matched prefix `(x[i]-y[i])^2/s2[i]`, then the tail of `x`, then the tail of `y`, all below `|s2|` |
| ScaledMetric.DistanceToSelf | ppredict/ppredict.cpp:22-30 | `delta(x, x, s2)` is 0 |
| ScaledMetric.DistanceNonNegative | ppredict/ppredict.cpp:22-30 | with every `s2[i] > 0` the distance is non-negative |
| ScaledMetric.DistanceSymmetric | ppredict/ppredict.cpp:22-30 | the distance is symmetric in `x` and `y` |
| ScaledMetric.DistanceIgnoresBeyondScale | ppredict/ppredict.cpp:25-28 | coordinates at or beyond `|s2|` never change the distance |
| ScaledMetric.Scalar | ppredict/ppredict.cpp:33-39 | the loop returns the scaled inner product over the indices present in `x`, `y` and `s2` |
| ScaledMetric.InnerProductSymmetric | ppredict/ppredict.cpp:33-39 | `scalar(x, y, s2) == scalar(y, x, s2)` |
| ScaledMetric.InnerProductReadsMatchedPrefix | ppredict/ppredict.cpp:37 | only indices below `min(|x|, |y|, |s2|)` are read |
| ScaledMetric.InnerProductSelf | ppredict/ppredict.cpp:33-39 | with `s2 > 0`, `scalar(x, x, s2) >= 0`, and it is 0 exactly when `x` is zero on the scaled indices |
| ScaledMetric.InnerProductOfZero | ppredict/ppredict.cpp:37 | a zero vector has inner product 0 with anything |
| ScaledMetric.InnerProductOfDifference | ppredict/ppredict.cpp:92 | for vectors of equal length, `scalar(x - y, x - y, s2)` equals the scaled squared distance of `x` and `y`, so the projection denominator is the distance between the two samples |
| Neighbors.SortByDistance | ppredict/ppredict.cpp:65-69 | the in-place sort leaves the array holding the distance-sorted order of its old contents |
| Neighbors.InsertInPlace | ppredict/ppredict.cpp:65-69 | one insertion step places `a[i]` after every element of `a[..i]` that is no farther, leaving the rest of the array unchanged |
| Neighbors.SortSorts | ppredict/ppredict.cpp:65-69 | the sorted neighbour list is ascending by distance |
| Neighbors.SortPermutes | ppredict/ppredict.cpp:65-69 | the sort keeps exactly the neighbours it is given (multiset equality) |
| Neighbors.Truncation | ppredict/ppredict.cpp:70 | keeping the first `k` sorted neighbours yields `k` sorted entries; kept and dropped together are the input; no dropped neighbour is closer than a kept one |
| Neighbors.SortedMembers | ppredict/ppredict.cpp:65-70 | every sorted neighbour is one of the built neighbours |
| GridSearch.ArgMin | ppredict/ppredict.cpp:215-226 | with `gmax, bmax >= 1` the scan returns a cell of the grid whose value is at most every cell's and strictly below every later cell's: the last minimal cell |
| GridSearch.LastArgMinUnique | ppredict/ppredict.cpp:222 | the "replace unless strictly cheaper" rule picks a single cell |
| GridSearch.ConstantPicksLastCell | ppredict/ppredict.cpp:222 | when every cell has the same value the scan ends on `(gmax, bmax)` |
| LocalCorrection.BuildNeighbors | ppredict/ppredict.cpp:53-64 | the `push_back` loop fills a fresh array with every sample, in history order, paired with its scaled distance to the query |
| LocalCorrection.RetainedClosest | ppredict/ppredict.cpp:65-70 | the retained list has `min(p, N)` entries, is sorted, together with the dropped suffix is all samples, and is no farther than any dropped sample |
| LocalCorrection.RetainedFromHistory | ppredict/ppredict.cpp:53-70 | every retained neighbour is a history sample carrying its own scaled distance |
| LocalCorrection.FirstRetainedIsClosest | ppredict/ppredict.cpp:65-70 | with `p >= 1` the first retained neighbour is at most as far as any sample |
| LocalCorrection.FactorsAt | ppredict/ppredict.cpp:92 | the `j`-th factor of neighbour `i` is `scalar(x - x_j, x_i - x_j) / scalar(x_i - x_j, x_i - x_j)`, with a non-zero denominator when the retained samples are separated |
| LocalCorrection.ProjectionFactor | ppredict/ppredict.cpp:83-92 | the two difference loops and the two `scalar` calls compute that factor |
| LocalCorrection.Contribute | ppredict/ppredict.cpp:74-94 | the inner loop starts at the neighbour's price and multiplies in the factor of every other retained neighbour, skipping `iti == itj` |
| LocalCorrection.ContributeStep | ppredict/ppredict.cpp:80-93 | one pass of the inner loop extends the running product by the next factor, or keeps it for the neighbour itself |
| LocalCorrection.Combine | ppredict/ppredict.cpp:71-96 | the outer loop returns the sum of all contributions |
| LocalCorrection.Predict | ppredict/ppredict.cpp:43-97 | build, sort in place, `resize(min(p, N))` and combine: the result is the correction over the retained neighbours |
| LocalCorrection.NothingRetainedPredictsZero | ppredict/ppredict.cpp:70-96 | with an empty history or `p == 0` the prediction is 0 |
| LocalCorrection.OneRetainedPredictsClosestPrice | ppredict/ppredict.cpp:70-94 | whenever exactly one neighbour is retained (`min(p, N) == 1`: `p == 1`, or a one-sample history with any `p >= 1`), the prediction is the raw price of a closest sample |
| LocalCorrection.SingleSampleAtDefaults | ppredict/ppredict.cpp:111-120 | with the default `p = 3` and the default all-ones scale, a one-sample history predicts that sample's price at every query |
| LocalCorrection.FactorAtOwnSample | ppredict/ppredict.cpp:92 | at `x == x_i` the projection ratio is 1 |
| LocalCorrection.FactorAtOtherSample | ppredict/ppredict.cpp:92 | at `x == x_j` the projection ratio is 0 |
| LocalCorrection.ScaledByOnes | ppredict/ppredict.cpp:80-93 | a running product of ones leaves the price unchanged |
| LocalCorrection.ScaledByZero | ppredict/ppredict.cpp:80-93 | one zero factor makes the running product 0 |
| LocalCorrection.ContributionAtOwnSample | ppredict/ppredict.cpp:74-94 | at a retained sample's features, that sample contributes its price |
| LocalCorrection.ContributionAtOtherSample | ppredict/ppredict.cpp:74-94 | at a retained sample's features, every other neighbour contributes 0 |
| Vectors.PrefixSumOfSingle | ppredict/ppredict.cpp:94 | a sum whose entries are all 0 but one is that entry |
| LocalCorrection.InterpolatesRetained | ppredict/ppredict.cpp:71-96 | at a retained sample's features the correction equals that sample's price |
| LocalCorrection.ZeroDistanceMeansSameSample | ppredict/ppredict.cpp:26 | with a positive scale, scaled distance 0 between two feature vectors means they are equal |
| LocalCorrection.PredictsHistoryAtItsSamples | ppredict/ppredict.cpp:43-97 | queried at a history sample's features with a positive scale, the first retained neighbour has those features and the prediction is its price |
| LocalCorrection.Accumulate | ppredict/ppredict.cpp:169-192 | the reading loop leaves in `m1[d]` the sum and in `m2[d]` the sum of squares of coordinate `d` |
| LocalCorrection.DivideAll | ppredict/ppredict.cpp:198-199 | each entry is divided in place by the number of samples |
| LocalCorrection.CentralMoments | ppredict/ppredict.cpp:200-201 | the writing loop sets `s2[d] = m2[d] - m1[d] * m1[d]` |
| LocalCorrection.FeatureScale | ppredict/ppredict.cpp:163-201 | for a non-empty history each entry of `s2` is `(Σx²)/N - ((Σx)/N)²` of its dimension |
| LocalCorrection.VarianceFromMoments | ppredict/ppredict.cpp:198-201 | the divided moments give exactly the variance |
| LocalCorrection.DeviationExpands | ppredict/ppredict.cpp:185-192 | the sum of squared deviations from `mu` is `Σx² - 2 mu Σx + n mu²` |
| LocalCorrection.DeviationNonNegative | ppredict/ppredict.cpp:201 | the sum of squared deviations is non-negative, and 0 exactly when every value equals `mu` |
| LocalCorrection.DeviationAboutAverage | ppredict/ppredict.cpp:198-201 | mean of squares minus square of the mean equals the mean squared deviation from the mean |
| LocalCorrection.VarianceIsMeanSquaredDeviation | ppredict/ppredict.cpp:201 | each `s2[d]` is the population variance of dimension `d` in its textbook form |
| LocalCorrection.VarianceNonNegative | ppredict/ppredict.cpp:201 | each `s2[d]` is non-negative for `N >= 1` |
| Vectors.PrefixSumOfConstant | ppredict/ppredict.cpp:185-188 | `n` equal values `c` sum to `n * c` |
| LocalCorrection.VarianceZeroIffConstant | ppredict/ppredict.cpp:201 | `s2[d] == 0` exactly when every sample has the same coordinate `d`, the case in which the divisions in `delta` would be by zero |
| LocalCorrection.SingleSampleHasZeroVariance | ppredict/ppredict.cpp:198-201 | a one-sample history gives `s2[d] == 0` in every dimension |
| LocalCorrection.Thebest | ppredict/ppredict.cpp:212-228 | the search over `[1, gmax] x [1, bmax]` returns the last cell of least predicted price and its price; with nothing retained it returns `(gmax, bmax)` at price 0 |
| InverseDistance.Delta | predict/predict.cpp:22-30 | the three loops return the raw sum of squared differences over the matched prefix plus the squares of the longer vector's tail, with no square root |
| InverseDistance.PlainDistanceToSelf | predict/predict.cpp:22-30 | `delta(x, x) == 0` |
| InverseDistance.PlainDistanceNonNegative | predict/predict.cpp:22-30 | `delta(x, y) >= 0` |
| InverseDistance.PlainDistanceSymmetric | predict/predict.cpp:22-30 | `delta(x, y) == delta(y, x)` |
| InverseDistance.PlainDistanceIsUnitScaled | predict/predict.cpp:22-30 | the unscaled distance is the scaled one with a scale of ones |
| InverseDistance.BuildNeighbors | predict/predict.cpp:41-52 | the `push_back` loop fills a fresh array with every sample, in history order, paired with its distance to the query |
| InverseDistance.RetainedClosest | predict/predict.cpp:53-58 | the retained list has `min(6, N)` entries, is sorted, together with the dropped suffix is all samples, and is no farther than any dropped sample |
| InverseDistance.RetainedFromHistory | predict/predict.cpp:41-58 | every retained neighbour is a history sample carrying its own distance |
| InverseDistance.RetainedNonNegative | predict/predict.cpp:41-58 | every retained distance is non-negative |
| InverseDistance.Weight | predict/predict.cpp:64 | for `d >= 0` the weight `1 / (1 + d)` lies in `(0, 1]` |
| InverseDistance.Weights | predict/predict.cpp:61-67 | one weight per retained neighbour, each in `(0, 1]` |
| InverseDistance.SumBounds | predict/predict.cpp:66 | the sum of `n` such weights lies in `[0, n]` and is positive once `n >= 1` |
| InverseDistance.Combine | predict/predict.cpp:59-68 | the loop accumulating `sy` and `sw` returns `sy / sw` |
| InverseDistance.Predict | predict/predict.cpp:34-69 | build, sort in place, `resize(min(6, N))` and combine: for a non-empty history the result is the weighted average of the retained prices |
| InverseDistance.WeightedSumBounds | predict/predict.cpp:65-66 | with prices in `[lo, hi]` and positive weights, `lo * sw <= sy <= hi * sw` |
| InverseDistance.EstimateWithinPrices | predict/predict.cpp:59-68 | `sy / sw` lies between the smallest and the largest retained price |
| InverseDistance.EstimateOfEqualPrices | predict/predict.cpp:59-68 | if all retained prices equal `c`, the result is `c` |
| InverseDistance.WeightedSumAboveMin | predict/predict.cpp:65-66 | one price above `lo` makes `sy > lo * sw` |
| InverseDistance.WeightedSumBelowMax | predict/predict.cpp:65-66 | one price below `hi` makes `sy < hi * sw` |
| InverseDistance.RatioStrictlyInside | predict/predict.cpp:59-68 | with one price above `lo` and one below `hi`, `lo < sy / sw < hi` |
| InverseDistance.EstimateStrictlyInside | predict/predict.cpp:59-68 | with one retained price above `lo` and one below `hi`, the estimate is strictly inside `(lo, hi)` |
| InverseDistance.PredictedWithinHistoryPrices | predict/predict.cpp:34-69 | the prediction lies between the smallest and the largest price of the whole history |
| InverseDistance.Thebest | predict/predict.cpp:155-170 | the search over `1 <= i < 32`, `1 <= j < 1024` returns the last cell of least predicted price and its price; when every history price is `c`, it returns `(31, 1023)` at price `c` |

## Left out

- Command-line parsing and mode selection are not modelled: they are string comparisons and `atoi`. Of the defaults, `_p = 3` and the all-ones scale used when no history file is given are the constants `LocalCorrection.DefaultP` and `LocalCorrection.DefaultScale`. The defaults of `m`, `n`, `grid_size`, `block_size`, `gmax` and `bmax`, and those of `predict.cpp`, are not modelled: the predictors and searches take these values as parameters.
- File and stream I/O is not modelled: `freopen`, `ifstream`, `getline`, stream extraction and `cout`. The models take the parsed samples as a sequence. Parsing the history into `Sample` values is outside the model.
- `setlocale` is a platform call and is not modelled.
- IEEE `double` is not modelled: rounding, and the NaN or infinity from a division by zero. Arithmetic is over `real`, and each unguarded division is a precondition.
- The `DBL_MAX` start value of the search is modelled as "no best yet", which the first cell always replaces.
- The `log` transform of `predict.cpp` is not modelled. The model takes the coordinates as given reals, and the search takes the logarithm as a parameter `lg`.
- ScaledMetric.Delta: returns the squared distance; the final `sqrt` is not modelled. The distance is used only to order neighbours, and `sqrt` is increasing on non-negative values, so the order is the same with a positive scale.
- The `mx` maximum tracking is not modelled. It is dead code: its only use is commented out, and its last update reads `mx[0]` instead of `mx[3]`.
- LocalCorrection.Accumulate: the `int` products `m * m` are exact in the model; the program's 32-bit overflow for coordinates above 46340 is not modelled.
- LocalCorrection.Predict: a negative `p` makes `resize` throw in the program; the model takes `p` as a natural number.
- LocalCorrection.Thebest, GridSearch.ArgMin: `gmax` and `bmax` must be at least 1. With an empty grid the program prints uninitialised variables.
- LocalCorrection.FeatureScale: requires at least one sample. An empty history file makes the program divide by zero (0/0).
- LocalCorrection.Predict: requires the retained samples to be pairwise separated (non-zero projection denominator), because the program divides without a guard.
- InverseDistance.Predict: requires at least one sample. With none, the program returns `0/0`.
- Neighbors.SortByDistance: `std::sort` may order neighbours of equal distance in any way. The model fixes one admissible order, a stable insertion sort. Everything else proved about the retained neighbours holds for any sorted permutation, but which of several equally distant samples survive the cut follows this one order.
