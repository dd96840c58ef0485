# statgen statistics core in Dafny

This project models the statistics core of statgen. It has two accumulators over a stream of numbers. Both are proved to report the statistics of the values they have absorbed.

- **The C ADT** (`c/stats.c`) is a record of `count`, `min`, `max`, `mean` and `variance`.
  - `stats_update` moves the mean by `(x − mean)/(n + 1)`.
  - It updates the variance by Ross's recurrence.
  - `stats_confidence` scales the standard error by a deviate.
- **The Python `Stats` class** (`python/stats.py`) keeps a shift `K` (the first value), `Ex = Σ(x − K)`, `Ex2 = Σ(x − K)²`, the plain sum and the extremes.
  - Its readouts raise `StatsException` when there are too few samples. Here they return `Err`.
- **The quantile approximations `Z` and `T`** (MacDougall, *Simulating Computer Systems*, p. 276) appear in both sources. They use the same expressions and the same constants, so they are modelled once.

Layout:

- `moments.dfy`: reference definitions over the list of values. It holds the sum, the squared deviation about any centre, the mean, the Bessel-corrected sample variance and the true and folded extremes. It also holds the identities the two algorithms rest on: Ross's recurrence, the mean update, and the shift invariance of the Python sums (parallel axis). Every statistic is shown to depend only on the multiset of values, not on their order.
- `quantiles.dfy`:
  - `Z` as a function. Its numerator and denominator and the four correction coefficients of `T` are polynomials given by their coefficient lists, evaluated by Horner's rule (`Poly`). `CorrectionsAsWritten` and the `Poly…` lemmas show they are the source's expressions.
  - `T` as imperative code. It fills a four-slot array with the correction coefficients, then runs the Horner loop `x := (x + h[i])/ndf` for `i = 3..0`.
  - The `2..29` rule that chooses between the two deviates.
- `c_stats.dfy`: class `StatsData`. A ghost list `xs` holds the values absorbed. `Valid()` states that every field is the reference statistic of `xs`, and `Init`/`Update` keep it.
- `py_stats.dfy`: class `Stats`, with the same construction.
- `py_stats_examples.dfy`: the Python unit tests, as methods whose contracts state what each test asserts.
- `agreement.dfy`: the two accumulators report the same statistics over the same values, and each reports the same statistics whatever order the values arrive in.

Arithmetic is over `real`. The maths library's `log` and `sqrt` are carried as a `MathLib` value of two functions. All that is known of them is that a square root is not negative.

**The C variance is the Bessel-corrected sample variance**, not a population estimator. The recurrence `(1 − 1/n)·S² + (n + 1)·(mean' − mean)²` of `stats_update` keeps `Σ(x − mean)²/(n − 1)` (`Moments.RossRecurrence`).

**Other points of the C code, modelled as written:**

- The running maximum starts from `DBL_MIN`, the smallest *positive* double (c/stats.c:30). So `stats_max` reports `DBL_MIN` when every value is below it, for example for any sample of zero or negative values. `CStats.OneNegativeValue` shows this. The Python class starts from `-inf` and reports the true maximum.
- `D1` is `1.43278` as in the source. Abramowitz and Stegun, formula 26.2.23, print `1.432788`.
- The third correction coefficient of `T` is `0.002604167·z1·((3z2 + 19)·z2 − 15)`, that is `(3z⁵ + 19z³ − 15z)/384` (c/stats.c:115, python/stats.py:173). Abramowitz and Stegun, formula 26.7.5, give `g3 = (3x⁷ + 19x⁵ + 17x³ − 15x)/384`, so the source's `h[2]` has neither the `x⁷` degree nor the `17x³` term. The model keeps the source's coefficient (`Quantiles.CorrectionsAsWritten`).

## Model

| member | source | states |
|---|---|---|
| Moments.MinOf | c/stats.c:18 | the result is one of the two arguments and no larger than either |
| Moments.MaxOf | c/stats.c:19 | the result is one of the two arguments and no smaller than either |
| Moments.SumAppend | python/stats.py:42 | the sum of the values grows by exactly the value added |
| Moments.ShiftedSumIsSumMinusShift | python/stats.py:40 | `Ex = Σ(x − K)` equals `Σx − n·K` |
| Moments.ShiftedSumAppend | python/stats.py:40 | one add raises `Ex` by `value − K` |
| Moments.SumSqDevAppend | python/stats.py:41 | one add raises `Ex2` by `(value − K)²` |
| Moments.SumSqDevExpand | python/stats.py:99 | `Σ(x − c)² = Σx² − 2c·Σx + n·c²` for any centre c |
| Moments.SumSqDevNonNegative | c/stats.c:42 | a sum of squared deviations is never negative |
| Moments.MeanTimesCount | c/stats.c:59-61 | the mean times the count is the sum of the values |
| Moments.MeanAppend | c/stats.c:39 | after one more value the mean is `m + (x − m)/(n + 1)`, the C update |
| Moments.ParallelAxis | python/stats.py:99 | squared deviation about any centre = squared deviation about the mean + `n·(mean − c)²` |
| Moments.ShiftedMean | python/stats.py:91 | `K + Ex/n` is the mean whatever the shift K |
| Moments.ShiftedVariance | python/stats.py:99 | `(Ex2 − Ex²/n)/(n − 1)` is the sample variance whatever the shift K |
| Moments.VarianceTimesDegrees | c/stats.c:63-65 | `S²·(n − 1)` is the squared deviation about the mean, also for one value |
| Moments.SingleDeviationIsZero | c/stats.c:40 | one value has no deviation from its mean, so the variance starts at 0 |
| Moments.SumSqDevAboutMeanAppend | c/stats.c:39-42 | one more value adds `n·(x − m)²/(n + 1)` to the squared deviation about the mean |
| Moments.RossRecurrence | c/stats.c:40-43 | `(1 − 1/n)·S² + (n + 1)·(m' − m)²` is the sample variance of the n + 1 values |
| Moments.SampleVarianceNonNegative | c/stats.c:41-42 | the variance the recurrence keeps is never negative |
| Moments.SumOfSingleton | c/stats.c:39 | after the first value the mean is that value |
| Moments.SmallestIsMinimum | python/stats.py:35 | `Smallest` is one of the values and no value is below it |
| Moments.LargestIsMaximum | python/stats.py:36 | `Largest` is one of the values and no value is above it |
| Moments.FoldMinIsMinimum | c/stats.c:37 | a running minimum from a start value is `MIN(start, true minimum)` |
| Moments.FoldMaxIsMaximum | c/stats.c:38 | a running maximum from a start value is `MAX(start, true maximum)` |
| Moments.ExtremesAppend | python/stats.py:35-36 | the true extremes after one more value are `min`/`max` of the old ones and the value |
| Moments.FoldAppend | c/stats.c:37-38 | one more value folds into the running extremes by `MIN`/`MAX` |
| Moments.SumsRemoveMiddle | c/stats.c:35-45 | taking one value out of anywhere in the list takes exactly its term out of the sum and of the squared deviation |
| Moments.SumsPermutation | python/stats.py:31-42 | two lists holding the same values in any order have the same sum and the same squared deviation about any centre |
| Moments.MomentsPermutation | c/stats.c:35-45 | the same values in any order give the same count, mean and sample variance |
| Moments.ExtremesPermutation | python/stats.py:35-36 | the same non-empty values in any order give the same true minimum and maximum |
| Moments.FoldsPermutation | c/stats.c:37-38 | the same values in any order give the same running extremes from any start value |
| Quantiles.PolyThree | c/stats.c:98 | the coefficient-list polynomial of degree 2 is the source's Horner expression `(c·x + b)·x + a`, as in `n` |
| Quantiles.PolyFour | c/stats.c:99 | the degree-3 polynomial is `((d·x + c)·x + b)·x + a`, as in `d` |
| Quantiles.CorrectionBounds | c/stats.c:98-100 | for `t ≥ 0` the denominator is at least 1 and the correction `n/d` lies in `(0, 2.515517]` |
| Quantiles.Tail | c/stats.c:96 | the tail is at most 0.5 and is `p` or `1 − p` |
| Quantiles.Z | c/stats.c:93-104 | the deviate is `t = sqrt(−2 ln q)` less a correction in `(0, c0]`, and its negation when `p > 0.5`; python/stats.py:146-160 is the same code |
| Quantiles.ZOdd | c/stats.c:101-102 | `Z(1 − p) = −Z(p)` for `p ≠ 0.5` |
| Quantiles.HornerExpansion | c/stats.c:119-120 | four steps of the loop leave `h0/n + h1/n² + h2/n³ + h3/n⁴` |
| Quantiles.HornerBound | c/stats.c:119-120 | for `n ≥ 1` the series is at most `Σ abs(hᵢ)/n` in size |
| Quantiles.TSeriesBound | c/stats.c:119-121 | the series added to the normal deviate is at most `Σ abs(hᵢ)/ndf` in size |
| Quantiles.TFromNormalNear | c/stats.c:121-123 | the t deviate is within `Σ abs(hᵢ)/ndf` of the signed normal deviate `±z1` |
| Quantiles.TNearNormal | c/stats.c:106-125 | `T(p, ndf)` is within `Σ abs(hᵢ)/ndf` of `±abs(Z(p))`, so it tends to the normal deviate as ndf grows |
| Quantiles.TOdd | c/stats.c:122-123 | `T(1 − p, ndf) = −T(p, ndf)` for `p ≠ 0.5` |
| Quantiles.T | c/stats.c:106-125 | the method computes `TQuantile(p, ndf)` from `z1 = abs(Z(p))` (python/stats.py:162-182 is the same) |
| Quantiles.TSteps | c/stats.c:111-124 | coefficients, loop, `z1 += x` and the sign flip give the t deviate for a given `z1` |
| Quantiles.CorrectionsAsWritten | c/stats.c:113-117 | the four coefficients are exactly the source's expressions in `z1` and `z2`, h3 with its scale factor |
| Quantiles.FillCorrections | c/stats.c:113-117 | the fresh four-slot array holds the coefficients h0..h3, with h3 scaled in a second step |
| Quantiles.SumSeries | c/stats.c:119-120 | the loop from `i = 3` down to 0 leaves the Horner value of the array |
| Quantiles.SelectDeviate | c/stats.c:78-86 | T with `n − 1` degrees of freedom for 2..29 values, Z otherwise; warns exactly when `n < 2` |
| CStats.StatsData.constructor | c/stats.c:27-33 | a new record is valid and holds no values |
| CStats.StatsData.Init | c/stats.c:27-33 | count 0, min `DBL_MAX`, max `DBL_MIN`, mean 0, variance 0, and the record is valid for the empty list |
| CStats.StatsData.Update | c/stats.c:35-45 | absorbs x: `xs` grows by x, count by one, extremes by `MIN`/`MAX`, and every field stays the statistic of `xs` |
| CStats.StatsData.Count | c/stats.c:47-49 | the count is the number of values absorbed |
| CStats.StatsData.Min | c/stats.c:51-53 | `MIN(DBL_MAX, true minimum)`; the true minimum when that is at most `DBL_MAX`; `DBL_MAX` with no values |
| CStats.StatsData.Max | c/stats.c:55-57 | `MAX(DBL_MIN, true maximum)`; the true maximum exactly when it is at least `DBL_MIN` |
| CStats.StatsData.Mean | c/stats.c:59-61 | the mean of the values; times the count it is their sum |
| CStats.StatsData.Variance | c/stats.c:63-65 | the Bessel-corrected sample variance, never negative, times `n − 1` the squared deviation about the mean |
| CStats.StatsData.StdDev | c/stats.c:67-69 | the square root of the sample variance |
| CStats.StatsData.StdErr | c/stats.c:71-73 | NaN exactly with no values, else `sqrt(S²/n)` |
| CStats.StatsData.Confidence | c/stats.c:75-88 | warns exactly when fewer than two values; result is the selected deviate times `stats_stderr` (NaN with no values) |
| CStats.OneNegativeValue | c/stats.c:30 | after absorbing −1 the mean is −1 but the maximum reported is `DBL_MIN` |
| PyStats.ExtMin | python/stats.py:35 | `min(+inf, x) = x` and `min(a, x) = MIN(a, x)` for a finite running minimum |
| PyStats.ExtMax | python/stats.py:36 | `max(−inf, x) = x` and `max(a, x) = MAX(a, x)` for a finite running maximum |
| PyStats.Message | python/stats.py:143-144 | a too-few-samples message is the statistic's name followed by the one-sample or two-samples suffix; the removal message is its fixed text (python/stats.py:53) |
| PyStats.Stats.constructor | python/stats.py:19-23 | a new object is valid and holds no values |
| PyStats.Stats.Reset | python/stats.py:131-141 | count 0, min `+inf`, max `−inf`, `K = Ex = Ex2 = sum = 0`, valid for the empty list |
| PyStats.Stats.Add | python/stats.py:31-42 | count +1, sum + value, `K` set to the value only on the first add, and every field stays the statistic of `xs` |
| PyStats.Stats.Remove | python/stats.py:44-53 | always resets the object and raises the removal exception |
| PyStats.Stats.Count | python/stats.py:55-59 | the number of values added |
| PyStats.Stats.Sum | python/stats.py:61-67 | raises exactly when `count < 1`, else the sum of the values |
| PyStats.Stats.Min | python/stats.py:69-75 | raises exactly when `count < 1`, else one of the values with none below it |
| PyStats.Stats.Max | python/stats.py:77-83 | raises exactly when `count < 1`, else one of the values with none above it |
| PyStats.Stats.Mean | python/stats.py:85-91 | raises exactly when `count < 1`, else the mean `Σx/n` |
| PyStats.Stats.Var | python/stats.py:93-99 | raises exactly when `count < 2`, else the sample variance, never negative |
| PyStats.Stats.StdDev | python/stats.py:101-107 | raises exactly when `count < 2`, else the square root of the sample variance |
| PyStats.Stats.StdErr | python/stats.py:109-115 | raises exactly when `count < 2`, else `sqrt(S²/n)` |
| PyStats.Stats.Conf | python/stats.py:117-129 | raises exactly when `count < 2`, else the deviate of the shared selection rule times `stderr()` |
| PyStatsExamples.SampleOneToFour | python/stats.py:251-252 | for 1, 2, 3, 4 the sum is 10, the mean 2.5 and the sample variance 5/3 |
| PyStatsExamples.Empty | python/stats.py:201-217 | a fresh object counts 0 and every guarded readout raises; `mean` with the one-sample message and `stderr` with the two-samples one |
| PyStatsExamples.AddOne | python/stats.py:219-233 | after adding 1.0: count 1, min = max = mean = 1.0, the spread readouts raise; `conf` with the two-samples message |
| PyStatsExamples.RemoveResets | python/stats.py:235-240 | remove raises with the removal message, and then the object behaves as a fresh one |
| PyStatsExamples.AddMany | python/stats.py:242-252 | after 1, 2, 3, 4: count 4, min 1, max 4, mean 2.5, variance 5/3 |
| PyStatsExamples.AddManySpread | python/stats.py:253-254 | after 1, 2, 3, 4: stddev `√(5/3)`, stderr `√(5/12)` |
| PyStatsExamples.ConfOneToFour | python/stats.py:255 | after 1, 2, 3, 4, `conf(level)` succeeds with the deviate chosen for four values times `√(5/12)` |
| PyStatsExamples.ConfidenceLevels | python/stats.py:255-263 | after 1, 2, 3, 4, `conf()` is `TQuantile(0.025, 3)·√(5/12)` and `conf(0.99)` is `TQuantile(0.005, 3)·√(5/12)` |
| Agreement.SameStatistics | python/stats.py:85-115 | over the same values, the Python mean, variance and standard error equal the C ones; min and max agree except where `DBL_MAX`/`DBL_MIN` cap the C extremes |
| Agreement.COrderIndependent | c/stats.c:35-88 | two C records fed the same values in any order report the same count, min, max, mean, variance, standard deviation and standard error |
| Agreement.PyOrderIndependent | python/stats.py:31-115 | two Python objects fed the same values in any order report the same count, sum, min, max, mean, variance, standard deviation and standard error, raising alike |

## Left out

- `c/statgen.c` is not part of this model: option parsing, reading the input file, and formatting the report are input/output plumbing.
- `c/stats.h` contributes only the field list and the 32-bit `count`. The `INLINE` include arrangement has no behaviour to model.
- Floating point: values are exact reals, so IEEE rounding, the cancellation that the shifted and recursive forms avoid, NaN and infinite inputs are not modelled.
- The `fputs` warning of `stats_confidence` is returned as the flag `warned`. The message text is not modelled.
- The square root and the natural logarithm are unspecified functions. So the accuracy of `Z` and `T` against the true normal and Student-t quantiles is not modelled, nor are the domain errors of `log` for `p` outside `(0, 1)`. The seven-place numbers of the unit tests' `assertAlmostEqual` checks depend on them and are left out; the tests' readouts are stated exactly in terms of `sqrt` and `TQuantile` instead.
- Quantiles.Z: states the bounds and the sign of the deviate, not its closeness to the normal quantile, because `log` and `sqrt` are abstract.
- Quantiles.T: requires `ndf ≥ 1`. Both callers pass `count − 1` only when `count > 1`, so `T` is never called with fewer degrees of freedom.
- CStats.StatsData.Update: requires `count < 2³² − 1`, so the 32-bit wrap-around of `count` is excluded rather than modelled.
- The Python `__str__` method and the `unittest` runner are not modelled. The default `level = 0.95` of `conf` is passed explicitly.
- PyStats.Stats.Add: the source tests `self._count is 0`, which compares identity. It is modelled as `count == 0`, which is what it evaluates to for a small integer.
