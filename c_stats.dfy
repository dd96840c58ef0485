/**
 * The C statistics ADT: a record of count, min, max, running mean and
 * running sample variance, updated one value at a time by Ross's
 * recurrences, with readouts and a confidence-interval half-width.
 *
 * The record is a class whose fields are updated in place. A ghost field
 * holds the values absorbed so far, and Valid() ties every field to a
 * reference definition over them.
 */
module CStats {
  import opened Moments
  import opened Quantiles

  /** Largest finite double, the start value of the running minimum. */
  const DBL_MAX: real := 1.7976931348623157e308
  /** Smallest positive normalised double, the start value of the running maximum. */
  const DBL_MIN: real := 2.2250738585072014e-308
  /** The counter is a 32-bit unsigned integer. */
  const UINT32_MAX: nat := 0xFFFF_FFFF

  /** A double-precision result that is either a number or the NaN of 0.0/0. */
  datatype Float = Finite(value: real) | NaN

  class StatsData {
    var count: nat
    var min: real
    var max: real
    var mean: real
    var variance: real
    /** The values absorbed since the last Init. */
    ghost var xs: seq<real>

    ghost predicate Valid()
      reads this
    {
      && count == |xs| <= UINT32_MAX
      && min == FoldMin(DBL_MAX, xs)
      && max == FoldMax(DBL_MIN, xs)
      && mean == Moments.Mean(xs)
      && variance == SampleVariance(xs)
    }

    constructor ()
      ensures Valid() && xs == []
    {
      new;
      Init();
    }

    /** stats_init: no values yet; min and max start from the two extreme constants. */
    method Init()
      modifies this
      ensures Valid() && xs == []
      ensures count == 0 && min == DBL_MAX && max == DBL_MIN && mean == 0.0 && variance == 0.0
    {
      count := 0;
      min := DBL_MAX;
      max := DBL_MIN;
      mean := 0.0;
      variance := 0.0;
      xs := [];
    }

    /**
     * stats_update: absorb x. The mean moves by (x − mean)/(n + 1); from the
     * second value on, the variance follows Ross's recurrence with the new
     * and old means. Valid() is kept, so every field is the statistic of
     * the values absorbed.
     */
    method Update(x: real)
      requires Valid() && count < UINT32_MAX
      modifies this
      ensures Valid() && xs == old(xs) + [x]
      ensures count == old(count) + 1
      ensures min == MinOf(old(min), x) && max == MaxOf(old(max), x)
    {
      ghost var s := xs;
      var oldmean, oldvariance := mean, variance;
      var n, n1 := count as real, (count + 1) as real;
      FoldAppend(DBL_MAX, s, x);
      FoldAppend(DBL_MIN, s, x);
      min := MinOf(min, x);
      max := MaxOf(max, x);
      var newmean := oldmean + (x - oldmean) / n1;
      MeanAppend(s, x, n, n1, oldmean, Moments.Mean(s + [x]));
      mean := newmean;
      if count > 0 {
        var newvariance := (1.0 - 1.0 / n) * oldvariance + n1 * (newmean - oldmean) * (newmean - oldmean);
        RossRecurrence(s, x, n, n1, oldvariance, oldmean, newmean);
        variance := newvariance;
      } else {
        assert SampleVariance(s + [x]) == 0.0;
      }
      count := count + 1;
      xs := s + [x];
    }

    /** stats_count */
    function Count(): (c: nat)
      reads this
      requires Valid()
      ensures c == |xs|
    {
      count
    }

    /**
     * stats_min: the smallest value absorbed, or DBL_MAX when there is none
     * (or when every value is above DBL_MAX).
     */
    function Min(): (r: real)
      reads this
      requires Valid()
      ensures |xs| == 0 ==> r == DBL_MAX
      ensures |xs| > 0 ==> r == MinOf(DBL_MAX, Smallest(xs))
      ensures |xs| > 0 && Smallest(xs) <= DBL_MAX ==> r == Smallest(xs)
    {
      if count > 0 then FoldMinIsMinimum(DBL_MAX, xs); min else min
    }

    /**
     * stats_max: the running maximum starts from DBL_MIN, the smallest
     * POSITIVE double, so it is the largest value absorbed exactly when that
     * value is at least DBL_MIN; a sample of values all below DBL_MIN (zero
     * or negative values, say) reports DBL_MIN.
     */
    function Max(): (r: real)
      reads this
      requires Valid()
      ensures |xs| == 0 ==> r == DBL_MIN
      ensures |xs| > 0 ==> r == MaxOf(DBL_MIN, Largest(xs))
      ensures |xs| > 0 ==> (r == Largest(xs) <==> Largest(xs) >= DBL_MIN)
    {
      if count > 0 then FoldMaxIsMaximum(DBL_MIN, xs); max else max
    }

    /** stats_mean: the arithmetic mean of the values absorbed, 0 when there is none. */
    function Mean(): (r: real)
      reads this
      requires Valid()
      ensures r == Moments.Mean(xs)
      ensures |xs| > 0 ==> r * (|xs| as real) == Sum(xs)
    {
      if count > 0 then MeanTimesCount(xs, count as real, mean); mean else mean
    }

    /** stats_variance: the Bessel-corrected sample variance, 0 for fewer than two values. */
    function Variance(): (r: real)
      reads this
      requires Valid()
      ensures r == SampleVariance(xs) && r >= 0.0
      ensures |xs| >= 1 ==> r * ((|xs| - 1) as real) == SumSqDev(xs, Moments.Mean(xs))
    {
      SampleVarianceNonNegative(xs);
      if count >= 1 then
        VarianceTimesDegrees(xs, (count - 1) as real, variance, mean, SumSqDev(xs, mean));
        variance
      else
        variance
    }

    /** stats_stdev: the square root of the sample variance. */
    function StdDev(m: MathLib): (r: real)
      reads this
      requires Valid()
      ensures r == m.sqrt(SampleVariance(xs)) && r >= 0.0
    {
      m.sqrt(variance)
    }

    /**
     * stats_stderr: sqrt(S²/n), the standard error of the mean. With no
     * values it divides 0.0 by 0 and the result is NaN.
     */
    function StdErr(m: MathLib): (r: Float)
      reads this
      requires Valid()
      ensures r.NaN? <==> |xs| == 0
      ensures r.Finite? ==> r.value == m.sqrt(SampleVariance(xs) / (|xs| as real)) && r.value >= 0.0
    {
      if count == 0 then NaN else Finite(m.sqrt(variance / (count as real)))
    }

    /**
     * stats_confidence: the half-width of the confidence interval at the
     * given level: Student's t deviate with n − 1 degrees of freedom for
     * 2..29 values, the normal deviate otherwise, times the standard error.
     * With fewer than two values a warning is written; it is returned here
     * as a flag.
     */
    method Confidence(m: MathLib, level: real) returns (half: Float, warned: bool)
      requires Valid()
      ensures warned <==> |xs| < 2
      ensures half == Scaled(Deviate(m, level, Count()), StdErr(m))
    {
      var stdError := StdErr(m);
      var fudge;
      fudge, warned := SelectDeviate(m, level, count);
      half := Scaled(fudge, stdError);
    }
  }

  function Scaled(d: real, e: Float): Float
  {
    match e
    case NaN => NaN
    case Finite(v) => Finite(d * v)
  }

  /**
   * One negative value: the mean is the value, but the maximum reported is
   * DBL_MIN, the start value of the running maximum, not the value.
   */
  method OneNegativeValue() returns (count: nat, mean: real, max: real)
    ensures count == 1 && mean == -1.0
    ensures max == DBL_MIN && max != -1.0
  {
    var d := new StatsData();
    d.Update(-1.0);
    assert d.xs == [-1.0];
    SumOfSingleton(-1.0);
    count, mean, max := d.Count(), d.Mean(), d.Max();
  }
}
