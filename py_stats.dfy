/**
 * The Python Stats class: a shift K (the first value), the running sums
 * Ex = Σ(x − K) and Ex2 = Σ(x − K)², the plain sum, and the running extremes
 * starting from +inf and −inf. Readouts that need more samples than there
 * are raise StatsException; here they return an Err.
 *
 * As in the C model, a ghost field holds the values added since the last
 * reset and Valid() ties every field to a reference definition over them.
 */
module PyStats {
  import opened Moments
  import opened Quantiles

  /** A Python float as the running extremes hold it: a number or one of the infinities. */
  datatype Extended = NegInf | Finite(value: real) | PosInf

  /** min(a, x) for a running minimum a and a finite value x. */
  function ExtMin(a: Extended, x: real): (r: Extended)
    ensures a != NegInf ==> r.Finite?
    ensures a.Finite? ==> r.value == MinOf(a.value, x)
    ensures a.PosInf? ==> r.value == x
  {
    match a
    case PosInf => Finite(x)
    case Finite(v) => Finite(MinOf(v, x))
    case NegInf => NegInf
  }

  /** max(a, x) for a running maximum a and a finite value x. */
  function ExtMax(a: Extended, x: real): (r: Extended)
    ensures a != PosInf ==> r.Finite?
    ensures a.Finite? ==> r.value == MaxOf(a.value, x)
    ensures a.NegInf? ==> r.value == x
  {
    match a
    case NegInf => Finite(x)
    case Finite(v) => Finite(MaxOf(v, x))
    case PosInf => PosInf
  }

  /** The exceptions a Stats object raises. */
  datatype StatsException =
    | TooFewSamples(statistic: string, required: nat)
    | RemovalNotImplemented

  /** What follows the statistic's name in the message of a readout that needs one sample, or two. */
  const NeedOne: string := " is undefined for less than one sample"
  const NeedTwo: string := " is undefined for less than two samples"
  const RemovalText: string := "the removal of values is not implemented"

  /** The text the exception carries. */
  function Message(e: StatsException): (text: string)
    ensures e.TooFewSamples? ==> |e.statistic| <= |text| && text[..|e.statistic|] == e.statistic
    ensures e.TooFewSamples? ==> text[|e.statistic|..] == if e.required == 1 then NeedOne else NeedTwo
    ensures e.RemovalNotImplemented? ==> text == RemovalText
  {
    match e
    case TooFewSamples(s, 1) => s + NeedOne
    case TooFewSamples(s, _) => s + NeedTwo
    case RemovalNotImplemented => RemovalText
  }

  datatype Result<T> = Ok(value: T) | Err(error: StatsException)

  /** fudge * r for a readout r that may have raised. */
  function Times(d: real, r: Result<real>): Result<real>
  {
    match r
    case Ok(v) => Ok(d * v)
    case Err(e) => Err(e)
  }

  class Stats {
    var count: nat
    var minimum: Extended
    var maximum: Extended
    var K: real
    var Ex: real
    var Ex2: real
    var sum: real
    /** The values added since the last reset. */
    ghost var xs: seq<real>

    ghost predicate Valid()
      reads this
    {
      && count == |xs|
      && K == (if |xs| == 0 then 0.0 else xs[0])
      && Ex == ShiftedSum(xs, K)
      && Ex2 == SumSqDev(xs, K)
      && sum == Moments.Sum(xs)
      && minimum == (if |xs| == 0 then PosInf else Finite(Smallest(xs)))
      && maximum == (if |xs| == 0 then NegInf else Finite(Largest(xs)))
    }

    constructor ()
      ensures Valid() && xs == []
    {
      new;
      Reset();
    }

    /** reset: no values; extremes at ±inf, shift and sums at 0. */
    method Reset()
      modifies this
      ensures Valid() && xs == []
      ensures count == 0 && minimum == PosInf && maximum == NegInf
      ensures K == 0.0 && Ex == 0.0 && Ex2 == 0.0 && sum == 0.0
    {
      count := 0;
      minimum := PosInf;
      maximum := NegInf;
      K := 0.0;
      Ex := 0.0;
      Ex2 := 0.0;
      sum := 0.0;
      xs := [];
    }

    /**
     * add: the first value becomes the shift K, which stays fixed after
     * that; the count goes up by one and the sums by the shifted value, its
     * square and the value.
     */
    method Add(value: real)
      requires Valid()
      modifies this
      ensures Valid() && xs == old(xs) + [value]
      ensures count == old(count) + 1 && sum == old(sum) + value
      ensures K == if old(count) == 0 then value else old(K)
    {
      ghost var s := xs;
      ExtremesAppend(s, value);
      minimum := ExtMin(minimum, value);
      maximum := ExtMax(maximum, value);
      if count == 0 {
        K := value;
      }
      var k := K;
      ShiftedSumAppend(s, value, k);
      SumSqDevAppend(s, value, k);
      SumAppend(s, value);
      count := count + 1;
      Ex := Ex + (value - k);
      Ex2 := Ex2 + (value - k) * (value - k);
      sum := sum + value;
      xs := s + [value];
      if |s| > 0 {
        assert xs[0] == s[0];
      }
    }

    /**
     * remove: no record of the values is kept, so a value cannot be taken
     * out; the object is reset and the exception raised, whatever the value.
     */
    method Remove(value: real) returns (e: StatsException)
      modifies this
      ensures Valid() && xs == []
      ensures count == 0 && minimum == PosInf && maximum == NegInf
      ensures K == 0.0 && Ex == 0.0 && Ex2 == 0.0 && sum == 0.0
      ensures e == RemovalNotImplemented
    {
      Reset();
      e := RemovalNotImplemented;
    }

    function Count(): (c: nat)
      reads this
      requires Valid()
      ensures c == |xs|
    {
      count
    }

    function Sum(): (r: Result<real>)
      reads this
      requires Valid()
      ensures r.Err? <==> |xs| < 1
      ensures r.Err? ==> r.error == TooFewSamples("sum", 1)
      ensures r.Ok? ==> r.value == Moments.Sum(xs)
    {
      if count < 1 then Err(TooFewSamples("sum", 1)) else Ok(sum)
    }

    /** min: the true minimum of the values, one of them and below none. */
    function Min(): (r: Result<real>)
      reads this
      requires Valid()
      ensures r.Err? <==> |xs| < 1
      ensures r.Err? ==> r.error == TooFewSamples("minimum", 1)
      ensures r.Ok? ==> r.value in xs && forall i :: 0 <= i < |xs| ==> r.value <= xs[i]
    {
      if count < 1 then Err(TooFewSamples("minimum", 1))
      else
        SmallestIsMinimum(xs);
        Ok(minimum.value)
    }

    /** max: the true maximum of the values, one of them and above none. */
    function Max(): (r: Result<real>)
      reads this
      requires Valid()
      ensures r.Err? <==> |xs| < 1
      ensures r.Err? ==> r.error == TooFewSamples("maximum", 1)
      ensures r.Ok? ==> r.value in xs && forall i :: 0 <= i < |xs| ==> xs[i] <= r.value
    {
      if count < 1 then Err(TooFewSamples("maximum", 1))
      else
        LargestIsMaximum(xs);
        Ok(maximum.value)
    }

    /** mean: K + Ex/count, which is Σx/n whatever the shift K is. */
    function Mean(): (r: Result<real>)
      reads this
      requires Valid()
      ensures r.Err? <==> |xs| < 1
      ensures r.Err? ==> r.error == TooFewSamples("mean", 1)
      ensures r.Ok? ==> r.value == Moments.Mean(xs) && r.value * (|xs| as real) == Moments.Sum(xs)
    {
      if count < 1 then Err(TooFewSamples("mean", 1))
      else
        var n := count as real;
        ShiftedMean(xs, K, n, Ex);
        MeanTimesCount(xs, n, Moments.Mean(xs));
        Ok(K + Ex / n)
    }

    /** var: (Ex2 − Ex²/n)/(n − 1), which is the sample variance whatever the shift K is. */
    function Var(): (r: Result<real>)
      reads this
      requires Valid()
      ensures r.Err? <==> |xs| < 2
      ensures r.Err? ==> r.error == TooFewSamples("variance", 2)
      ensures r.Ok? ==> r.value == SampleVariance(xs) && r.value >= 0.0
    {
      if count < 2 then Err(TooFewSamples("variance", 2))
      else
        var n, k, ex, ex2, v := count as real, K, Ex, Ex2, SampleVariance(xs);
        ShiftedVariance(xs, k, n, ex, ex2, v);
        SampleVarianceNonNegative(xs);
        Ok((ex2 - ex * ex / n) / (n - 1.0))
    }

    /** stddev: the square root of var(). */
    function StdDev(m: MathLib): (r: Result<real>)
      reads this
      requires Valid()
      ensures r.Err? <==> |xs| < 2
      ensures r.Err? ==> r.error == TooFewSamples("stddev", 2)
      ensures r.Ok? ==> r.value == m.sqrt(SampleVariance(xs)) && r.value >= 0.0
    {
      if count < 2 then Err(TooFewSamples("stddev", 2)) else Ok(m.sqrt(Var().value))
    }

    /** stderr: the square root of var()/count, the standard error of the mean. */
    function StdErr(m: MathLib): (r: Result<real>)
      reads this
      requires Valid()
      ensures r.Err? <==> |xs| < 2
      ensures r.Err? ==> r.error == TooFewSamples("stderr", 2)
      ensures r.Ok? ==> r.value == m.sqrt(SampleVariance(xs) / (|xs| as real)) && r.value >= 0.0
    {
      if count < 2 then Err(TooFewSamples("stderr", 2)) else Ok(m.sqrt(Var().value / (count as real)))
    }

    /**
     * conf: the half-width of the confidence interval at the given level,
     * the deviate of the shared selection rule times stderr(). With fewer
     * than two values it raises before choosing a deviate.
     */
    method Conf(m: MathLib, level: real) returns (r: Result<real>)
      requires Valid()
      ensures r.Err? <==> |xs| < 2
      ensures r.Err? ==> r.error == TooFewSamples("confidence interval", 2)
      ensures r.Ok? ==> r == Times(Deviate(m, level, Count()), StdErr(m))
    {
      if count < 2 {
        r := Err(TooFewSamples("confidence interval", 2));
      } else {
        var fudge, _ := SelectDeviate(m, level, count);
        r := Times(fudge, StdErr(m));
      }
    }
  }
}
