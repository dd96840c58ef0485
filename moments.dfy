/**
 * Reference definitions of the statistics over the whole list of values
 * absorbed so far. Every sum is defined by recursion on the LAST value, so
 * that absorbing one more value is one unfolding of the definition, the way
 * both accumulators see the stream.
 */
module Moments {

  /** The smaller of two values, as the C macro MIN writes it. */
  function MinOf(a: real, b: real): (r: real)
    ensures r <= a && r <= b && (r == a || r == b)
  {
    if a < b then a else b
  }

  /** The larger of two values, as the C macro MAX writes it. */
  function MaxOf(a: real, b: real): (r: real)
    ensures r >= a && r >= b && (r == a || r == b)
  {
    if a > b then a else b
  }

  function Last(xs: seq<real>): real
    requires |xs| > 0
  {
    xs[|xs| - 1]
  }

  function Init(xs: seq<real>): seq<real>
    requires |xs| > 0
  {
    xs[..|xs| - 1]
  }

  /** Σ x */
  function Sum(xs: seq<real>): real
  {
    if |xs| == 0 then 0.0 else Sum(Init(xs)) + Last(xs)
  }

  /** Σ x² */
  function SumSq(xs: seq<real>): real
  {
    if |xs| == 0 then 0.0 else SumSq(Init(xs)) + Last(xs) * Last(xs)
  }

  /** Σ (x − c)², the squared deviation of the values from any centre c. */
  function SumSqDev(xs: seq<real>, c: real): real
  {
    if |xs| == 0 then 0.0 else SumSqDev(Init(xs), c) + (Last(xs) - c) * (Last(xs) - c)
  }

  /** The arithmetic mean; 0 for no values, which is what both accumulators start from. */
  function Mean(xs: seq<real>): real
  {
    if |xs| == 0 then 0.0 else Sum(xs) / (|xs| as real)
  }

  /**
   * The Bessel-corrected sample variance Σ(x − mean)²/(n − 1); 0 when there
   * are fewer than two values, which is what the C accumulator reports then.
   */
  function SampleVariance(xs: seq<real>): real
  {
    if |xs| < 2 then 0.0 else SumSqDev(xs, Mean(xs)) / ((|xs| - 1) as real)
  }

  /** The true minimum of a non-empty list. */
  function Smallest(xs: seq<real>): real
    requires |xs| > 0
  {
    if |xs| == 1 then xs[0] else MinOf(Smallest(Init(xs)), Last(xs))
  }

  /** The true maximum of a non-empty list. */
  function Largest(xs: seq<real>): real
    requires |xs| > 0
  {
    if |xs| == 1 then xs[0] else MaxOf(Largest(Init(xs)), Last(xs))
  }

  /** MIN folded over the values from a starting value, as a running minimum does. */
  function FoldMin(init: real, xs: seq<real>): real
  {
    if |xs| == 0 then init else MinOf(FoldMin(init, Init(xs)), Last(xs))
  }

  /** MAX folded over the values from a starting value, as a running maximum does. */
  function FoldMax(init: real, xs: seq<real>): real
  {
    if |xs| == 0 then init else MaxOf(FoldMax(init, Init(xs)), Last(xs))
  }

  // ---------------------------------------------------------------------
  // Appending one value

  lemma {:induction false} InitOfAppend(xs: seq<real>, x: real)
    ensures Init(xs + [x]) == xs && Last(xs + [x]) == x
  {
    assert (xs + [x])[..|xs|] == xs;
  }

  lemma {:induction false} SumAppend(xs: seq<real>, x: real)
    ensures Sum(xs + [x]) == Sum(xs) + x
    ensures SumSq(xs + [x]) == SumSq(xs) + x * x
  {
    InitOfAppend(xs, x);
  }

  lemma {:induction false} SumSqDevAppend(xs: seq<real>, x: real, c: real)
    ensures SumSqDev(xs + [x], c) == SumSqDev(xs, c) + (x - c) * (x - c)
  {
    InitOfAppend(xs, x);
  }

  // ---------------------------------------------------------------------
  // Mean and the first value

  lemma {:induction false} SumOfSingleton(x: real)
    ensures Sum([x]) == x && Mean([x]) == x
  {
    SumAppend([], x);
    assert [] + [x] == [x];
  }

  /** Σ(x − k) = Σx − n·k: the running sum of shifted values that the Python accumulator keeps. */
  function ShiftedSum(xs: seq<real>, k: real): real
  {
    if |xs| == 0 then 0.0 else ShiftedSum(Init(xs), k) + (Last(xs) - k)
  }

  lemma {:induction false} ShiftedSumIsSumMinusShift(xs: seq<real>, k: real)
    ensures ShiftedSum(xs, k) == Sum(xs) - (|xs| as real) * k
  {
    if |xs| > 0 {
      ShiftedSumIsSumMinusShift(Init(xs), k);
    }
  }

  lemma {:induction false} ShiftedSumAppend(xs: seq<real>, x: real, k: real)
    ensures ShiftedSum(xs + [x], k) == ShiftedSum(xs, k) + (x - k)
  {
    InitOfAppend(xs, x);
  }

  // ---------------------------------------------------------------------
  // Second moments
  //
  // The lemmas below name the quantities they relate (n for the count, m for
  // a mean, v for a sample variance, s for a squared deviation) as parameters
  // tied to the definitions by their preconditions, so that each statement is
  // an identity between plain numbers in the shape the update code uses.

  /** Σ(x − c)² = Σx² − 2c·Σx + n·c² */
  lemma {:induction false} SumSqDevExpand(xs: seq<real>, c: real)
    ensures SumSqDev(xs, c) == SumSq(xs) - 2.0 * c * Sum(xs) + (|xs| as real) * c * c
  {
    if |xs| > 0 {
      SumSqDevExpand(Init(xs), c);
      SquareExpand(Last(xs), c);
    }
  }

  lemma {:induction false} SumSqDevNonNegative(xs: seq<real>, c: real)
    ensures SumSqDev(xs, c) >= 0.0
  {
    if |xs| > 0 {
      SumSqDevNonNegative(Init(xs), c);
      SquareNonNegative(Last(xs) - c);
    }
  }

  /** n·mean = Σx */
  lemma {:induction false} MeanTimesCount(xs: seq<real>, n: real, m: real)
    requires n == |xs| as real && m == Mean(xs)
    ensures m * n == Sum(xs)
  {
    if |xs| > 0 {
      QuotientTimesDivisor(Sum(xs), n);
    }
  }

  /** The mean after one more value, by the update rule both accumulators use. */
  lemma {:induction false} MeanAppend(xs: seq<real>, x: real, n: real, n1: real, m: real, m': real)
    requires n == |xs| as real && n1 == n + 1.0 && m == Mean(xs) && m' == Mean(xs + [x])
    ensures m' == m + (x - m) / n1
  {
    SumAppend(xs, x);
    MeanTimesCount(xs, n, m);
    MeanTimesCount(xs + [x], n1, m');
    MeanAppendAlgebra(n, n1, m, m', Sum(xs), Sum(xs + [x]), x);
  }

  /**
   * The parallel-axis identity: the squared deviation from any centre c is the
   * squared deviation from the mean plus n·(mean − c)². It is why the result
   * does not depend on the shift the Python accumulator picks.
   */
  lemma {:induction false} ParallelAxis(xs: seq<real>, c: real, n: real, m: real, sc: real, sm: real)
    requires n == |xs| as real && m == Mean(xs) && sc == SumSqDev(xs, c) && sm == SumSqDev(xs, m)
    ensures sc == sm + n * (m - c) * (m - c)
  {
    SumSqDevExpand(xs, c);
    SumSqDevExpand(xs, m);
    MeanTimesCount(xs, n, m);
    ParallelAxisAlgebra(sc, sm, SumSq(xs), Sum(xs), n, m, c);
  }

  /**
   * The running mean of the Python accumulator: with ex = Σ(x − k) over n >= 1
   * values, k + ex/n is the mean whatever the shift k is.
   */
  lemma {:induction false} ShiftedMean(xs: seq<real>, k: real, n: real, ex: real)
    requires |xs| >= 1 && n == |xs| as real && ex == ShiftedSum(xs, k)
    ensures k + ex / n == Mean(xs)
  {
    ShiftedSumIsSumMinusShift(xs, k);
    MeanTimesCount(xs, n, Mean(xs));
    ShiftedMeanAlgebra(Mean(xs), Sum(xs), ex, n, k);
  }

  /**
   * Shift invariance of the second moment: with ex = Σ(x − k) and
   * ex2 = Σ(x − k)² over n >= 2 values, (ex2 − ex²/n)/(n − 1) is the sample
   * variance whatever the shift k is.
   */
  lemma {:induction false} ShiftedVariance(xs: seq<real>, k: real, n: real, ex: real, ex2: real, v: real)
    requires |xs| >= 2 && n == |xs| as real && ex == ShiftedSum(xs, k) && ex2 == SumSqDev(xs, k)
    requires v == SampleVariance(xs)
    ensures (ex2 - ex * ex / n) / (n - 1.0) == v
  {
    var m, sm, n0 := Mean(xs), SumSqDev(xs, Mean(xs)), n - 1.0;
    ShiftedSumIsSumMinusShift(xs, k);
    MeanTimesCount(xs, n, m);
    ParallelAxis(xs, k, n, m, ex2, sm);
    VarianceTimesDegrees(xs, n0, v, m, sm);
    ShiftAlgebra(ex2, sm, v, ex, Sum(xs), n, n0, m, k);
  }

  /** S²·(n − 1) is the squared deviation about the mean, for n >= 1 values. */
  lemma {:induction false} VarianceTimesDegrees(xs: seq<real>, n0: real, v: real, m: real, s: real)
    requires |xs| >= 1 && n0 == (|xs| - 1) as real
    requires v == SampleVariance(xs) && m == Mean(xs) && s == SumSqDev(xs, m)
    ensures v * n0 == s
  {
    if |xs| == 1 {
      SingleDeviationIsZero(xs);
    } else {
      QuotientTimesDivisor(s, n0);
    }
  }

  /** A single value does not deviate from its own mean. */
  lemma {:induction false} SingleDeviationIsZero(xs: seq<real>)
    requires |xs| == 1
    ensures SumSqDev(xs, Mean(xs)) == 0.0
  {
    assert xs == [xs[0]];
    SumOfSingleton(xs[0]);
    assert Init(xs) == [];
  }

  /**
   * Absorbing x into n values with mean m (m' after) raises the squared
   * deviation about the mean from s to s' = s + n·(x − m)²/(n + 1).
   */
  lemma {:induction false} SumSqDevAboutMeanAppend(xs: seq<real>, x: real, n: real, n1: real, m: real, m': real, s: real, s': real)
    requires n == |xs| as real && n1 == n + 1.0 && m == Mean(xs) && m' == Mean(xs + [x])
    requires s == SumSqDev(xs, m) && s' == SumSqDev(xs + [x], m')
    ensures s' == s + n * (x - m) * (x - m) / n1
  {
    MeanAppend(xs, x, n, n1, m, m');
    SumSqDevAppend(xs, x, m');
    ParallelAxis(xs, m', n, m, SumSqDev(xs, m'), s);
    AppendAlgebra(s', SumSqDev(xs, m'), s, n, n1, m, m', x);
  }

  /**
   * Ross's recurrence (Simulation, 2nd ed., p. 116): for n >= 1 values with
   * sample variance v and mean m, and mean m' once x is absorbed, the sample
   * variance of the n + 1 values is (1 − 1/n)·v + (n + 1)·(m' − m)².
   * With one value v is 0, so the recurrence also starts correctly.
   */
  lemma {:induction false} RossRecurrence(xs: seq<real>, x: real, n: real, n1: real, v: real, m: real, m': real)
    requires |xs| >= 1 && n == |xs| as real && n1 == n + 1.0
    requires v == SampleVariance(xs) && m == Mean(xs) && m' == Mean(xs + [x])
    ensures SampleVariance(xs + [x]) == (1.0 - 1.0 / n) * v + n1 * (m' - m) * (m' - m)
  {
    var v', s, s', n0 := SampleVariance(xs + [x]), SumSqDev(xs, m), SumSqDev(xs + [x], m'), n - 1.0;
    MeanAppend(xs, x, n, n1, m, m');
    SumSqDevAboutMeanAppend(xs, x, n, n1, m, m', s, s');
    VarianceTimesDegrees(xs, n0, v, m, s);
    VarianceTimesDegrees(xs + [x], n, v', m', s');
    RossAlgebra(v', v, s', s, n, n0, n1, m, m', x);
  }

  lemma {:induction false} SampleVarianceNonNegative(xs: seq<real>)
    ensures SampleVariance(xs) >= 0.0
  {
    SumSqDevNonNegative(xs, Mean(xs));
    if |xs| >= 2 {
      QuotientNonNegative(SumSqDev(xs, Mean(xs)), (|xs| - 1) as real);
    }
  }

  // ---------------------------------------------------------------------
  // Algebra over plain reals, one step of a caller each
  //
  // The helpers with several premises state them as `premises ==> goal`
  // rather than as preconditions: the nonlinear premises are then not proof
  // obligations at the call sites, which the update code would otherwise
  // have to discharge among all its other facts.

  lemma SquareNonNegative(t: real)
    ensures t * t >= 0.0
  {
  }

  lemma SquareExpand(y: real, c: real)
    ensures (y - c) * (y - c) == y * y - 2.0 * c * y + c * c
  {
  }

  lemma QuotientNonNegative(a: real, b: real)
    requires a >= 0.0 && b > 0.0
    ensures a / b >= 0.0
  {
  }

  lemma QuotientTimesDivisor(a: real, b: real)
    requires b != 0.0
    ensures (a / b) * b == a
  {
  }

  lemma MeanAppendAlgebra(n: real, n1: real, m: real, m': real, a: real, a': real, x: real)
    ensures n >= 0.0 && n1 == n + 1.0 && m * n == a && m' * n1 == a' && a' == a + x
        ==> m' == m + (x - m) / n1
  {
    if n >= 0.0 && n1 == n + 1.0 && m * n == a && m' * n1 == a' && a' == a + x {
      assert m' * n1 == (m + (x - m) / n1) * n1;
    }
  }

  lemma ParallelAxisAlgebra(sc: real, sm: real, q: real, a: real, n: real, m: real, c: real)
    ensures m * n == a && sc == q - 2.0 * c * a + n * c * c && sm == q - 2.0 * m * a + n * m * m
        ==> sc == sm + n * (m - c) * (m - c)
  {
  }

  lemma ShiftedMeanAlgebra(m: real, a: real, ex: real, n: real, k: real)
    ensures n > 0.0 && ex == a - n * k && m * n == a ==> k + ex / n == m
  {
    if n > 0.0 && ex == a - n * k && m * n == a {
      assert ex / n == a / n - k;
    }
  }

  lemma ShiftAlgebra(ex2: real, sm: real, v: real, ex: real, a: real, n: real, n0: real, m: real, k: real)
    ensures n > 1.0 && n0 == n - 1.0 && ex == a - n * k && m * n == a
            && ex2 == sm + n * (m - k) * (m - k) && v * n0 == sm
        ==> (ex2 - ex * ex / n) / (n - 1.0) == v
  {
    if n > 1.0 && n0 == n - 1.0 && ex == a - n * k && m * n == a && ex2 == sm + n * (m - k) * (m - k) && v * n0 == sm {
      assert ex == n * (m - k);
      assert ex * ex == n * (n * (m - k) * (m - k));
      assert ex * ex / n == n * (m - k) * (m - k);
    }
  }

  lemma AppendAlgebra(s': real, sc: real, s: real, n: real, n1: real, m: real, m': real, x: real)
    ensures n >= 0.0 && n1 == n + 1.0 && m' == m + (x - m) / n1
            && s' == sc + (x - m') * (x - m') && sc == s + n * (m - m') * (m - m')
        ==> s' == s + n * (x - m) * (x - m) / n1
  {
    if n >= 0.0 && n1 == n + 1.0 && m' == m + (x - m) / n1 && s' == sc + (x - m') * (x - m') && sc == s + n * (m - m') * (m - m') {
      var d := x - m;
      var e := d / n1;
      assert n1 * e == d;
      assert m - m' == -e;
      assert x - m' == d - e;
      var lhs := n * e * e + (d - e) * (d - e);
      assert lhs == n1 * e * e + d * d - 2.0 * d * e;
      assert lhs == d * d - d * e;
      assert lhs * n1 == n * d * d;
    }
  }

  lemma RossAlgebra(v': real, v: real, s': real, s: real, n: real, n0: real, n1: real, m: real, m': real, x: real)
    ensures n >= 1.0 && n0 == n - 1.0 && n1 == n + 1.0 && m' == m + (x - m) / n1
            && s' == s + n * (x - m) * (x - m) / n1 && v' * n == s' && v * n0 == s
        ==> v' == (1.0 - 1.0 / n) * v + n1 * (m' - m) * (m' - m)
  {
    if n >= 1.0 && n0 == n - 1.0 && n1 == n + 1.0 && m' == m + (x - m) / n1 && s' == s + n * (x - m) * (x - m) / n1 && v' * n == s' && v * n0 == s {
      var d := x - m;
      var e := d / n1;
      assert n1 * e == d;
      assert n1 * e * e == d * d / n1;
      assert v' == s / n + d * d / n1;
      assert (1.0 - 1.0 / n) * v == s / n by {
        assert (1.0 - 1.0 / n) == n0 / n;
      }
    }
  }

  // ---------------------------------------------------------------------
  // Extremes

  /** Smallest is the true minimum: it is one of the values and no value is below it. */
  lemma {:induction false} SmallestIsMinimum(xs: seq<real>)
    requires |xs| > 0
    ensures Smallest(xs) in xs
    ensures forall i :: 0 <= i < |xs| ==> Smallest(xs) <= xs[i]
  {
    if |xs| > 1 {
      SmallestIsMinimum(Init(xs));
      assert forall i :: 0 <= i < |xs| - 1 ==> xs[i] == Init(xs)[i];
    }
  }

  /** Largest is the true maximum: it is one of the values and no value is above it. */
  lemma {:induction false} LargestIsMaximum(xs: seq<real>)
    requires |xs| > 0
    ensures Largest(xs) in xs
    ensures forall i :: 0 <= i < |xs| ==> xs[i] <= Largest(xs)
  {
    if |xs| > 1 {
      LargestIsMaximum(Init(xs));
      assert forall i :: 0 <= i < |xs| - 1 ==> xs[i] == Init(xs)[i];
    }
  }

  /** A running minimum from a start value is the smaller of the start and the true minimum. */
  lemma {:induction false} FoldMinIsMinimum(init: real, xs: seq<real>)
    requires |xs| > 0
    ensures FoldMin(init, xs) == MinOf(init, Smallest(xs))
  {
    if |xs| > 1 {
      FoldMinIsMinimum(init, Init(xs));
    }
  }

  /** A running maximum from a start value is the larger of the start and the true maximum. */
  lemma {:induction false} FoldMaxIsMaximum(init: real, xs: seq<real>)
    requires |xs| > 0
    ensures FoldMax(init, xs) == MaxOf(init, Largest(xs))
  {
    if |xs| > 1 {
      FoldMaxIsMaximum(init, Init(xs));
    }
  }

  /** Appending one value to the true extremes. */
  lemma {:induction false} ExtremesAppend(xs: seq<real>, x: real)
    ensures Smallest(xs + [x]) == if |xs| == 0 then x else MinOf(Smallest(xs), x)
    ensures Largest(xs + [x]) == if |xs| == 0 then x else MaxOf(Largest(xs), x)
  {
    InitOfAppend(xs, x);
  }

  lemma {:induction false} FoldAppend(init: real, xs: seq<real>, x: real)
    ensures FoldMin(init, xs + [x]) == MinOf(FoldMin(init, xs), x)
    ensures FoldMax(init, xs + [x]) == MaxOf(FoldMax(init, xs), x)
  {
    InitOfAppend(xs, x);
  }

  // ---------------------------------------------------------------------
  // Order of the values
  //
  // Every statistic depends only on the multiset of values absorbed, not on
  // the order in which they arrived.

  /** Taking one value out of the middle takes its term out of the sums. */
  lemma {:induction false} SumsRemoveMiddle(a: seq<real>, v: real, b: seq<real>, c: real)
    ensures Sum(a + [v] + b) == Sum(a + b) + v
    ensures SumSqDev(a + [v] + b, c) == SumSqDev(a + b, c) + (v - c) * (v - c)
    decreases |b|
  {
    if |b| == 0 {
      assert a + [v] + b == a + [v] && a + b == a;
      SumAppend(a, v);
      SumSqDevAppend(a, v, c);
    } else {
      var front, y := Init(b), Last(b);
      assert a + [v] + b == (a + [v] + front) + [y];
      assert a + b == (a + front) + [y];
      SumsRemoveMiddle(a, v, front, c);
      SumAppend(a + [v] + front, y);
      SumAppend(a + front, y);
      SumSqDevAppend(a + [v] + front, y, c);
      SumSqDevAppend(a + front, y, c);
    }
  }

  /** Two bags that agree once the same value is added to both agree. */
  lemma MultisetCancel(a: multiset<real>, b: multiset<real>, x: real)
    requires a + multiset{x} == b + multiset{x}
    ensures a == b
  {
    assert a == (a + multiset{x}) - multiset{x};
    assert b == (b + multiset{x}) - multiset{x};
  }

  /** The sum and the squared deviation about any centre are the same for a permutation of the values. */
  lemma {:induction false} SumsPermutation(xs: seq<real>, ys: seq<real>, c: real)
    requires multiset(xs) == multiset(ys)
    ensures Sum(xs) == Sum(ys)
    ensures SumSqDev(xs, c) == SumSqDev(ys, c)
  {
    if |xs| == 0 {
      assert |ys| == |multiset(ys)| == 0;
    } else {
      var x := Last(xs);
      assert xs == Init(xs) + [x];
      assert x in multiset(ys);
      var i :| 0 <= i < |ys| && ys[i] == x;
      var before, after := ys[..i], ys[i + 1..];
      var rest := before + after;
      assert ys == before + [x] + after;
      assert multiset(ys) == multiset(before) + multiset{x} + multiset(after);
      assert multiset(rest) == multiset(before) + multiset(after);
      assert multiset(xs) == multiset(Init(xs)) + multiset{x};
      MultisetCancel(multiset(rest), multiset(Init(xs)), x);
      SumsPermutation(Init(xs), rest, c);
      SumsRemoveMiddle(before, x, after, c);
      SumAppend(Init(xs), x);
      SumSqDevAppend(Init(xs), x, c);
    }
  }

  /** The count, the mean and the sample variance are the same for a permutation of the values. */
  lemma {:induction false} MomentsPermutation(xs: seq<real>, ys: seq<real>)
    requires multiset(xs) == multiset(ys)
    ensures |xs| == |ys|
    ensures Mean(xs) == Mean(ys)
    ensures SampleVariance(xs) == SampleVariance(ys)
  {
    assert |xs| == |multiset(xs)| == |multiset(ys)| == |ys|;
    SumsPermutation(xs, ys, 0.0);
    SumsPermutation(xs, ys, Mean(xs));
  }

  /** The true extremes are the same for a permutation of the values. */
  lemma ExtremesPermutation(xs: seq<real>, ys: seq<real>)
    requires multiset(xs) == multiset(ys) && |xs| > 0
    ensures |ys| > 0
    ensures Smallest(xs) == Smallest(ys) && Largest(xs) == Largest(ys)
  {
    assert |xs| == |multiset(xs)| == |multiset(ys)| == |ys|;
    SmallestIsMinimum(xs);
    SmallestIsMinimum(ys);
    LargestIsMaximum(xs);
    LargestIsMaximum(ys);
    assert Smallest(xs) in multiset(ys) && Smallest(ys) in multiset(xs);
    assert Largest(xs) in multiset(ys) && Largest(ys) in multiset(xs);
  }

  /** Running extremes from any start value are the same for a permutation of the values. */
  lemma FoldsPermutation(init: real, xs: seq<real>, ys: seq<real>)
    requires multiset(xs) == multiset(ys)
    ensures FoldMin(init, xs) == FoldMin(init, ys)
    ensures FoldMax(init, xs) == FoldMax(init, ys)
  {
    assert |xs| == |multiset(xs)| == |multiset(ys)| == |ys|;
    if |xs| > 0 {
      ExtremesPermutation(xs, ys);
      FoldMinIsMinimum(init, xs);
      FoldMinIsMinimum(init, ys);
      FoldMaxIsMaximum(init, xs);
      FoldMaxIsMaximum(init, ys);
    }
  }
}
