/**
 * The C accumulator (Ross's recurrences from the running mean) and the
 * Python one (sums shifted by the first value) are different algorithms;
 * over the same values they report the same statistics, apart from the
 * starting values of the C extremes.
 */
module Agreement {
  import opened Moments
  import opened Quantiles
  import C = CStats
  import P = PyStats

  lemma SameStatistics(c: C.StatsData, p: P.Stats, m: MathLib)
    requires c.Valid() && p.Valid() && c.xs == p.xs
    ensures c.Count() == p.Count()
    ensures p.Mean().Ok? ==> p.Mean().value == c.Mean()
    ensures p.Var().Ok? ==> p.Var().value == c.Variance()
    ensures p.StdErr(m).Ok? ==> c.StdErr(m) == C.Finite(p.StdErr(m).value)
    ensures p.Min().Ok? && p.Min().value <= C.DBL_MAX ==> p.Min().value == c.Min()
    ensures p.Max().Ok? ==> (p.Max().value == c.Max() <==> p.Max().value >= C.DBL_MIN)
  {
    if |p.xs| > 0 {
      SmallestIsMinimum(p.xs);
      LargestIsMaximum(p.xs);
      var lo, hi := p.Min().value, p.Max().value;
      assert lo == Smallest(p.xs) by {
        assert lo <= Smallest(p.xs);
      }
      assert hi == Largest(p.xs) by {
        assert Largest(p.xs) <= hi;
      }
    }
  }

  /** Two C accumulators fed the same values in any order report the same statistics. */
  lemma COrderIndependent(a: C.StatsData, b: C.StatsData, m: MathLib)
    requires a.Valid() && b.Valid() && multiset(a.xs) == multiset(b.xs)
    ensures a.Count() == b.Count() && a.Min() == b.Min() && a.Max() == b.Max()
    ensures a.Mean() == b.Mean() && a.Variance() == b.Variance()
    ensures a.StdDev(m) == b.StdDev(m) && a.StdErr(m) == b.StdErr(m)
  {
    MomentsPermutation(a.xs, b.xs);
    FoldsPermutation(C.DBL_MAX, a.xs, b.xs);
    FoldsPermutation(C.DBL_MIN, a.xs, b.xs);
  }

  /** Two Python accumulators fed the same values in any order report the same statistics. */
  lemma PyOrderIndependent(a: P.Stats, b: P.Stats, m: MathLib)
    requires a.Valid() && b.Valid() && multiset(a.xs) == multiset(b.xs)
    ensures a.Count() == b.Count() && a.Sum() == b.Sum()
    ensures a.Min() == b.Min() && a.Max() == b.Max()
    ensures a.Mean() == b.Mean() && a.Var() == b.Var()
    ensures a.StdDev(m) == b.StdDev(m) && a.StdErr(m) == b.StdErr(m)
  {
    MomentsPermutation(a.xs, b.xs);
    SumsPermutation(a.xs, b.xs, 0.0);
    if |a.xs| > 0 {
      ExtremesPermutation(a.xs, b.xs);
      SmallestIsMinimum(a.xs);
      SmallestIsMinimum(b.xs);
      LargestIsMaximum(a.xs);
      LargestIsMaximum(b.xs);
      var lo, hi := a.Min().value, a.Max().value;
      assert lo == Smallest(a.xs) by {
        assert lo <= Smallest(a.xs);
      }
      assert hi == Largest(a.xs) by {
        assert Largest(a.xs) <= hi;
      }
      var lo', hi' := b.Min().value, b.Max().value;
      assert lo' == Smallest(b.xs) by {
        assert lo' <= Smallest(b.xs);
      }
      assert hi' == Largest(b.xs) by {
        assert Largest(b.xs) <= hi';
      }
    }
  }
}
