/**
 * The unit tests of the Python Stats class, as methods whose contracts state
 * what each test asserts. The closeness checks of the tests (the standard
 * deviation, the standard error and the confidence half-width to seven
 * places) depend on the square root and the logarithm, which are not
 * modelled; those readouts are stated exactly in terms of m.sqrt instead.
 */
module PyStatsExamples {
  import opened Moments
  import opened Quantiles
  import opened PyStats

  /** The sample 1, 2, 3, 4 of the tests: sum 10, mean 2.5, sample variance 5/3. */
  lemma {:induction false} SampleOneToFour()
    ensures Moments.Sum([1.0, 2.0, 3.0, 4.0]) == 10.0
    ensures Moments.Mean([1.0, 2.0, 3.0, 4.0]) == 2.5
    ensures SampleVariance([1.0, 2.0, 3.0, 4.0]) == 5.0 / 3.0
  {
    var xs := [1.0, 2.0, 3.0, 4.0];
    assert Init(xs) == [1.0, 2.0, 3.0];
    assert Init([1.0, 2.0, 3.0]) == [1.0, 2.0];
    assert Init([1.0, 2.0]) == [1.0];
    assert Init([1.0]) == [];
    assert Moments.Sum(xs) == 10.0;
    assert SumSqDev(xs, 2.5) == 5.0;
  }

  /** test_empty: a fresh object counts 0 and every guarded readout raises. */
  method Empty(m: MathLib) returns (count: nat, min: Result<real>, max: Result<real>, mean: Result<real>,
                                    variance: Result<real>, stddev: Result<real>, stderr: Result<real>, conf: Result<real>)
    ensures count == 0
    ensures min.Err? && max.Err? && mean.Err?
    ensures variance.Err? && stddev.Err? && stderr.Err? && conf.Err?
    ensures Message(mean.error) == "mean" + NeedOne
    ensures Message(stderr.error) == "stderr" + NeedTwo
  {
    var s := new Stats();
    count := s.Count();
    min, max, mean := s.Min(), s.Max(), s.Mean();
    variance, stddev, stderr := s.Var(), s.StdDev(m), s.StdErr(m);
    conf := s.Conf(m, 0.95);
  }

  /** test_add1: one value is its own minimum, maximum and mean; the spread readouts raise. */
  method AddOne(m: MathLib) returns (count: nat, min: Result<real>, max: Result<real>, mean: Result<real>,
                                     variance: Result<real>, stddev: Result<real>, stderr: Result<real>, conf: Result<real>)
    ensures count == 1
    ensures min == Ok(1.0) && max == Ok(1.0) && mean == Ok(1.0)
    ensures variance.Err? && stddev.Err? && stderr.Err? && conf.Err?
    ensures Message(conf.error) == "confidence interval" + NeedTwo
  {
    var s := new Stats();
    s.Add(1.0);
    assert s.xs == [1.0];
    SumOfSingleton(1.0);
    count := s.Count();
    min, max, mean := s.Min(), s.Max(), s.Mean();
    variance, stddev, stderr := s.Var(), s.StdDev(m), s.StdErr(m);
    conf := s.Conf(m, 0.95);
  }

  /** test_remove: removing raises, and the object then behaves as a fresh one. */
  method RemoveResets(m: MathLib) returns (e: StatsException, count: nat, min: Result<real>, mean: Result<real>, conf: Result<real>)
    ensures e == RemovalNotImplemented
    ensures Message(e) == RemovalText
    ensures count == 0 && min.Err? && mean.Err? && conf.Err?
  {
    var s := new Stats();
    s.Add(1.0);
    e := s.Remove(2.0);
    count := s.Count();
    min, mean := s.Min(), s.Mean();
    conf := s.Conf(m, 0.95);
  }

  /** The object of test_addMany: 1, 2, 3 and 4 added to a fresh one. */
  method OneToFour() returns (s: Stats)
    ensures fresh(s) && s.Valid() && s.xs == [1.0, 2.0, 3.0, 4.0]
  {
    s := new Stats();
    s.Add(1.0);
    s.Add(2.0);
    s.Add(3.0);
    s.Add(4.0);
    assert s.xs == [1.0, 2.0, 3.0, 4.0];
  }

  /** test_addMany: 1, 2, 3, 4 give count 4, minimum 1, maximum 4, mean 2.5 and variance 5/3. */
  method AddMany() returns (count: nat, min: Result<real>, max: Result<real>, mean: Result<real>, variance: Result<real>)
    ensures count == 4
    ensures min == Ok(1.0) && max == Ok(4.0) && mean == Ok(2.5)
    ensures variance == Ok(5.0 / 3.0)
  {
    var s := OneToFour();
    SampleOneToFour();
    count := s.Count();
    min, max, mean := s.Min(), s.Max(), s.Mean();
    variance := s.Var();
  }

  /** test_addMany, continued: the standard deviation is √(5/3) and the standard error √(5/12). */
  method AddManySpread(m: MathLib) returns (stddev: Result<real>, stderr: Result<real>)
    ensures stddev == Ok(m.sqrt(5.0 / 3.0))
    ensures stderr == Ok(m.sqrt(5.0 / 12.0))
  {
    var s := OneToFour();
    SampleOneToFour();
    stddev, stderr := s.StdDev(m), s.StdErr(m);
    assert (5.0 / 3.0) / 4.0 == 5.0 / 12.0;
  }

  /** conf(level) on the values 1, 2, 3, 4: the deviate for four values times the standard error √(5/12). */
  method ConfOneToFour(m: MathLib, level: real) returns (conf: Result<real>)
    ensures conf.Ok? && conf.value == Deviate(m, level, 4) * m.sqrt(5.0 / 12.0)
  {
    var s := OneToFour();
    SampleOneToFour();
    assert (5.0 / 3.0) / 4.0 == 5.0 / 12.0;
    assert s.StdErr(m) == Ok(m.sqrt(5.0 / 12.0));
    conf := s.Conf(m, level);
  }

  /**
   * test_addMany's interval and test_differentConfidenceLevel: with four
   * values the deviate is Student's t with 3 degrees of freedom, for the
   * tail 0.025 at the default level 0.95 and 0.005 at level 0.99, times the
   * standard error √(5/12).
   */
  method ConfidenceLevels(m: MathLib) returns (conf95: Result<real>, conf99: Result<real>)
    ensures conf95.Ok? && conf95.value == TQuantile(m, 0.025, 3) * m.sqrt(5.0 / 12.0)
    ensures conf99.Ok? && conf99.value == TQuantile(m, 0.005, 3) * m.sqrt(5.0 / 12.0)
  {
    assert Deviate(m, 0.95, 4) == TQuantile(m, 0.025, 3) by {
      assert UsesStudentT(4) && (1.0 - 0.95) / 2.0 == 0.025;
    }
    assert Deviate(m, 0.99, 4) == TQuantile(m, 0.005, 3) by {
      assert UsesStudentT(4) && (1.0 - 0.99) / 2.0 == 0.005;
    }
    conf95 := ConfOneToFour(m, 0.95);
    conf99 := ConfOneToFour(m, 0.99);
  }
}
