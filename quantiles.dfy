/**
 * The quantile approximations both accumulators use for confidence
 * intervals (MacDougall, "Simulating Computer Systems", p. 276):
 *   Z(p)      the normal deviate cutting off an upper tail of probability p,
 *             by the rational approximation of Abramowitz and Stegun 26.2.23;
 *   T(p, ndf) Student's t deviate with ndf degrees of freedom, as the normal
 *             deviate plus a series in 1/ndf.
 * The C and the Python code compute the same expressions with the same
 * constants, so they are modelled once.
 *
 * The natural logarithm and the square root of the maths library are not
 * modelled: they are carried as a MathLib value, and all that is known of
 * them is that a square root is never negative.
 */
module Quantiles {

  type NonNeg = r: real | r >= 0.0

  /** The two functions of the maths library the approximation calls. */
  datatype MathLib = MathLib(ln: real -> real, sqrt: real -> NonNeg)

  // Coefficients of the rational approximation, as the source writes them.
  const C0: real := 2.515517
  const C1: real := 0.802853
  const C2: real := 0.010328
  const D1: real := 1.43278
  const D2: real := 0.189269
  const D3: real := 0.0013080

  function Abs(r: real): real
  {
    if r < 0.0 then -r else r
  }

  /**
   * cs[0] + x·(cs[1] + x·(cs[2] + …)): the polynomial with coefficients cs,
   * lowest power first, evaluated by Horner's rule.
   */
  function Poly(cs: seq<real>, x: real): real
  {
    if |cs| == 0 then 0.0 else cs[0] + x * Poly(cs[1..], x)
  }

  // The polynomials of the source, written out in its own Horner order.

  lemma PolyTwo(a: real, b: real, x: real)
    ensures Poly([a, b], x) == b * x + a
  {
    assert [a, b][1..] == [b];
    assert [b][1..] == [];
    assert Poly([b], x) == b + x * Poly([], x);
  }

  lemma PolyThree(a: real, b: real, c: real, x: real)
    ensures Poly([a, b, c], x) == (c * x + b) * x + a
  {
    assert [a, b, c][1..] == [b, c];
    PolyTwo(b, c, x);
  }

  lemma PolyFour(a: real, b: real, c: real, d: real, x: real)
    ensures Poly([a, b, c, d], x) == ((d * x + c) * x + b) * x + a
  {
    assert [a, b, c, d][1..] == [b, c, d];
    PolyThree(b, c, d, x);
  }

  lemma PolyFive(a: real, b: real, c: real, d: real, e: real, x: real)
    ensures Poly([a, b, c, d, e], x) == (((e * x + d) * x + c) * x + b) * x + a
  {
    assert [a, b, c, d, e][1..] == [b, c, d, e];
    PolyFour(b, c, d, e, x);
  }

  /** n(t) = c0 + c1·t + c2·t². */
  function Numerator(t: real): real
  {
    Poly([C0, C1, C2], t)
  }

  /** d(t) = 1 + d1·t + d2·t² + d3·t³. */
  function Denominator(t: real): real
  {
    Poly([1.0, D1, D2, D3], t)
  }

  /**
   * For t >= 0 the denominator is at least 1, so Z never divides by zero,
   * and the correction n(t)/d(t) lies in (0, c0].
   */
  lemma CorrectionBounds(t: real)
    requires t >= 0.0
    ensures Denominator(t) >= 1.0
    ensures 0.0 < Numerator(t) / Denominator(t) <= C0
  {
    PolyThree(C0, C1, C2, t);
    PolyFour(1.0, D1, D2, D3, t);
    var n, d := Numerator(t), Denominator(t);
    assert t * t >= 0.0;
    assert t * t * t >= 0.0;
    assert n == C0 + C1 * t + C2 * (t * t);
    assert d == 1.0 + D1 * t + D2 * (t * t) + D3 * (t * t * t);
    assert n <= C0 * d;
  }

  /** The tail probability the approximation works on: p itself, or 1 − p above 0.5. */
  function Tail(p: real): (q: real)
    ensures q <= 0.5
    ensures q == p || q == 1.0 - p
  {
    if p > 0.5 then 1.0 - p else p
  }

  /** t = sqrt(−2·ln q), the variable of the rational approximation. */
  function TailVariable(m: MathLib, q: real): NonNeg
  {
    m.sqrt(-2.0 * m.ln(q))
  }

  /**
   * Z(p): the deviate for the upper tail q = Tail(p), negated when p > 0.5.
   * The correction subtracted from t is positive and at most c0.
   */
  function Z(m: MathLib, p: real): (z: real)
    ensures var t: real := TailVariable(m, Tail(p));
            if p > 0.5 then -t < z <= C0 - t else t - C0 <= z < t
  {
    var z1: real := TailVariable(m, Tail(p));
    CorrectionBounds(z1);
    var z := z1 - Numerator(z1) / Denominator(z1);
    if p > 0.5 then -z else z
  }

  /** Z is odd about 0.5: the deviate for 1 − p is minus the deviate for p, except at p = 0.5. */
  lemma ZOdd(m: MathLib, p: real)
    requires p != 0.5
    ensures Z(m, 1.0 - p) == -Z(m, p)
  {
    assert Tail(1.0 - p) == Tail(p);
  }

  /** z2 = z1·z1, the square the coefficients are polynomials in. */
  function Square(x: real): real
  {
    x * x
  }

  /**
   * The four coefficients h0..h3 of the series in 1/ndf that moves the
   * normal deviate z1 >= 0, with z2 = z1², towards Student's t deviate.
   * They follow the Cornish-Fisher expansion of Abramowitz and Stegun,
   * formula 26.7.5, except h2, which is kept as the source writes it: it
   * lacks that formula's 17·z1³ term and is one degree lower.
   */
  function Corrections(z1: real, z2: real): (h: seq<real>)
    ensures |h| == 4
  {
    [ 0.25 * z1 * Poly([1.0, 1.0], z2),
      0.010416667 * z1 * Poly([3.0, 16.0, 5.0], z2),
      0.002604167 * z1 * Poly([-15.0, 19.0, 3.0], z2),
      z1 * Poly([-945.0, -1920.0, 1482.0, 776.0, 79.0], z2) * 0.000010851 ]
  }

  /** The coefficients as the source spells them out, each polynomial in z2 in Horner order. */
  lemma CorrectionsAsWritten(z1: real, z2: real)
    ensures Corrections(z1, z2) ==
      [ 0.25 * z1 * (z2 + 1.0),
        0.010416667 * z1 * ((5.0 * z2 + 16.0) * z2 + 3.0),
        0.002604167 * z1 * ((3.0 * z2 + 19.0) * z2 - 15.0),
        z1 * ((((79.0 * z2 + 776.0) * z2 + 1482.0) * z2 - 1920.0) * z2 - 945.0) * 0.000010851 ]
  {
    PolyTwo(1.0, 1.0, z2);
    PolyThree(3.0, 16.0, 5.0, z2);
    PolyThree(-15.0, 19.0, 3.0, z2);
    PolyFive(-945.0, -1920.0, 1482.0, 776.0, 79.0, z2);
    var hs := Corrections(z1, z2);
    assert hs[0] == 0.25 * z1 * (z2 + 1.0);
    assert hs[1] == 0.010416667 * z1 * ((5.0 * z2 + 16.0) * z2 + 3.0);
    assert hs[2] == 0.002604167 * z1 * ((3.0 * z2 + 19.0) * z2 - 15.0);
    assert hs[3] == z1 * ((((79.0 * z2 + 776.0) * z2 + 1482.0) * z2 - 1920.0) * z2 - 945.0) * 0.000010851;
  }

  /** (h0 + (h1 + (… + 0)/n)/n)/n: the value the loop of T accumulates from the last coefficient down. */
  function Horner(hs: seq<real>, n: real): real
    requires n != 0.0
  {
    if |hs| == 0 then 0.0 else (hs[0] + Horner(hs[1..], n)) / n
  }

  /** With four coefficients the series is h0/n + h1/n² + h2/n³ + h3/n⁴. */
  lemma HornerExpansion(hs: seq<real>, n: real)
    requires |hs| == 4 && n != 0.0
    ensures Horner(hs, n) == hs[0] / n + hs[1] / n / n + hs[2] / n / n / n + hs[3] / n / n / n / n
  {
    var t1, t2, t3 := hs[1..], hs[2..], hs[3..];
    assert t1[1..] == t2 && t2[1..] == t3 && t3[1..] == [];
    var x3 := Horner(t3, n);
    var x2 := Horner(t2, n);
    var x1 := Horner(t1, n);
    assert Horner(t3[1..], n) == 0.0;
    assert x3 == hs[3] / n;
    SplitQuotient(hs[2], x3, n);
    assert x2 == hs[2] / n + hs[3] / n / n;
    SplitQuotient(hs[1], x2, n);
    SplitQuotient(hs[2] / n, hs[3] / n / n, n);
    assert x1 == hs[1] / n + hs[2] / n / n + hs[3] / n / n / n;
    SplitQuotient(hs[0], x1, n);
    SplitQuotient(hs[1] / n + hs[2] / n / n, hs[3] / n / n / n, n);
    SplitQuotient(hs[1] / n, hs[2] / n / n, n);
  }

  lemma SplitQuotient(a: real, b: real, n: real)
    requires n != 0.0
    ensures (a + b) / n == a / n + b / n
  {
  }

  function SumAbs(hs: seq<real>): real
  {
    if |hs| == 0 then 0.0 else Abs(hs[0]) + SumAbs(hs[1..])
  }

  /** With n >= 1 the series is at most Σ|hᵢ|/n in size. */
  lemma {:induction false} HornerBound(hs: seq<real>, n: real)
    requires n >= 1.0
    ensures Abs(Horner(hs, n)) <= SumAbs(hs) / n
  {
    if |hs| > 0 {
      var rest := Horner(hs[1..], n);
      HornerBound(hs[1..], n);
      SumAbsNonNegative(hs[1..]);
      HornerStep(hs[0], rest, SumAbs(hs[1..]), n);
    }
  }

  lemma HornerStep(h: real, rest: real, s: real, n: real)
    requires n >= 1.0 && s >= 0.0 && Abs(rest) <= s / n
    ensures Abs((h + rest) / n) <= (Abs(h) + s) / n
  {
    ShrinkByDivisor(s, n);
    DivideMonotone(Abs(h + rest), Abs(h) + s, n);
    AbsOfQuotient(h + rest, n);
  }

  lemma ShrinkByDivisor(s: real, n: real)
    requires n >= 1.0 && s >= 0.0
    ensures s / n <= s
  {
    assert s == (s / n) * n;
  }

  lemma DivideMonotone(a: real, b: real, n: real)
    requires n > 0.0 && a <= b
    ensures a / n <= b / n
  {
  }

  lemma AbsOfQuotient(a: real, n: real)
    requires n > 0.0
    ensures Abs(a / n) == Abs(a) / n
  {
  }

  lemma {:induction false} SumAbsNonNegative(hs: seq<real>)
    ensures SumAbs(hs) >= 0.0
  {
    if |hs| > 0 {
      SumAbsNonNegative(hs[1..]);
    }
  }

  /** The series h0/ndf + h1/ndf² + h2/ndf³ + h3/ndf⁴ added to the normal deviate z1. */
  function TSeries(z1: real, ndf: int): real
    requires ndf >= 1
  {
    Horner(Corrections(z1, Square(z1)), ndf as real)
  }

  /**
   * The series is at most Σ|hᵢ|/ndf in size, so the t deviate tends to the
   * normal deviate as ndf grows.
   */
  lemma TSeriesBound(z1: real, ndf: int)
    requires ndf >= 1
    ensures Abs(TSeries(z1, ndf)) <= SumAbs(Corrections(z1, Square(z1))) / (ndf as real)
  {
    HornerBound(Corrections(z1, Square(z1)), ndf as real);
  }

  /** The t deviate given the normal deviate z1 >= 0: z1 plus the series, negated when p > 0.5. */
  function TFromNormal(p: real, z1: real, ndf: int): real
    requires ndf >= 1
  {
    if p > 0.5 then -(z1 + TSeries(z1, ndf)) else z1 + TSeries(z1, ndf)
  }

  /** Student's t deviate for tail p and ndf >= 1 degrees of freedom, from z1 = |Z(p)|. */
  function TQuantile(m: MathLib, p: real, ndf: int): real
    requires ndf >= 1
  {
    TFromNormal(p, Abs(Z(m, p)), ndf)
  }

  /**
   * The t deviate is the normal deviate, with the sign the tail gives it,
   * moved by the series: it stays within Σ|hᵢ|/ndf of it.
   */
  lemma TFromNormalNear(p: real, z1: real, ndf: int)
    requires ndf >= 1
    ensures Abs(TFromNormal(p, z1, ndf) - (if p > 0.5 then -z1 else z1)) <= SumAbs(Corrections(z1, Square(z1))) / (ndf as real)
  {
    var s := TSeries(z1, ndf);
    TSeriesBound(z1, ndf);
    assert Abs(TFromNormal(p, z1, ndf) - (if p > 0.5 then -z1 else z1)) == Abs(s);
  }

  /** T is odd about 0.5 like Z. */
  lemma TOdd(m: MathLib, p: real, ndf: int)
    requires p != 0.5 && ndf >= 1
    ensures TQuantile(m, 1.0 - p, ndf) == -TQuantile(m, p, ndf)
  {
    ZOdd(m, p);
    assert Abs(Z(m, 1.0 - p)) == Abs(Z(m, p));
  }

  /** The t deviate as the source computes it: z1 := |Z(p)|, then the steps below. */
  method T(m: MathLib, p: real, ndf: int) returns (t: real)
    requires ndf >= 1
    ensures t == TQuantile(m, p, ndf)
  {
    var z1 := Abs(Z(m, p));
    t := TSteps(p, z1, ndf);
  }

  /** The coefficients into a four-slot buffer, the series loop, z1 += x, and the sign. */
  method TSteps(p: real, z1: real, ndf: int) returns (t: real)
    requires ndf >= 1
    ensures t == TFromNormal(p, z1, ndf)
  {
    var h := FillCorrections(z1);
    var x := SumSeries(h, ndf);
    t := z1 + x;
    if p > 0.5 {
      t := -t;
    }
  }

  /** h[0..3] := the coefficients for z1, the last one scaled in a second step as the source does. */
  method FillCorrections(z1: real) returns (h: array<real>)
    ensures fresh(h)
    ensures h[..] == Corrections(z1, Square(z1))
  {
    var z2 := z1 * z1;
    h := new real[4];
    h[0] := 0.25 * z1 * (z2 + 1.0);
    h[1] := 0.010416667 * z1 * ((5.0 * z2 + 16.0) * z2 + 3.0);
    h[2] := 0.002604167 * z1 * ((3.0 * z2 + 19.0) * z2 - 15.0);
    h[3] := z1 * ((((79.0 * z2 + 776.0) * z2 + 1482.0) * z2 - 1920.0) * z2 - 945.0);
    h[3] := h[3] * 0.000010851;
    CorrectionsAsWritten(z1, z2);
    assert h[..] == [h[0], h[1], h[2], h[3]];
  }

  /** x := (x + h[i])/ndf for i = 3, 2, 1, 0: the series in 1/ndf. */
  method SumSeries(h: array<real>, ndf: int) returns (x: real)
    requires h.Length == 4 && ndf >= 1
    ensures x == Horner(h[..], ndf as real)
  {
    var n := ndf as real;
    x := 0.0;
    var i := 3;
    while i >= 0
      invariant -1 <= i <= 3
      invariant x == Horner(h[i + 1..], n)
    {
      assert h[i..][1..] == h[i + 1..];
      x := (x + h[i]) / n;
      i := i - 1;
    }
    assert h[0..] == h[..];
  }

  /** Both accumulators use Student's t for 2..29 values and the normal deviate otherwise. */
  predicate UsesStudentT(count: int)
  {
    count > 1 && count < 30
  }

  /**
   * The deviate a confidence interval at the given level is scaled by, for
   * a sample of n values: the t deviate with n − 1 degrees of freedom when
   * UsesStudentT(n), the normal deviate otherwise, both for the tail
   * (1 − level)/2.
   */
  function Deviate(m: MathLib, level: real, n: int): real
  {
    if UsesStudentT(n) then TQuantile(m, (1.0 - level) / 2.0, n - 1) else Z(m, (1.0 - level) / 2.0)
  }

  /**
   * Student's t deviate for tail p is the normal deviate for p, with the
   * sign the tail gives it, moved by at most Σ|hᵢ|/ndf: the two meet as the
   * degrees of freedom grow.
   */
  lemma TNearNormal(m: MathLib, p: real, ndf: int, z1: real)
    requires ndf >= 1 && z1 == Abs(Z(m, p))
    ensures Abs(TQuantile(m, p, ndf) - (if p > 0.5 then -z1 else z1)) <= SumAbs(Corrections(z1, Square(z1))) / (ndf as real)
  {
    TFromNormalNear(p, z1, ndf);
  }

  /**
   * The selection rule of both confidence routines: T for 2..29 values, Z
   * otherwise, and a warning for fewer than two values.
   */
  method SelectDeviate(m: MathLib, level: real, n: int) returns (d: real, warned: bool)
    ensures d == Deviate(m, level, n)
    ensures warned <==> n < 2
  {
    warned := false;
    if n > 1 && n < 30 {
      d := T(m, (1.0 - level) / 2.0, n - 1);
    } else {
      if n < 2 {
        warned := true;
      }
      d := Z(m, (1.0 - level) / 2.0);
    }
  }
}
