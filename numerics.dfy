/** The numeric primitives of the spatial engine (src/utils/spatialAnalysis.js).

    The floating-point transcendental functions are not computed: the great-circle
    (haversine) distance, `Math.sqrt`, `Math.exp` and `Math.pow` are fields of a `Math`
    value handed to every operation that needs them, and `Sound` lists the only facts
    the model relies on. Arithmetic is over `real`, so rounding is not modelled. */
module Numerics {

  datatype Math = Math(
    haversine: (real, real, real, real) -> real,  // (lat1, lng1, lat2, lng2) -> kilometres
    sqrt: real -> real,
    exp: real -> real,
    pow: (real, real) -> real)

  /** Identity, symmetry and non-negativity of the distance; the square root is
      non-negative and vanishes exactly at 0; the exponential is positive with
      exp(0) = 1; a positive base raised to any power is positive. */
  ghost predicate Sound(m: Math) {
    && (forall lat, lng :: m.haversine(lat, lng, lat, lng) == 0.0)
    && (forall lat1, lng1, lat2, lng2 ::
          m.haversine(lat1, lng1, lat2, lng2) == m.haversine(lat2, lng2, lat1, lng1))
    && (forall lat1, lng1, lat2, lng2 :: m.haversine(lat1, lng1, lat2, lng2) >= 0.0)
    && (forall x :: x >= 0.0 ==> m.sqrt(x) >= 0.0 && (m.sqrt(x) == 0.0 <==> x == 0.0))
    && (forall x :: m.exp(x) > 0.0)
    && m.exp(0.0) == 1.0
    && (forall x, y :: x > 0.0 ==> m.pow(x, y) > 0.0)
  }

  function Abs(x: real): real { if x < 0.0 then -x else x }
  function Min(x: real, y: real): real { if x <= y then x else y }
  function Max(x: real, y: real): real { if x >= y then x else y }

  // ---------------------------------------------------------------- mean, stdDev

  /** `arr.reduce((a, b) => a + b, 0)`. */
  function Sum(xs: seq<real>): real {
    if xs == [] then 0.0 else Sum(xs[..|xs| - 1]) + xs[|xs| - 1]
  }

  function Mean(xs: seq<real>): real
    requires |xs| > 0
  {
    Sum(xs) / (|xs| as real)
  }

  /** The squares of the deviations from `avg` (`Math.pow(value - avg, 2)`). */
  function SquaredDeviations(xs: seq<real>, avg: real): (r: seq<real>)
    ensures |r| == |xs|
    ensures forall i :: 0 <= i < |xs| ==> r[i] == (xs[i] - avg) * (xs[i] - avg)
  {
    seq(|xs|, i requires 0 <= i < |xs| => (xs[i] - avg) * (xs[i] - avg))
  }

  /** Population standard deviation. */
  function StdDev(m: Math, xs: seq<real>): real
    requires |xs| > 0
  {
    m.sqrt(Mean(SquaredDeviations(xs, Mean(xs))))
  }

  lemma {:induction false} SumNonNegative(xs: seq<real>)
    requires forall i :: 0 <= i < |xs| ==> xs[i] >= 0.0
    ensures Sum(xs) >= 0.0
    ensures Sum(xs) == 0.0 <==> forall i :: 0 <= i < |xs| ==> xs[i] == 0.0
  {
    if xs != [] {
      var init := xs[..|xs| - 1];
      assert forall i :: 0 <= i < |init| ==> init[i] == xs[i];
      SumNonNegative(init);
    }
  }

  lemma {:induction false} SumOfConstant(xs: seq<real>, c: real)
    requires forall i :: 0 <= i < |xs| ==> xs[i] == c
    ensures Sum(xs) == (|xs| as real) * c
  {
    if xs != [] {
      var init := xs[..|xs| - 1];
      assert forall i :: 0 <= i < |init| ==> init[i] == xs[i];
      SumOfConstant(init, c);
    }
  }

  lemma SquaresNonNegative(xs: seq<real>, avg: real)
    ensures forall i :: 0 <= i < |xs| ==> SquaredDeviations(xs, avg)[i] >= 0.0
  {
    var sq := SquaredDeviations(xs, avg);
    forall i | 0 <= i < |xs| ensures sq[i] >= 0.0 {
      var d := xs[i] - avg;
      if d < 0.0 { assert d * d == (-d) * (-d); }
    }
  }

  /** The standard deviation is never negative. */
  lemma StdDevNonNegative(m: Math, xs: seq<real>)
    requires Sound(m) && |xs| > 0
    ensures StdDev(m, xs) >= 0.0
  {
    var sq := SquaredDeviations(xs, Mean(xs));
    SquaresNonNegative(xs, Mean(xs));
    SumNonNegative(sq);
  }

  lemma ConstantHasZeroDeviations(xs: seq<real>)
    requires |xs| > 0
    requires forall i :: 0 <= i < |xs| ==> xs[i] == xs[0]
    ensures Mean(xs) == xs[0]
    ensures Sum(SquaredDeviations(xs, Mean(xs))) == 0.0
  {
    SumOfConstant(xs, xs[0]);
    var sq := SquaredDeviations(xs, xs[0]);
    assert forall i :: 0 <= i < |xs| ==> sq[i] == 0.0;
    SumNonNegative(sq);
  }

  lemma ZeroDeviationsMeanConstant(xs: seq<real>, avg: real)
    requires Sum(SquaredDeviations(xs, avg)) == 0.0
    ensures forall i :: 0 <= i < |xs| ==> xs[i] == avg
  {
    var sq := SquaredDeviations(xs, avg);
    SquaresNonNegative(xs, avg);
    SumNonNegative(sq);
    forall i | 0 <= i < |xs| ensures xs[i] == avg {
      var d := xs[i] - avg;
      assert sq[i] == d * d;
      assert sq[i] == 0.0;
      SquareZero(d);
    }
  }

  /** A product vanishes only when a factor does. */
  lemma ProductZero(a: real, b: real)
    requires a * b == 0.0
    ensures a == 0.0 || b == 0.0
  {
  }

  lemma SquareZero(d: real)
    requires d * d == 0.0
    ensures d == 0.0
  {
    ProductZero(d, d);
  }

  /** The standard deviation is exactly 0 if and only if all values are equal. */
  lemma ZeroStdDevIffConstant(m: Math, xs: seq<real>)
    requires Sound(m) && |xs| > 0
    ensures StdDev(m, xs) == 0.0 <==> forall i :: 0 <= i < |xs| ==> xs[i] == xs[0]
  {
    var avg := Mean(xs);
    var sq := SquaredDeviations(xs, avg);
    SquaresNonNegative(xs, avg);
    SumNonNegative(sq);
    var n := |xs| as real;
    var v := Mean(sq);
    assert v == Sum(sq) / n;
    assert v >= 0.0;
    if forall i :: 0 <= i < |xs| ==> xs[i] == xs[0] {
      ConstantHasZeroDeviations(xs);
      assert v == 0.0;
    }
    if StdDev(m, xs) == 0.0 {
      assert m.sqrt(v) == 0.0;
      assert v == 0.0;
      assert Sum(sq) == v * n;
      ZeroDeviationsMeanConstant(xs, avg);
    }
  }

  // ---------------------------------------------------------------- p-value

  const A1: real := 0.254829592
  const A2: real := -0.284496736
  const A3: real := 1.421413741
  const A4: real := -1.453152027
  const A5: real := 1.061405429
  const P: real := 0.3275911

  /** The Abramowitz-Stegun approximation of the error function, with `Math.exp` abstract. */
  function Erf(m: Math, x: real): real {
    var sign := if x < 0.0 then -1.0 else 1.0;
    sign * ErfMagnitude(m, Abs(x))
  }

  /** The value of the approximation at |x|, before the sign is applied. */
  function ErfMagnitude(m: Math, ax: real): real
    requires ax >= 0.0
  {
    var t := 1.0 / (1.0 + P * ax);
    1.0 - (((((A5 * t + A4) * t) + A3) * t + A2) * t + A1) * t * m.exp(-ax * ax)
  }

  /** `Math.sqrt(2)`, the double nearest to the square root of 2. */
  const SQRT_2: real := 1.4142135623730951

  /** Two-tailed p-value of a z-score: `1 - erf(|z| / sqrt(2))`. */
  function ZScoreToPValue(m: Math, z: real): real {
    1.0 - Erf(m, Abs(z) / SQRT_2)
  }

  /** The approximation is odd away from 0 (at 0 it returns about 1e-9, not 0). */
  lemma ErfOdd(m: Math, x: real)
    requires x != 0.0
    ensures Erf(m, -x) == -Erf(m, x)
  {
    assert Abs(-x) == Abs(x);
  }

  /** The p-value depends on |z| only. */
  lemma PValueSymmetric(m: Math, z: real)
    ensures ZScoreToPValue(m, -z) == ZScoreToPValue(m, z)
  {
  }

  /** Computed from z = 0, the p-value is 0.999999999 (the coefficients sum to that),
      not the exact 1 that the guard branches of Gi* report. */
  lemma PValueAtZero(m: Math)
    requires Sound(m)
    ensures ZScoreToPValue(m, 0.0) == 0.999999999
  {
    assert Abs(0.0) / SQRT_2 == 0.0;
    assert ErfMagnitude(m, 0.0) == 1.0 - (A5 + A4 + A3 + A2 + A1) * m.exp(0.0);
  }

  // ---------------------------------------------------------------- kernels

  const PI: real := 3.141592653589793

  /** Gaussian kernel. The normalising factor h * sqrt(2 * PI) vanishes only for a zero
      bandwidth, where the source divides by zero and yields NaN; the model gives 0. */
  function GaussianKernel(m: Math, d: real, h: real): real {
    var c := h * m.sqrt(2.0 * PI);
    if c == 0.0 then 0.0
    else
      var u := d / h;
      (1.0 / c) * m.exp(-0.5 * u * u)
  }

  /** Epanechnikov kernel: compact support |d / h| <= 1. With h = 0 the quotient is
      Infinity or NaN, neither of which passes the `<= 1` test, so the value is 0. */
  function EpanechnikovKernel(d: real, h: real): real {
    if h == 0.0 then 0.0
    else
      var u := d / h;
      if Abs(u) <= 1.0 then (3.0 / 4.0) * (1.0 - u * u) / h else 0.0
  }

  /** With a positive bandwidth both kernels are non-negative, the Gaussian strictly. */
  lemma KernelsNonNegative(m: Math, d: real, h: real)
    requires Sound(m) && h > 0.0
    ensures GaussianKernel(m, d, h) > 0.0
    ensures EpanechnikovKernel(d, h) >= 0.0
  {
    var u := d / h;
    var c := m.sqrt(2.0 * PI);
    assert c > 0.0 && h * c > 0.0;
    assert 1.0 / (h * c) > 0.0;
    assert m.exp(-0.5 * u * u) > 0.0;
    if Abs(u) <= 1.0 {
      assert u * u <= 1.0 by {
        if u >= 0.0 { assert u * u <= 1.0 * u; } else { assert u * u <= (-1.0) * u; }
      }
    }
  }

  /** With a negative bandwidth both kernels are non-positive, the Gaussian strictly
      negative: the normalising factor takes the sign of the bandwidth. */
  lemma KernelsNonPositive(m: Math, d: real, h: real)
    requires Sound(m) && h < 0.0
    ensures GaussianKernel(m, d, h) < 0.0
    ensures EpanechnikovKernel(d, h) <= 0.0
  {
    var u := d / h;
    var c := m.sqrt(2.0 * PI);
    assert c > 0.0 && h * c < 0.0;
    assert 1.0 / (h * c) < 0.0;
    assert m.exp(-0.5 * u * u) > 0.0;
    if Abs(u) <= 1.0 {
      assert u * u <= 1.0 by {
        if u >= 0.0 { assert u * u <= 1.0 * u; } else { assert u * u <= (-1.0) * u; }
      }
      assert (3.0 / 4.0) * (1.0 - u * u) >= 0.0;
    }
  }

  /** The Epanechnikov kernel vanishes beyond one bandwidth. */
  lemma EpanechnikovCompactSupport(d: real, h: real)
    requires h > 0.0 && d > h
    ensures EpanechnikovKernel(d, h) == 0.0
  {
    assert d / h > 1.0;
  }
}
