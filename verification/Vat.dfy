/**
 The tax contained in a tax-inclusive price, at a rate in basis points, rounded
 once to a whole unit.
 */
module Vat {

  /** Rates the configuration admits, in basis points. */
  predicate ValidRate(basisPoints: int) {
    0 <= basisPoints <= 10_000
  }

  /** `Math.round(numerator / denominator)`: the nearest integer, halves upward. */
  function RoundHalfUp(numerator: int, denominator: int): int
    requires denominator > 0
  {
    (2 * numerator + denominator) / (2 * denominator)
  }

  function ExtractVat(totalMinor: int, basisPoints: int): int
    requires ValidRate(basisPoints)
  {
    RoundHalfUp(totalMinor * basisPoints, 10_000 + basisPoints)
  }

  /** `Math.round` on a real quotient. */
  function RoundReal(q: real): int {
    (q + 0.5).Floor
  }

  /** The exact tax, before rounding. */
  ghost function ExactVat(totalMinor: int, basisPoints: int): real
    requires ValidRate(basisPoints)
  {
    (totalMinor * basisPoints) as real / (10_000 + basisPoints) as real
  }

  /** The exact tax is an odd number of half units. */
  ghost predicate Halfway(totalMinor: int, basisPoints: int)
    requires ValidRate(basisPoints)
  {
    (2 * (totalMinor * basisPoints) + (10_000 + basisPoints)) % (2 * (10_000 + basisPoints)) == 0
  }

  lemma MulMonotone(c: int, x: int, y: int)
    requires c >= 0 && x <= y
    ensures c * x <= c * y
  {
    assert c * (y - x) == c * y - c * x;
  }

  lemma MulCancel(c: int, x: int, y: int)
    requires c > 0 && c * x < c * y
    ensures x < y
  {
    if y <= x {
      MulMonotone(c, y, x);
    }
  }

  lemma MulMonotoneReal(c: real, x: real, y: real)
    requires c >= 0.0 && x <= y
    ensures c * x <= c * y
  {
    assert c * (y - x) == c * y - c * x;
  }

  lemma MulCancelReal(c: real, x: real, y: real)
    requires c > 0.0 && c * x < c * y
    ensures x < y
  {
    if y <= x {
      MulMonotoneReal(c, y, x);
    }
  }

  lemma MulCancelRealLe(c: real, x: real, y: real)
    requires c > 0.0 && c * x <= c * y
    ensures x <= y
  {
    assert c * x - c * y == c * (x - y);
  }

  /** The rounded quotient is the integer within half a unit, halves upward. */
  lemma RoundHalfUpBounds(n: int, d: int)
    requires d > 0
    ensures 0 <= 2 * n + d - (2 * d) * RoundHalfUp(n, d) < 2 * d
  {
    var m := 2 * d;
    assert m * ((2 * n + d) / m) + (2 * n + d) % m == 2 * n + d;
  }

  /** The tax lies between nothing and the whole price. */
  lemma VatWithinTotal(totalMinor: int, basisPoints: int)
    requires ValidRate(basisPoints) && totalMinor >= 0
    ensures 0 <= ExtractVat(totalMinor, basisPoints) <= totalMinor
  {
    var n, d := totalMinor * basisPoints, 10_000 + basisPoints;
    MulMonotone(totalMinor, 0, basisPoints);
    MulMonotone(totalMinor, basisPoints, d);
    var r := ExtractVat(totalMinor, basisPoints);
    RoundHalfUpBounds(n, d);
    assert (2 * d) * (-1) == -2 * d;
    assert (2 * d) * (totalMinor + 1) == 2 * (totalMinor * d) + 2 * d;
    MulCancel(2 * d, -1, r);
    MulCancel(2 * d, r, totalMinor + 1);
  }

  /** A dearer order never carries less tax. */
  lemma VatMonotone(a: int, b: int, basisPoints: int)
    requires ValidRate(basisPoints) && a <= b
    ensures ExtractVat(a, basisPoints) <= ExtractVat(b, basisPoints)
  {
    var d := 10_000 + basisPoints;
    var ra, rb := ExtractVat(a, basisPoints), ExtractVat(b, basisPoints);
    MulMonotone(basisPoints, a, b);
    RoundHalfUpBounds(a * basisPoints, d);
    RoundHalfUpBounds(b * basisPoints, d);
    assert (2 * d) * (rb + 1) == (2 * d) * rb + 2 * d;
    MulCancel(2 * d, ra, rb + 1);
  }

  /**
   How far the exact tax plus a half sits above its rounding, measured in units of
   1/(2d): the bridge from the integer rounding to real arithmetic.
   */
  lemma RoundingGap(totalMinor: int, basisPoints: int) returns (slack: int, gap: real)
    requires ValidRate(basisPoints)
    ensures var d := 10_000 + basisPoints;
            && 0 <= slack < 2 * d
            && (slack == 0 <==> Halfway(totalMinor, basisPoints))
            && gap == ExactVat(totalMinor, basisPoints) + 0.5 - ExtractVat(totalMinor, basisPoints) as real
            && (2 * d) as real * gap == slack as real
  {
    var n, d := totalMinor * basisPoints, 10_000 + basisPoints;
    var r, x := ExtractVat(totalMinor, basisPoints), ExactVat(totalMinor, basisPoints);
    RoundHalfUpBounds(n, d);
    slack := 2 * n + d - (2 * d) * r;
    assert slack == (2 * n + d) % (2 * d);
    gap := x + 0.5 - r as real;
    assert d as real * x == n as real;
    CastProduct(2 * d, r);
    Distribute((2 * d) as real, x, r as real);
  }

  lemma CastProduct(a: int, b: int)
    ensures (a * b) as real == a as real * b as real
  {
  }

  lemma Distribute(c: real, x: real, r: real)
    ensures c * (x + 0.5 - r) == c * x + c * 0.5 - c * r
  {
  }

  /** The rounded tax is within half a minor unit of the exact one. */
  lemma VatWithinHalf(totalMinor: int, basisPoints: int)
    requires ValidRate(basisPoints)
    ensures ExactVat(totalMinor, basisPoints) - 0.5 < ExtractVat(totalMinor, basisPoints) as real
            <= ExactVat(totalMinor, basisPoints) + 0.5
  {
    var slack, gap := RoundingGap(totalMinor, basisPoints);
    var c := (2 * (10_000 + basisPoints)) as real;
    MulCancelRealLe(c, 0.0, gap);
    MulCancelReal(c, gap, 1.0);
  }

  /**
   Floating-point division is harmless. A computed quotient off by less than
   1/40000 rounds to the same integer as the exact one, for every rate up to
   100%, provided a halfway value is not underestimated. A halfway value is a
   small dyadic rational, so a correctly rounded division returns it exactly.
   */
  lemma DivisionErrorHarmless(totalMinor: int, basisPoints: int, q: real)
    requires ValidRate(basisPoints)
    requires ExactVat(totalMinor, basisPoints) - 1.0 / 40_000.0 < q < ExactVat(totalMinor, basisPoints) + 1.0 / 40_000.0
    requires Halfway(totalMinor, basisPoints) ==> q >= ExactVat(totalMinor, basisPoints)
    ensures RoundReal(q) == ExtractVat(totalMinor, basisPoints)
  {
    var slack, gap := RoundingGap(totalMinor, basisPoints);
    var c := (2 * (10_000 + basisPoints)) as real;
    var r := ExtractVat(totalMinor, basisPoints) as real;
    if slack == 0 {
      MulCancelRealLe(c, gap, 0.0);
      MulCancelRealLe(c, 0.0, gap);
      assert gap == 0.0;
    } else {
      SlackKeepsClear(c, 1.0 / 40_000.0, gap);
    }
    assert r <= q + 0.5 < r + 1.0;
  }

  /** A gap of at least 1/c from both ends exceeds any error e with c * e at most one. */
  lemma SlackKeepsClear(c: real, e: real, gap: real)
    requires 1.0 <= c && c * e <= 1.0
    requires 1.0 <= c * gap <= c - 1.0
    ensures e <= gap <= 1.0 - e
  {
    MulCancelRealLe(c, e, gap);
    assert c * (1.0 - e) == c - c * e;
    MulCancelRealLe(c, gap, 1.0 - e);
  }

  /** Below a halfway point any error rounds the other way, so the proviso is needed. */
  lemma HalfwayNeedsExactness(totalMinor: int, basisPoints: int, q: real)
    requires ValidRate(basisPoints) && Halfway(totalMinor, basisPoints)
    requires ExactVat(totalMinor, basisPoints) - 1.0 < q < ExactVat(totalMinor, basisPoints)
    ensures RoundReal(q) == ExtractVat(totalMinor, basisPoints) - 1
  {
    var slack, gap := RoundingGap(totalMinor, basisPoints);
    var c := (2 * (10_000 + basisPoints)) as real;
    MulCancelRealLe(c, gap, 0.0);
    MulCancelRealLe(c, 0.0, gap);
    var r := ExtractVat(totalMinor, basisPoints) - 1;
    assert r as real <= q + 0.5 < r as real + 1.0;
  }
}
