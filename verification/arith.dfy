/**
 * Integer and rounding operators of the source languages, written out because
 * Dafny's own `/` and `%` are Euclidean.
 */
module Arith {

  function Abs(a: int): nat { if a < 0 then -a else a }

  function Min(a: int, b: int): int { if a <= b then a else b }

  function Max(a: int, b: int): int { if a >= b then a else b }

  /** Kotlin Int `/`: the quotient truncated toward zero. */
  function TruncDiv(a: int, b: int): int
    requires b != 0
  {
    var q := Abs(a) / Abs(b);
    if (a < 0) != (b < 0) then -q else q
  }

  /** Kotlin Int `%` and JavaScript `%`: the remainder takes the sign of the dividend. */
  function TruncRem(a: int, b: int): int
    requires b != 0
  {
    a - b * TruncDiv(a, b)
  }

  /** Math.floor(a / b) in JavaScript. */
  function FloorDiv(a: int, b: int): int
    requires b != 0
  {
    if b > 0 then a / b else (-a) / (-b)
  }

  lemma TruncAgreesOnNatural(a: int, b: int)
    requires a >= 0 && b > 0
    ensures TruncDiv(a, b) == a / b && TruncRem(a, b) == a % b && FloorDiv(a, b) == a / b
  {
  }

  /** The truncated quotient is bounded by the exact one on the side of zero. */
  lemma TruncDivBounds(a: int, b: int)
    requires b > 0
    ensures a >= 0 ==> 0 <= b * TruncDiv(a, b) <= a
    ensures a < 0 ==> a <= b * TruncDiv(a, b) <= 0
  {
    var q := Abs(a) / b;
    assert b * q <= Abs(a);
  }

  /** Double.toInt(): drop the fraction, toward zero. */
  function TruncReal(x: real): int {
    if x >= 0.0 then x.Floor else -((-x).Floor)
  }

  lemma TruncRealBounds(x: real)
    ensures x >= 0.0 ==> 0 <= TruncReal(x) && TruncReal(x) as real <= x < TruncReal(x) as real + 1.0
    ensures x < 0.0 ==> TruncReal(x) <= 0 && TruncReal(x) as real - 1.0 < x <= TruncReal(x) as real
  {
  }

  /** kotlin.math.round: nearest integer, ties to the even neighbour. */
  function RoundHalfEven(x: real): int {
    var f := x.Floor;
    var frac := x - f as real;
    if frac < 0.5 then f
    else if frac > 0.5 then f + 1
    else if f % 2 == 0 then f else f + 1
  }

  /** Math.round: nearest integer, ties toward positive infinity. */
  function RoundHalfUp(x: real): int {
    (x + 0.5).Floor
  }

  /** Both roundings land within half a unit of their argument. */
  lemma RoundHalfEvenIsNearest(x: real)
    ensures -0.5 <= x - RoundHalfEven(x) as real <= 0.5
  {
    var f := x.Floor;
    var frac := x - f as real;
    assert 0.0 <= frac < 1.0;
    if frac < 0.5 {
      assert RoundHalfEven(x) == f;
    } else if frac > 0.5 {
      assert RoundHalfEven(x) == f + 1;
      assert (f + 1) as real == f as real + 1.0;
    } else if f % 2 != 0 {
      assert (f + 1) as real == f as real + 1.0;
    }
  }

  lemma RoundHalfUpIsNearest(x: real)
    ensures -0.5 <= x - RoundHalfUp(x) as real < 0.5
  {
    var g := (x + 0.5).Floor;
    assert g as real <= x + 0.5 < g as real + 1.0;
  }

  /** Both roundings keep non-negative values non-negative. */
  lemma RoundingNonNegative(x: real)
    requires x >= 0.0
    ensures RoundHalfEven(x) >= 0 && RoundHalfUp(x) >= 0
  {
  }
}
