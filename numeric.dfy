/**
 * Python's number conversions on reals: int() truncates toward zero and
 * round() rounds to the nearest integer, ties to even.
 */
module Numeric {

  function Abs(x: real): (r: real)
    ensures r >= 0.0 && (r == x || r == -x)
  {
    if x < 0.0 then -x else x
  }

  /**
   * Real multiplication behind a function symbol: equal factors then give
   * equal products by congruence, without nonlinear reasoning.
   */
  function Mul(a: real, b: real): real {
    a * b
  }

  lemma MulNonNegative(a: real, b: real)
    requires 0.0 <= a && 0.0 <= b
    ensures 0.0 <= Mul(a, b)
  {
  }

  /** Scaling a non-negative amount by a factor of at least one never lowers it. */
  lemma MulAtLeast(a: real, f: real)
    requires 0.0 <= a && 1.0 <= f
    ensures a <= Mul(a, f)
  {
    assert Mul(a, f) == a + a * (f - 1.0);
    MulNonNegative(a, f - 1.0);
  }

  /** Scaling a non-negative amount by a factor of at most m keeps it within m times the amount. */
  lemma MulAtMost(a: real, f: real, m: real)
    requires 0.0 <= a && f <= m
    ensures Mul(a, f) <= a * m
  {
    assert a * m - Mul(a, f) == a * (m - f);
    MulNonNegative(a, m - f);
  }

  /** Multiplying by a non-negative factor keeps the order. */
  lemma MulMonotone(x: real, y: real, a: real)
    requires 0.0 <= a && x <= y
    ensures Mul(x, a) <= Mul(y, a)
  {
    assert Mul(y, a) - Mul(x, a) == (y - x) * a;
    MulNonNegative(y - x, a);
  }

  /** Multiplying by a positive factor keeps the strict order. */
  lemma MulStrictMonotone(x: real, y: real, a: real)
    requires 0.0 < a && x < y
    ensures Mul(x, a) < Mul(y, a)
  {
    assert Mul(y, a) - Mul(x, a) == (y - x) * a;
  }

  /** Real division behind a function symbol, for the same reason as Mul. */
  function Div(a: real, b: real): real
    requires b != 0.0
  {
    a / b
  }

  lemma DivNonNegative(a: real, b: real)
    requires 0.0 <= a && 0.0 < b
    ensures 0.0 <= Div(a, b)
  {
    MulDivCancel(a, b);
    if Div(a, b) < 0.0 {
      MulStrictMonotone(Div(a, b), 0.0, b);
    }
  }

  /** Multiplying back by a non-zero divisor restores the dividend. */
  lemma MulDivCancel(a: real, l: real)
    requires l != 0.0
    ensures Mul(l, Div(a, l)) == a && Mul(Div(a, l), l) == a
  {
  }

  /** Python's int(x) on a float: truncation toward zero. */
  function Trunc(x: real): (r: int)
    ensures 0.0 <= x ==> 0 <= r && r as real <= x < r as real + 1.0
    ensures x < 0.0 ==> r <= 0 && r as real - 1.0 < x <= r as real
  {
    if x >= 0.0 then x.Floor else -((-x).Floor)
  }

  /** Python 3's round(x): nearest integer, a tie goes to the even neighbour. */
  function Round(x: real): (r: int)
    ensures x - 0.5 <= r as real <= x + 0.5
    ensures r as real - x == 0.5 || x - r as real == 0.5 ==> r % 2 == 0
  {
    var f := x.Floor;
    var d := x - f as real;
    if d < 0.5 then f
    else if d > 0.5 then f + 1
    else if f % 2 == 0 then f
    else f + 1
  }

  /** Python's round(x, digits) with 10^digits given as `scale`. */
  function RoundTo(x: real, scale: nat): (r: real)
    requires scale > 0
    ensures Abs(r - x) <= 0.5 / scale as real
  {
    var s := scale as real;
    var n := Round(x * s);
    ScaledBound(n as real / s, x, s);
    n as real / s
  }

  /** If r * s lies within 1/2 of x * s, then r lies within 1/(2s) of x. */
  lemma ScaledBound(r: real, x: real, s: real)
    requires s > 0.0
    requires x * s - 0.5 <= r * s <= x * s + 0.5
    ensures Abs(r - x) <= 0.5 / s
  {
    assert (r - x) * s <= 0.5 && (x - r) * s <= 0.5;
    if r >= x {
      assert r - x == (r - x) * s / s;
    } else {
      assert x - r == (x - r) * s / s;
    }
  }

  /** Rounding never takes a value below an integer it already reaches. */
  lemma RoundAtLeast(x: real, n: int)
    requires n as real <= x
    ensures n <= Round(x)
  {
  }
}
