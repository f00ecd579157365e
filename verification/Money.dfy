/**
 Exact amounts and their rounding.  Rates and amounts are exact numbers, as big.Rat holds
 them; a stored amount is an integer count of units of 10^-10.
 */
module Money {

  const SCALE: real := 10000000000.0

  /** A NUMERIC column or parameter: missing, NaN or infinite, or a value. */
  datatype Numeric = Null | NotFinite | Finite(value: real)

  function Times(x: real, y: real): real {
    x * y
  }

  /** Half-up for what is not negative; what is negative is cut off towards zero. */
  function RoundHalfUp(x: real): int {
    if x >= 0.0 then (x + 0.5).Floor else -((-x).Floor)
  }

  /** The unit count of an exact amount. */
  function Units(x: real): int {
    RoundHalfUp(x * SCALE)
  }

  function FromUnits(n: int): real {
    n as real / SCALE
  }

  /** Rounds to ten decimals. */
  function Rounded(x: real): real {
    FromUnits(Units(x))
  }

  /** A value of at most ten decimals. */
  predicate Exact(x: real) {
    x * SCALE == (x * SCALE).Floor as real
  }

  /** Rounding by integer division with remainder, as it is done on the numerator and the denominator. */
  method RoundByDivision(num: int, den: int) returns (r: int)
    requires den > 0
    ensures r == RoundHalfUp(num as real / den as real)
  {
    // the quotient truncates towards zero, and the remainder has the sign of the numerator
    var quotient := if num >= 0 then num / den else -(-num / den);
    var remainder := num - quotient * den;
    r := quotient;
    if remainder * 2 >= den { r := r + 1; }
    DivisionRounds(num, den, quotient, remainder, r);
  }

  lemma DivisionRounds(num: int, den: int, quotient: int, remainder: int, r: int)
    requires den > 0
    requires quotient == (if num >= 0 then num / den else -(-num / den)) && remainder == num - quotient * den
    requires r == (if remainder * 2 >= den then quotient + 1 else quotient)
    ensures r == RoundHalfUp(num as real / den as real)
  {
    var x := num as real / den as real;
    if num >= 0 {
      assert 0 <= remainder < den;
      QuotientBetween(num, den, quotient, remainder);
    } else {
      var m := -num;
      var q, rem := m / den, m % den;
      QuotientBetween(m, den, q, rem);
      assert remainder == -rem <= 0;
      assert -x == m as real / den as real;
      assert (-x).Floor == q;
      assert x < 0.0;
    }
  }

  lemma ScaledOrder(f: real, k: real, d: real)
    requires d > 0.0
    ensures f < k <==> f * d < k * d
  {
    if f < k { assert (k - f) * d > 0.0; } else { assert (f - k) * d >= 0.0; }
  }

  lemma QuotientBetween(num: int, den: int, q: int, rem: int)
    requires den > 0 && num == q * den + rem && 0 <= rem < den
    ensures var x := num as real / den as real; q as real <= x < q as real + 1.0 && (rem * 2 >= den <==> x >= q as real + 0.5)
  {
    var d := den as real;
    var x := num as real / d;
    var f := x - q as real;
    FractionIs(num, den, q, rem, x);
    ScaledOrder(f, 0.0, d);
    ScaledOrder(f, 1.0, d);
    ScaledOrder(f, 0.5, d);
    assert 2.0 * (0.5 * d) == d;
    assert (rem * 2) as real == rem as real * 2.0;
  }

  lemma FractionIs(num: int, den: int, q: int, rem: int, x: real)
    requires den > 0 && num == q * den + rem && x == num as real / den as real
    ensures (x - q as real) * den as real == rem as real
  {
    assert x * den as real == num as real;
    assert (q * den) as real == q as real * den as real;
  }

  /** Rounding moves a value that is not negative by half a unit at most. */
  lemma RoundingError(x: real)
    requires x >= 0.0
    ensures x - 0.5 < RoundHalfUp(x) as real <= x + 0.5 && RoundHalfUp(x) >= 0
  {}

  lemma RoundingIsMonotone(x: real, y: real)
    requires x <= y
    ensures RoundHalfUp(x) <= RoundHalfUp(y)
  {}

  lemma RoundingKeepsIntegers(x: real, n: int)
    requires x == n as real
    ensures RoundHalfUp(x) == n
  {}

  lemma UnitsMonotone(x: real, y: real)
    requires x <= y
    ensures Units(x) <= Units(y) && Rounded(x) <= Rounded(y)
  {
    assert x * SCALE <= y * SCALE;
    RoundingIsMonotone(x * SCALE, y * SCALE);
  }

  /** A value of at most ten decimals survives rounding. */
  lemma ExactStays(x: real)
    requires Exact(x)
    ensures Rounded(x) == x
  {
    RoundingKeepsIntegers(x * SCALE, (x * SCALE).Floor);
  }

  lemma RoundedIsExact(x: real)
    ensures Exact(Rounded(x)) && (x >= 0.0 ==> Rounded(x) >= 0.0)
  {
    assert Rounded(x) * SCALE == Units(x) as real;
  }

  lemma TimesIsMonotone(x: real, y: real, k: real)
    requires x <= y && k >= 0.0
    ensures Times(x, k) <= Times(y, k) && Times(k, x) <= Times(k, y)
  {
    assert (y - x) * k >= 0.0;
  }
}
