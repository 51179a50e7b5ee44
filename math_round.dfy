/**
  Rounding to a fixed number of decimal digits, as the .NET call
  `Math.Round(value, 5)` performs it: the value is scaled by 10^5, rounded to
  the nearest integer with ties going to the even neighbour (the default
  `MidpointRounding.ToEven`), and scaled back. Values are exact reals here;
  the representation error of binary doubles is not modelled.
 */
module MathRound {

  /** 10^5: one unit in the fifth decimal place is 1 / Scale. */
  const Scale: real := 100000.0

  /** Half a unit in the fifth decimal place: the largest error of Round5. */
  const HalfUnit: real := 0.000005

  /** True when `x` is an integer as a real. */
  predicate IsWhole(x: real) {
    x.Floor as real == x
  }

  /** True when `x` has at most five decimal digits. */
  predicate OnGrid5(x: real) {
    IsWhole(x * Scale)
  }

  /** Nearest integer to `x`; on a tie (a fraction of exactly one half) the even one. */
  function RoundHalfEven(x: real): (n: int)
    ensures x - 0.5 <= n as real <= x + 0.5
    ensures (n as real - x == 0.5 || x - n as real == 0.5) ==> n % 2 == 0
  {
    var f := x.Floor;
    var frac := x - f as real;
    if frac < 0.5 then f
    else if frac > 0.5 then f + 1
    else if f % 2 == 0 then f
    else f + 1
  }

  /** The two properties in RoundHalfEven's contract single out its result. */
  lemma RoundHalfEvenUnique(x: real, m: int)
    requires x - 0.5 <= m as real <= x + 0.5
    requires (m as real - x == 0.5 || x - m as real == 0.5) ==> m % 2 == 0
    ensures m == RoundHalfEven(x)
  {
    // Two integers within one half of x are equal or neighbours at distance
    // one half on either side of x: a tie, where both would have to be even.
  }

  /** Rounding an integer leaves it unchanged. */
  lemma RoundHalfEvenWhole(k: int)
    ensures RoundHalfEven(k as real) == k
  {
    assert (k as real).Floor == k;
  }

  /** Rounding to the nearest integer never reverses the order of two values. */
  lemma RoundHalfEvenMonotone(x: real, y: real)
    requires x <= y
    ensures RoundHalfEven(x) <= RoundHalfEven(y)
  {
    var fx, fy := x.Floor, y.Floor;
    if fx < fy {
      assert RoundHalfEven(x) <= fx + 1 <= fy <= RoundHalfEven(y);
    } else {
      assert fx == fy;
      assert x - fx as real <= y - fy as real;
    }
  }

  /** `Math.Round(x, 5)`: `x` rounded to five decimal digits, ties to even. */
  function Round5(x: real): (r: real)
    ensures OnGrid5(r)
    ensures -HalfUnit <= r - x <= HalfUnit
    ensures (r - x == HalfUnit || x - r == HalfUnit) ==> (r * Scale).Floor % 2 == 0
  {
    var n := RoundHalfEven(x * Scale);
    assert n as real / Scale * Scale == n as real;
    n as real / Scale
  }

  /** A value that already has at most five decimal digits is returned unchanged. */
  lemma Round5OnGrid(x: real)
    requires OnGrid5(x)
    ensures Round5(x) == x
  {
    var k := (x * Scale).Floor;
    assert k as real == x * Scale;
    RoundHalfEvenWhole(k);
    assert RoundHalfEven(x * Scale) == k;
  }

  /** Rounding twice is rounding once. */
  lemma Round5Idempotent(x: real)
    ensures Round5(Round5(x)) == Round5(x)
  {
    Round5OnGrid(Round5(x));
  }

  /** Rounding to five digits never reverses the order of two values. */
  lemma Round5Monotone(x: real, y: real)
    requires x <= y
    ensures Round5(x) <= Round5(y)
  {
    RoundHalfEvenMonotone(x * Scale, y * Scale);
  }

  /**
    Ties go to the even fifth digit, downwards and upwards. Both inputs are
    exact binary fractions (1/64 and 3/64), so they are ties in doubles too.
   */
  lemma Round5TiesToEven()
    ensures Round5(0.015625) == 0.01562
    ensures Round5(0.046875) == 0.04688
  {
    assert 0.015625 * Scale == 1562.5;
    assert (1562.5).Floor == 1562;
    assert 0.046875 * Scale == 4687.5;
    assert (4687.5).Floor == 4687;
  }
}
