/** Rounding as Python's built-in `round` performs it on the value's exact
    magnitude: to the nearest integer, halves to the even neighbour. */
module Numbers {

  function RoundHalfEven(x: real): (r: int)
    ensures x - 0.5 <= r as real <= x + 0.5
    ensures r as real == x - 0.5 || r as real == x + 0.5 ==> r % 2 == 0
  {
    var f := x.Floor;
    var frac := x - f as real;
    if frac < 0.5 then f
    else if frac > 0.5 then f + 1
    else if f % 2 == 0 then f
    else f + 1
  }

  /** Rounding leaves integers alone. */
  lemma RoundHalfEvenExact(n: int)
    ensures RoundHalfEven(n as real) == n
  {
  }

  /** Rounding never reverses the order of two values. */
  lemma RoundHalfEvenMonotone(x: real, y: real)
    requires x <= y
    ensures RoundHalfEven(x) <= RoundHalfEven(y)
  {
    var fx, fy := x.Floor, y.Floor;
    if fx < fy {
      assert RoundHalfEven(x) <= fx + 1 <= fy <= RoundHalfEven(y);
    }
  }

  /** `round(x, 2)` expressed in hundredths. */
  function RoundHundredths(x: real): (r: int)
    ensures x * 100.0 - 0.5 <= r as real <= x * 100.0 + 0.5
  {
    RoundHalfEven(x * 100.0)
  }

  /** A probability rounded to hundredths stays a probability, so it fits a
      decimal field with three digits, two of them after the point. */
  lemma RoundHundredthsOfProbability(x: real)
    requires 0.0 <= x <= 1.0
    ensures 0 <= RoundHundredths(x) <= 100
  {
    RoundHalfEvenMonotone(0.0, x * 100.0);
    RoundHalfEvenMonotone(x * 100.0, 100.0);
    RoundHalfEvenExact(0);
    RoundHalfEvenExact(100);
  }

  /** Python's `int(x)` on a float: the integer part, rounding toward zero
      for negative values as well. */
  function Truncate(x: real): (r: int)
    ensures 0.0 <= x ==> r as real <= x < r as real + 1.0
    ensures x < 0.0 ==> r as real - 1.0 < x <= r as real
  {
    if x >= 0.0 then x.Floor else -((-x).Floor)
  }

  /** Truncation is symmetric about zero, unlike Dafny's floor. */
  lemma TruncateOdd(x: real)
    ensures Truncate(-x) == -Truncate(x)
  {
  }
}
