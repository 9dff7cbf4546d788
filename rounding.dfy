/** Python's built-in `round(x)` on a number, with the value taken as an
    exact real: the nearest integer, and on a tie the even one. */
module Rounding {

  /** `n` is a correct rounding of `x`: within half of it, and even when
      `x` lies exactly half-way between two integers. */
  predicate NearestEven(x: real, n: int)
  {
    && x - 0.5 <= n as real <= x + 0.5
    && ((n as real - x == 0.5 || x - n as real == 0.5) ==> n % 2 == 0)
  }

  /** `round(x)`: nearest integer, ties to even. */
  function Round(x: real): (r: int)
    ensures x - 0.5 <= r as real <= x + 0.5
    ensures (r as real - x == 0.5 || x - r as real == 0.5) ==> r % 2 == 0
  {
    var f := x.Floor;
    var frac := x - f as real;
    if frac < 0.5 then f
    else if frac > 0.5 then f + 1
    else if f % 2 == 0 then f
    else f + 1
  }

  /** The two properties of `Round` pin its value down: no other integer
      is as near to `x` with the same tie rule. */
  lemma RoundUnique(x: real, n: int)
    requires x - 0.5 <= n as real <= x + 0.5
    requires (n as real - x == 0.5 || x - n as real == 0.5) ==> n % 2 == 0
    ensures n == Round(x)
  {
  }

  /** A whole number rounds to itself. */
  lemma RoundOfInt(n: int)
    ensures Round(n as real) == n
  {
    RoundUnique(n as real, n);
  }

  /** Shifting by an even integer shifts the rounded value by the same
      amount (an odd shift can change the way a tie goes). */
  lemma RoundShiftEven(x: real, k: int)
    ensures Round(x + (2 * k) as real) == Round(x) + 2 * k
  {
    var r := Round(x);
    RoundUnique(x + (2 * k) as real, r + 2 * k);
  }

  /** Rounding never reverses the order of two values. */
  lemma RoundMonotone(x: real, y: real)
    requires x <= y
    ensures Round(x) <= Round(y)
  {
  }
}
