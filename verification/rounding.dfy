/**
  Python's built-in `round`, stated over exact reals.

  `round(x)` returns the integer nearest to `x`, and on a tie (a fractional
  part of exactly one half) the even one. `round(x, 2)` rounds to the nearest
  multiple of 1/100 by the same rule. Python applies both to binary floats;
  here they are applied to the exact rational value instead.
 */
module Rounding {

  /** `round(x)`: nearest integer, ties to even. */
  function RoundHalfEven(x: real): (r: int)
    ensures -0.5 <= x - r as real <= 0.5
    ensures x - r as real == 0.5 || r as real - x == 0.5 ==> r % 2 == 0
  {
    var f := x.Floor;
    var d := x - f as real;
    if d < 0.5 then f
    else if d > 0.5 then f + 1
    else if f % 2 == 0 then f
    else f + 1
  }

  /** Off a tie, the rounded value is the only integer closer than one half. */
  lemma RoundNearestUnique(x: real, n: int)
    requires -0.5 < x - n as real < 0.5
    ensures RoundHalfEven(x) == n
  {
    var r := RoundHalfEven(x);
    assert -1.0 < (r - n) as real < 1.0;
  }

  /** Rounding an integer gives it back. */
  lemma RoundOfInteger(n: int)
    ensures RoundHalfEven(n as real) == n
  {
    RoundNearestUnique(n as real, n);
  }

  /** Rounding never reverses the order of two values. */
  lemma RoundMonotone(x: real, y: real)
    requires x <= y
    ensures RoundHalfEven(x) <= RoundHalfEven(y)
  {
    // a larger result on the left would need two ties, at neighbouring
    // integers of which only one is even
    var a, b := RoundHalfEven(x), RoundHalfEven(y);
    assert a <= b + 1;
    if a == b + 1 {
      assert false;
    }
  }

  /** `round(x, 2)`: nearest multiple of 1/100, ties to even. */
  function Round2(x: real): (r: real)
    ensures -0.005 <= x - r <= 0.005
    ensures (r * 100.0).Floor as real == r * 100.0
    ensures x - r == 0.005 || r - x == 0.005 ==> (r * 100.0).Floor % 2 == 0
  {
    var n := RoundHalfEven(x * 100.0);
    CentsOnGrid(n);
    n as real / 100.0
  }

  /** A whole number of cents, scaled back up by 100, is that whole number. */
  lemma CentsOnGrid(n: int)
    ensures (n as real / 100.0) * 100.0 == n as real
    ensures ((n as real / 100.0) * 100.0).Floor == n
  {
    assert (n as real / 100.0) * 100.0 == n as real;
  }

  /** `round(x, 2)` of a non-negative value is non-negative. */
  lemma Round2NonNegative(x: real)
    requires x >= 0.0
    ensures Round2(x) >= 0.0
  {
    RoundOfInteger(0);
    RoundMonotone(0.0, x * 100.0);
  }
}
