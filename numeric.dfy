/** Exact-rational arithmetic used by the scorers: Python's `round`, `min` and `max`. */
module Numeric {

  /** `r` is a correct result of Python's `round(x)`: the nearest integer, and on a tie the even one. */
  predicate IsRoundingOf(x: real, r: int) {
    && r as real - 0.5 <= x <= r as real + 0.5
    && ((x == r as real - 0.5 || x == r as real + 0.5) ==> r % 2 == 0)
  }

  /** Python's `round` on one argument (banker's rounding), on an exact rational. */
  function RoundHalfEven(x: real): (r: int)
    ensures IsRoundingOf(x, r)
  {
    var f := x.Floor;
    var frac := x - f as real;
    if frac < 0.5 then f
    else if frac > 0.5 then f + 1
    else if f % 2 == 0 then f
    else f + 1
  }

  function MinReal(a: real, b: real): real { if a <= b then a else b }
  function MaxReal(a: real, b: real): real { if a >= b then a else b }
  function MinInt(a: int, b: int): int { if a <= b then a else b }

  /** Rounding is a function: any integer meeting the rounding rule is the one `RoundHalfEven` gives. */
  lemma RoundUnique(x: real, r: int)
    requires IsRoundingOf(x, r)
    ensures RoundHalfEven(x) == r
  {
  }

  /** An integer rounds to itself. */
  lemma RoundOfInteger(k: int)
    ensures RoundHalfEven(k as real) == k
  {
    RoundUnique(k as real, k);
  }

  /** Rounding never reverses the order of two values. */
  lemma RoundMonotone(x: real, y: real)
    requires x <= y
    ensures RoundHalfEven(x) <= RoundHalfEven(y)
  {
  }

  /** A value between two integers rounds to an integer between them. */
  lemma RoundBetween(x: real, lo: int, hi: int)
    requires lo as real <= x <= hi as real
    ensures lo <= RoundHalfEven(x) <= hi
  {
    RoundMonotone(lo as real, x);
    RoundMonotone(x, hi as real);
    RoundOfInteger(lo);
    RoundOfInteger(hi);
  }
}
