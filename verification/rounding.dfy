/** Python's `round` on numbers, idealised over the reals.

    `round(x, 0)` rounds to the nearest whole number and breaks an exact tie
    towards the even neighbour ("banker's rounding"); `round(x, 1)` does the
    same at the first decimal place. */
module Rounding {

  /** `n` is an integer nearest to `x`, and the even one on an exact tie. */
  predicate NearestHalfEven(x: real, n: int) {
    && x - 0.5 <= n as real <= x + 0.5
    && ((n as real - x == 0.5 || x - n as real == 0.5) ==> n % 2 == 0)
  }

  /** `round(x, 0)`, with its whole-number float result as an integer. */
  function RoundHalfEven(x: real): (n: int)
    ensures NearestHalfEven(x, n)
  {
    var f := x.Floor;
    var frac := x - f as real;
    if frac < 0.5 then f
    else if frac > 0.5 then f + 1
    else if f % 2 == 0 then f
    else f + 1
  }

  /** There is only one nearest-ties-to-even integer, so the definition above
      is the only possible one. */
  lemma NearestHalfEvenUnique(x: real, n: int)
    requires NearestHalfEven(x, n)
    ensures n == RoundHalfEven(x)
  {
  }

  /** Rounding never reverses an ordering. */
  lemma RoundHalfEvenMonotone(x: real, y: real)
    requires x <= y
    ensures RoundHalfEven(x) <= RoundHalfEven(y)
  {
  }

  /** A whole number is left unchanged. */
  lemma RoundHalfEvenOfInteger(k: int)
    ensures RoundHalfEven(k as real) == k
  {
    NearestHalfEvenUnique(k as real, k);
  }

  /** A value at or above a whole number `k` rounds to at least `k`. */
  lemma RoundHalfEvenAtLeast(x: real, k: int)
    requires k as real <= x
    ensures k <= RoundHalfEven(x)
  {
    RoundHalfEvenMonotone(k as real, x);
    RoundHalfEvenOfInteger(k);
  }

  /** `r` is a whole number of tenths. */
  predicate IsTenths(r: real) {
    (r * 10.0).Floor as real == r * 10.0
  }

  /** `round(x, 1)`: the nearest multiple of 0.1, ties to the even tenth. */
  function RoundTenths(x: real): (r: real)
    ensures IsTenths(r)
    ensures NearestHalfEven(x * 10.0, (r * 10.0).Floor)
    ensures x - 0.05 <= r <= x + 0.05
  {
    var n := RoundHalfEven(x * 10.0);
    assert (n as real / 10.0) * 10.0 == n as real;
    n as real / 10.0
  }

  /** Rounding to tenths never reverses an ordering. */
  lemma RoundTenthsMonotone(x: real, y: real)
    requires x <= y
    ensures RoundTenths(x) <= RoundTenths(y)
  {
    RoundHalfEvenMonotone(x * 10.0, y * 10.0);
  }

  /** A value at or above `k` tenths rounds to at least `k` tenths. */
  lemma RoundTenthsAtLeast(x: real, k: int)
    requires k as real / 10.0 <= x
    ensures k as real / 10.0 <= RoundTenths(x)
  {
    RoundHalfEvenAtLeast(x * 10.0, k);
  }
}
