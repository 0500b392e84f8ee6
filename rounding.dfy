/** Python's `round` on exact reals: to the nearest integer with ties to
    the even one, and to one or three decimal places by scaling. */
module Rounding {

  /** `round(x)`: a nearest integer to `x`, the even one on a tie. */
  function RoundHalfEven(x: real): (n: int)
    ensures -0.5 <= x - n as real <= 0.5
    ensures (x - n as real == 0.5 || x - n as real == -0.5) ==> n % 2 == 0
  {
    var f := x.Floor;
    var d := x - f as real;
    if d < 0.5 then f
    else if d > 0.5 then f + 1
    else if f % 2 == 0 then f
    else f + 1
  }

  /** The two properties above single out the result: no other integer
      is within one half of `x` and even on a tie. */
  lemma RoundHalfEvenUnique(x: real, m: int)
    requires -0.5 <= x - m as real <= 0.5
    requires (x - m as real == 0.5 || x - m as real == -0.5) ==> m % 2 == 0
    ensures m == RoundHalfEven(x)
  {
  }

  /** Rounding never reverses the order of two values. */
  lemma RoundHalfEvenMonotone(x: real, y: real)
    requires x <= y
    ensures RoundHalfEven(x) <= RoundHalfEven(y)
  {
    if x < y {
      var n, m := RoundHalfEven(x), RoundHalfEven(y);
      assert n as real <= x + 0.5 && y - 0.5 <= m as real;
    }
  }

  /** Adding an integer to the argument adds it to `round`'s result when the
      integer is even; ties are what an odd shift would move. */
  lemma RoundHalfEvenShiftEven(x: real, k: int)
    requires k % 2 == 0
    ensures RoundHalfEven(x + k as real) == RoundHalfEven(x) + k
  {
    var n := RoundHalfEven(x);
    RoundHalfEvenUnique(x + k as real, n + k);
  }

  /** `round(x, 1)`. */
  function Round1(x: real): (r: real)
    ensures -0.05 <= r - x <= 0.05
  {
    RoundHalfEven(x * 10.0) as real / 10.0
  }

  /** `round(x, 3)`. */
  function Round3(x: real): (r: real)
    ensures -0.0005 <= r - x <= 0.0005
  {
    RoundHalfEven(x * 1000.0) as real / 1000.0
  }

  lemma Round1Monotone(x: real, y: real)
    requires x <= y
    ensures Round1(x) <= Round1(y)
  {
    RoundHalfEvenMonotone(x * 10.0, y * 10.0);
  }

  lemma Round3Monotone(x: real, y: real)
    requires x <= y
    ensures Round3(x) <= Round3(y)
  {
    RoundHalfEvenMonotone(x * 1000.0, y * 1000.0);
  }

  /** A value already on the grid of one (three) decimal places is kept. */
  lemma Round1Exact(n: int)
    ensures Round1(n as real / 10.0) == n as real / 10.0
  {
    assert (n as real / 10.0) * 10.0 == n as real;
    RoundHalfEvenUnique(n as real, n);
  }

  lemma Round3Exact(n: int)
    ensures Round3(n as real / 1000.0) == n as real / 1000.0
  {
    assert (n as real / 1000.0) * 1000.0 == n as real;
    RoundHalfEvenUnique(n as real, n);
  }
}
