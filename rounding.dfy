/**
 Python's built-in `round` on exact rationals: `round(x)` gives the nearest
 integer and breaks a tie towards the even neighbour; `round(x, 2)` does the
 same on the second decimal place.
 */
module PyRound {

  /** `round(x)` with no digits argument: an int, ties to even. */
  function RoundHalfEven(x: real): int
  {
    var up := (x + 0.5).Floor;
    if up as real == x + 0.5 && up % 2 != 0 then up - 1 else up
  }

  /** The integer nearest to x, the even one of the two on a tie. */
  ghost predicate NearestEven(x: real, k: int) {
    && x - 0.5 <= k as real <= x + 0.5
    && ((k as real - x == 0.5 || x - k as real == 0.5) ==> k % 2 == 0)
  }

  /** RoundHalfEven(x) is the nearest integer to x, the even one on a tie. */
  lemma RoundHalfEvenNearest(x: real)
    ensures NearestEven(x, RoundHalfEven(x))
  {
  }

  /** No other integer is nearest-even: the property determines the result. */
  lemma RoundHalfEvenUnique(x: real, k: int)
    requires NearestEven(x, k)
    ensures k == RoundHalfEven(x)
  {
    RoundHalfEvenNearest(x);
  }

  /** An integral value rounds to itself. */
  lemma RoundOfInt(k: int)
    ensures RoundHalfEven(k as real) == k
  {
    assert NearestEven(k as real, k);
    RoundHalfEvenUnique(k as real, k);
  }

  /** Rounding never reverses the order of two values. */
  lemma RoundMonotone(x: real, y: real)
    requires x <= y
    ensures RoundHalfEven(x) <= RoundHalfEven(y)
  {
    RoundHalfEvenNearest(x);
    RoundHalfEvenNearest(y);
  }

  /**
   `round(x, ndigits)`: the multiple of 10^-ndigits nearest to x, ties to an
   even multiple. Each digit scales x by 10 and the result back by 10.
   */
  function RoundDigits(x: real, ndigits: nat): real
    decreases ndigits
  {
    if ndigits == 0 then RoundHalfEven(x) as real
    else RoundDigits(x * 10.0, ndigits - 1) / 10.0
  }

  /** `round(x, 2)` */
  function Round2(x: real): real
  {
    RoundDigits(x, 2)
  }

  /**
   `round(x, 2)` is round(100 * x) hundredths, so it moves x by at most half
   a hundredth and keeps 0 at 0.
   */
  lemma Round2Nearest(x: real)
    ensures Round2(x) * 100.0 == RoundHalfEven(x * 100.0) as real
    ensures x - 0.005 <= Round2(x) <= x + 0.005
    ensures x == 0.0 ==> Round2(x) == 0.0
  {
    var hundredths := x * 10.0 * 10.0;
    assert Round2(x) == RoundDigits(x * 10.0, 1) / 10.0;
    assert RoundDigits(x * 10.0, 1) == RoundDigits(hundredths, 0) / 10.0;
    assert hundredths == x * 100.0;
    RoundHalfEvenNearest(hundredths);
    if x == 0.0 {
      RoundOfInt(0);
    }
  }
}
