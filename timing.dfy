/**
 The Time column of the path table (main.py, lines 32 and 37): the interval
 `millisec / number_positions` is a true division, and row i is stamped with
 `round(i * interval)`. The arithmetic here is exact, so the product is
 written as the single quotient (i * millisec) / n, which `SameQuotient`
 shows to be the same number.
 */
module Timing {
  import opened PyRound

  /** `round(i * (millisec / n))`, the Time column of row i. */
  function RowTime(i: int, n: int, millisec: int): (t: int)
    requires n > 0
  {
    RoundHalfEven((i * millisec) as real / n as real)
  }

  /** The quotient RowTime rounds is i times the interval millisec / n. */
  lemma SameQuotient(i: int, n: int, millisec: int)
    requires n > 0
    ensures (i * millisec) as real / n as real == i as real * (millisec as real / n as real)
  {
  }

  /** The first row, i == 0, is stamped 0. */
  lemma RowTimeAtStart(n: int, millisec: int)
    requires n > 0
    ensures RowTime(0, n, millisec) == 0
  {
    RoundOfInt(0);
  }

  /** The closing row, i == n, is stamped with the whole duration. */
  lemma RowTimeAtEnd(n: int, millisec: int)
    requires n > 0
    ensures RowTime(n, n, millisec) == millisec
  {
    assert (n * millisec) as real / n as real == millisec as real;
    RoundOfInt(millisec);
  }

  lemma QuotientMonotone(a: int, b: int, n: int)
    requires a <= b && n > 0
    ensures a as real / n as real <= b as real / n as real
  {
  }

  /** For a non-negative duration the times never decrease along the rows. */
  lemma RowTimeMonotone(i: int, j: int, n: int, millisec: int)
    requires n > 0 && millisec >= 0 && i <= j
    ensures RowTime(i, n, millisec) <= RowTime(j, n, millisec)
  {
    assert i * millisec <= j * millisec;
    QuotientMonotone(i * millisec, j * millisec, n);
    RoundMonotone((i * millisec) as real / n as real, (j * millisec) as real / n as real);
  }

  /** When the interval is a whole number of milliseconds every row's time is exact. */
  lemma RowTimeWholeInterval(i: int, n: int, millisec: int)
    requires n > 0 && millisec % n == 0
    ensures RowTime(i, n, millisec) == i * (millisec / n)
  {
    var q := millisec / n;
    assert millisec == n * q;
    assert (i * millisec) as real / n as real == (i * q) as real;
    RoundOfInt(i * q);
  }
}
