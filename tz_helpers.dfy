/**
 * Calendar arithmetic on UTC days. An instant is a count of milliseconds
 * since the Unix epoch; the clock is passed in as `now`.
 */
module TzHelpers {

  const DayMs: int := 86_400_000

  /** `toUtcMidnight(t)`: `setUTCHours(0, 0, 0, 0)` on a copy of `t`. */
  function ToUtcMidnight(t: int): (m: int)
    ensures m % DayMs == 0
    ensures m <= t < m + DayMs
  {
    t - t % DayMs
  }

  /** The start of a UTC day is determined by its bounds: it is the only multiple of a day in (t - day, t]. */
  lemma MidnightUnique(t: int, m: int)
    requires m % DayMs == 0 && m <= t < m + DayMs
    ensures ToUtcMidnight(t) == m
  {
    var r := ToUtcMidnight(t);
    assert (r - m) % DayMs == 0;
    assert -DayMs < r - m < DayMs;
  }

  lemma MidnightIdempotent(t: int)
    ensures ToUtcMidnight(ToUtcMidnight(t)) == ToUtcMidnight(t)
  {
    MidnightUnique(ToUtcMidnight(t), ToUtcMidnight(t));
  }

  lemma MidnightMonotone(t1: int, t2: int)
    requires t1 <= t2
    ensures ToUtcMidnight(t1) <= ToUtcMidnight(t2)
  {
    var m1, m2 := ToUtcMidnight(t1), ToUtcMidnight(t2);
    assert (m1 - m2) % DayMs == 0;
  }

  /** Adding whole days moves the day start by the same amount. */
  lemma MidnightShift(t: int, days: int)
    ensures ToUtcMidnight(t + days * DayMs) == ToUtcMidnight(t) + days * DayMs
  {
    var m := ToUtcMidnight(t) + days * DayMs;
    assert m % DayMs == 0;
    MidnightUnique(t + days * DayMs, m);
  }

  /** `isPastUtc(date)`: the day of `date` is before today. */
  predicate IsPastUtc(date: int, now: int)
    ensures IsPastUtc(date, now) ==> date < now
  {
    ToUtcMidnight(date) < ToUtcMidnight(now)
  }

  /** `isFutureUtc(date)`: the day of `date` is after today. */
  predicate IsFutureUtc(date: int, now: int)
    ensures IsFutureUtc(date, now) ==> date > now
  {
    ToUtcMidnight(date) > ToUtcMidnight(now)
  }

  /** The instant lies in today's UTC day. */
  predicate SameUtcDay(date: int, now: int) {
    ToUtcMidnight(now) <= date < ToUtcMidnight(now) + DayMs
  }

  /** An instant is in the past day, in the future day or today, and only one of the three. */
  lemma PastFutureToday(date: int, now: int)
    ensures !(IsPastUtc(date, now) && IsFutureUtc(date, now))
    ensures !IsPastUtc(date, now) && !IsFutureUtc(date, now) <==> SameUtcDay(date, now)
  {
    if SameUtcDay(date, now) {
      MidnightUnique(date, ToUtcMidnight(now));
    }
    if ToUtcMidnight(date) == ToUtcMidnight(now) {
      assert SameUtcDay(date, now);
    }
  }

  /** A date is past exactly when it lies before the start of today. */
  lemma PastIffBeforeToday(date: int, now: int)
    ensures IsPastUtc(date, now) <==> date < ToUtcMidnight(now)
    ensures IsFutureUtc(date, now) <==> date >= ToUtcMidnight(now) + DayMs
  {
    var d, n := ToUtcMidnight(date), ToUtcMidnight(now);
    if d < n {
      assert (n - d) % DayMs == 0;
    }
    if d > n {
      assert (d - n) % DayMs == 0;
    }
    if date >= n + DayMs {
      MidnightMonotone(n + DayMs, date);
      MidnightUnique(n + DayMs, n + DayMs);
    }
  }
}
