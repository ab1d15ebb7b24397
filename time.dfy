/** Instants are whole microseconds since the Unix epoch (UTC). The calendar
    fields below are the ones a timezone-aware Python `datetime` reports;
    Euclidean division on a positive divisor is floor division, so they are
    right for instants before the epoch too. */
module Time {
  const MicrosPerSecond: int := 1_000_000
  const MicrosPerMinute: int := 60_000_000
  const MicrosPerHour: int := 3_600_000_000
  const FiveMinutes: int := 300_000_000
  const ThirtyMinutes: int := 1_800_000_000

  /** A settlement window: the half-open interval [start, end). */
  datatype Window = Window(start: int, end: int)

  function Microsecond(t: int): (us: int)
    ensures 0 <= us < MicrosPerSecond
  {
    t % MicrosPerSecond
  }

  function Second(t: int): (s: int)
    ensures 0 <= s < 60
  {
    (t / MicrosPerSecond) % 60
  }

  function Minute(t: int): (m: int)
    ensures 0 <= m < 60
  {
    (t / MicrosPerSecond / 60) % 60
  }

  /** Whole hours since the epoch. */
  function Hours(t: int): int
  {
    t / MicrosPerSecond / 60 / 60
  }

  /** Euclidean division is determined by its quotient and remainder. */
  lemma DivModUnique(x: int, d: int, q: int, r: int)
    requires 0 < d && 0 <= r < d && x == q * d + r
    ensures x / d == q && x % d == r
  {
    var q0, r0 := x / d, x % d;
    assert x == q0 * d + r0;
    if q0 < q {
      assert (q - q0) * d == r0 - r;
      MulAtLeast(q - q0, d);
    } else if q0 > q {
      assert (q0 - q) * d == r - r0;
      MulAtLeast(q0 - q, d);
    }
  }

  lemma MulAtLeast(a: int, d: int)
    requires a >= 1 && d > 0
    ensures a * d >= d
  {
    assert a * d == (a - 1) * d + d;
  }

  /** An instant is its hours, minutes, seconds and microseconds put back together. */
  lemma Decompose(t: int)
    ensures t == Hours(t) * MicrosPerHour + Minute(t) * MicrosPerMinute
               + Second(t) * MicrosPerSecond + Microsecond(t)
  {
    var s := t / MicrosPerSecond;
    var m := s / 60;
    assert t == s * MicrosPerSecond + Microsecond(t);
    assert s == m * 60 + Second(t);
    assert m == Hours(t) * 60 + Minute(t);
  }

  /** How an instant splits into whole half hours and an offset into the
      current half hour, for each half of the hour. */
  lemma HalfHourSplit(t: int)
    ensures Minute(t) < 30 ==>
      t / ThirtyMinutes == 2 * Hours(t) &&
      t % ThirtyMinutes == Minute(t) * MicrosPerMinute + Second(t) * MicrosPerSecond + Microsecond(t)
    ensures Minute(t) >= 30 ==>
      t / ThirtyMinutes == 2 * Hours(t) + 1 &&
      t % ThirtyMinutes == (Minute(t) - 30) * MicrosPerMinute + Second(t) * MicrosPerSecond + Microsecond(t)
  {
    Decompose(t);
    if Minute(t) < 30 {
      var off := Minute(t) * MicrosPerMinute + Second(t) * MicrosPerSecond + Microsecond(t);
      DivModUnique(t, ThirtyMinutes, 2 * Hours(t), off);
    } else {
      var off := (Minute(t) - 30) * MicrosPerMinute + Second(t) * MicrosPerSecond + Microsecond(t);
      DivModUnique(t, ThirtyMinutes, 2 * Hours(t) + 1, off);
    }
  }

  /** A whole number of half hours falls on minute 0 or 30 with no seconds. */
  lemma HalfHourFields(q: int)
    ensures Microsecond(q * ThirtyMinutes) == 0
    ensures Second(q * ThirtyMinutes) == 0
    ensures Minute(q * ThirtyMinutes) == (if q % 2 == 0 then 0 else 30)
  {
    var t := q * ThirtyMinutes;
    DivModUnique(t, MicrosPerSecond, q * 1800, 0);
    DivModUnique(q * 1800, 60, q * 30, 0);
    assert q == 2 * (q / 2) + q % 2;
    DivModUnique(q * 30, 60, q / 2, (q % 2) * 30);
  }

  /** Every instant of the half hour that starts at q * ThirtyMinutes lies in half hour q. */
  lemma HalfHourOf(q: int, t: int)
    requires q * ThirtyMinutes <= t < q * ThirtyMinutes + ThirtyMinutes
    ensures t / ThirtyMinutes == q
  {
    DivModUnique(t, ThirtyMinutes, q, t - q * ThirtyMinutes);
  }
}
