/** `current_30min_window` of the `aemonemdata` package: the 30-minute
    settlement window that contains a given instant. The clock reading is a
    parameter. */
module WindowClock {
  import opened Wrappers
  import opened Time

  /** The start the `if` / `elif` pair assigns. None stands for the variable
      left unassigned, which would happen if neither branch were taken. */
  function WindowStart(now: int): Option<int>
  {
    if Minute(now) < 30 then
      Some(now - (Minute(now) * MicrosPerMinute + Second(now) * MicrosPerSecond + Microsecond(now)))
    else if Minute(now) >= 30 then
      Some(now - ((Minute(now) - 30) * MicrosPerMinute + Second(now) * MicrosPerSecond + Microsecond(now)))
    else
      None
  }

  /** The two branches cover every minute, and the start they assign is the
      instant rounded down to a whole number of half hours. */
  lemma BranchesCoverAllMinutes(now: int)
    ensures WindowStart(now).Some?
    ensures WindowStart(now).value == now / ThirtyMinutes * ThirtyMinutes
  {
    HalfHourSplit(now);
  }

  function Current30MinWindow(now: int): (w: Window)
    ensures w.start <= now < w.end
    ensures w.end == w.start + ThirtyMinutes
    ensures Minute(w.start) == 0 || Minute(w.start) == 30
    ensures Second(w.start) == 0 && Microsecond(w.start) == 0
  {
    BranchesCoverAllMinutes(now);
    HalfHourFields(now / ThirtyMinutes);
    var start := WindowStart(now).value;
    Window(start, start + ThirtyMinutes)
  }

  /** Every instant of a window yields that same window. */
  lemma WindowStable(now: int, t: int)
    requires Current30MinWindow(now).start <= t < Current30MinWindow(now).end
    ensures Current30MinWindow(t) == Current30MinWindow(now)
  {
    BranchesCoverAllMinutes(now);
    BranchesCoverAllMinutes(t);
    HalfHourOf(now / ThirtyMinutes, t);
  }
}
