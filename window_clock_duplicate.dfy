/** `current_30min_window` of the older `aemo_nem_data` package, a second
    implementation of the same window computation. */
module WindowClockDuplicate {
  import opened Wrappers
  import opened Time
  import WindowClock

  /** The start this copy's `if` / `elif` pair assigns; None stands for the
      variable left unassigned. */
  function WindowStart(now: int): Option<int>
  {
    var minute := Minute(now);
    if minute < 30 then
      Some(now - (minute * MicrosPerMinute + Second(now) * MicrosPerSecond + Microsecond(now)))
    else if minute >= 30 then
      Some(now - ((minute - 30) * MicrosPerMinute + Second(now) * MicrosPerSecond + Microsecond(now)))
    else
      None
  }

  /** The branches cover every minute, so the start is always assigned; it is
      the instant rounded down to a whole number of half hours. */
  lemma BranchesCoverAllMinutes(now: int)
    ensures WindowStart(now).Some?
    ensures WindowStart(now).value == now / ThirtyMinutes * ThirtyMinutes
  {
    HalfHourSplit(now);
  }

  function Current30MinWindow(now: int): (w: Window)
    ensures w.start <= now < w.end
    ensures w.end == w.start + ThirtyMinutes
    ensures Minute(w.start) == 0 || Minute(w.start) == 30
    ensures Second(w.start) == 0 && Microsecond(w.start) == 0
  {
    BranchesCoverAllMinutes(now);
    HalfHourFields(now / ThirtyMinutes);
    var start := WindowStart(now).value;
    Window(start, start + ThirtyMinutes)
  }

  /** Both packages compute the same window for every instant. */
  lemma AgreesWithPrimary(now: int)
    ensures Current30MinWindow(now) == WindowClock.Current30MinWindow(now)
  {
    BranchesCoverAllMinutes(now);
    WindowClock.BranchesCoverAllMinutes(now);
  }
}
