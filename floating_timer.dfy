/**
 * The small timer shown while the app is minimized (components/FloatingTimer.tsx): elapsed
 * time as "m:ss" with minutes that keep counting past sixty, the distraction count, and the
 * minutes to the next break rounded up. Clicking it maximizes the app.
 */
module FloatingTimer {
  import opened Wrappers
  import opened Strings
  import DurationText
  import opened Types
  import ActiveSession
  import TimerStats

  datatype View = Hidden | Shown(time: string, distractions: int, nextBreak: string)

  /** "Break: {ceil(n/60)}m"'s figure; `Infinity` prints as "Infinity". */
  function BreakMinutes(c: Countdown): (s: string)
    ensures c.Finite? && c.seconds > -60 ==> DurationText.ReadMinutesSuffix(s + "m") == Some(TimerStats.NextBreakMinutes(c.seconds))
    ensures c.Finite? && c.seconds <= -60 ==> |s| > 0 && s[0] == '-'
    ensures c.Unbounded? <==> s == "Infinity"
  {
    match c
    case Finite(n) =>
      var m := TimerStats.NextBreakMinutes(n);
      if m >= 0 then
        DurationText.ReadMinutesSuffixOfPrinted(m);
        assert NatToString(m)[0] != 'I';
        IntToString(m)
      else
        assert IntToString(m)[0] == '-';
        IntToString(m)
    case Unbounded => "Infinity"
  }

  /** The timer for a session state. */
  function Render(state: ActiveSessionState): (v: View)
    ensures v.Shown? <==> state.isMinimized
    ensures v.Shown? ==> v.time == DurationText.MinSec(state.elapsedTime)
    ensures v.Shown? && state.elapsedTime >= 0 ==>
              DurationText.ReadClock(v.time) == Some((state.elapsedTime / 60, state.elapsedTime % 60))
    ensures v.Shown? ==> v.distractions == state.distractionCount && v.nextBreak == BreakMinutes(state.nextBreakIn)
  {
    if !state.isMinimized then Hidden
    else Shown(DurationText.MinSec(state.elapsedTime), state.distractionCount, BreakMinutes(state.nextBreakIn))
  }

  /** The clock's minutes are not wrapped at the hour: an hour and a half reads as ninety minutes. */
  lemma MinutesKeepCounting(state: ActiveSessionState)
    requires state.isMinimized && state.elapsedTime == 5400
    ensures DurationText.ReadClock(Render(state).time) == Some((90, 0))
  {
  }

  /** A click on the timer: the app is maximized, which hides the timer and changes nothing else. */
  function Click(state: ActiveSessionState): (r: ActiveSessionState)
    ensures Render(r).Hidden?
    ensures r.(isMinimized := state.isMinimized) == state
  {
    ActiveSession.Maximize(state)
  }

  /** Minimizing then clicking the timer gives back the state as it was when it was not minimized. */
  lemma MinimizeThenClick(state: ActiveSessionState)
    requires !state.isMinimized
    ensures Render(ActiveSession.Minimize(state)).Shown?
    ensures Click(ActiveSession.Minimize(state)) == state
  {
  }
}
