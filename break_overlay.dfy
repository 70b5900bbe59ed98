/**
 * The break screen (components/BreakOverlay.tsx): shown only while the session is on a
 * break, with the break's countdown as "m:ss", an "End Break" button except in hardcore
 * mode, and a "+5 Mins" button always.
 */
module BreakOverlay {
  import opened Wrappers
  import opened Strings
  import DurationText
  import opened Types
  import ActiveSession

  /** What the overlay draws: nothing, or the countdown and the buttons it offers. */
  datatype View = Hidden | Shown(time: string, canSkip: bool, canExtend: bool)

  /** The countdown as printed: `Infinity` gives "Infinity:NaN". */
  function Countdown(c: Countdown): (s: string)
    ensures c.Finite? && c.seconds >= 0 ==> DurationText.ReadClock(s) == Some((c.seconds / 60, c.seconds % 60))
    ensures c.Unbounded? <==> s == "Infinity:NaN"
  {
    match c
    case Finite(n) =>
      var t := DurationText.MinSec(n);
      assert t[0] != "Infinity:NaN"[0];
      t
    case Unbounded => "Infinity:NaN"
  }

  /** The overlay for a session state under a configured mode. */
  function Render(state: ActiveSessionState, mode: string): (v: View)
    ensures v.Shown? <==> state.status == OnBreak
    ensures v.Shown? ==> v.time == Countdown(state.nextBreakIn)
    ensures v.Shown? ==> (v.canSkip <==> mode != HARDCORE) && v.canExtend
  {
    if state.status != OnBreak then Hidden
    else Shown(Countdown(state.nextBreakIn), mode != HARDCORE, true)
  }

  /** The overlay's buttons. */
  datatype Button = EndBreakButton | ExtendButton

  /**
   * A press on an offered button, or `None` when the overlay does not show that button:
   * "End Break" ends the break, "+5 Mins" adds five minutes to it.
   */
  function Press(state: ActiveSessionState, schedule: BreakSchedule, mode: string, b: Button): (r: Option<ActiveSessionState>)
    ensures r.Some? <==> state.status == OnBreak && (b == EndBreakButton ==> mode != HARDCORE)
    ensures r.Some? && b == EndBreakButton ==> r.value.status == Active
    ensures r.Some? && b == ExtendButton ==> r.value.status == OnBreak
  {
    var v := Render(state, mode);
    match b
    case EndBreakButton => if v.Shown? && v.canSkip then Some(ActiveSession.EndBreak(state, schedule)) else None
    case ExtendButton => if v.Shown? && v.canExtend then Some(ActiveSession.ExtendBreak(state)) else None
  }

  /** In hardcore mode nothing on the overlay ends a break early: every press leaves the session on its break. */
  lemma HardcoreBreakCannotBeSkipped(state: ActiveSessionState, schedule: BreakSchedule, b: Button)
    requires state.status == OnBreak
    ensures Press(state, schedule, HARDCORE, b).Some? ==> Press(state, schedule, HARDCORE, b).value.status == OnBreak
    ensures Press(state, schedule, HARDCORE, ExtendButton).Some?
  {
  }

  /** "+5 Mins" shows five more minutes on the clock, with the seconds unchanged. */
  lemma ExtendShowsFiveMoreMinutes(state: ActiveSessionState, schedule: BreakSchedule, mode: string, n: nat)
    requires state.status == OnBreak && state.nextBreakIn == Finite(n)
    ensures var after := Press(state, schedule, mode, ExtendButton);
            after.Some? &&
            DurationText.ReadClock(Render(after.value, mode).time) == Some((n / 60 + 5, n % 60))
  {
    ExtendPress(state, schedule, mode, n);
    var c := Countdown(Finite(n + 300));
    assert DurationText.ReadClock(c) == Some(((n + 300) / 60, (n + 300) % 60));
    FiveMinutesLater(n);
  }

  lemma ExtendPress(state: ActiveSessionState, schedule: BreakSchedule, mode: string, n: nat)
    requires state.status == OnBreak && state.nextBreakIn == Finite(n)
    ensures var after := Press(state, schedule, mode, ExtendButton);
            after.Some? && Render(after.value, mode).time == Countdown(Finite(n + 300))
  {
    assert ActiveSession.ExtendBreak(state).nextBreakIn == Finite(n + 300);
  }

  lemma FiveMinutesLater(n: nat)
    ensures (n + 300) / 60 == n / 60 + 5 && (n + 300) % 60 == n % 60
  {
  }
}
