/**
 * The in-session control bar (components/SessionControls.tsx): which modes may end a session,
 * whether ending asks for confirmation, and the history record built when a session ends.
 * The session id and the clock are parameters.
 */
module SessionControls {
  import opened Wrappers
  import opened Types
  import JsNumber
  import ActiveSession

  /** What the control bar shows: the live session, the exit dialog, and the summary navigated to. */
  datatype Screen = Screen(session: ActiveSessionState, exitDialog: bool, summary: Option<SessionRecord>)

  /** The End button is greyed out in hardcore mode. */
  predicate EndDisabled(mode: string) {
    mode == HARDCORE
  }

  /** `focus / elapsed * 100`, or 0 before the first second. */
  function FocusPercentage(focus: int, elapsed: int): (p: real)
    ensures elapsed > 0 ==> p * elapsed as real == focus as real * 100.0
    ensures elapsed <= 0 ==> p == 0.0
  {
    if elapsed > 0 then (focus as real / elapsed as real) * 100.0 else 0.0
  }

  /** Seconds to whole minutes, rounded half up as `Math.round(s / 60)` does. */
  function Minutes(seconds: int): (m: int)
    ensures 60 * m - 30 <= seconds < 60 * m + 30
  {
    JsNumber.Round(seconds as real / 60.0)
  }

  /** The history record of the session in `s`, ended at `now` with id `sessionId`. */
  function BuildRecord(userId: string, s: ActiveSessionState, config: SessionConfig, sessionId: string, now: int): (r: SessionRecord)
    ensures r.sessionId == sessionId && r.userId == userId && r.startTime == s.startTime && r.endTime == now
    ensures 60 * r.totalDuration - 30 <= s.elapsedTime < 60 * r.totalDuration + 30
    ensures 60 * r.focusTime - 30 <= s.focusTime < 60 * r.focusTime + 30
    ensures 60 * r.distractedTime - 30 <= s.distractionTime < 60 * r.distractedTime + 30
    ensures r.focusPercentage == FocusPercentage(s.focusTime, s.elapsedTime)
    ensures r.distractionCount == s.distractionCount && r.breakdown == s.breakdown
    ensures r.longestStreak as real - 0.5 <= s.longestStreak < r.longestStreak as real + 0.5
    ensures r.mode == config.mode && r.workingOn == config.workingOn
  {
    SessionRecord(
      sessionId, userId, s.startTime, now,
      Minutes(s.elapsedTime), Minutes(s.focusTime), Minutes(s.distractionTime),
      FocusPercentage(s.focusTime, s.elapsedTime),
      s.distractionCount, s.breakdown,
      JsNumber.Round(s.longestStreak),
      config.mode, config.workingOn)
  }

  /** The focus percentage is a percentage whenever focus time is within elapsed time. */
  lemma PercentageBounded(focus: int, elapsed: int)
    requires 0 <= focus <= elapsed
    ensures 0.0 <= FocusPercentage(focus, elapsed) <= 100.0
  {
    if elapsed > 0 {
      var q := focus as real / elapsed as real;
      assert q * elapsed as real == focus as real;
    }
  }

  /**
   * For a record of a consistent session, the percentage is within [0, 100] and the rounded
   * focus and distracted minutes add up to the rounded total give or take one minute.
   */
  lemma RecordConsistent(userId: string, s: ActiveSessionState, config: SessionConfig, sessionId: string, now: int)
    requires ActiveSession.Inv(s)
    ensures var r := BuildRecord(userId, s, config, sessionId, now);
            && 0.0 <= r.focusPercentage <= 100.0
            && -1 <= r.totalDuration - (r.focusTime + r.distractedTime) <= 1
            && r.focusTime >= 0 && r.distractedTime >= 0
            && r.distractionCount == r.breakdown.Total()
  {
    PercentageBounded(s.focusTime, s.elapsedTime);
  }

  /** `confirmExit`: without a signed-in user nothing happens; otherwise the session is reset and its record shown. */
  function ConfirmExit(user: Option<User>, config: SessionConfig, sc: Screen, sessionId: string, now: int): (r: Screen)
    ensures user.None? ==> r == sc
    ensures user.Some? ==> r.summary == Some(BuildRecord(user.value.userId, sc.session, config, sessionId, now))
    ensures user.Some? ==> r.session == ActiveSession.ResetSession()
    ensures r.exitDialog == sc.exitDialog
  {
    if user.None? then sc
    else Screen(ActiveSession.ResetSession(), sc.exitDialog,
                Some(BuildRecord(user.value.userId, sc.session, config, sessionId, now)))
  }

  /** `handleEndSession`: hardcore ignores the request, chill leaves at once, the other modes ask first. */
  function HandleEndSession(user: Option<User>, config: SessionConfig, sc: Screen, sessionId: string, now: int): (r: Screen)
    ensures config.mode == HARDCORE ==> r == sc
    ensures config.mode == CHILL ==> r == ConfirmExit(user, config, sc, sessionId, now)
    ensures config.mode != HARDCORE && config.mode != CHILL ==> r == sc.(exitDialog := true)
  {
    if config.mode == HARDCORE then sc
    else if config.mode == CHILL then ConfirmExit(user, config, sc, sessionId, now)
    else sc.(exitDialog := true)
  }

  /** Ending is possible exactly outside hardcore: the session changes only in chill mode, and only with a user. */
  lemma EndRequestOutcome(user: Option<User>, config: SessionConfig, sc: Screen, sessionId: string, now: int)
    requires sc.session != ActiveSession.ResetSession()
    ensures var r := HandleEndSession(user, config, sc, sessionId, now);
            && (r.session != sc.session <==> config.mode == CHILL && user.Some?)
            && (r.exitDialog != sc.exitDialog ==> !EndDisabled(config.mode))
  {
  }

  /** A session ended with a user is completed and consistent, and the summary carries its old counters. */
  lemma ExitCompletesSession(user: User, config: SessionConfig, sc: Screen, sessionId: string, now: int)
    requires ActiveSession.Inv(sc.session)
    ensures var r := ConfirmExit(Some(user), config, sc, sessionId, now);
            && r.session.status == Completed && ActiveSession.Inv(r.session)
            && r.summary.Some? && r.summary.value.distractionCount == sc.session.distractionCount
            && 0.0 <= r.summary.value.focusPercentage <= 100.0
  {
    RecordConsistent(user.userId, sc.session, config, sessionId, now);
  }
}
