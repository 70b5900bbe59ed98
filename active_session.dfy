/**
 * The live session record (context/ActiveSessionContext.tsx): restoring it on load, the
 * one-second clock that advances it according to its status, and every action the rest
 * of the application can apply to it. Each action is a record-to-record update, the
 * shape React's `setState(prev => ...)` gives it in the source.
 */
module ActiveSession {
  import opened Wrappers
  import opened Types
  import Strings

  const DAY_MS: int := 86400000

  /** The record before any session: status completed, every counter zero. */
  const DEFAULT_STATE: ActiveSessionState := ActiveSessionState(
    Completed, 0, 0, 0, 0, 0, Breakdown(0, 0, 0, 0), 0.0, 0.0, Finite(0), 0, [], false)

  /** The record's own consistency: seconds split into focus and distraction, the distraction
   *  count equal to the sum of its buckets, and the longest streak at least the current one. */
  predicate Inv(s: ActiveSessionState) {
    && s.focusTime >= 0 && s.distractionTime >= 0
    && s.elapsedTime == s.focusTime + s.distractionTime
    && s.breakdown.phone >= 0 && s.breakdown.leftDesk >= 0
    && s.breakdown.socialMedia >= 0 && s.breakdown.other >= 0
    && s.distractionCount == s.breakdown.Total()
    && 0.0 <= s.currentStreak <= s.longestStreak
    && s.breaksTaken >= 0
  }

  function BreakSeconds(schedule: BreakSchedule): int { schedule.breakDuration * 60 }
  function WorkSeconds(schedule: BreakSchedule): int { schedule.workInterval * 60 }

  /** `nextBreakIn <= 1`; never true of `Infinity`. */
  predicate Due(c: Countdown) { c.Finite? && c.seconds <= 1 }

  /** `nextBreakIn - 1`; `Infinity` stays `Infinity`. */
  function Decrement(c: Countdown): (r: Countdown)
    ensures r.Unbounded? <==> c.Unbounded?
    ensures c.Finite? ==> r.seconds == c.seconds - 1
  {
    match c
    case Finite(n) => Finite(n - 1)
    case Unbounded => Unbounded
  }

  /**
   * The saved record is used on load only when its status is one of the running ones and it
   * started less than a day before `now`; otherwise the default record is used. `saved` is
   * `None` when nothing was saved or the saved text did not parse.
   */
  function Restore(saved: Option<ActiveSessionState>, now: int): (r: ActiveSessionState)
    ensures saved.Some? && saved.value.status != Completed && now - saved.value.startTime < DAY_MS ==>
              r == saved.value
    ensures !(saved.Some? && saved.value.status != Completed && now - saved.value.startTime < DAY_MS) ==>
              r == DEFAULT_STATE
  {
    if saved.Some? && saved.value.status != Completed && now - saved.value.startTime < DAY_MS
    then saved.value
    else DEFAULT_STATE
  }

  /**
   * On mount, a completed or never-started record is replaced by a fresh running session
   * that started at `now`; the countdown to the first break is the work interval, or
   * `Infinity` when the schedule has no breaks.
   */
  function AutoStart(s: ActiveSessionState, schedule: BreakSchedule, now: int): (r: ActiveSessionState)
    ensures Inv(s) ==> Inv(r)
    ensures s.status == Completed || s.startTime == 0 ==>
              && r.status == Active && r.startTime == now
              && r.elapsedTime == 0 && r.focusTime == 0 && r.distractionCount == 0
              && r.chatHistory == [] && r.breaksTaken == 0
              && (r.nextBreakIn.Unbounded? <==> schedule.kind == NoBreaks)
              && (schedule.kind != NoBreaks ==> r.nextBreakIn == Finite(WorkSeconds(schedule)))
    ensures s.status != Completed && s.startTime != 0 ==> r == s
  {
    if s.status == Completed || s.startTime == 0 then
      DEFAULT_STATE.(
        status := Active,
        startTime := now,
        nextBreakIn := if schedule.kind != NoBreaks then Finite(WorkSeconds(schedule)) else Unbounded)
    else s
  }

  /** One second while focused: either the break falls due, or one more second of focus. */
  function ActiveTick(s: ActiveSessionState, schedule: BreakSchedule): (r: ActiveSessionState)
    ensures Inv(s) ==> Inv(r)
    ensures Due(s.nextBreakIn) && schedule.kind != NoBreaks ==>
              r == s.(status := OnBreak, nextBreakIn := Finite(BreakSeconds(schedule)), breaksTaken := s.breaksTaken + 1)
    ensures !(Due(s.nextBreakIn) && schedule.kind != NoBreaks) ==>
              && r.status == s.status
              && r.elapsedTime == s.elapsedTime + 1 && r.focusTime == s.focusTime + 1
              && r.distractionTime == s.distractionTime
              && r.nextBreakIn == Decrement(s.nextBreakIn)
              && r.currentStreak == s.currentStreak + 1.0 / 60.0
              && r.longestStreak >= r.currentStreak && r.longestStreak >= s.longestStreak
              && (r.longestStreak == r.currentStreak || r.longestStreak == s.longestStreak)
              && r.distractionCount == s.distractionCount && r.breakdown == s.breakdown
    ensures !(Due(s.nextBreakIn) && schedule.kind != NoBreaks) ==>
              r.(elapsedTime := s.elapsedTime, focusTime := s.focusTime, nextBreakIn := s.nextBreakIn,
                 currentStreak := s.currentStreak, longestStreak := s.longestStreak) == s
  {
    if Due(s.nextBreakIn) && schedule.kind != NoBreaks then
      s.(status := OnBreak, nextBreakIn := Finite(BreakSeconds(schedule)), breaksTaken := s.breaksTaken + 1)
    else
      var streak := s.currentStreak + 1.0 / 60.0;
      s.(elapsedTime := s.elapsedTime + 1,
         focusTime := s.focusTime + 1,
         nextBreakIn := Decrement(s.nextBreakIn),
         currentStreak := streak,
         longestStreak := if s.longestStreak >= streak then s.longestStreak else streak)
  }

  /** One second while distracted: elapsed and distraction time grow; the break countdown is paused. */
  function DistractedTick(s: ActiveSessionState): (r: ActiveSessionState)
    ensures Inv(s) ==> Inv(r)
    ensures r.elapsedTime == s.elapsedTime + 1 && r.distractionTime == s.distractionTime + 1
    ensures r.focusTime == s.focusTime && r.nextBreakIn == s.nextBreakIn && r.status == s.status
    ensures r.(elapsedTime := s.elapsedTime, distractionTime := s.distractionTime) == s
  {
    s.(elapsedTime := s.elapsedTime + 1, distractionTime := s.distractionTime + 1)
  }

  /** One second of break: the countdown runs down, and at its end focus resumes with a fresh work interval. */
  function BreakTick(s: ActiveSessionState, schedule: BreakSchedule): (r: ActiveSessionState)
    ensures Inv(s) ==> Inv(r)
    ensures Due(s.nextBreakIn) ==> r == s.(status := Active, nextBreakIn := Finite(WorkSeconds(schedule)))
    ensures !Due(s.nextBreakIn) ==> r == s.(nextBreakIn := Decrement(s.nextBreakIn))
    ensures r.elapsedTime == s.elapsedTime && r.focusTime == s.focusTime
  {
    if Due(s.nextBreakIn) then s.(status := Active, nextBreakIn := Finite(WorkSeconds(schedule)))
    else s.(nextBreakIn := Decrement(s.nextBreakIn))
  }

  /** The break-end beep plays exactly on the tick that ends a break. */
  predicate BeepOnTick(s: ActiveSessionState) {
    s.status == OnBreak && Due(s.nextBreakIn)
  }

  /** The beep condition holds exactly when the session is on a break and the next tick makes it active. */
  lemma BeepEndsBreak(s: ActiveSessionState, schedule: BreakSchedule)
    ensures BeepOnTick(s) <==> s.status == OnBreak && Tick(s, schedule).status == Active
  {
    if s.status == OnBreak {
      assert Tick(s, schedule) == BreakTick(s, schedule);
    }
  }

  /** The interval installed for the current status; paused and completed sessions have none. */
  function Tick(s: ActiveSessionState, schedule: BreakSchedule): (r: ActiveSessionState)
    ensures Inv(s) ==> Inv(r)
    ensures s.status == Paused || s.status == Completed ==> r == s
    ensures r.elapsedTime == s.elapsedTime || r.elapsedTime == s.elapsedTime + 1
    ensures r.focusTime - s.focusTime == (if s.status == Active then r.elapsedTime - s.elapsedTime else 0)
  {
    match s.status
    case Active => ActiveTick(s, schedule)
    case Distracted => DistractedTick(s)
    case OnBreak => BreakTick(s, schedule)
    case _ => s
  }

  function Ticks(s: ActiveSessionState, schedule: BreakSchedule, n: nat): ActiveSessionState
    decreases n
  {
    if n == 0 then s else Ticks(Tick(s, schedule), schedule, n - 1)
  }

  /**
   * A running work interval ends on schedule: from a focused state whose countdown reads
   * `k` seconds, the first `k - 1` ticks are focus and the `k`-th starts the break.
   */
  lemma {:induction false} WorkIntervalEndsInBreak(s: ActiveSessionState, schedule: BreakSchedule, k: nat)
    requires s.status == Active && s.nextBreakIn == Finite(k) && k >= 1 && schedule.kind != NoBreaks
    ensures var r := Ticks(s, schedule, k);
            && r.status == OnBreak
            && r.focusTime == s.focusTime + k - 1
            && r.elapsedTime == s.elapsedTime + k - 1
            && r.breaksTaken == s.breaksTaken + 1
            && r.nextBreakIn == Finite(BreakSeconds(schedule))
    decreases k
  {
    if k == 1 {
      assert Ticks(s, schedule, 1) == Tick(s, schedule);
    } else {
      var s' := Tick(s, schedule);
      assert s'.status == Active && s'.nextBreakIn == Finite(k - 1);
      WorkIntervalEndsInBreak(s', schedule, k - 1);
    }
  }

  /** A break of `k` seconds ends after exactly `k` ticks, with a fresh work interval and no time counted. */
  lemma {:induction false} BreakEndsAfterCountdown(s: ActiveSessionState, schedule: BreakSchedule, k: nat)
    requires s.status == OnBreak && s.nextBreakIn == Finite(k) && k >= 1
    ensures var r := Ticks(s, schedule, k);
            && r.status == Active
            && r.nextBreakIn == Finite(WorkSeconds(schedule))
            && r.elapsedTime == s.elapsedTime && r.focusTime == s.focusTime
    decreases k
  {
    if k == 1 {
      assert Ticks(s, schedule, 1) == Tick(s, schedule);
    } else {
      var s' := Tick(s, schedule);
      assert s'.status == OnBreak && s'.nextBreakIn == Finite(k - 1);
      BreakEndsAfterCountdown(s', schedule, k - 1);
    }
  }

  function Message(role: Role, content: string, now: int): ChatMessage {
    ChatMessage(Strings.NatToString(if now >= 0 then now else 0), role, content, now)
  }

  /** The user's message is appended to the chat history, stamped with `now`. */
  function SendMessage(s: ActiveSessionState, content: string, now: int): (r: ActiveSessionState)
    ensures Inv(s) ==> Inv(r)
    ensures |r.chatHistory| == |s.chatHistory| + 1
    ensures r.chatHistory[..|s.chatHistory|] == s.chatHistory
    ensures var m := r.chatHistory[|s.chatHistory|]; m.role == UserRole && m.content == content && m.timestamp == now
    ensures r.(chatHistory := s.chatHistory) == s
  {
    s.(chatHistory := s.chatHistory + [Message(UserRole, content, now)])
  }

  /** The assistant's reply is appended to the chat history, stamped with `now`. */
  function AddAiMessage(s: ActiveSessionState, content: string, now: int): (r: ActiveSessionState)
    ensures Inv(s) ==> Inv(r)
    ensures |r.chatHistory| == |s.chatHistory| + 1
    ensures r.chatHistory[..|s.chatHistory|] == s.chatHistory
    ensures var m := r.chatHistory[|s.chatHistory|]; m.role == AiRole && m.content == content && m.timestamp == now
    ensures r.(chatHistory := s.chatHistory) == s
  {
    s.(chatHistory := s.chatHistory + [Message(AiRole, content, now)])
  }

  /** Focused or distracted sessions pause; a paused one resumes; a break or finished session is untouched. */
  function TogglePause(s: ActiveSessionState): (r: ActiveSessionState)
    ensures Inv(s) ==> Inv(r)
    ensures s.status == Active || s.status == Distracted ==> r.status == Paused
    ensures s.status == Paused ==> r.status == Active
    ensures s.status == OnBreak || s.status == Completed ==> r == s
    ensures r.(status := s.status) == s
  {
    if s.status == Active || s.status == Distracted then s.(status := Paused)
    else if s.status == Paused then s.(status := Active)
    else s
  }

  /** Two presses of pause/resume restore a focused or paused session. */
  lemma TogglePauseTwice(s: ActiveSessionState)
    requires s.status == Active || s.status == Paused
    ensures TogglePause(TogglePause(s)) == s
  {
  }

  function EndSession(s: ActiveSessionState): (r: ActiveSessionState)
    ensures Inv(s) ==> Inv(r)
    ensures r.status == Completed && r.(status := s.status) == s
  {
    s.(status := Completed)
  }

  function Minimize(s: ActiveSessionState): (r: ActiveSessionState)
    ensures Inv(s) ==> Inv(r)
    ensures r.isMinimized && r.(isMinimized := s.isMinimized) == s
  {
    s.(isMinimized := true)
  }

  function Maximize(s: ActiveSessionState): (r: ActiveSessionState)
    ensures Inv(s) ==> Inv(r)
    ensures !r.isMinimized && r.(isMinimized := s.isMinimized) == s
  {
    s.(isMinimized := false)
  }

  /** Starting a break by hand: status break, the countdown set to the break length, one more break taken. */
  function StartBreak(s: ActiveSessionState, schedule: BreakSchedule): (r: ActiveSessionState)
    ensures Inv(s) ==> Inv(r)
    ensures r.status == OnBreak && r.nextBreakIn == Finite(BreakSeconds(schedule))
    ensures r.breaksTaken == s.breaksTaken + 1
    ensures r.(status := s.status, nextBreakIn := s.nextBreakIn, breaksTaken := s.breaksTaken) == s
  {
    s.(status := OnBreak, nextBreakIn := Finite(BreakSeconds(schedule)), breaksTaken := s.breaksTaken + 1)
  }

  /** Ending a break by hand: focus resumes with a fresh work interval. */
  function EndBreak(s: ActiveSessionState, schedule: BreakSchedule): (r: ActiveSessionState)
    ensures Inv(s) ==> Inv(r)
    ensures r.status == Active && r.nextBreakIn == Finite(WorkSeconds(schedule))
    ensures r.(status := s.status, nextBreakIn := s.nextBreakIn) == s
  {
    s.(status := Active, nextBreakIn := Finite(WorkSeconds(schedule)))
  }

  /** Five more minutes of break; `Infinity` stays `Infinity`. */
  function ExtendBreak(s: ActiveSessionState): (r: ActiveSessionState)
    ensures Inv(s) ==> Inv(r)
    ensures s.nextBreakIn.Finite? ==> r.nextBreakIn == Finite(s.nextBreakIn.seconds + 300)
    ensures s.nextBreakIn.Unbounded? ==> r.nextBreakIn.Unbounded?
    ensures r.(nextBreakIn := s.nextBreakIn) == s
  {
    match s.nextBreakIn
    case Finite(n) => s.(nextBreakIn := Finite(n + 300))
    case Unbounded => s
  }

  datatype Bucket = Phone | LeftDesk | SocialMedia | Other

  /**
   * A free-form distraction type falls in the first bucket whose key word it contains,
   * compared in lower case: phone or texting, then left or missing, then social.
   */
  function Classify(rawType: string): (b: Bucket)
    ensures var t := Strings.Lower(rawType);
            && (b == Phone <==> Strings.Contains(t, "phone") || Strings.Contains(t, "texting"))
            && (b == LeftDesk <==> !(b == Phone) && (Strings.Contains(t, "left") || Strings.Contains(t, "missing")))
            && (b == SocialMedia <==> !(b == Phone) && !(b == LeftDesk) && Strings.Contains(t, "social"))
  {
    var t := Strings.Lower(rawType);
    if Strings.Contains(t, "phone") || Strings.Contains(t, "texting") then Phone
    else if Strings.Contains(t, "left") || Strings.Contains(t, "missing") then LeftDesk
    else if Strings.Contains(t, "social") then SocialMedia
    else Other
  }

  /** A desktop notification is raised only with permission granted and the page in the background:
   *  always for a phone, and for leaving the desk only in hardcore mode. */
  function ShouldNotify(b: Bucket, mode: string, permissionGranted: bool, pageHasFocus: bool): (n: bool)
    ensures n ==> permissionGranted && !pageHasFocus
    ensures n ==> b == Phone || (b == LeftDesk && mode == HARDCORE)
    ensures permissionGranted && !pageHasFocus && (b == Phone || (b == LeftDesk && mode == HARDCORE)) ==> n
  {
    permissionGranted && !pageHasFocus && (b == Phone || (b == LeftDesk && mode == HARDCORE))
  }

  /** The count kept in bucket `b` of the breakdown. */
  function Count(d: Breakdown, b: Bucket): int {
    match b
    case Phone => d.phone
    case LeftDesk => d.leftDesk
    case SocialMedia => d.socialMedia
    case Other => d.other
  }

  /** `[type]: (prev[type] || 0) + 1` over the spread breakdown: the one bucket rises, the other three stay. */
  function Bump(d: Breakdown, b: Bucket): (r: Breakdown)
    ensures Count(r, b) == Count(d, b) + 1
    ensures forall c :: c != b ==> Count(r, c) == Count(d, c)
    ensures r.Total() == d.Total() + 1
  {
    match b
    case Phone => d.(phone := d.phone + 1)
    case LeftDesk => d.(leftDesk := d.leftDesk + 1)
    case SocialMedia => d.(socialMedia := d.socialMedia + 1)
    case Other => d.(other := d.other + 1)
  }

  /** A distraction: status distracted, one more distraction in total and in its bucket, streak reset. */
  function RegisterDistraction(s: ActiveSessionState, rawType: string): (r: ActiveSessionState)
    ensures Inv(s) ==> Inv(r)
    ensures r.status == Distracted && r.currentStreak == 0.0
    ensures r.distractionCount == s.distractionCount + 1
    ensures r.breakdown == Bump(s.breakdown, Classify(rawType))
    ensures Count(r.breakdown, Classify(rawType)) == Count(s.breakdown, Classify(rawType)) + 1
    ensures forall c :: c != Classify(rawType) ==> Count(r.breakdown, c) == Count(s.breakdown, c)
    ensures r.(status := s.status, distractionCount := s.distractionCount, currentStreak := s.currentStreak,
               breakdown := s.breakdown) == s
  {
    s.(status := Distracted,
       distractionCount := s.distractionCount + 1,
       currentStreak := 0.0,
       breakdown := Bump(s.breakdown, Classify(rawType)))
  }

  /** The end of an intervention: status active, whatever it was before. */
  function ResolveDistraction(s: ActiveSessionState): (r: ActiveSessionState)
    ensures Inv(s) ==> Inv(r)
    ensures r.status == Active && r.(status := s.status) == s
  {
    s.(status := Active)
  }

  /** `resolveDistraction` does not look at the status: a paused session or one on a break resumes focus. */
  lemma ResolveResumesPausedSession(s: ActiveSessionState)
    requires s.status == Paused || s.status == OnBreak
    ensures ResolveDistraction(s).status == Active
    ensures Tick(ResolveDistraction(s), BreakSchedule(NoBreaks, 0, 0)).focusTime == s.focusTime + 1
  {
  }

  /** `resetSession`: the default record, completed and never started, with every counter zero. */
  function ResetSession(): (r: ActiveSessionState)
    ensures r.status == Completed && r.startTime == 0 && r.chatHistory == [] && !r.isMinimized
    ensures r.elapsedTime == 0 && r.focusTime == 0 && r.distractionTime == 0
    ensures r.distractionCount == 0 && forall c :: Count(r.breakdown, c) == 0
    ensures r.currentStreak == 0.0 && r.longestStreak == 0.0
    ensures r.nextBreakIn == Finite(0) && r.breaksTaken == 0
  {
    DEFAULT_STATE
  }

  /** The reset record is consistent. */
  lemma ResetSessionConsistent()
    ensures Inv(ResetSession())
  {
  }

  /** Every action the application can apply to the record. */
  datatype Action =
    | TickAction
    | AutoStartAction(now: int)
    | SendMessageAction(content: string, now: int)
    | AddAiMessageAction(content: string, now: int)
    | TogglePauseAction
    | EndSessionAction
    | MinimizeAction
    | MaximizeAction
    | StartBreakAction
    | EndBreakAction
    | ExtendBreakAction
    | RegisterDistractionAction(rawType: string)
    | ResolveDistractionAction
    | ResetSessionAction

  function Apply(s: ActiveSessionState, schedule: BreakSchedule, a: Action): (r: ActiveSessionState)
    ensures Inv(s) ==> Inv(r)
    ensures !a.RegisterDistractionAction? ==> r.distractionCount == s.distractionCount || r.distractionCount == 0
    ensures !a.RegisterDistractionAction? && s.status != Distracted ==> r.status != Distracted
  {
    match a
    case TickAction => Tick(s, schedule)
    case AutoStartAction(now) => AutoStart(s, schedule, now)
    case SendMessageAction(c, now) => SendMessage(s, c, now)
    case AddAiMessageAction(c, now) => AddAiMessage(s, c, now)
    case TogglePauseAction => TogglePause(s)
    case EndSessionAction => EndSession(s)
    case MinimizeAction => Minimize(s)
    case MaximizeAction => Maximize(s)
    case StartBreakAction => StartBreak(s, schedule)
    case EndBreakAction => EndBreak(s, schedule)
    case ExtendBreakAction => ExtendBreak(s)
    case RegisterDistractionAction(t) => RegisterDistraction(s, t)
    case ResolveDistractionAction => ResolveDistraction(s)
    case ResetSessionAction => ResetSession()
  }

  function Run(s: ActiveSessionState, schedule: BreakSchedule, actions: seq<Action>): ActiveSessionState
    decreases |actions|
  {
    if actions == [] then s else Run(Apply(s, schedule, actions[0]), schedule, actions[1..])
  }

  /**
   * From any consistent record, any sequence of actions yields a consistent record: elapsed
   * time is always focus time plus distraction time, the distraction count always equals the
   * sum of its buckets, and the longest streak never falls below the current one.
   */
  lemma {:induction false} RunKeepsInv(s: ActiveSessionState, schedule: BreakSchedule, actions: seq<Action>)
    requires Inv(s)
    ensures Inv(Run(s, schedule, actions))
    decreases |actions|
  {
    if actions != [] {
      RunKeepsInv(Apply(s, schedule, actions[0]), schedule, actions[1..]);
    }
  }

  /**
   * Without `registerDistraction` nothing ever counts a distraction or enters the distracted
   * status: starting from a record with none, any run of the other actions leaves the count
   * at zero and the status anything but distracted.
   */
  lemma {:induction false} NoRegisterNoDistraction(s: ActiveSessionState, schedule: BreakSchedule, actions: seq<Action>)
    requires s.distractionCount == 0 && s.status != Distracted
    requires forall i :: 0 <= i < |actions| ==> !actions[i].RegisterDistractionAction?
    ensures Run(s, schedule, actions).distractionCount == 0
    ensures Run(s, schedule, actions).status != Distracted
    decreases |actions|
  {
    if actions != [] {
      var s' := Apply(s, schedule, actions[0]);
      NoRegisterNoDistraction(s', schedule, actions[1..]);
    }
  }

  /** `useActiveSession` outside its provider throws. */
  function UseActiveSession<C>(provided: Option<C>): (r: Result<C, string>)
    ensures r.Ok? <==> provided.Some?
    ensures provided.Some? ==> r.value == provided.value
  {
    match provided
    case Some(c) => Ok(c)
    case None => Err("useActiveSession must be used within an ActiveSessionProvider")
  }
}
