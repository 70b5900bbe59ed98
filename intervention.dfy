/**
 * The intervention state machine (hooks/useIntervention.ts). A detected distraction moves the
 * machine from IDLE to WARNING; the planned intervention may schedule an escalation timer that,
 * when it fires, sounds the alarm only if the machine is still in WARNING; "I'm Back" leads to
 * a recovery screen or straight to resolution.
 *
 * The hook's asynchronous steps are separate events applied one at a time: `Trigger` is the
 * synchronous start of `triggerIntervention`, `ApplyPlan` / `PlanFailed` its continuation once
 * the plan is settled, `FireTimer` a `setTimeout` callback, `TaskArrived` the prefetched task.
 * Timers are ids; `pending` maps every scheduled timer that has neither fired nor been cleared
 * to its kind, and `timerRef` is `warningTimeoutRef` (0 for null).
 */
module Intervention {
  import opened Wrappers
  import opened Types
  import AiService
  import ActiveSession

  datatype InterventionState = Idle | Warning | Alarm | Recovery

  /** The 6-second grace-period escalation of a plan, or the 5-second escalation after a failed plan. */
  datatype TimerKind = Escalate | Fallback

  function DelayMs(k: TimerKind): (ms: int)
    ensures ms == (if k.Escalate? then 6000 else 5000)
  {
    match k
    case Escalate => 6000
    case Fallback => 5000
  }

  /** The alarm's gain: `alertVolume ?? 80` percent of a 0.5 maximum. Only a missing volume defaults; 0 is silent. */
  function AlarmGain(alertVolume: Option<int>): (g: real)
    ensures alertVolume.None? ==> g == 0.4
    ensures alertVolume.Some? && 0 <= alertVolume.value <= 100 ==> 0.0 <= g <= 0.5
    ensures alertVolume.Some? ==> (g == 0.0 <==> alertVolume.value == 0)
    ensures alertVolume.Some? ==> g * 200.0 == alertVolume.value as real
  {
    var volumePercent := alertVolume.GetOr(80);
    volumePercent as real / 100.0 * 0.5
  }

  /**
   * The hook's own `speak`: a strict tone is spoken faster and lower (rate 1.2, pitch 0.8), a
   * gentle one slower and higher (0.9, 1.1); any other tone, or none, keeps the speech engine's
   * defaults, given here as `None`. The result is (rate, pitch).
   */
  function ToneDelivery(tone: Option<string>): (d: Option<(real, real)>)
    ensures d.Some? <==> tone == Some("strict") || tone == Some("gentle")
    ensures tone == Some("strict") ==> d.value.0 > 1.0 > d.value.1 && d == Some((1.2, 0.8))
    ensures tone == Some("gentle") ==> d.value.0 < 1.0 < d.value.1 && d == Some((0.9, 1.1))
  {
    if tone == Some("strict") then Some((1.2, 0.8))
    else if tone == Some("gentle") then Some((0.9, 1.1))
    else None
  }

  /** The fallback plan's firm tone, like any tone but strict and gentle, is spoken with the engine's defaults. */
  lemma FirmToneUsesDefaults()
    ensures ToneDelivery(Some(AiService.FALLBACK_PLAN.tone)) == None
  {
  }

  /**
   * What a firing timer does to the machine's state. The grace-period timer reads the state at
   * fire time and escalates only from WARNING; the fallback timer escalates unconditionally.
   * The second component says whether the alarm starts.
   */
  function OnFire(kind: TimerKind, current: InterventionState): (r: (InterventionState, bool))
    ensures kind.Escalate? ==> (r.1 <==> current == Warning)
    ensures kind.Escalate? && current != Warning ==> r.0 == current
    ensures r.1 <==> r.0 == Alarm && (kind.Fallback? || current == Warning)
    ensures kind.Fallback? ==> r == (Alarm, true)
  {
    match kind
    case Escalate => if current == Warning then (Alarm, true) else (current, false)
    case Fallback => (Alarm, true)
  }

  /** A grace-period timer never disturbs a user who already clicked "I'm Back" or resolved the intervention. */
  lemma EscalationSparesReturnedUser(current: InterventionState)
    requires current == Idle || current == Recovery
    ensures OnFire(Escalate, current) == (current, false)
  {
  }

  /** The recovery methods that have a screen of their own; any other method resolves at once. */
  predicate HasRecoveryScreen(recoveryMethod: string) {
    recoveryMethod == CONTEXT_AWARE || recoveryMethod == PHYSICAL_RESET || recoveryMethod == REFLECTION
  }

  /** The recovery method after a plan: a recommendation replaces the configured method when it is non-empty and differs. */
  function RecoveryAfterPlan(configured: string, plan: AiService.Plan): (m: string)
    ensures plan.recommendedRecovery == [] ==> m == configured
    ensures plan.recommendedRecovery != [] ==> m == plan.recommendedRecovery
  {
    if plan.recommendedRecovery != [] && plan.recommendedRecovery != configured then plan.recommendedRecovery
    else configured
  }

  /** A failed plan request yields the fixed plan: the recovery method becomes simple_click and the escalation timer is always scheduled. */
  lemma FailedPlanEscalates(configured: string, reply: AiService.Reply, parse: string -> Option<AiService.Plan>)
    requires AiService.ParsedReply(reply, parse).None?
    ensures AiService.PlanIntervention(reply, parse).shouldAlarm
    ensures RecoveryAfterPlan(configured, AiService.PlanIntervention(reply, parse)) == SIMPLE_CLICK
  {
  }

  class Machine {
    var state: InterventionState
    var distractionType: string
    var recoveryTask: Option<AiService.RecoveryTask>
    /** The session configuration's recovery method, which a plan may overwrite. */
    var recoveryMethod: string
    var timerRef: int
    var pending: map<int, TimerKind>
    var nextId: int
    var alarmOn: bool
    var gain: real

    ghost predicate Valid()
      reads this
    {
      && nextId >= 1
      && 0 <= timerRef < nextId
      && (forall id :: id in pending ==> 1 <= id < nextId)
    }

    /** At most one live timer, and it is the one the ref holds: what clearing the ref is meant to achieve. */
    ghost predicate SingleTimer()
      reads this
    {
      forall id :: id in pending ==> id == timerRef
    }

    constructor(recoveryMethod: string)
      ensures Valid() && SingleTimer()
      ensures state == Idle && distractionType == [] && recoveryTask == None
      ensures this.recoveryMethod == recoveryMethod
      ensures timerRef == 0 && pending == map[] && nextId == 1 && !alarmOn
    {
      state := Idle;
      distractionType := [];
      recoveryTask := None;
      this.recoveryMethod := recoveryMethod;
      timerRef := 0;
      pending := map[];
      nextId := 1;
      alarmOn := false;
      gain := 0.0;
    }

    /** `clearTimeout(warningTimeoutRef.current)` when the ref is set; the ref itself keeps its value. */
    method ClearRefTimer()
      requires Valid()
      modifies this
      ensures Valid()
      ensures pending == old(pending) - {old(timerRef)}
      ensures timerRef == old(timerRef) && nextId == old(nextId)
      ensures state == old(state) && distractionType == old(distractionType) && recoveryTask == old(recoveryTask)
      ensures recoveryMethod == old(recoveryMethod) && alarmOn == old(alarmOn) && gain == old(gain)
      ensures old(SingleTimer()) ==> pending == map[]
    {
      if timerRef != 0 {
        pending := pending - {timerRef};
      }
      if old(SingleTimer()) {
        assert forall id :: id in old(pending) ==> id == timerRef;
        assert forall id :: id !in pending;
        assert pending == map[];
      }
    }

    /** `stopAlarm`: silences the oscillator if there is one; calling it again changes nothing. */
    method StopAlarm()
      requires Valid()
      modifies this
      ensures Valid() && !alarmOn
      ensures state == old(state) && distractionType == old(distractionType) && recoveryTask == old(recoveryTask)
      ensures recoveryMethod == old(recoveryMethod) && timerRef == old(timerRef) && pending == old(pending)
      ensures nextId == old(nextId) && gain == old(gain)
    {
      if alarmOn {
        alarmOn := false;
      }
    }

    /** `startAlarm`: stops any sounding alarm first, so exactly one alarm sounds afterwards, at the configured gain. */
    method StartAlarm(alertVolume: Option<int>)
      requires Valid()
      modifies this
      ensures Valid() && alarmOn && gain == AlarmGain(alertVolume)
      ensures state == old(state) && distractionType == old(distractionType) && recoveryTask == old(recoveryTask)
      ensures recoveryMethod == old(recoveryMethod) && timerRef == old(timerRef) && pending == old(pending)
      ensures nextId == old(nextId)
    {
      StopAlarm();
      gain := AlarmGain(alertVolume);
      alarmOn := true;
    }

    /** The synchronous start of `triggerIntervention`: cancel the ref'd timer, record the type, show the warning. */
    method Trigger(kind: string)
      requires Valid()
      modifies this
      ensures Valid() && state == Warning && distractionType == kind
      ensures pending == old(pending) - {old(timerRef)}
      ensures timerRef == old(timerRef) && nextId == old(nextId)
      ensures recoveryTask == old(recoveryTask) && recoveryMethod == old(recoveryMethod)
      ensures alarmOn == old(alarmOn) && gain == old(gain)
      ensures old(SingleTimer()) ==> pending == map[] && SingleTimer()
    {
      ClearRefTimer();
      distractionType := kind;
      state := Warning;
    }

    /** Schedules a timer and stores its id in the ref, as `warningTimeoutRef.current = setTimeout(...)` does. */
    method Schedule(kind: TimerKind)
      requires Valid()
      modifies this
      ensures Valid()
      ensures timerRef == old(nextId) && nextId == old(nextId) + 1
      ensures pending == old(pending)[old(nextId) := kind]
      ensures state == old(state) && distractionType == old(distractionType) && recoveryTask == old(recoveryTask)
      ensures recoveryMethod == old(recoveryMethod) && alarmOn == old(alarmOn) && gain == old(gain)
    {
      timerRef := nextId;
      pending := pending[nextId := kind];
      nextId := nextId + 1;
    }

    /**
     * The continuation of `triggerIntervention` once its plan has arrived, as written: adopt a
     * different recommended recovery, ask for a task prefetch for context_aware, and schedule the
     * grace-period timer when the plan wants an alarm, without cancelling a timer the ref still
     * holds.
     */
    method ApplyPlan(plan: AiService.Plan) returns (prefetch: bool)
      requires Valid()
      modifies this
      ensures Valid()
      ensures prefetch <==> plan.recommendedRecovery == CONTEXT_AWARE
      ensures recoveryMethod == RecoveryAfterPlan(old(recoveryMethod), plan)
      ensures plan.shouldAlarm ==> timerRef == old(nextId) && pending == old(pending)[old(nextId) := Escalate]
      ensures !plan.shouldAlarm ==> timerRef == old(timerRef) && pending == old(pending)
      ensures nextId == old(nextId) + (if plan.shouldAlarm then 1 else 0)
      ensures state == old(state) && distractionType == old(distractionType) && recoveryTask == old(recoveryTask)
      ensures alarmOn == old(alarmOn) && gain == old(gain)
    {
      if plan.recommendedRecovery != [] && plan.recommendedRecovery != recoveryMethod {
        recoveryMethod := plan.recommendedRecovery;
      }
      prefetch := plan.recommendedRecovery == CONTEXT_AWARE;
      if plan.shouldAlarm {
        Schedule(Escalate);
      }
    }

    /** `ApplyPlan` as the hook's own comment intends it: the ref'd timer is cancelled before a new one is stored. */
    method ApplyPlanClearingRef(plan: AiService.Plan) returns (prefetch: bool)
      requires Valid()
      modifies this
      ensures Valid()
      ensures prefetch <==> plan.recommendedRecovery == CONTEXT_AWARE
      ensures recoveryMethod == RecoveryAfterPlan(old(recoveryMethod), plan)
      ensures plan.shouldAlarm ==> timerRef == old(nextId) && pending == (old(pending) - {old(timerRef)})[old(nextId) := Escalate]
      ensures !plan.shouldAlarm ==> timerRef == old(timerRef) && pending == old(pending)
      ensures nextId == old(nextId) + (if plan.shouldAlarm then 1 else 0)
      ensures state == old(state) && distractionType == old(distractionType) && recoveryTask == old(recoveryTask)
      ensures alarmOn == old(alarmOn) && gain == old(gain)
      ensures old(SingleTimer()) ==> SingleTimer()
    {
      if plan.recommendedRecovery != [] && plan.recommendedRecovery != recoveryMethod {
        recoveryMethod := plan.recommendedRecovery;
      }
      prefetch := plan.recommendedRecovery == CONTEXT_AWARE;
      if plan.shouldAlarm {
        ClearRefTimer();
        Schedule(Escalate);
      }
    }

    /** The `catch` branch of `triggerIntervention`: schedule the 5-second unconditional escalation. */
    method PlanFailed()
      requires Valid()
      modifies this
      ensures Valid()
      ensures timerRef == old(nextId) && pending == old(pending)[old(nextId) := Fallback]
      ensures nextId == old(nextId) + 1
      ensures state == old(state) && distractionType == old(distractionType) && recoveryTask == old(recoveryTask)
      ensures recoveryMethod == old(recoveryMethod) && alarmOn == old(alarmOn) && gain == old(gain)
    {
      Schedule(Fallback);
    }

    /** The prefetched recovery task arrives. */
    method TaskArrived(task: AiService.RecoveryTask)
      requires Valid()
      modifies this
      ensures Valid() && recoveryTask == Some(task)
      ensures state == old(state) && distractionType == old(distractionType) && recoveryMethod == old(recoveryMethod)
      ensures timerRef == old(timerRef) && pending == old(pending) && nextId == old(nextId)
      ensures alarmOn == old(alarmOn) && gain == old(gain)
    {
      recoveryTask := Some(task);
    }

    /**
     * A live timer fires: it leaves the pending set and acts as `OnFire` says. A cleared timer
     * does nothing. The timer's callback closes over the `startAlarm` of the render in which the
     * intervention was triggered, so `alertVolume` is the volume configured at trigger time,
     * not the one in effect when the timer fires.
     */
    method FireTimer(id: int, alertVolume: Option<int>)
      requires Valid()
      modifies this
      ensures Valid()
      ensures id !in old(pending) ==> pending == old(pending) && state == old(state) && alarmOn == old(alarmOn) && gain == old(gain)
      ensures id in old(pending) ==>
                && pending == old(pending) - {id}
                && state == OnFire(old(pending)[id], old(state)).0
                && (OnFire(old(pending)[id], old(state)).1 ==> alarmOn && gain == AlarmGain(alertVolume))
                && (!OnFire(old(pending)[id], old(state)).1 ==> alarmOn == old(alarmOn) && gain == old(gain))
      ensures timerRef == old(timerRef) && nextId == old(nextId)
      ensures distractionType == old(distractionType) && recoveryTask == old(recoveryTask) && recoveryMethod == old(recoveryMethod)
      ensures old(SingleTimer()) ==> SingleTimer()
    {
      if id in pending {
        var kind := pending[id];
        pending := pending - {id};
        var (next, sound) := OnFire(kind, state);
        if sound {
          StartAlarm(alertVolume);
        }
        state := next;
      }
    }

    /** `resolveIntervention`: cancel and forget the timer, silence the alarm, clear the episode, and set the session active. */
    method Resolve(session: ActiveSessionState) returns (session': ActiveSessionState)
      requires Valid()
      modifies this
      ensures Valid() && state == Idle && distractionType == [] && recoveryTask == None && !alarmOn
      ensures timerRef == 0 && pending == old(pending) - {old(timerRef)} && nextId == old(nextId)
      ensures recoveryMethod == old(recoveryMethod)
      ensures old(SingleTimer()) ==> pending == map[]
      ensures session' == ActiveSession.ResolveDistraction(session)
    {
      ClearRefTimer();
      timerRef := 0;
      StopAlarm();
      state := Idle;
      distractionType := [];
      recoveryTask := None;
      session' := ActiveSession.ResolveDistraction(session);
    }

    /** `handleImBack`: cancel the timer and the alarm, then open the recovery screen when the method has one, or resolve. */
    method HandleImBack(session: ActiveSessionState) returns (session': ActiveSessionState)
      requires Valid()
      modifies this
      ensures Valid() && !alarmOn && timerRef == 0
      ensures pending == old(pending) - {old(timerRef)} && nextId == old(nextId)
      ensures recoveryMethod == old(recoveryMethod)
      ensures HasRecoveryScreen(old(recoveryMethod)) ==>
                state == Recovery && session' == session
                && distractionType == old(distractionType) && recoveryTask == old(recoveryTask)
      ensures !HasRecoveryScreen(old(recoveryMethod)) ==>
                state == Idle && session' == ActiveSession.ResolveDistraction(session)
                && distractionType == [] && recoveryTask == None
    {
      ClearRefTimer();
      timerRef := 0;
      StopAlarm();
      if HasRecoveryScreen(recoveryMethod) {
        state := Recovery;
        session' := session;
      } else {
        session' := Resolve(session);
      }
    }

    /** The unmount cleanup: cancel the ref'd timer and silence the alarm. */
    method Unmount()
      requires Valid()
      modifies this
      ensures Valid() && !alarmOn
      ensures pending == old(pending) - {old(timerRef)} && nextId == old(nextId)
      ensures state == old(state) && timerRef == old(timerRef)
      ensures old(SingleTimer()) ==> pending == map[]
    {
      ClearRefTimer();
      StopAlarm();
    }
  }

  /**
   * A plan that arrives after its episode was resolved and a new one began leaves two
   * escalation timers live: trigger, "False Alarm", trigger again, then both plans arrive.
   * Resolving afterwards cancels only the second; the first still fires.
   */
  method TwoPlansLeaveTwoTimers(plan: AiService.Plan, session: ActiveSessionState) returns (m: Machine)
    requires plan.shouldAlarm
    ensures m.Valid()
    ensures m.pending == map[1 := Escalate, 2 := Escalate]
    ensures !m.SingleTimer()
  {
    m := new Machine(SIMPLE_CLICK);
    m.Trigger("phone");
    var _ := m.Resolve(session);
    m.Trigger("phone");
    var _ := m.ApplyPlan(plan);
    var _ := m.ApplyPlan(plan);
    assert 1 in m.pending && m.timerRef == 2;
  }

  /** With the ref'd timer cancelled before each new one is stored, the same events leave a single live timer. */
  method TwoPlansClearingRef(plan: AiService.Plan, session: ActiveSessionState) returns (m: Machine)
    requires plan.shouldAlarm
    ensures m.Valid() && m.SingleTimer()
    ensures m.pending == map[2 := Escalate]
  {
    m := new Machine(SIMPLE_CLICK);
    m.Trigger("phone");
    var _ := m.Resolve(session);
    m.Trigger("phone");
    var _ := m.ApplyPlanClearingRef(plan);
    assert m.pending == map[1 := Escalate] && m.timerRef == 1;
    var _ := m.ApplyPlanClearingRef(plan);
    assert m.pending == (map[1 := Escalate] - {1})[2 := Escalate];
    assert map[1 := Escalate] - {1} == map[];
  }
}
