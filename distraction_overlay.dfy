/**
 * The distraction overlay (components/DistractionOverlay.tsx): which recovery challenge a
 * RECOVERY state shows, what the WARNING and ALARM screens offer, and the label of a detected
 * distraction type.
 */
module DistractionOverlay {
  import opened Types
  import ActiveSession
  import Intervention

  /** The six recovery screens. */
  datatype Variant = ContextTask | PhysicalReset | Reflection | MathEasy | MathHard | SimpleClick

  /** The method a configured name selects; any name outside the table falls back to the simple click. */
  function VariantOf(recoveryMethod: string): (v: Variant)
    ensures recoveryMethod == CONTEXT_AWARE <==> v == ContextTask
    ensures recoveryMethod == PHYSICAL_RESET <==> v == PhysicalReset
    ensures recoveryMethod == REFLECTION <==> v == Reflection
    ensures recoveryMethod == MATH_EASY <==> v == MathEasy
    ensures recoveryMethod == MATH_HARD <==> v == MathHard
  {
    if recoveryMethod == CONTEXT_AWARE then ContextTask
    else if recoveryMethod == PHYSICAL_RESET then PhysicalReset
    else if recoveryMethod == REFLECTION then Reflection
    else if recoveryMethod == MATH_EASY then MathEasy
    else if recoveryMethod == MATH_HARD then MathHard
    else SimpleClick
  }

  /** The progressive ladder: harder challenges as distractions accumulate. */
  function Ladder(count: int): (v: Variant)
    ensures count <= 1 <==> v == SimpleClick
    ensures count == 2 <==> v == Reflection
    ensures count == 3 <==> v == MathEasy
    ensures count >= 4 <==> v == MathHard
  {
    if count <= 1 then SimpleClick
    else if count == 2 then Reflection
    else if count == 3 then MathEasy
    else MathHard
  }

  /** The ladder applies to the progressive method, and to context-aware recovery in hardcore mode. */
  predicate UsesLadder(recoveryMethod: string, mode: string) {
    recoveryMethod == PROGRESSIVE || (mode == HARDCORE && recoveryMethod == CONTEXT_AWARE)
  }

  /** `renderRecoveryComponent`. */
  function SelectRecovery(recoveryMethod: string, mode: string, count: int): (v: Variant)
    ensures UsesLadder(recoveryMethod, mode) ==> v == Ladder(count)
    ensures !UsesLadder(recoveryMethod, mode) ==> v == VariantOf(recoveryMethod)
    // A hardcore session never gets the AI-generated task.
    ensures mode == HARDCORE ==> v != ContextTask
  {
    if UsesLadder(recoveryMethod, mode) then Ladder(count) else VariantOf(recoveryMethod)
  }

  /** The ladder is monotone: more distractions never give an easier rung. */
  function Difficulty(v: Variant): nat {
    match v
    case SimpleClick => 0
    case Reflection => 1
    case MathEasy => 2
    case MathHard => 3
    case _ => 0
  }

  lemma LadderMonotone(c1: int, c2: int)
    requires c1 <= c2
    ensures Difficulty(Ladder(c1)) <= Difficulty(Ladder(c2))
  {
  }

  /**
   * Since nothing calls `registerDistraction`, the distraction count of a session started from
   * the default record stays 0 whatever else happens, and the progressive method always shows
   * the simple click.
   */
  lemma ProgressiveStaysOnFirstRung(mode: string, schedule: BreakSchedule, actions: seq<ActiveSession.Action>)
    requires forall i :: 0 <= i < |actions| ==> !actions[i].RegisterDistractionAction?
    ensures SelectRecovery(PROGRESSIVE, mode, ActiveSession.Run(ActiveSession.DEFAULT_STATE, schedule, actions).distractionCount) == SimpleClick
  {
    ActiveSession.NoRegisterNoDistraction(ActiveSession.DEFAULT_STATE, schedule, actions);
  }

  /** The buttons a screen offers. */
  datatype Offer = ImBack | FalseAlarm

  /** What the overlay shows. */
  datatype View =
    | Hidden
    | WarningScreen(caption: string, offers: seq<Offer>)
    | AlarmScreen(offers: seq<Offer>)
    | RecoveryScreen(variant: Variant)

  /** `getDistractionLabel`. */
  function Label(distractionType: string): (l: string)
    ensures distractionType == "phone" <==> l == "Phone Detected"
    ensures distractionType == "leftDesk" <==> l == "Left Desk"
    ensures distractionType == "sleeping" <==> l == "Eyes Closed"
    ensures distractionType == "lookingAway" <==> l == "Looking Away"
    ensures distractionType == "conversation" <==> l == "Conversation"
    ensures distractionType !in {"phone", "leftDesk", "sleeping", "lookingAway", "conversation"} <==> l == "Distraction Detected"
  {
    match distractionType
    case "phone" => "Phone Detected"
    case "leftDesk" => "Left Desk"
    case "sleeping" => "Eyes Closed"
    case "lookingAway" => "Looking Away"
    case "conversation" => "Conversation"
    case _ => "Distraction Detected"
  }

  /** The overlay for an intervention state. */
  function Render(state: Intervention.InterventionState, distractionType: string, recoveryMethod: string, mode: string, count: int): (v: View)
    ensures state.Idle? <==> v.Hidden?
    ensures state.Warning? ==> v == WarningScreen(Label(distractionType), [ImBack, FalseAlarm])
    ensures state.Alarm? ==> v == AlarmScreen([ImBack])
    ensures state.Recovery? ==> v == RecoveryScreen(SelectRecovery(recoveryMethod, mode, count))
  {
    match state
    case Idle => Hidden
    case Warning => WarningScreen(Label(distractionType), [ImBack, FalseAlarm])
    case Alarm => AlarmScreen([ImBack])
    case Recovery => RecoveryScreen(SelectRecovery(recoveryMethod, mode, count))
  }

  /** Only the warning can be dismissed as a false alarm; once the alarm sounds, "I'm Back" is the only way out. */
  lemma FalseAlarmOnlyWhileWarning(state: Intervention.InterventionState, distractionType: string, recoveryMethod: string, mode: string, count: int)
    ensures var v := Render(state, distractionType, recoveryMethod, mode, count);
            (v.WarningScreen? && FalseAlarm in v.offers) <==> state.Warning?
  {
  }
}
