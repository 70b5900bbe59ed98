/**
 * The AI-task recovery screen (components/recovery/ContextTaskRecovery.tsx): it shows a task
 * (preloaded by the intervention, or fetched), takes a written answer and has it validated.
 * Awaited calls are given by their outcome: `None` for a call that threw.
 */
module ContextTaskRecovery {
  import opened Wrappers
  import opened Strings
  import AiService

  /** The screen's own fallback when fetching the task throws: a planning question naming the goal. */
  function FallbackTask(workingOn: string): (t: AiService.RecoveryTask)
    ensures t.taskType == "planning" && t.estimatedTime == 15 && t.expectedAnswerType == Some("shortText")
    ensures Contains(t.taskPrompt, workingOn)
  {
    var prompt := "What is the next immediate step for \"" + workingOn + "\"?";
    assert OccursAt(prompt, workingOn, 37);
    AiService.RecoveryTask("planning", prompt, Some("shortText"), 15)
  }

  /** What submitting a validated answer leads to. */
  datatype Verdict = Completes | Rejected(message: string)

  /** The validation result: accepted completes, rejected shows the feedback (or a default), and a thrown call completes. */
  function VerdictOf(validation: Option<AiService.Validation>): (v: Verdict)
    ensures validation.None? ==> v == Completes
    ensures validation.Some? ==> (v == Completes <==> validation.value.isValid)
    ensures v.Rejected? ==> v.message != ""
    ensures v.Rejected? && validation.value.feedback.Some? && validation.value.feedback.value != "" ==>
              v.message == validation.value.feedback.value
  {
    match validation
    case None => Completes
    case Some(r) =>
      if r.isValid then Completes
      else if r.feedback.Some? && r.feedback.value != "" then Rejected(r.feedback.value)
      else Rejected("Please provide a more specific answer.")
  }

  /** Answers of more than ten characters with at least three visible ones complete without a call. */
  lemma LongAnswerCompletes(answer: string, reply: AiService.Reply, parse: string -> Option<AiService.Validation>)
    requires |Trim(answer)| >= 3 && |answer| > 10
    ensures VerdictOf(Some(AiService.ValidateAnswer(answer, reply, parse).0)) == Completes
  {
  }

  /** An answer with fewer than three visible characters is rejected with "Too short.". */
  lemma ShortAnswerRejected(answer: string, reply: AiService.Reply, parse: string -> Option<AiService.Validation>)
    requires |Trim(answer)| < 3
    ensures VerdictOf(Some(AiService.ValidateAnswer(answer, reply, parse).0)) == Rejected("Too short.")
  {
  }

  /** A rejection of an answer with three or more visible characters is the service's own verdict. */
  lemma RejectionComesFromService(answer: string, reply: AiService.Reply, parse: string -> Option<AiService.Validation>)
    requires |Trim(answer)| >= 3
    requires VerdictOf(Some(AiService.ValidateAnswer(answer, reply, parse).0)).Rejected?
    ensures reply.Resolved? && |answer| <= 10
  {
    AiService.ValidationFailsOpen(answer, reply, parse);
  }

  class Screen {
    var task: Option<AiService.RecoveryTask>
    var answer: string
    var loading: bool
    var validating: bool
    var error: Option<string>
    /** `onComplete` has been called. */
    var completed: bool

    /** A preloaded task is shown at once; without one the screen starts loading. */
    constructor(preloaded: Option<AiService.RecoveryTask>)
      ensures task == preloaded && answer == "" && loading == preloaded.None?
      ensures !validating && error.None? && !completed
    {
      task := preloaded;
      answer := "";
      loading := preloaded.None?;
      validating := false;
      error := None;
      completed := false;
    }

    /**
     * The loading effect: a preloaded task is taken as is; otherwise a task is fetched only
     * when none is held, and a fetch that throws gives the screen's fallback task.
     */
    method Load(preloaded: Option<AiService.RecoveryTask>, workingOn: string, outcome: Option<AiService.RecoveryTask>)
      returns (fetched: bool)
      modifies this
      ensures fetched <==> preloaded.None? && old(task).None?
      ensures preloaded.Some? ==> task == preloaded && !loading
      ensures fetched ==> task == Some(outcome.GetOr(FallbackTask(workingOn))) && !loading
      ensures preloaded.None? && !fetched ==> task == old(task) && loading == old(loading)
      ensures answer == old(answer) && validating == old(validating) && error == old(error) && completed == old(completed)
    {
      fetched := false;
      if preloaded.Some? {
        task := preloaded;
        loading := false;
        return;
      }
      if task.None? {
        fetched := true;
        match outcome {
          case Some(t) => task := Some(t);
          case None => task := Some(FallbackTask(workingOn));
        }
        loading := false;
      }
    }

    /** Typing replaces the answer and clears the error. */
    method Edit(text: string)
      modifies this
      ensures answer == text && error.None?
      ensures task == old(task) && loading == old(loading) && validating == old(validating) && completed == old(completed)
    {
      answer := text;
      error := None;
    }

    /** The submit button is enabled when no validation runs and the answer has three characters. */
    predicate SubmitEnabled()
      reads this
    {
      !validating && |answer| >= 3
    }

    /**
     * `handleSubmit`: nothing without a task or with a blank answer; otherwise the answer is
     * validated and the screen completes or shows why it was rejected.
     */
    method Submit(validation: Option<AiService.Validation>) returns (sent: bool)
      modifies this
      ensures sent <==> old(task).Some? && Trim(old(answer)) != ""
      ensures !sent ==> validating == old(validating) && error == old(error) && completed == old(completed)
      ensures sent ==> !validating
      ensures sent && VerdictOf(validation) == Completes ==> completed && error.None?
      ensures sent && VerdictOf(validation).Rejected? ==> error == Some(VerdictOf(validation).message) && completed == old(completed)
      ensures task == old(task) && answer == old(answer) && loading == old(loading)
    {
      if task.None? || Trim(answer) == "" {
        return false;
      }
      sent := true;
      validating := true;
      error := None;
      match VerdictOf(validation) {
        case Completes => completed := true;
        case Rejected(message) => error := Some(message);
      }
      validating := false;
    }
  }

  /**
   * The button can be enabled while submitting does nothing: three spaces are long enough
   * for the button but blank for the handler.
   */
  method EnabledButBlank() returns (s: Screen, sent: bool)
    ensures s.SubmitEnabled() && !sent && !s.completed
  {
    s := new Screen(Some(AiService.FALLBACK_TASK));
    s.Edit("   ");
    assert IsWhitespace(s.answer[0]) && IsWhitespace(s.answer[1]) && IsWhitespace(s.answer[2]);
    TrimEmptyIffBlank(s.answer);
    sent := s.Submit(None);
  }
}
