/**
 * The session-setup page (pages/SessionSetup.tsx): the break schedule kept consistent with
 * the duration, the break options offered, the duration label, applying an AI suggestion, and
 * the rule for moving on to the permissions step.
 */
module SessionSetup {
  import opened Wrappers
  import opened Types
  import opened Strings
  import DurationText
  import AiService
  import SessionConfigStore

  /** The session is shorter than the work interval the named schedule implies. */
  predicate TooShort(duration: int, schedule: BreakSchedule) {
    (schedule.kind == Pomodoro && duration < 25) || (schedule.kind == Extended && duration < 50)
  }

  /**
   * The validation effect: a pomodoro schedule in a session shorter than 25 minutes, or an
   * extended one in a session shorter than 50, becomes "no breaks" with the whole session as
   * its work interval.
   */
  function ValidatedSchedule(duration: int, schedule: BreakSchedule): (r: BreakSchedule)
    ensures TooShort(duration, schedule) ==> r == BreakSchedule(NoBreaks, duration, 0)
    ensures !TooShort(duration, schedule) ==> r == schedule
    // Afterwards no schedule asks for a work interval longer than the session.
    ensures r.kind == Pomodoro ==> duration >= 25
    ensures r.kind == Extended ==> duration >= 50
  {
    if schedule.kind == Pomodoro && duration < 25 then BreakSchedule(NoBreaks, duration, 0)
    else if schedule.kind == Extended && duration < 50 then BreakSchedule(NoBreaks, duration, 0)
    else schedule
  }

  /** The effect, as the configuration update it makes (none when the schedule is already valid). */
  function ValidateBreaks(config: SessionConfig): (c: SessionConfig)
    ensures c.breakSchedule == ValidatedSchedule(config.duration, config.breakSchedule)
    ensures c.(breakSchedule := config.breakSchedule) == config
  {
    var s := ValidatedSchedule(config.duration, config.breakSchedule);
    if s == config.breakSchedule then config
    else SessionConfigStore.UpdateConfig(config, SessionConfigStore.NO_UPDATE.(breakSchedule := Some(s)))
  }

  /** Running the effect again changes nothing. */
  lemma ValidateBreaksIdempotent(config: SessionConfig)
    ensures ValidateBreaks(ValidateBreaks(config)) == ValidateBreaks(config)
  {
  }

  /** One of the three break options: its schedule kind, work interval and break length. */
  datatype BreakOption = BreakOption(kind: BreakKind, work: int, breakMinutes: int)

  /** The options shown for a session of `duration` minutes. */
  function Options(duration: int): (o: seq<BreakOption>)
    ensures |o| == 3 && o[2].kind == NoBreaks && o[2].work == duration
  {
    [BreakOption(Pomodoro, 25, 5), BreakOption(Extended, 50, 10), BreakOption(NoBreaks, duration, 0)]
  }

  /** An option is greyed out when its work interval does not fit into the session; "no breaks" never is. */
  predicate IsDisabled(o: BreakOption, duration: int): (off: bool)
    ensures o.kind == NoBreaks || o.work <= duration ==> !off
  {
    o.work > duration && o.kind != NoBreaks
  }

  /** Clicking an option: a disabled one does nothing, any other becomes the schedule. */
  function SelectOption(config: SessionConfig, o: BreakOption): (c: SessionConfig)
    ensures IsDisabled(o, config.duration) ==> c == config
    ensures !IsDisabled(o, config.duration) ==>
              c == config.(breakSchedule := BreakSchedule(o.kind, if o.work == 0 then config.duration else o.work, o.breakMinutes))
  {
    if IsDisabled(o, config.duration) then config
    else SessionConfigStore.UpdateConfig(config, SessionConfigStore.NO_UPDATE.(breakSchedule :=
      Some(BreakSchedule(o.kind, if o.work == 0 then config.duration else o.work, o.breakMinutes))))
  }

  /** "No breaks" is never disabled, and the other two are disabled exactly when too long. */
  lemma DisabledOptions(duration: int)
    ensures !IsDisabled(Options(duration)[2], duration)
    ensures IsDisabled(Options(duration)[0], duration) <==> duration < 25
    ensures IsDisabled(Options(duration)[1], duration) <==> duration < 50
  {
  }

  /** From a validated configuration, every click on an option leaves one the validation effect keeps. */
  lemma SelectedScheduleIsValid(config: SessionConfig, k: nat)
    requires k < 3 && ValidateBreaks(config) == config
    ensures var c := SelectOption(config, Options(config.duration)[k]);
            ValidateBreaks(c) == c
  {
  }

  /** The duration label: "{h}h {m}m", "{h}h " when the minutes are zero, "{m}m" under an hour. */
  function FormatMinutes(minutes: nat): (r: string)
    ensures minutes < 60 ==> r == NatToString(minutes) + "m"
    ensures minutes >= 60 && minutes % 60 == 0 ==> r == NatToString(minutes / 60) + "h "
  {
    var hrs := minutes / 60;
    var mins := minutes % 60;
    if hrs > 0 then NatToString(hrs) + "h " + (if mins > 0 then NatToString(mins) + "m" else "")
    else NatToString(mins) + "m"
  }

  /** The label determines the duration: reading it back gives hours and minutes that add up to it. */
  lemma FormatMinutesRoundTrip(minutes: nat)
    ensures var p := DurationText.ReadHoursMinutes(FormatMinutes(minutes));
            p.Some? && p.value.0 * 60 + p.value.1 == minutes && p.value.1 < 60
  {
    var hrs := minutes / 60;
    var mins := minutes % 60;
    if hrs == 0 {
      DurationText.ReadMinutesOnly(mins);
    } else if mins == 0 {
      DurationText.ReadHoursOnly(hrs);
    } else {
      DurationText.ReadHoursAndMinutes(hrs, mins);
    }
  }

  /** What the suggestion panel shows after a suggestion arrives. */
  datatype Shown = Shown(reasoning: Option<string>, tips: Option<string>)

  /**
   * `handleGetSuggestion`: nothing happens without a goal or a signed-in user; otherwise the
   * suggestion is shown and its duration, mode and personality adopted, each replaced by
   * 25 / focused / supportive_friend when missing or falsy.
   */
  function ApplySuggestion(config: SessionConfig, signedIn: bool, s: AiService.Suggestion): (r: (SessionConfig, Option<Shown>))
    ensures config.workingOn == "" || !signedIn ==> r == (config, None)
    ensures config.workingOn != "" && signedIn ==>
              && r.1 == Some(Shown(s.reasoning, s.tips))
              && r.0.duration == (if s.duration.Some? && s.duration.value != 0 then s.duration.value else 25)
              && r.0.mode == (if s.mode.Some? && s.mode.value != "" then s.mode.value else FOCUSED)
              && r.0.personality == (if s.personality.Some? && s.personality.value != "" then s.personality.value else SUPPORTIVE_FRIEND)
              && r.0.(duration := config.duration, mode := config.mode, personality := config.personality) == config
  {
    if config.workingOn == "" || !signedIn then (config, None)
    else
      var duration := if s.duration.Some? && s.duration.value != 0 then s.duration.value else 25;
      var mode := if s.mode.Some? && s.mode.value != "" then s.mode.value else FOCUSED;
      var personality := if s.personality.Some? && s.personality.value != "" then s.personality.value else SUPPORTIVE_FRIEND;
      (SessionConfigStore.UpdateConfig(config, SessionConfigStore.NO_UPDATE.(duration := Some(duration), mode := Some(mode), personality := Some(personality))),
       Some(Shown(s.reasoning, s.tips)))
  }

  /** When the suggestion service fails, the session adopted is the standard 25-minute focused one. */
  lemma FailedSuggestionGivesStandardSession(config: SessionConfig, reply: AiService.Reply, parse: string -> Option<AiService.RawSuggestion>)
    requires config.workingOn != ""
    requires AiService.ParsedReply(reply, parse).None?
    ensures var r := ApplySuggestion(config, true, AiService.SuggestSessionConfig(reply, parse));
            r.0.duration == 25 && r.0.mode == FOCUSED && r.0.personality == SUPPORTIVE_FRIEND
  {
  }

  /** The "Continue to Permissions" button is enabled exactly when the goal has a non-whitespace character. */
  predicate CanContinue(config: SessionConfig): (ok: bool)
    ensures ok <==> exists i :: 0 <= i < |config.workingOn| && !IsWhitespace(config.workingOn[i])
  {
    TrimEmptyIffBlank(config.workingOn);
    Trim(config.workingOn) != ""
  }
}
