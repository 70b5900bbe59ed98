# FocusTree core, modelled in Dafny

FocusTree is a browser application for focused work sessions. A webcam loop watches for
distractions, an intervention state machine escalates from a warning to an alarm and then to a
recovery challenge, and a live session record counts focus, distraction and break time. A
chat assistant answers questions under an hourly quota. Finished sessions are summarised and
added to the user's profile, where total hours grow a tree and unlock achievements.

This project models that core, one Dafny module per source file:

- `AiService`: the model-service façade. It covers reply cleaning, timeouts, fallbacks, the
  recovery-task cache, answer validation and the chat request.
- `DistractionDetection`: the polling loop. It covers the motion score, polling delays,
  tolerance debouncing and back-off.
- `Intervention`: the warning, alarm and recovery state machine with its timers.
- `ActiveSession`: the live session record, its one-second clock and its actions.
- `SessionConfigStore`: the session configuration provider.
- `SessionControls`, `SessionSetup`, `Dashboard`, `BreakOverlay`, `FloatingTimer`,
  `TimerStats`, `SessionStats` and `TreeGrowth`: the screens' rules and readouts.
- `ContextTaskRecovery`, `ReflectionRecovery`, `MathChallenge`, `PhysicalReset` and
  `DistractionOverlay`: the recovery challenges, and the choice between them.
- `VoiceAssistant`, `AssistantChat` and `Tts`: the assistant's quota, queue and cache, the
  chat panel with its wake word, and voice selection.
- `Toasts`: the notification list.
- `UserService`: profile aggregation, achievements, quota pruning and dashboard totals.

Shared modules:

- `Wrappers` holds Option and Result.
- `Strings` and `JsNumber` hold the JavaScript string and number operations the code relies on.
- `DurationText` holds readers for the printed durations, which serve as the inverses that
  round-trip properties are stated against.
- `Types` holds the records of `types.ts`.

Imperative parts keep an imperative form:

- The intervention machine, the detector's refs, the assistant, the chat panel, the recovery
  screens, the toast list and the profile storage are classes whose methods update fields.
- Voice ranking sorts an array in place.
- The achievement check and the weekly totals are loops proved against specification functions.

Everything the browser or the network supplies arrives as a parameter: frames, replies of the
model service, `JSON.parse`, the clock, random draws, storage contents and write outcomes.

## Model

| member | source | states |
|---|---|---|
| AiService.CleanAndParse | services/aiService.ts:10-38 | missing or empty text is the "empty response" error; text that parses once cleaned is returned; otherwise, when both braces are present, the span from the first `{` to the last `}` is parsed and its value returned, or the "invalid JSON structure" error when it does not parse; "no JSON object" is reported exactly when a brace is missing |
| AiService.Clean | services/aiService.ts:14 | every ```json and then every ``` removed and the result trimmed: no longer than the reply, neither starting nor ending with whitespace, and holding no ``` at all (FencedReplyCleaned gives the value for a fenced reply) |
| AiService.CandidateSpan | services/aiService.ts:22-26 | when the last `}` comes before the first `{`, `substring` swaps its bounds and the span parsed lies strictly between the two braces |
| Strings.RemoveFenceLeavesNone | services/aiService.ts:14 | one left-to-right pass of `replace(/```/g, '')` leaves no ``` behind, whatever the input |
| AiService.FencedReplyCleaned | services/aiService.ts:14 | a reply wrapped in a ```json fence is cleaned to its trimmed text |
| AiService.FencedReplyParses | services/aiService.ts:10-18 | a reply such as "Sure! ```json {...} ```" is parsed to the object inside the fence |
| AiService.WithTimeout | services/aiService.ts:42-63 | a call that wins the race gives its value; otherwise the fallback when one is given; without one, the rejection's error or "Request timed out" |
| AiService.ParsedReply | services/aiService.ts:177-178 | a value exactly when the call resolved with text that cleans and parses |
| AiService.StripDataUrl | services/aiService.ts:149 | the result is a suffix of the frame, and the frame is unchanged unless it starts with a png, jpeg or jpg base64 data-URL header |
| AiService.StripJpegHeader | services/aiService.ts:149 | a jpeg data URL gives back its payload |
| AiService.ImagePayload | services/aiService.ts:149-166 | only the first frame, stripped, is sent; an empty list sends nothing |
| AiService.AnalyzeFrames | services/aiService.ts:139-189 | the parsed classification, or "not distracted" after a timeout, a rejection, a missing text or a parse failure |
| AiService.PlanIntervention | services/aiService.ts:191-223 | the parsed plan, or the firm plan with the alarm on after any failure |
| AiService.SuggestSessionConfig | services/aiService.ts:225-264 | the reply's fields renamed, or a 25-minute focused session after any failure |
| AiService.FetchedBatch | services/aiService.ts:282-288 | a batch is used only when it parses and is not empty |
| AiService.RecoveryTaskCache.Generate | services/aiService.ts:266-296 | a cached task is popped without calling the service; otherwise the last task of a fresh batch is returned and the rest cached; after a failed or empty batch, the planning fallback with an empty cache |
| AiService.ServeBatch | services/aiService.ts:267-285 | a batch of n tasks serves n requests, last task first, and the calls the service reports add up to one |
| AiService.FetchFirst | services/aiService.ts:267-286 | on an empty cache the service is called (and reports it); the batch's last task is served and the rest are cached |
| AiService.ServeCached | services/aiService.ts:267 | while tasks are cached, each request gets the last one, so they come out in reverse order and the cache ends empty; the calls counted from each request are zero |
| AiService.ValidateAnswer | services/aiService.ts:298-315 | under three trimmed characters is rejected and over ten accepted, both without a call; otherwise the service decides, and any failure accepts |
| AiService.ValidationFailsOpen | services/aiService.ts:298-315 | an answer of three or more visible characters is rejected only by a verdict the service actually returned |
| AiService.RecentHistory | services/aiService.ts:320-323 | the last six messages in order, assistant turns renamed `model` |
| AiService.ChatRequest | services/aiService.ts:320-327 | the last six (or all, when fewer) history messages in order, each as its turn with the assistant's renamed `model`, then the new message as the user's turn |
| AiService.ChatWithAssistant | services/aiService.ts:317-339 | never empty: the reply text, "Let's focus." without text, "Let's get back to work." on failure |
| AiService.GenerateSessionInsights | services/aiService.ts:341-359 | the parsed insights, or the fixed fallback insights after any failure |
| DistractionDetection.MovedCount | hooks/useDistractionDetection.ts:25-35 | the moved pixels among the first k samples number at most k |
| DistractionDetection.Score | hooks/useDistractionDetection.ts:37 | the motion score is a share between 0 and 1 |
| DistractionDetection.MotionScore | hooks/useDistractionDetection.ts:15-38 | exactly 1.0 for a first frame; otherwise the share of pixels at 32-byte offsets whose red, green and blue differences sum to more than 60; the current frame is handed back to become the previous one |
| DistractionDetection.AlphaIgnored | hooks/useDistractionDetection.ts:26-31 | frames that differ only in alpha bytes score the same |
| DistractionDetection.MovedCountSampledOnly | hooks/useDistractionDetection.ts:25-28 | only the red, green and blue bytes at sampled offsets affect the count |
| DistractionDetection.StillFrameScoresZero | hooks/useDistractionDetection.ts:31 | a frame identical to the previous one has no moved pixel |
| DistractionDetection.Tolerance | hooks/useDistractionDetection.ts:102-105 | the configured tolerance, or 30 when it is unset or zero, capped at 10 in hardcore mode |
| DistractionDetection.Observe | hooks/useDistractionDetection.ts:107-125 | a qualifying sighting opens an episode, or fires and closes it once strictly more than the tolerance has passed; any other answer closes it without firing (the closing on any other answer is at lines 186-195) |
| DistractionDetection.Qualifies | hooks/useDistractionDetection.ts:186 | a flagged, more than 75% confident, typed answer; the classifier's "not distracted" fallback never qualifies |
| DistractionDetection.FiresAtMostEveryOtherSighting | hooks/useDistractionDetection.ts:109-121 | a run of n qualifying sightings fires at most n/2 times from a closed episode, and at most (n+1)/2 from an open one |
| DistractionDetection.PersistentDistractionFires | hooks/useDistractionDetection.ts:109-121 | two sightings more than the tolerance apart fire exactly once |
| DistractionDetection.BaseDelay | hooks/useDistractionDetection.ts:155-163 | 3 s exactly while an episode is open, 5 s exactly when closed with motion above 0.05, otherwise 15 s |
| DistractionDetection.NextBackoff | hooks/useDistractionDetection.ts:182-201 | a result resets the multiplier to 1, a rate-limit error doubles it up to 8, and other errors keep it; it stays in {1,2,4,8} |
| DistractionDetection.Detector.OnInterventionChange | hooks/useDistractionDetection.ts:85-90 | when an intervention starts, the episode and the previous motion frame are forgotten; otherwise nothing changes |
| DistractionDetection.Detector.CheckLoop | hooks/useDistractionDetection.ts:128-206 | a guarded pass retries in 2 s and changes nothing; otherwise the motion frame is kept, the delay is the base delay times the multiplier, and the debounce and back-off are updated from the classifier's outcome |
| DistractionDetection.MotionOf | hooks/useDistractionDetection.ts:142-149 | no motion without pixels, full motion for a first frame, always between 0 and 1 |
| DistractionDetection.ClassifierOutcome | hooks/useDistractionDetection.ts:173-180 | the awaited classifier always returns, because it catches its own failures |
| DistractionDetection.RateLimitBackoffUnreachable | hooks/useDistractionDetection.ts:197-201 | even a 429 rejection resets the multiplier to 1, so the back-off branch is dead |
| DistractionDetection.ClassifierOutcomeSurfacingRateLimit | hooks/useDistractionDetection.ts:197-201 | a 429 reaches the loop as a rate-limit error; every other outcome is as before |
| DistractionDetection.RateLimitedRunBacksOff | hooks/useDistractionDetection.ts:199-201 | with the 429 surfaced, consecutive rate-limit errors double the multiplier, reaching 8 after three and staying there |
| Intervention.AlarmGain | hooks/useIntervention.ts:57-58 | the gain is the volume percent of 0.5, 0.4 when no volume is set; only a missing volume defaults, and 0 is silent |
| Intervention.ToneDelivery | hooks/useIntervention.ts:23-33 | a strict tone is faster and lower, a gentle one slower and higher; any other tone keeps the engine's defaults |
| Intervention.FirmToneUsesDefaults | hooks/useIntervention.ts:29-30 | the fallback plan's firm tone gets no rate or pitch change |
| Intervention.OnFire | hooks/useIntervention.ts:127-147 | the grace-period timer escalates to ALARM, with the alarm, only from WARNING and otherwise leaves the state alone; the fallback timer always escalates |
| Intervention.EscalationSparesReturnedUser | hooks/useIntervention.ts:129-135 | a grace-period timer leaves IDLE and RECOVERY untouched and does not sound |
| Intervention.RecoveryAfterPlan | hooks/useIntervention.ts:115-117 | a non-empty recommendation becomes the recovery method; an empty one keeps the configured method |
| Intervention.FailedPlanEscalates | hooks/useIntervention.ts:115-138 | after a failed plan request the fallback plan switches recovery to simple_click and schedules the escalation |
| Intervention.Machine.ClearRefTimer | hooks/useIntervention.ts:95 | the ref'd timer leaves the pending set; the ref and everything else are unchanged |
| Intervention.Machine.StopAlarm | hooks/useIntervention.ts:70-82 | the alarm is off afterwards and nothing else changes |
| Intervention.Machine.StartAlarm | hooks/useIntervention.ts:35-68 | exactly one alarm sounds afterwards, at the configured gain; nothing else changes |
| Intervention.Machine.Trigger | hooks/useIntervention.ts:93-101 | the ref'd timer is cancelled, the type is recorded and the state is WARNING |
| Intervention.Machine.Schedule | hooks/useIntervention.ts:127-144 | a fresh timer id is stored in the ref and added to the pending set |
| Intervention.Machine.ApplyPlan | hooks/useIntervention.ts:111-138 | the recovery method follows the plan, a prefetch is asked exactly for context_aware, and a grace-period timer is scheduled exactly when the plan wants an alarm, without cancelling the old ref'd timer |
| Intervention.Machine.ApplyPlanClearingRef | hooks/useIntervention.ts:94-138 | as ApplyPlan, but the ref'd timer is cancelled before the new one is stored, so a single live timer stays single |
| Intervention.Machine.PlanFailed | hooks/useIntervention.ts:140-148 | the `catch` branch, reached only when `speak` or `updateConfig` throws: a 5-second unconditional escalation timer is scheduled |
| Intervention.Machine.TaskArrived | hooks/useIntervention.ts:121 | the prefetched task is stored and nothing else changes |
| Intervention.Machine.FireTimer | hooks/useIntervention.ts:127-147 | a live timer leaves the pending set and acts as OnFire says; a cleared timer does nothing |
| Intervention.Machine.Resolve | hooks/useIntervention.ts:151-162 | the timer is cancelled and forgotten, the alarm is off, the state is IDLE with no type or task, and the session's distraction is resolved |
| Intervention.Machine.HandleImBack | hooks/useIntervention.ts:164-177 | the timer and alarm are cancelled; context_aware, physical_reset and reflection open RECOVERY, and every other method resolves at once |
| Intervention.Machine.Unmount | hooks/useIntervention.ts:85-90 | the ref'd timer is cancelled and the alarm is off |
| Intervention.TwoPlansLeaveTwoTimers | hooks/useIntervention.ts:94-137 | trigger, resolve, trigger again and two late plans leave two live escalation timers |
| Intervention.TwoPlansClearingRef | hooks/useIntervention.ts:94-137 | with the ref'd timer cleared before each new one, the same events leave one |
| ActiveSession.Decrement | context/ActiveSessionContext.tsx:106-136 | a finite countdown loses one second, and `Infinity` stays `Infinity` |
| ActiveSession.Restore | context/ActiveSessionContext.tsx:43-58 | the saved record is used exactly when its status is a running one and it started less than 24 hours before now; otherwise the default record |
| ActiveSession.AutoStart | context/ActiveSessionContext.tsx:73-83 | a completed or never-started record becomes a fresh active session started now, with the work interval as countdown or `Infinity` without breaks; any other record is kept; the invariant is preserved |
| ActiveSession.ActiveTick | context/ActiveSessionContext.tsx:90-110 | a due break with a schedule starts the break and counts it; otherwise one more second of elapsed and focus time, the countdown down by one and the streak up by a minute's sixtieth, and every other field unchanged |
| ActiveSession.DistractedTick | context/ActiveSessionContext.tsx:114-123 | elapsed and distraction time grow by one; focus time and the break countdown are frozen |
| ActiveSession.BreakTick | context/ActiveSessionContext.tsx:125-138 | the countdown runs down, and when due the session is active again with a fresh work interval; no time is counted |
| ActiveSession.BeepOnTick | context/ActiveSessionContext.tsx:127-129 | the beep condition of the break interval |
| ActiveSession.BeepEndsBreak | context/ActiveSessionContext.tsx:124-134 | the beep sounds exactly on the tick that turns a break back into an active session |
| ActiveSession.Tick | context/ActiveSessionContext.tsx:86-144 | the tick for the current status; paused and completed records do not change, and focus time grows only while active |
| ActiveSession.WorkIntervalEndsInBreak | context/ActiveSessionContext.tsx:90-100 | from a countdown of k seconds, the k-th tick starts the break after k-1 seconds of focus |
| ActiveSession.BreakEndsAfterCountdown | context/ActiveSessionContext.tsx:125-136 | a break of k seconds ends after exactly k ticks, with a fresh work interval |
| ActiveSession.SendMessage | context/ActiveSessionContext.tsx:146-157 | the user's message is appended, stamped with now, and nothing else changes |
| ActiveSession.AddAiMessage | context/ActiveSessionContext.tsx:159-170 | the assistant's message is appended, stamped with now, and nothing else changes |
| ActiveSession.TogglePause | context/ActiveSessionContext.tsx:172-176 | active or distracted becomes paused, paused becomes active, and a break or finished session is untouched |
| ActiveSession.TogglePauseTwice | context/ActiveSessionContext.tsx:172-176 | two presses restore an active or paused session |
| ActiveSession.EndSession | context/ActiveSessionContext.tsx:178-181 | the status is completed and nothing else changes |
| ActiveSession.Minimize | context/ActiveSessionContext.tsx:183 | the record is minimized and nothing else changes |
| ActiveSession.Maximize | context/ActiveSessionContext.tsx:184 | the record is not minimized and nothing else changes |
| ActiveSession.StartBreak | context/ActiveSessionContext.tsx:186-191 | status break, the countdown set to the break length, one more break taken |
| ActiveSession.EndBreak | context/ActiveSessionContext.tsx:193-197 | status active with a fresh work interval |
| ActiveSession.ExtendBreak | context/ActiveSessionContext.tsx:199 | five more minutes on a finite countdown; `Infinity` stays |
| ActiveSession.Classify | context/ActiveSessionContext.tsx:203-209 | the first bucket whose key word the lower-cased type contains: phone or texting, then left or missing, then social, else other |
| ActiveSession.ShouldNotify | context/ActiveSessionContext.tsx:214-229 | a notification exactly when permission is granted, the page is in the background, and the distraction is a phone, or leaving the desk in hardcore mode |
| ActiveSession.RegisterDistraction | context/ActiveSessionContext.tsx:231-240 | status distracted, count and the classified type's bucket up by one with the other buckets kept, streak reset, and every other field untouched |
| ActiveSession.ResolveDistraction | context/ActiveSessionContext.tsx:243-248 | the status is active whatever it was, and nothing else changes |
| ActiveSession.ResolveResumesPausedSession | context/ActiveSessionContext.tsx:243-248 | a paused session or one on a break is made active, and the next tick counts focus |
| ActiveSession.ResetSession | context/ActiveSessionContext.tsx:250-253 | the default record declared at lines 23-37, field by field: completed, never started, not minimized, no chat, every time, count, bucket, streak and break figure zero |
| ActiveSession.ResetSessionConsistent | context/ActiveSessionContext.tsx:23-37 | the default record is consistent |
| ActiveSession.Apply | context/ActiveSessionContext.tsx:146-253 | every action keeps the record consistent; every action but registering a distraction keeps the count or resets it to zero, and does not enter the distracted status |
| ActiveSession.RunKeepsInv | context/ActiveSessionContext.tsx:86-253 | any sequence of actions and ticks keeps elapsed time equal to focus plus distraction time, the count equal to the sum of the buckets, and the longest streak at least the current one |
| ActiveSession.NoRegisterNoDistraction | context/ActiveSessionContext.tsx:201-241 | without registering a distraction, the count stays zero and the status never becomes distracted |
| ActiveSession.UseActiveSession | context/ActiveSessionContext.tsx:278-284 | the provider's value, or the error thrown outside a provider |
| SessionConfigStore.MergeCustom | context/SessionContext.tsx:55-57 | each custom-settings field the update names takes its value; every other field keeps the previous one |
| SessionConfigStore.UpdateConfig | context/SessionContext.tsx:50-59 | every key the update carries takes its value and every other key is kept, except that supplied custom settings are merged field by field |
| SessionConfigStore.EmptyUpdateIsIdentity | context/SessionContext.tsx:50-59 | an empty update changes nothing |
| SessionConfigStore.UpdateIdempotent | context/SessionContext.tsx:50-59 | applying the same update twice is applying it once |
| SessionConfigStore.VolumeUpdateKeepsOtherSettings | context/SessionContext.tsx:55-57 | a volume-only update keeps the tolerance and exit friction |
| SessionConfigStore.LoadConfig | context/SessionContext.tsx:37-44 | a missing, empty or unparsable entry gives the default; otherwise the stored keys are spread over the default |
| SessionConfigStore.StoredCustomSettingsReplaceDefaults | context/SessionContext.tsx:40-57 | loading replaces the whole custom-settings object, while an update merges it field by field |
| SessionConfigStore.CompleteStoredConfigLoadsAsIs | context/SessionContext.tsx:40-48 | a stored configuration with every key loads exactly as stored |
| SessionConfigStore.ResetConfig | context/SessionContext.tsx:10-63 | the default configuration: focused, with custom settings |
| SessionConfigStore.ResetSurvivesReload | context/SessionContext.tsx:46-63 | after a reset, reloading what was persisted gives the default back |
| SessionConfigStore.UseSession | context/SessionContext.tsx:72-78 | the provider's value, or the error thrown outside a provider |
| SessionControls.FocusPercentage | components/SessionControls.tsx:45 | the percentage times the elapsed seconds is a hundred times the focus seconds, and 0 before the first second |
| SessionControls.Minutes | components/SessionControls.tsx:42-44 | the whole minute count nearest to the seconds, with halves rounded up |
| SessionControls.BuildRecord | components/SessionControls.tsx:37-51 | the record carries the id, user, start, end, mode and goal, the durations rounded to the nearest minute, the counters and breakdown as they are, and the streak rounded |
| SessionControls.PercentageBounded | components/SessionControls.tsx:45 | when the focus time is within the elapsed time the percentage is in [0, 100] |
| SessionControls.RecordConsistent | components/SessionControls.tsx:37-51 | a consistent session gives a record whose percentage is in range, whose focus and distracted minutes sum to the total within one minute, and whose count matches the breakdown |
| SessionControls.ConfirmExit | components/SessionControls.tsx:34-55 | without a user nothing changes; with one the session is reset and its record becomes the summary |
| SessionControls.HandleEndSession | components/SessionControls.tsx:25-84 | hardcore ignores the request, chill exits at once, every other mode opens the confirmation dialog |
| SessionControls.EndDisabled | components/SessionControls.tsx:84 | the End button is greyed out in hardcore mode; EndRequestOutcome shows the dialog opens only where it is not |
| SessionControls.EndRequestOutcome | components/SessionControls.tsx:25-35 | a live session changes exactly in chill mode with a user, and the dialog opens only where the button is enabled |
| SessionControls.ExitCompletesSession | components/SessionControls.tsx:34-55 | ending with a user leaves a consistent completed session and a summary with the old distraction count and a percentage in [0, 100] |
| SessionSetup.ValidatedSchedule | pages/SessionSetup.tsx:101-109 | a pomodoro schedule under 25 minutes or an extended one under 50 becomes "no breaks" over the whole session, and any other schedule is kept; the result's work interval always fits |
| SessionSetup.ValidateBreaks | pages/SessionSetup.tsx:101-109 | only the break schedule changes, and it becomes the validated one |
| SessionSetup.ValidateBreaksIdempotent | pages/SessionSetup.tsx:101-109 | running the validation again changes nothing |
| SessionSetup.Options | pages/SessionSetup.tsx:293-296 | three options, the last being "no breaks" over the whole session |
| SessionSetup.SelectOption | pages/SessionSetup.tsx:298-307 | a disabled option changes nothing; any other becomes the break schedule, with a zero work interval replaced by the duration |
| SessionSetup.DisabledOptions | pages/SessionSetup.tsx:293-298 | "no breaks" is never disabled; pomodoro is disabled exactly under 25 minutes and extended exactly under 50 |
| SessionSetup.IsDisabled | pages/SessionSetup.tsx:298 | an option whose interval fits into the session, and "no breaks" always, is never greyed out |
| SessionSetup.SelectedScheduleIsValid | pages/SessionSetup.tsx:298-307 | from a validated configuration, every click on an option leaves a configuration the validation keeps (the validating effect is at lines 101-109) |
| SessionSetup.FormatMinutesRoundTrip | pages/SessionSetup.tsx:172-176 | reading the label back gives hours and minutes below sixty that add up to the duration |
| SessionSetup.FormatMinutes | pages/SessionSetup.tsx:172-176 | "{m}m" under an hour and "{h}h " for whole hours; FormatMinutesRoundTrip reads every label back |
| SessionSetup.ApplySuggestion | pages/SessionSetup.tsx:117-135 | without a goal or a user nothing changes; otherwise the reasoning and tips are shown, and the duration, mode and personality are adopted with 25, focused and supportive_friend replacing missing or falsy values; nothing else changes |
| SessionSetup.FailedSuggestionGivesStandardSession | pages/SessionSetup.tsx:117-128 | an unparsable suggestion reply yields the 25-minute focused session with the supportive friend |
| SessionSetup.CanContinue | pages/SessionSetup.tsx:435-439 | continuing is possible exactly when the goal has a non-whitespace character |
| ContextTaskRecovery.FallbackTask | components/recovery/ContextTaskRecovery.tsx:33-39 | a 15-second planning task expecting short text, whose prompt names the goal |
| ContextTaskRecovery.VerdictOf | components/recovery/ContextTaskRecovery.tsx:56-65 | a thrown validation completes; otherwise completion happens exactly when the answer is valid, and a rejection shows the service's feedback, or the default message when that is missing or empty |
| ContextTaskRecovery.LongAnswerCompletes | components/recovery/ContextTaskRecovery.tsx:56-65 | an answer longer than ten characters with three visible ones completes without a call |
| ContextTaskRecovery.ShortAnswerRejected | components/recovery/ContextTaskRecovery.tsx:56-62 | an answer with fewer than three visible characters is rejected with "Too short." |
| ContextTaskRecovery.RejectionComesFromService | components/recovery/ContextTaskRecovery.tsx:56-62 | a rejected answer with three visible characters was at most ten characters long and was judged by a reply that arrived |
| ContextTaskRecovery.Screen.constructor | components/recovery/ContextTaskRecovery.tsx:14-18 | a preloaded task is shown at once; without one the screen starts loading; the answer is empty and nothing is validating, failed or complete |
| ContextTaskRecovery.Screen.Load | components/recovery/ContextTaskRecovery.tsx:20-49 | a preloaded task is taken as is; otherwise a fetch happens exactly when no task is held, and a fetch that throws gives the fallback task; the answer, error and completion are untouched |
| ContextTaskRecovery.Screen.Edit | components/recovery/ContextTaskRecovery.tsx:99-102 | typing replaces the answer and clears the error, and nothing else changes |
| ContextTaskRecovery.Screen.Submit | components/recovery/ContextTaskRecovery.tsx:51-68 | a request is sent exactly when a task is held and the answer is not blank; afterwards nothing is validating, and the screen has completed or shows the rejection message |
| ContextTaskRecovery.EnabledButBlank | components/recovery/ContextTaskRecovery.tsx:52-115 | three spaces enable the submit button, yet submitting them does nothing |
| ReflectionRecovery.Visible | components/recovery/ReflectionRecovery.tsx:20 | the non-whitespace characters are no more than the characters |
| ReflectionRecovery.WordsSpellVisible | components/recovery/ReflectionRecovery.tsx:20 | the words are non-empty, contain no whitespace, and spell out the answer's visible characters in order |
| ReflectionRecovery.WordCount | components/recovery/ReflectionRecovery.tsx:20 | the count equals the number of positions where a non-whitespace character starts the text or follows whitespace |
| ReflectionRecovery.WordsCountStarts | components/recovery/ReflectionRecovery.tsx:20 | splitting from any position yields the pending word plus one word per word start ahead |
| ReflectionRecovery.BlankHasNoWords | components/recovery/ReflectionRecovery.tsx:20 | a whitespace-only answer has no words and a count of 0 |
| ReflectionRecovery.LeadingWhitespaceIgnored | components/recovery/ReflectionRecovery.tsx:20 | whitespace before the text does not change the words |
| ReflectionRecovery.TrailingWhitespaceIgnored | components/recovery/ReflectionRecovery.tsx:20 | whitespace after the text does not change the words |
| ReflectionRecovery.WhitespaceRunIsOneSeparator | components/recovery/ReflectionRecovery.tsx:20 | a run of whitespace separates words just as one space does |
| ReflectionRecovery.TrimKeepsWords | components/recovery/ReflectionRecovery.tsx:20 | trimming the answer does not change its words |
| ReflectionRecovery.Submit | components/recovery/ReflectionRecovery.tsx:21-60 | the answer completes exactly when it has at least fifteen words |
| ReflectionRecovery.PaddingDoesNotHelp | components/recovery/ReflectionRecovery.tsx:20-27 | padding an answer with whitespace on either side never changes whether it completes |
| MathChallenge.Pick | components/recovery/MathChallengeRecovery.tsx:13-25 | flooring a draw in [0, 1) times `n` gives an index below `n` |
| MathChallenge.Operands | components/recovery/MathChallengeRecovery.tsx:11-29 | easy problems multiply two numbers in 2..11; hard ones multiply two in 5..16, or add or subtract a number in 10..59 from one in 20..69 |
| MathChallenge.Question | components/recovery/MathChallengeRecovery.tsx:15-26 | reading a displayed question back and working it out gives the value of its operands and operator |
| MathChallenge.GenerateProblem | components/recovery/MathChallengeRecovery.tsx:11-29 | the stored answer is the value of the displayed question: 4..121 when easy, -39..256 when hard |
| MathChallenge.ProductBounds | components/recovery/MathChallengeRecovery.tsx:13-22 | the products of the two operand ranges lie in 4..121 and 25..256 |
| MathChallenge.Problems | components/recovery/MathChallengeRecovery.tsx:31 | three problems when easy and five when hard, each generated from its own draws |
| MathChallenge.InitialAnswers | components/recovery/MathChallengeRecovery.tsx:32 | one empty answer per problem |
| MathChallenge.CheckAnswers | components/recovery/MathChallengeRecovery.tsx:35-42 | the challenge completes exactly when every answer parses to its problem's value; otherwise the fixed error message is shown |
| MathChallenge.TypedValuesComplete | components/recovery/MathChallengeRecovery.tsx:35-42 | typing each value as it prints completes the challenge |
| MathChallenge.EmptyAnswersFail | components/recovery/MathChallengeRecovery.tsx:32-42 | the empty answers the screen starts with never complete it |
| MathChallenge.Edit | components/recovery/MathChallengeRecovery.tsx:61-66 | only the edited answer changes, and the error is cleared |
| MathChallenge.HardDifferenceCanBeNegative | components/recovery/MathChallengeRecovery.tsx:24-26 | a hard difference can be negative: 20 - 59 = -39 |
| PhysicalReset.ChooseExercise | components/recovery/PhysicalResetRecovery.tsx:9-18 | a draw picks one of the five exercises, which last 15 or 20 seconds |
| PhysicalReset.Display | components/recovery/PhysicalResetRecovery.tsx:49 | reading the "0:ss" display back gives the seconds left |
| PhysicalReset.Countdown.constructor | components/recovery/PhysicalResetRecovery.tsx:18-21 | the countdown starts at the exercise's length, not running and not complete |
| PhysicalReset.Countdown.Start | components/recovery/PhysicalResetRecovery.tsx:53-56 | "Start Timer" sets the countdown running and changes nothing else |
| PhysicalReset.Countdown.Tick | components/recovery/PhysicalResetRecovery.tsx:23-34 | a running countdown loses one second; it completes and stops exactly when it reaches zero; the bounds are kept |
| PhysicalReset.DoExercise | components/recovery/PhysicalResetRecovery.tsx:23-68 | starting and letting the countdown run completes the exercise after exactly its length, and "Done! Resume Work" is then offered |
| DistractionOverlay.VariantOf | components/DistractionOverlay.tsx:50-64 | each of the five named methods selects its own screen, and every other name falls back to the simple click |
| DistractionOverlay.Ladder | components/DistractionOverlay.tsx:43-46 | the simple click for one distraction or fewer, reflection for two, easy maths for three, hard maths from four on |
| DistractionOverlay.SelectRecovery | components/DistractionOverlay.tsx:37-65 | the progressive method, and the context-aware one in hardcore mode, follow the ladder; every other method selects its own screen; hardcore never shows the AI task |
| DistractionOverlay.LadderMonotone | components/DistractionOverlay.tsx:43-46 | more distractions never give an easier rung |
| DistractionOverlay.ProgressiveStaysOnFirstRung | components/DistractionOverlay.tsx:39-46 | without a registered distraction the count stays 0, so the progressive method always shows the simple click |
| DistractionOverlay.Label | components/DistractionOverlay.tsx:76-85 | each of the five known types has its own caption, and every other type gets "Distraction Detected" |
| DistractionOverlay.Render | components/DistractionOverlay.tsx:74-135 | nothing exactly when idle; the warning shows the caption with "I'm Back" and "False Alarm", the alarm only "I'm Back", recovery the selected screen |
| DistractionOverlay.FalseAlarmOnlyWhileWarning | components/DistractionOverlay.tsx:87-125 | "False Alarm" is offered exactly in the warning state |
| UserService.TotalHours | services/userService.ts:20-21 | the new total is a whole number of hundredths, within half a hundredth of the old total plus the session's focus hours |
| UserService.TreeLevel | services/userService.ts:24-27 | the level is one more than the number of whole five-hour stretches in the total, so at least 1 |
| UserService.TreeProgress | services/userService.ts:24-26 | the progress through the current level is a percentage in [0, 100], within half a point of the hours past the level's start as a share of the level's five hours |
| UserService.NewBadges | services/userService.ts:125-171 | a badge is new exactly when its condition holds for the session and the user does not hold it yet |
| UserService.Deserves | services/userService.ts:129-171 | each badge's condition on the updated user, the session and its starting hour; only the seven listed badges can be deserved |
| UserService.CheckAchievements | services/userService.ts:125-172 | the unlocked achievements are the new badges in the order of the checks, stamped with the unlock time |
| UserService.Unlocked | services/userService.ts:125-172 | one achievement per new badge, in order, each stamped with the unlock time |
| UserService.NewBadgesAreNew | services/userService.ts:129-133 | an unlocked badge is deserved and never one the user already holds |
| UserService.DeservedBadgesUnlock | services/userService.ts:129-169 | every deserved badge the user lacks is unlocked |
| UserService.EarlyBirdOrNightOwl | services/userService.ts:161-169 | no session earns both the early-bird and the night-owl badge |
| UserService.Grown | services/userService.ts:16-27 | the session goes in front of the history, the total is updated and the tree's level and progress follow it; identity, preferences and achievements are kept |
| UserService.WithSession | services/userService.ts:16-31 | the grown user with the new achievements, judged on the grown user, appended to the old ones |
| UserService.FirstSaveEarnsFirstStep | services/userService.ts:135-138 | a first save earns the first-session badge unless the user already holds it |
| UserService.AchievementsOnlyGrow | services/userService.ts:127-133 | saving keeps every achievement held before and never awards a held id again (the achievement list is declared at lines 30-31) |
| UserService.Pruned | services/userService.ts:40-42 | more than 50 sessions are cut to the 50 most recent; nothing else changes |
| UserService.Storage.constructor | services/userService.ts:6 | the storage holds the given user |
| UserService.Storage.SaveSession | services/userService.ts:5-57 | without a stored user it fails with "User not found"; a recorded session returns the user unchanged; otherwise the updated user is stored, or on a quota error pruned and written once more, and returned even when it could not be stored; any other write error fails and stores nothing |
| UserService.LongestStreakSince | services/userService.ts:83 | the largest streak among the sessions since the start of today, or 0: it bounds them all and is one of them unless it is 0 |
| UserService.FocusInSplits | services/userService.ts:102-104 | the focus minutes of a span split at any point in between into the minutes of the two parts |
| UserService.WeekSoFarIsSpan | services/userService.ts:96-106 | the daily totals add up to the focus minutes of the whole span, so no session is counted twice or lost |
| UserService.EmptySpan | services/userService.ts:102-104 | an empty span has no focus minutes |
| UserService.GetDashboardStats | services/userService.ts:75-122 | today's minutes, distractions and longest streak; seven daily entries from Monday with their names, totals and today's flag; the week's total as the focus minutes of the whole week; and the five most recent sessions |
| VoiceAssistant.CacheKey | hooks/useVoiceAssistant.ts:61 | the key (computed the same way again at line 103) holds no upper-case letter and is no longer than the question |
| VoiceAssistant.CacheKeyCollision | hooks/useVoiceAssistant.ts:61 | two questions share a key exactly when their trimmed texts are equal but for the case of ASCII letters |
| VoiceAssistant.CacheKeyIgnoresLeadingSpace | hooks/useVoiceAssistant.ts:61-103 | a leading space does not change the key |
| VoiceAssistant.RenewWindow | hooks/useVoiceAssistant.ts:96-100 | once the reset time has passed the count restarts at 0 and the window runs an hour from now; before that both are kept |
| VoiceAssistant.Charge | hooks/useVoiceAssistant.ts:102-112 | a cached question is free; any other is refused exactly at a count of 15 or more and otherwise counted once, so the count stays within 0..15 |
| VoiceAssistant.Admit | hooks/useVoiceAssistant.ts:114-120 | while a request is in flight a message is dropped exactly when more than two wait, and otherwise appended, so at most three wait |
| VoiceAssistant.Drain | hooks/useVoiceAssistant.ts:36-69 | processing rests only with an empty queue or a reply awaited, and never lengthens the queue |
| VoiceAssistant.DrainSendsOnlyUncached | hooks/useVoiceAssistant.ts:47-69 | only a non-empty question whose key is not cached is sent to the service |
| VoiceAssistant.CachedQueueServedInOrder | hooks/useVoiceAssistant.ts:36-69 | a queue of cached questions is answered first in, first out, each question followed by its cached answer, with no remote call |
| VoiceAssistant.Assistant.constructor | hooks/useVoiceAssistant.ts:22-34 | nothing counted, the window an hour from now, nothing queued, cached or said, and no warning |
| VoiceAssistant.Assistant.ChargeQuota | hooks/useVoiceAssistant.ts:96-112 | the window is renewed; the question is charged exactly when the quota decision admits it, and a refusal sets the rate-limit warning |
| VoiceAssistant.Assistant.Pump | hooks/useVoiceAssistant.ts:36-56 | the queue is processed until a reply must be awaited; the quota, cache and warning are untouched |
| VoiceAssistant.Assistant.Step | hooks/useVoiceAssistant.ts:43-53 | one pass takes the head message: an empty one is skipped, a cached one answered, an uncached one sent and awaited; what remains to process is unchanged |
| VoiceAssistant.Assistant.HandleUserMessage | hooks/useVoiceAssistant.ts:94-123 | the window is renewed; a refused question only sets the warning; an admitted one is counted, then queued behind a request in flight (or dropped with the warning kept) or processed at once, clearing the warning; the quota and queue bounds are kept |
| VoiceAssistant.Assistant.Complete | hooks/useVoiceAssistant.ts:55-91 | the reply is cached under the question's key and said, and processing goes on with the queue |
| VoiceAssistant.RepeatedQuestionIsFree | hooks/useVoiceAssistant.ts:63-104 | a question asked again after its answer arrived costs no quota and is answered from the cache |
| AssistantChat.MatchLength | components/FocusAssistantChat.tsx:29 | a match of the wake word is 9 or 10 characters long and fits in the transcript |
| AssistantChat.FirstMatch | components/FocusAssistantChat.tsx:29 | the first position where the wake word matches, or -1 exactly when there is none |
| AssistantChat.WakeWordIffMatch | components/FocusAssistantChat.tsx:27-29 | the two substring tests succeed exactly when the regular expression finds a match to remove |
| AssistantChat.StripWakeWord | components/FocusAssistantChat.tsx:29 | a transcript without the wake word is left as it is |
| AssistantChat.CommandAfterWakeWord | components/FocusAssistantChat.tsx:27-29 | a transcript that starts with the wake word, in any letter case and with or without the comma, is heard, and its command is the rest trimmed |
| AssistantChat.WakeCommandAccepted | components/FocusAssistantChat.tsx:30-45 | a command the wake-word effect sends is never blank, so the send goes through |
| AssistantChat.ChatPanel.constructor | components/FocusAssistantChat.tsx:11-15 | empty input and transcript, not listening, nothing sent |
| AssistantChat.ChatPanel.Type | components/FocusAssistantChat.tsx:154 | typing replaces the input and changes nothing else |
| AssistantChat.ChatPanel.Hear | components/FocusAssistantChat.tsx:11 | the recognizer's transcript is replaced and nothing else changes |
| AssistantChat.ChatPanel.SetListening | components/FocusAssistantChat.tsx:11 | the recognizer's listening flag is replaced and nothing else changes |
| AssistantChat.ChatPanel.HandleSend | components/FocusAssistantChat.tsx:44-49 | the text is forwarded exactly when it is not blank and the assistant is idle; forwarding clears the input and the transcript, and nothing else changes |
| AssistantChat.ChatPanel.KeyDown | components/FocusAssistantChat.tsx:51-56 | Enter without Shift forwards the input under the same guard; any other key changes nothing |
| AssistantChat.ChatPanel.CopyEffect | components/FocusAssistantChat.tsx:21-23 | a non-empty transcript is copied into the input |
| AssistantChat.ChatPanel.WakeEffect | components/FocusAssistantChat.tsx:26-35 | the command is forwarded exactly when the wake word is heard, the command has more than three characters and the assistant is idle |
| AssistantChat.ChatPanel.ListeningEffect | components/FocusAssistantChat.tsx:37-42 | the transcript is forwarded exactly when listening has just stopped and the send guard holds; the flag is then remembered |
| AssistantChat.ChatPanel.Render | components/FocusAssistantChat.tsx:21-42 | the effects run in order, each only when a dependency changed, and one render can forward both the command and the whole transcript |
| TreeGrowth.Level | components/summary/TreeGrowthAnimation.tsx:13-14 | the level is one more than the number of whole five-hour stretches in the hours, so at least 1 |
| TreeGrowth.LevelMonotone | components/summary/TreeGrowthAnimation.tsx:13-15 | more hours never give a lower level |
| TreeGrowth.IsLevelUp | components/summary/TreeGrowthAnimation.tsx:15 | a level-up happens exactly when the old total is below the threshold of the new level |
| TreeGrowth.Progress | components/summary/TreeGrowthAnimation.tsx:18 | the progress is a percentage below 100: the hours into the current level times 20 |
| TreeGrowth.HoursToNext | components/summary/TreeGrowthAnimation.tsx:99 | between 0 and 5 hours are left, and they take the total to the next level's threshold |
| TreeGrowth.ProgressAndHoursToNextAgree | components/summary/TreeGrowthAnimation.tsx:18 | the progress bar and the hours-to-next label describe the same point (the label is at line 99) |
| TreeGrowth.StageName | components/summary/TreeGrowthAnimation.tsx:47-53 | the four named stages for levels 1 to 4, and "Mature Tree" for every other level |
| TreeGrowth.Icon | components/summary/TreeGrowthAnimation.tsx:41-45 | the sprout for level 1, the trees for levels below 5, and the large trees otherwise |
| TreeGrowth.Animate | components/summary/TreeGrowthAnimation.tsx:20-39 | sixty frames, each a sixtieth of the difference further on, the last exactly the new total; when the total grows, every frame lies between the old and new totals |
| TreeGrowth.NextStep | components/summary/TreeGrowthAnimation.tsx:24-30 | each tick adds the same sixtieth of the difference |
| TreeGrowth.StepWithinRange | components/summary/TreeGrowthAnimation.tsx:24-35 | while the total grows, every intermediate value lies between the old and new totals |
| TimerStats.FormatTime | components/TimerStatsPanel.tsx:17-23 | "HH:MM:SS" from one hour on and "MM:SS" below, every field padded to two digits; FormatTimeRoundTrip reads every clock back |
| TimerStats.FormatTimeInjective | components/TimerStatsPanel.tsx:17-23 | two different second counts never show the same clock |
| TimerStats.FormatTimeRoundTrip | components/TimerStatsPanel.tsx:17-23 | reading the "HH:MM:SS" or "MM:SS" clock back gives the seconds it was made from |
| TimerStats.LongRoundTrip | components/TimerStatsPanel.tsx:18-21 | from one hour on, the three-field clock reads back as the seconds |
| TimerStats.ShortRoundTrip | components/TimerStatsPanel.tsx:19-22 | below one hour, the two-field clock reads back as the seconds |
| TimerStats.SplitSeconds | components/TimerStatsPanel.tsx:18-20 | hours, minutes below sixty and seconds below sixty add back up to the seconds |
| TimerStats.FormatShortTime | components/TimerStatsPanel.tsx:25-30 | the label reads back as the whole hours and the minutes past them, and has an "h" exactly from one hour on |
| TimerStats.ProgressPercentage | components/TimerStatsPanel.tsx:32 | NaN exactly for no time over no duration; for a positive duration, the share of the planned seconds elapsed, in percent, reaching 100 exactly when the plan is met and never more |
| TimerStats.NextBreakMinutes | components/TimerStatsPanel.tsx:33 | the fewest whole minutes that cover the seconds left |
| TimerStats.NextBreakLabel | components/TimerStatsPanel.tsx:187 | "None" exactly without a schedule, otherwise the rounded-up minutes followed by "m" |
| TimerStats.NextBreakLabelRoundTrip | components/TimerStatsPanel.tsx:187 | the label of a scheduled break reads back as the minutes it covers (the minutes are computed at line 33) |
| Toasts.Without | context/ToastContext.tsx:27-32 | the toasts kept are exactly those whose id differs, and the list never grows |
| Toasts.WithoutAppend | context/ToastContext.tsx:27-32 | filtering distributes over concatenation, so the order of the kept toasts is preserved |
| Toasts.WithoutAbsent | context/ToastContext.tsx:27-32 | removing an id no toast carries changes nothing |
| Toasts.WithoutIdempotent | context/ToastContext.tsx:27-32 | removing the same id twice is removing it once |
| Toasts.Shown | context/ToastContext.tsx:21-23 | the old toasts are kept in front and exactly one is added, an information toast unless a kind is given |
| Toasts.ShowThenExpire | context/ToastContext.tsx:21-28 | a toast's timer takes that toast away and leaves the earlier ones as they were, when their ids differ |
| Toasts.SameMillisecondLeaveTogether | context/ToastContext.tsx:22-28 | two toasts shown in the same millisecond share an id, so removing either removes both |
| Toasts.DistinctMillisecondsDistinctIds | context/ToastContext.tsx:22 | toasts shown in different milliseconds have different ids |
| Toasts.ToastCenter.constructor | context/ToastContext.tsx:19 | no toasts at first |
| Toasts.ToastCenter.Show | context/ToastContext.tsx:21-23 | the list becomes the old one with the new toast appended |
| Toasts.ToastCenter.Remove | context/ToastContext.tsx:26-33 | the list loses exactly the toasts carrying the id |
| Toasts.UseToast | context/ToastContext.tsx:70-76 | the provider's value, or the error thrown outside a provider |
| DurationText.MinSec | components/BreakOverlay.tsx:13-15 | for a non-negative count, reading "m:ss" back gives the whole minutes and the seconds past them; a negative count prints with a leading minus |
| DurationText.MinSecInjective | components/FloatingTimer.tsx:10-14 | two different non-negative counts never show the same clock |
| Dashboard.FormatMinutes | pages/Dashboard.tsx:44-49 | for a non-negative total the readout reads back as the hours and the minutes past them, and has an "h" exactly from one hour on |
| Dashboard.FormatMinutesInjective | pages/Dashboard.tsx:44-49 | two different totals never show the same readout |
| Dashboard.TreeIcon | pages/Dashboard.tsx:51-57 | levels 1, 2 and 3 each have their own icon, and level 4 shares the full tree with every other value |
| Dashboard.BarHeight | pages/Dashboard.tsx:226-228 | the height is between 5 and 100: the share of two hours in percent, at least 5 and at most 100 |
| Dashboard.BarHeightMonotone | pages/Dashboard.tsx:226-228 | more focus never gives a lower bar |
| Dashboard.Day | pages/Dashboard.tsx:227-235 | no bar exactly for a day without focus, otherwise a bar of that height |
| Dashboard.Grid | pages/Dashboard.tsx:163-168 | the first eight badges at most, in order, and locked placeholders to make up four tiles |
| Dashboard.GridSize | pages/Dashboard.tsx:163-168 | the grid always has four to eight tiles, with placeholders exactly beside fewer than four badges |
| Dashboard.QuickStart | pages/Dashboard.tsx:27-33 | 25 minutes on "Quick Session" with the saved mode and personality, or focused and supportive_friend when none is saved; no other setting is touched |
| Dashboard.QuickStartKeepsTheRest | pages/Dashboard.tsx:28-33 | quick start changes only duration, goal, mode and personality |
| BreakOverlay.Countdown | components/BreakOverlay.tsx:13-15 | a countdown of n seconds reads back as its minutes and seconds, and an unbounded one prints as "Infinity:NaN" and only it |
| BreakOverlay.Render | components/BreakOverlay.tsx:11-52 | shown exactly on a break, with the countdown, "End Break" exactly outside hardcore, and "+5 Mins" always |
| BreakOverlay.Press | components/BreakOverlay.tsx:40-52 | a press acts exactly when the button is offered: "End Break" resumes work, "+5 Mins" stays on the break |
| BreakOverlay.HardcoreBreakCannotBeSkipped | components/BreakOverlay.tsx:17-48 | in hardcore mode no press ends a break early, while "+5 Mins" still works |
| BreakOverlay.ExtendShowsFiveMoreMinutes | components/BreakOverlay.tsx:50-52 | "+5 Mins" shows five more minutes with the seconds unchanged |
| FloatingTimer.BreakMinutes | components/FloatingTimer.tsx:37 | the figure reads back as the minutes rounded up, and an unbounded countdown prints as "Infinity" and only it |
| FloatingTimer.Render | components/FloatingTimer.tsx:8-37 | shown exactly while minimized, with the elapsed clock reading back as its minutes and seconds, the distraction count and the break figure |
| FloatingTimer.MinutesKeepCounting | components/FloatingTimer.tsx:10-14 | an hour and a half reads as ninety minutes, not wrapped at the hour |
| FloatingTimer.Click | components/FloatingTimer.tsx:20 | a click maximizes the app, which hides the timer, and changes nothing else |
| FloatingTimer.MinimizeThenClick | components/FloatingTimer.tsx:20 | minimizing and then clicking the timer gives back the state as it was |
| SessionStats.Labels | components/summary/SessionStats.tsx:23-24 | the focus label is the percentage rounded, and the two labels add up to 100 |
| SessionStats.LabelsInRange | components/summary/SessionStats.tsx:23-24 | for a percentage in range both labels are in [0, 100] |
| SessionStats.Mention | components/summary/SessionStats.tsx:42-43 | a positive count followed by its word, or nothing |
| SessionStats.BreakdownText | components/summary/SessionStats.tsx:42-43 | "Phone" appears exactly for phone distractions and "Left" exactly for left-desk ones; the line is empty exactly when neither happened |
| SessionStats.Render | components/summary/SessionStats.tsx:7-52 | the duration reads back as hours and minutes, the labels add up to 100, the bar is the exact percentage within half a point of its label, and the count, breakdown and streak are those of the record |
| Tts.Score | hooks/useTTS.ts:30-41 | a voice scores at most 50 |
| Tts.ScoreExtremes | hooks/useTTS.ts:30-41 | a voice scores 50 exactly when it is regional and has all four quality words, and 0 exactly when it has none of these |
| Tts.English | hooks/useTTS.ts:44 | the voices kept are exactly the English ones |
| Tts.SortBy | hooks/useTTS.ts:47 | the voices end up best first by the key and are a permutation of those given |
| Tts.Insert | hooks/useTTS.ts:47 | one more voice is put in its place, so one more prefix is sorted, and the voices are a permutation of those given |
| Tts.Find | hooks/useTTS.ts:56-66 | the index of the first voice that satisfies the condition, or none exactly when no voice does |
| Tts.FindIsFirst | hooks/useTTS.ts:56-66 | no voice before the one found satisfies the condition |
| Tts.FindIsBest | hooks/useTTS.ts:47-67 | in a list sorted best first, the voice found scores highest among those that satisfy the condition |
| Tts.BestVoice | hooks/useTTS.ts:28-73 | none for an empty list; the first voice when no voice is English; otherwise an English voice of the personality's preferred kind scoring highest among those, or the highest-scoring English voice when there is none of that kind |
| Tts.PitchRate | hooks/useTTS.ts:75-84 | the pitch is in [0.8, 1.2] and the rate in [0.9, 1.2], and both are 1.0 for any personality outside the five |
| Tts.DrillSergeantIsLowest | hooks/useTTS.ts:75-84 | no personality speaks lower, and none faster, than the drill sergeant |
| Tts.Speak | hooks/useTTS.ts:86-125 | blank text is not spoken; otherwise the text is spoken with the personality's pitch and rate and, when there is an English voice, an English voice from the list |
| ActiveSession.Bump | context/ActiveSessionContext.tsx:235-238 | the distraction's own bucket rises by one, the other three stay, and so the total rises by one |
| AiService.RecoveryTaskCache.constructor | services/aiService.ts:133 | the task cache starts empty |
| DistractionDetection.Detector.constructor | hooks/useDistractionDetection.ts:72-76 | nothing seen yet, no previous frame, and a back-off multiplier of 1 |
| DistractionDetection.SampleInFrame | hooks/useDistractionDetection.ts:25-35 | every sampled offset leaves room for the pixel's red, green and blue bytes |
| Intervention.Machine.constructor | hooks/useIntervention.ts:11-20 | idle, with no distraction type, task, timers or alarm |

## Left out

- Device and browser I/O is not modelled. This covers webcam and canvas capture, the motion canvas, Picture-in-Picture drawing, Web Audio oscillators, speech synthesis and recognition, notifications and `localStorage`. Where the logic depends on them, frames, transcripts, stored values and write outcomes are parameters.
- The generative-model service and `JSON.parse` are foreign calls. Each is given by how the call settled and by an uninterpreted `parse` function.
- Timers, intervals, `Promise.race` and React effects are not modelled as concurrency. Each callback is a separate event (`Tick`, `FireTimer`, `Complete`, `Render`), applied one at a time.
- `Date.now()`, `Math.random()`, `getHours()`, and the local start of today and of this week's Monday are parameters. Days are taken as 24 hours long, so daylight-saving days are not modelled.
- The persistence effects are not modelled: the active session's write at context/ActiveSessionContext.tsx:63-69 and the configuration's write at context/SessionContext.tsx:46-48. `ResetSurvivesReload` assumes the stored text is the configuration just written.
- Floating-point rounding is not modelled, because numbers are exact reals. `toFixed` labels and `formatDisplayTime` (components/summary/TreeGrowthAnimation.tsx:55-61) are left out, and so is the fractional drift of the animation increments.
- Navigation, the quick-start toast, the mode colours and the alarm and voice previews of the setup page are rendering or wiring with no stated logic.
- `userService.updatePreferences` and `userService.getUser` (services/userService.ts:59-73) are left out. They only read storage and spread a partial record over it, as `SessionConfigStore.UpdateConfig` does for the configuration.
- The question drawn at random by the reflection screen (components/recovery/ReflectionRecovery.tsx:9-17) is not modelled. It has no effect on completion.
- The recognizer's own logic is not modelled; the chat panel takes its transcript and listening flag as inputs.
- The speaking flag of the speech hook is not modelled, and neither is the missing engine.
- `generateRecoveryTask` and `validateRecoveryAnswer` never throw. The recovery screen's fallback task and its fail-open branch are therefore unreachable in practice; they are modelled for a call that throws.
- `registerDistraction` has no caller in the application. `DistractionOverlay.ProgressiveStaysOnFirstRung` states the consequence.
- Strings.Lower: `toLowerCase` and the case-insensitive wake-word match are modelled for ASCII letters only.
- Tts.SortBy: states sorted-and-permuted, but not that equal scores keep their list order as JavaScript's stable `sort` does.
- Tts.BestVoice: does not say which of several equally scored voices is chosen.
- AssistantChat.StripWakeWord: what is removed is stated only through `CommandAfterWakeWord`, for a transcript that starts with the wake word; a wake word in mid-transcript is modelled but its removal is not stated.
- TimerStats.ProgressPercentage: states nothing for a negative duration, which the setup slider cannot produce.
- JsNumber.Rem: states only the floored form for a non-negative dividend; the bound below the modulus is proved where it is used, at modulus 5.
- Intervention.Machine.PlanFailed: `planIntervention` catches its own failures and returns the fallback plan, so the `catch` branch runs only when `speak` or `updateConfig` throws; neither throws in the model, so the branch is modelled as a method the caller invokes, not as the consequence of a failed request (`Intervention.FailedPlanEscalates` covers that case).
- String lengths are counts of characters, while JavaScript's `length` counts UTF-16 code units. The length thresholds of `AiService.ValidateAnswer`, `AssistantChat.MatchLength` and the wake effect's more-than-three-characters guard therefore differ from the source for characters outside the Basic Multilingual Plane, such as emoji.
- Dashboard.FormatMinutes: the round trip is stated for non-negative totals only; stored totals are rounded minutes, so they are whole numbers.

## Findings

| source | as written | input that shows it | evidently intended | confidence | as-written member | corrected member |
|---|---|---|---|---|---|---|
| services/aiService.ts:181-188, hooks/useDistractionDetection.ts:197-202 | `analyzeMultimodalFrames` catches every error, including HTTP 429, and returns a "no distraction" result, so the loop always resets the back-off multiplier to 1 | every classifier call rejected with status 429 | consecutive rate-limit errors double the polling delay up to eight times | not executed | DistractionDetection.RateLimitBackoffUnreachable | DistractionDetection.RateLimitedRunBacksOff |
| hooks/useIntervention.ts:94-95,125-137 | a plan that arrives stores its escalation timer in the ref without clearing the one already stored there | trigger, "False Alarm", trigger again, then both plans arrive with an alarm requested | one live escalation timer per intervention | not executed | Intervention.TwoPlansLeaveTwoTimers | Intervention.TwoPlansClearingRef |
