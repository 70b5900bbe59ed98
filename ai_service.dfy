/**
 * The façade over the generative-model service (services/aiService.ts). The remote call is
 * not modelled: each operation takes how that call settled (its reply text, a rejection, or
 * the timer winning the race) and a `parse` function standing in for `JSON.parse`, and
 * computes what the source returns from them. Every operation but the JSON cleaner
 * ends in a fallback value instead of an error.
 */
module AiService {
  import opened Wrappers
  import opened Types
  import Strings

  /** An error thrown by the model client; `status` is the HTTP status when there is one. */
  datatype ApiError = ApiError(status: int, message: string)

  /** How a promise raced against a timer settled. */
  datatype Settled<+T> = Resolved(value: T) | Rejected(error: ApiError) | TimedOut

  /** The model call: the response's `text` (possibly absent) or a failure. */
  type Reply = Settled<Option<string>>

  // ---------------------------------------------------------------- cleanAndParseJSON

  datatype ParseError = EmptyResponse | InvalidJsonStructure | NoJsonObject

  /** Markdown fences removed (first every ```json, then every ```), then whitespace trimmed. */
  function Clean(text: string): (r: string)
    ensures |r| <= |text|
    ensures r == [] || (!Strings.IsWhitespace(r[0]) && !Strings.IsWhitespace(r[|r| - 1]))
    ensures !Strings.Contains(r, "```")
  {
    var unfenced := Strings.RemoveAll(Strings.RemoveAll(text, "```json"), "```");
    Strings.RemoveFenceLeavesNone(Strings.RemoveAll(text, "```json"));
    Strings.TrimKeepsAbsent(unfenced, "```");
    Strings.Trim(unfenced)
  }

  /** The span the fallback extraction parses: from the first `{` to the last `}`, as `substring` takes it. */
  function Candidate(clean: string): string
    requires '{' in clean && '}' in clean
  {
    var open := Strings.IndexOfChar(clean, '{');
    var close := Strings.LastIndexOfChar(clean, '}');
    Strings.JsSubstring(clean, open, close + 1)
  }

  /**
   * `cleanAndParseJSON`: empty text fails; otherwise the cleaned text is parsed, and when that
   * fails the span from the first `{` to the last `}` is parsed instead.
   */
  function CleanAndParse<J>(text: Option<string>, parse: string -> Option<J>): (r: Result<J, ParseError>)
    ensures text.None? || text == Some("") <==> r == Err(EmptyResponse)
    ensures text.Some? && text.value != "" && parse(Clean(text.value)).Some? ==>
              r == Ok(parse(Clean(text.value)).value)
    ensures r == Err(NoJsonObject) <==>
              text.Some? && text.value != "" && parse(Clean(text.value)).None?
              && ('{' !in Clean(text.value) || '}' !in Clean(text.value))
    ensures r == Err(InvalidJsonStructure) ==>
              '{' in Clean(text.value) && '}' in Clean(text.value) && parse(Candidate(Clean(text.value))).None?
    ensures text.Some? && text.value != "" && parse(Clean(text.value)).None?
            && '{' in Clean(text.value) && '}' in Clean(text.value) ==>
              r == (match parse(Candidate(Clean(text.value)))
                    case Some(v) => Ok(v)
                    case None => Err(InvalidJsonStructure))
  {
    if text.None? || text.value == "" then Err(EmptyResponse)
    else
      var clean := Clean(text.value);
      match parse(clean)
      case Some(v) => Ok(v)
      case None =>
        if '{' in clean && '}' in clean then
          match parse(Candidate(clean))
          case Some(v) => Ok(v)
          case None => Err(InvalidJsonStructure)
        else Err(NoJsonObject)
  }

  /**
   * When the last `}` comes before the first `{`, `substring` swaps its bounds: the span
   * parsed is the text strictly between them, which starts with neither brace.
   */
  lemma CandidateSpan(clean: string)
    requires '{' in clean && '}' in clean
    ensures var open := Strings.IndexOfChar(clean, '{');
            var close := Strings.LastIndexOfChar(clean, '}');
            var c := Candidate(clean);
            && (open <= close ==> c == clean[open..close + 1] && c[0] == '{' && c[|c| - 1] == '}')
            && (close < open ==> c == clean[close + 1..open] && '{' !in c && '}' !in c)
  {
    var open := Strings.IndexOfChar(clean, '{');
    var close := Strings.LastIndexOfChar(clean, '}');
    assert 0 <= open < |clean| && clean[open] == '{' && '{' !in clean[..open];
    assert 0 <= close < |clean| && clean[close] == '}' && '}' !in clean[close + 1..];
    assert Candidate(clean) == Strings.JsSubstring(clean, open, close + 1);
    if open <= close {
      CandidateInOrder(clean, open, close);
    } else {
      CandidateSwapped(clean, open, close);
    }
  }

  /** The span `substring` takes between a `{` and a later `}`, both included. */
  lemma CandidateInOrder(clean: string, open: nat, close: nat)
    requires open <= close < |clean| && clean[open] == '{' && clean[close] == '}'
    ensures var c := Strings.JsSubstring(clean, open, close + 1);
            c == clean[open..close + 1] && c[0] == '{' && c[|c| - 1] == '}'
  {
  }

  /** The span `substring` takes, bounds swapped, when the last `}` precedes the first `{`. */
  lemma CandidateSwapped(clean: string, open: nat, close: nat)
    requires close < open < |clean| && '{' !in clean[..open] && '}' !in clean[close + 1..]
    ensures var c := Strings.JsSubstring(clean, open, close + 1);
            c == clean[close + 1..open] && '{' !in c && '}' !in c
  {
    NoBraceBetween(clean, close, open);
  }

  /** Between the last `}` and a later first `{` there is no brace of either kind. */
  lemma NoBraceBetween(clean: string, close: nat, open: nat)
    requires close < open < |clean| && '{' !in clean[..open] && '}' !in clean[close + 1..]
    ensures '{' !in clean[close + 1..open] && '}' !in clean[close + 1..open]
  {
    var mid := clean[close + 1..open];
    forall i | 0 <= i < |mid|
      ensures mid[i] != '{' && mid[i] != '}'
    {
      assert mid[i] == clean[..open][close + 1 + i];
      assert mid[i] == clean[close + 1..][i];
    }
  }

  /** `p` never starts inside `a`, so the removal scan passes over `a` unchanged. */
  lemma {:induction false} RemoveAllSkips(a: string, rest: string, p: string)
    requires |p| > 0 && p[0] !in a
    ensures Strings.RemoveAll(a + rest, p) == a + Strings.RemoveAll(rest, p)
    decreases |a|
  {
    if a == [] {
      assert a + rest == rest;
    } else {
      var s := a + rest;
      assert s[0] == a[0];
      if |s| < |p| {
        assert Strings.RemoveAll(rest, p) == rest;
      } else {
        assert s[..|p|][0] != p[0];
        assert s[1..] == a[1..] + rest;
        RemoveAllSkips(a[1..], rest, p);
        assert [a[0]] + a[1..] == a;
      }
    }
  }

  /** A reply wrapped in a ```json fence, with no other backtick, is cleaned to its trimmed text. */
  lemma FencedReplyCleaned(prefix: string, body: string)
    requires '`' !in prefix && '`' !in body
    ensures Clean(prefix + "```json" + body + "```") == Strings.Trim(prefix + body)
  {
    var fence := "```json";
    var tick := "```";
    var s := prefix + fence + body + tick;
    assert s == prefix + (fence + (body + tick));
    RemoveAllSkips(prefix, fence + (body + tick), fence);
    Strings.RemoveAllLeading(fence, body + tick);
    assert !Strings.Contains(body + tick, fence) by {
      forall i: nat | Strings.OccursAt(body + tick, fence, i) ensures false {
      }
    }
    Strings.RemoveAllAbsent(body + tick, fence);
    assert Strings.RemoveAll(s, fence) == prefix + (body + tick);
    RemoveAllSkips(prefix, body + tick, tick);
    RemoveAllSkips(body, tick, tick);
    Strings.RemoveAllLeading(tick, []);
    assert tick + [] == tick;
    assert body + [] == body;
  }

  /** A reply such as "Sure! ```json {...} ```" parses to the object inside the fence. */
  lemma FencedReplyParses<J>(prefix: string, body: string, parse: string -> Option<J>)
    requires '`' !in prefix && '`' !in body
    requires parse(Strings.Trim(prefix + body)).Some?
    ensures CleanAndParse(Some(prefix + "```json" + body + "```"), parse)
            == Ok(parse(Strings.Trim(prefix + body)).value)
  {
    FencedReplyCleaned(prefix, body);
  }

  // ---------------------------------------------------------------- withTimeout

  /**
   * `withTimeout`: the settled value when the call won the race; otherwise the fallback when
   * one was given, and the error (or a timeout error) when not.
   */
  function WithTimeout<T>(outcome: Settled<T>, fallback: Option<T>): (r: Result<T, ApiError>)
    ensures outcome.Resolved? ==> r == Ok(outcome.value)
    ensures !outcome.Resolved? && fallback.Some? ==> r == Ok(fallback.value)
    ensures fallback.Some? ==> r.Ok?
    ensures fallback.None? && outcome.Rejected? ==> r == Err(outcome.error)
    ensures fallback.None? && outcome.TimedOut? ==> r.Err? && r.error.message == "Request timed out"
  {
    match outcome
    case Resolved(v) => Ok(v)
    case Rejected(e) => if fallback.Some? then Ok(fallback.value) else Err(e)
    case TimedOut => if fallback.Some? then Ok(fallback.value) else Err(ApiError(0, "Request timed out"))
  }

  /** The model's reply text when the call succeeded, parsed and cleaned; `None` on any failure. */
  function ParsedReply<J>(reply: Reply, parse: string -> Option<J>): (r: Option<J>)
    ensures r.Some? ==> reply.Resolved? && CleanAndParse(reply.value, parse) == Ok(r.value)
    ensures reply.Resolved? && CleanAndParse(reply.value, parse).Ok? ==> r.Some?
  {
    match WithTimeout(reply, None)
    case Ok(text) =>
      (match CleanAndParse(text, parse)
       case Ok(v) => Some(v)
       case Err(_) => None)
    case Err(_) => None
  }

  // ---------------------------------------------------------------- analyzeMultimodalFrames

  datatype Analysis = Analysis(isDistracted: bool, distractionType: string, confidence: int)

  /** What the classifier is assumed to say when it cannot say anything: not distracted. */
  const NO_DISTRACTION: Analysis := Analysis(false, "none", 0)

  /** The data-URL header the frame is sent without, when it has one of the three image types. */
  function StripDataUrl(frame: string): (r: string)
    ensures |r| <= |frame| && r == frame[|frame| - |r|..]
    ensures (!Strings.StartsWith(frame, "data:image/png;base64,")
             && !Strings.StartsWith(frame, "data:image/jpeg;base64,")
             && !Strings.StartsWith(frame, "data:image/jpg;base64,")) ==> r == frame
  {
    if Strings.StartsWith(frame, "data:image/png;base64,") then frame[22..]
    else if Strings.StartsWith(frame, "data:image/jpeg;base64,") then frame[23..]
    else if Strings.StartsWith(frame, "data:image/jpg;base64,") then frame[22..]
    else frame
  }

  lemma StripJpegHeader(payload: string)
    ensures StripDataUrl("data:image/jpeg;base64," + payload) == payload
  {
    var f := "data:image/jpeg;base64," + payload;
    assert f[..22] != "data:image/png;base64," by { assert f[11] == 'j'; }
    assert f[..23] == "data:image/jpeg;base64,";
  }

  /** Only the first frame, stripped of its header, is sent; an empty list sends nothing. */
  function ImagePayload(frames: seq<string>): (r: Option<string>)
    ensures r.Some? <==> |frames| > 0
    ensures |frames| > 0 ==> r.value == StripDataUrl(frames[0])
  {
    if |frames| > 0 then Some(StripDataUrl(frames[0])) else None
  }

  /**
   * `analyzeMultimodalFrames`: the parsed classification when the call succeeds with text
   * that parses; "not distracted" after a timeout, a rejection, an empty text or a parse
   * failure. It never throws.
   */
  function AnalyzeFrames(reply: Reply, parse: string -> Option<Analysis>): (r: Analysis)
    ensures ParsedReply(reply, parse).Some? ==> r == ParsedReply(reply, parse).value
    ensures ParsedReply(reply, parse).None? ==> r == NO_DISTRACTION
    ensures reply.TimedOut? || reply.Rejected? ==> r == NO_DISTRACTION
  {
    match ParsedReply(reply, parse)
    case Some(a) => a
    case None => NO_DISTRACTION
  }

  // ---------------------------------------------------------------- planIntervention

  datatype Plan = Plan(tone: string, customMessage: string, recommendedRecovery: string, shouldAlarm: bool)

  const FALLBACK_PLAN: Plan := Plan("firm", "Focus check. Let's get back to work.", SIMPLE_CLICK, true)

  /** `planIntervention`: the parsed plan, or a firm plan that sounds the alarm after any failure. */
  function PlanIntervention(reply: Reply, parse: string -> Option<Plan>): (r: Plan)
    ensures ParsedReply(reply, parse).Some? ==> r == ParsedReply(reply, parse).value
    ensures ParsedReply(reply, parse).None? ==> r == FALLBACK_PLAN && r.shouldAlarm
  {
    ParsedReply(reply, parse).GetOr(FALLBACK_PLAN)
  }

  // ---------------------------------------------------------------- suggestSessionConfig

  /** The reply as parsed; any field may be missing. */
  datatype RawSuggestion = RawSuggestion(
    recommendedDuration: Option<int>,
    recommendedMode: Option<string>,
    recommendedPersonality: Option<string>,
    reasoning: Option<string>,
    tips: Option<string>)

  datatype Suggestion = Suggestion(
    duration: Option<int>,
    mode: Option<string>,
    personality: Option<string>,
    reasoning: Option<string>,
    tips: Option<string>)

  const FALLBACK_SUGGESTION: Suggestion := Suggestion(
    Some(25), Some(FOCUSED), Some(SUPPORTIVE_FRIEND),
    Some("Starting with a standard focused session."), Some("Clear your desk."))

  /** `suggestSessionConfig`: the reply's fields renamed, or a 25-minute focused session after any failure. */
  function SuggestSessionConfig(reply: Reply, parse: string -> Option<RawSuggestion>): (r: Suggestion)
    ensures ParsedReply(reply, parse).Some? ==>
              var raw := ParsedReply(reply, parse).value;
              r == Suggestion(raw.recommendedDuration, raw.recommendedMode, raw.recommendedPersonality, raw.reasoning, raw.tips)
    ensures ParsedReply(reply, parse).None? ==> r == FALLBACK_SUGGESTION && r.duration == Some(25)
  {
    match ParsedReply(reply, parse)
    case Some(raw) => Suggestion(raw.recommendedDuration, raw.recommendedMode, raw.recommendedPersonality, raw.reasoning, raw.tips)
    case None => FALLBACK_SUGGESTION
  }

  // ---------------------------------------------------------------- generateRecoveryTask

  datatype RecoveryTask = RecoveryTask(
    taskType: string,
    taskPrompt: string,
    expectedAnswerType: Option<string>,
    estimatedTime: int)

  const FALLBACK_TASK: RecoveryTask := RecoveryTask("planning", "What is the next immediate step?", None, 20)

  /** The batch a successful call delivers: parsed and not empty. */
  function FetchedBatch(reply: Reply, parse: string -> Option<seq<RecoveryTask>>): (b: Option<seq<RecoveryTask>>)
    ensures b.Some? ==> |b.value| > 0 && ParsedReply(reply, parse) == b
    ensures b.None? ==> ParsedReply(reply, parse).None? || ParsedReply(reply, parse) == Some([])
  {
    match ParsedReply(reply, parse)
    case Some(tasks) => if |tasks| > 0 then Some(tasks) else None
    case None => None
  }

  /** The module-level task cache: tasks left over from the last batch, served last first. */
  class RecoveryTaskCache {
    var tasks: seq<RecoveryTask>

    constructor()
      ensures tasks == []
    {
      tasks := [];
    }

    /**
     * `generateRecoveryTask`: a cached task when there is one, without calling the service;
     * otherwise the last task of a fresh batch, whose other tasks become the cache; and the
     * planning fallback, leaving the cache empty, when the batch fails or is empty.
     */
    method Generate(reply: Reply, parse: string -> Option<seq<RecoveryTask>>) returns (task: RecoveryTask, calledService: bool)
      modifies this
      ensures calledService <==> old(tasks) == []
      ensures old(tasks) != [] ==>
                task == old(tasks)[|old(tasks)| - 1] && tasks == old(tasks)[..|old(tasks)| - 1]
      ensures old(tasks) == [] && FetchedBatch(reply, parse).Some? ==>
                var batch := FetchedBatch(reply, parse).value;
                task == batch[|batch| - 1] && tasks == batch[..|batch| - 1]
      ensures old(tasks) == [] && FetchedBatch(reply, parse).None? ==> task == FALLBACK_TASK && tasks == []
    {
      if |tasks| > 0 {
        task := tasks[|tasks| - 1];
        tasks := tasks[..|tasks| - 1];
        calledService := false;
        return;
      }
      calledService := true;
      var batch := FetchedBatch(reply, parse);
      if batch.Some? {
        task := batch.value[|batch.value| - 1];
        tasks := batch.value[..|batch.value| - 1];
      } else {
        task := FALLBACK_TASK;
      }
    }
  }

  /**
   * One batch of `n` tasks serves `n` requests: the fetch returns its last task, and the
   * next `n - 1` requests are served from the cache, in reverse order, without a call.
   */
  method ServeBatch(batch: seq<RecoveryTask>, parse: string -> Option<seq<RecoveryTask>>, reply: Reply)
    returns (served: seq<RecoveryTask>, calls: nat)
    requires FetchedBatch(reply, parse) == Some(batch)
    ensures served == Reversed(batch) && calls == 1
  {
    var cache, first, called := FetchFirst(batch, parse, reply);
    var rest, restCalls := ServeCached(cache, parse, reply);
    served := [first] + rest;
    calls := (if called then 1 else 0) + restCalls;
  }

  /** The first request of all, on an empty cache: the service is called and its batch's last task served. */
  method FetchFirst(batch: seq<RecoveryTask>, parse: string -> Option<seq<RecoveryTask>>, reply: Reply)
    returns (cache: RecoveryTaskCache, first: RecoveryTask, called: bool)
    requires FetchedBatch(reply, parse) == Some(batch)
    ensures fresh(cache) && first == batch[|batch| - 1] && cache.tasks == batch[..|batch| - 1]
    ensures called
  {
    cache := new RecoveryTaskCache();
    first, called := cache.Generate(reply, parse);
  }

  /** Requests made while the cache holds tasks: each is served the last cached task, without a call. */
  method ServeCached(cache: RecoveryTaskCache, parse: string -> Option<seq<RecoveryTask>>, reply: Reply)
    returns (served: seq<RecoveryTask>, calls: nat)
    modifies cache
    ensures served == Reversed(old(cache.tasks)) && cache.tasks == []
    ensures calls == 0
  {
    ghost var start := cache.tasks;
    served := [];
    calls := 0;
    while cache.tasks != []
      invariant cache.tasks == start[..|cache.tasks|]
      invariant served + Reversed(cache.tasks) == Reversed(start)
      invariant calls == 0
      decreases |cache.tasks|
    {
      ghost var before := cache.tasks;
      var t, c := cache.Generate(reply, parse);
      assert Reversed(before) == [t] + Reversed(cache.tasks);
      served := served + [t];
      calls := calls + if c then 1 else 0;
    }
  }

  /** The tasks in the order the cache serves them, last first. */
  function Reversed<T>(s: seq<T>): (r: seq<T>)
    ensures |r| == |s|
    ensures forall k :: 0 <= k < |s| ==> r[k] == s[|s| - 1 - k]
  {
    if s == [] then [] else [s[|s| - 1]] + Reversed(s[..|s| - 1])
  }

  // ---------------------------------------------------------------- validateRecoveryAnswer

  datatype Validation = Validation(isValid: bool, feedback: Option<string>)

  /**
   * `validateRecoveryAnswer`: answers under three characters once trimmed are rejected and
   * answers over ten characters accepted, both without a call; an answer in between is
   * judged by the service, and accepted whenever the service fails.
   */
  function ValidateAnswer(answer: string, reply: Reply, parse: string -> Option<Validation>): (r: (Validation, bool))
    ensures var (v, called) := r;
            && (called <==> |Strings.Trim(answer)| >= 3 && |answer| <= 10)
            && (|Strings.Trim(answer)| < 3 ==> v == Validation(false, Some("Too short.")))
            && (|Strings.Trim(answer)| >= 3 && |answer| > 10 ==> v == Validation(true, Some("Good.")))
            && (called && ParsedReply(reply, parse).None? ==> v == Validation(true, Some("Accepted.")))
            && (called && ParsedReply(reply, parse).Some? ==> v == ParsedReply(reply, parse).value)
  {
    if |Strings.Trim(answer)| < 3 then (Validation(false, Some("Too short.")), false)
    else if |answer| > 10 then (Validation(true, Some("Good.")), false)
    else (ParsedReply(reply, parse).GetOr(Validation(true, Some("Accepted."))), true)
  }

  /** Validation fails open: an answer of three or more visible characters is rejected only by the service's own verdict. */
  lemma ValidationFailsOpen(answer: string, reply: Reply, parse: string -> Option<Validation>)
    requires |Strings.Trim(answer)| >= 3
    requires !ValidateAnswer(answer, reply, parse).0.isValid
    ensures reply.Resolved? && ParsedReply(reply, parse) == Some(ValidateAnswer(answer, reply, parse).0)
  {
  }

  // ---------------------------------------------------------------- chatWithAssistant

  /** One turn as the model client receives it. */
  datatype Content = Content(role: string, text: string)

  function ToContent(m: ChatMessage): Content {
    Content(if m.role == UserRole then "user" else "model", m.content)
  }

  /** The last six messages of the history, the assistant's turns renamed `model`. */
  function RecentHistory(history: seq<ChatMessage>): (r: seq<Content>)
    ensures |r| == if |history| < 6 then |history| else 6
    ensures forall k :: 0 <= k < |r| ==> r[k] == ToContent(history[|history| - |r| + k])
  {
    var start := if |history| < 6 then 0 else |history| - 6;
    seq(|history| - start, k requires 0 <= k < |history| - start => ToContent(history[start + k]))
  }

  /** What is sent: the recent history, then the new message as the user's turn. */
  function ChatRequest(message: string, history: seq<ChatMessage>): (r: seq<Content>)
    ensures 1 <= |r| <= 7 && r[|r| - 1] == Content("user", message)
    ensures |r| - 1 == (if |history| < 6 then |history| else 6)
    ensures forall k :: 0 <= k < |r| - 1 ==> r[k] == ToContent(history[|history| - (|r| - 1) + k])
  {
    RecentHistory(history) + [Content("user", message)]
  }

  /**
   * `chatWithAssistant`: the reply text; "Let's focus." when the reply has no text;
   * "Let's get back to work." when the call fails. The answer is never empty.
   */
  function ChatWithAssistant(reply: Reply): (r: string)
    ensures r != ""
    ensures reply.Resolved? && reply.value.Some? && reply.value.value != "" ==> r == reply.value.value
    ensures reply.Resolved? && (reply.value.None? || reply.value == Some("")) ==> r == "Let's focus."
    ensures !reply.Resolved? ==> r == "Let's get back to work."
  {
    match WithTimeout(reply, None)
    case Ok(text) => if text.Some? && text.value != "" then text.value else "Let's focus."
    case Err(_) => "Let's get back to work."
  }

  // ---------------------------------------------------------------- generateSessionInsights

  datatype Insights = Insights(positive: string, improvement: string, pattern: string)

  const FALLBACK_INSIGHTS: Insights :=
    Insights("Good focus session.", "Try to reduce interruptions.", "Consistent effort.")

  function GenerateSessionInsights(reply: Reply, parse: string -> Option<Insights>): (r: Insights)
    ensures ParsedReply(reply, parse).Some? ==> r == ParsedReply(reply, parse).value
    ensures ParsedReply(reply, parse).None? ==> r == FALLBACK_INSIGHTS
  {
    ParsedReply(reply, parse).GetOr(FALLBACK_INSIGHTS)
  }
}
