/**
 * The focus assistant's request handling (hooks/useVoiceAssistant.ts): an hourly quota of 15
 * uncached questions, a queue of at most three waiting messages while a request is in
 * flight, and a cache of replies keyed by the trimmed, lower-cased question.
 *
 * `HandleUserMessage` is the synchronous part of `handleUserMessage`; `Complete` is the
 * moment the awaited remote reply arrives. Between them the assistant is `awaiting` that
 * reply. Cached answers need no remote call, so `Pump` serves them straight away. The chat
 * record and the spoken replies are collected in `log`.
 */
module VoiceAssistant {
  import opened Wrappers
  import Strings
  import AiService

  const MAX_REQUESTS_PER_HOUR: int := 15
  const HOUR_MS: int := 3600000
  const RATE_LIMIT_WARNING: string := "Rate limit reached. 15 questions per hour max."

  /** A line of the chat: what the user sent and what the assistant answered. */
  datatype Entry = UserSaid(text: string) | AssistantSaid(text: string)

  /** The cache key: the question trimmed and lower-cased, so it holds no upper-case letter. */
  function CacheKey(text: string): (k: string)
    ensures |k| <= |text|
    ensures forall i :: 0 <= i < |k| ==> !Strings.IsUpperAscii(k[i])
  {
    Strings.Lower(Strings.Trim(text))
  }

  /** Two questions share a key exactly when their trimmed texts differ at most in the case of ASCII letters. */
  lemma CacheKeyCollision(a: string, b: string)
    ensures CacheKey(a) == CacheKey(b) <==> Strings.EqualIgnoringCase(Strings.Trim(a), Strings.Trim(b))
  {
    var ta, tb := Strings.Trim(a), Strings.Trim(b);
    if CacheKey(a) == CacheKey(b) {
      assert forall i :: 0 <= i < |ta| ==> Strings.LowerChar(ta[i]) == CacheKey(a)[i] == CacheKey(b)[i];
    }
  }

  /** Leading whitespace does not change the key: " What next?" and "what next?" share one. */
  lemma CacheKeyIgnoresLeadingSpace(text: string)
    ensures CacheKey(" " + text) == CacheKey(text)
  {
    assert (" " + text)[1..] == text;
    Strings.TrimStartSkips(" " + text);
  }

  /** The quota window: once `now` is past the reset time, the count restarts and the window runs an hour from now. */
  function RenewWindow(count: int, resetTime: int, now: int): (w: (int, int))
    ensures now > resetTime ==> w == (0, now + HOUR_MS)
    ensures now <= resetTime ==> w == (count, resetTime)
    ensures w.1 >= now || w.1 == resetTime
  {
    if now > resetTime then (0, now + HOUR_MS) else (count, resetTime)
  }

  /** The quota: a cached question is free; any other one is refused at 15 and otherwise counted. */
  function Charge(count: int, cached: bool): (r: Option<int>)
    ensures r.None? <==> !cached && count >= MAX_REQUESTS_PER_HOUR
    ensures cached ==> r == Some(count)
    ensures r.Some? && !cached ==> r.value == count + 1
    ensures 0 <= count <= MAX_REQUESTS_PER_HOUR && r.Some? ==> 0 <= r.value <= MAX_REQUESTS_PER_HOUR
  {
    if cached then Some(count)
    else if count >= MAX_REQUESTS_PER_HOUR then None
    else Some(count + 1)
  }

  /** The quota decision for a question asked at `now`. */
  function Charged(count: int, resetTime: int, now: int, text: string, cache: map<string, string>): Option<int> {
    Charge(RenewWindow(count, resetTime, now).0, CacheKey(text) in cache)
  }

  /** Admission to the queue: while a request is in flight, a message is dropped once three are waiting. */
  function Admit(processing: bool, queue: seq<string>, text: string): (r: Option<seq<string>>)
    ensures r.None? <==> processing && |queue| > 2
    ensures r.Some? ==> r.value == queue + [text]
    ensures (processing ==> |queue| <= 3) && (!processing ==> queue == []) && r.Some? ==> |r.value| <= 3
  {
    if processing && |queue| > 2 then None else Some(queue + [text])
  }

  /** Where `processQueue` comes to rest: the messages still waiting, the chat so far, and the message whose reply is awaited. */
  datatype Drained = Drained(queue: seq<string>, log: seq<Entry>, awaiting: Option<string>)

  /**
   * `processQueue` run until it must wait: messages are taken first in, first out; an empty
   * one is skipped, a cached one answered from the cache, and the first uncached one sent.
   */
  function Drain(queue: seq<string>, cache: map<string, string>, log: seq<Entry>): (d: Drained)
    ensures d.awaiting.None? ==> d.queue == []
    ensures |d.queue| <= |queue|
    decreases |queue|
  {
    if queue == [] then Drained([], log, None)
    else
      var text := queue[0];
      if text == [] then Drain(queue[1..], cache, log)
      else if CacheKey(text) in cache then
        Drain(queue[1..], cache, log + [UserSaid(text)] + [AssistantSaid(cache[CacheKey(text)])])
      else Drained(queue[1..], log + [UserSaid(text)], Some(text))
  }

  /** Only a non-empty question whose key is not cached is sent to the service. */
  lemma {:induction false} DrainSendsOnlyUncached(queue: seq<string>, cache: map<string, string>, log: seq<Entry>)
    ensures var d := Drain(queue, cache, log);
            d.awaiting.Some? ==> d.awaiting.value != [] && CacheKey(d.awaiting.value) !in cache
    decreases |queue|
  {
    if queue != [] {
      var text := queue[0];
      if text == [] {
        DrainSendsOnlyUncached(queue[1..], cache, log);
      } else if CacheKey(text) in cache {
        DrainSendsOnlyUncached(queue[1..], cache, log + [UserSaid(text)] + [AssistantSaid(cache[CacheKey(text)])]);
      }
    }
  }

  /** The chat a queue of cached questions produces: each question, then its cached answer. */
  function Transcript(queue: seq<string>, cache: map<string, string>): seq<Entry>
    requires forall k :: 0 <= k < |queue| ==> CacheKey(queue[k]) in cache
  {
    if queue == [] then []
    else [UserSaid(queue[0]), AssistantSaid(cache[CacheKey(queue[0])])] + Transcript(queue[1..], cache)
  }

  /** Questions that are all cached are answered in the order they were asked, without a remote call. */
  lemma {:induction false} CachedQueueServedInOrder(queue: seq<string>, cache: map<string, string>, log: seq<Entry>)
    requires forall k :: 0 <= k < |queue| ==> queue[k] != [] && CacheKey(queue[k]) in cache
    ensures Drain(queue, cache, log) == Drained([], log + Transcript(queue, cache), None)
    decreases |queue|
  {
    if queue != [] {
      var text := queue[0];
      var log' := log + [UserSaid(text)] + [AssistantSaid(cache[CacheKey(text)])];
      DrainCachedHead(queue, cache, log);
      assert forall k :: 0 <= k < |queue[1..]| ==> queue[1..][k] == queue[k + 1];
      CachedQueueServedInOrder(queue[1..], cache, log');
      TranscriptStep(queue, cache, log);
    }
  }

  lemma DrainCachedHead(queue: seq<string>, cache: map<string, string>, log: seq<Entry>)
    requires queue != [] && queue[0] != [] && CacheKey(queue[0]) in cache
    ensures Drain(queue, cache, log) ==
            Drain(queue[1..], cache, log + [UserSaid(queue[0])] + [AssistantSaid(cache[CacheKey(queue[0])])])
  {
  }

  lemma DrainSkipsEmpty(queue: seq<string>, cache: map<string, string>, log: seq<Entry>)
    requires queue != [] && queue[0] == []
    ensures Drain(queue, cache, log) == Drain(queue[1..], cache, log)
  {
  }

  lemma DrainSends(queue: seq<string>, cache: map<string, string>, log: seq<Entry>)
    requires queue != [] && queue[0] != [] && CacheKey(queue[0]) !in cache
    ensures Drain(queue, cache, log) == Drained(queue[1..], log + [UserSaid(queue[0])], Some(queue[0]))
  {
  }

  lemma TranscriptStep(queue: seq<string>, cache: map<string, string>, log: seq<Entry>)
    requires queue != [] && forall k :: 0 <= k < |queue| ==> CacheKey(queue[k]) in cache
    ensures log + [UserSaid(queue[0])] + [AssistantSaid(cache[CacheKey(queue[0])])] + Transcript(queue[1..], cache) ==
            log + Transcript(queue, cache)
  {
    var q, a := UserSaid(queue[0]), AssistantSaid(cache[CacheKey(queue[0])]);
    var rest := Transcript(queue[1..], cache);
    assert Transcript(queue, cache) == [q, a] + rest;
    AppendPair(log, q, a, rest);
  }

  lemma AppendPair<T>(log: seq<T>, a: T, b: T, rest: seq<T>)
    ensures log + [a] + [b] + rest == log + ([a, b] + rest)
  {
  }

  class Assistant {
    var count: int
    var resetTime: int
    var queue: seq<string>
    var processing: bool
    var awaiting: Option<string>
    var cache: map<string, string>
    var warning: Option<string>
    var log: seq<Entry>

    /** The quota is never exceeded, at most three messages wait, and a request is in flight exactly while processing. */
    ghost predicate Valid()
      reads this
    {
      && 0 <= count <= MAX_REQUESTS_PER_HOUR
      && |queue| <= 3
      && (processing <==> awaiting.Some?)
      && (!processing ==> queue == [])
    }

    constructor(now: int)
      ensures Valid()
      ensures count == 0 && resetTime == now + HOUR_MS
      ensures queue == [] && !processing && awaiting == None
      ensures cache == map[] && warning == None && log == []
    {
      count := 0;
      resetTime := now + HOUR_MS;
      queue := [];
      processing := false;
      awaiting := None;
      cache := map[];
      warning := None;
      log := [];
    }

    /** One turn of `processQueue`: the head message is skipped when empty, answered from the cache, or sent. */
    method Step()
      requires queue != [] && awaiting.None?
      modifies this
      ensures processing && queue == old(queue)[1..]
      ensures awaiting.None? ==> Drain(queue, cache, log) == Drain(old(queue), cache, old(log))
      ensures awaiting.Some? ==> Drained(queue, log, awaiting) == Drain(old(queue), cache, old(log))
      ensures count == old(count) && resetTime == old(resetTime) && cache == old(cache) && warning == old(warning)
    {
      processing := true;
      var text := queue[0];
      if text == [] {
        DrainSkipsEmpty(queue, cache, log);
      } else {
        var key := CacheKey(text);
        if key in cache {
          DrainCachedHead(queue, cache, log);
          log := log + [UserSaid(text)] + [AssistantSaid(cache[key])];
        } else {
          DrainSends(queue, cache, log);
          log := log + [UserSaid(text)];
          awaiting := Some(text);
        }
      }
      queue := queue[1..];
    }

    /** `processQueue` until it has to wait for a remote reply or the queue is empty. */
    method Pump()
      requires awaiting.None? && |queue| <= 3 && 0 <= count <= MAX_REQUESTS_PER_HOUR
      modifies this
      ensures Valid()
      ensures var d := Drain(old(queue), cache, old(log));
              queue == d.queue && log == d.log && awaiting == d.awaiting
      ensures count == old(count) && resetTime == old(resetTime) && cache == old(cache) && warning == old(warning)
    {
      while queue != []
        invariant Drain(queue, cache, log) == Drain(old(queue), old(cache), old(log))
        invariant |queue| <= 3 && awaiting.None?
        invariant count == old(count) && resetTime == old(resetTime) && cache == old(cache) && warning == old(warning)
        decreases |queue|
      {
        Step();
        if awaiting.Some? {
          return;
        }
      }
      processing := false;
    }
  
    /** The quota half of `handleUserMessage`: renew the window, then charge, or refuse with a warning. */
    method ChargeQuota(text: string, now: int) returns (charged: bool)
      modifies this`count, this`resetTime, this`warning
      ensures resetTime == RenewWindow(old(count), old(resetTime), now).1
      ensures charged <==> Charged(old(count), old(resetTime), now, text, cache).Some?
      ensures !charged ==> count == RenewWindow(old(count), old(resetTime), now).0 && warning == Some(RATE_LIMIT_WARNING)
      ensures charged ==> count == Charged(old(count), old(resetTime), now, text, cache).value && warning == old(warning)
    {
      if now > resetTime {
        count := 0;
        resetTime := now + HOUR_MS;
      }
      var key := CacheKey(text);
      if key !in cache {
        if count >= MAX_REQUESTS_PER_HOUR {
          warning := Some(RATE_LIMIT_WARNING);
          return false;
        }
        count := count + 1;
      }
      return true;
    }

    /**
     * `handleUserMessage`: renew the quota window, charge the quota unless the question is
     * cached (refusing with a warning at the limit), then queue the message, dropping it when
     * three are already waiting behind a request in flight, and start processing when idle.
     */
    method HandleUserMessage(text: string, now: int)
      requires Valid()
      modifies this
      ensures Valid()
      ensures cache == old(cache)
      ensures resetTime == RenewWindow(old(count), old(resetTime), now).1
      ensures Charged(old(count), old(resetTime), now, text, old(cache)).None? ==>
                && count == RenewWindow(old(count), old(resetTime), now).0
                && warning == Some(RATE_LIMIT_WARNING)
                && queue == old(queue) && processing == old(processing) && awaiting == old(awaiting) && log == old(log)
      ensures Charged(old(count), old(resetTime), now, text, old(cache)).Some? ==>
                count == Charged(old(count), old(resetTime), now, text, old(cache)).value
      ensures Charged(old(count), old(resetTime), now, text, old(cache)).Some? && old(processing) ==>
                && awaiting == old(awaiting) && log == old(log)
                && (Admit(true, old(queue), text).None? ==> queue == old(queue) && warning == old(warning))
                && (Admit(true, old(queue), text).Some? ==> queue == Admit(true, old(queue), text).value && warning == None)
      ensures Charged(old(count), old(resetTime), now, text, old(cache)).Some? && !old(processing) ==>
                && queue == Drain([text], old(cache), old(log)).queue
                && log == Drain([text], old(cache), old(log)).log
                && awaiting == Drain([text], old(cache), old(log)).awaiting
                && warning == None
    {
      var charged := ChargeQuota(text, now);
      if !charged {
        return;
      }
      if processing {
        if |queue| > 2 {
          return;
        }
        queue := queue + [text];
      } else {
        queue := queue + [text];
        assert queue == [text];
        Pump();
      }
      warning := None;
    }

    /**
     * The awaited reply arrives: it is cached under the question's key (whatever it is, the
     * fallback text included), added to the chat, and processing goes on with the queue.
     */
    method Complete(reply: AiService.Reply)
      requires Valid() && awaiting.Some?
      modifies this
      ensures Valid()
      ensures var answer := AiService.ChatWithAssistant(reply);
              && cache == old(cache)[CacheKey(old(awaiting).value) := answer]
              && var d := Drain(old(queue), cache, old(log) + [AssistantSaid(answer)]);
                 queue == d.queue && log == d.log && awaiting == d.awaiting
      ensures count == old(count) && resetTime == old(resetTime) && warning == old(warning)
    {
      var answer := AiService.ChatWithAssistant(reply);
      cache := cache[CacheKey(awaiting.value) := answer];
      log := log + [AssistantSaid(answer)];
      awaiting := None;
      Pump();
    }
  }

  /** A question asked again after its answer arrived is served from the cache, without charging the quota. */
  lemma RepeatedQuestionIsFree(count: int, text: string, cache: map<string, string>, answer: string)
    requires text != []
    ensures Charge(count, CacheKey(text) in cache[CacheKey(text) := answer]) == Some(count)
    ensures Drain([text], cache[CacheKey(text) := answer], []) == Drained([], [UserSaid(text), AssistantSaid(answer)], None)
  {
    var c := cache[CacheKey(text) := answer];
    assert [text][1..] == [];
    assert Drain([], c, [UserSaid(text)] + [AssistantSaid(answer)]) == Drained([], [UserSaid(text), AssistantSaid(answer)], None);
  }
}
