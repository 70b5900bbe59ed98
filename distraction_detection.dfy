/**
 * The webcam polling loop (hooks/useDistractionDetection.ts). One call of `CheckLoop` is one
 * pass of the source's `checkLoop`: guards, the motion score against the previous motion
 * frame, the next polling delay, the classifier result, the debounce of a distraction over
 * the configured tolerance, and the back-off after rate-limit errors. The loop's refs are the
 * fields of `Detector`; what the browser and the service supply arrives in `Environment`.
 */
module DistractionDetection {
  import opened Wrappers
  import opened Types
  import AiService

  type byte = x: int | 0 <= x < 256

  /** The motion canvas is 64 by 48 pixels of four bytes each. */
  const FRAME_BYTES: nat := 64 * 48 * 4

  /** Every eighth pixel is sampled: a stride of 32 bytes. */
  const STRIDE: nat := 32

  /** A sampled pixel has moved when its red, green and blue differences sum to more than 60. */
  const MOTION_THRESHOLD: int := 60

  function Abs(x: int): nat { if x < 0 then -x else x }

  /** The number of sampled offsets 0, 32, 64, ... below `n`. */
  function Samples(n: nat): nat { (n + STRIDE - 1) / STRIDE }

  predicate WellFormedPair(cur: seq<byte>, prev: seq<byte>) {
    |cur| > 0 && |cur| % 4 == 0 && |prev| == |cur|
  }

  /** The pixel whose red byte is at offset `i` changed by more than the threshold. */
  predicate Moved(cur: seq<byte>, prev: seq<byte>, i: nat)
    requires |prev| == |cur| && i + 2 < |cur|
  {
    Abs(cur[i] as int - prev[i] as int) + Abs(cur[i + 1] as int - prev[i + 1] as int)
      + Abs(cur[i + 2] as int - prev[i + 2] as int) > MOTION_THRESHOLD
  }

  /** Every sampled offset leaves room for the pixel's red, green and blue bytes. */
  lemma SampleInFrame(n: nat, j: nat)
    requires n % 4 == 0 && j < Samples(n)
    ensures STRIDE * j + 3 < n
  {
    var q := (n + 31) / 32;
    assert 32 * q <= n + 31;
    assert 32 * j + 32 <= 32 * q;
    var m := n / 4;
    assert n == 4 * m;
    assert 8 * j < m;
  }

  /** An offset whose remainder by the stride is below 3 has the same remainder by 4: it is not an alpha byte. */
  lemma StrideResidue(i: nat)
    requires i % 32 < 3
    ensures i % 4 == i % 32
  {
    var a := i / 32;
    var r := i % 32;
    assert i == 4 * (8 * a) + r;
    var b := i / 4;
    assert i == 4 * b + i % 4;
    assert 4 * (b - 8 * a) == r - i % 4;
  }

  /** A count out of a positive total is a share between 0 and 1. */
  lemma ShareBounds(c: nat, d: nat)
    requires 0 < d && c <= d
    ensures 0.0 <= c as real / d as real <= 1.0
  {
    assert c as real <= d as real;
    assert c as real / d as real <= d as real / d as real;
  }

  /** How many of the first `k` sampled pixels moved. */
  function MovedCount(cur: seq<byte>, prev: seq<byte>, k: nat): (c: nat)
    requires WellFormedPair(cur, prev) && k <= Samples(|cur|)
    ensures c <= k
  {
    if k == 0 then 0
    else
      SampleInFrame(|cur|, k - 1);
      MovedCount(cur, prev, k - 1) + (if Moved(cur, prev, STRIDE * (k - 1)) then 1 else 0)
  }

  /** The motion score: the share of sampled pixels that moved. */
  function Score(cur: seq<byte>, prev: seq<byte>): (s: real)
    requires WellFormedPair(cur, prev)
    ensures 0.0 <= s <= 1.0
  {
    ShareBounds(MovedCount(cur, prev, Samples(|cur|)), Samples(|cur|));
    MovedCount(cur, prev, Samples(|cur|)) as real / Samples(|cur|) as real
  }

  /**
   * `getMotionScore`: full motion (1.0) for the first frame, otherwise the share of sampled
   * pixels that moved; the current frame is handed back to become the next previous frame.
   */
  method MotionScore(cur: seq<byte>, prev: Option<seq<byte>>) returns (score: real, data: seq<byte>)
    requires |cur| > 0 && |cur| % 4 == 0
    requires prev.Some? ==> |prev.value| == |cur|
    ensures data == cur
    ensures prev.None? ==> score == 1.0
    ensures prev.Some? ==> score == Score(cur, prev.value)
    ensures 0.0 <= score <= 1.0
  {
    data := cur;
    if prev.None? {
      return 1.0, data;
    }
    var p := prev.value;
    var diffPixels: nat := 0;
    var totalSampled: nat := 0;
    var i: nat := 0;
    while i < |cur|
      invariant i == STRIDE * totalSampled
      invariant totalSampled <= Samples(|cur|)
      invariant i < |cur| ==> totalSampled < Samples(|cur|)
      invariant i >= |cur| ==> totalSampled == Samples(|cur|)
      invariant diffPixels == MovedCount(cur, p, totalSampled)
      decreases |cur| - i
    {
      SampleInFrame(|cur|, totalSampled);
      if Moved(cur, p, i) {
        diffPixels := diffPixels + 1;
      }
      totalSampled := totalSampled + 1;
      i := i + STRIDE;
    }
    score := diffPixels as real / totalSampled as real;
  }

  /** Only the sampled red, green and blue bytes count: frames equal there score alike. */
  lemma {:induction false} MovedCountSampledOnly(cur: seq<byte>, cur': seq<byte>, prev: seq<byte>, k: nat)
    requires WellFormedPair(cur, prev) && WellFormedPair(cur', prev)
    requires k <= Samples(|cur|)
    requires forall i :: 0 <= i < |cur| && i % STRIDE < 3 ==> cur[i] == cur'[i]
    ensures MovedCount(cur, prev, k) == MovedCount(cur', prev, k)
  {
    if k > 0 {
      var i := STRIDE * (k - 1);
      SampleInFrame(|cur|, k - 1);
      assert i % STRIDE == 0;
      assert cur[i] == cur'[i] && cur[i + 1] == cur'[i + 1] && cur[i + 2] == cur'[i + 2];
      MovedCountSampledOnly(cur, cur', prev, k - 1);
    }
  }

  /** The alpha channel never affects the score. */
  lemma AlphaIgnored(cur: seq<byte>, cur': seq<byte>, prev: seq<byte>)
    requires WellFormedPair(cur, prev) && WellFormedPair(cur', prev)
    requires forall i :: 0 <= i < |cur| && i % 4 != 3 ==> cur[i] == cur'[i]
    ensures Score(cur, prev) == Score(cur', prev)
  {
    forall i | 0 <= i < |cur| && i % STRIDE < 3
      ensures cur[i] == cur'[i]
    {
      StrideResidue(i);
    }
    MovedCountSampledOnly(cur, cur', prev, Samples(|cur|));
  }

  /** A frame identical to the previous one scores zero. */
  lemma {:induction false} StillFrameScoresZero(cur: seq<byte>, k: nat)
    requires WellFormedPair(cur, cur) && k <= Samples(|cur|)
    ensures MovedCount(cur, cur, k) == 0
  {
    if k > 0 { StillFrameScoresZero(cur, k - 1); }
  }

  // ---------------------------------------------------------------- debounce

  /** `customSettings?.distractionTolerance || 30`, capped at 10 seconds in hardcore mode. */
  function Tolerance(config: SessionConfig): (t: int)
    ensures config.mode == HARDCORE ==> t <= 10
    ensures var given := config.customSettings.Some? && config.customSettings.value.distractionTolerance.Some?
                       && config.customSettings.value.distractionTolerance.value != 0;
            var base := if given then config.customSettings.value.distractionTolerance.value else 30;
            && (config.mode != HARDCORE ==> t == base)
            && (config.mode == HARDCORE ==> t == if base < 10 then base else 10)
  {
    var tol := match config.customSettings
      case Some(cs) => (match cs.distractionTolerance
                        case Some(v) => if v != 0 then v else 30
                        case None => 30)
      case None => 30;
    if config.mode == HARDCORE then (if tol < 10 then tol else 10) else tol
  }

  /** The classifier's answer counts as a distraction: flagged, over 75% confident, and of a type other than none. */
  predicate Qualifies(a: AiService.Analysis): (q: bool)
    ensures q ==> a != AiService.NO_DISTRACTION
  {
    a.isDistracted && a.confidence > 75 && a.distractionType != "none"
  }

  /**
   * The debounce on one classifier answer. `firstSeen` is the time of the first sighting in
   * the current episode, 0 when there is none (the source only tests it for truthiness, so
   * its `null` and `0` behave alike). A qualifying answer opens an episode, or fires once more
   * than `tolerance` seconds have passed since it opened, closing it; any other answer closes
   * it without firing.
   */
  function Observe(firstSeen: int, qualifies: bool, now: int, tolerance: int): (r: (int, bool))
    ensures var (first', fired) := r;
            && (fired ==> qualifies && firstSeen != 0 && (now - firstSeen) as real / 1000.0 > tolerance as real && first' == 0)
            && (qualifies && firstSeen != 0 && (now - firstSeen) as real / 1000.0 > tolerance as real ==> fired)
            && (!qualifies ==> first' == 0)
            && (qualifies && firstSeen == 0 ==> first' == now)
            && (qualifies && firstSeen != 0 && !fired ==> first' == firstSeen)
  {
    if !qualifies then (0, false)
    else if firstSeen == 0 then (now, false)
    else if (now - firstSeen) as real / 1000.0 > tolerance as real then (0, true)
    else (firstSeen, false)
  }

  /** The number of triggers a run of qualifying answers at the given times produces. */
  function Fires(firstSeen: int, times: seq<int>, tolerance: int): nat
    decreases |times|
  {
    if times == [] then 0
    else
      var (first', fired) := Observe(firstSeen, true, times[0], tolerance);
      (if fired then 1 else 0) + Fires(first', times[1..], tolerance)
  }

  /**
   * At most one trigger per episode: a trigger closes the episode, and the next sighting only
   * opens a new one, so a run of `n` qualifying answers fires at most `n / 2` times when no
   * episode is open at its start (and at most `(n + 1) / 2` times when one is).
   */
  lemma {:induction false} FiresAtMostEveryOtherSighting(firstSeen: int, times: seq<int>, tolerance: int)
    ensures firstSeen == 0 ==> Fires(firstSeen, times, tolerance) <= |times| / 2
    ensures Fires(firstSeen, times, tolerance) <= (|times| + 1) / 2
    decreases |times|
  {
    if times != [] {
      var (first', fired) := Observe(firstSeen, true, times[0], tolerance);
      FiresAtMostEveryOtherSighting(first', times[1..], tolerance);
      if fired {
        assert first' == 0;
      } else if firstSeen == 0 {
        assert Fires(firstSeen, times, tolerance) == Fires(first', times[1..], tolerance);
      }
    }
  }

  /** A distraction that persists is reported: two qualifying sightings more than the tolerance apart fire. */
  lemma PersistentDistractionFires(t0: int, t1: int, tolerance: int)
    requires t0 != 0 && (t1 - t0) as real / 1000.0 > tolerance as real
    ensures Fires(0, [t0, t1], tolerance) == 1
  {
    assert Observe(0, true, t0, tolerance) == (t0, false);
    assert Observe(t0, true, t1, tolerance) == (0, true);
    assert [t0, t1][1..] == [t1];
    assert [t1][1..] == [];
    assert Fires(t0, [t1], tolerance) == 1 + Fires(0, [], tolerance);
  }

  // ---------------------------------------------------------------- polling delay and back-off

  /** Poll fast (3 s) while an episode is open, every 5 s while there is motion, otherwise every 15 s. */
  function BaseDelay(episodeOpen: bool, motion: real): (d: int)
    ensures d == 3000 || d == 5000 || d == 15000
    ensures episodeOpen <==> d == 3000
    ensures !episodeOpen && motion > 0.05 <==> d == 5000
  {
    if episodeOpen then 3000 else if motion > 0.05 then 5000 else 15000
  }

  /** How the awaited classifier call ended. */
  datatype AnalysisOutcome = Returned(result: AiService.Analysis) | Threw(rateLimited: bool)

  predicate ValidBackoff(b: int) { b == 1 || b == 2 || b == 4 || b == 8 }

  /** A result resets the back-off to 1; a rate-limit error doubles it up to 8; other errors keep it. */
  function NextBackoff(b: int, outcome: AnalysisOutcome): (b': int)
    ensures ValidBackoff(b) ==> ValidBackoff(b')
    ensures outcome.Returned? ==> b' == 1
    ensures outcome.Threw? && outcome.rateLimited && ValidBackoff(b) ==> b' == if b == 8 then 8 else 2 * b
    ensures outcome.Threw? && !outcome.rateLimited ==> b' == b
  {
    match outcome
    case Returned(_) => 1
    case Threw(rateLimited) => if rateLimited then (if b * 2 < 8 then b * 2 else 8) else b
  }

  /** What the browser and the service supply to one pass of the loop. */
  datatype Environment = Environment(
    interventionActive: bool,
    hasVideo: bool,
    monitoring: bool,
    status: SessionStatus,
    motionPixels: Option<seq<byte>>,
    frameCaptured: bool,
    outcome: AnalysisOutcome,
    interventionActiveAfterCall: bool,
    config: SessionConfig,
    now: int)

  /** The pass is skipped, and retried in two seconds: an intervention is on, there is no video, the tab is hidden or the session is not running. */
  predicate Skipped(env: Environment) {
    env.interventionActive || !env.hasVideo || !env.monitoring || env.status != Active
  }

  /** Motion pixels, when present, are the motion canvas's bytes. */
  predicate WellFormedEnv(env: Environment) {
    env.motionPixels.Some? ==> |env.motionPixels.value| == FRAME_BYTES
  }

  /** The loop's refs: the episode's first-sighting time, the previous motion frame and the back-off multiplier. */
  class Detector {
    var firstSeen: int
    var prevFrame: Option<seq<byte>>
    var backoff: int

    ghost predicate Valid()
      reads this
    {
      ValidBackoff(backoff) && (prevFrame.Some? ==> |prevFrame.value| == FRAME_BYTES)
    }

    constructor()
      ensures Valid() && firstSeen == 0 && prevFrame == None && backoff == 1
    {
      firstSeen := 0;
      prevFrame := None;
      backoff := 1;
    }

    /** The reset effect: once an intervention is on, the episode and the motion history are forgotten. */
    method OnInterventionChange(active: bool)
      requires Valid()
      modifies this
      ensures Valid() && backoff == old(backoff)
      ensures active ==> firstSeen == 0 && prevFrame == None
      ensures !active ==> firstSeen == old(firstSeen) && prevFrame == old(prevFrame)
    {
      if active {
        firstSeen := 0;
        prevFrame := None;
      }
    }

    /**
     * One pass of `checkLoop`. Returns the delay before the next pass and the distraction
     * type when this pass triggers an intervention.
     */
    method CheckLoop(env: Environment) returns (delay: int, triggered: Option<string>)
      requires Valid() && WellFormedEnv(env)
      modifies this
      ensures Valid()
      ensures Skipped(env) ==>
                delay == 2000 && triggered == None
                && firstSeen == old(firstSeen) && prevFrame == old(prevFrame) && backoff == old(backoff)
      ensures !Skipped(env) ==>
                && prevFrame == (if env.motionPixels.Some? then env.motionPixels else old(prevFrame))
                && delay == BaseDelay(old(firstSeen) != 0, MotionOf(env.motionPixels, old(prevFrame))) * old(backoff)
                && backoff == (if env.frameCaptured then NextBackoff(old(backoff), env.outcome) else old(backoff))
      ensures !Skipped(env) && !(env.frameCaptured && env.outcome.Returned? && !env.interventionActiveAfterCall) ==>
                firstSeen == old(firstSeen) && triggered == None
      ensures !Skipped(env) && env.frameCaptured && env.outcome.Returned? && !env.interventionActiveAfterCall ==>
                var (first', fired) := Observe(old(firstSeen), Qualifies(env.outcome.result), env.now, Tolerance(env.config));
                && firstSeen == first'
                && triggered == (if fired then Some(env.outcome.result.distractionType) else None)
      // The delay is chosen before the classifier answers: a pass that opens an episode still waits 5 or 15 seconds.
      ensures !Skipped(env) && old(firstSeen) == 0 ==> delay >= 5000 * old(backoff)
    {
      triggered := None;
      if Skipped(env) {
        return 2000, None;
      }
      var motion := 0.0;
      if env.motionPixels.Some? {
        var score, data := MotionScore(env.motionPixels.value, prevFrame);
        prevFrame := Some(data);
        motion := score;
      }
      delay := BaseDelay(firstSeen != 0, motion) * backoff;
      if env.frameCaptured {
        backoff := NextBackoff(backoff, env.outcome);
        if env.outcome.Returned? && !env.interventionActiveAfterCall {
          var (first', fired) := Observe(firstSeen, Qualifies(env.outcome.result), env.now, Tolerance(env.config));
          firstSeen := first';
          if fired {
            triggered := Some(env.outcome.result.distractionType);
          }
        }
      }
    }
  }

  /** The motion score a pass computes: none without pixels, full for a first frame. */
  function MotionOf(pixels: Option<seq<byte>>, prev: Option<seq<byte>>): (m: real)
    requires pixels.Some? ==> |pixels.value| == FRAME_BYTES
    requires prev.Some? ==> |prev.value| == FRAME_BYTES
    ensures 0.0 <= m <= 1.0
    ensures pixels.None? ==> m == 0.0
    ensures pixels.Some? && prev.None? ==> m == 1.0
  {
    if pixels.None? then 0.0
    else if prev.None? then 1.0
    else Score(pixels.value, prev.value)
  }

  // ---------------------------------------------------------------- the classifier's rate limit

  /**
   * The classifier as the application calls it: `analyzeMultimodalFrames` catches every
   * failure itself, so the loop only ever sees a returned result.
   */
  function ClassifierOutcome(reply: AiService.Reply, parse: string -> Option<AiService.Analysis>): (o: AnalysisOutcome)
    ensures o.Returned?
  {
    Returned(AiService.AnalyzeFrames(reply, parse))
  }

  /**
   * The loop's rate-limit back-off can never engage: even when every reply is an HTTP 429
   * rejection, the multiplier is reset to 1 after each pass.
   */
  lemma RateLimitBackoffUnreachable(b: int, message: string, parse: string -> Option<AiService.Analysis>)
    ensures NextBackoff(b, ClassifierOutcome(AiService.Rejected(AiService.ApiError(429, message)), parse)) == 1
  {
  }

  /** A classifier that lets the 429 rejection reach the loop, which the back-off is written for. */
  function ClassifierOutcomeSurfacingRateLimit(reply: AiService.Reply, parse: string -> Option<AiService.Analysis>): (o: AnalysisOutcome)
    ensures reply.Rejected? && reply.error.status == 429 ==> o == Threw(true)
    ensures !(reply.Rejected? && reply.error.status == 429) ==> o == ClassifierOutcome(reply, parse)
  {
    if reply.Rejected? && reply.error.status == 429 then Threw(true)
    else Returned(AiService.AnalyzeFrames(reply, parse))
  }

  function BackoffAfter(b: int, replies: seq<AiService.Reply>, parse: string -> Option<AiService.Analysis>): int
    decreases |replies|
  {
    if replies == [] then b
    else BackoffAfter(NextBackoff(b, ClassifierOutcomeSurfacingRateLimit(replies[0], parse)), replies[1..], parse)
  }

  /** The back-off multiplier after `n` doublings from 1, capped at 8. */
  function Doubled(b: int, n: nat): int
    decreases n
  {
    if n == 0 || b >= 8 then (if b < 8 then b else 8) else Doubled(2 * b, n - 1)
  }

  /** With the 429 surfaced, consecutive rate-limit errors double the polling delay up to eight times, and no further. */
  lemma {:induction false} RateLimitedRunBacksOff(b: int, replies: seq<AiService.Reply>, parse: string -> Option<AiService.Analysis>)
    requires ValidBackoff(b)
    requires forall k :: 0 <= k < |replies| ==> replies[k].Rejected? && replies[k].error.status == 429
    ensures BackoffAfter(b, replies, parse) == Doubled(b, |replies|)
    ensures ValidBackoff(BackoffAfter(b, replies, parse))
    ensures |replies| >= 3 ==> BackoffAfter(b, replies, parse) == 8
    decreases |replies|
  {
    if replies != [] {
      var b1 := NextBackoff(b, ClassifierOutcomeSurfacingRateLimit(replies[0], parse));
      assert b1 == if b == 8 then 8 else 2 * b;
      RateLimitedRunBacksOff(b1, replies[1..], parse);
      if |replies| >= 3 {
        assert b == 1 || b == 2 || b == 4 || b == 8;
        if b == 1 {
          assert Doubled(4, |replies| - 2) == 8;
        }
      }
    }
  }
}
