/**
 * Voice selection for spoken replies (hooks/useTTS.ts): every English voice is scored by
 * its region and by quality words in its name, the English voices are sorted best first,
 * and a personality may prefer a voice of a given kind. The speech engine itself is outside
 * the model; its voice list is a parameter.
 */
module Tts {
  import opened Wrappers
  import opened Strings
  import Types

  datatype Voice = Voice(name: string, lang: string)

  predicate Regional(v: Voice) {
    v.lang == "en-US" || v.lang == "en-GB"
  }

  function Bonus(v: Voice, word: string, points: nat): nat {
    if Contains(v.name, word) then points else 0
  }

  /** `scoreVoice`: 5 for en-US or en-GB, then 10, 15, 12 and 8 for "Google", "Natural", "Online" and "Enhanced". */
  function Score(v: Voice): (s: nat)
    ensures s <= 50
  {
    (if Regional(v) then 5 else 0) + Bonus(v, "Google", 10) + Bonus(v, "Natural", 15) +
    Bonus(v, "Online", 12) + Bonus(v, "Enhanced", 8)
  }

  /** The score is 50 exactly for a regional voice with all four quality words, and 0 exactly for one with none. */
  lemma ScoreExtremes(v: Voice)
    ensures Score(v) == 50 <==> Regional(v) && Contains(v.name, "Google") && Contains(v.name, "Natural") &&
                                Contains(v.name, "Online") && Contains(v.name, "Enhanced")
    ensures Score(v) == 0 <==> !Regional(v) && !Contains(v.name, "Google") && !Contains(v.name, "Natural") &&
                               !Contains(v.name, "Online") && !Contains(v.name, "Enhanced")
  {
  }

  predicate IsEnglish(v: Voice) {
    StartsWith(v.lang, "en")
  }

  /** `voices.filter(v => v.lang.startsWith('en'))`. */
  function English(voices: seq<Voice>): (r: seq<Voice>)
    ensures forall w :: w in r <==> w in voices && IsEnglish(w)
  {
    if voices == [] then []
    else (if IsEnglish(voices[0]) then [voices[0]] else []) + English(voices[1..])
  }

  /** Best first by `key`. */
  predicate SortedBy(s: seq<Voice>, key: Voice -> nat) {
    forall p, q :: 0 <= p < q < |s| ==> key(s[p]) >= key(s[q])
  }

  /**
   * `sort` with a comparator that puts the higher key first, done in place by insertion
   * with adjacent swaps. `getBestVoice` sorts by `Score`.
   */
  method SortBy(a: array<Voice>, key: Voice -> nat)
    modifies a
    ensures SortedBy(a[..], key)
    ensures multiset(a[..]) == multiset(old(a[..]))
  {
    var i := 0;
    while i < a.Length
      invariant 0 <= i <= a.Length
      invariant SortedBy(a[..i], key)
      invariant multiset(a[..]) == multiset(old(a[..]))
    {
      Insert(a, i, key);
      i := i + 1;
    }
  }

  /** Moves `a[i]` left past every lower-keyed voice, so the first `i + 1` are sorted. */
  method Insert(a: array<Voice>, i: nat, key: Voice -> nat)
    requires i < a.Length && SortedBy(a[..i], key)
    modifies a
    ensures SortedBy(a[..i + 1], key)
    ensures multiset(a[..]) == multiset(old(a[..]))
  {
    var j := i;
    InsertStart(a[..], i, key);
    while j > 0 && key(a[j - 1]) < key(a[j])
      invariant 0 <= j <= i
      invariant multiset(a[..]) == multiset(old(a[..]))
      invariant SortedAround(a[..], i, j, key)
    {
      SwapStep(a[..], i, j, key);
      a[j - 1], a[j] := a[j], a[j - 1];
      j := j - 1;
    }
    InsertDone(a[..], i, j, key);
  }

  /**
   * The first `i + 1` voices are sorted except that the one at `j` may outrank its left
   * neighbours, and it is at least as good as every voice after it.
   */
  predicate SortedAround(s: seq<Voice>, i: nat, j: nat, key: Voice -> nat)
    requires j <= i < |s|
  {
    (forall p, q :: 0 <= p < q <= i && p != j && q != j ==> key(s[p]) >= key(s[q])) &&
    (forall q :: j < q <= i ==> key(s[j]) >= key(s[q]))
  }

  lemma InsertStart(s: seq<Voice>, i: nat, key: Voice -> nat)
    requires i < |s| && SortedBy(s[..i], key)
    ensures SortedAround(s, i, i, key)
  {
    forall p, q | 0 <= p < q <= i && p != i && q != i
      ensures key(s[p]) >= key(s[q])
    {
      assert s[p] == s[..i][p] && s[q] == s[..i][q];
    }
  }

  lemma SwapStep(s: seq<Voice>, i: nat, j: nat, key: Voice -> nat)
    requires 0 < j <= i < |s| && SortedAround(s, i, j, key) && key(s[j - 1]) < key(s[j])
    ensures SortedAround(s[j - 1 := s[j]][j := s[j - 1]], i, j - 1, key)
  {
  }

  lemma InsertDone(s: seq<Voice>, i: nat, j: nat, key: Voice -> nat)
    requires j <= i < |s| && SortedAround(s, i, j, key)
    requires j == 0 || key(s[j - 1]) >= key(s[j])
    ensures SortedBy(s[..i + 1], key)
  {
    forall p, q | 0 <= p < q <= i
      ensures key(s[p]) >= key(s[q])
    {
      if q == j && p < j - 1 {
        assert key(s[p]) >= key(s[j - 1]);
      }
    }
  }

  predicate MaleUk(v: Voice) {
    (Contains(v.name, "Male") || Contains(v.name, "Ryan") || Contains(v.name, "Daniel")) && v.lang == "en-GB"
  }

  predicate FemaleUs(v: Voice) {
    (Contains(v.name, "Female") || Contains(v.name, "Ava") || Contains(v.name, "Samantha")) && v.lang == "en-US"
  }

  predicate NaturalSounding(v: Voice) {
    Contains(v.name, "Natural") || Contains(v.name, "Google US English")
  }

  /** The kind of voice a personality looks for first; other personalities have no preference. */
  predicate Preferred(personality: string, v: Voice) {
    if personality == Types.DRILL_SERGEANT then MaleUk(v)
    else if personality == Types.SUPPORTIVE_FRIEND then FemaleUs(v)
    else if personality == Types.CALM_COACH then NaturalSounding(v)
    else false
  }

  /** `find`: the index of the first voice of the list that satisfies `pred`. */
  function Find(s: seq<Voice>, pred: Voice -> bool): (r: Option<nat>)
    ensures r.None? <==> forall k :: 0 <= k < |s| ==> !pred(s[k])
    ensures r.Some? ==> r.value < |s| && pred(s[r.value])
  {
    if s == [] then None
    else if pred(s[0]) then Some(0)
    else match Find(s[1..], pred)
      case None => None
      case Some(k) => Some(k + 1)
  }

  /** In a list sorted best first, the first voice satisfying `pred` has the highest key among those that do. */
  lemma FindIsBest(s: seq<Voice>, pred: Voice -> bool, key: Voice -> nat)
    requires SortedBy(s, key)
    requires Find(s, pred).Some?
    ensures forall q :: 0 <= q < |s| && pred(s[q]) ==> key(s[q]) <= key(s[Find(s, pred).value])
  {
    var k := Find(s, pred).value;
    forall q | 0 <= q < |s| && pred(s[q])
      ensures key(s[q]) <= key(s[k])
    {
      if q < k {
        FindIsFirst(s, pred, q);
      }
    }
  }

  /** A bound on the scores of a list's entries that satisfy `pred` holds for every English voice it lists. */
  lemma BoundHoldsForMembers(sorted: seq<Voice>, voices: seq<Voice>, pred: Voice -> bool, top: Voice)
    requires forall w :: w in voices && IsEnglish(w) ==> w in sorted
    requires forall q :: 0 <= q < |sorted| && pred(sorted[q]) ==> Score(sorted[q]) <= Score(top)
    ensures forall w :: w in voices && IsEnglish(w) && pred(w) ==> Score(w) <= Score(top)
  {
    forall w | w in voices && IsEnglish(w) && pred(w)
      ensures Score(w) <= Score(top)
    {
      var q :| 0 <= q < |sorted| && sorted[q] == w;
    }
  }

  lemma {:induction false} FindIsFirst(s: seq<Voice>, pred: Voice -> bool, q: nat)
    requires Find(s, pred).Some? && q < Find(s, pred).value
    ensures !pred(s[q])
  {
    if q > 0 {
      FindIsFirst(s[1..], pred, q - 1);
    }
  }

  /** A personality with a preference finds a voice of its kind among the English ones. */
  predicate PreferenceMet(personality: string, voices: seq<Voice>) {
    exists w :: w in voices && IsEnglish(w) && Preferred(personality, w)
  }

  /**
   * `getBestVoice`: with no English voice, the first voice (none for an empty list);
   * otherwise the best-scored English voice of the personality's preferred kind, or the
   * best-scored English voice when there is none of that kind.
   */
  method BestVoice(personality: string, voices: seq<Voice>) returns (v: Option<Voice>)
    ensures voices == [] ==> v.None?
    ensures English(voices) == [] && voices != [] ==> v == Some(voices[0])
    ensures English(voices) != [] ==> v.Some? && v.value in voices && IsEnglish(v.value)
    ensures English(voices) != [] && PreferenceMet(personality, voices) ==>
              Preferred(personality, v.value) &&
              forall w :: w in voices && IsEnglish(w) && Preferred(personality, w) ==> Score(w) <= Score(v.value)
    ensures English(voices) != [] && !PreferenceMet(personality, voices) ==>
              forall w :: w in voices && IsEnglish(w) ==> Score(w) <= Score(v.value)
  {
    var english := English(voices);
    var a := new Voice[|english|](k requires 0 <= k < |english| => english[k]);
    assert a[..] == english;
    SortBy(a, Score);
    var sorted := a[..];
    SameMembers(sorted, english);
    if |sorted| == 0 {
      if |voices| == 0 {
        return None;
      }
      return Some(voices[0]);
    }
    var pref := w => Preferred(personality, w);
    match Find(sorted, pref) {
      case Some(k) =>
        FindIsBest(sorted, pref, Score);
        BoundHoldsForMembers(sorted, voices, pref, sorted[k]);
        v := Some(sorted[k]);
      case None =>
        NoneOfMembers(sorted, voices, pref);
        BoundHoldsForMembers(sorted, voices, w => true, sorted[0]);
        v := Some(sorted[0]);
    }
  }

  lemma SameMembers(a: seq<Voice>, b: seq<Voice>)
    requires multiset(a) == multiset(b)
    ensures forall w :: w in a <==> w in b
  {
    assert forall w :: w in a <==> w in multiset(a);
    assert forall w :: w in b <==> w in multiset(b);
  }

  /** When no entry of a list satisfies `pred`, no English voice it lists does. */
  lemma NoneOfMembers(sorted: seq<Voice>, voices: seq<Voice>, pred: Voice -> bool)
    requires forall w :: w in voices && IsEnglish(w) ==> w in sorted
    requires forall q :: 0 <= q < |sorted| ==> !pred(sorted[q])
    ensures forall w :: w in voices && IsEnglish(w) ==> !pred(w)
  {
    forall w | w in voices && IsEnglish(w)
      ensures !pred(w)
    {
      var q :| 0 <= q < |sorted| && sorted[q] == w;
    }
  }

  datatype Delivery = Delivery(pitch: real, rate: real)

  /** `getPitchRate`: a fixed pitch and rate per personality, both 1.0 for any other. */
  function PitchRate(personality: string): (d: Delivery)
    ensures 0.8 <= d.pitch <= 1.2 && 0.9 <= d.rate <= 1.2
    ensures personality !in {Types.SUPPORTIVE_FRIEND, Types.DRILL_SERGEANT, Types.ROAST_MODE, Types.CALM_COACH, Types.HYPE_MODE} ==>
              d == Delivery(1.0, 1.0)
  {
    if personality == Types.SUPPORTIVE_FRIEND then Delivery(1.1, 1.0)
    else if personality == Types.DRILL_SERGEANT then Delivery(0.8, 1.2)
    else if personality == Types.ROAST_MODE then Delivery(0.9, 1.1)
    else if personality == Types.CALM_COACH then Delivery(1.0, 0.9)
    else if personality == Types.HYPE_MODE then Delivery(1.2, 1.2)
    else Delivery(1.0, 1.0)
  }

  /** The drill sergeant speaks lowest and, with the hype persona, fastest. */
  lemma DrillSergeantIsLowest(personality: string)
    ensures PitchRate(personality).pitch >= PitchRate(Types.DRILL_SERGEANT).pitch
    ensures PitchRate(personality).rate <= PitchRate(Types.DRILL_SERGEANT).rate
  {
  }

  /** What `speak` hands to the speech engine, if anything. */
  datatype Utterance = Utterance(text: string, voice: Option<Voice>, delivery: Delivery)

  /**
   * `speak`: blank text is ignored; otherwise an utterance with the chosen voice and the
   * personality's pitch and rate. `voices` is the engine's list when the utterance is built
   * (after the retry when the first list was empty).
   */
  method Speak(text: string, personality: string, voices: seq<Voice>) returns (u: Option<Utterance>)
    ensures u.None? <==> Trim(text) == ""
    ensures u.Some? ==> u.value.text == text && u.value.delivery == PitchRate(personality)
    ensures u.Some? && English(voices) != [] ==> u.value.voice.Some? && u.value.voice.value in voices && IsEnglish(u.value.voice.value)
    ensures u.Some? && voices == [] ==> u.value.voice.None?
  {
    if Trim(text) == "" {
      return None;
    }
    var voice := BestVoice(personality, voices);
    u := Some(Utterance(text, voice, PitchRate(personality)));
  }
}
