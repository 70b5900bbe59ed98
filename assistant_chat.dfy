/**
 * The assistant chat panel (components/FocusAssistantChat.tsx): typed messages, the Enter
 * key, and voice input with its "hey focus" wake word. The speech recognizer is outside the
 * model: its transcript and listening flag are fields the recognizer sets (`Hear`,
 * `SetListening`), and `Render` runs the panel's effects once for the values it sees, in
 * their declared order, each effect only when one of its dependencies changed. What the
 * panel forwards to the assistant is recorded in `sent`; `isThinking` is a parameter.
 */
module AssistantChat {
  import opened Strings

  const WAKE: string := "hey focus"
  const WAKE_COMMA: string := "hey, focus"

  /** `/hey,? focus/i` matches at `i` of the lower-cased transcript. */
  predicate MatchAt(lower: string, i: nat) {
    OccursAt(lower, WAKE, i) || OccursAt(lower, WAKE_COMMA, i)
  }

  /** The length of that match: the comma form is the one tried first. */
  function MatchLength(lower: string, i: nat): (n: nat)
    requires MatchAt(lower, i)
    ensures i + n <= |lower| && (n == 9 || n == 10)
  {
    if OccursAt(lower, WAKE_COMMA, i) then 10 else 9
  }

  /** The first index from `from` on where the wake word matches, or -1. */
  function FirstMatch(lower: string, from: nat): (r: int)
    requires from <= |lower|
    ensures r == -1 <==> forall i :: from <= i <= |lower| ==> !MatchAt(lower, i)
    ensures r != -1 ==> from <= r <= |lower| && MatchAt(lower, r)
    ensures r != -1 ==> forall i :: from <= i < r ==> !MatchAt(lower, i)
    decreases |lower| - from
  {
    if MatchAt(lower, from) then from
    else if from == |lower| then -1
    else FirstMatch(lower, from + 1)
  }

  /** `lower.includes("hey focus") || lower.includes("hey, focus")`. */
  predicate WakeWordHeard(transcript: string) {
    Contains(Lower(transcript), WAKE) || Contains(Lower(transcript), WAKE_COMMA)
  }

  /** The wake word is heard exactly when the regular expression finds a match to remove. */
  lemma WakeWordIffMatch(transcript: string)
    ensures WakeWordHeard(transcript) <==> FirstMatch(Lower(transcript), 0) != -1
  {
    var lower := Lower(transcript);
    var r := FirstMatch(lower, 0);
    if r == -1 {
      forall i: nat | i <= |lower|
        ensures !OccursAt(lower, WAKE, i) && !OccursAt(lower, WAKE_COMMA, i)
      {
        assert !MatchAt(lower, i);
      }
    } else {
      assert OccursAt(lower, WAKE, r) || OccursAt(lower, WAKE_COMMA, r);
    }
  }

  /** `transcript.replace(/hey,? focus/i, "")`: the first match is cut out, case kept elsewhere. */
  function StripWakeWord(transcript: string): (r: string)
    ensures !WakeWordHeard(transcript) ==> r == transcript
  {
    var lower := Lower(transcript);
    WakeWordIffMatch(transcript);
    var i := FirstMatch(lower, 0);
    if i == -1 then transcript
    else transcript[..i] + transcript[i + MatchLength(lower, i)..]
  }

  /** The spoken command: what is left of the transcript, trimmed. */
  function Command(transcript: string): string {
    Trim(StripWakeWord(transcript))
  }

  /** Whether the wake-word effect forwards the command. */
  predicate WakeSends(transcript: string, thinking: bool) {
    WakeWordHeard(transcript) && |Command(transcript)| > 3 && !thinking
  }

  /** The guard of `handleSend`: nothing for blank text or while the assistant is thinking. */
  predicate SendAccepted(text: string, thinking: bool) {
    Trim(text) != "" && !thinking
  }

  /** A wake-word command is never blank, so the send it triggers always goes through. */
  lemma WakeCommandAccepted(transcript: string, thinking: bool)
    requires WakeSends(transcript, thinking)
    ensures SendAccepted(Command(transcript), thinking)
  {
    TrimIdempotent(StripWakeWord(transcript));
  }

  lemma TrimIdempotent(s: string)
    ensures Trim(Trim(s)) == Trim(s)
  {
    var t := Trim(s);
    if t != "" {
      assert !IsWhitespace(t[0]) && !IsWhitespace(t[|t| - 1]);
    }
  }

  /** Lower-casing goes character by character, so it distributes over concatenation. */
  lemma LowerAppend(a: string, b: string)
    ensures Lower(a + b) == Lower(a) + Lower(b)
  {
  }

  /**
   * Speaking the wake word, in any letter case, and then a command: the command is what
   * followed, trimmed.
   */
  lemma CommandAfterWakeWord(w: string, rest: string)
    requires Lower(w) == WAKE || Lower(w) == WAKE_COMMA
    ensures WakeWordHeard(w + rest)
    ensures Command(w + rest) == Trim(rest)
  {
    WakeWordAtStart(w, rest);
    var t := w + rest;
    WakeWordIffMatch(t);
    assert StripWakeWord(t) == t[..0] + t[|w|..];
    assert t[..0] + t[|w|..] == rest;
  }

  /** The lower-cased transcript starts with a match exactly as long as the spoken wake word. */
  lemma WakeWordAtStart(w: string, rest: string)
    requires Lower(w) == WAKE || Lower(w) == WAKE_COMMA
    ensures MatchAt(Lower(w + rest), 0) && MatchLength(Lower(w + rest), 0) == |w|
  {
    var lower := Lower(w + rest);
    LowerPrefix(w, rest);
    if Lower(w) == WAKE {
      PlainFormNotComma(lower);
    }
  }

  lemma LowerPrefix(w: string, rest: string)
    ensures OccursAt(Lower(w + rest), Lower(w), 0)
  {
    LowerAppend(w, rest);
    assert Lower(w + rest)[..|w|] == Lower(w);
  }

  /** Text starting with "hey focus" has a space where the comma form needs its comma. */
  lemma PlainFormNotComma(lower: string)
    requires OccursAt(lower, WAKE, 0)
    ensures !OccursAt(lower, WAKE_COMMA, 0)
  {
    assert lower[3] == WAKE[3] == ' ';
  }

  /** The listening effect's dependencies, the transcript and the listening flag, changed. */
  predicate Changed(t: string, listening: bool, lastTranscript: string, lastListening: bool) {
    t != lastTranscript || listening != lastListening
  }

  class ChatPanel {
    var inputValue: string
    /** The recognizer's transcript and listening flag. */
    var transcript: string
    var isListening: bool
    /** The `wasListening` ref. */
    var wasListening: bool
    /** The dependency values the effects last ran with. */
    var lastTranscript: string
    var lastListening: bool
    /** The messages handed to the assistant, in order. */
    var sent: seq<string>

    constructor()
      ensures inputValue == "" && transcript == "" && !isListening && !wasListening
      ensures lastTranscript == "" && !lastListening && sent == []
    {
      inputValue := "";
      transcript := "";
      isListening := false;
      wasListening := false;
      lastTranscript := "";
      lastListening := false;
      sent := [];
    }

    /** Typing in the input box. */
    method Type(text: string)
      modifies this
      ensures inputValue == text
      ensures transcript == old(transcript) && isListening == old(isListening) && wasListening == old(wasListening)
      ensures lastTranscript == old(lastTranscript) && lastListening == old(lastListening) && sent == old(sent)
    {
      inputValue := text;
    }

    /** The recognizer reports a transcript. */
    method Hear(t: string)
      modifies this
      ensures transcript == t
      ensures inputValue == old(inputValue) && isListening == old(isListening) && wasListening == old(wasListening)
      ensures lastTranscript == old(lastTranscript) && lastListening == old(lastListening) && sent == old(sent)
    {
      transcript := t;
    }

    /** The recognizer starts or stops listening. */
    method SetListening(b: bool)
      modifies this
      ensures isListening == b
      ensures inputValue == old(inputValue) && transcript == old(transcript) && wasListening == old(wasListening)
      ensures lastTranscript == old(lastTranscript) && lastListening == old(lastListening) && sent == old(sent)
    {
      isListening := b;
    }

    /** `handleSend`: forwards a non-blank text when the assistant is idle, clearing input and transcript. */
    method HandleSend(text: string, thinking: bool) returns (forwarded: bool)
      modifies this
      ensures forwarded <==> SendAccepted(text, thinking)
      ensures forwarded ==> sent == old(sent) + [text] && inputValue == "" && transcript == ""
      ensures !forwarded ==> sent == old(sent) && inputValue == old(inputValue) && transcript == old(transcript)
      ensures isListening == old(isListening) && wasListening == old(wasListening)
      ensures lastTranscript == old(lastTranscript) && lastListening == old(lastListening)
    {
      if Trim(text) == "" || thinking {
        return false;
      }
      inputValue := "";
      transcript := "";
      sent := sent + [text];
      forwarded := true;
    }

    /** `handleKeyDown`: Enter without Shift sends the input box; anything else does nothing. */
    method KeyDown(key: string, shift: bool, thinking: bool) returns (forwarded: bool)
      modifies this
      ensures forwarded <==> key == "Enter" && !shift && SendAccepted(old(inputValue), thinking)
      ensures forwarded ==> sent == old(sent) + [old(inputValue)] && inputValue == ""
      ensures !forwarded ==> sent == old(sent) && inputValue == old(inputValue) && transcript == old(transcript)
    {
      forwarded := false;
      if key == "Enter" && !shift {
        forwarded := HandleSend(inputValue, thinking);
      }
    }

    /** The transcript effect: a non-empty transcript is copied into the input box. */
    method CopyEffect(t: string)
      modifies this
      ensures inputValue == (if t != "" then t else old(inputValue))
      ensures transcript == old(transcript) && isListening == old(isListening) && wasListening == old(wasListening)
      ensures lastTranscript == old(lastTranscript) && lastListening == old(lastListening) && sent == old(sent)
    {
      if t != "" {
        inputValue := t;
      }
    }

    /** The wake-word effect: a command of more than three characters is sent while the assistant is idle. */
    method WakeEffect(t: string, thinking: bool) returns (fired: bool)
      modifies this
      ensures fired <==> WakeSends(t, thinking)
      ensures fired ==> sent == old(sent) + [Command(t)] && inputValue == "" && transcript == ""
      ensures !fired ==> sent == old(sent) && inputValue == old(inputValue) && transcript == old(transcript)
      ensures isListening == old(isListening) && wasListening == old(wasListening)
      ensures lastTranscript == old(lastTranscript) && lastListening == old(lastListening)
    {
      fired := false;
      if WakeWordHeard(t) {
        var command := Command(t);
        if |command| > 3 && !thinking {
          WakeCommandAccepted(t, thinking);
          fired := HandleSend(command, thinking);
        }
      }
    }

    /** The listening effect: when listening has just stopped, a non-blank transcript is sent. */
    method ListeningEffect(t: string, listening: bool, thinking: bool) returns (fired: bool)
      modifies this
      ensures fired <==> old(wasListening) && !listening && SendAccepted(t, thinking)
      ensures fired ==> sent == old(sent) + [t] && inputValue == "" && transcript == ""
      ensures !fired ==> sent == old(sent) && inputValue == old(inputValue) && transcript == old(transcript)
      ensures wasListening == listening && isListening == old(isListening)
      ensures lastTranscript == old(lastTranscript) && lastListening == old(lastListening)
    {
      fired := false;
      if wasListening && !listening && Trim(t) != "" {
        fired := HandleSend(t, thinking);
      }
      wasListening := listening;
    }

    /**
     * One render's effects, in their declared order and each only when a dependency changed:
     * the copy and the wake word on a new transcript, the listening check on a new transcript
     * or listening flag. All three see the values of the same render, so one render can send
     * both the wake-word command and the whole transcript.
     */
    method Render(thinking: bool) returns (wake: bool, stop: bool)
      modifies this
      ensures wake <==> old(transcript) != old(lastTranscript) && WakeSends(old(transcript), thinking)
      ensures stop <==> Changed(old(transcript), old(isListening), old(lastTranscript), old(lastListening)) &&
                        old(wasListening) && !old(isListening) && SendAccepted(old(transcript), thinking)
      ensures sent == old(sent) + (if wake then [Command(old(transcript))] else []) + (if stop then [old(transcript)] else [])
      ensures wake || stop ==> transcript == "" && inputValue == ""
      ensures !wake && !stop ==> transcript == old(transcript)
      ensures !wake && !stop && old(transcript) != old(lastTranscript) && old(transcript) != "" ==> inputValue == old(transcript)
      ensures old(transcript) == old(lastTranscript) && !stop ==> inputValue == old(inputValue)
      ensures wasListening == (if Changed(old(transcript), old(isListening), old(lastTranscript), old(lastListening)) then old(isListening) else old(wasListening))
      ensures lastTranscript == old(transcript) && lastListening == old(isListening) && isListening == old(isListening)
    {
      var t := transcript;
      var listening := isListening;
      wake, stop := false, false;
      if t != lastTranscript {
        CopyEffect(t);
        wake := WakeEffect(t, thinking);
      }
      if Changed(t, listening, lastTranscript, lastListening) {
        stop := ListeningEffect(t, listening, thinking);
      }
      lastTranscript := t;
      lastListening := listening;
    }
  }
}
