/**
 * The reflection recovery screen (components/recovery/ReflectionRecovery.tsx): the answer
 * must run to at least fifteen words. Words are what `trim().split(/\s+/)` yields once the
 * empty pieces are dropped: the maximal runs of non-whitespace characters.
 */
module ReflectionRecovery {
  import opened Strings

  const MIN_WORDS: nat := 15

  /**
   * The words of `s`, where `cur` is the word being read so far: every maximal run of
   * non-whitespace characters, in order.
   */
  function WordsFrom(s: string, cur: string): (w: seq<string>)
    decreases |s|
  {
    if s == [] then (if cur == [] then [] else [cur])
    else if IsWhitespace(s[0]) then (if cur == [] then [] else [cur]) + WordsFrom(s[1..], [])
    else WordsFrom(s[1..], cur + [s[0]])
  }

  function Words(s: string): seq<string> {
    WordsFrom(s, [])
  }

  /**
   * The number shown under the answer: one word for every position where a non-whitespace
   * character follows the start of the text or a whitespace character.
   */
  function WordCount(answer: string): (n: nat)
    ensures n == WordStarts(answer, 0)
  {
    TrimKeepsWords(answer);
    WordsCountStarts(answer, 0, []);
    assert answer[0..] == answer;
    |Words(Trim(answer))|
  }

  /** A word begins at `i`: a visible character at the start of the text or after whitespace. */
  predicate IsWordStart(s: string, i: nat)
    requires i < |s|
  {
    !IsWhitespace(s[i]) && (i == 0 || IsWhitespace(s[i - 1]))
  }

  /** The number of word starts at or after position `i`. */
  function WordStarts(s: string, i: nat): nat
    requires i <= |s|
    decreases |s| - i
  {
    if i == |s| then 0 else (if IsWordStart(s, i) then 1 else 0) + WordStarts(s, i + 1)
  }

  /**
   * Splitting the rest of the text from `i`, with `cur` the part of a word already read, gives
   * the pending word (if any) and one word per word start still ahead.
   */
  lemma {:induction false} WordsCountStarts(s: string, i: nat, cur: string)
    requires i <= |s|
    requires (cur != []) == (i > 0 && !IsWhitespace(s[i - 1]))
    ensures |WordsFrom(s[i..], cur)| == (if cur != [] then 1 else 0) + WordStarts(s, i)
    decreases |s| - i
  {
    if i < |s| {
      assert s[i..][0] == s[i] && s[i..][1..] == s[i + 1..];
      if IsWhitespace(s[i]) {
        WordsCountStarts(s, i + 1, []);
      } else {
        WordsCountStarts(s, i + 1, cur + [s[i]]);
      }
    }
  }

  /** The characters of `s` that are not whitespace, in order. */
  function Visible(s: string): (r: string)
    ensures |r| <= |s|
  {
    if s == [] then [] else (if IsWhitespace(s[0]) then [] else [s[0]]) + Visible(s[1..])
  }

  function Concat(ws: seq<string>): string {
    if ws == [] then [] else ws[0] + Concat(ws[1..])
  }

  lemma ConcatAppend(a: seq<string>, b: seq<string>)
    ensures Concat(a + b) == Concat(a) + Concat(b)
  {
    if a == [] {
      assert a + b == b;
    } else {
      assert (a + b)[0] == a[0];
      assert (a + b)[1..] == a[1..] + b;
      ConcatAppend(a[1..], b);
    }
  }

  predicate NoWhitespace(w: string) {
    forall i :: 0 <= i < |w| ==> !IsWhitespace(w[i])
  }

  /**
   * The words are non-empty, hold no whitespace, and together spell out exactly the visible
   * characters of the text: nothing is lost, nothing is added.
   */
  lemma WordsSpellVisible(s: string, cur: string)
    requires NoWhitespace(cur)
    ensures Concat(WordsFrom(s, cur)) == cur + Visible(s)
    ensures forall k :: 0 <= k < |WordsFrom(s, cur)| ==> WordsFrom(s, cur)[k] != [] && NoWhitespace(WordsFrom(s, cur)[k])
  {
    WordsConcat(s, cur);
    WordsAreWords(s, cur);
  }

  lemma {:induction false} WordsConcat(s: string, cur: string)
    ensures Concat(WordsFrom(s, cur)) == cur + Visible(s)
    decreases |s|
  {
    if s == [] {
      assert cur + [] == cur;
    } else if IsWhitespace(s[0]) {
      WordsConcat(s[1..], []);
      var head: seq<string> := if cur == [] then [] else [cur];
      assert WordsFrom(s, cur) == head + WordsFrom(s[1..], []);
      ConcatAppend(head, WordsFrom(s[1..], []));
      assert Concat(head) == cur;
      assert Visible(s) == Visible(s[1..]);
    } else {
      WordsConcat(s[1..], cur + [s[0]]);
      assert Visible(s) == [s[0]] + Visible(s[1..]);
      assert cur + Visible(s) == (cur + [s[0]]) + Visible(s[1..]);
    }
  }

  lemma {:induction false} WordsAreWords(s: string, cur: string)
    requires NoWhitespace(cur)
    ensures forall k :: 0 <= k < |WordsFrom(s, cur)| ==> WordsFrom(s, cur)[k] != [] && NoWhitespace(WordsFrom(s, cur)[k])
    decreases |s|
  {
    if s != [] {
      if IsWhitespace(s[0]) {
        WordsAreWords(s[1..], []);
        var head: seq<string> := if cur == [] then [] else [cur];
        assert WordsFrom(s, cur) == head + WordsFrom(s[1..], []);
      } else {
        WordsAreWords(s[1..], cur + [s[0]]);
      }
    }
  }

  /** A whitespace-only answer has no words. */
  lemma BlankHasNoWords(s: string)
    requires AllWhitespace(s)
    ensures Words(s) == [] && WordCount(s) == 0
  {
    BlankHasNoWordsFrom(s);
    TrimEmptyIffBlank(s);
  }

  lemma {:induction false} BlankHasNoWordsFrom(s: string)
    requires AllWhitespace(s)
    ensures WordsFrom(s, []) == []
    decreases |s|
  {
    if s != [] {
      assert AllWhitespace(s[1..]);
      BlankHasNoWordsFrom(s[1..]);
    }
  }

  /** Whitespace before the text does not change the words. */
  lemma {:induction false} LeadingWhitespaceIgnored(w: string, s: string)
    requires AllWhitespace(w)
    ensures Words(w + s) == Words(s)
    decreases |w|
  {
    if w != [] {
      assert (w + s)[0] == w[0];
      assert (w + s)[1..] == w[1..] + s;
      assert WordsFrom(w + s, []) == [] + WordsFrom(w[1..] + s, []);
      LeadingWhitespaceIgnored(w[1..], s);
    } else {
      assert w + s == s;
    }
  }

  /** Whitespace after the text does not change the words. */
  lemma {:induction false} TrailingWhitespaceIgnored(s: string, w: string, cur: string)
    requires AllWhitespace(w)
    ensures WordsFrom(s + w, cur) == WordsFrom(s, cur)
    decreases |s| + |w|
  {
    if s == [] {
      assert s + w == w;
      if w != [] {
        LeadingWhitespaceIgnored(w[1..], []);
        assert w[1..] + [] == w[1..];
        BlankHasNoWordsFrom(w[1..]);
      }
    } else {
      assert (s + w)[0] == s[0];
      assert (s + w)[1..] == s[1..] + w;
      if IsWhitespace(s[0]) {
        TrailingWhitespaceIgnored(s[1..], w, []);
      } else {
        TrailingWhitespaceIgnored(s[1..], w, cur + [s[0]]);
      }
    }
  }

  /** A run of whitespace separates words just as a single space does. */
  lemma {:induction false} WhitespaceRunIsOneSeparator(a: string, w: string, b: string, cur: string)
    requires AllWhitespace(w) && w != []
    ensures WordsFrom(a + w + b, cur) == WordsFrom(a + " " + b, cur)
    decreases |a|
  {
    if a == [] {
      assert a + w + b == w + b;
      assert a + " " + b == " " + b;
      assert (w + b)[1..] == w[1..] + b;
      LeadingWhitespaceIgnored(w[1..], b);
      assert (" " + b)[1..] == b;
    } else {
      assert (a + w + b)[0] == a[0] && (a + " " + b)[0] == a[0];
      assert (a + w + b)[1..] == a[1..] + w + b;
      assert (a + " " + b)[1..] == a[1..] + " " + b;
      if IsWhitespace(a[0]) {
        WhitespaceRunIsOneSeparator(a[1..], w, b, []);
      } else {
        WhitespaceRunIsOneSeparator(a[1..], w, b, cur + [a[0]]);
      }
    }
  }

  /** Trimming changes nothing: the words of the trimmed answer are the words of the answer. */
  lemma TrimKeepsWords(s: string)
    ensures Words(Trim(s)) == Words(s)
  {
    var t := TrimStart(s);
    LeadingWhitespaceIgnored(s[..|s| - |t|], t);
    assert s[..|s| - |t|] + t == s;
    var e := TrimEnd(t);
    TrailingWhitespaceIgnored(e, t[|e|..], []);
    assert e + t[|e|..] == t;
  }

  /** `handleSubmit`, and the enabled state of its button: completion iff fifteen words. */
  function Submit(answer: string): (completes: bool)
    ensures completes <==> WordCount(answer) >= MIN_WORDS
  {
    WordCount(answer) >= MIN_WORDS
  }

  /** Padding an answer with whitespace never turns a short answer into an accepted one. */
  lemma PaddingDoesNotHelp(answer: string, w: string)
    requires AllWhitespace(w)
    ensures Submit(answer + w) == Submit(answer) && Submit(w + answer) == Submit(answer)
  {
    TrimKeepsWords(answer);
    TrimKeepsWords(answer + w);
    TrimKeepsWords(w + answer);
    TrailingWhitespaceIgnored(answer, w, []);
    LeadingWhitespaceIgnored(w, answer);
  }
}
