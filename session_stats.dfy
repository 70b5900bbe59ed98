/**
 * The summary card of a finished session (components/summary/SessionStats.tsx): total
 * duration, the focus and distracted percentages with the focus bar, the distraction count
 * with its phone and left-desk breakdown, and the longest streak.
 */
module SessionStats {
  import opened Wrappers
  import opened Strings
  import JsNumber
  import DurationText
  import opened Types
  import Dashboard

  /** The labels "Focus (f%)" and "Distracted (d%)": `f` is the rounded percentage and `d` makes up the rest to 100. */
  function Labels(focusPercentage: real): (r: (int, int))
    ensures r.0 + r.1 == 100
    ensures r.0 as real - 0.5 <= focusPercentage < r.0 as real + 0.5
  {
    var f := JsNumber.Round(focusPercentage);
    (f, 100 - f)
  }

  /** For a percentage in range both labels are in range. */
  lemma LabelsInRange(focusPercentage: real)
    requires 0.0 <= focusPercentage <= 100.0
    ensures 0 <= Labels(focusPercentage).0 <= 100 && 0 <= Labels(focusPercentage).1 <= 100
  {
  }

  /** A count followed by a word, as the breakdown line prints it, or nothing for a count that is not positive. */
  function Mention(count: int, word: string): (s: string)
    ensures count > 0 ==> s == NatToString(count) + " " + word + " "
    ensures count <= 0 ==> s == ""
  {
    if count > 0 then IntToString(count) + " " + word + " " else ""
  }

  /** The breakdown line under the distraction count: phone first, then left desk. */
  function BreakdownText(b: Breakdown): (s: string)
    ensures Contains(s, "Phone") <==> b.phone > 0
    ensures Contains(s, "Left") <==> b.leftDesk > 0
    ensures b.phone <= 0 && b.leftDesk <= 0 <==> s == ""
  {
    MentionsFound(b.phone, b.leftDesk);
    Mention(b.phone, "Phone") + Mention(b.leftDesk, "Left")
  }

  lemma MentionsFound(phone: int, leftDesk: int)
    ensures var s := Mention(phone, "Phone") + Mention(leftDesk, "Left");
            (Contains(s, "Phone") <==> phone > 0) && (Contains(s, "Left") <==> leftDesk > 0)
  {
    PhoneFound(phone, leftDesk);
    LeftFound(phone, leftDesk);
  }

  lemma PhoneFound(phone: int, leftDesk: int)
    ensures Contains(Mention(phone, "Phone") + Mention(leftDesk, "Left"), "Phone") <==> phone > 0
  {
    var p := Mention(phone, "Phone");
    var l := Mention(leftDesk, "Left");
    if phone > 0 {
      MentionContainsWord(phone, "Phone", l);
    } else {
      MentionLetters(leftDesk, "Left");
      assert p + l == l;
      assert 'P' !in l;
      WordImpliesFirstLetter(p + l, "Phone");
    }
  }

  lemma LeftFound(phone: int, leftDesk: int)
    ensures Contains(Mention(phone, "Phone") + Mention(leftDesk, "Left"), "Left") <==> leftDesk > 0
  {
    var p := Mention(phone, "Phone");
    var l := Mention(leftDesk, "Left");
    if leftDesk > 0 {
      MentionContainsWord(leftDesk, "Left", "");
      assert Mention(leftDesk, "Left") + "" == l;
      ContainsInSuffix(p, l, "Left");
    } else {
      MentionLetters(phone, "Phone");
      assert p + l == p;
      assert 'L' !in p;
      WordImpliesFirstLetter(p + l, "Left");
    }
  }

  /** The letters of a mention are digits, a space, and the letters of its word. */
  lemma MentionLetters(count: int, word: string)
    ensures forall c :: c in Mention(count, word) ==> IsDigit(c) || c == ' ' || c in word
  {
    if count > 0 {
      var d := NatToString(count);
      assert forall c :: c in d ==> IsDigit(c);
    }
  }

  lemma MentionContainsWord(count: int, word: string, rest: string)
    requires count > 0
    ensures Contains(Mention(count, word) + rest, word)
  {
    var d := NatToString(count);
    var s := Mention(count, word) + rest;
    assert s == d + " " + word + " " + rest;
    assert s[|d| + 1..|d| + 1 + |word|] == word;
    assert OccursAt(s, word, |d| + 1);
  }

  lemma ContainsInSuffix(a: string, b: string, word: string)
    requires Contains(b, word)
    ensures Contains(a + b, word)
  {
    var i: nat :| i <= |b| && OccursAt(b, word, i);
    assert (a + b)[|a| + i..|a| + i + |word|] == b[i..i + |word|];
    assert OccursAt(a + b, word, |a| + i);
  }

  lemma WordImpliesFirstLetter(s: string, word: string)
    requires |word| > 0
    ensures Contains(s, word) ==> word[0] in s
  {
    if Contains(s, word) {
      var i: nat :| i <= |s| && OccursAt(s, word, i);
      assert s[i] == s[i..i + |word|][0];
    }
  }

  /** What the card shows for a session record. */
  datatype Card = Card(
    duration: string,
    focusLabel: int,
    distractedLabel: int,
    barWidth: real,
    distractions: int,
    breakdown: string,
    streak: string)

  function Render(r: SessionRecord): (c: Card)
    ensures r.totalDuration >= 0 ==> DurationText.ReadHoursMinutes(c.duration) == Some((r.totalDuration / 60, r.totalDuration % 60))
    ensures c.focusLabel + c.distractedLabel == 100
    ensures c.barWidth == r.focusPercentage
    ensures c.focusLabel as real - 0.5 <= c.barWidth < c.focusLabel as real + 0.5
    ensures c.distractions == r.distractionCount
    ensures c.breakdown == BreakdownText(r.breakdown)
    ensures r.longestStreak >= 0 ==> DurationText.ReadMinutesSuffix(c.streak) == Some(r.longestStreak)
  {
    var labels := Labels(r.focusPercentage);
    StreakReadsBack(r.longestStreak);
    Card(
      Dashboard.FormatMinutes(r.totalDuration),
      labels.0,
      labels.1,
      r.focusPercentage,
      r.distractionCount,
      BreakdownText(r.breakdown),
      IntToString(r.longestStreak) + "m")
  }

  lemma StreakReadsBack(streak: int)
    ensures streak >= 0 ==> DurationText.ReadMinutesSuffix(IntToString(streak) + "m") == Some(streak)
  {
    if streak >= 0 {
      DurationText.ReadMinutesSuffixOfPrinted(streak);
    }
  }
}
