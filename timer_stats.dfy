/**
 * The readouts of the session's timer panel (components/TimerStatsPanel.tsx): the elapsed
 * clock as "HH:MM:SS" or "MM:SS", the short "{h}h {m}m" form, the progress towards the
 * planned duration, and the minutes to the next break. Seconds counts are whole and
 * non-negative, so `Math.floor` and `%` agree with Dafny's `/` and `%` on them.
 */
module TimerStats {
  import opened Wrappers
  import opened Strings
  import JsNumber
  import DurationText
  import Types

  /**
   * `formatTime`: hours only when there is at least one, every field padded to two digits:
   * "MM:SS" below an hour, "HH:MM:SS" (the hours possibly longer) from one hour on.
   * FormatTimeRoundTrip reads the clock back.
   */
  function FormatTime(seconds: nat): (s: string)
  {
    var hrs := seconds / 3600;
    var mins := (seconds % 3600) / 60;
    var secs := seconds % 60;
    if hrs > 0 then Pad2(hrs) + ":" + Clock(mins, secs) else Clock(mins, secs)
  }

  /** "MM:SS". */
  function Clock(mins: nat, secs: nat): string {
    Pad2(mins) + ":" + Pad2(secs)
  }

  /** Reads "HH:MM:SS" or "MM:SS" back as a number of seconds. */
  function ReadTime(s: string): (r: Option<nat>)
  {
    var i := IndexOfChar(s, ':');
    if i == -1 then None
    else if ':' !in s[i + 1..] then Seconds(Some(0), DurationText.ReadClock(s))
    else Seconds(DurationText.ReadNat(s[..i]), DurationText.ReadClock(s[i + 1..]))
  }

  /** Hours and a (minutes, seconds) pair, both read, as seconds. */
  function Seconds(hours: Option<nat>, clock: Option<(nat, nat)>): Option<nat>
  {
    if hours.Some? && clock.Some? then Some(hours.value * 3600 + clock.value.0 * 60 + clock.value.1) else None
  }

  /** The three fields of a count of seconds put back together give the count. */
  lemma SplitSeconds(seconds: nat)
    ensures (seconds % 3600) / 60 < 60 && seconds % 60 < 60
    ensures seconds == (seconds / 3600) * 3600 + ((seconds % 3600) / 60) * 60 + seconds % 60
  {
    var q, r := seconds / 3600, seconds % 3600;
    assert seconds == q * 3600 + r && r < 3600;
    var m, t := r / 60, r % 60;
    assert r == m * 60 + t && 0 <= t < 60 && m < 60;
    assert seconds == (q * 60 + m) * 60 + t;
    assert seconds % 60 == t;
  }

  /** A digit run, a colon and a text holding a second colon are read through the hours branch. */
  lemma LongFormSplits(h: string, clock: string)
    requires |h| >= 1 && AllDigits(h) && ':' in clock
    ensures ReadTime(h + ":" + clock) == Seconds(DurationText.ReadNat(h), DurationText.ReadClock(clock))
  {
    DurationText.DigitsHaveNo(h, ':');
    IndexOfCharAfter(h, ":", clock);
  }

  /** "H:MM:SS"-style text is read through the hours branch, as hours and a clock. */
  lemma ReadLongFormSplits(h: string, mins: string, secs: string)
    requires |h| >= 1 && AllDigits(h) && |mins| >= 1 && AllDigits(mins) && |secs| >= 2 && AllDigits(secs)
    ensures ReadTime(h + ":" + (mins + ":" + secs)) == Seconds(Some(DigitsValue(h)), Some((DigitsValue(mins), DigitsValue(secs))))
  {
    DurationText.ReadClockOfDigits(mins, secs);
    assert (mins + ":" + secs)[|mins|] == ':';
    LongFormSplits(h, mins + ":" + secs);
  }

  /** "MM:SS"-style text is read through the branch without hours. */
  lemma ReadShortFormSplits(mins: string, secs: string)
    requires |mins| >= 1 && AllDigits(mins) && |secs| >= 2 && AllDigits(secs)
    ensures ReadTime(mins + ":" + secs) == Seconds(Some(0), Some((DigitsValue(mins), DigitsValue(secs))))
  {
    DurationText.DigitsHaveNo(secs, ':');
    IndexOfCharAfter(mins, ":", secs);
    DurationText.ReadClockOfDigits(mins, secs);
  }

  lemma SecondsOf(h: nat, m: nat, sec: nat)
    ensures Seconds(Some(h), Some((m, sec))) == Some(h * 3600 + m * 60 + sec)
  {
  }

  /** The clock gives back the exact number of seconds it shows, so distinct counts print differently. */
  lemma FormatTimeRoundTrip(seconds: nat)
    ensures ReadTime(FormatTime(seconds)) == Some(seconds)
  {
    if seconds >= 3600 {
      LongRoundTrip(seconds);
    } else {
      ShortRoundTrip(seconds);
    }
  }

  lemma LongRoundTrip(seconds: nat)
    requires seconds >= 3600
    ensures ReadTime(FormatTime(seconds)) == Some(seconds)
  {
    var h, m, sec := seconds / 3600, (seconds % 3600) / 60, seconds % 60;
    LongFormat(seconds);
    LongFormValue(h, m, sec);
    SplitSeconds(seconds);
  }

  lemma LongFormat(seconds: nat)
    requires seconds >= 3600
    ensures FormatTime(seconds) == Pad2(seconds / 3600) + ":" + Clock((seconds % 3600) / 60, seconds % 60)
  {
    assert seconds / 3600 > 0;
  }

  lemma ShortRoundTrip(seconds: nat)
    requires seconds < 3600
    ensures ReadTime(FormatTime(seconds)) == Some(seconds)
  {
    var m, sec := seconds / 60, seconds % 60;
    assert FormatTime(seconds) == Clock(m, sec) by {
      assert seconds / 3600 == 0 && seconds % 3600 == seconds;
    }
    ShortFormValue(m, sec);
    assert m * 60 + sec == seconds;
  }

  /** A three-field clock reads back as its hours, minutes and seconds. */
  lemma LongFormValue(hrs: nat, mins: nat, secs: nat)
    ensures ReadTime(Pad2(hrs) + ":" + Clock(mins, secs)) == Some(hrs * 3600 + mins * 60 + secs)
  {
    ReadLongFormSplits(Pad2(hrs), Pad2(mins), Pad2(secs));
    SecondsOf(hrs, mins, secs);
  }

  /** A two-field clock reads back as its minutes and seconds. */
  lemma ShortFormValue(mins: nat, secs: nat)
    ensures ReadTime(Clock(mins, secs)) == Some(mins * 60 + secs)
  {
    ReadShortFormSplits(Pad2(mins), Pad2(secs));
    SecondsOf(0, mins, secs);
  }

  lemma FormatTimeInjective(a: nat, b: nat)
    requires FormatTime(a) == FormatTime(b)
    ensures a == b
  {
    FormatTimeRoundTrip(a);
    FormatTimeRoundTrip(b);
  }

  /** `formatShortTime`: "{h}h {m}m" from one hour on, "{m}m" below. */
  function FormatShortTime(seconds: nat): (s: string)
    ensures DurationText.ReadHoursMinutes(s) == Some((seconds / 3600, (seconds % 3600) / 60))
    ensures seconds < 3600 <==> 'h' !in s
  {
    var hrs := seconds / 3600;
    var mins := (seconds % 3600) / 60;
    if hrs > 0 then
      DurationText.ReadHoursAndMinutes(hrs, mins);
      assert (NatToString(hrs) + "h " + (NatToString(mins) + "m"))[|NatToString(hrs)|] == 'h';
      NatToString(hrs) + "h " + (NatToString(mins) + "m")
    else
      DurationText.ReadMinutesOnly(mins);
      DurationText.PrintedHasNo(mins, 'h');
      NatToString(mins) + "m"
  }

  /** A JavaScript number that may be NaN (zero divided by zero). */
  datatype Percent = Value(v: real) | NaN

  /** `progressPercentage`: elapsed seconds over the planned minutes, capped at 100. */
  function ProgressPercentage(elapsed: nat, duration: int): (p: Percent)
    ensures p.NaN? <==> elapsed == 0 && duration == 0
    ensures duration > 0 ==> p.Value? && 0.0 <= p.v <= 100.0
    ensures duration > 0 ==> (p.v == 100.0 <==> elapsed >= duration * 60)
    ensures duration > 0 && p.v < 100.0 ==> p.v * (duration * 60) as real == elapsed as real * 100.0
    ensures duration == 0 && elapsed > 0 ==> p == Value(100.0)
  {
    if duration == 0 then (if elapsed == 0 then NaN else Value(100.0))
    else
      var total := (duration * 60) as real;
      var ratio := elapsed as real / total * 100.0;
      if duration > 0 then
        RatioFacts(elapsed, duration);
        Value(JsNumber.Min(100.0, ratio))
      else Value(JsNumber.Min(100.0, ratio))
  }

  lemma RatioFacts(elapsed: nat, duration: int)
    requires duration > 0
    ensures var ratio := elapsed as real / (duration * 60) as real * 100.0;
            ratio >= 0.0 && ratio * (duration * 60) as real == elapsed as real * 100.0 &&
            (ratio >= 100.0 <==> elapsed >= duration * 60)
  {
  }

  /** `Math.ceil(nextBreakIn / 60)`: the whole minutes that cover the seconds left. */
  function NextBreakMinutes(nextBreakIn: int): (m: int)
    ensures 60 * (m - 1) < nextBreakIn <= 60 * m
  {
    JsNumber.Ceil(nextBreakIn as real / 60.0)
  }

  /** The "Next Break" card: "None" without a schedule, otherwise the minutes with an "m". */
  function NextBreakLabel(schedule: Types.BreakKind, nextBreakIn: Types.Countdown): (s: string)
    ensures schedule == Types.NoBreaks <==> s == "None"
    ensures schedule != Types.NoBreaks && nextBreakIn.Finite? ==>
              s == IntToString(NextBreakMinutes(nextBreakIn.seconds)) + "m"
  {
    if schedule == Types.NoBreaks then "None"
    else
      var t := match nextBreakIn
        case Finite(n) => IntToString(NextBreakMinutes(n)) + "m"
        case Unbounded => "Infinitym";
      assert t[|t| - 1] == 'm';
      t
  }

  /** The label of a scheduled break reads back as the minutes it covers. */
  lemma NextBreakLabelRoundTrip(schedule: Types.BreakKind, nextBreakIn: nat)
    requires schedule != Types.NoBreaks
    ensures DurationText.ReadMinutesSuffix(NextBreakLabel(schedule, Types.Finite(nextBreakIn))) == Some(NextBreakMinutes(nextBreakIn))
  {
    DurationText.ReadMinutesSuffixOfPrinted(NextBreakMinutes(nextBreakIn));
  }
}
