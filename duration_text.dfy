/**
 * Reading back the duration strings the screens print: "{h}h {m}m", "{h}h " and "{m}m"
 * (hours and minutes), and "{m}:{ss}" (minutes and zero-padded seconds). The readers are the
 * inverses against which the printing functions of each screen are checked.
 */
module DurationText {
  import opened Wrappers
  import opened Strings
  import JsNumber

  /** Digits read as a number, or `None` when the string is empty or holds a non-digit. */
  function ReadNat(s: string): (r: Option<nat>)
    ensures r.Some? <==> |s| > 0 && AllDigits(s)
    ensures r.Some? ==> r.value == DigitsValue(s)
  {
    if |s| > 0 && AllDigits(s) then Some(DigitsValue(s)) else None
  }

  /** `NatToString` is read back by `ReadNat`. */
  lemma ReadNatOfPrinted(n: nat)
    ensures ReadNat(NatToString(n)) == Some(n)
  {
    NatToStringRoundTrip(n);
  }

  /** A printed number contains no letter and no colon. */
  lemma PrintedHasNo(n: nat, c: char)
    requires !IsDigit(c)
    ensures c !in NatToString(n)
  {
    var s := NatToString(n);
    assert forall i :: 0 <= i < |s| ==> s[i] != c;
  }

  /** "{m}m": digits then the letter m. */
  function ReadMinutesSuffix(s: string): (r: Option<nat>)
    ensures r.Some? ==> |s| >= 2 && s[|s| - 1] == 'm'
  {
    if |s| >= 2 && s[|s| - 1] == 'm' then ReadNat(s[..|s| - 1]) else None
  }

  /**
   * Reads "{h}h {m}m", "{h}h " or "{m}m" as the pair (hours, minutes); "{m}m" has no hours
   * and "{h}h " no minutes.
   */
  function ReadHoursMinutes(s: string): (r: Option<(nat, nat)>)
  {
    var i := IndexOfChar(s, 'h');
    if i == -1 then
      match ReadMinutesSuffix(s)
      case Some(m) => Some((0, m))
      case None => None
    else if i + 1 < |s| && s[i + 1] == ' ' then
      match ReadNat(s[..i])
      case None => None
      case Some(h) =>
        var rest := s[i + 2..];
        if rest == "" then Some((h, 0))
        else match ReadMinutesSuffix(rest)
          case Some(m) => Some((h, m))
          case None => None
    else None
  }

  /** The hour prefix "{h}h " is found where the number ends. */
  lemma HourPrefix(h: nat, rest: string)
    ensures var s := NatToString(h) + "h " + rest;
            var d := NatToString(h);
            IndexOfChar(s, 'h') == |d| && s[..|d|] == d && s[|d| + 1] == ' ' && s[|d| + 2..] == rest
  {
    var d := NatToString(h);
    var s := d + "h " + rest;
    PrintedHasNo(h, 'h');
    var i := IndexOfChar(s, 'h');
    assert s[|d|] == 'h';
    assert i != -1;
    assert i == |d|;
    assert s[..|d|] == d;
    assert s[|d| + 2..] == rest;
  }

  lemma ReadMinutesSuffixOfPrinted(m: nat)
    ensures ReadMinutesSuffix(NatToString(m) + "m") == Some(m)
  {
    var s := NatToString(m) + "m";
    assert s[..|s| - 1] == NatToString(m);
    ReadNatOfPrinted(m);
  }

  /** "{h}h {m}m" reads back as (h, m). */
  lemma ReadHoursAndMinutes(h: nat, m: nat)
    ensures ReadHoursMinutes(NatToString(h) + "h " + (NatToString(m) + "m")) == Some((h, m))
  {
    HourPrefix(h, NatToString(m) + "m");
    ReadNatOfPrinted(h);
    ReadMinutesSuffixOfPrinted(m);
  }

  /** "{h}h " reads back as (h, 0). */
  lemma ReadHoursOnly(h: nat)
    ensures ReadHoursMinutes(NatToString(h) + "h " + "") == Some((h, 0))
  {
    HourPrefix(h, "");
    ReadNatOfPrinted(h);
  }

  /** "{m}m" reads back as (0, m). */
  lemma ReadMinutesOnly(m: nat)
    ensures ReadHoursMinutes(NatToString(m) + "m") == Some((0, m))
  {
    var s := NatToString(m) + "m";
    PrintedHasNo(m, 'h');
    assert 'h' !in s;
    ReadMinutesSuffixOfPrinted(m);
  }

  /** Reads "{m}:{ss}" as (minutes, seconds); the seconds part must be at least two digits. */
  function ReadClock(s: string): (r: Option<(nat, nat)>)
  {
    var i := IndexOfChar(s, ':');
    if i == -1 || |s[i + 1..]| < 2 then None
    else match (ReadNat(s[..i]), ReadNat(s[i + 1..]))
      case (Some(m), Some(sec)) => Some((m, sec))
      case _ => None
  }

  /** A string of digits contains no other character. */
  lemma DigitsHaveNo(s: string, c: char)
    requires AllDigits(s) && !IsDigit(c)
    ensures c !in s
  {
    assert forall k :: 0 <= k < |s| ==> s[k] != c;
  }

  /** Digits, a colon, and at least two digits read back as the two numbers. */
  lemma ReadClockOfDigits(a: string, b: string)
    requires |a| >= 1 && AllDigits(a) && |b| >= 2 && AllDigits(b)
    ensures ReadClock(a + ":" + b) == Some((DigitsValue(a), DigitsValue(b)))
  {
    DigitsHaveNo(a, ':');
    DigitsHaveNo(b, ':');
    IndexOfCharAfter(a, ":", b);
  }

  /** "{m}:{ss}" with `ss` the two-digit padding of `sec` reads back as (m, sec). */
  lemma ReadClockOfPrinted(m: nat, sec: nat)
    ensures ReadClock(NatToString(m) + ":" + Pad2(sec)) == Some((m, sec))
  {
    NatToStringRoundTrip(m);
    ReadClockOfDigits(NatToString(m), Pad2(sec));
  }

  /**
   * "{floor(n/60)}:{n % 60}", the seconds padded with zeros to two characters, as JavaScript
   * prints it for any whole `n`: a negative count gives a negative minute figure and an unpadded
   * negative remainder.
   */
  function MinSec(n: int): (s: string)
    ensures n >= 0 ==> ReadClock(s) == Some((n / 60, n % 60))
    ensures |s| > 0 && (n < 0 <==> s[0] == '-') && (n >= 0 <==> IsDigit(s[0]))
  {
    var secs := JsNumber.IntRem(n, 60);
    if n >= 0 then
      ReadClockOfPrinted(n / 60, secs);
      NatToString(n / 60) + ":" + Pad2(secs)
    else IntToString(n / 60) + ":" + (if secs >= 0 then Pad2(secs) else IntToString(secs))
  }

  /** Distinct non-negative counts print as distinct clocks. */
  lemma MinSecInjective(a: nat, b: nat)
    requires MinSec(a) == MinSec(b)
    ensures a == b
  {
    assert (a / 60, a % 60) == (b / 60, b % 60);
  }
}
