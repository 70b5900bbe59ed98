/**
 * The JavaScript string operations the application relies on: `trim`, `toLowerCase`,
 * `includes`, `startsWith`, `indexOf`/`lastIndexOf` of a character, `substring`,
 * global replacement of a literal, decimal printing of integers, `padStart(2, '0')`
 * and `parseInt`.
 */
module Strings {
  import opened Wrappers

  /** JavaScript's `\s` class, which is also the set `String.prototype.trim` strips. */
  predicate IsWhitespace(c: char) {
    c == ' ' || c == '\t' || c == '\n' || c == '\r' || c == '\U{000B}' || c == '\U{000C}'
    || c == '\U{00A0}' || c == '\U{1680}' || ('\U{2000}' <= c <= '\U{200A}')
    || c == '\U{2028}' || c == '\U{2029}' || c == '\U{202F}' || c == '\U{205F}'
    || c == '\U{3000}' || c == '\U{FEFF}'
  }

  predicate AllWhitespace(s: string) {
    forall i :: 0 <= i < |s| ==> IsWhitespace(s[i])
  }

  /** `trimStart`: the longest suffix that does not begin with whitespace. */
  function TrimStart(s: string): (r: string)
    ensures |r| <= |s| && r == s[|s| - |r|..]
    ensures r == [] || !IsWhitespace(r[0])
    ensures AllWhitespace(s[..|s| - |r|])
  {
    s[FirstNonWhitespace(s, 0)..]
  }

  /** A string that does not start with whitespace is its own `trimStart`. */
  lemma TrimStartKeeps(s: string)
    requires |s| > 0 && !IsWhitespace(s[0])
    ensures TrimStart(s) == s
  {
    assert FirstNonWhitespace(s, 0) == 0;
  }

  /** A leading whitespace character is dropped by `trimStart`. */
  lemma TrimStartSkips(s: string)
    requires |s| > 0 && IsWhitespace(s[0])
    ensures TrimStart(s) == TrimStart(s[1..])
  {
    FirstNonWhitespaceShift(s, 1);
    var k := FirstNonWhitespace(s[1..], 0);
    assert s[1 + k..] == s[1..][k..];
  }

  /** Scanning `s` from `i` finds the same character as scanning `s[1..]` from `i - 1`. */
  lemma {:induction false} FirstNonWhitespaceShift(s: string, i: nat)
    requires 1 <= i <= |s|
    ensures FirstNonWhitespace(s, i) == 1 + FirstNonWhitespace(s[1..], i - 1)
    decreases |s| - i
  {
    if i < |s| {
      assert s[i] == s[1..][i - 1];
      if IsWhitespace(s[i]) {
        FirstNonWhitespaceShift(s, i + 1);
      }
    }
  }

  /** The index of the first character at or after `i` that is not whitespace, or `|s|`. */
  function FirstNonWhitespace(s: string, i: nat): (k: nat)
    requires i <= |s|
    ensures i <= k <= |s|
    ensures forall j :: i <= j < k ==> IsWhitespace(s[j])
    ensures k < |s| ==> !IsWhitespace(s[k])
    decreases |s| - i
  {
    if i < |s| && IsWhitespace(s[i]) then FirstNonWhitespace(s, i + 1) else i
  }

  /** `trimEnd`: the longest prefix that does not end with whitespace. */
  function TrimEnd(s: string): (r: string)
    ensures |r| <= |s| && r == s[..|r|]
    ensures r == [] || !IsWhitespace(r[|r| - 1])
    ensures AllWhitespace(s[|r|..])
  {
    if |s| > 0 && IsWhitespace(s[|s| - 1]) then
      var r := TrimEnd(s[..|s| - 1]);
      assert s[|r|..] == s[..|s| - 1][|r|..] + [s[|s| - 1]];
      r
    else s
  }

  /** `trim`. */
  function Trim(s: string): (r: string)
    ensures |r| <= |s|
    ensures r == [] || (!IsWhitespace(r[0]) && !IsWhitespace(r[|r| - 1]))
  {
    TrimEnd(TrimStart(s))
  }

  /** A string is blank (`!s.trim()`) exactly when every character of it is whitespace. */
  lemma TrimEmptyIffBlank(s: string)
    ensures Trim(s) == [] <==> AllWhitespace(s)
  {
    var t := TrimStart(s);
    assert s[..|s| - 0] == s;
    if t != [] {
      assert t[0] == s[|s| - |t|];
    }
  }

  predicate IsUpperAscii(c: char) { 'A' <= c <= 'Z' }

  /** `toLowerCase`, restricted to the ASCII letters. */
  function LowerChar(c: char): (r: char)
    ensures IsUpperAscii(c) ==> r as int == c as int + 32
    ensures !IsUpperAscii(c) ==> r == c
  {
    if IsUpperAscii(c) then (c as int + 32) as char else c
  }

  function Lower(s: string): (r: string)
    ensures |r| == |s|
    ensures forall i :: 0 <= i < |s| ==> r[i] == LowerChar(s[i])
  {
    if s == [] then [] else [LowerChar(s[0])] + Lower(s[1..])
  }

  /** Equal but for the case of ASCII letters. */
  predicate EqualIgnoringCase(a: string, b: string) {
    |a| == |b| && forall i :: 0 <= i < |a| ==> LowerChar(a[i]) == LowerChar(b[i])
  }

  /** Two characters lower-case alike exactly when they are equal or the same ASCII letter in the two cases. */
  lemma LowerCharAlike(x: char, y: char)
    ensures LowerChar(x) == LowerChar(y) <==>
              x == y || (IsUpperAscii(x) && y as int == x as int + 32) || (IsUpperAscii(y) && x as int == y as int + 32)
  {
  }

  predicate StartsWith(s: string, p: string) {
    |p| <= |s| && s[..|p|] == p
  }

  /** `p` occurs in `s` starting at index `i`. */
  predicate OccursAt(s: string, p: string, i: nat) {
    i + |p| <= |s| && s[i..i + |p|] == p
  }

  /** `s.includes(p)`. */
  predicate Contains(s: string, p: string) {
    exists i: nat | i <= |s| :: OccursAt(s, p, i)
  }

  /** `s.indexOf(c)` for a single character: -1 when absent, otherwise the first index. */
  function IndexOfChar(s: string, c: char): (r: int)
    ensures r == -1 <==> c !in s
    ensures r != -1 ==> 0 <= r < |s| && s[r] == c && c !in s[..r]
  {
    if s == [] then -1
    else if s[0] == c then 0
    else
      var k := IndexOfChar(s[1..], c);
      if k == -1 then -1
      else
        assert s[..k + 1] == [s[0]] + s[1..][..k];
        k + 1
  }

  /** In `a + sep + b` with a one-character `sep` that `a` lacks, the first such character ends `a`, which splits the text back into `a` and `b`. */
  lemma IndexOfCharAfter(a: string, sep: string, b: string)
    requires |sep| == 1 && sep[0] !in a
    ensures IndexOfChar(a + sep + b, sep[0]) == |a|
    ensures (a + sep + b)[..|a|] == a && (a + sep + b)[|a| + 1..] == b
  {
    var s := a + sep + b;
    assert s[..|a|] == a;
    assert s[|a| + 1..] == b;
    assert s[|a|] == sep[0];
  }

  /** `s.lastIndexOf(c)` for a single character: -1 when absent, otherwise the last index. */
  function LastIndexOfChar(s: string, c: char): (r: int)
    ensures r == -1 <==> c !in s
    ensures r != -1 ==> 0 <= r < |s| && s[r] == c && c !in s[r + 1..]
  {
    if s == [] then -1
    else if s[|s| - 1] == c then |s| - 1
    else
      var k := LastIndexOfChar(s[..|s| - 1], c);
      assert k != -1 ==> s[k + 1..] == s[..|s| - 1][k + 1..] + [s[|s| - 1]];
      assert k == -1 ==> s == s[..|s| - 1] + [s[|s| - 1]];
      k
  }

  /**
   * `s.substring(a, b)` for non-negative arguments: both are clamped to the length and,
   * when the first exceeds the second, the two are swapped.
   */
  function JsSubstring(s: string, a: nat, b: nat): (r: string)
    ensures var lo := if a <= b then a else b;
            var hi := if a <= b then b else a;
            hi <= |s| ==> r == s[lo..hi]
    ensures |r| <= |s|
  {
    var a' := if a <= |s| then a else |s|;
    var b' := if b <= |s| then b else |s|;
    if a' <= b' then s[a'..b'] else s[b'..a']
  }

  /** `s.replace(/p/g, "")` for a literal `p`: occurrences removed left to right, without overlap. */
  function RemoveAll(s: string, p: string): (r: string)
    requires |p| > 0
    ensures |r| <= |s|
    decreases |s|
  {
    if |s| < |p| then s
    else if s[..|p|] == p then RemoveAll(s[|p|..], p)
    else [s[0]] + RemoveAll(s[1..], p)
  }

  /** Removing a pattern the string does not contain changes nothing. */
  lemma {:induction false} RemoveAllAbsent(s: string, p: string)
    requires |p| > 0 && !Contains(s, p)
    ensures RemoveAll(s, p) == s
    decreases |s|
  {
    if |s| < |p| {
    } else {
      assert !OccursAt(s, p, 0);
      assert !Contains(s[1..], p) by {
        forall i: nat | OccursAt(s[1..], p, i) ensures false {
          assert s[1..][i..i + |p|] == s[i + 1..i + 1 + |p|];
          assert OccursAt(s, p, i + 1);
        }
      }
      RemoveAllAbsent(s[1..], p);
    }
  }

  /** Removing a pattern from a string that starts with it drops that first occurrence. */
  lemma RemoveAllLeading(p: string, rest: string)
    requires |p| > 0
    ensures RemoveAll(p + rest, p) == RemoveAll(rest, p)
  {
    assert (p + rest)[..|p|] == p;
    assert (p + rest)[|p|..] == rest;
  }

  /** `s` begins with two backticks. */
  predicate StartsWithTwoTicks(s: string) {
    |s| >= 2 && s[0] == '`' && s[1] == '`'
  }

  /** Removing fences keeps a first character that is not a backtick. */
  lemma RemoveFenceKeepsFirst(s: string)
    requires |s| > 0 && s[0] != '`'
    ensures var r := RemoveAll(s, "```"); |r| > 0 && r[0] == s[0]
  {
    if |s| >= 3 {
      assert s[..3][0] == s[0];
    }
  }

  /** Removing fences from a string that does not begin with two backticks yields one that does not either. */
  lemma RemoveFenceKeepsStart(s: string)
    requires !StartsWithTwoTicks(s)
    ensures !StartsWithTwoTicks(RemoveAll(s, "```"))
  {
    if |s| >= 3 {
      assert s[..3][0] == s[0] && s[..3][1] == s[1];
      assert RemoveAll(s, "```") == [s[0]] + RemoveAll(s[1..], "```");
      if s[0] == '`' {
        RemoveFenceKeepsFirst(s[1..]);
      }
    }
  }

  /** Putting a character in front makes a fence only when it is a backtick before two more. */
  lemma FenceInJoin(c: char, rest: string)
    requires !(c == '`' && StartsWithTwoTicks(rest))
    ensures Contains([c] + rest, "```") ==> Contains(rest, "```")
  {
    var r := [c] + rest;
    if Contains(r, "```") {
      var i: nat :| i <= |r| && OccursAt(r, "```", i);
      assert r[i..i + 3][0] == r[i] && r[i..i + 3][1] == r[i + 1] && r[i..i + 3][2] == r[i + 2];
      assert i >= 1;
      assert r[i..i + 3] == rest[i - 1..i + 2];
      assert OccursAt(rest, "```", i - 1);
    }
  }

  /**
   * One left-to-right pass of removing "```" leaves no "```" behind: the pieces it joins
   * never make a new fence.
   */
  lemma {:induction false} RemoveFenceLeavesNone(s: string)
    ensures !Contains(RemoveAll(s, "```"), "```")
    decreases |s|
  {
    var r := RemoveAll(s, "```");
    if |s| < 3 {
    } else if s[..3] == "```" {
      RemoveFenceLeavesNone(s[3..]);
    } else {
      var rest := RemoveAll(s[1..], "```");
      assert r == [s[0]] + rest;
      if s[0] == '`' {
        assert s[..3][1] == s[1] && s[..3][2] == s[2];
        RemoveFenceKeepsStart(s[1..]);
      }
      FenceInJoin(s[0], rest);
      RemoveFenceLeavesNone(s[1..]);
    }
  }

  /** `trim` cannot create an occurrence: it returns a slice of its input. */
  lemma TrimKeepsAbsent(s: string, p: string)
    requires !Contains(s, p)
    ensures !Contains(Trim(s), p)
  {
    var t := TrimStart(s);
    var off := |s| - |t|;
    var r := TrimEnd(t);
    assert r == s[off..off + |r|];
    forall i: nat | i <= |r| && OccursAt(r, p, i) ensures false {
      assert r[i..i + |p|] == s[off + i..off + i + |p|];
      assert OccursAt(s, p, off + i);
    }
  }

  predicate IsDigit(c: char) { '0' <= c <= '9' }

  predicate AllDigits(s: string) {
    forall i :: 0 <= i < |s| ==> IsDigit(s[i])
  }

  function DigitChar(d: nat): (c: char)
    requires d < 10
    ensures IsDigit(c) && c as int - '0' as int == d
  {
    ('0' as int + d) as char
  }

  /** `String(n)` for a non-negative integer: decimal digits, no leading zero. */
  function NatToString(n: nat): (r: string)
    ensures |r| >= 1 && AllDigits(r)
    ensures r[0] == '0' ==> n == 0
  {
    if n < 10 then [DigitChar(n)] else NatToString(n / 10) + [DigitChar(n % 10)]
  }

  /** The value of a string of decimal digits (the empty string reads as zero). */
  function DigitsValue(s: string): nat
    requires AllDigits(s)
  {
    if s == [] then 0 else DigitsValue(s[..|s| - 1]) * 10 + (s[|s| - 1] as int - '0' as int)
  }

  /** Reading back the digits of a number gives the number. */
  lemma {:induction false} NatToStringRoundTrip(n: nat)
    ensures DigitsValue(NatToString(n)) == n
  {
    if n >= 10 {
      var s := NatToString(n);
      assert s[..|s| - 1] == NatToString(n / 10);
      NatToStringRoundTrip(n / 10);
    }
  }

  /** Distinct numbers print differently. */
  lemma NatToStringInjective(a: nat, b: nat)
    requires NatToString(a) == NatToString(b)
    ensures a == b
  {
    NatToStringRoundTrip(a);
    NatToStringRoundTrip(b);
  }

  /** `String(i)` for any integer. */
  function IntToString(i: int): (r: string)
    ensures |r| >= 1
    ensures i < 0 <==> r[0] == '-'
    ensures i >= 0 ==> r == NatToString(i)
    ensures i < 0 ==> r[1..] == NatToString(-i)
  {
    if i < 0 then "-" + NatToString(-i) else NatToString(i)
  }

  /** `String(n).padStart(2, '0')`. */
  function Pad2(n: nat): (r: string)
    ensures |r| >= 2 && AllDigits(r)
    ensures DigitsValue(r) == n
  {
    NatToStringRoundTrip(n);
    var s := NatToString(n);
    if n < 10 then
      assert DigitsValue("0") == 0;
      assert ("0" + s)[..1] == "0";
      "0" + s
    else s
  }

  /** The length of the longest prefix of `s` made of digits. */
  function DigitPrefixLength(s: string): (k: nat)
    ensures k <= |s| && AllDigits(s[..k])
    ensures k < |s| ==> !IsDigit(s[k])
  {
    if s == [] || !IsDigit(s[0]) then 0
    else
      var k := DigitPrefixLength(s[1..]);
      assert s[..k + 1] == [s[0]] + s[1..][..k];
      k + 1
  }

  predicate IsHexDigit(c: char) {
    IsDigit(c) || ('a' <= c <= 'f') || ('A' <= c <= 'F')
  }

  function HexDigitPrefixLength(s: string): (k: nat)
    ensures k <= |s|
    ensures forall i :: 0 <= i < k ==> IsHexDigit(s[i])
  {
    if s == [] || !IsHexDigit(s[0]) then 0 else HexDigitPrefixLength(s[1..]) + 1
  }

  function HexValue(s: string): nat
    requires forall i :: 0 <= i < |s| ==> IsHexDigit(s[i])
  {
    if s == [] then 0
    else
      var c := s[|s| - 1];
      assert IsHexDigit(c);
      var d: nat := if IsDigit(c) then c as int - '0' as int
               else if 'a' <= c <= 'f' then c as int - 'a' as int + 10
               else c as int - 'A' as int + 10;
      HexValue(s[..|s| - 1]) * 16 + d
  }

  /**
   * `parseInt(s)` without a radix: leading whitespace is skipped, one sign is read, a
   * `0x`/`0X` prefix selects base 16, and then the longest digit prefix is read; with no
   * digit at all the result is `NaN`, written `None` here.
   */
  function ParseInt(s: string): (r: Option<int>)
    ensures r.Some? ==> exists i :: 0 <= i < |s| && (IsDigit(s[i]) || IsHexDigit(s[i]))
  {
    var t := TrimStart(s);
    var neg := |t| > 0 && t[0] == '-';
    var u := if |t| > 0 && (t[0] == '-' || t[0] == '+') then t[1..] else t;
    assert forall i :: 0 <= i < |u| ==> u[i] == s[|s| - |u| + i];
    var sign := if neg then -1 else 1;
    if |u| >= 2 && u[0] == '0' && (u[1] == 'x' || u[1] == 'X') then
      var k := HexDigitPrefixLength(u[2..]);
      if k == 0 then None
      else
        assert IsHexDigit(u[2]);
        Some(sign * HexValue(u[2..][..k]))
    else
      var k := DigitPrefixLength(u);
      if k == 0 then None
      else
        assert IsDigit(u[0]);
        Some(sign * DigitsValue(u[..k]))
  }

  /** `parseInt` reads back every integer that `String` prints. */
  lemma ParseIntRoundTrip(i: int)
    ensures ParseInt(IntToString(i)) == Some(i)
  {
    var s := IntToString(i);
    var n: nat := if i < 0 then -i else i;
    var digits := NatToString(n);
    NatToStringRoundTrip(n);
    TrimStartKeeps(s);
    var u := if i < 0 then s[1..] else s;
    assert u == digits;
    assert u[0] == '0' ==> |u| == 1;
    var k := DigitPrefixLength(u);
    assert k == |u|;
    assert u[..k] == digits;
  }
}
