/**
 * The dashboard's own rules (pages/Dashboard.tsx): the minutes readout, the tree icon of
 * the user's level, the weekly bar heights, the achievement grid and the quick start.
 * Minute totals are whole numbers (the stored session records hold rounded minutes).
 */
module Dashboard {
  import opened Wrappers
  import opened Strings
  import JsNumber
  import DurationText
  import Types
  import SessionConfigStore

  /**
   * `formatTime`: "{h}h {m}m" from one hour on, "{m}m" below, with `h = floor(mins / 60)` and
   * `m = mins % 60` (JavaScript's remainder, negative for a negative count).
   */
  function FormatMinutes(mins: int): (s: string)
    ensures mins >= 0 ==> DurationText.ReadHoursMinutes(s) == Some((mins / 60, mins % 60))
    ensures mins < 60 <==> 'h' !in s
  {
    var h := mins / 60;
    var m := JsNumber.IntRem(mins, 60);
    if h > 0 then
      DurationText.ReadHoursAndMinutes(h, m);
      assert (NatToString(h) + "h " + (NatToString(m) + "m"))[|NatToString(h)|] == 'h';
      NatToString(h) + "h " + (NatToString(m) + "m")
    else if m >= 0 then
      DurationText.ReadMinutesOnly(m);
      DurationText.PrintedHasNo(m, 'h');
      NatToString(m) + "m"
    else
      DurationText.PrintedHasNo(-m, 'h');
      IntToString(m) + "m"
  }

  /** The readout determines the minutes it was made from. */
  lemma FormatMinutesInjective(a: nat, b: nat)
    requires FormatMinutes(a) == FormatMinutes(b)
    ensures a == b
  {
    assert (a / 60, a % 60) == (b / 60, b % 60);
  }

  const SEEDLING: string := "🌱"
  const HERB: string := "🌿"
  const EVERGREEN: string := "🌲"
  const DECIDUOUS: string := "🌳"

  /** `getTreeIcon`: three distinct icons for levels 1 to 3, and the same full tree for level 4 and every other value. */
  function TreeIcon(level: int): (icon: string)
    ensures level == 1 <==> icon == SEEDLING
    ensures level == 2 <==> icon == HERB
    ensures level == 3 <==> icon == EVERGREEN
    ensures !(1 <= level <= 3) <==> icon == DECIDUOUS
  {
    if level == 1 then SEEDLING
    else if level == 2 then HERB
    else if level == 3 then EVERGREEN
    else if level == 4 then DECIDUOUS
    else DECIDUOUS
  }

  /** One day of the weekly chart: no bar for a day without focus. */
  datatype DayBar = NoBar | Bar(height: real)

  /** `min(100, max(5, minutes / 120 * 100))`: percent of the two-hour scale, between 5 and 100. */
  function BarHeight(minutes: nat): (h: real)
    ensures 5.0 <= h <= 100.0
    ensures minutes >= 120 ==> h == 100.0
    ensures minutes <= 6 ==> h == 5.0
    ensures 6 <= minutes <= 120 ==> h * 120.0 == minutes as real * 100.0
  {
    JsNumber.Min(100.0, JsNumber.Max(5.0, minutes as real / 120.0 * 100.0))
  }

  /** More focus never gives a lower bar. */
  lemma BarHeightMonotone(a: nat, b: nat)
    requires a <= b
    ensures BarHeight(a) <= BarHeight(b)
  {
    assert a as real / 120.0 * 100.0 <= b as real / 120.0 * 100.0;
  }

  function Day(minutes: nat): (bar: DayBar)
    ensures bar.NoBar? <==> minutes == 0
    ensures bar.Bar? ==> bar.height == BarHeight(minutes)
  {
    if minutes == 0 then NoBar else Bar(BarHeight(minutes))
  }

  /** The achievement grid: the first eight unlocked badges, then locked placeholders up to four tiles. */
  function Grid(achievements: seq<Types.Achievement>): (r: (seq<Types.Achievement>, nat))
    ensures |r.0| == if |achievements| < 8 then |achievements| else 8
    ensures r.0 == achievements[..|r.0|]
    ensures r.1 == if |achievements| < 4 then 4 - |achievements| else 0
  {
    var shown := if |achievements| < 8 then achievements else achievements[..8];
    var locked := if 4 - |achievements| > 0 then 4 - |achievements| else 0;
    (shown, locked)
  }

  /** The grid always has between four and eight tiles, and placeholders only beside fewer than four badges. */
  lemma GridSize(achievements: seq<Types.Achievement>)
    ensures 4 <= |Grid(achievements).0| + Grid(achievements).1 <= 8
    ensures Grid(achievements).1 > 0 <==> |achievements| < 4
  {
  }

  /** `handleQuickStart`'s update: 25 minutes on "Quick Session", with the saved mode and personality or their defaults. */
  function QuickStart(prefs: Types.Preferences): (u: SessionConfigStore.ConfigUpdate)
    ensures u.duration == Some(25) && u.workingOn == Some("Quick Session")
    ensures u.mode == Some(if prefs.defaultMode == "" then Types.FOCUSED else prefs.defaultMode)
    ensures u.personality == Some(if prefs.defaultPersonality == "" then Types.SUPPORTIVE_FRIEND else prefs.defaultPersonality)
    ensures u.breakSchedule.None? && u.alarmSound.None? && u.recoveryMethod.None? && u.permissions.None? && u.customSettings.None?
  {
    SessionConfigStore.NO_UPDATE.(
      mode := Some(if prefs.defaultMode != "" then prefs.defaultMode else Types.FOCUSED),
      duration := Some(25),
      personality := Some(if prefs.defaultPersonality != "" then prefs.defaultPersonality else Types.SUPPORTIVE_FRIEND),
      workingOn := Some("Quick Session"))
  }

  /** Quick start changes only those four settings: schedule, sounds, recovery, permissions and custom settings stay. */
  lemma QuickStartKeepsTheRest(prev: Types.SessionConfig, prefs: Types.Preferences)
    ensures var c := SessionConfigStore.UpdateConfig(prev, QuickStart(prefs));
            c.duration == 25 && c.workingOn == "Quick Session" && c.mode != "" && c.personality != "" &&
            c.(mode := prev.mode, duration := prev.duration, personality := prev.personality, workingOn := prev.workingOn) == prev
  {
  }
}
