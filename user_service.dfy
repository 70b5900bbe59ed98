/**
 * The user profile (services/userService.ts): recording a finished session with its
 * aggregates and tree growth, the achievements it unlocks, pruning the history when storage
 * is full, and the dashboard's daily and weekly totals.
 *
 * Storage is a parameter: the stored user (already parsed) and the outcome of each write.
 * The clock arrives as the unlock time, the session's local hour, and the local start of
 * today and of this week's Monday.
 */
module UserService {
  import opened Wrappers
  import opened Types
  import JsNumber

  const HOURS_PER_LEVEL: real := 5.0
  const MAX_KEPT_SESSIONS: nat := 50
  const DAY_MS: int := 86400000

  // ---------------------------------------------------------------- aggregates

  /** The new total: `Math.round((old + focusMinutes / 60) * 100) / 100`, hours to the hundredth. */
  function TotalHours(previous: real, focusMinutes: int): (h: real)
    ensures var exact := previous + focusMinutes as real / 60.0;
            exact - 0.005 < h <= exact + 0.005
    ensures (h * 100.0).Floor as real == h * 100.0
  {
    var exact := previous + focusMinutes as real / 60.0;
    var cents := JsNumber.Round(exact * 100.0);
    assert cents as real - 0.5 <= exact * 100.0 < cents as real + 0.5;
    cents as real / 100.0
  }

  /** The tree's level: one more than the number of whole five-hour stretches. */
  function TreeLevel(total: real): (level: int)
    ensures total >= 0.0 ==> level >= 1
    ensures (level - 1) as real * HOURS_PER_LEVEL <= total < level as real * HOURS_PER_LEVEL
  {
    JsNumber.Floor(total / HOURS_PER_LEVEL) + 1
  }

  /** The share of the current level reached, in percent, rounded. */
  function TreeProgress(total: real): (p: int)
    ensures total >= 0.0 ==> 0 <= p <= 100
    ensures total >= 0.0 ==>
              p as real - 0.5 <= (total - (TreeLevel(total) - 1) as real * HOURS_PER_LEVEL) * 20.0 < p as real + 0.5
  {
    var inLevel := JsNumber.Rem(total, HOURS_PER_LEVEL);
    var percent := inLevel / HOURS_PER_LEVEL * 100.0;
    assert total >= 0.0 ==> 0.0 <= percent < 100.0;
    JsNumber.Round(percent)
  }

  /** A session already in the history is a repeat: saving it again changes nothing. */
  predicate Recorded(sessions: seq<SessionRecord>, sessionId: string) {
    exists k :: 0 <= k < |sessions| && sessions[k].sessionId == sessionId
  }

  // ---------------------------------------------------------------- achievements

  datatype Badge = Badge(id: string, name: string, description: string, icon: string)

  const FIRST_SESSION: Badge := Badge("first_session", "First Step", "Completed your first focus session", "\U{1F331}")
  const FIRST_HOUR: Badge := Badge("first_hour", "Power Hour", "Focused for 60+ minutes in one go", "\U{23F0}")
  const STREAK_MASTER: Badge := Badge("streak_master", "In The Zone", "Achieved a 25+ minute focus streak", "\U{1F525}")
  const LASER_FOCUS: Badge := Badge("laser_focus", "Laser Focus", "Completed a session with 0 distractions", "\U{1F3AF}")
  const DEDICATION_10: Badge := Badge("dedication_10", "Dedicated", "Reached 10 total hours of focus", "\U{1F333}")
  const EARLY_BIRD: Badge := Badge("early_bird", "Early Bird", "Completed a session before 8 AM", "\U{1F305}")
  const NIGHT_OWL: Badge := Badge("night_owl", "Night Owl", "Completed a session late at night", "\U{1F989}")

  /** Every badge, in the order the checks run. */
  const BADGES: seq<Badge> := [FIRST_SESSION, FIRST_HOUR, STREAK_MASTER, LASER_FOCUS, DEDICATION_10, EARLY_BIRD, NIGHT_OWL]

  /** The condition of each badge, on the user as updated by the session and the hour it started. */
  predicate Deserves(b: Badge, user: User, session: SessionRecord, hour: int): (d: bool)
    ensures d ==> b in BADGES
  {
    if b == FIRST_SESSION then |user.sessions| == 1
    else if b == FIRST_HOUR then session.focusTime >= 60
    else if b == STREAK_MASTER then session.longestStreak >= 25
    else if b == LASER_FOCUS then session.distractionCount == 0 && session.totalDuration >= 20
    else if b == DEDICATION_10 then user.totalFocusHours >= 10.0
    else if b == EARLY_BIRD then 4 <= hour < 8
    else if b == NIGHT_OWL then hour >= 22 || hour < 4
    else false
  }

  predicate Holds(achievements: seq<Achievement>, id: string) {
    exists k :: 0 <= k < |achievements| && achievements[k].id == id
  }

  function Unlock(b: Badge, now: int): Achievement {
    Achievement(b.id, b.name, b.description, b.icon, now)
  }

  /** The badges among the first `n` that the session earns and the user does not hold yet. */
  function NewBadges(user: User, session: SessionRecord, hour: int, n: nat): (r: seq<Badge>)
    requires n <= |BADGES|
    ensures forall b :: b in r <==> b in BADGES[..n] && Deserves(b, user, session, hour) && !Holds(user.achievements, b.id)
  {
    if n == 0 then []
    else
      var b := BADGES[n - 1];
      var earlier := NewBadges(user, session, hour, n - 1);
      assert BADGES[..n] == BADGES[..n - 1] + [b];
      if Deserves(b, user, session, hour) && !Holds(user.achievements, b.id) then earlier + [b] else earlier
  }

  /**
   * `checkAchievements`: every badge whose condition holds and which the user does not already
   * hold, in the order of the checks, stamped with the unlock time.
   */
  method CheckAchievements(user: User, session: SessionRecord, hour: int, now: int) returns (unlocked: seq<Achievement>)
    ensures unlocked == Unlocked(user, session, hour, now)
  {
    unlocked := [];
    var i := 0;
    while i < |BADGES|
      invariant 0 <= i <= |BADGES|
      invariant |unlocked| == |NewBadges(user, session, hour, i)|
      invariant forall k :: 0 <= k < |unlocked| ==> unlocked[k] == Unlock(NewBadges(user, session, hour, i)[k], now)
    {
      var b := BADGES[i];
      if Deserves(b, user, session, hour) && !Holds(user.achievements, b.id) {
        unlocked := unlocked + [Unlock(b, now)];
      }
      i := i + 1;
    }
  }

  /** The achievements a save appends: the new badges in order, stamped with the unlock time. */
  function Unlocked(user: User, session: SessionRecord, hour: int, now: int): (r: seq<Achievement>)
    ensures |r| == |NewBadges(user, session, hour, |BADGES|)|
    ensures forall k :: 0 <= k < |r| ==> r[k] == Unlock(NewBadges(user, session, hour, |BADGES|)[k], now)
  {
    var badges := NewBadges(user, session, hour, |BADGES|);
    seq(|badges|, k requires 0 <= k < |badges| => Unlock(badges[k], now))
  }

  /** An unlocked badge is one the session deserves, and never one the user already holds. */
  lemma NewBadgesAreNew(user: User, session: SessionRecord, hour: int, b: Badge)
    requires b in NewBadges(user, session, hour, |BADGES|)
    ensures Deserves(b, user, session, hour) && !Holds(user.achievements, b.id)
  {
  }

  /** A session earns every badge whose condition holds and that the user lacks. */
  lemma DeservedBadgesUnlock(user: User, session: SessionRecord, hour: int, k: nat)
    requires k < |BADGES| && Deserves(BADGES[k], user, session, hour) && !Holds(user.achievements, BADGES[k].id)
    ensures BADGES[k] in NewBadges(user, session, hour, |BADGES|)
  {
    assert BADGES[k] in BADGES[..|BADGES|];
  }

  /** No session earns both the early-bird and the night-owl badge. */
  lemma EarlyBirdOrNightOwl(user: User, session: SessionRecord, hour: int)
    ensures !(Deserves(EARLY_BIRD, user, session, hour) && Deserves(NIGHT_OWL, user, session, hour))
  {
  }

  // ---------------------------------------------------------------- saveSession

  /**
   * The outcome of a `localStorage.setItem`: stored, refused for quota, or another error.
   * An error named "QuotaExceededError" or "NS_ERROR_DOM_QUOTA_REACHED" is `QuotaExceeded`;
   * `WriteFailed` carries the name of any other error and never one of those two.
   */
  datatype WriteOutcome = Written | QuotaExceeded | WriteFailed(name: string)

  /** The user with the session in front, the new total and the tree grown to it. */
  function Grown(user: User, session: SessionRecord): (u: User)
    ensures u.sessions == [session] + user.sessions
    ensures u.totalFocusHours == TotalHours(user.totalFocusHours, session.focusTime)
    ensures u.treeLevel == TreeLevel(u.totalFocusHours) && u.treeProgress == TreeProgress(u.totalFocusHours)
    ensures u.achievements == user.achievements && u.userId == user.userId && u.preferences == user.preferences
  {
    var total := TotalHours(user.totalFocusHours, session.focusTime);
    user.(sessions := [session] + user.sessions, totalFocusHours := total,
          treeProgress := TreeProgress(total), treeLevel := TreeLevel(total))
  }

  /** The user after the session, its new achievements (judged on the grown user) appended. */
  function WithSession(user: User, session: SessionRecord, hour: int, now: int): (u: User)
    ensures u.(achievements := user.achievements) == Grown(user, session)
    ensures u.achievements == user.achievements + Unlocked(Grown(user, session), session, hour, now)
  {
    var grown := Grown(user, session);
    grown.(achievements := grown.achievements + Unlocked(grown, session, hour, now))
  }

  /** A first save earns the first-session badge unless the user holds it already. */
  lemma FirstSaveEarnsFirstStep(user: User, session: SessionRecord, hour: int, now: int)
    requires user.sessions == [] && !Holds(user.achievements, FIRST_SESSION.id)
    ensures Holds(WithSession(user, session, hour, now).achievements, FIRST_SESSION.id)
  {
    var grown := Grown(user, session);
    DeservedBadgesUnlock(grown, session, hour, 0);
    var badges := NewBadges(grown, session, hour, |BADGES|);
    var k :| 0 <= k < |badges| && badges[k] == FIRST_SESSION;
    var achievements := WithSession(user, session, hour, now).achievements;
    assert achievements[|user.achievements| + k].id == FIRST_SESSION.id;
  }

  /** Saving never loses an achievement and never awards one twice. */
  lemma AchievementsOnlyGrow(user: User, session: SessionRecord, hour: int, now: int, id: string)
    ensures var after := WithSession(user, session, hour, now).achievements;
            && after[..|user.achievements|] == user.achievements
            && (Holds(user.achievements, id) ==> forall k :: |user.achievements| <= k < |after| ==> after[k].id != id)
  {
    var grown := Grown(user, session);
    var badges := NewBadges(grown, session, hour, |BADGES|);
    var after := WithSession(user, session, hour, now).achievements;
    forall k | |user.achievements| <= k < |after| && Holds(user.achievements, id)
      ensures after[k].id != id
    {
      assert after[k] == Unlock(badges[k - |user.achievements|], now);
      assert badges[k - |user.achievements|] in badges;
    }
  }

  /** Quota pruning: keep the 50 most recent sessions when there are more. */
  function Pruned(user: User): (u: User)
    ensures |user.sessions| > MAX_KEPT_SESSIONS ==> u.sessions == user.sessions[..MAX_KEPT_SESSIONS]
    ensures |user.sessions| <= MAX_KEPT_SESSIONS ==> u == user
    ensures u.(sessions := user.sessions) == user
  {
    if |user.sessions| > MAX_KEPT_SESSIONS then user.(sessions := user.sessions[..MAX_KEPT_SESSIONS]) else user
  }

  /** The browser's storage of the signed-in user. */
  class Storage {
    var stored: Option<User>

    constructor(stored: Option<User>)
      ensures this.stored == stored
    {
      this.stored := stored;
    }

    /**
     * `saveSession`. Without a stored user it fails; a session already recorded returns the
     * user unchanged; otherwise the updated user is written, and when the write is refused for
     * quota, a history of more than 50 sessions is pruned and written once more. The updated
     * user is returned even when it could not be stored; any other write error fails.
     */
    method SaveSession(session: SessionRecord, hour: int, now: int, write: WriteOutcome, retry: WriteOutcome)
      returns (r: Result<User, string>)
      modifies this
      ensures old(stored).None? ==> r == Err("User not found") && stored == old(stored)
      ensures old(stored).Some? && Recorded(old(stored).value.sessions, session.sessionId) ==>
                r == Ok(old(stored).value) && stored == old(stored)
      ensures old(stored).Some? && !Recorded(old(stored).value.sessions, session.sessionId) ==>
                var after := WithSession(old(stored).value, session, hour, now);
                && (write == Written ==> r == Ok(after) && stored == Some(after))
                && (write == QuotaExceeded && |after.sessions| > MAX_KEPT_SESSIONS ==>
                      r == Ok(Pruned(after)) && stored == (if retry == Written then Some(Pruned(after)) else old(stored)))
                && (write == QuotaExceeded && |after.sessions| <= MAX_KEPT_SESSIONS ==> r == Ok(after) && stored == old(stored))
                && (write.WriteFailed? ==> r == Err(write.name) && stored == old(stored))
    {
      if stored.None? {
        return Err("User not found");
      }
      var user := stored.value;
      if exists k :: 0 <= k < |user.sessions| && user.sessions[k].sessionId == session.sessionId {
        return Ok(user);
      }
      user := user.(sessions := [session] + user.sessions);
      var total := TotalHours(user.totalFocusHours, session.focusTime);
      user := user.(totalFocusHours := total);
      user := user.(treeProgress := TreeProgress(total), treeLevel := TreeLevel(total));
      var unlocked := CheckAchievements(user, session, hour, now);
      user := user.(achievements := user.achievements + unlocked);
      match write {
        case Written =>
          stored := Some(user);
        case QuotaExceeded =>
          if |user.sessions| > MAX_KEPT_SESSIONS {
            user := user.(sessions := user.sessions[..MAX_KEPT_SESSIONS]);
            if retry == Written {
              stored := Some(user);
            }
          }
        case WriteFailed(name) =>
          return Err(name);
      }
      r := Ok(user);
    }
  }

  // ---------------------------------------------------------------- getDashboardStats

  /** Focus minutes of the sessions that started in `[lo, hi)`. */
  function FocusIn(sessions: seq<SessionRecord>, lo: int, hi: int): int
    decreases |sessions|
  {
    if sessions == [] then 0
    else (if lo <= sessions[0].startTime < hi then sessions[0].focusTime else 0) + FocusIn(sessions[1..], lo, hi)
  }

  /** Focus minutes and distractions of the sessions that started at or after `since`. */
  function FocusSince(sessions: seq<SessionRecord>, since: int): int
    decreases |sessions|
  {
    if sessions == [] then 0
    else (if sessions[0].startTime >= since then sessions[0].focusTime else 0) + FocusSince(sessions[1..], since)
  }

  function DistractionsSince(sessions: seq<SessionRecord>, since: int): int
    decreases |sessions|
  {
    if sessions == [] then 0
    else (if sessions[0].startTime >= since then sessions[0].distractionCount else 0) + DistractionsSince(sessions[1..], since)
  }

  /** `Math.max(...streaks of today's sessions, 0)`. */
  function LongestStreakSince(sessions: seq<SessionRecord>, since: int): (m: int)
    ensures m >= 0
    ensures forall k :: 0 <= k < |sessions| && sessions[k].startTime >= since ==> sessions[k].longestStreak <= m
    ensures m == 0 || exists k :: 0 <= k < |sessions| && sessions[k].startTime >= since && sessions[k].longestStreak == m
    decreases |sessions|
  {
    if sessions == [] then 0
    else
      var rest := LongestStreakSince(sessions[1..], since);
      assert forall k :: 1 <= k < |sessions| ==> sessions[k] == sessions[1..][k - 1];
      if sessions[0].startTime >= since && sessions[0].longestStreak > rest then sessions[0].longestStreak else rest
  }

  /** A range splits at any point in between. */
  lemma {:induction false} FocusInSplits(sessions: seq<SessionRecord>, lo: int, mid: int, hi: int)
    requires lo <= mid <= hi
    ensures FocusIn(sessions, lo, hi) == FocusIn(sessions, lo, mid) + FocusIn(sessions, mid, hi)
    decreases |sessions|
  {
    if sessions != [] {
      FocusInSplits(sessions[1..], lo, mid, hi);
    }
  }

  /** The sum of the first `n` daily totals of the week starting at `monday`. */
  function WeekSoFar(sessions: seq<SessionRecord>, monday: int, n: nat): int {
    if n == 0 then 0
    else WeekSoFar(sessions, monday, n - 1) + FocusIn(sessions, monday + (n - 1) * DAY_MS, monday + n * DAY_MS)
  }

  /** The daily totals add up to the focus minutes of the whole span: no session is counted twice or lost. */
  lemma {:induction false} WeekSoFarIsSpan(sessions: seq<SessionRecord>, monday: int, n: nat)
    ensures WeekSoFar(sessions, monday, n) == FocusIn(sessions, monday, monday + n * DAY_MS)
  {
    if n == 0 {
      EmptySpan(sessions, monday);
    } else {
      WeekSoFarIsSpan(sessions, monday, n - 1);
      FocusInSplits(sessions, monday, monday + (n - 1) * DAY_MS, monday + n * DAY_MS);
    }
  }

  lemma {:induction false} EmptySpan(sessions: seq<SessionRecord>, t: int)
    ensures FocusIn(sessions, t, t) == 0
    decreases |sessions|
  {
    if sessions != [] {
      EmptySpan(sessions[1..], t);
    }
  }

  datatype DayStat = DayStat(day: string, minutes: int, isToday: bool)

  const DAY_NAMES: seq<string> := ["Sun", "Mon", "Tue", "Wed", "Thu", "Fri", "Sat"]

  datatype DashboardStats = DashboardStats(
    todayMinutes: int,
    todayDistractions: int,
    todayLongestStreak: int,
    weeklyData: seq<DayStat>,
    weekTotalMinutes: int,
    recentSessions: seq<SessionRecord>)

  /**
   * `getDashboardStats`, with the local start of today and of this week's Monday given. Days
   * are taken as 24 hours long.
   */
  method GetDashboardStats(user: User, todayStart: int, monday: int) returns (stats: DashboardStats)
    ensures stats.todayMinutes == FocusSince(user.sessions, todayStart)
    ensures stats.todayDistractions == DistractionsSince(user.sessions, todayStart)
    ensures stats.todayLongestStreak == LongestStreakSince(user.sessions, todayStart)
    ensures |stats.weeklyData| == 7
    ensures forall i :: 0 <= i < 7 ==>
              stats.weeklyData[i] == DayStat(DAY_NAMES[(i + 1) % 7],
                                             FocusIn(user.sessions, monday + i * DAY_MS, monday + (i + 1) * DAY_MS),
                                             monday + i * DAY_MS == todayStart)
    ensures stats.weekTotalMinutes == FocusIn(user.sessions, monday, monday + 7 * DAY_MS)
    ensures stats.recentSessions == user.sessions[..if |user.sessions| < 5 then |user.sessions| else 5]
  {
    var weeklyData: seq<DayStat> := [];
    var weekTotalMinutes := 0;
    var i := 0;
    while i < 7
      invariant 0 <= i <= 7 && |weeklyData| == i
      invariant weekTotalMinutes == WeekSoFar(user.sessions, monday, i)
      invariant forall j :: 0 <= j < i ==>
                  weeklyData[j] == DayStat(DAY_NAMES[(j + 1) % 7],
                                           FocusIn(user.sessions, monday + j * DAY_MS, monday + (j + 1) * DAY_MS),
                                           monday + j * DAY_MS == todayStart)
    {
      var dStart := monday + i * DAY_MS;
      var dEnd := dStart + DAY_MS;
      var dayMins := FocusIn(user.sessions, dStart, dEnd);
      weekTotalMinutes := weekTotalMinutes + dayMins;
      weeklyData := weeklyData + [DayStat(DAY_NAMES[(i + 1) % 7], dayMins, dStart == todayStart)];
      i := i + 1;
    }
    WeekSoFarIsSpan(user.sessions, monday, 7);
    stats := DashboardStats(
      FocusSince(user.sessions, todayStart),
      DistractionsSince(user.sessions, todayStart),
      LongestStreakSince(user.sessions, todayStart),
      weeklyData,
      weekTotalMinutes,
      user.sessions[..if |user.sessions| < 5 then |user.sessions| else 5]);
  }
}
