/** The records the application passes between its parts (types.ts). */
module Types {
  import opened Wrappers

  // Session modes, personalities and recovery methods travel as strings in the source
  // (a saved preference or a service reply can carry any string); these are the names it uses.
  const HARDCORE: string := "hardcore"
  const FOCUSED: string := "focused"
  const CHILL: string := "chill"
  const CUSTOM: string := "custom"

  const SUPPORTIVE_FRIEND: string := "supportive_friend"
  const DRILL_SERGEANT: string := "drill_sergeant"
  const ROAST_MODE: string := "roast_mode"
  const CALM_COACH: string := "calm_coach"
  const HYPE_MODE: string := "hype_mode"

  const CONTEXT_AWARE: string := "context_aware"
  const PHYSICAL_RESET: string := "physical_reset"
  const REFLECTION: string := "reflection"
  const MATH_EASY: string := "math_easy"
  const MATH_HARD: string := "math_hard"
  const SIMPLE_CLICK: string := "simple_click"
  const PROGRESSIVE: string := "progressive"

  datatype BreakKind = Pomodoro | Extended | CustomBreaks | NoBreaks

  /** Work interval and break length, in minutes. */
  datatype BreakSchedule = BreakSchedule(kind: BreakKind, workInterval: int, breakDuration: int)

  /** Every field optional: the source merges partial objects into these settings. */
  datatype CustomSettings = CustomSettings(
    distractionTolerance: Option<int>,
    alertVolume: Option<int>,
    exitFriction: Option<string>)

  datatype Permissions = Permissions(camera: bool, microphone: bool, notifications: bool)

  datatype SessionConfig = SessionConfig(
    mode: string,
    duration: int,
    breakSchedule: BreakSchedule,
    personality: string,
    alarmSound: string,
    recoveryMethod: string,
    workingOn: string,
    permissions: Permissions,
    customSettings: Option<CustomSettings>)

  datatype SessionStatus = Active | Paused | OnBreak | Distracted | Completed

  datatype Role = UserRole | AiRole

  datatype ChatMessage = ChatMessage(id: string, role: Role, content: string, timestamp: int)

  datatype Breakdown = Breakdown(phone: int, leftDesk: int, socialMedia: int, other: int) {
    function Total(): int { phone + leftDesk + socialMedia + other }
  }

  /** Seconds to the next break; JavaScript's `Infinity` when the session has no breaks. */
  datatype Countdown = Finite(seconds: int) | Unbounded

  datatype ActiveSessionState = ActiveSessionState(
    status: SessionStatus,
    startTime: int,
    elapsedTime: int,
    focusTime: int,
    distractionTime: int,
    distractionCount: int,
    breakdown: Breakdown,
    currentStreak: real,
    longestStreak: real,
    nextBreakIn: Countdown,
    breaksTaken: int,
    chatHistory: seq<ChatMessage>,
    isMinimized: bool)

  /** A finished session as stored in the user's history; durations are in minutes. */
  datatype SessionRecord = SessionRecord(
    sessionId: string,
    userId: string,
    startTime: int,
    endTime: int,
    totalDuration: int,
    focusTime: int,
    distractedTime: int,
    focusPercentage: real,
    distractionCount: int,
    breakdown: Breakdown,
    longestStreak: int,
    mode: string,
    workingOn: string)

  datatype Achievement = Achievement(id: string, name: string, description: string, icon: string, unlockedAt: int)

  datatype Preferences = Preferences(defaultMode: string, defaultPersonality: string)

  datatype User = User(
    userId: string,
    totalFocusHours: real,
    treeProgress: int,
    treeLevel: int,
    preferences: Preferences,
    sessions: seq<SessionRecord>,
    achievements: seq<Achievement>)
}
