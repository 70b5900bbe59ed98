/**
 * The session-setup provider (context/SessionContext.tsx): the default configuration, the
 * partial-update merge, loading a stored configuration and the provider lookup.
 */
module SessionConfigStore {
  import opened Wrappers
  import opened Types

  /** The configuration a new user starts from. */
  const DEFAULT_CONFIG: SessionConfig := SessionConfig(
    FOCUSED,
    60,
    BreakSchedule(Pomodoro, 25, 5),
    SUPPORTIVE_FRIEND,
    "gentle_chime",
    CONTEXT_AWARE,
    "",
    Permissions(false, false, false),
    Some(CustomSettings(Some(60), Some(70), Some("mild"))))

  /**
   * A `Partial<SessionConfig>`: `None` is a key the object does not carry. The nested custom
   * settings are themselves partial (their fields are already optional).
   */
  datatype ConfigUpdate = ConfigUpdate(
    mode: Option<string>,
    duration: Option<int>,
    breakSchedule: Option<BreakSchedule>,
    personality: Option<string>,
    alarmSound: Option<string>,
    recoveryMethod: Option<string>,
    workingOn: Option<string>,
    permissions: Option<Permissions>,
    customSettings: Option<CustomSettings>)

  const NO_UPDATE: ConfigUpdate := ConfigUpdate(None, None, None, None, None, None, None, None, None)

  /** `{ ...a, ...b }` on one optional key: the later object wins wherever it has the key. */
  function Pick<T>(later: Option<T>, earlier: T): T {
    if later.Some? then later.value else earlier
  }

  /** `{ ...prev, ...upd }` on the custom settings; an absent `prev` spreads nothing. */
  function MergeCustom(prev: Option<CustomSettings>, upd: CustomSettings): (c: CustomSettings)
    ensures upd.distractionTolerance.Some? ==> c.distractionTolerance == upd.distractionTolerance
    ensures upd.alertVolume.Some? ==> c.alertVolume == upd.alertVolume
    ensures upd.exitFriction.Some? ==> c.exitFriction == upd.exitFriction
    ensures upd.distractionTolerance.None? ==> c.distractionTolerance == (if prev.Some? then prev.value.distractionTolerance else None)
    ensures upd.alertVolume.None? ==> c.alertVolume == (if prev.Some? then prev.value.alertVolume else None)
    ensures upd.exitFriction.None? ==> c.exitFriction == (if prev.Some? then prev.value.exitFriction else None)
  {
    var base := if prev.Some? then prev.value else CustomSettings(None, None, None);
    CustomSettings(
      if upd.distractionTolerance.Some? then upd.distractionTolerance else base.distractionTolerance,
      if upd.alertVolume.Some? then upd.alertVolume else base.alertVolume,
      if upd.exitFriction.Some? then upd.exitFriction else base.exitFriction)
  }

  /** `{ ...config, ...u }`: a shallow merge, so a supplied `customSettings` replaces the old one. */
  function Overlay(config: SessionConfig, u: ConfigUpdate): SessionConfig {
    SessionConfig(
      Pick(u.mode, config.mode),
      Pick(u.duration, config.duration),
      Pick(u.breakSchedule, config.breakSchedule),
      Pick(u.personality, config.personality),
      Pick(u.alarmSound, config.alarmSound),
      Pick(u.recoveryMethod, config.recoveryMethod),
      Pick(u.workingOn, config.workingOn),
      Pick(u.permissions, config.permissions),
      if u.customSettings.Some? then u.customSettings else config.customSettings)
  }

  /** `updateConfig`: the shallow merge, except that supplied custom settings are merged field by field. */
  function UpdateConfig(prev: SessionConfig, u: ConfigUpdate): (c: SessionConfig)
    // Every top-level key the update carries is overwritten ...
    ensures u.mode.Some? ==> c.mode == u.mode.value
    ensures u.duration.Some? ==> c.duration == u.duration.value
    ensures u.breakSchedule.Some? ==> c.breakSchedule == u.breakSchedule.value
    ensures u.personality.Some? ==> c.personality == u.personality.value
    ensures u.alarmSound.Some? ==> c.alarmSound == u.alarmSound.value
    ensures u.recoveryMethod.Some? ==> c.recoveryMethod == u.recoveryMethod.value
    ensures u.workingOn.Some? ==> c.workingOn == u.workingOn.value
    ensures u.permissions.Some? ==> c.permissions == u.permissions.value
    // ... and every key it does not carry is kept.
    ensures u.mode.None? ==> c.mode == prev.mode
    ensures u.duration.None? ==> c.duration == prev.duration
    ensures u.breakSchedule.None? ==> c.breakSchedule == prev.breakSchedule
    ensures u.personality.None? ==> c.personality == prev.personality
    ensures u.alarmSound.None? ==> c.alarmSound == prev.alarmSound
    ensures u.recoveryMethod.None? ==> c.recoveryMethod == prev.recoveryMethod
    ensures u.workingOn.None? ==> c.workingOn == prev.workingOn
    ensures u.permissions.None? ==> c.permissions == prev.permissions
    // Custom settings: merged when supplied, kept when absent.
    ensures u.customSettings.None? ==> c.customSettings == prev.customSettings
    ensures u.customSettings.Some? ==> c.customSettings == Some(MergeCustom(prev.customSettings, u.customSettings.value))
  {
    Overlay(prev, u).(customSettings :=
      if u.customSettings.Some? then Some(MergeCustom(prev.customSettings, u.customSettings.value))
      else prev.customSettings)
  }

  /** An empty update changes nothing. */
  lemma EmptyUpdateIsIdentity(c: SessionConfig)
    ensures UpdateConfig(c, NO_UPDATE) == c
  {
  }

  /** Applying the same update twice is the same as applying it once. */
  lemma UpdateIdempotent(c: SessionConfig, u: ConfigUpdate)
    ensures UpdateConfig(UpdateConfig(c, u), u) == UpdateConfig(c, u)
  {
  }

  /**
   * A custom-settings update that names only one field (the volume slider) keeps the other
   * fields the configuration had.
   */
  lemma VolumeUpdateKeepsOtherSettings(c: SessionConfig, volume: int)
    requires c.customSettings.Some?
    ensures var r := UpdateConfig(c, NO_UPDATE.(customSettings := Some(CustomSettings(None, Some(volume), None))));
            r.customSettings == Some(c.customSettings.value.(alertVolume := Some(volume)))
            && r.(customSettings := c.customSettings) == c
  {
  }

  /**
   * Loading the stored configuration: a missing or empty entry gives the default; otherwise
   * the parsed object is shallow-merged over the default, and a parse failure (`None` from
   * `parse`) gives the default.
   */
  function LoadConfig(saved: Option<string>, parse: string -> Option<ConfigUpdate>): (c: SessionConfig)
    ensures saved.None? || saved.value == "" ==> c == DEFAULT_CONFIG
    ensures saved.Some? && saved.value != "" && parse(saved.value).None? ==> c == DEFAULT_CONFIG
    ensures saved.Some? && saved.value != "" && parse(saved.value).Some? ==> c == Overlay(DEFAULT_CONFIG, parse(saved.value).value)
  {
    if saved.None? || saved.value == "" then DEFAULT_CONFIG
    else match parse(saved.value)
      case None => DEFAULT_CONFIG
      case Some(u) => Overlay(DEFAULT_CONFIG, u)
  }

  /**
   * Unlike `updateConfig`, loading does not merge the custom settings: a stored object with
   * only a volume loses the default tolerance and exit friction.
   */
  lemma StoredCustomSettingsReplaceDefaults(saved: string, parse: string -> Option<ConfigUpdate>, volume: int)
    requires saved != ""
    requires parse(saved) == Some(NO_UPDATE.(customSettings := Some(CustomSettings(None, Some(volume), None))))
    ensures LoadConfig(Some(saved), parse).customSettings == Some(CustomSettings(None, Some(volume), None))
    ensures UpdateConfig(DEFAULT_CONFIG, parse(saved).value).customSettings == Some(CustomSettings(Some(60), Some(volume), Some("mild")))
  {
  }

  /** A stored configuration with every key present is loaded exactly as stored. */
  lemma CompleteStoredConfigLoadsAsIs(saved: string, parse: string -> Option<ConfigUpdate>, stored: SessionConfig)
    requires saved != ""
    requires parse(saved) == Some(ConfigUpdate(Some(stored.mode), Some(stored.duration), Some(stored.breakSchedule),
      Some(stored.personality), Some(stored.alarmSound), Some(stored.recoveryMethod), Some(stored.workingOn),
      Some(stored.permissions), stored.customSettings))
    requires stored.customSettings.Some?
    ensures LoadConfig(Some(saved), parse) == stored
  {
  }

  /** `resetConfig`. */
  function ResetConfig(): (c: SessionConfig)
    ensures c == DEFAULT_CONFIG && c.mode == FOCUSED && c.customSettings.Some?
  {
    DEFAULT_CONFIG
  }

  /** After a reset, loading the configuration it persists (every key present) gives it back. */
  lemma ResetSurvivesReload(saved: string, parse: string -> Option<ConfigUpdate>)
    requires saved != ""
    requires parse(saved) == Some(ConfigUpdate(Some(FOCUSED), Some(60), Some(BreakSchedule(Pomodoro, 25, 5)),
      Some(SUPPORTIVE_FRIEND), Some("gentle_chime"), Some(CONTEXT_AWARE), Some(""),
      Some(Permissions(false, false, false)), Some(CustomSettings(Some(60), Some(70), Some("mild")))))
    ensures LoadConfig(Some(saved), parse) == ResetConfig()
  {
    CompleteStoredConfigLoadsAsIs(saved, parse, ResetConfig());
  }

  /** `useSession`: the provider's value, or the error thrown outside a provider. */
  function UseSession<C>(context: Option<C>): (r: Result<C, string>)
    ensures context.None? <==> r.Err?
    ensures context.Some? ==> r == Ok(context.value)
    ensures r.Err? ==> r.error == "useSession must be used within a SessionProvider"
  {
    if context.None? then Err("useSession must be used within a SessionProvider") else Ok(context.value)
  }
}
