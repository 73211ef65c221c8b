// The climate entities of the integration (custom_components/ramses_cc/
// climate.py): the translation tables between the controller's and the
// zones' native modes and Home Assistant's HVAC modes and presets, the
// properties HA reads, and the mode changes it asks for.  The library
// device is represented by the status it reports and by the log of the
// requests the entity passes to it; `now` is a parameter and times are
// whole seconds.

module Climate {
  import opened Outcomes
  import Modes

  /** Home Assistant's HVAC modes used here. */
  datatype HvacMode = Heat | Off | Auto

  /** Home Assistant's HVAC actions used here. */
  datatype HvacAction = Idle | Heating | Stopped

  /** Home Assistant's presets and the integration's own three. */
  datatype Preset =
    | NoPreset
    | AwayPreset
    | CustomPreset
    | HomePreset
    | EcoPreset
    | TemporaryPreset
    | PermanentPreset

  const Hour: int := 3600
  const Day: int := 86400

  // ---------------------------------------------------------------------
  // Translation tables

  const ModeTcsToHa: map<Modes.SystemMode, HvacMode> :=
    map[Modes.Auto := Heat, Modes.HeatOff := Off, Modes.AutoWithReset := Heat]

  const ModeHaToTcs: map<HvacMode, Modes.SystemMode> :=
    map[Heat := Modes.Auto, Off := Modes.HeatOff, Auto := Modes.AutoWithReset]

  const PresetTcsToHa: map<Modes.SystemMode, Preset> :=
    map[Modes.Auto := NoPreset, Modes.Away := AwayPreset, Modes.Custom := CustomPreset,
        Modes.DayOff := HomePreset, Modes.DayOffEco := HomePreset, Modes.EcoBoost := EcoPreset,
        Modes.HeatOff := NoPreset, Modes.AutoWithReset := NoPreset]

  const PresetHaToTcs: map<Preset, Modes.SystemMode> :=
    map[NoPreset := Modes.Auto, AwayPreset := Modes.Away, CustomPreset := Modes.Custom,
        HomePreset := Modes.DayOff, EcoPreset := Modes.EcoBoost]

  const ModeZoneToHa: map<Modes.ZoneMode, HvacMode> :=
    map[Modes.AdvancedOverride := Heat, Modes.FollowSchedule := Auto,
        Modes.PermanentOverride := Heat, Modes.TemporaryOverride := Heat]

  const ModeHaToZone: map<HvacMode, Modes.ZoneMode> :=
    map[Heat := Modes.PermanentOverride, Auto := Modes.FollowSchedule]

  const PresetZoneToHa: map<Modes.ZoneMode, Preset> :=
    map[Modes.FollowSchedule := NoPreset, Modes.TemporaryOverride := TemporaryPreset,
        Modes.PermanentOverride := PermanentPreset]

  /** `{v: k for k, v in PRESET_ZONE_TO_HA.items()}` */
  const PresetHaToZone: map<Preset, Modes.ZoneMode> :=
    map[NoPreset := Modes.FollowSchedule, TemporaryPreset := Modes.TemporaryOverride,
        PermanentPreset := Modes.PermanentOverride]

  /** The zone preset tables are inverse to each other. */
  lemma PresetZoneInverse(m: Modes.ZoneMode, p: Preset)
    ensures m in PresetZoneToHa ==> PresetZoneToHa[m] in PresetHaToZone && PresetHaToZone[PresetZoneToHa[m]] == m
    ensures p in PresetHaToZone ==> PresetHaToZone[p] in PresetZoneToHa && PresetZoneToHa[PresetHaToZone[p]] == p
  {
    match m {
      case FollowSchedule =>
      case AdvancedOverride =>
      case PermanentOverride =>
      case CountdownOverride =>
      case TemporaryOverride =>
    }
  }

  /** Every system mode has a preset, one HA can also set; each preset HA
    * can set reads back as itself. */
  lemma PresetTcsRoundTrip(m: Modes.SystemMode, p: Preset)
    ensures m in PresetTcsToHa && PresetTcsToHa[m] in PresetHaToTcs
    ensures p in PresetHaToTcs ==> PresetHaToTcs[p] in PresetTcsToHa && PresetTcsToHa[PresetHaToTcs[p]] == p
  {
    match m {
      case Auto =>
      case Away =>
      case Custom =>
      case DayOff =>
      case DayOffEco =>
      case EcoBoost =>
      case HeatOff =>
      case AutoWithReset =>
    }
  }

  /** heat and off read back as themselves; auto is sent as auto_with_reset,
    * which reads back as heat. */
  lemma ModeTcsRoundTrip(h: HvacMode)
    ensures h in ModeHaToTcs && ModeHaToTcs[h] in ModeTcsToHa
    ensures ModeTcsToHa[ModeHaToTcs[h]] == if h == Auto then Heat else h
  {
    match h {
      case Heat =>
      case Off =>
      case Auto =>
    }
  }

  /** The zone's HVAC modes read back as themselves. */
  lemma ModeZoneRoundTrip(h: HvacMode)
    ensures h in ModeHaToZone ==> ModeHaToZone[h] in ModeZoneToHa && ModeZoneToHa[ModeHaToZone[h]] == h
    ensures h in ModeHaToZone <==> h != Off
  {
    match h {
      case Heat =>
      case Off =>
      case Auto =>
    }
  }

  // ---------------------------------------------------------------------
  // Controller

  /** `hvac_action` of a controller or a zone: nothing is known without a
    * system mode; heat_off stops; otherwise a heat demand means heating,
    * a zero demand idling. */
  function HvacActionOf(systemMode: Option<Modes.SystemMode>, heatDemand: Option<real>): (r: Option<HvacAction>)
    ensures r == Some(Stopped) <==> systemMode == Some(Modes.HeatOff)
    ensures r == Some(Heating) <==>
      systemMode.Some? && systemMode != Some(Modes.HeatOff) && heatDemand.Some? && heatDemand.value != 0.0
    ensures r == Some(Idle) <==> systemMode.Some? && systemMode != Some(Modes.HeatOff) && heatDemand == Some(0.0)
    ensures r.None? <==> systemMode.None? || (systemMode != Some(Modes.HeatOff) && heatDemand.None?)
  {
    if systemMode.None? then None
    else if systemMode.value == Modes.HeatOff then Some(Stopped)
    else if heatDemand.Some? && heatDemand.value != 0.0 then Some(Heating)
    else if heatDemand.Some? then Some(Idle)
    else None
  }

  /** The controller's `hvac_mode`: off for heat_off, auto for away (no
    * setpoints can be changed then), heat otherwise. */
  function ControllerHvacMode(systemMode: Option<Modes.SystemMode>): (r: Option<HvacMode>)
    ensures r.None? <==> systemMode.None?
    ensures r == Some(Off) <==> systemMode == Some(Modes.HeatOff)
    ensures r == Some(Auto) <==> systemMode == Some(Modes.Away)
  {
    if systemMode.None? then None
    else if systemMode.value == Modes.HeatOff then Some(Off)
    else if systemMode.value == Modes.Away then Some(Auto)
    else Some(Heat)
  }

  /** The controller reports what the mode table says for every mode in it. */
  lemma ControllerHvacModeMatchesTable(m: Modes.SystemMode)
    requires m in ModeTcsToHa
    ensures ControllerHvacMode(Some(m)) == Some(ModeTcsToHa[m])
  {
  }

  /** The controller's `preset_mode`. */
  function ControllerPresetMode(systemMode: Option<Modes.SystemMode>): (r: Option<Preset>)
    ensures r.None? <==> systemMode.None?
    ensures r.Some? ==> r.value in PresetHaToTcs
    ensures r.Some? && systemMode.value in PresetHaToTcs.Values ==> PresetHaToTcs[r.value] == systemMode.value
  {
    if systemMode.None? then None
    else
      PresetTcsRoundTrip(systemMode.value, NoPreset);
      PresetTcsValues(systemMode.value);
      Some(PresetTcsToHa[systemMode.value])
  }

  /** The system modes HA can set are exactly those it reads back as the
    * preset that sets them. */
  lemma PresetTcsValues(m: Modes.SystemMode)
    ensures m in PresetTcsToHa && PresetTcsToHa[m] in PresetHaToTcs
    ensures m in PresetHaToTcs.Values ==> PresetHaToTcs[PresetTcsToHa[m]] == m
    ensures m in PresetHaToTcs.Values <==> m !in {Modes.DayOffEco, Modes.HeatOff, Modes.AutoWithReset}
  {
    PresetTcsRoundTrip(m, NoPreset);
    match m {
      case Auto => assert PresetHaToTcs[NoPreset] == m;
      case Away => assert PresetHaToTcs[AwayPreset] == m;
      case Custom => assert PresetHaToTcs[CustomPreset] == m;
      case DayOff => assert PresetHaToTcs[HomePreset] == m;
      case DayOffEco =>
      case EcoBoost => assert PresetHaToTcs[EcoPreset] == m;
      case HeatOff =>
      case AutoWithReset =>
    }
  }

  /** A preset HA sets on the controller reads back as that preset. */
  lemma ControllerPresetRoundTrip(p: Preset)
    requires p in PresetHaToTcs
    ensures ControllerPresetMode(Some(PresetHaToTcs[p])) == Some(p)
  {
  }

  /** The end of a system mode override: now plus the duration when there
    * is one; for a whole number of days, the first midnight after now plus
    * the period; now plus any other period; no end without either. */
  function SystemModeUntil(now: int, period: Option<int>, duration: Option<int>): (r: Option<int>)
    ensures duration.Some? ==> r == Some(now + duration.value)
    ensures duration.None? && period.None? ==> r.None?
    ensures duration.None? && period.Some? && period.value % Day != 0 ==> r == Some(now + period.value)
    ensures duration.None? && period.Some? && period.value % Day == 0 ==>
      r.Some? && r.value % Day == 0 && now + period.value < r.value <= now + period.value + Day
  {
    if duration.Some? then Some(now + duration.value)
    else if period.None? then None
    else if period.value % Day == 0 then
      var r := (now / Day + 1 + period.value / Day) * Day;
      assert r % Day == 0 && now + period.value < r <= now + period.value + Day by {
        MidnightAfter(now, period.value);
      }
      Some(r)
    else Some(now + period.value)
  }

  lemma MidnightAfter(now: int, period: int)
    requires period % Day == 0
    ensures var r := (now / Day + 1 + period / Day) * Day;
      r % Day == 0 && now + period < r <= now + period + Day
  {
    var q := now / Day;
    var k := period / Day;
    assert period == k * Day;
    assert q * Day <= now < q * Day + Day;
    var r := (q + 1 + k) * Day;
    assert r == q * Day + Day + k * Day;
    assert r % Day == 0 by {
      assert r == (q + 1 + k) * Day;
    }
  }

  /** A request passed to the controller device. */
  datatype SystemRequest =
    | SystemModeRequest(mode: Modes.SystemMode, until: Option<int>)
    | SystemModeReset
    | FaultLogRequest(limit: int)

  class Controller {
    /** What the device reports as its system mode, if anything. */
    var systemMode: Option<Modes.SystemMode>
    /** The requests passed to the device, oldest first. */
    var sent: seq<SystemRequest>

    constructor (systemMode: Option<Modes.SystemMode>)
      ensures this.systemMode == systemMode && sent == []
    {
      this.systemMode := systemMode;
      sent := [];
    }

    /** `async_set_system_mode` */
    method SetSystemMode(mode: Modes.SystemMode, period: Option<int>, duration: Option<int>, now: int)
      modifies this
      ensures sent == old(sent) + [SystemModeRequest(mode, SystemModeUntil(now, period, duration))]
      ensures systemMode == old(systemMode)
    {
      sent := sent + [SystemModeRequest(mode, SystemModeUntil(now, period, duration))];
    }

    /** `set_hvac_mode`: the system mode from the table, with no end. */
    method SetHvacMode(h: HvacMode, now: int)
      modifies this
      ensures sent == old(sent) + [SystemModeRequest(ModeHaToTcs[h], None)]
      ensures systemMode == old(systemMode)
    {
      SetSystemMode(ModeHaToTcs[h], None, None, now);
    }

    /** `set_preset_mode`: a preset the table does not hold raises KeyError
      * and nothing is sent. */
    method SetPresetMode(p: Preset, now: int) returns (r: Result<()>)
      modifies this
      ensures p !in PresetHaToTcs ==> r == Err(KeyError) && sent == old(sent)
      ensures p in PresetHaToTcs ==> r.Ok? && sent == old(sent) + [SystemModeRequest(PresetHaToTcs[p], None)]
      ensures systemMode == old(systemMode)
    {
      if p !in PresetHaToTcs {
        return Err(KeyError);
      }
      SetSystemMode(PresetHaToTcs[p], None, None, now);
      return Ok(());
    }

    /** `async_reset_system_mode` */
    method ResetSystemMode()
      modifies this
      ensures sent == old(sent) + [SystemModeReset] && systemMode == old(systemMode)
    {
      sent := sent + [SystemModeReset];
    }

    /** `async_get_system_faults` */
    method GetSystemFaults(numEntries: int)
      modifies this
      ensures sent == old(sent) + [FaultLogRequest(numEntries)] && systemMode == old(systemMode)
    {
      sent := sent + [FaultLogRequest(numEntries)];
    }
  }

  // ---------------------------------------------------------------------
  // Zones

  /** The zone's `mode` status: its mode and setpoint. */
  datatype ZoneStatus = ZoneStatus(mode: Modes.ZoneMode, setpoint: Option<real>)

  /** The zone's `config` status when it is known (non-empty). */
  datatype ZoneConfig = ZoneConfig(minTemp: real, maxTemp: real)

  /** `min_temp`: the configured minimum, 5 without a config. */
  function ZoneMinTemp(config: Option<ZoneConfig>): (r: real)
    ensures config.None? ==> r == 5.0
    ensures config.Some? ==> r == config.value.minTemp
  {
    if config.None? then 5.0 else config.value.minTemp
  }

  /** `max_temp`: the configured maximum, 35 without a config. */
  function ZoneMaxTemp(config: Option<ZoneConfig>): (r: real)
    ensures config.None? ==> r == 35.0
    ensures config.Some? ==> r == config.value.maxTemp
  {
    if config.None? then 35.0 else config.value.maxTemp
  }

  /** The zone's `hvac_mode`: the system's away and heat_off come first;
    * then a zone at or below its configured minimum is off. */
  function ZoneHvacMode(systemMode: Option<Modes.SystemMode>, status: Option<ZoneStatus>, config: Option<ZoneConfig>):
    (r: Option<HvacMode>)
    ensures systemMode == Some(Modes.Away) ==> r == Some(Auto)
    ensures systemMode == Some(Modes.HeatOff) ==> r == Some(Off)
    ensures r.None? <==> (systemMode.None? ||
      (systemMode.value != Modes.Away && systemMode.value != Modes.HeatOff && (status.None? || status.value.setpoint.None?)))
    ensures r == Some(Auto) ==> systemMode == Some(Modes.Away)
    ensures r == Some(Off) && systemMode != Some(Modes.HeatOff) ==>
      config.Some? && status.value.setpoint.value <= ZoneMinTemp(config)
    ensures systemMode.Some? && systemMode.value !in {Modes.Away, Modes.HeatOff} &&
            status.Some? && status.value.setpoint.Some? ==>
      r == Some(if config.Some? && status.value.setpoint.value <= ZoneMinTemp(config) then Off else Heat)
  {
    if systemMode.None? then None
    else if systemMode.value == Modes.Away then Some(Auto)
    else if systemMode.value == Modes.HeatOff then Some(Off)
    else if status.None? || status.value.setpoint.None? then None
    else if config.Some? && status.value.setpoint.value <= config.value.minTemp then Some(Off)
    else Some(Heat)
  }

  /** Without a known config a zone is never off by its setpoint, although
    * its minimum is then reported as 5. */
  lemma ZoneOffNeedsConfig(systemMode: Modes.SystemMode, mode: Modes.ZoneMode)
    requires systemMode != Modes.Away && systemMode != Modes.HeatOff
    ensures ZoneHvacMode(Some(systemMode), Some(ZoneStatus(mode, Some(5.0))), None) == Some(Heat)
    ensures 5.0 <= ZoneMinTemp(None)
  {
  }

  /** The zone's `preset_mode`: away and heat_off systems impose their
    * preset; a zone following its schedule shows the system's preset; any
    * other zone mode its own preset, if the table has one. */
  function ZonePresetMode(systemMode: Option<Modes.SystemMode>, status: Option<ZoneStatus>): (r: Option<Preset>)
    ensures systemMode.None? ==> r.None?
    ensures systemMode.Some? && systemMode.value in {Modes.Away, Modes.HeatOff} ==> r == ControllerPresetMode(systemMode)
    ensures systemMode.Some? && systemMode.value !in {Modes.Away, Modes.HeatOff} && status.None? ==> r.None?
    ensures systemMode.Some? && status.Some? && status.value.mode == Modes.FollowSchedule ==> r == ControllerPresetMode(systemMode)
    ensures systemMode.Some? && systemMode.value !in {Modes.Away, Modes.HeatOff} && status.Some? &&
            status.value.mode != Modes.FollowSchedule ==>
      (r.Some? <==> status.value.mode in PresetZoneToHa) &&
      (r.Some? ==> r.value in PresetHaToZone && PresetHaToZone[r.value] == status.value.mode)
  {
    if systemMode.None? then None
    else if systemMode.value == Modes.Away || systemMode.value == Modes.HeatOff then
      PresetTcsRoundTrip(systemMode.value, NoPreset);
      Some(PresetTcsToHa[systemMode.value])
    else if status.None? then None
    else if status.value.mode == Modes.FollowSchedule then
      PresetTcsRoundTrip(systemMode.value, NoPreset);
      Some(PresetTcsToHa[systemMode.value])
    else if status.value.mode in PresetZoneToHa then
      PresetZoneInverse(status.value.mode, NoPreset);
      Some(PresetZoneToHa[status.value.mode])
    else None
  }

  /** An away or heat_off system decides a zone's mode and preset whatever
    * the zone's own status and config, and the controller agrees. */
  lemma SystemOverridesZone(systemMode: Modes.SystemMode, s1: Option<ZoneStatus>, s2: Option<ZoneStatus>,
                            c1: Option<ZoneConfig>, c2: Option<ZoneConfig>)
    requires systemMode == Modes.Away || systemMode == Modes.HeatOff
    ensures ZoneHvacMode(Some(systemMode), s1, c1) == ZoneHvacMode(Some(systemMode), s2, c2) == ControllerHvacMode(Some(systemMode))
    ensures ZonePresetMode(Some(systemMode), s1) == ZonePresetMode(Some(systemMode), s2) == ControllerPresetMode(Some(systemMode))
  {
  }

  /** The end of a zone or DHW override: an explicit until is kept, and
    * only otherwise does a duration count from now. */
  function OverrideUntil(now: int, duration: Option<int>, until: Option<int>): (r: Option<int>)
    ensures until.Some? ==> r == until
    ensures until.None? ==> r == if duration.Some? then Some(now + duration.value) else None
  {
    if until.None? && duration.Some? then Some(now + duration.value) else until
  }

  /** The mode argument passed to the zone device: none, a zone mode, or,
    * as written for HVAC mode off, the device's frost-mode method itself. */
  datatype ModeArg = NoMode | ModeOf(mode: Modes.ZoneMode) | FrostModeMethod

  /** A request passed to the zone device. */
  datatype ZoneRequest =
    | ZoneModeRequest(mode: ModeArg, setpoint: Option<real>, until: Option<int>)
    | ZoneModeReset
    | FrostModeRequest

  /** `set_hvac_mode` as written: auto resets the mode, heat sets a
    * permanent override at 25, and off passes `set_frost_mode` (the method,
    * not a call of it) as the mode. */
  function ZoneHvacRequestAsWritten(h: HvacMode): (r: ZoneRequest)
    ensures h == Off <==> r.ZoneModeRequest? && r.mode.FrostModeMethod?
    ensures h == Auto <==> r == ZoneModeReset
    ensures h == Heat ==> r.ZoneModeRequest? && r.setpoint == Some(25.0)
  {
    match h
    case Auto => ZoneModeReset
    case Heat => ZoneModeRequest(ModeOf(Modes.PermanentOverride), Some(25.0), None)
    case Off => ZoneModeRequest(FrostModeMethod, None, None)
  }

  /** As written, turning a zone off asks for a mode that is no zone mode. */
  lemma ZoneOffSendsMethod()
    ensures ZoneHvacRequestAsWritten(Off).ZoneModeRequest? && !ZoneHvacRequestAsWritten(Off).mode.ModeOf?
    ensures ZoneHvacRequestAsWritten(Off).mode != NoMode
  {
  }

  /** `set_hvac_mode` as intended: off puts the zone in frost mode. */
  function ZoneHvacRequest(h: HvacMode): (r: ZoneRequest)
    ensures r.ZoneModeRequest? ==> r.mode.ModeOf? && r.setpoint.Some? && r.until.None?
    ensures h == Off <==> r == FrostModeRequest
    ensures h == Auto <==> r == ZoneModeReset
    ensures h == Heat ==> r.ZoneModeRequest? && r.mode.mode in ModeZoneToHa && ModeZoneToHa[r.mode.mode] == Heat
  {
    match h
    case Auto => ZoneModeReset
    case Heat => ZoneModeRequest(ModeOf(ModeHaToZone[Heat]), Some(25.0), None)
    case Off => FrostModeRequest
  }

  /** Every request the corrected `set_hvac_mode` sends names a real zone
    * mode or a dedicated action, unlike the one as written. */
  lemma ZoneHvacRequestFixed(h: HvacMode)
    ensures ZoneHvacRequest(h) == ZoneHvacRequestAsWritten(h) <==> h != Off
    ensures ZoneHvacRequest(h).ZoneModeRequest? ==> !ZoneHvacRequest(h).mode.FrostModeMethod?
  {
  }

  class Zone {
    /** What the device reports: the system's mode, the zone's mode status,
      * its config and its setpoint. */
    var systemMode: Option<Modes.SystemMode>
    var status: Option<ZoneStatus>
    var config: Option<ZoneConfig>
    var setpoint: Option<real>
    /** The requests passed to the device, oldest first. */
    var sent: seq<ZoneRequest>

    constructor (systemMode: Option<Modes.SystemMode>, status: Option<ZoneStatus>, config: Option<ZoneConfig>, setpoint: Option<real>)
      ensures this.systemMode == systemMode && this.status == status && this.config == config
      ensures this.setpoint == setpoint && sent == []
    {
      this.systemMode := systemMode;
      this.status := status;
      this.config := config;
      this.setpoint := setpoint;
      sent := [];
    }

    /** `async_set_zone_mode` */
    method SetZoneMode(mode: ModeArg, setpoint: Option<real>, duration: Option<int>, until: Option<int>, now: int)
      modifies this
      ensures sent == old(sent) + [ZoneModeRequest(mode, setpoint, OverrideUntil(now, duration, until))]
      ensures unchanged(this`systemMode, this`status, this`config, this`setpoint)
    {
      sent := sent + [ZoneModeRequest(mode, setpoint, OverrideUntil(now, duration, until))];
    }

    /** `set_hvac_mode` */
    method SetHvacMode(h: HvacMode)
      modifies this
      ensures sent == old(sent) + [ZoneHvacRequest(h)]
      ensures unchanged(this`systemMode, this`status, this`config, this`setpoint)
    {
      sent := sent + [ZoneHvacRequest(h)];
    }

    /** `set_preset_mode`: the zone mode for the preset, with the current
      * target temperature for a permanent override; an unknown preset
      * raises KeyError. */
    method SetPresetMode(p: Preset, now: int) returns (r: Result<()>)
      modifies this
      ensures p !in PresetHaToZone ==> r == Err(KeyError) && sent == old(sent)
      ensures p in PresetHaToZone ==> (r.Ok? &&
        sent == old(sent) + [ZoneModeRequest(ModeOf(PresetHaToZone[p]), if p == PermanentPreset then setpoint else None, None)])
      ensures unchanged(this`systemMode, this`status, this`config, this`setpoint)
    {
      if p !in PresetHaToZone {
        return Err(KeyError);
      }
      SetZoneMode(ModeOf(PresetHaToZone[p]), if p == PermanentPreset then setpoint else None, None, None, now);
      return Ok(());
    }

    /** `set_temperature`: a new setpoint, in whatever mode the device picks. */
    method SetTemperature(temperature: Option<real>, now: int)
      modifies this
      ensures sent == old(sent) + [ZoneModeRequest(NoMode, temperature, None)]
      ensures unchanged(this`systemMode, this`status, this`config, this`setpoint)
    {
      SetZoneMode(NoMode, temperature, None, None, now);
    }

    /** `async_reset_zone_mode` */
    method ResetZoneMode()
      modifies this
      ensures sent == old(sent) + [ZoneModeReset]
      ensures unchanged(this`systemMode, this`status, this`config, this`setpoint)
    {
      sent := sent + [ZoneModeReset];
    }
  }
}
