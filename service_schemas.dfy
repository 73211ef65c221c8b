// The parameter schemas of the integration's services
// (custom_components/ramses_cc/schemas.py).  A schema either refuses a
// call (voluptuous.Invalid) or returns the call's parameters with the
// defaults filled in; a default is validated like a given value.
//
// `bind_device` and `send_packet` are checked on the raw call data (a dict),
// including the refusal of unknown keys.  The other services are modelled
// on already-typed parameters: an absent parameter is `None`.

module ServiceSchemas {
  import opened Outcomes
  import opened PyValues
  import opened Ids
  import opened Modes

  // ---------------------------------------------------------------------
  // Shared checks

  /** `vol.Range(min=lo, max=hi)` */
  function InRange(x: real, lo: real, hi: real): (r: Result<real>)
    ensures r.Ok? <==> lo <= x <= hi
    ensures r.Ok? ==> r.value == x
  {
    if lo <= x <= hi then Ok(x) else Err(Invalid)
  }

  function IntInRange(x: int, lo: int, hi: int): (r: Result<int>)
    ensures r.Ok? <==> lo <= x <= hi
    ensures r.Ok? ==> r.value == x
  {
    if lo <= x <= hi then Ok(x) else Err(Invalid)
  }

  /** `vol.Optional(key, default=d): vol.Range(lo, hi)`: the default is
    * checked like a given value. */
  function Defaulted(x: Option<real>, d: real, lo: real, hi: real): (r: Result<real>)
    ensures r.Ok? <==> lo <= x.GetOr(d) <= hi
    ensures r.Ok? ==> r.value == x.GetOr(d)
  {
    InRange(x.GetOr(d), lo, hi)
  }

  function IntDefaulted(x: Option<int>, d: int, lo: int, hi: int): (r: Result<int>)
    ensures r.Ok? <==> lo <= x.GetOr(d) <= hi
    ensures r.Ok? ==> r.value == x.GetOr(d)
  {
    IntInRange(x.GetOr(d), lo, hi)
  }

  /** `vol.Optional(key): vol.Range(lo, hi)` without a default. */
  function OptionalInRange(x: Option<real>, lo: real, hi: real): (r: Result<Option<real>>)
    ensures r.Ok? <==> x.None? || lo <= x.value <= hi
    ensures r.Ok? ==> r.value == x
  {
    if x.None? then Ok(None)
    else if lo <= x.value <= hi then Ok(x) else Err(Invalid)
  }

  function OptionalIntInRange(x: Option<int>, lo: int, hi: int): (r: Result<Option<int>>)
    ensures r.Ok? <==> x.None? || lo <= x.value <= hi
    ensures r.Ok? ==> r.value == x
  {
    if x.None? then Ok(None)
    else if lo <= x.value <= hi then Ok(x) else Err(Invalid)
  }

  /** `vol.Required(key)`: an absent value is refused. */
  function Required<T>(x: Option<T>): (r: Result<T>)
    ensures r.Ok? <==> x.Some?
    ensures r.Ok? ==> r.value == x.value
  {
    if x.Some? then Ok(x.value) else Err(Invalid)
  }

  // Durations are whole seconds.
  const Minute: int := 60
  const Hour: int := 3600
  const Day: int := 86400

  // ---------------------------------------------------------------------
  // Sensor services

  /** `put_co2_level`: a required level of 300 to 9999 ppm. */
  function ValidateCo2Level(level: Option<int>): (r: Result<int>)
    ensures r.Ok? <==> level.Some? && 300 <= level.value <= 9999
    ensures r.Ok? ==> r.value == level.value
  {
    var x := Required(level);
    if x.Err? then Err(x.error) else IntInRange(x.value, 300, 9999)
  }

  /** `put_dhw_temp`: a required temperature of 0 to 99 degrees. */
  function ValidateDhwTemp(temperature: Option<real>): (r: Result<real>)
    ensures r.Ok? <==> temperature.Some? && 0.0 <= temperature.value <= 99.0
    ensures r.Ok? ==> r.value == temperature.value
  {
    var x := Required(temperature);
    if x.Err? then Err(x.error) else InRange(x.value, 0.0, 99.0)
  }

  /** `put_indoor_humidity`: a required percentage, 0 to 100. */
  function ValidateIndoorHumidity(humidity: Option<real>): (r: Result<real>)
    ensures r.Ok? <==> humidity.Some? && 0.0 <= humidity.value <= 100.0
    ensures r.Ok? ==> r.value == humidity.value
  {
    var x := Required(humidity);
    if x.Err? then Err(x.error) else InRange(x.value, 0.0, 100.0)
  }

  /** `put_room_temp` (and `fake_zone_temp`): -20 to 60 degrees. */
  function ValidateRoomTemp(temperature: Option<real>): (r: Result<real>)
    ensures r.Ok? <==> temperature.Some? && -20.0 <= temperature.value <= 60.0
    ensures r.Ok? ==> r.value == temperature.value
  {
    var x := Required(temperature);
    if x.Err? then Err(x.error) else InRange(x.value, -20.0, 60.0)
  }

  // ---------------------------------------------------------------------
  // Climate services

  datatype SystemModeCall = SystemModeCall(mode: SystemMode, duration: Option<int>, period: Option<int>)

  /** `set_system_mode`: any of the eight system modes; an optional duration
    * of one to 24 hours and an optional period of 0 to 99 days (`None`
    * stands for an absent or null value). */
  function ValidateSetSystemMode(mode: Option<string>, duration: Option<int>, period: Option<int>):
    (r: Result<SystemModeCall>)
    ensures r.Ok? <==>
      mode.Some? && ParseSystemMode(mode.value).Some? &&
      (duration.None? || Hour <= duration.value <= 24 * Hour) &&
      (period.None? || 0 <= period.value <= 99 * Day)
    ensures r.Ok? ==>
      SystemModeName(r.value.mode) == mode.value && r.value.duration == duration && r.value.period == period
  {
    var m := Required(mode);
    if m.Err? then Err(m.error)
    else
      var parsed := ParseSystemMode(m.value);
      if parsed.None? then Err(Invalid)
      else
        var d := OptionalIntInRange(duration, Hour, 24 * Hour);
        if d.Err? then Err(d.error)
        else
          var p := OptionalIntInRange(period, 0, 99 * Day);
          if p.Err? then Err(p.error)
          else Ok(SystemModeCall(parsed.value, d.value, p.value))
  }

  datatype ZoneConfig = ZoneConfig(maxTemp: real, minTemp: real, localOverride: bool, openWindow: bool, multiroom: bool)

  /** `set_zone_config`: max_temp 21..35 (default 35), min_temp 5..21
    * (default 5), three flags that default to true. */
  function ValidateSetZoneConfig(maxTemp: Option<real>, minTemp: Option<real>,
                                 localOverride: Option<bool>, openWindow: Option<bool>, multiroom: Option<bool>):
    (r: Result<ZoneConfig>)
    ensures r.Ok? <==> 21.0 <= maxTemp.GetOr(35.0) <= 35.0 && 5.0 <= minTemp.GetOr(5.0) <= 21.0
    ensures r.Ok? ==> r.value == ZoneConfig(maxTemp.GetOr(35.0), minTemp.GetOr(5.0),
      localOverride.GetOr(true), openWindow.GetOr(true), multiroom.GetOr(true))
  {
    var hi := Defaulted(maxTemp, 35.0, 21.0, 35.0);
    if hi.Err? then Err(hi.error)
    else
      var lo := Defaulted(minTemp, 5.0, 5.0, 21.0);
      if lo.Err? then Err(lo.error)
      else Ok(ZoneConfig(hi.value, lo.value, localOverride.GetOr(true), openWindow.GetOr(true), multiroom.GetOr(true)))
  }

  /** The zone modes a service may set: not the countdown override. */
  predicate IsSettableZoneMode(m: ZoneMode)
  {
    m == FollowSchedule || m == PermanentOverride || m == AdvancedOverride || m == TemporaryOverride
  }

  datatype ZoneModeCall = ZoneModeCall(mode: ZoneMode, setpoint: Option<real>, duration: int, until: Option<int>)

  /** `set_zone_mode`: one of four zone modes; an optional setpoint of 5 to
    * 35 degrees; a duration of five minutes to a day, one hour by default;
    * an optional until. */
  function ValidateSetZoneMode(mode: Option<string>, setpoint: Option<real>, duration: Option<int>, until: Option<int>):
    (r: Result<ZoneModeCall>)
    ensures r.Ok? <==>
      mode.Some? && ParseZoneMode(mode.value).Some? && IsSettableZoneMode(ParseZoneMode(mode.value).value) &&
      (setpoint.None? || 5.0 <= setpoint.value <= 35.0) &&
      5 * Minute <= duration.GetOr(Hour) <= Day
    ensures r.Ok? ==>
      ZoneModeName(r.value.mode) == mode.value && r.value.setpoint == setpoint &&
      r.value.duration == duration.GetOr(Hour) && r.value.until == until
  {
    var m := Required(mode);
    if m.Err? then Err(m.error)
    else
      var parsed := ParseZoneMode(m.value);
      if parsed.None? || !IsSettableZoneMode(parsed.value) then Err(Invalid)
      else
        var sp := OptionalInRange(setpoint, 5.0, 35.0);
        if sp.Err? then Err(sp.error)
        else
          var d := IntDefaulted(duration, Hour, 5 * Minute, Day);
          if d.Err? then Err(d.error)
          else Ok(ZoneModeCall(parsed.value, sp.value, d.value, until))
  }

  /** `get_system_faults`: 1 to 64 entries, 8 by default. */
  function ValidateGetSystemFaults(numEntries: Option<int>): (r: Result<int>)
    ensures r.Ok? <==> 1 <= numEntries.GetOr(8) <= 64
    ensures r.Ok? ==> r.value == numEntries.GetOr(8)
  {
    IntDefaulted(numEntries, 8, 1, 64)
  }

  // ---------------------------------------------------------------------
  // Water heater services

  datatype DhwModeCall = DhwModeCall(mode: ZoneMode, active: Option<bool>, duration: int, until: int)

  /** `set_dhw_mode` as its schema takes effect.  The schema's dict literal
    * repeats `active` and `duration` under Optional and Required markers,
    * which compare equal by name: Python keeps the first marker with the
    * last validator.  So `active` is an optional boolean, `duration` is
    * five minutes to a day with a default of one hour, and `until` (whose
    * only marker is Required) must be given. */
  function ValidateSetDhwMode(mode: Option<string>, active: Option<bool>, duration: Option<int>, until: Option<int>):
    (r: Result<DhwModeCall>)
    ensures r.Ok? <==>
      mode.Some? && ParseZoneMode(mode.value).Some? && IsSettableZoneMode(ParseZoneMode(mode.value).value) &&
      5 * Minute <= duration.GetOr(Hour) <= Day && until.Some?
    ensures r.Ok? ==>
      ZoneModeName(r.value.mode) == mode.value && r.value.active == active &&
      r.value.duration == duration.GetOr(Hour) && r.value.until == until.value
  {
    var m := Required(mode);
    if m.Err? then Err(m.error)
    else
      var parsed := ParseZoneMode(m.value);
      if parsed.None? || !IsSettableZoneMode(parsed.value) then Err(Invalid)
      else
        var d := IntDefaulted(duration, Hour, 5 * Minute, Day);
        if d.Err? then Err(d.error)
        else
          var u := Required(until);
          if u.Err? then Err(u.error)
          else Ok(DhwModeCall(parsed.value, active, d.value, u.value))
  }

  datatype DhwParams = DhwParams(setpoint: real, overrun: int, differential: real)

  /** `set_dhw_params`: setpoint 30..85 (default 50), overrun 0..10 minutes
    * (default 5), differential 1..10 (default 10). */
  function ValidateSetDhwParams(setpoint: Option<real>, overrun: Option<int>, differential: Option<real>):
    (r: Result<DhwParams>)
    ensures r.Ok? <==>
      30.0 <= setpoint.GetOr(50.0) <= 85.0 && 0 <= overrun.GetOr(5) <= 10 && 1.0 <= differential.GetOr(10.0) <= 10.0
    ensures r.Ok? ==> r.value == DhwParams(setpoint.GetOr(50.0), overrun.GetOr(5), differential.GetOr(10.0))
  {
    var sp := Defaulted(setpoint, 50.0, 30.0, 85.0);
    if sp.Err? then Err(sp.error)
    else
      var ov := IntDefaulted(overrun, 5, 0, 10);
      if ov.Err? then Err(ov.error)
      else
        var df := Defaulted(differential, 10.0, 1.0, 10.0);
        if df.Err? then Err(df.error) else Ok(DhwParams(sp.value, ov.value, df.value))
  }

  // ---------------------------------------------------------------------
  // Remote services

  datatype SendCommandCall = SendCommandCall(command: string, numRepeats: int, delaySecs: real)

  /** `send_command`: 1 to 5 repeats (default 3), 0.02 to 1.0 seconds
    * between them (default 0.05). */
  function ValidateSendCommand(command: Option<string>, numRepeats: Option<int>, delaySecs: Option<real>):
    (r: Result<SendCommandCall>)
    ensures r.Ok? <==>
      command.Some? && 1 <= numRepeats.GetOr(3) <= 5 && 0.02 <= delaySecs.GetOr(0.05) <= 1.0
    ensures r.Ok? ==> r.value == SendCommandCall(command.value, numRepeats.GetOr(3), delaySecs.GetOr(0.05))
  {
    var c := Required(command);
    if c.Err? then Err(c.error)
    else
      var n := IntDefaulted(numRepeats, 3, 1, 5);
      if n.Err? then Err(n.error)
      else
        var d := Defaulted(delaySecs, 0.05, 0.02, 1.0);
        if d.Err? then Err(d.error) else Ok(SendCommandCall(c.value, n.value, d.value))
  }

  datatype LearnCommandCall = LearnCommandCall(command: string, timeout: int)

  /** `learn_command`: a timeout of 30 to 300 seconds, 60 by default. */
  function ValidateLearnCommand(command: Option<string>, timeout: Option<int>): (r: Result<LearnCommandCall>)
    ensures r.Ok? <==> command.Some? && 30 <= timeout.GetOr(60) <= 300
    ensures r.Ok? ==> r.value == LearnCommandCall(command.value, timeout.GetOr(60))
  {
    var c := Required(command);
    if c.Err? then Err(c.error)
    else
      var t := IntDefaulted(timeout, 60, 30, 300);
      if t.Err? then Err(t.error) else Ok(LearnCommandCall(c.value, t.value))
  }

  // ---------------------------------------------------------------------
  // Validation is a projection: what a schema returns, it accepts again
  // unchanged.  In particular every default lies within its range.

  lemma DefaultsAccepted()
    ensures ValidateSetZoneConfig(None, None, None, None, None) == Ok(ZoneConfig(35.0, 5.0, true, true, true))
    ensures ValidateSetDhwParams(None, None, None) == Ok(DhwParams(50.0, 5, 10.0))
    ensures ValidateSendCommand(Some("x"), None, None) == Ok(SendCommandCall("x", 3, 0.05))
    ensures ValidateLearnCommand(Some("x"), None) == Ok(LearnCommandCall("x", 60))
    ensures ValidateGetSystemFaults(None) == Ok(8)
  {
  }

  lemma ZoneModeRevalidates(mode: Option<string>, setpoint: Option<real>, duration: Option<int>, until: Option<int>)
    requires ValidateSetZoneMode(mode, setpoint, duration, until).Ok?
    ensures var c := ValidateSetZoneMode(mode, setpoint, duration, until).value;
      ValidateSetZoneMode(Some(ZoneModeName(c.mode)), c.setpoint, Some(c.duration), c.until) == Ok(c)
  {
    var c := ValidateSetZoneMode(mode, setpoint, duration, until).value;
    ZoneModeNamesRoundTrip(c.mode);
  }

  lemma DhwModeRevalidates(mode: Option<string>, active: Option<bool>, duration: Option<int>, until: Option<int>)
    requires ValidateSetDhwMode(mode, active, duration, until).Ok?
    ensures var c := ValidateSetDhwMode(mode, active, duration, until).value;
      ValidateSetDhwMode(Some(ZoneModeName(c.mode)), c.active, Some(c.duration), Some(c.until)) == Ok(c)
  {
    var c := ValidateSetDhwMode(mode, active, duration, until).value;
    ZoneModeNamesRoundTrip(c.mode);
  }

  lemma DhwParamsRevalidate(setpoint: Option<real>, overrun: Option<int>, differential: Option<real>)
    requires ValidateSetDhwParams(setpoint, overrun, differential).Ok?
    ensures var p := ValidateSetDhwParams(setpoint, overrun, differential).value;
      ValidateSetDhwParams(Some(p.setpoint), Some(p.overrun), Some(p.differential)) == Ok(p)
  {
  }

  /** An `until` is what the DHW mode schema cannot do without. */
  lemma DhwModeNeedsUntil(mode: Option<string>, active: Option<bool>, duration: Option<int>)
    ensures ValidateSetDhwMode(mode, active, duration, None) == Err(Invalid)
  {
  }

  // ---------------------------------------------------------------------
  // bind_device and send_packet, on the raw call data

  /** Every key of the call is one the schema knows. */
  predicate OnlyKeys(es: seq<Entry>, allowed: set<string>)
  {
    forall i :: 0 <= i < |es| ==> es[i].key in allowed
  }

  /** `_SCH_DEVICE_ID`, `_SCH_CMD_CODE` and the payload pattern: a string
    * that matches. */
  function MatchDeviceId(v: Value): (r: Result<string>)
    ensures r.Ok? <==> v.Str? && IsDeviceId(v.s)
    ensures r.Ok? ==> r.value == v.s
  {
    if v.Str? && IsDeviceId(v.s) then Ok(v.s) else Err(Invalid)
  }

  function MatchCmdCode(v: Value): (r: Result<string>)
    ensures r.Ok? <==> v.Str? && IsCmdCode(v.s)
    ensures r.Ok? ==> r.value == v.s
  {
    if v.Str? && IsCmdCode(v.s) then Ok(v.s) else Err(Invalid)
  }

  function MatchPayload(v: Value): (r: Result<string>)
    ensures r.Ok? <==> v.Str? && IsPayload(v.s)
    ensures r.Ok? ==> r.value == v.s
  {
    if v.Str? && IsPayload(v.s) then Ok(v.s) else Err(Invalid)
  }

  /** A command code offered or confirmed, with its domain index if any. */
  datatype Binding = Binding(code: string, domIdx: Option<string>)

  predicate IsBinding(b: Binding)
  {
    IsCmdCode(b.code) && (b.domIdx.Some? ==> IsDomIdx(b.domIdx.value))
  }

  function BindingsFrom(es: seq<Entry>): (r: Result<seq<Binding>>)
    ensures r.Ok? <==> forall i :: 0 <= i < |es| ==>
      IsCmdCode(es[i].key) && (es[i].val.Nil? || (es[i].val.Str? && IsDomIdx(es[i].val.s)))
    ensures r.Ok? ==> |r.value| == |es| && forall i :: 0 <= i < |es| ==>
      r.value[i].code == es[i].key && IsBinding(r.value[i]) &&
      (r.value[i].domIdx.None? <==> es[i].val.Nil?) &&
      (r.value[i].domIdx.Some? ==> es[i].val == Str(r.value[i].domIdx.value))
  {
    if es == [] then Ok([])
    else
      var e := es[0];
      var idx: Result<Option<string>> :=
        if e.val.Nil? then Ok(None)
        else if e.val.Str? && IsDomIdx(e.val.s) then Ok(Some(e.val.s))
        else Err(Invalid);
      if !IsCmdCode(e.key) || idx.Err? then Err(Invalid)
      else
        var rest := BindingsFrom(es[1..]);
        if rest.Err? then Err(rest.error) else Ok([Binding(e.key, idx.value)] + rest.value)
  }

  /** `_SCH_BINDING` with at least one entry: a dict from command codes to
    * `None` or a domain index. */
  function ValidateBindings(v: Value): (r: Result<seq<Binding>>)
    ensures r.Ok? ==> v.Dict? && |r.value| == |v.entries| >= 1 && forall i :: 0 <= i < |r.value| ==> IsBinding(r.value[i])
    ensures v.Dict? && v.entries != [] ==> r == BindingsFrom(v.entries)
    ensures v == EmptyDict || !v.Dict? ==> r == Err(Invalid)
  {
    if !v.Dict? || v.entries == [] then Err(Invalid) else BindingsFrom(v.entries)
  }

  datatype BindDevice = BindDevice(deviceId: string, offer: seq<Binding>, confirm: seq<Binding>, deviceInfo: Option<string>)

  /** What an accepted `bind_device` call holds. */
  predicate IsBindDevice(b: BindDevice, isCommand: string -> bool)
  {
    IsDeviceId(b.deviceId) && |b.offer| >= 1 &&
    (forall i :: 0 <= i < |b.offer| ==> IsBinding(b.offer[i])) &&
    (forall i :: 0 <= i < |b.confirm| ==> IsBinding(b.confirm[i])) &&
    (b.deviceInfo.Some? ==> isCommand(b.deviceInfo.value))
  }

  const BindDeviceKeys: set<string> := {"device_id", "offer", "confirm", "device_info"}
  /** `confirm`: `{}` (also the default) or a non-empty binding dict. */
  function ValidateConfirm(v: Option<Value>): (r: Result<seq<Binding>>)
    ensures r.Ok? ==> forall i :: 0 <= i < |r.value| ==> IsBinding(r.value[i])
    ensures r.Ok? ==> (r.value == [] <==> v in {None, Some(EmptyDict)})
    ensures v == None || v == Some(EmptyDict) ==> r == Ok([])
    ensures v.Some? && v.value.Dict? && v.value.entries != [] ==> r == BindingsFrom(v.value.entries)
  {
    var confirm := v.GetOr(EmptyDict);
    if confirm == EmptyDict then Ok([]) else ValidateBindings(confirm)
  }

  /** `device_info`: `None` (also the default) or a command string. */
  function ValidateDeviceInfo(v: Option<Value>, isCommand: string -> bool): (r: Result<Option<string>>)
    ensures r.Ok? ==> (r.value.None? <==> v in {None, Some(Nil)})
    ensures r.Ok? && r.value.Some? ==> v == Some(Str(r.value.value)) && isCommand(r.value.value)
    ensures v == None || v == Some(Nil) ==> r == Ok(None)
    ensures v.Some? && v.value.Str? && isCommand(v.value.s) ==> r == Ok(Some(v.value.s))
  {
    var info := v.GetOr(Nil);
    if info.Nil? then Ok(None)
    else if info.Str? && isCommand(info.s) then Ok(Some(info.s))
    else Err(Invalid)
  }

  /** The fields of a binding request, each checked on its own. */
  function BindDeviceFrom(id: Value, offer: Value, confirm: Option<Value>, info: Option<Value>, isCommand: string -> bool):
    (r: Result<BindDevice>)
    ensures r.Ok? ==> IsBindDevice(r.value, isCommand)
    ensures r.Ok? ==>
      id == Str(r.value.deviceId) && ValidateBindings(offer) == Ok(r.value.offer) &&
      ValidateConfirm(confirm) == Ok(r.value.confirm) && ValidateDeviceInfo(info, isCommand) == Ok(r.value.deviceInfo)
  {
    var id := MatchDeviceId(id);
    var offer := ValidateBindings(offer);
    var confirm := ValidateConfirm(confirm);
    var info := ValidateDeviceInfo(info, isCommand);
    if id.Err? || offer.Err? || confirm.Err? || info.Err? then Err(Invalid)
    else Ok(BindDevice(id.value, offer.value, confirm.value, info.value))
  }

  /** `SCH_BIND_DEVICE`: a device id; a non-empty offer; a confirm that is
    * `{}` (the default) or a non-empty binding dict; a device_info that is
    * `None` (the default) or a command string; nothing else.  The command
    * pattern belongs to the RF library and is a parameter. */
  function ValidateBindDevice(call: seq<Entry>, isCommand: string -> bool): (r: Result<BindDevice>)
    ensures r.Ok? ==> IsBindDevice(r.value, isCommand) && OnlyKeys(call, BindDeviceKeys)
    ensures r.Ok? ==> Lookup(call, "device_id").GetOr(Nil) == Str(r.value.deviceId)
    ensures r.Ok? ==> ValidateBindings(Lookup(call, "offer").GetOr(Nil)) == Ok(r.value.offer)
    ensures r.Ok? ==> ValidateConfirm(Lookup(call, "confirm")) == Ok(r.value.confirm)
    ensures r.Ok? ==> ValidateDeviceInfo(Lookup(call, "device_info"), isCommand) == Ok(r.value.deviceInfo)
    ensures !HasKey(call, "device_id") || !HasKey(call, "offer") ==> r == Err(Invalid)
  {
    if !OnlyKeys(call, BindDeviceKeys) then Err(Invalid)
    else
      BindDeviceFrom(Lookup(call, "device_id").GetOr(Nil), Lookup(call, "offer").GetOr(Nil),
        Lookup(call, "confirm"), Lookup(call, "device_info"), isCommand)
  }

  /** A binding list as the dict a caller writes. */
  function BindingEntries(bs: seq<Binding>): (es: seq<Entry>)
    ensures |es| == |bs|
    ensures forall i :: 0 <= i < |bs| ==> es[i].key == bs[i].code
  {
    if bs == [] then [] else [BindingEntry(bs[0])] + BindingEntries(bs[1..])
  }

  function BindingEntry(b: Binding): Entry
  {
    Entry(b.code, if b.domIdx.Some? then Str(b.domIdx.value) else Nil)
  }

  lemma {:induction false} BindingsRoundTrip(bs: seq<Binding>)
    requires forall i :: 0 <= i < |bs| ==> IsBinding(bs[i])
    ensures BindingsFrom(BindingEntries(bs)) == Ok(bs)
  {
    if bs != [] {
      var es := BindingEntries(bs);
      assert es[0] == BindingEntry(bs[0]) && es[1..] == BindingEntries(bs[1..]);
      BindingsRoundTrip(bs[1..]);
      assert bs == [bs[0]] + bs[1..];
    }
  }

  /** A `bind_device` request as the call data a caller writes. */
  function BindDeviceCall(b: BindDevice): seq<Entry>
  {
    [Entry("device_id", Str(b.deviceId))] + ([Entry("offer", Dict(BindingEntries(b.offer)))] +
      ([Entry("confirm", Dict(BindingEntries(b.confirm)))] +
       [Entry("device_info", if b.deviceInfo.Some? then Str(b.deviceInfo.value) else Nil)]))
  }

  lemma BindDeviceCallFields(b: BindDevice)
    ensures var call := BindDeviceCall(b);
      OnlyKeys(call, BindDeviceKeys) &&
      Lookup(call, "device_id") == Some(Str(b.deviceId)) &&
      Lookup(call, "offer") == Some(Dict(BindingEntries(b.offer))) &&
      Lookup(call, "confirm") == Some(Dict(BindingEntries(b.confirm))) &&
      Lookup(call, "device_info") == Some(if b.deviceInfo.Some? then Str(b.deviceInfo.value) else Nil)
  {
    var e3 := [Entry("device_info", if b.deviceInfo.Some? then Str(b.deviceInfo.value) else Nil)];
    var e2 := [Entry("confirm", Dict(BindingEntries(b.confirm)))] + e3;
    var e1 := [Entry("offer", Dict(BindingEntries(b.offer)))] + e2;
    var call := [Entry("device_id", Str(b.deviceId))] + e1;
    assert call == BindDeviceCall(b);
    ConsEntry(e3[0], []);
    assert e3 == [e3[0]] + [];
    ConsEntry(Entry("confirm", Dict(BindingEntries(b.confirm))), e3);
    ConsEntry(Entry("offer", Dict(BindingEntries(b.offer))), e2);
    ConsEntry(Entry("device_id", Str(b.deviceId)), e1);
  }

  /** Writing an accepted request back as call data and validating it again
    * gives the same request. */
  lemma BindDeviceRoundTrip(b: BindDevice, isCommand: string -> bool)
    requires IsBindDevice(b, isCommand)
    ensures ValidateBindDevice(BindDeviceCall(b), isCommand) == Ok(b)
  {
    BindDeviceCallFields(b);
    BindingsRoundTrip(b.offer);
    assert ValidateBindings(Dict(BindingEntries(b.offer))) == Ok(b.offer);
    if b.confirm != [] {
      BindingsRoundTrip(b.confirm);
    }
    assert ValidateConfirm(Some(Dict(BindingEntries(b.confirm)))) == Ok(b.confirm);
    var info := if b.deviceInfo.Some? then Str(b.deviceInfo.value) else Nil;
    assert ValidateDeviceInfo(Some(info), isCommand) == Ok(b.deviceInfo);
    assert MatchDeviceId(Str(b.deviceId)) == Ok(b.deviceId);
  }

  /** An offer of nothing is refused. */
  lemma EmptyOfferRefused(call: seq<Entry>, isCommand: string -> bool)
    requires Lookup(call, "offer") == Some(EmptyDict)
    ensures ValidateBindDevice(call, isCommand) == Err(Invalid)
  {
  }

  const SendPacketVerbs: seq<string> := [" I", "I", "RQ", "RP", " W", "W"]

  datatype SendPacket = SendPacket(deviceId: string, fromId: Option<string>, verb: string, code: string, payload: string)

  predicate IsSendPacket(p: SendPacket)
  {
    IsDeviceId(p.deviceId) && (p.fromId.Some? ==> IsDeviceId(p.fromId.value)) &&
    p.verb in SendPacketVerbs && IsCmdCode(p.code) && IsPayload(p.payload)
  }

  const SendPacketKeys: set<string> := {"device_id", "from_id", "verb", "code", "payload"}

  /** `from_id`: absent, or a device id. */
  function ValidateFromId(v: Option<Value>): (r: Result<Option<string>>)
    ensures r.Ok? ==> (r.value.None? <==> v.None?)
    ensures r.Ok? && r.value.Some? ==> v == Some(Str(r.value.value)) && IsDeviceId(r.value.value)
    ensures v.Some? && v.value.Str? && IsDeviceId(v.value.s) ==> r == Ok(Some(v.value.s))
  {
    if v.None? then Ok(None)
    else
      var f := MatchDeviceId(v.value);
      if f.Err? then Err(f.error) else Ok(Some(f.value))
  }

  /** `verb`: one of six verbs, with or without the leading space. */
  function ValidateVerb(v: Value): (r: Result<string>)
    ensures r.Ok? <==> v.Str? && v.s in SendPacketVerbs
    ensures r.Ok? ==> r.value == v.s
  {
    if v.Str? && v.s in SendPacketVerbs then Ok(v.s) else Err(Invalid)
  }

  /** The fields of a packet request, each checked on its own. */
  function SendPacketFrom(id: Value, from: Option<Value>, verb: Value, code: Value, payload: Value):
    (r: Result<SendPacket>)
    ensures r.Ok? ==> IsSendPacket(r.value)
    ensures r.Ok? ==>
      id == Str(r.value.deviceId) && verb == Str(r.value.verb) && code == Str(r.value.code) &&
      payload == Str(r.value.payload) && ValidateFromId(from) == Ok(r.value.fromId)
    ensures forall p ::
              (IsSendPacket(p) && id == Str(p.deviceId) && verb == Str(p.verb) && code == Str(p.code) &&
               payload == Str(p.payload) && from == (if p.fromId.Some? then Some(Str(p.fromId.value)) else None))
              ==> r == Ok(p)
  {
    var id := MatchDeviceId(id);
    var from := ValidateFromId(from);
    var verb := ValidateVerb(verb);
    var code := MatchCmdCode(code);
    var payload := MatchPayload(payload);
    if id.Err? || from.Err? || verb.Err? || code.Err? || payload.Err? then Err(Invalid)
    else Ok(SendPacket(id.value, from.value, verb.value, code.value, payload.value))
  }

  /** `SCH_SEND_PACKET`: a device id, an optional from_id, one of six verbs,
    * a command code and a payload of whole hex bytes; nothing else. */
  function ValidateSendPacket(call: seq<Entry>): (r: Result<SendPacket>)
    ensures r.Ok? ==> IsSendPacket(r.value) && OnlyKeys(call, SendPacketKeys)
    ensures r.Ok? ==>
      Lookup(call, "device_id").GetOr(Nil) == Str(r.value.deviceId) &&
      Lookup(call, "verb").GetOr(Nil) == Str(r.value.verb) &&
      Lookup(call, "code").GetOr(Nil) == Str(r.value.code) &&
      Lookup(call, "payload").GetOr(Nil) == Str(r.value.payload) &&
      ValidateFromId(Lookup(call, "from_id")) == Ok(r.value.fromId)
  {
    if !OnlyKeys(call, SendPacketKeys) then Err(Invalid)
    else
      SendPacketFrom(Lookup(call, "device_id").GetOr(Nil), Lookup(call, "from_id"), Lookup(call, "verb").GetOr(Nil),
        Lookup(call, "code").GetOr(Nil), Lookup(call, "payload").GetOr(Nil))
  }

  /** A packet request as the call data a caller writes (from_id only when
    * there is one). */
  function SendPacketCall(p: SendPacket): seq<Entry>
  {
    [Entry("device_id", Str(p.deviceId))] +
      ((if p.fromId.Some? then [Entry("from_id", Str(p.fromId.value))] else []) +
       ([Entry("verb", Str(p.verb))] + ([Entry("code", Str(p.code))] + [Entry("payload", Str(p.payload))])))
  }

  lemma SendPacketCallFields(p: SendPacket)
    ensures var call := SendPacketCall(p);
      OnlyKeys(call, SendPacketKeys) &&
      Lookup(call, "device_id") == Some(Str(p.deviceId)) &&
      Lookup(call, "from_id") == (if p.fromId.Some? then Some(Str(p.fromId.value)) else None) &&
      Lookup(call, "verb") == Some(Str(p.verb)) &&
      Lookup(call, "code") == Some(Str(p.code)) &&
      Lookup(call, "payload") == Some(Str(p.payload))
  {
    var e4 := [Entry("payload", Str(p.payload))];
    var e3 := [Entry("code", Str(p.code))] + e4;
    var e2 := [Entry("verb", Str(p.verb))] + e3;
    var from := if p.fromId.Some? then [Entry("from_id", Str(p.fromId.value))] else [];
    var e1 := from + e2;
    var call := [Entry("device_id", Str(p.deviceId))] + e1;
    assert call == SendPacketCall(p);
    ConsEntry(e4[0], []);
    assert e4 == [e4[0]] + [];
    ConsEntry(Entry("code", Str(p.code)), e4);
    ConsEntry(Entry("verb", Str(p.verb)), e3);
    if p.fromId.Some? {
      ConsEntry(from[0], e2);
      assert e1 == [from[0]] + e2;
    } else {
      assert e1 == e2;
    }
    ConsEntry(Entry("device_id", Str(p.deviceId)), e1);
  }

  /** Writing an accepted request back as call data and validating it again
    * gives the same request. */
  lemma SendPacketRoundTrip(p: SendPacket)
    requires IsSendPacket(p)
    ensures ValidateSendPacket(SendPacketCall(p)) == Ok(p)
  {
    SendPacketCallFields(p);
  }

  /** A packet without a payload is refused. */
  lemma PayloadNeeded(call: seq<Entry>)
    requires !HasKey(call, "payload")
    ensures ValidateSendPacket(call).Err?
  {
  }
}
