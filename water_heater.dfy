// The water heater entity of the integration (custom_components/ramses_cc/
// water_heater.py): how the stored hot water's native zone mode reads as a
// Home Assistant operation, and the requests the entity passes to the DHW
// device.  The device is represented by what it reports and by the log of
// requests; `now` is a parameter and times are whole seconds.

module WaterHeater {
  import opened Outcomes
  import Modes
  import Climate

  /** The water heater's operations as Home Assistant shows them. */
  datatype Operation = Auto | Boost | Off | On

  /** The operation list, in the table's order. */
  const Operations: seq<Operation> := [Auto, Boost, Off, On]

  /** The native zone mode each operation is set with. */
  const ModeHaToRamses: map<Operation, Modes.ZoneMode> :=
    map[Auto := Modes.FollowSchedule, Boost := Modes.TemporaryOverride,
        Off := Modes.PermanentOverride, On := Modes.PermanentOverride]

  /** The operation list is the table's keys, each once. */
  lemma OperationsAreTableKeys(op: Operation)
    ensures op in Operations && op in ModeHaToRamses
    ensures |Operations| == |ModeHaToRamses.Keys|
  {
    assert ModeHaToRamses.Keys == {Auto, Boost, Off, On};
    match op {
      case Auto => assert Operations[0] == op;
      case Boost => assert Operations[1] == op;
      case Off => assert Operations[2] == op;
      case On => assert Operations[3] == op;
    }
  }

  /** The mode the DHW device reports: its zone mode and whether it is
    * active (None reads as false). */
  datatype DhwState = DhwState(mode: Modes.ZoneMode, active: Option<bool>)

  predicate IsActive(s: DhwState)
  {
    s.active == Some(true)
  }

  /** `current_operation`: None when the device reports no mode; the
    * schedule is auto; a permanent override is on or off; every other
    * override is boost or off. */
  function CurrentOperation(state: Option<DhwState>): (r: Option<Operation>)
    ensures r.None? <==> state.None?
    ensures r == Some(Auto) <==> state.Some? && state.value.mode == Modes.FollowSchedule
    ensures r == Some(On) <==> state.Some? && state.value.mode == Modes.PermanentOverride && IsActive(state.value)
    ensures r == Some(Boost) <==>
      (state.Some? && state.value.mode !in {Modes.FollowSchedule, Modes.PermanentOverride} && IsActive(state.value))
    ensures r == Some(Off) <==> state.Some? && state.value.mode != Modes.FollowSchedule && !IsActive(state.value)
  {
    if state.None? then None
    else if state.value.mode == Modes.FollowSchedule then Some(Auto)
    else if state.value.mode == Modes.PermanentOverride then Some(if IsActive(state.value) then On else Off)
    else Some(if IsActive(state.value) then Boost else Off)
  }

  /** `is_away_mode_on`: None when the system mode is unknown, else whether
    * it is away. */
  function IsAwayModeOn(systemMode: Option<Modes.SystemMode>): (r: Option<bool>)
    ensures r.None? <==> systemMode.None?
    ensures r == Some(true) <==> systemMode == Some(Modes.Away)
  {
    if systemMode.None? then None else Some(systemMode.value == Modes.Away)
  }

  /** The water heater's away mode agrees with the controller: it is on
    * exactly when the controller's HVAC mode is auto and its preset away. */
  lemma AwayModeMatchesController(systemMode: Option<Modes.SystemMode>)
    ensures IsAwayModeOn(systemMode).None? <==> Climate.ControllerHvacMode(systemMode).None?
    ensures IsAwayModeOn(systemMode) == Some(true) <==> Climate.ControllerPresetMode(systemMode) == Some(Climate.AwayPreset)
    ensures IsAwayModeOn(systemMode) == Some(true) <==> Climate.ControllerHvacMode(systemMode) == Some(Climate.Auto)
  {
    if systemMode.Some? {
      Climate.PresetTcsValues(systemMode.value);
      if Climate.ControllerPresetMode(systemMode) == Some(Climate.AwayPreset) {
        assert Climate.PresetHaToTcs[Climate.AwayPreset] == Modes.Away;
      }
    }
  }

  /** A request passed to the DHW device. */
  datatype DhwRequest =
    | DhwModeRequest(mode: Option<Modes.ZoneMode>, active: Option<bool>, until: Option<int>)
    | DhwParamsRequest(setpoint: Option<real>, overrun: Option<int>, differential: Option<real>)
    | DhwModeReset
    | DhwParamsReset
    | DhwBoostRequest

  /** The mode request `set_operation_mode` passes on: the table's zone
    * mode; active unset for auto, false for off, true otherwise; boost
    * lasts an hour from now. */
  function OperationRequest(op: Operation, now: int): (r: DhwRequest)
    ensures op in ModeHaToRamses && r.DhwModeRequest? && r.mode == Some(ModeHaToRamses[op])
    ensures r.active.None? <==> op == Auto
    ensures r.active == Some(false) <==> op == Off
    ensures r.until.Some? <==> op == Boost
    ensures op == Boost ==> r.until == Some(now + Climate.Hour)
  {
    match op
    case Auto => DhwModeRequest(Some(ModeHaToRamses[op]), None, None)
    case Boost => DhwModeRequest(Some(ModeHaToRamses[op]), Some(true), Some(now + Climate.Hour))
    case Off => DhwModeRequest(Some(ModeHaToRamses[op]), Some(false), None)
    case On => DhwModeRequest(Some(ModeHaToRamses[op]), Some(true), None)
  }

  /** Setting an operation and reading the device back gives that
    * operation again, for every operation in the list. */
  lemma {:induction false} OperationRoundTrip(op: Operation, now: int)
    ensures var q := OperationRequest(op, now);
      CurrentOperation(Some(DhwState(q.mode.value, q.active))) == Some(op)
  {
    var q := OperationRequest(op, now);
    match op {
      case Auto => assert q.mode.value == Modes.FollowSchedule;
      case Boost => assert q.mode.value == Modes.TemporaryOverride && q.active == Some(true);
      case Off => assert q.mode.value == Modes.PermanentOverride && q.active == Some(false);
      case On => assert q.mode.value == Modes.PermanentOverride && q.active == Some(true);
    }
  }

  class WaterHeater {
    /** What the device reports: its mode, the system's mode and its setpoint. */
    var state: Option<DhwState>
    var systemMode: Option<Modes.SystemMode>
    var setpoint: Option<real>
    /** The requests passed to the device, oldest first. */
    var sent: seq<DhwRequest>

    constructor (state: Option<DhwState>, systemMode: Option<Modes.SystemMode>, setpoint: Option<real>)
      ensures this.state == state && this.systemMode == systemMode && this.setpoint == setpoint
      ensures sent == []
    {
      this.state := state;
      this.systemMode := systemMode;
      this.setpoint := setpoint;
      sent := [];
    }

    /** `async_set_dhw_mode`: an explicit until is kept; only without one
      * does a duration count from now. */
    method SetDhwMode(mode: Option<Modes.ZoneMode>, active: Option<bool>, duration: Option<int>, until: Option<int>, now: int)
      modifies this
      ensures sent == old(sent) + [DhwModeRequest(mode, active, Climate.OverrideUntil(now, duration, until))]
      ensures unchanged(this`state, this`systemMode, this`setpoint)
    {
      var u := until;
      if u.None? && duration.Some? {
        u := Some(now + duration.value);
      }
      sent := sent + [DhwModeRequest(mode, active, u)];
    }

    /** `async_set_dhw_params` */
    method SetDhwParams(setpoint: Option<real>, overrun: Option<int>, differential: Option<real>)
      modifies this
      ensures sent == old(sent) + [DhwParamsRequest(setpoint, overrun, differential)]
      ensures unchanged(this`state, this`systemMode, this`setpoint)
    {
      sent := sent + [DhwParamsRequest(setpoint, overrun, differential)];
    }

    /** `set_operation_mode` */
    method SetOperationMode(op: Operation, now: int)
      modifies this
      ensures sent == old(sent) + [OperationRequest(op, now)]
      ensures unchanged(this`state, this`systemMode, this`setpoint)
    {
      var active: Option<bool> := None;
      var until: Option<int> := None;
      if op == Boost {
        active := Some(true);
        until := Some(now + Climate.Hour);
      } else if op == Off {
        active := Some(false);
      } else if op == On {
        active := Some(true);
      }
      SetDhwMode(Some(ModeHaToRamses[op]), active, None, until, now);
    }

    /** `set_temperature`: only the setpoint is passed on. */
    method SetTemperature(temperature: Option<real>)
      modifies this
      ensures sent == old(sent) + [DhwParamsRequest(temperature, None, None)]
      ensures unchanged(this`state, this`systemMode, this`setpoint)
    {
      SetDhwParams(temperature, None, None);
    }

    /** `async_reset_dhw_mode` */
    method ResetDhwMode()
      modifies this
      ensures sent == old(sent) + [DhwModeReset]
      ensures unchanged(this`state, this`systemMode, this`setpoint)
    {
      sent := sent + [DhwModeReset];
    }

    /** `async_reset_dhw_params` */
    method ResetDhwParams()
      modifies this
      ensures sent == old(sent) + [DhwParamsReset]
      ensures unchanged(this`state, this`systemMode, this`setpoint)
    {
      sent := sent + [DhwParamsReset];
    }

    /** `async_set_dhw_boost` */
    method SetDhwBoost()
      modifies this
      ensures sent == old(sent) + [DhwBoostRequest]
      ensures unchanged(this`state, this`systemMode, this`setpoint)
    {
      sent := sent + [DhwBoostRequest];
    }
  }
}
