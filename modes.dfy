// The operating modes of an evohome-style system and of its zones, with
// the names they carry in service calls and state attributes.

module Modes {
  import opened Outcomes

  datatype SystemMode =
    | Auto
    | Away
    | Custom
    | DayOff
    | DayOffEco    // Eco when the day off ends
    | EcoBoost
    | HeatOff
    | AutoWithReset

  datatype ZoneMode =
    | FollowSchedule
    | AdvancedOverride     // until the next setpoint
    | PermanentOverride    // indefinitely
    | CountdownOverride    // for a number of minutes
    | TemporaryOverride    // until a given date and time

  const AllSystemModes: seq<SystemMode> :=
    [Auto, Away, Custom, DayOff, DayOffEco, EcoBoost, HeatOff, AutoWithReset]

  function SystemModeName(m: SystemMode): string
  {
    match m
    case Auto => "auto"
    case Away => "away"
    case Custom => "custom"
    case DayOff => "day_off"
    case DayOffEco => "day_off_eco"
    case EcoBoost => "eco_boost"
    case HeatOff => "heat_off"
    case AutoWithReset => "auto_with_reset"
  }

  function ZoneModeName(m: ZoneMode): string
  {
    match m
    case FollowSchedule => "follow_schedule"
    case AdvancedOverride => "advanced_override"
    case PermanentOverride => "permanent_override"
    case CountdownOverride => "countdown_override"
    case TemporaryOverride => "temporary_override"
  }

  /** `SystemMode(s)`: the mode with that name, if there is one. */
  function ParseSystemMode(s: string): (r: Option<SystemMode>)
    ensures r.Some? ==> SystemModeName(r.value) == s
  {
    if s == "auto" then Some(Auto)
    else if s == "away" then Some(Away)
    else if s == "custom" then Some(Custom)
    else if s == "day_off" then Some(DayOff)
    else if s == "day_off_eco" then Some(DayOffEco)
    else if s == "eco_boost" then Some(EcoBoost)
    else if s == "heat_off" then Some(HeatOff)
    else if s == "auto_with_reset" then Some(AutoWithReset)
    else None
  }

  function ParseZoneMode(s: string): (r: Option<ZoneMode>)
    ensures r.Some? ==> ZoneModeName(r.value) == s
  {
    if s == "follow_schedule" then Some(FollowSchedule)
    else if s == "advanced_override" then Some(AdvancedOverride)
    else if s == "permanent_override" then Some(PermanentOverride)
    else if s == "countdown_override" then Some(CountdownOverride)
    else if s == "temporary_override" then Some(TemporaryOverride)
    else None
  }

  /** Every mode is found by its own name: the names are distinct. */
  lemma SystemModeNamesRoundTrip(m: SystemMode)
    ensures ParseSystemMode(SystemModeName(m)) == Some(m)
  {
  }

  lemma ZoneModeNamesRoundTrip(m: ZoneMode)
    ensures ParseZoneMode(ZoneModeName(m)) == Some(m)
  {
  }
}
