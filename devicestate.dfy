/**
 * A compact summary of a settings snapshot: whether the unit is powered,
 * which mode it reports, and the target temperature it holds.
 */
module Devicestate {
  import opened Wrappers
  import opened Climate
  import opened HeatPumpLib
  import Espmhp

  datatype DeviceMode = Off | Heat | Cool | Dry | Fan | Auto | Unknown

  datatype DeviceState = DeviceState(active: bool, mode: DeviceMode, targetTemperature: real)

  const DeviceModeNames: set<string> := {"HEAT", "DRY", "COOL", "FAN", "AUTO"}

  /**
   * `isDeviceActive`: the unit is active exactly when its power string is
   * "ON", which is exactly when the climate component does not read the
   * snapshot as OFF. `devicestate.cpp` compares the power pointer without a
   * NULL check, so it must only be called on a snapshot the unit has
   * reported.
   */
  function IsDeviceActive(settings: Settings): (active: bool)
    requires settings.power.Some?
    ensures active <==> Espmhp.DecodeMode(settings.power.value, settings.mode) != Some(ClimateMode.Off)
  {
    settings.power.value == "ON"
  }

  /**
   * `toDeviceMode`: the mode string read as a device mode, Unknown for any
   * other string. It never yields Off: power is reported separately.
   */
  function ToDeviceMode(settings: Settings): (m: DeviceMode)
    ensures m != DeviceMode.Off
    ensures m == DeviceMode.Unknown <==> settings.mode !in DeviceModeNames
  {
    if settings.mode == "HEAT" then DeviceMode.Heat
    else if settings.mode == "DRY" then DeviceMode.Dry
    else if settings.mode == "COOL" then DeviceMode.Cool
    else if settings.mode == "FAN" then DeviceMode.Fan
    else if settings.mode == "AUTO" then DeviceMode.Auto
    else DeviceMode.Unknown
  }

  /** `toDeviceState`: activity, mode and target temperature of one snapshot. */
  function ToDeviceState(settings: Settings): (state: DeviceState)
    requires settings.power.Some?
    ensures state.active <==> settings.power.value == "ON"
    ensures state.mode == ToDeviceMode(settings)
    ensures state.targetTemperature == settings.temperature
  {
    DeviceState(IsDeviceActive(settings), ToDeviceMode(settings), settings.temperature)
  }

  /** The climate mode a device mode stands for when the unit is powered; Off and Unknown stand for none. */
  function ClimateModeOf(m: DeviceMode): (c: Option<ClimateMode>)
    ensures c.None? <==> m in {DeviceMode.Off, DeviceMode.Unknown}
  {
    match m
    case Heat => Some(ClimateMode.Heat)
    case Cool => Some(ClimateMode.Cool)
    case Dry => Some(ClimateMode.Dry)
    case Fan => Some(ClimateMode.FanOnly)
    case Auto => Some(ClimateMode.HeatCool)
    case _ => None
  }

  /**
   * The summary agrees with the climate component's own reading of the
   * same snapshot: an inactive unit is OFF there, and an active one is in
   * the mode the device mode stands for, or keeps its mode exactly when
   * the device mode is Unknown.
   */
  lemma DeviceStateAgreesWithComponent(settings: Settings)
    requires settings.power.Some?
    ensures var state := ToDeviceState(settings);
      var decoded := Espmhp.DecodeMode(settings.power.value, settings.mode);
      (!state.active ==> decoded == Some(ClimateMode.Off)) &&
      (state.active ==> decoded == ClimateModeOf(state.mode)) &&
      (state.active ==> (decoded.None? <==> state.mode == DeviceMode.Unknown))
  {
  }
}
