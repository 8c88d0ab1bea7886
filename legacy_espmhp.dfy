/**
 * The earlier single-file version of the climate component: no remote
 * sensor, no saved setpoints, vertical swing only, and the action derived
 * from the temperatures alone when settings arrive.
 */
module LegacyEspmhp {
  import opened Wrappers
  import opened Climate
  import opened HeatPumpLib
  import Espmhp

  /**
   * The mode string this version of `control` sends for a requested mode,
   * with power "ON"; None where it powers the unit off, which here includes
   * HEAT_COOL: only AUTO is sent as "AUTO".
   */
  function LegacyModeSetting(mode: ClimateMode): (s: Option<string>)
    ensures s.None? <==> mode in {ClimateMode.Off, ClimateMode.HeatCool}
  {
    match mode
    case Cool => Some("COOL")
    case Heat => Some("HEAT")
    case Dry => Some("DRY")
    case Auto => Some("AUTO")
    case FanOnly => Some("FAN")
    case _ => None
  }

  /** The climate mode this version reads: as the current component does, except that "AUTO" is AUTO. */
  function LegacyDecodeMode(power: string, mode: string): (m: Option<ClimateMode>)
    ensures mode != "AUTO" ==> m == Espmhp.DecodeMode(power, mode)
    ensures power == "ON" && mode == "AUTO" ==> m == Some(ClimateMode.Auto)
    ensures power != "ON" ==> m == Some(ClimateMode.Off)
  {
    if power == "ON" then
      if mode == "HEAT" then Some(ClimateMode.Heat)
      else if mode == "DRY" then Some(ClimateMode.Dry)
      else if mode == "COOL" then Some(ClimateMode.Cool)
      else if mode == "FAN" then Some(ClimateMode.FanOnly)
      else if mode == "AUTO" then Some(ClimateMode.Auto)
      else None
    else
      Some(ClimateMode.Off)
  }

  /** Every mode this `control` sends while powering on is read back as the same mode. */
  lemma LegacyModeRoundTrip(mode: ClimateMode)
    requires LegacyModeSetting(mode).Some?
    ensures LegacyDecodeMode("ON", LegacyModeSetting(mode).value) == Some(mode)
  {
  }

  /** The vane setting this `control` sends for a swing mode; None for the unsupported ones. */
  function LegacyVaneSetting(swing: ClimateSwingMode): (s: Option<string>)
    ensures s.Some? <==> swing in {ClimateSwingMode.Off, ClimateSwingMode.Vertical}
  {
    match swing
    case Off => Some("AUTO")
    case Vertical => Some("SWING")
    case _ => None
  }

  /** The swing mode this version reads: only the vertical vane is looked at. */
  function LegacyDecodeSwing(vane: string): (swing: ClimateSwingMode)
    ensures swing == ClimateSwingMode.Vertical <==> vane == "SWING"
    ensures swing != ClimateSwingMode.Vertical ==> swing == ClimateSwingMode.Off
  {
    if vane == "SWING" then ClimateSwingMode.Vertical else ClimateSwingMode.Off
  }

  /** OFF and VERTICAL survive the trip to the unit and back. */
  lemma LegacySwingRoundTrip(swing: ClimateSwingMode)
    requires LegacyVaneSetting(swing).Some?
    ensures LegacyDecodeSwing(LegacyVaneSetting(swing).value) == swing
  {
  }

  /**
   * The action `hpSettingsChanged` computes as the code is written: the
   * DRY case has no `break`, so its DRYING falls through to the default
   * OFF.
   */
  function LegacyActionAsWritten(mode: ClimateMode, current: Temperature, target: Temperature): (a: ClimateAction)
    ensures a != ClimateAction.Drying
    ensures a == ClimateAction.Heating <==> mode == ClimateMode.Heat && Less(current, target)
    ensures a == ClimateAction.Cooling <==> mode == ClimateMode.Cool && Greater(current, target)
    ensures a == ClimateAction.Idle <==>
      (mode == ClimateMode.Heat && !Less(current, target)) || (mode == ClimateMode.Cool && !Greater(current, target))
    ensures a == ClimateAction.Off <==> mode !in {ClimateMode.Heat, ClimateMode.Cool}
  {
    match mode
    case Heat => if Less(current, target) then ClimateAction.Heating else ClimateAction.Idle
    case Cool => if Greater(current, target) then ClimateAction.Cooling else ClimateAction.Idle
    // DRYING is assigned, then overwritten by the default case it falls into
    case Dry => ClimateAction.Off
    case _ => ClimateAction.Off
  }

  /** As written, a unit in DRY is reported OFF whatever the temperatures. */
  lemma DryReportedOff(current: Temperature, target: Temperature)
    ensures LegacyActionAsWritten(ClimateMode.Dry, current, target) == ClimateAction.Off
    ensures LegacyActionAsWritten(ClimateMode.Dry, current, target) != LegacyAction(ClimateMode.Dry, current, target)
  {
  }

  /**
   * The action `hpSettingsChanged` evidently intends: HEAT heats below the
   * target, COOL cools above it (both idle otherwise, and with a NaN
   * reading), DRY dries, and every other mode is OFF.
   */
  function LegacyAction(mode: ClimateMode, current: Temperature, target: Temperature): (a: ClimateAction)
    ensures a == ClimateAction.Heating <==> mode == ClimateMode.Heat && Less(current, target)
    ensures a == ClimateAction.Cooling <==> mode == ClimateMode.Cool && Greater(current, target)
    ensures a == ClimateAction.Idle <==>
      (mode == ClimateMode.Heat && !Less(current, target)) || (mode == ClimateMode.Cool && !Greater(current, target))
    ensures a == ClimateAction.Drying <==> mode == ClimateMode.Dry
    ensures a == ClimateAction.Off <==> mode !in {ClimateMode.Heat, ClimateMode.Cool, ClimateMode.Dry}
  {
    match mode
    case Heat => if Less(current, target) then ClimateAction.Heating else ClimateAction.Idle
    case Cool => if Greater(current, target) then ClimateAction.Cooling else ClimateAction.Idle
    case Dry => ClimateAction.Drying
    case _ => ClimateAction.Off
  }

  /** The correction changes the DRY case only. */
  lemma LegacyActionDiffersOnlyInDry(mode: ClimateMode, current: Temperature, target: Temperature)
    ensures mode != ClimateMode.Dry ==> LegacyAction(mode, current, target) == LegacyActionAsWritten(mode, current, target)
  {
  }

  class MitsubishiHeatPump {
    var mode: ClimateMode
    var action: ClimateAction
    var fanMode: ClimateFanMode
    var swingMode: ClimateSwingMode
    var targetTemperature: Temperature
    var currentTemperature: Temperature

    /**
     * The constructor sets nothing itself, so the climate entity starts
     * with the defaults of the ESPHome climate base class: OFF, swing OFF,
     * no temperatures (NaN), and a fan mode that class chooses, given here
     * as `fan`.
     */
    constructor (fan: ClimateFanMode)
      ensures mode == ClimateMode.Off && action == ClimateAction.Off
      ensures fanMode == fan && swingMode == ClimateSwingMode.Off
      ensures targetTemperature == None && currentTemperature == None
    {
      mode := ClimateMode.Off;
      action := ClimateAction.Off;
      fanMode := fan;
      swingMode := ClimateSwingMode.Off;
      targetTemperature := None;
      currentTemperature := None;
    }

    /**
     * `control`: only a request with a mode sends mode and power; a target
     * is sent as given; fan OFF powers the unit off; a swing request is
     * always taken, but only OFF and VERTICAL send a vane setting. The
     * action is left to the next settings report.
     */
    method Control(call: ClimateCall) returns (sent: Requests)
      modifies this`mode, this`targetTemperature, this`fanMode, this`swingMode
      ensures mode == call.mode.GetOr(old(mode))
      ensures targetTemperature == if call.targetTemperature.Some? then call.targetTemperature else old(targetTemperature)
      ensures fanMode == call.fanMode.GetOr(old(fanMode))
      ensures swingMode == call.swingMode.GetOr(old(swingMode))
      ensures sent.mode == if call.mode.Some? then LegacyModeSetting(call.mode.value) else None
      ensures sent.power ==
        if call.fanMode == Some(ClimateFanMode.Off) then Some("OFF")
        else if call.mode.None? then None
        else if LegacyModeSetting(call.mode.value).Some? then Some("ON")
        else Some("OFF")
      ensures sent.temperature == call.targetTemperature
      ensures sent.fan == if call.fanMode.Some? then Espmhp.FanSpeedSetting(call.fanMode.value) else None
      ensures sent.vane == if call.swingMode.Some? then LegacyVaneSetting(call.swingMode.value) else None
      ensures sent.wideVane == None
    {
      var modeSetting, power := None, None;
      if call.mode.Some? {
        mode := call.mode.value;
        modeSetting := LegacyModeSetting(mode);
        power := if modeSetting.Some? then Some("ON") else Some("OFF");
      }

      if call.targetTemperature.Some? {
        targetTemperature := call.targetTemperature;
      }

      var speed := None;
      if call.fanMode.Some? {
        fanMode := call.fanMode.value;
        speed := Espmhp.FanSpeedSetting(call.fanMode.value);
        if speed.None? {
          power := Some("OFF");
        }
      }

      var vane := None;
      if call.swingMode.Some? {
        swingMode := call.swingMode.value;
        vane := LegacyVaneSetting(swingMode);
      }

      sent := Requests(power, modeSetting, call.targetTemperature, speed, vane, None);
    }

    /**
     * `hpSettingsChanged`: until the unit has reported (NULL power) nothing
     * changes; otherwise mode, fan, swing and target are read back, and the
     * action follows from the mode and the temperatures as the code is
     * written, so a unit in DRY is reported OFF (see `LegacyAction` for the
     * evidently intended action).
     */
    method SettingsChanged(settings: Settings)
      modifies this`mode, this`action, this`fanMode, this`swingMode, this`targetTemperature
      ensures settings.power.None? ==> unchanged(this)
      ensures settings.power.Some? ==>
        mode == LegacyDecodeMode(settings.power.value, settings.mode).GetOr(old(mode)) &&
        fanMode == Espmhp.DecodeFan(settings.fan) &&
        swingMode == LegacyDecodeSwing(settings.vane) &&
        targetTemperature == Some(settings.temperature) &&
        action == LegacyActionAsWritten(mode, currentTemperature, targetTemperature)
    {
      if settings.power.None? {
        return;
      }
      var decoded := LegacyDecodeMode(settings.power.value, settings.mode);
      if decoded.Some? {
        mode := decoded.value;
      }
      fanMode := Espmhp.DecodeFan(settings.fan);
      swingMode := LegacyDecodeSwing(settings.vane);
      targetTemperature := Some(settings.temperature);
      action := LegacyActionAsWritten(mode, currentTemperature, targetTemperature);
    }

    /** `hpStatusChanged`: only the room temperature is taken. */
    method StatusChanged(status: Status)
      modifies this`currentTemperature
      ensures currentTemperature == Some(status.roomTemperature)
    {
      currentTemperature := Some(status.roomTemperature);
    }
  }
}
