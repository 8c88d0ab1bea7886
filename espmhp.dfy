/**
 * The climate component for Mitsubishi heat pumps: it translates ESPHome
 * climate requests into HeatPump library settings (`control`), translates
 * the settings the unit reports back into climate state
 * (`hpSettingsChanged`), derives the displayed action from the unit's
 * status (`hpStatusChanged`), manages a remote temperature sensor with
 * publish and timeout rules, and keeps one setpoint per mode in a byte of
 * flash as a count of half-degree steps above 16 degrees.
 *
 * The monotonic clock is an integer count of milliseconds passed in as
 * `now`; the component calls `steady_clock::now()` where the model takes it.
 */
module Espmhp {
  import opened Wrappers
  import opened Climate
  import opened HeatPumpLib

  const MinTemperature: int := 16
  const TemperatureStep: real := 0.5

  const MillisPerSecond: int := 1000
  const MillisPerMinute: int := 60000

  /** The elapsed time assumed when nothing has been published yet: 99999999 seconds. */
  const NeverPublished: int := 99999999 * MillisPerSecond

  // ---------------------------------------------------------------------
  // Mode and action

  /**
   * The mode string `control` sends for a climate mode, with power "ON";
   * None where `control` takes its OFF/default branch, which powers the
   * unit off instead.
   */
  function ModeSetting(mode: ClimateMode): (s: Option<string>)
    ensures s.Some? <==> mode in {ClimateMode.Cool, ClimateMode.Heat, ClimateMode.Dry, ClimateMode.HeatCool, ClimateMode.FanOnly}
    ensures s.Some? ==> s.value in {"COOL", "HEAT", "DRY", "AUTO", "FAN"}
  {
    match mode
    case Cool => Some("COOL")
    case Heat => Some("HEAT")
    case Dry => Some("DRY")
    case HeatCool => Some("AUTO")
    case FanOnly => Some("FAN")
    case _ => None
  }

  /**
   * The climate mode `hpSettingsChanged` reads from the unit's power and mode
   * strings; None for a powered unit reporting an unknown mode string, which
   * leaves mode and action as they were.
   */
  function DecodeMode(power: string, mode: string): (m: Option<ClimateMode>)
    ensures power != "ON" ==> m == Some(ClimateMode.Off)
    ensures power == "ON" ==> (m.None? <==> mode !in {"HEAT", "DRY", "COOL", "FAN", "AUTO"})
    ensures power == "ON" && m.Some? ==> m.value != ClimateMode.Off
  {
    if power == "ON" then
      if mode == "HEAT" then Some(ClimateMode.Heat)
      else if mode == "DRY" then Some(ClimateMode.Dry)
      else if mode == "COOL" then Some(ClimateMode.Cool)
      else if mode == "FAN" then Some(ClimateMode.FanOnly)
      else if mode == "AUTO" then Some(ClimateMode.HeatCool)
      else None
    else
      Some(ClimateMode.Off)
  }

  /**
   * The action both `control` (on a mode change) and `hpSettingsChanged`
   * assign together with a mode, before any status has been seen.
   */
  function ModeAction(mode: ClimateMode): (a: ClimateAction)
    ensures a == ClimateAction.Off <==> ModeSetting(mode).None?
    ensures a in {ClimateAction.Off, ClimateAction.Idle, ClimateAction.Drying, ClimateAction.Fan}
  {
    match mode
    case Cool => ClimateAction.Idle
    case Heat => ClimateAction.Idle
    case HeatCool => ClimateAction.Idle
    case Dry => ClimateAction.Drying
    case FanOnly => ClimateAction.Fan
    case _ => ClimateAction.Off
  }

  /** Every mode `control` sends while powering on is read back as the same mode. */
  lemma ModeRoundTrip(mode: ClimateMode)
    requires ModeSetting(mode).Some?
    ensures DecodeMode("ON", ModeSetting(mode).value) == Some(mode)
  {
  }

  /** Conversely, every mode string the unit reports is the one `control` sends for its decoded mode. */
  lemma ModeStringRoundTrip(s: string)
    requires DecodeMode("ON", s).Some?
    ensures ModeSetting(DecodeMode("ON", s).value) == Some(s)
  {
  }

  /**
   * The action `hpSettingsChanged` assigns for each mode the unit can
   * report: IDLE, IDLE, DRYING, IDLE and FAN for COOL, HEAT, DRY, HEAT_COOL
   * and FAN_ONLY, and OFF when the unit is off.
   */
  lemma SettingsActions(power: string, s: string)
    requires DecodeMode(power, s).Some?
    ensures var m := DecodeMode(power, s).value;
      ModeAction(m) == match m
        case Dry => ClimateAction.Drying
        case FanOnly => ClimateAction.Fan
        case Off => ClimateAction.Off
        case _ => ClimateAction.Idle
  {
  }

  /**
   * The action `hpStatusChanged` derives from the mode, the unit's
   * operating flag and, in HEAT_COOL, the comparison of the current with
   * the target temperature (a NaN temperature compares false both ways).
   */
  function StatusAction(mode: ClimateMode, operating: bool, current: Temperature, target: Temperature): (a: ClimateAction)
    ensures a == ClimateAction.Heating ==> operating && mode in {ClimateMode.Heat, ClimateMode.HeatCool}
    ensures a == ClimateAction.Cooling ==> operating && mode in {ClimateMode.Cool, ClimateMode.HeatCool}
    ensures a == ClimateAction.Drying <==> operating && mode == ClimateMode.Dry
    ensures a == ClimateAction.Fan <==> mode == ClimateMode.FanOnly
    ensures a == ClimateAction.Off <==> mode !in {ClimateMode.Heat, ClimateMode.Cool, ClimateMode.HeatCool, ClimateMode.Dry, ClimateMode.FanOnly}
    ensures !operating ==> a in {ClimateAction.Idle, ClimateAction.Fan, ClimateAction.Off}
  {
    match mode
    case Heat => if operating then ClimateAction.Heating else ClimateAction.Idle
    case Cool => if operating then ClimateAction.Cooling else ClimateAction.Idle
    case HeatCool =>
      if operating && Greater(current, target) then ClimateAction.Cooling
      else if operating && Less(current, target) then ClimateAction.Heating
      else ClimateAction.Idle
    case Dry => if operating then ClimateAction.Drying else ClimateAction.Idle
    case FanOnly => ClimateAction.Fan
    case _ => ClimateAction.Off
  }

  /** In HEAT, COOL and DRY the unit's operating flag alone decides between working and idling. */
  lemma SingleModeActions(mode: ClimateMode, operating: bool, current: Temperature, target: Temperature)
    requires mode in {ClimateMode.Heat, ClimateMode.Cool, ClimateMode.Dry}
    ensures StatusAction(mode, operating, current, target) == ClimateAction.Idle <==> !operating
    ensures StatusAction(mode, operating, current, target) == StatusAction(mode, operating, None, None)
  {
  }

  /** In HEAT_COOL an operating unit cools above the target, heats below it, and idles at it or without readings. */
  lemma HeatCoolAction(operating: bool, current: Temperature, target: Temperature)
    ensures StatusAction(ClimateMode.HeatCool, operating, current, target) == ClimateAction.Cooling
      <==> operating && current.Some? && target.Some? && current.value > target.value
    ensures StatusAction(ClimateMode.HeatCool, operating, current, target) == ClimateAction.Heating
      <==> operating && current.Some? && target.Some? && current.value < target.value
    ensures StatusAction(ClimateMode.HeatCool, operating, current, target) == ClimateAction.Idle
      <==> !operating || current.None? || target.None? || current.value == target.value
  {
  }

  /** The saved setpoint `control` restores when switching to a mode without an explicit target. */
  function SavedSetpoint(mode: ClimateMode, cool: Option<real>, heat: Option<real>, auto: Option<real>): (r: Option<real>)
    ensures r.Some? ==> mode in {ClimateMode.Cool, ClimateMode.Heat, ClimateMode.HeatCool}
    ensures r.Some? ==> r == cool || r == heat || r == auto
    ensures mode == ClimateMode.Cool ==> r == cool
    ensures mode == ClimateMode.Heat ==> r == heat
    ensures mode == ClimateMode.HeatCool ==> r == auto
    ensures mode !in {ClimateMode.Cool, ClimateMode.Heat, ClimateMode.HeatCool} ==> r.None?
  {
    match mode
    case Cool => cool
    case Heat => heat
    case HeatCool => auto
    case _ => None
  }

  // ---------------------------------------------------------------------
  // Fan

  /**
   * The fan speed `control` sends for a fan mode; None for OFF, which
   * powers the unit off instead. ON, AUTO and the unsupported modes send
   * "AUTO".
   */
  function FanSpeedSetting(fan: ClimateFanMode): (s: Option<string>)
    ensures s.None? <==> fan == ClimateFanMode.Off
    ensures s.Some? ==> s.value in {"QUIET", "1", "2", "3", "4", "AUTO"}
    ensures fan in {ClimateFanMode.On, ClimateFanMode.Auto, ClimateFanMode.Focus, ClimateFanMode.Quiet} ==> s == Some("AUTO")
  {
    match fan
    case Off => None
    case Diffuse => Some("QUIET")
    case Low => Some("1")
    case Medium => Some("2")
    case Middle => Some("3")
    case High => Some("4")
    case _ => Some("AUTO")
  }

  /** The fan mode `hpSettingsChanged` reads from the unit's fan string; anything unrecognised is AUTO. */
  function DecodeFan(s: string): (fan: ClimateFanMode)
    ensures fan in {ClimateFanMode.Diffuse, ClimateFanMode.Low, ClimateFanMode.Medium, ClimateFanMode.Middle, ClimateFanMode.High, ClimateFanMode.Auto}
    ensures s !in {"QUIET", "1", "2", "3", "4"} ==> fan == ClimateFanMode.Auto
  {
    if s == "QUIET" then ClimateFanMode.Diffuse
    else if s == "1" then ClimateFanMode.Low
    else if s == "2" then ClimateFanMode.Medium
    else if s == "3" then ClimateFanMode.Middle
    else if s == "4" then ClimateFanMode.High
    else ClimateFanMode.Auto
  }

  /** DIFFUSE, LOW, MEDIUM, MIDDLE, HIGH and AUTO survive the trip to the unit and back. */
  lemma FanRoundTrip(fan: ClimateFanMode)
    requires fan in {ClimateFanMode.Diffuse, ClimateFanMode.Low, ClimateFanMode.Medium, ClimateFanMode.Middle, ClimateFanMode.High, ClimateFanMode.Auto}
    ensures DecodeFan(FanSpeedSetting(fan).value) == fan
  {
  }

  /** Every fan string `control` can send is read back as a mode that sends it again. */
  lemma FanStringRoundTrip(s: string)
    requires s in {"QUIET", "1", "2", "3", "4", "AUTO"}
    ensures FanSpeedSetting(DecodeFan(s)) == Some(s)
  {
  }

  // ---------------------------------------------------------------------
  // Swing and vanes

  /** The vane and wide-vane settings `control` sends for a swing mode. */
  function SwingVanes(swing: ClimateSwingMode): (vanes: (string, string))
    ensures vanes.0 == "SWING" <==> swing in {ClimateSwingMode.Vertical, ClimateSwingMode.Both}
    ensures vanes.1 == "SWING" <==> swing in {ClimateSwingMode.Horizontal, ClimateSwingMode.Both}
  {
    match swing
    case Off => ("AUTO", "|")
    case Vertical => ("SWING", "|")
    case Horizontal => ("3", "SWING")
    case Both => ("SWING", "SWING")
  }

  /** The swing mode `hpSettingsChanged` reads from the unit's vane and wide-vane strings. */
  function DecodeSwing(vane: string, wideVane: string): (swing: ClimateSwingMode)
    ensures swing == ClimateSwingMode.Both <==> vane == "SWING" && wideVane == "SWING"
    ensures swing == ClimateSwingMode.Vertical <==> vane == "SWING" && wideVane != "SWING"
    ensures swing == ClimateSwingMode.Horizontal <==> vane != "SWING" && wideVane == "SWING"
    ensures swing == ClimateSwingMode.Off <==> vane != "SWING" && wideVane != "SWING"
  {
    if vane == "SWING" && wideVane == "SWING" then ClimateSwingMode.Both
    else if vane == "SWING" then ClimateSwingMode.Vertical
    else if wideVane == "SWING" then ClimateSwingMode.Horizontal
    else ClimateSwingMode.Off
  }

  /** Every swing mode survives the trip to the unit and back. */
  lemma SwingRoundTrip(swing: ClimateSwingMode)
    ensures DecodeSwing(SwingVanes(swing).0, SwingVanes(swing).1) == swing
  {
  }

  const VerticalVaneNames: set<string> := {"swing", "auto", "up", "up_center", "center", "down_center", "down"}
  const VerticalVaneCodes: set<string> := {"SWING", "AUTO", "1", "2", "3", "4", "5"}
  const HorizontalVaneNames: set<string> := {"swing", "auto", "left", "left_center", "center", "right_center", "right"}
  const HorizontalVaneCodes: set<string> := {"SWING", "<>", "<<", "<", "|", ">", ">>"}

  /**
   * `on_vertical_swing_change`: the vane setting sent for a position name
   * of the vertical vane select; None for an unknown name, which sends no
   * vane setting (the update that follows is sent either way).
   */
  function VerticalVaneCode(name: string): (code: Option<string>)
    ensures code.Some? <==> name in VerticalVaneNames
    ensures code.Some? ==> code.value in VerticalVaneCodes
  {
    if name == "swing" then Some("SWING")
    else if name == "auto" then Some("AUTO")
    else if name == "up" then Some("1")
    else if name == "up_center" then Some("2")
    else if name == "center" then Some("3")
    else if name == "down_center" then Some("4")
    else if name == "down" then Some("5")
    else None
  }

  /**
   * The position name `hpSettingsChanged` publishes for the unit's vane
   * string; None for an unknown string, which leaves the select unchanged.
   */
  function VerticalVaneName(code: string): (name: Option<string>)
    ensures name.Some? <==> code in VerticalVaneCodes
    ensures name.Some? ==> name.value in VerticalVaneNames
  {
    if code == "SWING" then Some("swing")
    else if code == "AUTO" then Some("auto")
    else if code == "1" then Some("up")
    else if code == "2" then Some("up_center")
    else if code == "3" then Some("center")
    else if code == "4" then Some("down_center")
    else if code == "5" then Some("down")
    else None
  }

  /** The vertical vane names and codes are in one-to-one correspondence, in both directions. */
  lemma VerticalVaneRoundTrip(name: string, code: string)
    ensures name in VerticalVaneNames ==> VerticalVaneName(VerticalVaneCode(name).value) == Some(name)
    ensures code in VerticalVaneCodes ==> VerticalVaneCode(VerticalVaneName(code).value) == Some(code)
  {
  }

  /** `on_horizontal_swing_change`: the wide-vane setting sent for a position name; None for an unknown name. */
  function HorizontalVaneCode(name: string): (code: Option<string>)
    ensures code.Some? <==> name in HorizontalVaneNames
    ensures code.Some? ==> code.value in HorizontalVaneCodes
  {
    if name == "swing" then Some("SWING")
    else if name == "auto" then Some("<>")
    else if name == "left" then Some("<<")
    else if name == "left_center" then Some("<")
    else if name == "center" then Some("|")
    else if name == "right_center" then Some(">")
    else if name == "right" then Some(">>")
    else None
  }

  /** The position name `hpSettingsChanged` publishes for the unit's wide-vane string; None for an unknown string. */
  function HorizontalVaneName(code: string): (name: Option<string>)
    ensures name.Some? <==> code in HorizontalVaneCodes
    ensures name.Some? ==> name.value in HorizontalVaneNames
  {
    if code == "SWING" then Some("swing")
    else if code == "<>" then Some("auto")
    else if code == "<<" then Some("left")
    else if code == "<" then Some("left_center")
    else if code == "|" then Some("center")
    else if code == ">" then Some("right_center")
    else if code == ">>" then Some("right")
    else None
  }

  /** The horizontal vane names and codes are in one-to-one correspondence, in both directions. */
  lemma HorizontalVaneRoundTrip(name: string, code: string)
    ensures name in HorizontalVaneNames ==> HorizontalVaneName(HorizontalVaneCode(name).value) == Some(name)
    ensures code in HorizontalVaneCodes ==> HorizontalVaneCode(HorizontalVaneName(code).value) == Some(code)
  {
  }

  // ---------------------------------------------------------------------
  // Setpoint storage

  /** The `uint8_t` a setpoint preference holds. */
  type Byte = x: int | 0 <= x < 256

  /** C++ conversion of a float to an integer: truncation toward zero. */
  function Truncate(x: real): (n: int)
    ensures 0.0 <= x ==> n as real <= x < n as real + 1.0
    ensures x < 0.0 ==> n as real - 1.0 < x <= n as real
  {
    if x >= 0.0 then x.Floor else -((-x).Floor)
  }

  /**
   * `save`: the byte stored for a setpoint, the number of half-degree steps
   * above 16 degrees truncated to an integer and then to 8 bits.
   */
  function SetpointSteps(value: real): (steps: Byte)
    ensures MinTemperature as real <= value < MinTemperature as real + 128.0 ==>
      MinTemperature as real + steps as real * TemperatureStep <= value < MinTemperature as real + (steps + 1) as real * TemperatureStep
  {
    Truncate((value - MinTemperature as real) / TemperatureStep) % 256
  }

  /** `load`: the setpoint a stored byte stands for, or none when nothing is stored. */
  function LoadSetpoint(stored: Option<Byte>): (r: Option<real>)
    ensures r.None? <==> stored.None?
    ensures r.Some? ==> MinTemperature as real <= r.value <= MinTemperature as real + 127.5
  {
    match stored
    case None => None
    case Some(steps) => Some(MinTemperature as real + steps as real * TemperatureStep)
  }

  /** Every setpoint on the half-degree grid from 16 to 143.5 degrees is stored and loaded back exactly. */
  lemma SaveLoadRoundTrip(k: int)
    requires 0 <= k <= 255
    ensures LoadSetpoint(Some(SetpointSteps(MinTemperature as real + k as real * TemperatureStep)))
         == Some(MinTemperature as real + k as real * TemperatureStep)
  {
    var v := MinTemperature as real + k as real * TemperatureStep;
    assert (v - MinTemperature as real) / TemperatureStep == k as real;
    assert Truncate(k as real) == k;
    assert SetpointSteps(v) == k;
  }

  /** A setpoint between grid points comes back rounded down to the grid, less than half a degree lower. */
  lemma SaveRoundsDown(value: real)
    requires MinTemperature as real <= value < MinTemperature as real + 128.0
    ensures var loaded := LoadSetpoint(Some(SetpointSteps(value))).value;
      loaded <= value < loaded + TemperatureStep
  {
  }

  // ---------------------------------------------------------------------
  // Remote temperature publishing

  /**
   * Whether a refresh of the remote temperature is due: a publish frequency
   * is configured and at least that long has passed since the last publish
   * (or 99999999 seconds are assumed when nothing was published yet).
   */
  function RefreshDue(lastPublish: Option<int>, frequency: Option<int>, now: int): (due: bool)
    ensures due ==> frequency.Some?
    ensures frequency.Some? && lastPublish.None? ==> (due <==> frequency.value <= NeverPublished)
    ensures frequency.Some? && lastPublish == Some(now) ==> (due <==> frequency.value <= 0)
  {
    var elapsed := if lastPublish.Some? then now - lastPublish.value else NeverPublished;
    frequency.Some? && elapsed >= frequency.value
  }

  /** `time_since > timeout` for an optional timeout and an optional time stamp; false when either is missing. */
  function Expired(timeout: Option<int>, stamp: Option<int>, now: int): (expired: bool)
    ensures expired ==> timeout.Some? && stamp.Some?
    ensures timeout.Some? && timeout.value >= 0 && stamp == Some(now) ==> !expired
  {
    timeout.Some? && stamp.Some? && now - stamp.value > timeout.value
  }

  /** Once a refresh is due it stays due as time goes on, until something is published. */
  lemma RefreshStaysDue(lastPublish: Option<int>, frequency: Option<int>, now: int, later: int)
    requires lastPublish.Some? ==> lastPublish.value <= now
    requires now <= later
    requires RefreshDue(lastPublish, frequency, now)
    ensures RefreshDue(lastPublish, frequency, later)
  {
  }

  /** A timeout that has expired stays expired as time goes on, for the same stamp. */
  lemma ExpiredStaysExpired(timeout: Option<int>, stamp: Option<int>, now: int, later: int)
    requires now <= later
    requires Expired(timeout, stamp, now)
    ensures Expired(timeout, stamp, later)
  {
  }

  // ---------------------------------------------------------------------
  // The component

  class MitsubishiHeatPump {
    var mode: ClimateMode
    var action: ClimateAction
    var fanMode: Option<ClimateFanMode>
    var swingMode: ClimateSwingMode
    var targetTemperature: Temperature
    var currentTemperature: Temperature

    var coolSetpoint: Option<real>
    var heatSetpoint: Option<real>
    var autoSetpoint: Option<real>
    // the byte last written to each preference; None when never written
    var coolStorage: Option<Byte>
    var heatStorage: Option<Byte>
    var autoStorage: Option<Byte>

    var verticalSwingState: string
    var horizontalSwingState: string

    var remoteTemperature: real
    var operating: bool
    // durations and time stamps in milliseconds
    var remoteOperatingTimeout: Option<int>
    var remoteIdleTimeout: Option<int>
    var remotePingTimeout: Option<int>
    var remotePublishFrequency: Option<int>
    var lastRemoteTemperaturePublish: Option<int>
    var lastRemoteTemperatureSensorUpdate: Option<int>
    var lastPingRequest: Option<int>

    /**
     * The remote temperature is never negative, and it is nonzero exactly
     * when a sensor update time stamp is held.
     */
    ghost predicate Valid()
      reads this`remoteTemperature, this`lastRemoteTemperatureSensorUpdate
    {
      remoteTemperature >= 0.0 &&
      (remoteTemperature > 0.0 <==> lastRemoteTemperatureSensorUpdate.Some?)
    }

    /**
     * The component as its constructor and `setup` leave it: temperatures
     * unknown (NaN), fan OFF, swing OFF, both vane selects on "auto", no
     * remote temperature, a ping at `now`, and each mode's setpoint loaded
     * from the byte stored in its preference.
     */
    constructor (now: int, coolStored: Option<Byte>, heatStored: Option<Byte>, autoStored: Option<Byte>)
      ensures Valid()
      ensures mode == ClimateMode.Off && action == ClimateAction.Off
      ensures fanMode == Some(ClimateFanMode.Off) && swingMode == ClimateSwingMode.Off
      ensures targetTemperature == None && currentTemperature == None
      ensures coolSetpoint == LoadSetpoint(coolStored)
      ensures heatSetpoint == LoadSetpoint(heatStored)
      ensures autoSetpoint == LoadSetpoint(autoStored)
      ensures coolStorage == coolStored && heatStorage == heatStored && autoStorage == autoStored
      ensures verticalSwingState == "auto" && horizontalSwingState == "auto"
      ensures remoteTemperature == 0.0 && !operating
      ensures remoteOperatingTimeout == None && remoteIdleTimeout == None
      ensures remotePingTimeout == None && remotePublishFrequency == None
      ensures lastRemoteTemperaturePublish == None && lastRemoteTemperatureSensorUpdate == None
      ensures lastPingRequest == Some(now)
    {
      mode := ClimateMode.Off;
      action := ClimateAction.Off;
      fanMode := Some(ClimateFanMode.Off);
      swingMode := ClimateSwingMode.Off;
      targetTemperature := None;
      currentTemperature := None;
      coolStorage := coolStored;
      heatStorage := heatStored;
      autoStorage := autoStored;
      coolSetpoint := LoadSetpoint(coolStored);
      heatSetpoint := LoadSetpoint(heatStored);
      autoSetpoint := LoadSetpoint(autoStored);
      verticalSwingState := "auto";
      horizontalSwingState := "auto";
      remoteTemperature := 0.0;
      operating := false;
      remoteOperatingTimeout := None;
      remoteIdleTimeout := None;
      remotePingTimeout := None;
      remotePublishFrequency := None;
      lastRemoteTemperaturePublish := None;
      lastRemoteTemperatureSensorUpdate := None;
      lastPingRequest := Some(now);
    }

    /**
     * `control`: applies a user request and returns the settings it asked
     * the unit for. The mode switch runs on the current mode whether or not
     * the request sets one, so an active mode is re-sent with power "ON";
     * a request that changes the mode also sets its default action and,
     * without an explicit target, restores that mode's saved setpoint. An
     * explicit target always wins, a fan request of OFF powers the unit
     * off, and a held remote-sensor time stamp is renewed to `now`.
     */
    method Control(call: ClimateCall, now: int) returns (sent: Requests)
      requires Valid()
      modifies this`mode, this`action, this`targetTemperature, this`fanMode, this`swingMode,
        this`lastRemoteTemperatureSensorUpdate
      ensures Valid()
      ensures mode == call.mode.GetOr(old(mode))
      ensures action == if call.mode.Some? then ModeAction(mode) else old(action)
      ensures lastRemoteTemperatureSensorUpdate ==
        if old(lastRemoteTemperatureSensorUpdate).Some? then Some(now) else None
      ensures sent.mode == ModeSetting(mode)
      ensures sent.power ==
        if call.fanMode == Some(ClimateFanMode.Off) then Some("OFF")
        else if ModeSetting(mode).Some? then Some("ON")
        else if call.mode.Some? then Some("OFF")
        else None
      ensures var restored :=
          if call.mode.Some? && call.targetTemperature.None?
          then SavedSetpoint(mode, coolSetpoint, heatSetpoint, autoSetpoint) else None;
        sent.temperature == (if call.targetTemperature.Some? then call.targetTemperature else restored) &&
        targetTemperature ==
          (if call.targetTemperature.Some? then call.targetTemperature
           else if restored.Some? then restored
           else old(targetTemperature))
      ensures fanMode == if call.fanMode.Some? then call.fanMode else old(fanMode)
      ensures sent.fan == if call.fanMode.Some? then FanSpeedSetting(call.fanMode.value) else None
      ensures swingMode == call.swingMode.GetOr(old(swingMode))
      ensures sent.vane == if call.swingMode.Some? then Some(SwingVanes(call.swingMode.value).0) else None
      ensures sent.wideVane == if call.swingMode.Some? then Some(SwingVanes(call.swingMode.value).1) else None
    {
      var hasMode := call.mode.Some?;
      var hasTemp := call.targetTemperature.Some?;
      if hasMode {
        mode := call.mode.value;
      }

      var modePart := ControlMode(hasMode, hasTemp);

      var temperature := modePart.temperature;
      if hasTemp {
        temperature := call.targetTemperature;
        targetTemperature := call.targetTemperature;
      }

      var speed, powerOff := ControlFan(call.fanMode);
      var power := if powerOff then Some("OFF") else modePart.power;
      var vane, wideVane := ControlSwing(call.swingMode);

      sent := Requests(power, modePart.mode, temperature, speed, vane, wideVane);
      RenewSensorStamp(now);
    }

    /**
     * The part of `control` that gives a remote sensor the chance to report
     * after a setpoint change: a held sensor time stamp is renewed to `now`.
     */
    method RenewSensorStamp(now: int)
      requires Valid()
      modifies this`lastRemoteTemperatureSensorUpdate
      ensures Valid()
      ensures lastRemoteTemperatureSensorUpdate ==
        if old(lastRemoteTemperatureSensorUpdate).Some? then Some(now) else None
    {
      if lastRemoteTemperatureSensorUpdate.Some? {
        lastRemoteTemperatureSensorUpdate := Some(now);
      }
    }

    /**
     * The fan part of `control`: a requested fan mode is taken, and either
     * sent as a fan speed or, for OFF, answered by powering the unit off.
     */
    method ControlFan(fan: Option<ClimateFanMode>) returns (speed: Option<string>, powerOff: bool)
      modifies this`fanMode
      ensures fanMode == if fan.Some? then fan else old(fanMode)
      ensures speed == if fan.Some? then FanSpeedSetting(fan.value) else None
      ensures powerOff <==> fan == Some(ClimateFanMode.Off)
    {
      speed, powerOff := None, false;
      if fan.Some? {
        fanMode := fan;
        speed := FanSpeedSetting(fan.value);
        powerOff := speed.None?;
      }
    }

    /** The swing part of `control`: a requested swing mode is taken and sent as its two vane settings. */
    method ControlSwing(swing: Option<ClimateSwingMode>) returns (vane: Option<string>, wideVane: Option<string>)
      modifies this`swingMode
      ensures swingMode == swing.GetOr(old(swingMode))
      ensures vane == if swing.Some? then Some(SwingVanes(swing.value).0) else None
      ensures wideVane == if swing.Some? then Some(SwingVanes(swing.value).1) else None
    {
      vane, wideVane := None, None;
      if swing.Some? {
        swingMode := swing.value;
        var vanes := SwingVanes(swingMode);
        vane, wideVane := Some(vanes.0), Some(vanes.1);
      }
    }

    /**
     * The mode part of `control`, run once the requested mode (if any) is
     * in place: an active mode is sent with power "ON"; the OFF/default
     * branch powers off only on a mode request. A mode request sets the
     * mode's default action and, without an explicit target, restores the
     * mode's saved setpoint.
     */
    method ControlMode(hasMode: bool, hasTemp: bool) returns (sent: Requests)
      modifies this`action, this`targetTemperature
      ensures action == if hasMode then ModeAction(mode) else old(action)
      ensures sent.mode == ModeSetting(mode)
      ensures sent.power ==
        if ModeSetting(mode).Some? then Some("ON") else if hasMode then Some("OFF") else None
      ensures var restored :=
          if hasMode && !hasTemp then SavedSetpoint(mode, coolSetpoint, heatSetpoint, autoSetpoint) else None;
        sent.temperature == restored &&
        targetTemperature == if restored.Some? then restored else old(targetTemperature)
      ensures sent.fan == None && sent.vane == None && sent.wideVane == None
    {
      sent := NoRequests;
      var modeSetting := ModeSetting(mode);
      if modeSetting.Some? {
        sent := sent.(mode := modeSetting, power := Some("ON"));
      } else if hasMode {
        sent := sent.(power := Some("OFF"));
      }
      if hasMode {
        var saved := SavedSetpoint(mode, coolSetpoint, heatSetpoint, autoSetpoint);
        if saved.Some? && !hasTemp {
          sent := sent.(temperature := saved);
          targetTemperature := saved;
        }
        action := ModeAction(mode);
      }
    }

    /**
     * `hpSettingsChanged`: reads a settings snapshot of the unit into the
     * climate state. Until the unit has reported (NULL power) nothing
     * changes. A HEAT, COOL or AUTO setting also becomes that mode's saved
     * setpoint, and is written to flash when it differs from the saved one.
     */
    method SettingsChanged(settings: Settings)
      modifies this`mode, this`action, this`fanMode, this`swingMode, this`targetTemperature,
        this`coolSetpoint, this`heatSetpoint, this`autoSetpoint,
        this`coolStorage, this`heatStorage, this`autoStorage,
        this`verticalSwingState, this`horizontalSwingState
      ensures settings.power.None? ==> unchanged(this)
      ensures settings.power.Some? ==>
        var decoded := DecodeMode(settings.power.value, settings.mode);
        var t := settings.temperature;
        mode == decoded.GetOr(old(mode)) &&
        action == (if decoded.Some? then ModeAction(decoded.value) else old(action)) &&
        coolSetpoint == (if decoded == Some(ClimateMode.Cool) then Some(t) else old(coolSetpoint)) &&
        heatSetpoint == (if decoded == Some(ClimateMode.Heat) then Some(t) else old(heatSetpoint)) &&
        autoSetpoint == (if decoded == Some(ClimateMode.HeatCool) then Some(t) else old(autoSetpoint)) &&
        coolStorage == (if decoded == Some(ClimateMode.Cool) && old(coolSetpoint) != Some(t)
                        then Some(SetpointSteps(t)) else old(coolStorage)) &&
        heatStorage == (if decoded == Some(ClimateMode.Heat) && old(heatSetpoint) != Some(t)
                        then Some(SetpointSteps(t)) else old(heatStorage)) &&
        autoStorage == (if decoded == Some(ClimateMode.HeatCool) && old(autoSetpoint) != Some(t)
                        then Some(SetpointSteps(t)) else old(autoStorage)) &&
        fanMode == Some(DecodeFan(settings.fan)) &&
        swingMode == DecodeSwing(settings.vane, settings.wideVane) &&
        verticalSwingState == VerticalVaneName(settings.vane).GetOr(old(verticalSwingState)) &&
        horizontalSwingState == HorizontalVaneName(settings.wideVane).GetOr(old(horizontalSwingState)) &&
        targetTemperature == Some(t)
    {
      if settings.power.None? {
        return;
      }

      var t := settings.temperature;
      var decoded := DecodeMode(settings.power.value, settings.mode);
      if decoded.Some? {
        mode := decoded.value;
        StoreSetpoint(mode, t);
        action := ModeAction(mode);
      }

      ReadFanAndVanes(settings);
      targetTemperature := Some(t);
    }

    /**
     * The saved-setpoint part of `hpSettingsChanged`: in HEAT, COOL and
     * HEAT_COOL the reported temperature becomes that mode's setpoint, and
     * is saved to its preference when it differs from the one held.
     */
    method StoreSetpoint(m: ClimateMode, t: real)
      modifies this`coolSetpoint, this`heatSetpoint, this`autoSetpoint,
        this`coolStorage, this`heatStorage, this`autoStorage
      ensures coolSetpoint == if m == ClimateMode.Cool then Some(t) else old(coolSetpoint)
      ensures heatSetpoint == if m == ClimateMode.Heat then Some(t) else old(heatSetpoint)
      ensures autoSetpoint == if m == ClimateMode.HeatCool then Some(t) else old(autoSetpoint)
      ensures coolStorage ==
        if m == ClimateMode.Cool && old(coolSetpoint) != Some(t) then Some(SetpointSteps(t)) else old(coolStorage)
      ensures heatStorage ==
        if m == ClimateMode.Heat && old(heatSetpoint) != Some(t) then Some(SetpointSteps(t)) else old(heatStorage)
      ensures autoStorage ==
        if m == ClimateMode.HeatCool && old(autoSetpoint) != Some(t) then Some(SetpointSteps(t)) else old(autoStorage)
    {
      match m {
      case Heat =>
        if heatSetpoint != Some(t) {
          heatSetpoint := Some(t);
          heatStorage := Some(SetpointSteps(t));
        }
      case Cool =>
        if coolSetpoint != Some(t) {
          coolSetpoint := Some(t);
          coolStorage := Some(SetpointSteps(t));
        }
      case HeatCool =>
        if autoSetpoint != Some(t) {
          autoSetpoint := Some(t);
          autoStorage := Some(SetpointSteps(t));
        }
      case _ =>
      }
    }

    /**
     * The fan, swing and vane part of `hpSettingsChanged`: the fan and swing
     * modes are decoded, and each vane select takes the position name of
     * the reported vane when it is a known one.
     */
    method ReadFanAndVanes(settings: Settings)
      modifies this`fanMode, this`swingMode, this`verticalSwingState, this`horizontalSwingState
      ensures fanMode == Some(DecodeFan(settings.fan))
      ensures swingMode == DecodeSwing(settings.vane, settings.wideVane)
      ensures verticalSwingState == VerticalVaneName(settings.vane).GetOr(old(verticalSwingState))
      ensures horizontalSwingState == HorizontalVaneName(settings.wideVane).GetOr(old(horizontalSwingState))
    {
      fanMode := Some(DecodeFan(settings.fan));
      swingMode := DecodeSwing(settings.vane, settings.wideVane);

      var vertical := VerticalVaneName(settings.vane);
      if vertical.Some? {
        verticalSwingState := vertical.value;
      }
      var horizontal := HorizontalVaneName(settings.wideVane);
      if horizontal.Some? {
        horizontalSwingState := horizontal.value;
      }
    }

    /**
     * `hpStatusChanged`: takes the room temperature, derives the action from
     * the mode and the operating flag, and records the flag for the remote
     * sensor timeouts.
     */
    method StatusChanged(status: Status)
      modifies this`currentTemperature, this`action, this`operating
      ensures currentTemperature == Some(status.roomTemperature)
      ensures action == StatusAction(mode, status.operating, currentTemperature, targetTemperature)
      ensures operating == status.operating
    {
      currentTemperature := Some(status.roomTemperature);
      match mode {
      case Heat =>
        if status.operating {
          action := ClimateAction.Heating;
        } else {
          action := ClimateAction.Idle;
        }
      case Cool =>
        if status.operating {
          action := ClimateAction.Cooling;
        } else {
          action := ClimateAction.Idle;
        }
      case HeatCool =>
        action := ClimateAction.Idle;
        if status.operating {
          if Greater(currentTemperature, targetTemperature) {
            action := ClimateAction.Cooling;
          } else if Less(currentTemperature, targetTemperature) {
            action := ClimateAction.Heating;
          }
        }
      case Dry =>
        if status.operating {
          action := ClimateAction.Drying;
        } else {
          action := ClimateAction.Idle;
        }
      case FanOnly =>
        action := ClimateAction.Fan;
      case _ =>
        action := ClimateAction.Off;
      }
      operating := status.operating;
    }

    /**
     * `set_remote_temperature`: a new positive reading is stored and stamped;
     * a new zero or negative reading stores 0 and drops the stamp. The unit
     * is told (the result) when the reading is new, or when a refresh is
     * due and the stored reading is nonzero; a repeated 0.0 reading is thus
     * not resent.
     */
    method SetRemoteTemperature(temp: real, now: int) returns (told: Option<real>)
      requires Valid()
      modifies this`remoteTemperature, this`lastRemoteTemperatureSensorUpdate, this`lastRemoteTemperaturePublish
      ensures Valid()
      ensures var isNew := old(remoteTemperature) != temp;
        (isNew && temp > 0.0 ==> remoteTemperature == temp && lastRemoteTemperatureSensorUpdate == Some(now)) &&
        (isNew && temp <= 0.0 ==> remoteTemperature == 0.0 && lastRemoteTemperatureSensorUpdate == None) &&
        (!isNew ==> remoteTemperature == old(remoteTemperature) &&
                    lastRemoteTemperatureSensorUpdate == old(lastRemoteTemperatureSensorUpdate)) &&
        (told.Some? <==>
           (isNew || (RefreshDue(old(lastRemoteTemperaturePublish), remotePublishFrequency, now) && remoteTemperature != 0.0)))
      ensures told.Some? ==> told.value == remoteTemperature && lastRemoteTemperaturePublish == Some(now)
      ensures told.None? ==> lastRemoteTemperaturePublish == old(lastRemoteTemperaturePublish)
    {
      var isTempNew := remoteTemperature != temp;
      if isTempNew {
        if temp > 0.0 {
          remoteTemperature := temp;
          lastRemoteTemperatureSensorUpdate := Some(now);
        } else {
          remoteTemperature := 0.0;
          lastRemoteTemperatureSensorUpdate := None;
        }
      }

      var timeSinceLastPublish :=
        if lastRemoteTemperaturePublish.Some? then now - lastRemoteTemperaturePublish.value
        else NeverPublished;
      var refreshRemoteTemp :=
        if remotePublishFrequency.Some? then timeSinceLastPublish >= remotePublishFrequency.value
        else false;

      told := None;
      if isTempNew || (refreshRemoteTemp && remoteTemperature != 0.0) {
        told := Some(remoteTemperature);
        lastRemoteTemperaturePublish := Some(now);
      }
    }

    /** `ping`: the controller is alive at `now`. */
    method Ping(now: int)
      modifies this`lastPingRequest
      ensures lastPingRequest == Some(now)
    {
      lastPingRequest := Some(now);
    }

    /** `set_remote_publish_frequency_seconds`. */
    method SetRemotePublishFrequencySeconds(seconds: int)
      modifies this`remotePublishFrequency
      ensures remotePublishFrequency == Some(seconds * MillisPerSecond)
    {
      remotePublishFrequency := Some(seconds * MillisPerSecond);
    }

    /** `set_remote_operating_timeout_minutes`. */
    method SetRemoteOperatingTimeoutMinutes(minutes: int)
      modifies this`remoteOperatingTimeout
      ensures remoteOperatingTimeout == Some(minutes * MillisPerMinute)
    {
      remoteOperatingTimeout := Some(minutes * MillisPerMinute);
    }

    /** `set_remote_idle_timeout_minutes`. */
    method SetRemoteIdleTimeoutMinutes(minutes: int)
      modifies this`remoteIdleTimeout
      ensures remoteIdleTimeout == Some(minutes * MillisPerMinute)
    {
      remoteIdleTimeout := Some(minutes * MillisPerMinute);
    }

    /** `set_remote_ping_timeout_minutes`. */
    method SetRemotePingTimeoutMinutes(minutes: int)
      modifies this`remotePingTimeout
      ensures remotePingTimeout == Some(minutes * MillisPerMinute)
    {
      remotePingTimeout := Some(minutes * MillisPerMinute);
    }

    /**
     * `enforce_remote_temperature_sensor_timeout`: when no ping arrived
     * within the ping timeout, the remote temperature is forced to 0 and the
     * ping is forgotten, and nothing else is checked. Otherwise, when the
     * last sensor reading is older than the operating or the idle timeout
     * (chosen by the unit's operating flag), the remote temperature is
     * forced to 0. A forced 0 reaches the unit only when the reading was
     * nonzero, and afterwards no sensor stamp is held.
     */
    method EnforceRemoteTemperatureSensorTimeout(now: int) returns (told: Option<real>)
      requires Valid()
      modifies this`remoteTemperature, this`lastRemoteTemperatureSensorUpdate,
        this`lastRemoteTemperaturePublish, this`lastPingRequest
      ensures Valid()
      ensures var pingExpired := Expired(remotePingTimeout, old(lastPingRequest), now);
        var timeout := if operating then remoteOperatingTimeout else remoteIdleTimeout;
        var sensorExpired := !pingExpired && Expired(timeout, old(lastRemoteTemperatureSensorUpdate), now);
        (lastPingRequest == if pingExpired then None else old(lastPingRequest)) &&
        (pingExpired || sensorExpired ==>
           remoteTemperature == 0.0 && lastRemoteTemperatureSensorUpdate == None &&
           (told.Some? <==> old(remoteTemperature) != 0.0) &&
           (told.Some? ==> told.value == 0.0 && lastRemoteTemperaturePublish == Some(now)) &&
           (told.None? ==> lastRemoteTemperaturePublish == old(lastRemoteTemperaturePublish))) &&
        (!pingExpired && !sensorExpired ==>
           told.None? &&
           remoteTemperature == old(remoteTemperature) &&
           lastRemoteTemperatureSensorUpdate == old(lastRemoteTemperatureSensorUpdate) &&
           lastRemoteTemperaturePublish == old(lastRemoteTemperaturePublish))
    {
      told := None;
      if remotePingTimeout.Some? && lastPingRequest.Some? {
        var timeSinceLastPing := now - lastPingRequest.value;
        if timeSinceLastPing > remotePingTimeout.value {
          told := SetRemoteTemperature(0.0, now);
          lastPingRequest := None;
          return;
        }
      }

      var remoteSetTemperatureTimeout := if operating then remoteOperatingTimeout else remoteIdleTimeout;
      if remoteSetTemperatureTimeout.Some? && lastRemoteTemperatureSensorUpdate.Some? {
        var timeSinceLastTemperatureUpdate := now - lastRemoteTemperatureSensorUpdate.value;
        if timeSinceLastTemperatureUpdate > remoteSetTemperatureTimeout.value {
          told := SetRemoteTemperature(0.0, now);
          return;
        }
      }
    }
  }

  /**
   * A zero reading reaches the unit only once: the first report of zero is
   * sent exactly when the stored reading was nonzero, and a repeated zero
   * is never sent, however much later it comes.
   */
  method RepeatedZeroNotResent(hp: MitsubishiHeatPump, now: int, later: int) returns (first: Option<real>, second: Option<real>)
    requires hp.Valid()
    modifies hp
    ensures hp.Valid()
    ensures first.Some? <==> old(hp.remoteTemperature) != 0.0
    ensures first.Some? ==> first.value == 0.0
    ensures second.None?
    ensures hp.remoteTemperature == 0.0 && hp.lastRemoteTemperatureSensorUpdate.None?
  {
    first := hp.SetRemoteTemperature(0.0, now);
    second := hp.SetRemoteTemperature(0.0, later);
  }
}
