# Mitsubishi heat pump climate component, modelled in Dafny

This project models the ESPHome climate component that drives Mitsubishi
heat pumps through the SwiCago `HeatPump` library. The model covers four parts:

- **The climate component** (`components/mitsubishi_heatpump/espmhp.cpp`).
  - `control` turns a Home Assistant climate request into library settings. It also restores the saved setpoint of the chosen mode.
  - `hpSettingsChanged` reads the unit's settings back into climate mode, fan, swing, vane positions and target. It also saves the per-mode setpoint.
  - `hpStatusChanged` derives the displayed action.
  - The remote temperature sensor logic publishes, refreshes and times out remote readings.
  - `save` and `load` store a setpoint as one byte: the number of half-degree steps above 16 °C.
- **The PID controller** (`components/mitsubishi_heatpump/pidcontroller.cpp`). It is a discrete controller with a clamped output and a clamped integral sum (anti-windup). It is modelled as a class with the same fields.
- **The device-state summary** (`components/mitsubishi_heatpump/devicestate.cpp`).
- **The older single-file component** (`espmhp.cpp`). It has no remote sensor and no saved setpoints, and it derives its action from the temperatures.

Modules:

- `Wrappers`: `Option`.
- `Climate`: the ESPHome enums and the climate call. `Less` and `Greater` compare temperatures that may be NaN.
- `HeatPumpLib`: the library's settings and status snapshots, and `Requests`, the record of the setter calls one handler makes.
- `PidController`, `Espmhp`, `Devicestate` and `LegacyEspmhp`: the four parts above.

Modelling conventions:

- Temperatures and PID values are `real`.
- A float that may be NaN is an `Option<real>`, where `None` stands for NaN.
- The library's setters become the returned `Requests` value. Each field holds the last value passed to that setter, or `None` when the setter was not called.
- `steady_clock::now()` becomes an integer argument `now`, in milliseconds.
- Stored preferences become `Option<Byte>` fields, where `None` means nothing was stored.

## Model

| member | source | states |
|---|---|---|
| PidController.ApplyOutputLimits | components/mitsubishi_heatpump/pidcontroller.cpp:28-36 | With ordered limits the result lies within them; a value already inside is returned unchanged; the result is the value or one of the limits |
| PidController.ApplyOutputLimitsIdempotent | components/mitsubishi_heatpump/pidcontroller.cpp:28-36 | Clamping an already clamped value changes nothing |
| PidController.ApplyOutputLimitsMonotonic | components/mitsubishi_heatpump/pidcontroller.cpp:28-36 | Clamping preserves the order of two values |
| PidController.NextOutputSum | components/mitsubishi_heatpump/pidcontroller.cpp:60-62 | Anti-windup on one step: the new integral sum stays within ordered limits. From a sum inside the limits, a non-negative ki*error never lowers it and a non-positive one never raises it. An unclamped result is exactly sum + ki*error. A sum pinned at a limit stays there while the increment pushes outward |
| PidController.IntegralSumAfter | components/mitsubishi_heatpump/pidcontroller.cpp:60-62 | Anti-windup over n updates with the same error: from a sum inside ordered limits, a non-negative ki*error keeps the sum between its start and the upper limit, and a non-positive one between the lower limit and its start |
| PidController.IntegralSumMonotone | components/mitsubishi_heatpump/pidcontroller.cpp:60-62 | Over such a run every further update moves the integral sum in the direction of ki*error only, never back |
| PidController.StepOutput | components/mitsubishi_heatpump/pidcontroller.cpp:66-72 | The output stays within ordered limits; equals kp*error + sum - derivative when that lies inside; with no derivative it is the clamp of kp*error + sum |
| PidController.DerivativeTerm | components/mitsubishi_heatpump/pidcontroller.cpp:39-70 | The derivative term is zero when there is no previous input, and kd times the change of the input otherwise |
| PidController.SampleSeconds | components/mitsubishi_heatpump/pidcontroller.cpp:93-108 | The sample time in seconds is positive and is the millisecond sample time divided by 1000 |
| PidController.PIDController.constructor | components/mitsubishi_heatpump/pidcontroller.cpp:9-26 | Stores p, i, d, the sample time, the limits and the target; the gains follow from them; the integral sum is clamp(0) and no input is remembered; output and sum lie within the limits |
| PidController.PIDController.SetTunings | components/mitsubishi_heatpump/pidcontroller.cpp:98-109 | kp = p, ki = i*s and kd = d/s for the sample time s in seconds, and no other field changes |
| PidController.PIDController.Update | components/mitsubishi_heatpump/pidcontroller.cpp:38-80 | Keeps output and sum within the limits. The new sum is NextOutputSum of the old sum and ki*(target - input). The output is StepOutput with the derivative taken against the previous input. That input becomes the remembered one, and the result is the output |
| PidController.PIDController.SetOutputLimits | components/mitsubishi_heatpump/pidcontroller.cpp:82-91 | An inverted pair changes nothing; otherwise both limits are set exactly and output and sum are re-clamped to them |
| PidController.PIDController.GetOutputMin | components/mitsubishi_heatpump/pidcontroller.cpp:111-113 | Returns the stored lower limit |
| PidController.PIDController.GetOutputMax | components/mitsubishi_heatpump/pidcontroller.cpp:115-117 | Returns the stored upper limit |
| PidController.PIDController.GetTarget | components/mitsubishi_heatpump/pidcontroller.cpp:119-121 | Returns the stored target |
| PidController.PIDController.SetTarget | components/mitsubishi_heatpump/pidcontroller.cpp:123-126 | Sets the target, restarts the integral sum at clamp(0), forgets the last input, and keeps the bounds invariant |
| PidController.PIDController.ResetState | components/mitsubishi_heatpump/pidcontroller.cpp:128-131 | The integral sum becomes clamp(0) and the last input is forgotten |
| PidController.ProportionalStep | components/mitsubishi_heatpump/pidcontroller.cpp:38-80 | Through the constructor (lines 9-26) and one update: with p=1, i=d=0, target 70 and limits of ±100, update(60) returns 10 |
| PidController.FirstUpdateAfterTarget | components/mitsubishi_heatpump/pidcontroller.cpp:123-131 | Right after setTarget, update returns clamp(kp*error + clamp(clamp(0) + ki*error)), with no derivative term |
| Espmhp.ModeSetting | components/mitsubishi_heatpump/espmhp.cpp:270-331 | A mode string is sent, with power ON, exactly for COOL, HEAT, DRY, HEAT_COOL and FAN_ONLY, and it is one of the library's mode strings |
| Espmhp.DecodeMode | components/mitsubishi_heatpump/espmhp.cpp:447-485 | Power other than "ON" reads as OFF; a powered unit reads as an active mode, or as no change exactly for a mode string outside HEAT, DRY, COOL, FAN, AUTO |
| Espmhp.ModeAction | components/mitsubishi_heatpump/espmhp.cpp:447-485 | The action set with a mode (here and in the mode switch of control, lines 270-331) is OFF exactly when the mode sends no mode string, and otherwise IDLE, DRYING or FAN |
| Espmhp.ModeRoundTrip | components/mitsubishi_heatpump/espmhp.cpp:447-485 | Every mode control sends (lines 270-331) with power ON decodes back to itself |
| Espmhp.ModeStringRoundTrip | components/mitsubishi_heatpump/espmhp.cpp:270-331 | Every mode string the settings handler decodes (lines 447-485) is the one control sends for the decoded mode |
| Espmhp.SettingsActions | components/mitsubishi_heatpump/espmhp.cpp:447-485 | The settings handler gives DRY the action DRYING, FAN_ONLY the action FAN, OFF the action OFF, and the other modes IDLE |
| Espmhp.StatusAction | components/mitsubishi_heatpump/espmhp.cpp:575-615 | Heating and cooling only while operating and only in their modes (HEAT_COOL included); DRYING exactly when operating in DRY; FAN exactly in FAN_ONLY; OFF exactly outside the five active modes; idle units never heat, cool or dry |
| Espmhp.SingleModeActions | components/mitsubishi_heatpump/espmhp.cpp:575-615 | In HEAT, COOL and DRY the action is IDLE exactly when not operating, whatever the temperatures |
| Espmhp.HeatCoolAction | components/mitsubishi_heatpump/espmhp.cpp:593-601 | In HEAT_COOL an operating unit cools exactly above the target and heats exactly below it; it idles otherwise, also when either temperature is NaN |
| Espmhp.SavedSetpoint | components/mitsubishi_heatpump/espmhp.cpp:270-331 | COOL, HEAT and HEAT_COOL restore exactly their own saved setpoint (none when that mode has none saved); every other mode restores nothing |
| Espmhp.FanSpeedSetting | components/mitsubishi_heatpump/espmhp.cpp:349-379 | Only OFF sends no fan speed; every speed sent is one of QUIET, 1, 2, 3, 4, AUTO; ON, AUTO, FOCUS and QUIET send AUTO |
| Espmhp.DecodeFan | components/mitsubishi_heatpump/espmhp.cpp:494-506 | The unit's fan string reads as DIFFUSE, LOW, MEDIUM, MIDDLE, HIGH or AUTO, and as AUTO for anything unrecognised |
| Espmhp.FanRoundTrip | components/mitsubishi_heatpump/espmhp.cpp:494-506 | Sent by control (lines 349-379) and read back: DIFFUSE, LOW, MEDIUM, MIDDLE, HIGH and AUTO decode back to themselves |
| Espmhp.FanStringRoundTrip | components/mitsubishi_heatpump/espmhp.cpp:345-380 | Every fan string control can send encodes back to itself |
| Espmhp.SwingVanes | components/mitsubishi_heatpump/espmhp.cpp:391-411 | The vane swings exactly for VERTICAL and BOTH, the wide vane exactly for HORIZONTAL and BOTH |
| Espmhp.DecodeSwing | components/mitsubishi_heatpump/espmhp.cpp:512-521 | BOTH, VERTICAL, HORIZONTAL and OFF are read exactly from which of the two vanes report SWING |
| Espmhp.SwingRoundTrip | components/mitsubishi_heatpump/espmhp.cpp:512-521 | Every swing mode control sends as vanes (lines 391-411) decodes back to itself |
| Espmhp.VerticalVaneCode | components/mitsubishi_heatpump/espmhp.cpp:168-201 | A vane setting is sent exactly for the seven known position names, and it is one of the seven vane codes |
| Espmhp.VerticalVaneName | components/mitsubishi_heatpump/espmhp.cpp:523-537 | A position name is published exactly for the seven known vane codes |
| Espmhp.VerticalVaneRoundTrip | components/mitsubishi_heatpump/espmhp.cpp:523-537 | Names (the select's, lines 172-195) and vane codes correspond one to one, in both directions |
| Espmhp.HorizontalVaneCode | components/mitsubishi_heatpump/espmhp.cpp:203-236 | A wide-vane setting is sent exactly for the seven known position names, and it is one of the seven wide-vane codes |
| Espmhp.HorizontalVaneName | components/mitsubishi_heatpump/espmhp.cpp:541-555 | A position name is published exactly for the seven known wide-vane codes |
| Espmhp.HorizontalVaneRoundTrip | components/mitsubishi_heatpump/espmhp.cpp:541-555 | Names (the select's, lines 207-229) and wide-vane codes correspond one to one, in both directions |
| Espmhp.Truncate | components/mitsubishi_heatpump/espmhp.cpp:787 | The float-to-integer conversion rounds toward zero |
| Espmhp.SetpointSteps | components/mitsubishi_heatpump/espmhp.cpp:786-789 | The byte saved is in 0..255; for a setpoint from 16 up to 144 it is the count of whole half-degree steps above 16 |
| Espmhp.LoadSetpoint | components/mitsubishi_heatpump/espmhp.cpp:791-797 | Nothing stored loads as none; a stored byte loads as a setpoint between 16 and 143.5 |
| Espmhp.SaveLoadRoundTrip | components/mitsubishi_heatpump/espmhp.cpp:786-797 | Every setpoint 16 + 0.5k with 0 <= k <= 255 is saved and loaded back exactly |
| Espmhp.SaveRoundsDown | components/mitsubishi_heatpump/espmhp.cpp:786-797 | A saved setpoint from 16 up to 144 loads back as the highest half-degree grid point at or below it: at most half a degree lower, never higher |
| Espmhp.RefreshDue | components/mitsubishi_heatpump/espmhp.cpp:639-646 | A refresh is due only with a publish frequency; with nothing published yet it is due exactly when the frequency is at most 99999999 seconds; right after a publish only for a non-positive frequency |
| Espmhp.RefreshStaysDue | components/mitsubishi_heatpump/espmhp.cpp:639-646 | Once due, a refresh stays due at every later time until the next publish |
| Espmhp.Expired | components/mitsubishi_heatpump/espmhp.cpp:685-703 | A timeout (the ping one at lines 685-688, the sensor one at lines 699-703) expires only when both the timeout and its stamp are held, and never at the moment of a fresh stamp with a non-negative timeout |
| Espmhp.ExpiredStaysExpired | components/mitsubishi_heatpump/espmhp.cpp:685-703 | An expired timeout stays expired at every later time for the same stamp |
| Espmhp.MitsubishiHeatPump.constructor | components/mitsubishi_heatpump/espmhp.cpp:711-779 | The component after construction (with its ping, lines 31-48) and setup: mode and action OFF (an assumption, see below), temperatures NaN, remote temperature 0, fan OFF, swing OFF, vane selects "auto", a ping at now, and each setpoint loaded from its stored byte |
| Espmhp.MitsubishiHeatPump.Control | components/mitsubishi_heatpump/espmhp.cpp:243-423 | The whole new state and the settings sent. The mode switch runs on the current mode even without a mode request. A mode request sets its default action and restores its saved setpoint unless a target is given, and a given target always wins. Fan OFF powers off, swing sends both vanes, and a held sensor stamp is renewed |
| Espmhp.MitsubishiHeatPump.RenewSensorStamp | components/mitsubishi_heatpump/espmhp.cpp:253-267 | A held remote-sensor stamp becomes now; none stays none |
| Espmhp.MitsubishiHeatPump.ControlFan | components/mitsubishi_heatpump/espmhp.cpp:345-380 | A fan request is stored and sent as its speed, or powers off for OFF |
| Espmhp.MitsubishiHeatPump.ControlSwing | components/mitsubishi_heatpump/espmhp.cpp:386-413 | A swing request is stored and sent as its vane pair |
| Espmhp.MitsubishiHeatPump.ControlMode | components/mitsubishi_heatpump/espmhp.cpp:269-331 | Mode string and power for the current mode, the default action and the restored setpoint on a mode request |
| Espmhp.MitsubishiHeatPump.SettingsChanged | components/mitsubishi_heatpump/espmhp.cpp:425-569 | NULL power changes nothing. Otherwise the whole new state: mode and action from DecodeMode, that mode's setpoint (saved to its byte only when it changed), fan, swing, known vane positions, and the target |
| Espmhp.MitsubishiHeatPump.StoreSetpoint | components/mitsubishi_heatpump/espmhp.cpp:448-475 | HEAT, COOL and AUTO readings become that mode's setpoint, and are saved only when they differ from the held one |
| Espmhp.MitsubishiHeatPump.ReadFanAndVanes | components/mitsubishi_heatpump/espmhp.cpp:488-557 | Fan and swing are decoded; each vane select takes the reported position when it is a known one and keeps its state otherwise |
| Espmhp.MitsubishiHeatPump.StatusChanged | components/mitsubishi_heatpump/espmhp.cpp:574-621 | The room temperature is taken, the action is StatusAction of the mode, operating flag and temperatures, and the operating flag is recorded |
| Espmhp.MitsubishiHeatPump.SetRemoteTemperature | components/mitsubishi_heatpump/espmhp.cpp:623-656 | A new positive reading is stored and stamped; a new non-positive one stores 0 and drops the stamp; the unit is told, and the publish time set, exactly when the reading is new or a refresh is due with a nonzero reading |
| Espmhp.MitsubishiHeatPump.Ping | components/mitsubishi_heatpump/espmhp.cpp:658-661 | The last ping becomes now |
| Espmhp.MitsubishiHeatPump.SetRemotePublishFrequencySeconds | components/mitsubishi_heatpump/espmhp.cpp:663-666 | The publish frequency becomes the given seconds |
| Espmhp.MitsubishiHeatPump.SetRemoteOperatingTimeoutMinutes | components/mitsubishi_heatpump/espmhp.cpp:668-671 | The operating timeout becomes the given minutes |
| Espmhp.MitsubishiHeatPump.SetRemoteIdleTimeoutMinutes | components/mitsubishi_heatpump/espmhp.cpp:673-676 | The idle timeout becomes the given minutes |
| Espmhp.MitsubishiHeatPump.SetRemotePingTimeoutMinutes | components/mitsubishi_heatpump/espmhp.cpp:678-681 | The ping timeout becomes the given minutes |
| Espmhp.MitsubishiHeatPump.EnforceRemoteTemperatureSensorTimeout | components/mitsubishi_heatpump/espmhp.cpp:683-709 | An expired ping forces the remote temperature to 0, forgets the ping and checks nothing else. Otherwise a sensor reading older than the operating or idle timeout (chosen by the operating flag) forces 0. A forced 0 is sent only if the reading was nonzero. Without expiry nothing changes |
| Espmhp.RepeatedZeroNotResent | components/mitsubishi_heatpump/espmhp.cpp:623-656 | A zero reading is sent to the unit only once: the first only if the reading was nonzero, a repeat never |
| Devicestate.IsDeviceActive | components/mitsubishi_heatpump/devicestate.cpp:4-6 | A reported snapshot is active exactly when the climate component does not read it as OFF |
| Devicestate.ToDeviceMode | components/mitsubishi_heatpump/devicestate.cpp:8-22 | Never Off; Unknown exactly for mode strings outside HEAT, DRY, COOL, FAN, AUTO |
| Devicestate.ToDeviceState | components/mitsubishi_heatpump/devicestate.cpp:24-30 | Active exactly when power is "ON" (isDeviceActive, lines 4-6); the mode is ToDeviceMode; the target temperature is copied unchanged |
| Devicestate.ClimateModeOf | components/mitsubishi_heatpump/devicestate.cpp:8-22 | Off and Unknown stand for no climate mode, the others for one |
| Devicestate.DeviceStateAgreesWithComponent | components/mitsubishi_heatpump/devicestate.cpp:4-30 | The summary agrees with the component's own DecodeMode: inactive is OFF, and an active device mode is the decoded mode, Unknown exactly when the component keeps its mode |
| LegacyEspmhp.LegacyModeSetting | espmhp.cpp:105-139 | A mode string is sent, with power ON, for every mode except OFF and HEAT_COOL, which power the unit off |
| LegacyEspmhp.LegacyDecodeMode | espmhp.cpp:232-259 | The same reading as the current component's for every string but "AUTO", which reads as AUTO; power other than "ON" is OFF |
| LegacyEspmhp.LegacyModeRoundTrip | espmhp.cpp:232-259 | Every mode this control sends (lines 105-139) with power ON decodes back to itself |
| LegacyEspmhp.LegacyVaneSetting | espmhp.cpp:188-206 | A vane setting is sent exactly for OFF and VERTICAL |
| LegacyEspmhp.LegacyDecodeSwing | espmhp.cpp:286-291 | VERTICAL exactly when the vane reports SWING, OFF otherwise |
| LegacyEspmhp.LegacySwingRoundTrip | espmhp.cpp:286-291 | OFF and VERTICAL, as control sends them (lines 195-206), decode back to themselves |
| LegacyEspmhp.LegacyActionAsWritten | espmhp.cpp:306-327 | As the switch is written: HEATING exactly in HEAT below target, COOLING exactly in COOL above target, IDLE otherwise in those two, OFF in every other mode, DRY included, and never DRYING |
| LegacyEspmhp.DryReportedOff | espmhp.cpp:323-326 | As written, DRY is reported as OFF whatever the temperatures, unlike the corrected action |
| LegacyEspmhp.LegacyAction | espmhp.cpp:306-327 | HEATING exactly in HEAT below target, COOLING exactly in COOL above target, IDLE otherwise in those two, DRYING exactly in DRY, OFF exactly elsewhere |
| LegacyEspmhp.LegacyActionDiffersOnlyInDry | espmhp.cpp:306-327 | The corrected and the as-written action agree on every mode but DRY |
| LegacyEspmhp.MitsubishiHeatPump.constructor | espmhp.cpp:26-32 | The constructor sets no climate state of its own: the entity starts with the climate base class's defaults, taken as mode and action OFF, swing OFF, NaN temperatures and the given fan mode |
| LegacyEspmhp.MitsubishiHeatPump.Control | espmhp.cpp:101-215 | Mode and power only on a mode request, the target as given, fan OFF powers off, and a swing request is stored but sends a vane only for OFF and VERTICAL. Nothing else changes, the action included |
| LegacyEspmhp.MitsubishiHeatPump.SettingsChanged | espmhp.cpp:217-333 | NULL power changes nothing. Otherwise mode, fan, swing and the target are read back, and the action is LegacyActionAsWritten of the new mode and temperatures, so a powered DRY report gives OFF |
| LegacyEspmhp.MitsubishiHeatPump.StatusChanged | espmhp.cpp:338-341 | Only the current temperature changes |

## Left out

- Serial setup, `connect`, `verify_serial`, the logger-conflict check, `banner`, `dump_config`, `dump_state`, `dumpConfig` and `log_packet`: I/O and logging only.
- The periodic `update()` polls are not composed; each handler is modelled on its own snapshot. In `components/mitsubishi_heatpump/espmhp.cpp` (lines 78-89) the poll runs `sync`, the settings handler and the status handler (without callbacks), then `enforce_remote_temperature_sensor_timeout()`, then `set_remote_temperature` with the stored remote temperature, which is what drives the refresh path of `SetRemoteTemperature` and `RefreshDue`. In the older `espmhp.cpp` (lines 45-53) the poll runs only `sync` and the two handlers.
- The library calls `sync`, `update` and `setRemoteTemperature`, and `publish_state`: the setters become the returned `Requests` value, and the remote temperature the unit is told becomes the returned `Option<real>`.
- Preference storage (`make_preference`, `storage.save`, `storage.load`): only the step arithmetic is modelled, with each preference held as an `Option<Byte>` field.
- The select entities, their callback registration, and `update_swing_vertical` / `update_swing_horizontal` publishing to them: only the vane state strings are kept.
- `climate.py` and `__init__.py`: configuration and code-generation glue.
- The NaN recovery of the PID integral sum: a real cannot be NaN.
- `set_remote_temperature` called with NaN is not modelled: the reading is a `real`.
- `PidController.SampleSeconds`: `roundToDecimals(s, 1000000)` is taken as the identity. Its `pow(10, 1000000)` does not fit an `int`, so the C++ result is platform dependent.
- `setSampleTime` is declared in `pidcontroller.h` but never defined, so it is not modelled.
- `PidController.PIDController.constructor` requires a positive sample time and ordered limits. The C++ `setTunings` divides by the sample time, and with inverted limits `setOutputLimits` would leave the bounds unset. In the C++ constructor the initial `output` is uninitialised, and the model leaves it arbitrary; only its clamped value is known.
- `Espmhp.MitsubishiHeatPump.constructor`: neither the constructor nor `setup()` sets the climate mode or action; they come from the ESPHome climate base class, which is not part of this model. Their initial value OFF is an assumption.
- `LegacyEspmhp.MitsubishiHeatPump.constructor`: the older `espmhp.cpp` constructor sets no climate state, and the ESPHome climate base class that does is not part of this model. Its initial mode and action OFF, swing OFF and NaN temperatures are an assumption, and its initial fan mode is a parameter.
- `Espmhp.SetpointSteps`: the conversion to `uint8_t` is modelled as truncation toward zero, then reduction modulo 256. In C++ a setpoint at or below 15.5 or at or above 144 degrees has no defined byte; a setpoint strictly between 15.5 and 16 truncates to step 0, and so does the model.
- Repeated PID `update` calls are stated on the specification function `IntegralSumAfter`, which follows `NextOutputSum` through n steps with the same error; no lemma folds n calls of the `Update` method itself.
- The traits the component advertises (`traits`, `config_traits`), the baud and pin setters, and the old header's `uint8_t` temperature step are not part of this model.

## Findings

| source | as written | input that shows it | evidently intended | confidence | as-written member | corrected member |
|---|---|---|---|---|---|---|
| espmhp.cpp:323-326 | The DRY case of the action switch in `hpSettingsChanged` sets DRYING and has no `break`, so it falls into `default` and the action becomes OFF | settings with power "ON" and mode "DRY" | A unit drying is reported as DRYING (as the current component's settings handler does) | high; not executed | LegacyEspmhp.LegacyActionAsWritten (with LegacyEspmhp.DryReportedOff) | LegacyEspmhp.LegacyAction (with LegacyEspmhp.LegacyActionDiffersOnlyInDry) |
