/**
 * The values exchanged with the SwiCago HeatPump library, which talks to the
 * unit over its serial link. The library itself is not modelled: its settings
 * and status snapshots are inputs, and its setters become recorded requests.
 */
module HeatPumpLib {
  import opened Wrappers

  /** `heatpumpSettings`; `power` is a C string pointer that is NULL until the unit has reported. */
  datatype Settings = Settings(
    power: Option<string>,
    mode: string,
    temperature: real,
    fan: string,
    vane: string,
    wideVane: string)

  /** `heatpumpStatus`, reduced to the two fields the component reads. */
  datatype Status = Status(roomTemperature: real, operating: bool)

  /**
   * The settings one handler asked the library for: each field is the last
   * value passed to that setter (`setPowerSetting`, `setModeSetting`,
   * `setTemperature`, `setFanSpeed`, `setVaneSetting`, `setWideVaneSetting`)
   * during the call, or None when the setter was not called.
   */
  datatype Requests = Requests(
    power: Option<string>,
    mode: Option<string>,
    temperature: Option<real>,
    fan: Option<string>,
    vane: Option<string>,
    wideVane: Option<string>)

  const NoRequests: Requests := Requests(None, None, None, None, None, None)
}
