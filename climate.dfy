/** The parts of the ESPHome climate framework that the heat pump component reads and writes. */
module Climate {
  import opened Wrappers

  /** `climate::ClimateMode`; the oldest revision calls the heat/cool mode AUTO. */
  datatype ClimateMode = Off | HeatCool | Cool | Heat | FanOnly | Dry | Auto

  /** `climate::ClimateAction`. */
  datatype ClimateAction = Off | Cooling | Heating | Idle | Drying | Fan

  /** `climate::ClimateFanMode`. */
  datatype ClimateFanMode = On | Off | Auto | Low | Medium | High | Middle | Focus | Diffuse | Quiet

  /** `climate::ClimateSwingMode`. */
  datatype ClimateSwingMode = Off | Both | Vertical | Horizontal

  /** `climate::ClimateCall`: every part of a user request is optional. */
  datatype ClimateCall = ClimateCall(
    mode: Option<ClimateMode>,
    targetTemperature: Option<real>,
    fanMode: Option<ClimateFanMode>,
    swingMode: Option<ClimateSwingMode>)

  /** A float temperature that may be NaN, as the climate entity holds it; None stands for NaN. */
  type Temperature = Option<real>

  /** `a < b` on floats: false whenever either side is NaN. */
  predicate Less(a: Temperature, b: Temperature) {
    a.Some? && b.Some? && a.value < b.value
  }

  /** `a > b` on floats: false whenever either side is NaN. */
  predicate Greater(a: Temperature, b: Temperature) {
    a.Some? && b.Some? && a.value > b.value
  }
}
