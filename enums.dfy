/** The two plain enumerations the measurement model uses. */
module Enums {

  /** Units a temperature can be read in (`CELCIUS` in the source). */
  datatype TemperatureUnit = Celsius | Fahrenheit | Kelvin

  /** Disinfectants a pool can be treated with. */
  datatype DisinfectantType = Chlorine | Bromine | Salt
}
