/** Measured bank voltages. */
module Voltages {
  /** In units of 0.1 mV (the ADC's millivolts times the divider's 9.2, times 10), or a
      reading that is not a finite number. */
  datatype Voltage = NotFinite | Volts(v: int)

  predicate VoltageValid(v: Voltage) { v.Volts? && v.v >= 0 }
}
