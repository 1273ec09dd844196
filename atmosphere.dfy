/** Density altitude from the pilot's four inputs, by the rule of thumb the
    calculator uses: a standard lapse rate of 2 degrees C per 1000 ft from
    15 degrees C at sea level, a standard altimeter setting of 29.92 inHg,
    and 120 ft of density altitude per degree C off standard. */
module Atmosphere {

  const StandardLapseRate: real := -2.0 / 1000.0
  const StandardSeaLevelTempC: real := 15.0
  const StandardAltimeter: real := 29.92

  /** Pressure altitude (ft): 1000 ft per inch of mercury below standard. */
  function PressureAltitude(altimeter: real, elevation: real): real {
    (StandardAltimeter - altimeter) * 1000.0 + elevation
  }

  /** Standard temperature (degrees C) at the field elevation. */
  function StandardTemperature(elevation: real): real {
    elevation * StandardLapseRate + StandardSeaLevelTempC
  }

  function DensityAltitude(oatC: real, elevation: real, altimeter: real): real {
    (oatC - StandardTemperature(elevation)) * 120.0 + PressureAltitude(altimeter, elevation)
  }

  /** The default inputs of the calculator: 15 C, 1000 ft, 29.92 inHg. */
  lemma DefaultInputs()
    ensures PressureAltitude(29.92, 1000.0) == 1000.0
    ensures StandardTemperature(1000.0) == 13.0
    ensures DensityAltitude(15.0, 1000.0, 29.92) == 1240.0
  {
  }

  lemma StandardSettingGivesElevation(elevation: real)
    ensures PressureAltitude(StandardAltimeter, elevation) == elevation
  {
  }

  lemma StandardTemperatureGivesPressureAltitude(elevation: real, altimeter: real)
    ensures DensityAltitude(StandardTemperature(elevation), elevation, altimeter)
         == PressureAltitude(altimeter, elevation)
  {
  }

  /** A standard day at sea level has density altitude zero. */
  lemma StandardDayAtSeaLevel()
    ensures DensityAltitude(StandardSeaLevelTempC, 0.0, StandardAltimeter) == 0.0
  {
  }

  /** Each degree C warmer adds 120 ft. */
  lemma TemperatureSensitivity(oatC: real, elevation: real, altimeter: real, d: real)
    ensures DensityAltitude(oatC + d, elevation, altimeter)
         == DensityAltitude(oatC, elevation, altimeter) + 120.0 * d
  {
  }

  /** Each inch of mercury higher on the altimeter removes 1000 ft. */
  lemma AltimeterSensitivity(oatC: real, elevation: real, altimeter: real, d: real)
    ensures DensityAltitude(oatC, elevation, altimeter + d)
         == DensityAltitude(oatC, elevation, altimeter) - 1000.0 * d
  {
  }

  /** At fixed outside temperature, each foot of elevation adds 1.24 ft:
      one foot of pressure altitude and 0.24 ft from the colder standard day. */
  lemma ElevationSensitivity(oatC: real, elevation: real, altimeter: real, d: real)
    ensures DensityAltitude(oatC, elevation + d, altimeter)
         == DensityAltitude(oatC, elevation, altimeter) + 1.24 * d
  {
  }
}
