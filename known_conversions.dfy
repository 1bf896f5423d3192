/**
 The worked conversions of Tests/PressureTests/PressureTests.swift, stated
 in exact real arithmetic. The tests compare rounded values; `Round` is
 Foundation's `round`, which sends halves away from zero.
 */
module KnownConversions {
  import opened PressureTypes
  import opened Pressures
  import opened Altitude

  /** The integer nearest to `x`, halves rounded away from zero. */
  function Round(x: real): (r: int)
    ensures x >= 0.0 ==> r as real - 0.5 <= x < r as real + 0.5
    ensures x < 0.0 ==> r as real - 0.5 < x <= r as real + 0.5
  {
    if x >= 0.0 then (x + 0.5).Floor else -((0.5 - x).Floor)
  }

  /** `round(x * 100) / 100`, the tests' two-decimal rounding. */
  function RoundToHundredths(x: real): (r: real)
    ensures (r * 100.0).Floor as real == r * 100.0
    ensures x >= 0.0 ==> r - 0.005 <= x < r + 0.005
    ensures x < 0.0 ==> r - 0.005 < x <= r + 0.005
  {
    Round(x * 100.0) as real / 100.0
  }

  /** 14.7 psi is about 1 atm. */
  lemma PsiToAtmosphere()
    ensures Round(Convert(Pressure(14.7, Psi), Atmosphere).value) == 1
  {
  }

  /**
   14.7 Pa in atmospheres is exactly 0.00014507770588919769 over the
   reals, within 1e-19 of the double the test compares with.
   */
  lemma PascalsToAtmosphere()
    ensures Convert(Pressure(14.7, Pascals), Atmosphere).value == 0.00014507770588919769
    ensures -0.0000000000000000001 < Convert(Pressure(14.7, Pascals), Atmosphere).value - 0.0001450777058891977
                                   < 0.0000000000000000001
  {
  }

  /** 1234 inH2O is about 3.03 atm. */
  lemma InchesWaterToAtmosphere()
    ensures RoundToHundredths(Convert(Pressure(1234.0, InchesWaterColumn), Atmosphere).value) == 3.03
  {
  }

  /** 35.12 atm is about 516 psi; 444503 Pa about 64 psi; 10.35 inH2O about 0.37 psi. */
  lemma ToPsi()
    ensures Round(Convert(Pressure(35.12, Atmosphere), Psi).value) == 516
    ensures Round(Convert(Pressure(444503.0, Pascals), Psi).value) == 64
    ensures RoundToHundredths(Convert(Pressure(10.35, InchesWaterColumn), Psi).value) == 0.37
  {
  }

  /**
   300 atm is about 30397503 Pa; 314.7 psi about 2169780 Pa; and 4432 inH2O
   about 1103964 Pa, the figure the test expects. That figure is what the
   source's inH2O factor gives even without rounding error.
   */
  lemma ToPascals()
    ensures 30397502.5 <= Convert(Pressure(300.0, Atmosphere), Pascals).value < 30397503.5
    ensures Round(Convert(Pressure(300.0, Atmosphere), Pascals).value) == 30397503
    ensures Round(Convert(Pressure(314.7, Psi), Pascals).value) == 2169780
    ensures Round(Convert(Pressure(4432.0, InchesWaterColumn), Pascals).value) == 1103964
  {
  }

  /** 10 atm is about 4068 inH2O; 444 Pa about 1.78 inH2O; 2345 Pa about 9.41 inH2O. */
  lemma ToInchesWater()
    ensures Round(Convert(Pressure(10.0, Atmosphere), InchesWaterColumn).value) == 4068
    ensures RoundToHundredths(Convert(Pressure(444.0, Pascals), InchesWaterColumn).value) == 1.78
    ensures RoundToHundredths(Convert(Pressure(2345.0, Pascals), InchesWaterColumn).value) == 9.41
  {
  }

  /**
   34.555 atm is about 26262 Torr, and 312.34 psi (the default unit)
   about 16153 Torr.
   */
  lemma ToTorr()
    ensures Round(Convert(Pressure(34.555, Atmosphere), Torr).value) == 26262
    ensures Round(Convert(Pressure(312.34), Torr).value) == 16153
  {
  }

  /** 876 atm is about 888 bar, and 32 psi (the default unit) about 2.21 bar. */
  lemma ToBar()
    ensures Round(Convert(Pressure(876.0, Atmosphere), Bar).value) == 888
    ensures RoundToHundredths(Convert(Pressure(32.0), Bar).value) == 2.21
  {
  }

  /**
   A reading of 1.0 converted to its own unit is `==` to itself and, when
   the platform prints 1.0 as "1.0", is described as "1.0 " and the symbol.
   */
  lemma OneInEachUnit(formatValue: real -> string)
    requires formatValue(1.0) == "1.0"
    ensures forall t: PressureType :: Equal(Convert(Pressure(1.0, t), t), Pressure(1.0, t))
    ensures Description(Convert(Pressure(1.0, Atmosphere), Atmosphere), formatValue) == "1.0 atm"
    ensures Description(Convert(Pressure(1.0), Psi), formatValue) == "1.0 psi"
    ensures Description(Convert(Pressure(1.0, Pascals), Pascals), formatValue) == "1.0 Pa"
    ensures Description(Convert(Pressure(1.0, InchesWaterColumn), InchesWaterColumn), formatValue) == "1.0 inH2O"
    ensures Description(Convert(Pressure(1.0, Torr), Torr), formatValue) == "1.0 Torr"
    ensures Description(Convert(Pressure(1.0, Bar), Bar), formatValue) == "1.0 bar"
  {
  }

  /**
   At 0 ft, wherever the length type maps 0 ft to 0 m and the power of 1 is
   1, the estimate is about 14.7 psi at one decimal.
   */
  lemma SeaLevelAltitude(toMeters: Length -> real, pow: (real, real) -> real)
    requires toMeters(Length(0.0, Feet)) == 0.0
    requires pow(1.0, BarometricExponent) == 1.0
    ensures ForAltitudeFeet(0.0, toMeters, pow).value == SeaLevelPascals * AtmospheresPerUnit(Pascals) / AtmospheresPerUnit(Psi)
    ensures Round(ForAltitudeFeet(0.0, toMeters, pow).value * 10.0) as real / 10.0 == 14.7
  {
  }
}
