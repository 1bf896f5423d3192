/**
 Atmospheric pressure estimated from altitude with the barometric formula
 (the `forAltitude` overloads of Sources/Pressure/Pressure.swift).

 Two collaborators are parameters: the length type's conversion to metres
 (an external package), and the platform's `pow` with a fractional
 exponent. The formula's constants are the source's.
 */
module Altitude {
  import opened PressureTypes
  import opened Pressures

  /** The units of the external length type that the core uses. */
  datatype LengthUnit = Feet | Meters

  /** An altitude as the external length type carries it. */
  datatype Length = Length(value: real, unit: LengthUnit)

  /** Sea-level pressure in pascals, the scale of the formula. */
  const SeaLevelPascals: real := 101325.0

  /** Temperature lapse term of the formula, per metre. */
  const LapsePerMeter: real := 0.0000225577

  /** Exponent of the formula. */
  const BarometricExponent: real := 5.525588

  /**
   The base the formula raises to its exponent. It is 1 at sea level and
   turns negative above about 44 330 m, where a fractional power has no
   real value: the source does not guard that range.
   */
  function BarometricBase(meters: real): (b: real)
    ensures meters == 0.0 ==> b == 1.0
    ensures b >= 0.0 <==> meters <= 1.0 / LapsePerMeter
    ensures b <= 1.0 <==> meters >= 0.0
  {
    1.0 - LapsePerMeter * meters
  }

  /**
   The formula's value in pascals at `meters`, with the power function
   supplied; wherever the power of 1 is 1, sea level gives exactly the
   standard sea-level pressure.
   */
  function BarometricPascals(meters: real, pow: (real, real) -> real): (pa: real)
    ensures meters == 0.0 && pow(1.0, BarometricExponent) == 1.0 ==> pa == SeaLevelPascals
  {
    SeaLevelPascals * pow(BarometricBase(meters), BarometricExponent)
  }

  /**
   `forAltitude(altitude:type:)`: the formula's pascals value, converted
   to the requested unit (psi when none is given). The result is tagged
   with that unit, and in pascals it is the formula's value itself.
   */
  function ForAltitude(altitude: Length, toMeters: Length -> real, pow: (real, real) -> real,
                       pressureType: PressureType := Psi): (p: Pressure)
    ensures p.pressureType == pressureType
    ensures p.value == BarometricPascals(toMeters(altitude), pow) * AtmospheresPerUnit(Pascals)
                       / AtmospheresPerUnit(pressureType)
    ensures pressureType == Pascals ==> p.value == BarometricPascals(toMeters(altitude), pow)
  {
    var meters := toMeters(altitude);
    var value := BarometricPascals(meters, pow);
    Convert(Pressure(value, Pascals), pressureType)
  }

  /**
   `forAltitude(_:_:)`: a bare number is taken as feet; psi when no unit
   is given.
   */
  function ForAltitudeFeet(altitude: real, toMeters: Length -> real, pow: (real, real) -> real,
                           pressureType: PressureType := Psi): (p: Pressure)
    ensures p.pressureType == pressureType
    ensures p.value == BarometricPascals(toMeters(Length(altitude, Feet)), pow) * AtmospheresPerUnit(Pascals)
                       / AtmospheresPerUnit(pressureType)
  {
    ForAltitude(Length(altitude, Feet), toMeters, pow, pressureType)
  }

  /** The numeric overload is the length overload applied to that many feet. */
  lemma ForAltitudeOverloadsAgree(altitude: real, toMeters: Length -> real, pow: (real, real) -> real,
                                  pressureType: PressureType)
    ensures ForAltitudeFeet(altitude, toMeters, pow, pressureType)
         == ForAltitude(Length(altitude, Feet), toMeters, pow, pressureType)
  {
  }

  /** Both overloads answer in psi when no unit is requested. */
  lemma ForAltitudeDefaultsToPsi(altitude: Length, feet: real, toMeters: Length -> real,
                                 pow: (real, real) -> real)
    ensures ForAltitude(altitude, toMeters, pow).pressureType == Psi
    ensures ForAltitude(altitude, toMeters, pow) == ForAltitude(altitude, toMeters, pow, Psi)
    ensures ForAltitudeFeet(feet, toMeters, pow) == ForAltitudeFeet(feet, toMeters, pow, Psi)
  {
  }

  /**
   The estimate in any unit is the formula's reading, tagged as pascals,
   passed through the conversion engine: the altitude code only delegates.
   */
  lemma ForAltitudeDelegatesToConvert(altitude: Length, toMeters: Length -> real,
                                      pow: (real, real) -> real, pressureType: PressureType)
    ensures ForAltitude(altitude, toMeters, pow, pressureType)
         == Convert(Pressure(BarometricPascals(toMeters(altitude), pow), Pascals), pressureType)
  {
  }
}
