# Pressure: a verified model of the unit-conversion engine

This project models the Swift package `Pressure`. A `Pressure` is an immutable
reading: a value tagged with one of six units (psi, atmosphere, pascals,
inches of water column, bar, torr). It converts between units by pivoting
through atmospheres. It multiplies by the source unit's factor to reach
atmospheres, then divides by the target unit's factor. It also estimates
atmospheric pressure at an altitude with the barometric formula, and it
renders a reading as text.

Modules:

- `PressureTypes` (`pressure_type.dfy`) holds the closed unit enumeration and
  its display symbols. It also holds `AtmospheresPerUnit`, the reference table
  of conversion factors.
- `Pressures` (`pressure.dfy`) holds the reading, exact equality, the
  description, `ConvertToAtmosphere`, `Convert` and the conversion laws.
- `Altitude` (`altitude.dfy`) holds the barometric formula and both
  `forAltitude` overloads.
- `KnownConversions` (`known_conversions.dfy`) holds the package's test
  scenarios, stated over exact reals.

Values are Dafny `real`s. Under exact arithmetic the round trip A→B→A is the
identity, and conversion composes (A→B→C equals A→C). The source writes each
factor literal twice, once in `convertToAtmosphere` and once in `convert`.
The contracts of `ConvertToAtmosphere` and `Convert` prove that both switches
use the same table.

The test at Tests/PressureTests/PressureTests.swift:56-61 expects 1103964 Pa
for 4432 inH2O. Its comment blames the pivot's double rounding and says the
true value is 1103962. Over exact reals the source's factors give
1103963.77…, which rounds to 1103964. So the difference comes from the
inH2O factor `0.00245832`, not from floating-point rounding.
`KnownConversions.ToPascals` states this.

## Model

| member | source | states |
|---|---|---|
| `PressureTypes.Symbol` | Sources/Pressure/PressureType.swift:11-26 | every unit has a symbol (the match is total), and it is 2 to 5 characters long, never empty |
| `PressureTypes.SymbolTable` | Sources/Pressure/PressureType.swift:12-25 | psi→"psi", atmosphere→"atm", pascals→"Pa", inchesWaterColumn→"inH2O", bar→"bar", torr→"Torr" |
| `PressureTypes.SymbolInjective` | Sources/Pressure/PressureType.swift:13-24 | two units have the same symbol iff they are the same unit |
| `PressureTypes.AtmospheresPerUnit` | Sources/Pressure/Pressure.swift:43-59 | every unit's factor to atmospheres is positive, and it is 1 exactly for atmosphere |
| `PressureTypes.AtmospheresPerUnitInjective` | Sources/Pressure/Pressure.swift:43-79 | no two units share a factor |
| `Pressures.InitDefaultsToPsi` | Sources/Pressure/Pressure.swift:17-20 | the initialiser keeps the value, and the unit defaults to psi |
| `Pressures.Equal` | Sources/Pressure/Pressure.swift:25-29 | `==` holds iff both the value and the unit match |
| `Pressures.Description` | Sources/Pressure/Pressure.swift:35-37 | the text is the formatted value, then a space, then the unit's symbol |
| `Pressures.DescriptionDeterminesUnit` | Sources/Pressure/Pressure.swift:35-37 | two equal descriptions (same formatter) belong to the same unit, so the symbol suffix identifies the unit |
| `Pressures.SuffixesOfSymbolsDiffer` | Sources/Pressure/PressureType.swift:13-24 | no " " + symbol is a suffix of another unit's " " + symbol |
| `Pressures.ConvertToAtmosphere` | Sources/Pressure/Pressure.swift:43-59 | the atmosphere value is the value times the source unit's factor from the table, and it is unchanged for atmosphere |
| `Pressures.Convert` | Sources/Pressure/Pressure.swift:62-84 | the result has the target unit for every pair of units, with no error case; its value is the atmosphere value divided by the target's factor from the same table; converting to a reading's own unit gives a reading `==` to it |
| `Pressures.ConvertViaAtmosphere` | Sources/Pressure/Pressure.swift:62-79 | A→B equals A→atmosphere→B, and atmosphere→atmosphere is the identity |
| `Pressures.ConvertRoundTrip` | Sources/Pressure/Pressure.swift:43-79 | A→B→A gives back the original reading under exact arithmetic |
| `Pressures.ConvertCompose` | Sources/Pressure/Pressure.swift:62-79 | A→B→C equals A→C |
| `Pressures.ConvertHomogeneous` | Sources/Pressure/Pressure.swift:43-79 | converting k·v gives k times the conversion of v |
| `Pressures.ConvertAdditive` | Sources/Pressure/Pressure.swift:43-79 | converting v + w gives the sum of the conversions |
| `Pressures.ConvertPreservesSignAndOrder` | Sources/Pressure/Pressure.swift:62-84 | zero, negative and positive values pass through with their sign, and the order of values of one unit is kept |
| `Pressures.ConvertInjective` | Sources/Pressure/Pressure.swift:62-84 | distinct readings of one unit convert to distinct readings |
| `Pressures.ConvertChangesNonzeroValue` | Sources/Pressure/Pressure.swift:62-79 | converting a nonzero value to a different unit always changes the value, because no two units share a factor |
| `Pressures.ConvertedNotEqual` | Sources/Pressure/Pressure.swift:25-29 | a converted reading is `==` to the original iff the target is the original's unit |
| `Altitude.BarometricBase` | Sources/Pressure/Pressure.swift:96 | the formula's base is 1 at sea level, at most 1 for non-negative altitudes, and negative above 1/2.25577e-5 m |
| `Altitude.BarometricPascals` | Sources/Pressure/Pressure.swift:96 | at 0 m the formula gives 101325 Pa, wherever pow(1, e) = 1 |
| `Altitude.ForAltitude` | Sources/Pressure/Pressure.swift:94-99 | the result has the requested unit; its value is the formula's pascals scaled by the pascals and target factors; in pascals it is the formula's value |
| `Altitude.ForAltitudeFeet` | Sources/Pressure/Pressure.swift:108-111 | a bare number is read as feet, and the result has the requested unit and the formula's value for that many feet |
| `Altitude.ForAltitudeOverloadsAgree` | Sources/Pressure/Pressure.swift:108-111 | the numeric overload equals the length overload at that many feet |
| `Altitude.ForAltitudeDefaultsToPsi` | Sources/Pressure/Pressure.swift:94 | both overloads answer in psi when no unit is given |
| `Altitude.ForAltitudeDelegatesToConvert` | Sources/Pressure/Pressure.swift:94-99 | the estimate in any unit is the formula's value, tagged as pascals, passed through `Convert` |
| `KnownConversions.Round` | Tests/PressureTests/PressureTests.swift:10 | the result is the integer nearest to x, with halves rounded away from zero |
| `KnownConversions.RoundToHundredths` | Tests/PressureTests/PressureTests.swift:18 | the result is a whole number of hundredths, and it is the nearest one to x, with halves rounded away from zero |
| `KnownConversions.PsiToAtmosphere` | Tests/PressureTests/PressureTests.swift:8-10 | 14.7 psi rounds to 1 atm |
| `KnownConversions.PascalsToAtmosphere` | Tests/PressureTests/PressureTests.swift:12-14 | 14.7 Pa is exactly 0.00014507770588919769 atm, within 1e-19 of the test's literal |
| `KnownConversions.InchesWaterToAtmosphere` | Tests/PressureTests/PressureTests.swift:16-18 | 1234 inH2O rounds to 3.03 atm |
| `KnownConversions.ToPsi` | Tests/PressureTests/PressureTests.swift:28-38 | 35.12 atm rounds to 516 psi; 444503 Pa to 64 psi; 10.35 inH2O to 0.37 psi |
| `KnownConversions.ToPascals` | Tests/PressureTests/PressureTests.swift:48-61 | 300 atm lies in [30397502.5, 30397503.5) Pa; 314.7 psi rounds to 2169780 Pa; 4432 inH2O to 1103964 Pa |
| `KnownConversions.ToInchesWater` | Tests/PressureTests/PressureTests.swift:72-82 | 10 atm rounds to 4068 inH2O; 444 Pa to 1.78; 2345 Pa to 9.41 |
| `KnownConversions.ToTorr` | Tests/PressureTests/PressureTests.swift:92-98 | 34.555 atm rounds to 26262 Torr; 312.34 psi to 16153 Torr (that second assertion is commented out in the tests) |
| `KnownConversions.ToBar` | Tests/PressureTests/PressureTests.swift:108-114 | 876 atm rounds to 888 bar; 32 psi to 2.21 bar |
| `KnownConversions.OneInEachUnit` | Tests/PressureTests/PressureTests.swift:20-24 | 1.0 in each unit converts to itself `==` the original, and is described as "1.0 " plus its symbol |
| `KnownConversions.SeaLevelAltitude` | Tests/PressureTests/PressureTests.swift:142-143 | at 0 ft the estimate is 101325 Pa in psi, which rounds to 14.7 at one decimal |

## Left out

- Floating point: values are exact reals, not IEEE-754 doubles. No NaN,
  infinity, overflow, underflow or subnormal value is modelled. The laws
  below hold over exact reals only, and are false of the source's doubles
  for some inputs:
- Pressures.Convert: its own-unit clause holds over reals only. In doubles,
  495.44 psi converted to psi is 495.43999999999994, which is not `==` to
  495.44. The tests check only the value 1.0, where the two agree.
- Pressures.ConvertedNotEqual: its "if" half rests on the same own-unit
  identity, so it too holds over reals only.
- Pressures.ConvertRoundTrip: relies on the factor cancelling exactly, which holds over reals only; doubles only approximate it.
- Pressures.ConvertCompose: relies on the middle factor cancelling exactly, which holds over reals only; doubles only approximate it.
- Pressures.ConvertHomogeneous: relies on multiplication being associative, which holds over reals only; doubles only approximate it.
- Pressures.ConvertAdditive: relies on multiplication distributing over addition, which holds over reals only; doubles only approximate it.
- Pressures.ConvertInjective: relies on the exact round trip, which holds over reals only; doubles only approximate it.
- Pressures.ConvertChangesNonzeroValue: relies on the factor ratio being applied exactly, which holds over reals only; doubles only approximate it.
- Pressures.ConvertPreservesSignAndOrder: over doubles a positive
  subnormal value in pascals underflows to 0.0 atm, so the sign clauses
  fail there.
- KnownConversions.PascalsToAtmosphere: the exact double comparison at
  Tests/PressureTests/PressureTests.swift:14 is stated as a 1e-19 bound.
  The exact product is 0.00014507770588919769.
- `pow` with a fractional exponent is a parameter of `Altitude.BarometricPascals`.
  Its value above about 44 330 m, where the base is negative, is whatever
  that parameter returns. The source computes NaN there.
- The altitude tests at 1000 ft (Tests/PressureTests/PressureTests.swift:126-140)
  are not stated, because their values depend on `pow`.
- The external `Length` type and its conversion to metres: the conversion is
  a parameter, and only the feet and metres tags are modelled.
- Number-to-text formatting inside `description` is a parameter of
  `Pressures.Description`.
- Sources/Pressure/PressureConvertible.swift declares a protocol with no
  behaviour. Its `convert(to:)` is `Pressures.Convert`.
- Package.swift (build configuration) and the XCTest harness are not modelled.
