/**
 An immutable pressure reading (Sources/Pressure/Pressure.swift): a value
 tagged with its unit, exact equality, its textual rendering and the
 conversion engine that pivots every conversion through atmospheres.
 Values are exact reals; the source computes in IEEE-754 doubles.
 */
module Pressures {
  import opened PressureTypes

  /**
   A pressure reading. Omitting the unit gives psi, as the source's
   initialiser does.
   */
  datatype Pressure = Pressure(value: real, pressureType: PressureType := Psi)

  /** The initialiser stores both arguments unchanged, and the unit defaults to psi. */
  lemma InitDefaultsToPsi(v: real)
    ensures Pressure(v).value == v
    ensures Pressure(v).pressureType == Psi
    ensures Pressure(v) == Pressure(v, Psi)
  {
  }

  /** The source's `==`: exact on the value and on the unit. */
  function Equal(lhs: Pressure, rhs: Pressure): (b: bool)
    ensures b <==> lhs == rhs
  {
    lhs.value == rhs.value && lhs.pressureType == rhs.pressureType
  }

  /**
   The source's `description`: the value, a space, and the unit's symbol.
   Number-to-text formatting is the platform's and is a parameter here.
   */
  function Description(p: Pressure, formatValue: real -> string): (s: string)
    ensures |s| == |formatValue(p.value)| + 1 + |Symbol(p.pressureType)|
    ensures s[..|formatValue(p.value)|] == formatValue(p.value)
    ensures s[|s| - |Symbol(p.pressureType)| - 1..] == " " + Symbol(p.pressureType)
  {
    formatValue(p.value) + " " + Symbol(p.pressureType)
  }

  /**
   Two descriptions made with the same formatter that are the same text
   belong to the same unit: no symbol, with its leading space, is a
   suffix of another's.
   */
  lemma DescriptionDeterminesUnit(p: Pressure, q: Pressure, formatValue: real -> string)
    requires Description(p, formatValue) == Description(q, formatValue)
    ensures p.pressureType == q.pressureType
  {
    SuffixesOfSymbolsDiffer(p.pressureType, q.pressureType, Description(p, formatValue));
  }

  /** Helper: a text that ends in " " + symbol of `t` and of `u` has t == u. */
  lemma SuffixesOfSymbolsDiffer(t: PressureType, u: PressureType, s: string)
    requires |s| > |Symbol(t)| && |s| > |Symbol(u)|
    requires s[|s| - |Symbol(t)| - 1..] == " " + Symbol(t)
    requires s[|s| - |Symbol(u)| - 1..] == " " + Symbol(u)
    ensures t == u
  {
    var x, y := Symbol(t), Symbol(u);
    LastTwoOfSuffix(s, x);
    LastTwoOfSuffix(s, y);
    LastTwoDistinct(t, u);
  }

  /** Helper: the last two characters of a text are those of any suffix of it. */
  lemma LastTwoOfSuffix(s: string, x: string)
    requires 2 <= |x| < |s|
    requires s[|s| - |x| - 1..] == " " + x
    ensures s[|s| - 1] == x[|x| - 1] && s[|s| - 2] == x[|x| - 2]
  {
    assert s[|s| - 1] == (" " + x)[|x|];
    assert s[|s| - 2] == (" " + x)[|x| - 1];
  }

  /** The last two characters of a symbol already tell the units apart. */
  lemma LastTwoDistinct(t: PressureType, u: PressureType)
    requires Symbol(t)[|Symbol(t)| - 1] == Symbol(u)[|Symbol(u)| - 1]
    requires Symbol(t)[|Symbol(t)| - 2] == Symbol(u)[|Symbol(u)| - 2]
    ensures t == u
  {
  }

  /**
   The source's private `convertToAtmosphere`: the value scaled by the
   factor of its own unit, written with the source's literals; atmospheres
   pass through unchanged.
   */
  function ConvertToAtmosphere(p: Pressure): (atm: real)
    ensures atm == p.value * AtmospheresPerUnit(p.pressureType)
    ensures p.pressureType == Atmosphere ==> atm == p.value
  {
    match p.pressureType
    case Psi => p.value * 0.068045957064302
    case Pascals => p.value * 0.0000098692316931427
    case InchesWaterColumn => p.value * 0.00245832
    case Bar => p.value * 0.98692316931427
    case Torr => p.value * 0.0013157893594089
    case Atmosphere => p.value
  }

  /**
   The source's `convert(to:)`: reach atmospheres, then divide by the
   target's factor (again written with the source's literals). Total: no
   input is rejected, zero and negative values included. The result is
   tagged with the target unit, its value is the atmosphere value divided
   by the same factor table the first stage multiplies by, and converting
   to the pressure's own unit gives back an equal pressure.
   */
  function Convert(p: Pressure, target: PressureType): (r: Pressure)
    ensures r.pressureType == target
    ensures r.value == ConvertToAtmosphere(p) / AtmospheresPerUnit(target)
    ensures r.value == p.value * AtmospheresPerUnit(p.pressureType) / AtmospheresPerUnit(target)
    ensures target == p.pressureType ==> Equal(r, p)
  {
    var atm := ConvertToAtmosphere(p);
    var value :=
      match target
      case Atmosphere => atm
      case Psi => atm / 0.068045957064302
      case Pascals => atm / 0.0000098692316931427
      case InchesWaterColumn => atm / 0.00245832
      case Torr => atm / 0.0013157893594089
      case Bar => atm / 0.98692316931427;
    Pressure(value, target)
  }

  /** Every conversion factors through atmospheres: A to B equals A to atm to B. */
  lemma ConvertViaAtmosphere(p: Pressure, target: PressureType)
    ensures Convert(Convert(p, Atmosphere), Atmosphere) == Convert(p, Atmosphere)
    ensures Convert(Convert(p, Atmosphere), target) == Convert(p, target)
  {
  }

  /** Under exact arithmetic, A to B and back to A returns the original pressure. */
  lemma ConvertRoundTrip(p: Pressure, target: PressureType)
    ensures Convert(Convert(p, target), p.pressureType) == p
  {
  }

  /** Converting twice is converting once: A to B to C equals A to C. */
  lemma ConvertCompose(p: Pressure, via: PressureType, target: PressureType)
    ensures Convert(Convert(p, via), target) == Convert(p, target)
  {
  }

  /** Conversion commutes with scaling the value. */
  lemma ConvertHomogeneous(k: real, p: Pressure, target: PressureType)
    ensures Convert(Pressure(k * p.value, p.pressureType), target).value == k * Convert(p, target).value
  {
  }

  /** Conversion commutes with adding values of one unit. */
  lemma ConvertAdditive(p: Pressure, q: Pressure, target: PressureType)
    requires p.pressureType == q.pressureType
    ensures Convert(Pressure(p.value + q.value, p.pressureType), target).value
         == Convert(p, target).value + Convert(q, target).value
  {
  }

  /**
   Conversion never fails and never changes sign: positive stays
   positive, zero stays zero, negative passes through as negative; and it
   keeps the order of values of one unit.
   */
  lemma ConvertPreservesSignAndOrder(p: Pressure, q: Pressure, target: PressureType)
    requires p.pressureType == q.pressureType
    ensures Convert(p, target).value > 0.0 <==> p.value > 0.0
    ensures Convert(p, target).value == 0.0 <==> p.value == 0.0
    ensures Convert(p, target).value < 0.0 <==> p.value < 0.0
    ensures Convert(p, target).value <= Convert(q, target).value <==> p.value <= q.value
  {
  }

  /** Distinct readings of one unit stay distinct in every target unit. */
  lemma ConvertInjective(p: Pressure, q: Pressure, target: PressureType)
    requires p.pressureType == q.pressureType
    requires Convert(p, target) == Convert(q, target)
    ensures p == q
  {
  }

  /**
   A conversion between two different units always changes a nonzero
   value: no two units share a factor.
   */
  lemma ConvertChangesNonzeroValue(p: Pressure, target: PressureType)
    requires p.value != 0.0 && target != p.pressureType
    ensures Convert(p, target).value != p.value
  {
    AtmospheresPerUnitInjective(p.pressureType, target);
  }

  /**
   Equality does not identify a reading with its equivalent in another
   unit: a conversion to a different unit is never `==` to the original.
   */
  lemma ConvertedNotEqual(p: Pressure, target: PressureType)
    ensures Equal(Convert(p, target), p) <==> target == p.pressureType
  {
  }
}
