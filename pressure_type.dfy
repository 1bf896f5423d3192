/**
 The closed set of pressure units a pressure can be expressed in, with the
 display symbol of each (Sources/Pressure/PressureType.swift) and the number
 of atmospheres one unit stands for, the factor the conversion engine pivots
 through (the literals of Sources/Pressure/Pressure.swift).
 */
module PressureTypes {

  /** The six supported units; the enumeration is closed. */
  datatype PressureType = Psi | Atmosphere | Pascals | InchesWaterColumn | Bar | Torr

  /** Display symbol of a unit. Total: every unit has one, and it is never empty. */
  function Symbol(t: PressureType): (s: string)
    ensures 2 <= |s| <= 5
  {
    match t
    case Psi => "psi"
    case Atmosphere => "atm"
    case Pascals => "Pa"
    case InchesWaterColumn => "inH2O"
    case Bar => "bar"
    case Torr => "Torr"
  }

  /** Distinct units have distinct symbols, so a symbol names its unit. */
  lemma SymbolInjective(t: PressureType, u: PressureType)
    ensures Symbol(t) == Symbol(u) <==> t == u
  {
  }

  /** Which symbol belongs to which unit; these are the texts `description` shows. */
  lemma SymbolTable()
    ensures Symbol(Psi) == "psi" && Symbol(Atmosphere) == "atm" && Symbol(Pascals) == "Pa"
    ensures Symbol(InchesWaterColumn) == "inH2O" && Symbol(Bar) == "bar" && Symbol(Torr) == "Torr"
  {
  }

  /**
   The reference table of factors: how many atmospheres one unit of `t` is.
   The conversion code writes each of these literals twice (once to reach
   atmospheres, once to leave them); the contracts in module Pressures prove
   that both places use this one table.
   */
  function AtmospheresPerUnit(t: PressureType): (f: real)
    ensures f > 0.0
    ensures t == Atmosphere <==> f == 1.0
  {
    match t
    case Psi => 0.068045957064302
    case Atmosphere => 1.0
    case Pascals => 0.0000098692316931427
    case InchesWaterColumn => 0.00245832
    case Bar => 0.98692316931427
    case Torr => 0.0013157893594089
  }

  /** No two units share a factor, so the factor also determines the unit. */
  lemma AtmospheresPerUnitInjective(t: PressureType, u: PressureType)
    ensures AtmospheresPerUnit(t) == AtmospheresPerUnit(u) <==> t == u
  {
  }
}
