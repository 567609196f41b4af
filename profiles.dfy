/** The user profile the engine receives: a record of optional fields, each
    read with the default the engine substitutes when it is missing. */
module Profiles {
  import opened Wrappers

  /** Risk appetite. The engine compares it as text, so any other value is
      `Unrecognised`, which the equity rule treats like low and the pension
      rule like medium. */
  datatype Risk = Low | Medium | High | Unrecognised

  /** City classification; any value other than metro counts as non-metro. */
  datatype City = Metro | NonMetro

  datatype Profile = Profile(
    grossIncome: Option<int>,
    age: Option<int>,
    riskAppetite: Option<Risk>,
    cityType: Option<City>,
    hasRent: Option<bool>,
    monthlyRent: Option<int>,
    current80C: Option<int>,
    current80D: Option<int>)

  /** The engine's one failure: the exemption rule reads gross income without a default. */
  datatype EngineError = MissingGrossIncome

  function GrossOf(p: Profile): int { p.grossIncome.GetOr(0) }
  function AgeOf(p: Profile): int { p.age.GetOr(30) }
  function RiskOf(p: Profile): Risk { p.riskAppetite.GetOr(Medium) }
  function CityOf(p: Profile): City { p.cityType.GetOr(Metro) }
  function HasRent(p: Profile): bool { p.hasRent.GetOr(false) }
  function MonthlyRentOf(p: Profile): int { p.monthlyRent.GetOr(0) }
  function Claimed80C(p: Profile): int { p.current80C.GetOr(0) }
  function Claimed80D(p: Profile): int { p.current80D.GetOr(0) }
}
