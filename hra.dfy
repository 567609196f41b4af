/** House-rent-allowance exemption, a simplified form of section 10(13A) of
    the Income-tax Act, 1961: basic salary is taken as 40% of gross income,
    and the exemption is the least of (annual rent - 10% of gross), a city
    cap (50% of gross in a metro, 40% elsewhere) and the basic salary,
    rounded and floored at zero. Amounts are worked in tenths of a rupee. */
module Hra {
  import opened Wrappers
  import opened Rounding
  import opened Profiles

  function Min3(a: int, b: int, c: int): int { Min(Min(a, b), c) }

  /** The exemption formula on known amounts. */
  function ExemptionFor(gross: int, monthlyRent: int, metro: bool): int {
    var rentOverTenth := 120 * monthlyRent - gross;
    var cityCap := if metro then 5 * gross else 4 * gross;
    var basic := 4 * gross;
    Max(0, RoundHalfEven(Min3(rentOverTenth, cityCap, basic), 10))
  }

  /** The exemption for a profile: exactly 0 without rent; a failure when
      rent is paid but gross income is missing. */
  function HraExemption(p: Profile): (r: Result<int, EngineError>)
    ensures r.Failure? <==> HasRent(p) && p.grossIncome.None?
    ensures !HasRent(p) ==> r == Success(0)
    ensures r.Success? ==> r.value >= 0
  {
    if !HasRent(p) then Success(0)
    else
      match p.grossIncome
      case None => Failure(MissingGrossIncome)
      case Some(gross) => Success(ExemptionFor(gross, MonthlyRentOf(p), CityOf(p) == Metro))
  }

  /** The exemption never exceeds the rounded basic salary (40% of gross)
      nor the rounded rent in excess of 10% of gross, and is never negative. */
  lemma ExemptionBounds(gross: int, monthlyRent: int, metro: bool)
    ensures 0 <= ExemptionFor(gross, monthlyRent, metro) <= Max(0, RoundHalfEven(4 * gross, 10))
    ensures ExemptionFor(gross, monthlyRent, metro) <= Max(0, RoundHalfEven(120 * monthlyRent - gross, 10))
  {
    var cap := if metro then 5 * gross else 4 * gross;
    var m := Min3(120 * monthlyRent - gross, cap, 4 * gross);
    RoundHalfEvenMonotone(m, 4 * gross, 10);
    RoundHalfEvenMonotone(m, 120 * monthlyRent - gross, 10);
  }

  /** The metro flag never changes the exemption: basic salary (40% of gross)
      is never above either city cap when gross is non-negative, and for a
      negative gross both results are 0. */
  lemma MetroIrrelevant(gross: int, monthlyRent: int)
    ensures ExemptionFor(gross, monthlyRent, true) == ExemptionFor(gross, monthlyRent, false)
  {
    if gross < 0 {
      ExemptionBounds(gross, monthlyRent, true);
      ExemptionBounds(gross, monthlyRent, false);
      RoundHalfEvenSign(4 * gross, 10);
    }
  }

  /** With rent paid and gross income known, the exemption is
      max(0, round(min(12 x rent - 10% of gross, 40% of gross))). */
  lemma ExemptionWithRent(p: Profile)
    requires HasRent(p) && p.grossIncome.Some?
    ensures HraExemption(p) == Success(Max(0, RoundHalfEven(
      Min(120 * MonthlyRentOf(p) - GrossOf(p), 4 * GrossOf(p)), 10)))
  {
    var g, rent := GrossOf(p), MonthlyRentOf(p);
    MetroIrrelevant(g, rent);
    if g >= 0 {
      assert Min3(120 * rent - g, 4 * g, 4 * g) == Min(120 * rent - g, 4 * g);
    } else {
      ExemptionBounds(g, rent, false);
      RoundHalfEvenSign(4 * g, 10);
      RoundHalfEvenMonotone(Min(120 * rent - g, 4 * g), 4 * g, 10);
    }
  }
}
