/** The tax calculator: bracket walk, 4% cess on the base tax, the fixed
    section 87A rebate at or below a taxable-income limit, one surcharge rate from a
    threshold table, and rounding to whole rupees.
    Amounts: incomes in rupees; base and post-rebate tax in paise; the final
    total before rounding in ten-thousandths of a rupee, so every step is exact. */
module TaxCalculator {
  import opened Rounding
  import opened Slabs

  const Rebate87ALimit: int := 700000
  const Rebate87AAmount: int := 25000
  const CessPct: int := 4

  const NewRegimeSlabs: seq<Slab> := [
    Slab(Finite(400000), 0), Slab(Finite(800000), 5), Slab(Finite(1200000), 10),
    Slab(Finite(1600000), 15), Slab(Finite(2000000), 20), Slab(Unbounded, 30)]

  const OldRegimeSlabsBelow60: seq<Slab> := [
    Slab(Finite(250000), 0), Slab(Finite(500000), 5), Slab(Finite(1000000), 20), Slab(Unbounded, 30)]

  const OldRegimeSlabsSenior: seq<Slab> := [
    Slab(Finite(300000), 0), Slab(Finite(500000), 5), Slab(Finite(1000000), 20), Slab(Unbounded, 30)]

  const OldRegimeSlabsSuperSenior: seq<Slab> := [
    Slab(Finite(500000), 0), Slab(Finite(1000000), 20), Slab(Unbounded, 30)]

  /** Surcharge thresholds in iteration (insertion) order, with rates in percent. */
  const SurchargeThresholds: seq<(Bound, nat)> := [
    (Finite(5000000), 10), (Finite(10000000), 15), (Finite(20000000), 25), (Unbounded, 37)]

  /** The surcharge loop: every threshold the income exceeds overwrites the rate. */
  function SurchargeFold(income: int, table: seq<(Bound, nat)>, current: nat): nat
    decreases |table|
  {
    if table == [] then current
    else SurchargeFold(income, table[1..], if Exceeds(income, table[0].0) then table[0].1 else current)
  }

  function SurchargeRate(income: int): nat {
    SurchargeFold(income, SurchargeThresholds, 0)
  }

  /** Tax after the rebate: at or below the limit the base tax is reduced by the
      rebate amount, never below zero. */
  function PostRebatePaise(income: int, basePaise: int): int {
    if income <= Rebate87ALimit then Max(0, basePaise - Rebate87AAmount * 100) else basePaise
  }

  /** Total before rounding, in 1/10000 rupee: post-rebate tax plus its
      surcharge, plus the cess taken on the pre-rebate base tax. */
  function TotalScaled(income: int, basePaise: int): int {
    var post := PostRebatePaise(income, basePaise);
    post * 100 + CessPct * basePaise + post * SurchargeRate(income)
  }

  function TaxFromBase(income: int, basePaise: int): int {
    RoundHalfEven(TotalScaled(income, basePaise), 10000)
  }

  /** The calculator's result, as a function of taxable income and table. */
  function Liability(income: int, t: seq<Slab>): int {
    TaxFromBase(income, SlabWalk(income, t, 0))
  }

  /** The calculator as the source runs it: a bracket loop that stops at the
      first bracket the income does not exceed, then cess, rebate, a second
      loop that picks the surcharge rate, and rounding. */
  method CalculateTax(taxableIncome: int, slabs: seq<Slab>) returns (liability: int)
    ensures liability == Liability(taxableIncome, slabs)
    ensures ValidTable(slabs) && taxableIncome >= 0 ==> liability >= 0
  {
    var tax := 0;
    var prev := 0;
    var i := 0;
    while i < |slabs|
      invariant 0 <= i <= |slabs|
      invariant tax + SlabWalk(taxableIncome, slabs[i..], prev) == SlabWalk(taxableIncome, slabs, 0)
    {
      var s := slabs[i];
      if Exceeds(taxableIncome, s.upper) {
        tax := tax + (s.upper.n - prev) * s.ratePct;
        prev := s.upper.n;
      } else {
        tax := tax + (taxableIncome - prev) * s.ratePct;
        break;
      }
      i := i + 1;
    }
    assert tax == SlabWalk(taxableIncome, slabs, 0);
    var base := tax;

    var cess := CessPct * tax;
    if taxableIncome <= Rebate87ALimit {
      tax := Max(0, tax - Rebate87AAmount * 100);
    }

    var surchargeRate: nat := 0;
    var j := 0;
    while j < |SurchargeThresholds|
      invariant 0 <= j <= |SurchargeThresholds|
      invariant SurchargeFold(taxableIncome, SurchargeThresholds[j..], surchargeRate) == SurchargeRate(taxableIncome)
    {
      if Exceeds(taxableIncome, SurchargeThresholds[j].0) {
        surchargeRate := SurchargeThresholds[j].1;
      }
      j := j + 1;
    }
    var surcharge := tax * surchargeRate;

    liability := RoundHalfEven(tax * 100 + cess + surcharge, 10000);
    if ValidTable(slabs) && taxableIncome >= 0 {
      LiabilityNonNegative(taxableIncome, slabs);
    }
  }

  /** The surcharge rate is that of the largest threshold strictly exceeded,
      or 0; the rate keyed at the unbounded threshold is never chosen. */
  lemma SurchargeRateByThreshold(income: int)
    ensures SurchargeRate(income) ==
      if income > 20000000 then 25
      else if income > 10000000 then 15
      else if income > 5000000 then 10
      else 0
    ensures SurchargeRate(income) != 37
  {
    var t := SurchargeThresholds;
    assert t[1..] == t[1..4] && t[1..][1..] == t[2..4] && t[2..4][1..] == t[3..4] && t[3..4][1..] == t[4..];
  }

  lemma SurchargeRateMonotone(a: int, b: int)
    requires a <= b
    ensures SurchargeRate(a) <= SurchargeRate(b)
  {
    SurchargeRateByThreshold(a);
    SurchargeRateByThreshold(b);
  }

  /** The rounded total is non-decreasing in the income (through the rebate
      limit and the surcharge thresholds) and in a non-negative base tax. */
  lemma TaxFromBaseMonotone(i1: int, i2: int, b1: int, b2: int)
    requires i1 <= i2 && 0 <= b1 <= b2
    ensures 0 <= TaxFromBase(i1, b1) <= TaxFromBase(i2, b2)
  {
    var p1, p2 := PostRebatePaise(i1, b1), PostRebatePaise(i2, b2);
    assert 0 <= p1 <= p2;
    var s1, s2 := SurchargeRate(i1), SurchargeRate(i2);
    SurchargeRateMonotone(i1, i2);
    MulLe(p1, p2, 100 + s1);
    MulLe(100 + s1, 100 + s2, p2);
    assert p1 * 100 + p1 * s1 == p1 * (100 + s1);
    assert p2 * 100 + p2 * s2 == p2 * (100 + s2);
    assert 0 <= TotalScaled(i1, b1) <= TotalScaled(i2, b2);
    RoundHalfEvenMonotone(TotalScaled(i1, b1), TotalScaled(i2, b2), 10000);
    RoundHalfEvenSign(TotalScaled(i1, b1), 10000);
  }

  /** The liability is never negative, even where the rebate exceeds the base tax. */
  lemma LiabilityNonNegative(income: int, t: seq<Slab>)
    requires ValidTable(t) && income >= 0
    ensures Liability(income, t) >= 0
  {
    SlabWalkNonNegative(income, t, 0);
    TaxFromBaseMonotone(income, income, SlabWalk(income, t, 0), SlabWalk(income, t, 0));
  }

  /** The final liability is non-decreasing in taxable income, for every
      well-formed table. */
  lemma LiabilityMonotone(a: int, b: int, t: seq<Slab>)
    requires ValidTable(t) && 0 <= a <= b
    ensures Liability(a, t) <= Liability(b, t)
  {
    SlabWalkNonNegative(a, t, 0);
    SlabWalkMonotone(a, b, t, 0);
    TaxFromBaseMonotone(a, b, SlabWalk(a, t, 0), SlabWalk(b, t, 0));
  }

  /** At or below the rebate limit, when the rebate wipes out the base tax,
      only the cess on the pre-rebate base tax remains: round(base x 4%). */
  lemma CessSurvivesRebate(income: int, t: seq<Slab>)
    requires income <= Rebate87ALimit && SlabWalk(income, t, 0) <= Rebate87AAmount * 100
    ensures Liability(income, t) == RoundHalfEven(CessPct * SlabWalk(income, t, 0), 10000)
  {
    SurchargeRateByThreshold(income);
  }

  /** Above the rebate limit and below every surcharge threshold the liability
      is the base tax plus 4% cess, rounded. */
  lemma LiabilityMiddleBand(income: int, t: seq<Slab>)
    requires Rebate87ALimit < income <= 5000000
    ensures Liability(income, t) == RoundHalfEven(104 * SlabWalk(income, t, 0), 10000)
  {
    SurchargeRateByThreshold(income);
  }

  /** Above the rebate limit, over the whole surcharge range, the surcharge
      multiplies the base tax alongside the 4% cess:
      round(base x (104 + surcharge) / 100). */
  lemma LiabilityAboveRebate(income: int, t: seq<Slab>)
    requires income > Rebate87ALimit
    ensures Liability(income, t) == RoundHalfEven((104 + SurchargeRate(income)) * SlabWalk(income, t, 0), 10000)
  {
    var b := SlabWalk(income, t, 0);
    assert b * 100 + CessPct * b + b * SurchargeRate(income) == (104 + SurchargeRate(income)) * b;
  }

  /** Every valid table charges nothing on a taxable income of 0. */
  lemma LiabilityAtZero(t: seq<Slab>)
    requires ValidTable(t)
    ensures Liability(0, t) == 0
  {
    SurchargeRateByThreshold(0);
  }

  /** Every rate table of the calculator is well formed. */
  lemma TablesValid()
    ensures ValidTable(NewRegimeSlabs)
    ensures ValidTable(OldRegimeSlabsBelow60)
    ensures ValidTable(OldRegimeSlabsSenior)
    ensures ValidTable(OldRegimeSlabsSuperSenior)
  {
    var t := NewRegimeSlabs;
    assert t[1..] == t[1..6] && t[1..6][1..] == t[2..6] && t[2..6][1..] == t[3..6];
    assert t[3..6][1..] == t[4..6] && t[4..6][1..] == t[5..6];
    var u := OldRegimeSlabsBelow60;
    assert u[1..] == u[1..4] && u[1..4][1..] == u[2..4] && u[2..4][1..] == u[3..4];
    var v := OldRegimeSlabsSenior;
    assert v[1..] == v[1..4] && v[1..4][1..] == v[2..4] && v[2..4][1..] == v[3..4];
    var w := OldRegimeSlabsSuperSenior;
    assert w[1..] == w[1..3] && w[1..3][1..] == w[2..3];
  }

  /** Closed form of the base tax (paise) on the new-regime table. */
  lemma NewRegimeBase(x: int)
    ensures SlabWalk(x, NewRegimeSlabs, 0) ==
      if x <= 400000 then 0
      else if x <= 800000 then 5 * (x - 400000)
      else if x <= 1200000 then 2000000 + 10 * (x - 800000)
      else if x <= 1600000 then 6000000 + 15 * (x - 1200000)
      else if x <= 2000000 then 12000000 + 20 * (x - 1600000)
      else 20000000 + 30 * (x - 2000000)
  {
    var t := NewRegimeSlabs;
    assert t[1..] == t[1..6] && t[1..6][1..] == t[2..6] && t[2..6][1..] == t[3..6];
    assert t[3..6][1..] == t[4..6] && t[4..6][1..] == t[5..6];
  }

  /** Closed forms of the base tax (paise) on the three old-regime tables. */
  lemma OldRegimeBases(x: int)
    ensures SlabWalk(x, OldRegimeSlabsBelow60, 0) ==
      if x <= 250000 then 0
      else if x <= 500000 then 5 * (x - 250000)
      else if x <= 1000000 then 1250000 + 20 * (x - 500000)
      else 11250000 + 30 * (x - 1000000)
    ensures SlabWalk(x, OldRegimeSlabsSenior, 0) ==
      if x <= 300000 then 0
      else if x <= 500000 then 5 * (x - 300000)
      else if x <= 1000000 then 1000000 + 20 * (x - 500000)
      else 11000000 + 30 * (x - 1000000)
    ensures SlabWalk(x, OldRegimeSlabsSuperSenior, 0) ==
      if x <= 500000 then 0
      else if x <= 1000000 then 20 * (x - 500000)
      else 10000000 + 30 * (x - 1000000)
  {
    var u := OldRegimeSlabsBelow60;
    assert u[1..] == u[1..4] && u[1..4][1..] == u[2..4] && u[2..4][1..] == u[3..4];
    var v := OldRegimeSlabsSenior;
    assert v[1..] == v[1..4] && v[1..4][1..] == v[2..4] && v[2..4][1..] == v[3..4];
    var w := OldRegimeSlabsSuperSenior;
    assert w[1..] == w[1..3] && w[1..3][1..] == w[2..3];
  }

  /** For every taxable income, the super-senior table never costs more than
      the senior table, which never costs more than the below-60 table. */
  lemma OldTablesOrdered(x: int)
    ensures Liability(x, OldRegimeSlabsSuperSenior) <= Liability(x, OldRegimeSlabsSenior)
    ensures Liability(x, OldRegimeSlabsSenior) <= Liability(x, OldRegimeSlabsBelow60)
  {
    OldRegimeBases(x);
    var b1 := SlabWalk(x, OldRegimeSlabsSuperSenior, 0);
    var b2 := SlabWalk(x, OldRegimeSlabsSenior, 0);
    var b3 := SlabWalk(x, OldRegimeSlabsBelow60, 0);
    TaxFromBaseMonotone(x, x, b1, b2);
    TaxFromBaseMonotone(x, x, b2, b3);
  }

  /** Worked case: on the below-60 table a taxable income of 325000 has base
      tax 3750; the rebate removes it, but the 150 of cess remains. */
  lemma CessAfterRebateExample()
    ensures SlabWalk(325000, OldRegimeSlabsBelow60, 0) == 375000
    ensures Liability(325000, OldRegimeSlabsBelow60) == 150
  {
    OldRegimeBases(325000);
    CessSurvivesRebate(325000, OldRegimeSlabsBelow60);
  }

  /** On the new-regime table every taxable income up to 400000 owes nothing. */
  lemma NewRegimeZeroBand(x: int)
    requires x <= 400000
    ensures Liability(x, NewRegimeSlabs) == 0
  {
    NewRegimeBase(x);
    SurchargeRateByThreshold(x);
  }
}
