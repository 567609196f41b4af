/** The recommendation engine: picks the old-regime table by age band,
    works out the remaining deduction limits and both taxable incomes, runs
    the calculator for both regimes, chooses a regime by a first-match rule
    chain and ranks a fixed catalogue of instruments. */
module Engine {
  import opened Wrappers
  import opened Rounding
  import opened Slabs
  import opened TaxCalculator
  import opened Profiles
  import opened Hra
  import opened Ranking

  const StandardDeductionNew: int := 75000
  const Cap80C: int := 150000
  const NpsExtraCap: int := 50000          // section 80CCD(1B)
  const Cap80DSelfFamily: int := 25000
  const HomeLoanInterestCap: int := 200000 // section 24(b)
  const ElssCeiling: int := 100000
  const SukanyaCeiling: int := 150000
  const SavingsThreshold: int := 30000
  const HighSavingsThreshold: int := 60000
  const DeductionThreshold: int := 150000
  const TopN: nat := 5
  const Disclaimer: string := "Estimates only. Always consult a qualified CA."

  datatype Regime = New | Old

  /** A regime choice with its confidence in hundredths (85 stands for 0.85). */
  datatype Decision = Decision(regime: Regime, confidencePct: int)

  datatype Recommendation = Recommendation(
    regime: Regime,
    taxNew: int,
    taxOld: int,
    potentialSavings: int,
    confidencePct: int,
    recommendations: seq<Instrument>,
    disclaimer: string)

  // ── Age band and limits ────────────────────────────────────────────────

  /** Old-regime table by age band: 80 and over, 60 to 79, below 60. */
  function OldSlabsFor(age: int): (t: seq<Slab>)
    ensures ValidTable(t)
  {
    TablesValid();
    if age >= 80 then OldRegimeSlabsSuperSenior
    else if age >= 60 then OldRegimeSlabsSenior
    else OldRegimeSlabsBelow60
  }

  /** Room left under section 80C: together with the claim it fills the cap,
      and there is none once the claim reaches it. */
  function Remaining80C(claimed: int): (r: int)
    ensures r >= 0
    ensures claimed <= Cap80C ==> claimed + r == Cap80C
    ensures claimed >= Cap80C ==> r == 0
  {
    Max(0, Cap80C - claimed)
  }

  /** Room left under section 80D. Though written as a conditional, it is the
      same clamp as for 80C. */
  function Remaining80D(claimed: int): (r: int)
    ensures r == Max(0, Cap80DSelfFamily - claimed)
  {
    if claimed < Cap80DSelfFamily then Cap80DSelfFamily - claimed else 0
  }

  /** New-regime taxable income: gross less the standard deduction, and
      zero when the deduction covers it all. */
  function TaxableNew(gross: int): (r: int)
    ensures r >= 0
    ensures gross >= StandardDeductionNew ==> r + StandardDeductionNew == gross
    ensures gross <= StandardDeductionNew ==> r == 0
  {
    Max(0, gross - StandardDeductionNew)
  }

  /** Old-regime taxable income: the 80C claim uncapped, the full NPS extra
      cap, the remaining 80D room and the rent exemption are all subtracted. */
  function TaxableOld(gross: int, claimed80C: int, remaining80D: int, hra: int): (r: int)
    ensures r >= 0
    ensures var deductions := claimed80C + NpsExtraCap + remaining80D + hra;
      (gross >= deductions ==> r + deductions == gross) && (gross <= deductions ==> r == 0)
  {
    Max(0, gross - claimed80C - NpsExtraCap - remaining80D - hra)
  }

  // ── Regime decision ────────────────────────────────────────────────────

  /** The deterministic rule chain, first match wins; `forceOld` stands for
      the training-data override that recommends the old regime outright. */
  function ChooseRegime(savings: int, claimed80C: int, hra: int, forceOld: bool): Decision {
    if forceOld then Decision(Old, 90)
    else if savings > SavingsThreshold then Decision(New, if savings > HighSavingsThreshold then 94 else 88)
    else if claimed80C + NpsExtraCap + hra > DeductionThreshold then Decision(Old, 92)
    else Decision(New, 85)
  }

  // ── Instrument catalogue ──────────────────────────────────────────────

  function ElssScore(risk: Risk): int {
    if risk == High then 90 else if risk == Medium then 75 else 50
  }

  function NpsScore(risk: Risk): int {
    if risk != Low then 85 else 60
  }

  /** Tax saved at a flat 30%, rounded as `round` does. */
  function EstimatedSave(amount: int): int {
    RoundHalfEven(3 * amount, 10)
  }

  function Offer(k: Kind, amount: int, score: int): Instrument {
    Instrument(k, amount, EstimatedSave(amount), score)
  }

  function ElssOffer(remaining80C: int, risk: Risk): Instrument {
    Offer(Elss, Min(remaining80C, ElssCeiling), ElssScore(risk))
  }

  function NpsOffer(risk: Risk): Instrument {
    Offer(Nps, NpsExtraCap, NpsScore(risk))
  }

  function HealthOffer(remaining80D: int): Instrument {
    Offer(HealthInsurance, remaining80D, 95)
  }

  function SukanyaOffer(remaining80C: int): Instrument {
    Offer(Sukanya, Min(remaining80C, SukanyaCeiling), 85)
  }

  function HomeLoanOffer(): Instrument {
    Offer(HomeLoan, HomeLoanInterestCap, 75)
  }

  /** The record the catalogue offers for an instrument kind. */
  function OfferFor(k: Kind, remaining80C: int, remaining80D: int, risk: Risk): Instrument {
    match k
    case Elss => ElssOffer(remaining80C, risk)
    case Nps => NpsOffer(risk)
    case HealthInsurance => HealthOffer(remaining80D)
    case Sukanya => SukanyaOffer(remaining80C)
    case HomeLoan => HomeLoanOffer()
  }

  /** The candidates in the order the engine appends them. */
  function Candidates(remaining80C: int, remaining80D: int, regime: Regime, risk: Risk): seq<Instrument> {
    (if remaining80C > 0 then [ElssOffer(remaining80C, risk)] else [])
    + (if NpsExtraCap > 0 then [NpsOffer(risk)] else [])
    + (if remaining80D > 0 then [HealthOffer(remaining80D)] else [])
    + (if remaining80C > 0 then [SukanyaOffer(remaining80C)] else [])
    + (if regime == Old then [HomeLoanOffer()] else [])
  }

  // ── The engine ─────────────────────────────────────────────────────────

  /** The engine's result for a profile, as a function. */
  function Recommend(p: Profile, forceOld: bool): Result<Recommendation, EngineError> {
    match HraExemption(p)
    case Failure(e) => Failure(e)
    case Success(hra) =>
      var rem80C := Remaining80C(Claimed80C(p));
      var rem80D := Remaining80D(Claimed80D(p));
      var taxNew := Liability(TaxableNew(GrossOf(p)), NewRegimeSlabs);
      var taxOld := Liability(TaxableOld(GrossOf(p), Claimed80C(p), rem80D, hra), OldSlabsFor(AgeOf(p)));
      var savings := Max(0, taxOld - taxNew);
      var d := ChooseRegime(savings, Claimed80C(p), hra, forceOld);
      var ranked := SortByScore(Candidates(rem80C, rem80D, d.regime, RiskOf(p)));
      Success(Recommendation(d.regime, taxNew, taxOld, savings, d.confidencePct, Top(ranked, TopN), Disclaimer))
  }

  /** The regime decision as the engine takes it, one branch after another. */
  method DecideRegime(savingsIfNew: int, current80C: int, remainingNpsExtra: int, hraExempt: int, forceOld: bool)
      returns (regime: Regime, confidence: int)
    requires remainingNpsExtra == NpsExtraCap
    ensures Decision(regime, confidence) == ChooseRegime(savingsIfNew, current80C, hraExempt, forceOld)
  {
    if forceOld {
      regime, confidence := Old, 90;
    } else {
      regime, confidence := New, 85;
      if savingsIfNew > SavingsThreshold {
        confidence := if savingsIfNew > HighSavingsThreshold then 94 else 88;
      } else if current80C + remainingNpsExtra + hraExempt > DeductionThreshold {
        regime, confidence := Old, 92;
      } else {
        regime, confidence := New, 85;
      }
    }
  }

  /** The candidate list, appended to in catalogue order. */
  method CollectCandidates(remaining80C: int, remainingNpsExtra: int, remaining80D: int, regime: Regime, risk: Risk)
      returns (instruments: seq<Instrument>)
    requires remainingNpsExtra == NpsExtraCap
    ensures instruments == Candidates(remaining80C, remaining80D, regime, risk)
  {
    instruments := [];
    if remaining80C > 0 {
      instruments := instruments + [ElssOffer(remaining80C, risk)];
    }
    ghost var expected := if remaining80C > 0 then [ElssOffer(remaining80C, risk)] else [];
    assert instruments == expected;
    if remainingNpsExtra > 0 {
      instruments := instruments + [NpsOffer(risk)];
    }
    expected := expected + (if NpsExtraCap > 0 then [NpsOffer(risk)] else []);
    assert instruments == expected;
    if remaining80D > 0 {
      instruments := instruments + [HealthOffer(remaining80D)];
    }
    expected := expected + (if remaining80D > 0 then [HealthOffer(remaining80D)] else []);
    assert instruments == expected;
    if remaining80C > 0 {
      instruments := instruments + [SukanyaOffer(remaining80C)];
    }
    expected := expected + (if remaining80C > 0 then [SukanyaOffer(remaining80C)] else []);
    assert instruments == expected;
    if regime == Old {
      instruments := instruments + [HomeLoanOffer()];
    }
    expected := expected + (if regime == Old then [HomeLoanOffer()] else []);
  }

  /** The engine as the source runs it: straight-line limits and incomes,
      two calls of the calculator, the regime chain as successive
      assignments, and the candidate list built by appends, then sorted and
      truncated. */
  method GenerateRecommendations(p: Profile, forceOld: bool) returns (r: Result<Recommendation, EngineError>)
    ensures r == Recommend(p, forceOld)
    ensures r.Failure? <==> HasRent(p) && p.grossIncome.None?
  {
    var gross := GrossOf(p);
    var age := AgeOf(p);
    var risk := RiskOf(p);
    var current80C := Claimed80C(p);
    var current80D := Claimed80D(p);

    var oldSlabs: seq<Slab>;
    if age >= 80 {
      oldSlabs := OldRegimeSlabsSuperSenior;
    } else if age >= 60 {
      oldSlabs := OldRegimeSlabsSenior;
    } else {
      oldSlabs := OldRegimeSlabsBelow60;
    }

    assert oldSlabs == OldSlabsFor(age);

    var remaining80C := Remaining80C(current80C);
    var remainingNpsExtra := NpsExtraCap;
    var remaining80D := Remaining80D(current80D);

    var hra := HraExemption(p);
    if hra.Failure? {
      return Failure(hra.error);
    }
    var hraExempt := hra.value;

    var taxableNew := TaxableNew(gross);
    var taxableOld := TaxableOld(gross, current80C, remaining80D, hraExempt);
    var taxNew := CalculateTax(taxableNew, NewRegimeSlabs);
    var taxOld := CalculateTax(taxableOld, oldSlabs);
    var savingsIfNew := Max(0, taxOld - taxNew);

    var regime, confidence := DecideRegime(savingsIfNew, current80C, remainingNpsExtra, hraExempt, forceOld);
    var instruments := CollectCandidates(remaining80C, remainingNpsExtra, remaining80D, regime, risk);
    instruments := SortByScore(instruments);
    r := Success(Recommendation(regime, taxNew, taxOld, savingsIfNew, confidence, Top(instruments, TopN), Disclaimer));
  }

  // ── Properties ─────────────────────────────────────────────────────────

  /** An older taxpayer's old-regime table never costs more, at any income. */
  lemma AgeBandOrdering(younger: int, older: int, x: int)
    requires younger <= older
    ensures Liability(x, OldSlabsFor(older)) <= Liability(x, OldSlabsFor(younger))
  {
    OldTablesOrdered(x);
  }

  /** Every candidate is the catalogue's record for its kind. */
  lemma CandidatesAreOffers(rem80C: int, rem80D: int, regime: Regime, risk: Risk)
    ensures var c := Candidates(rem80C, rem80D, regime, risk);
      forall i :: 0 <= i < |c| ==> c[i] == OfferFor(c[i].kind, rem80C, rem80D, risk)
  {
  }

  /** The catalogue: at most five candidates; NPS always; ELSS and Sukanya
      exactly when 80C room remains; health insurance exactly when 80D room
      remains; the home loan exactly when the old regime is chosen. */
  lemma CandidatesCatalogue(rem80C: int, rem80D: int, regime: Regime, risk: Risk)
    ensures var c := Candidates(rem80C, rem80D, regime, risk);
      && |c| <= TopN
      && Has(c, Nps)
      && (Has(c, Elss) <==> rem80C > 0)
      && (Has(c, Sukanya) <==> rem80C > 0)
      && (Has(c, HealthInsurance) <==> rem80D > 0)
      && (Has(c, HomeLoan) <==> regime == Old)
  {
    var c := Candidates(rem80C, rem80D, regime, risk);
    var e := if rem80C > 0 then 1 else 0;
    assert c[e] == NpsOffer(risk);
    if rem80C > 0 {
      assert c[0].kind == Elss;
    }
    var h := if rem80D > 0 then 1 else 0;
    if rem80D > 0 {
      assert c[e + 1].kind == HealthInsurance;
    }
    if rem80C > 0 {
      assert c[e + 1 + h].kind == Sukanya;
    }
    if regime == Old {
      assert c[|c| - 1].kind == HomeLoan;
    }
  }

  /** Ranking the catalogue: the cut at five never drops a candidate; the
      ranked list is sorted by score from highest, is a permutation of the
      candidates, and keeps equal scores in append order. */
  lemma RankedCandidates(rem80C: int, rem80D: int, regime: Regime, risk: Risk)
    ensures var c := Candidates(rem80C, rem80D, regime, risk);
      var ranked := Top(SortByScore(c), TopN);
      && ranked == SortByScore(c)
      && SortedByScoreDesc(ranked)
      && multiset(ranked) == multiset(c)
      && forall k :: WithScore(ranked, k) == WithScore(c, k)
  {
    var c := Candidates(rem80C, rem80D, regime, risk);
    CandidatesCatalogue(rem80C, rem80D, regime, risk);
    SortPermutes(c);
    assert |SortByScore(c)| == |multiset(c)| == |c|;
    SortSorted(c);
    forall k {
      SortStable(c, k);
    }
  }

  /** Which instruments the ranked list holds, and on what terms. */
  lemma RecommendedInstruments(rem80C: int, rem80D: int, regime: Regime, risk: Risk)
    ensures var recs := Top(SortByScore(Candidates(rem80C, rem80D, regime, risk)), TopN);
      && Has(recs, Nps)
      && (Has(recs, Elss) <==> rem80C > 0)
      && (Has(recs, Sukanya) <==> rem80C > 0)
      && (Has(recs, HealthInsurance) <==> rem80D > 0)
      && (Has(recs, HomeLoan) <==> regime == Old)
      && forall i :: 0 <= i < |recs| ==> recs[i] == OfferFor(recs[i].kind, rem80C, rem80D, risk)
  {
    var c := Candidates(rem80C, rem80D, regime, risk);
    var recs := Top(SortByScore(c), TopN);
    RankedCandidates(rem80C, rem80D, regime, risk);
    CandidatesCatalogue(rem80C, rem80D, regime, risk);
    CandidatesAreOffers(rem80C, rem80D, regime, risk);
    HasPermutation(recs, c, Nps);
    HasPermutation(recs, c, Elss);
    HasPermutation(recs, c, Sukanya);
    HasPermutation(recs, c, HealthInsurance);
    HasPermutation(recs, c, HomeLoan);
    forall i | 0 <= i < |recs|
      ensures recs[i] == OfferFor(recs[i].kind, rem80C, rem80D, risk)
    {
      assert recs[i] in multiset(c);
    }
  }

  /** Health insurance, whenever it is offered, is ranked first: no other
      instrument scores as high as 95. */
  lemma HealthInsuranceRanksFirst(rem80C: int, rem80D: int, regime: Regime, risk: Risk)
    requires rem80D > 0
    ensures var recs := Top(SortByScore(Candidates(rem80C, rem80D, regime, risk)), TopN);
      |recs| > 0 && recs[0].kind == HealthInsurance
  {
    var c := Candidates(rem80C, rem80D, regime, risk);
    var s := SortByScore(c);
    CandidatesCatalogue(rem80C, rem80D, regime, risk);
    CandidatesAreOffers(rem80C, rem80D, regime, risk);
    SortPermutes(c);
    SortSorted(c);
    var j :| 0 <= j < |c| && c[j].kind == HealthInsurance;
    assert c[j] in multiset(s);
    var m :| 0 <= m < |s| && s[m] == c[j];
    assert s[0] in multiset(c);
    var i :| 0 <= i < |c| && c[i] == s[0];
    OnlyHealthScores95(c[i].kind, rem80C, rem80D, risk);
  }

  /** Every instrument other than health insurance scores below 95. */
  lemma OnlyHealthScores95(k: Kind, rem80C: int, rem80D: int, risk: Risk)
    ensures OfferFor(k, rem80C, rem80D, risk).score >= 95 <==> k == HealthInsurance
  {
  }

  /** The engine's result is assembled from the pieces above: both
      liabilities from the calculator, potential savings as the old-regime
      excess (never negative), the decision of the rule chain, and the ranked
      catalogue for the chosen regime. */
  lemma RecommendationShape(p: Profile, forceOld: bool)
    requires !HasRent(p) || p.grossIncome.Some?
    ensures Recommend(p, forceOld).Success?
    ensures var v := Recommend(p, forceOld).value;
      var hra := HraExemption(p).value;
      && v.potentialSavings == Max(0, v.taxOld - v.taxNew) >= 0
      && Decision(v.regime, v.confidencePct) == ChooseRegime(v.potentialSavings, Claimed80C(p), hra, forceOld)
      && v.recommendations == Top(SortByScore(Candidates(Remaining80C(Claimed80C(p)), Remaining80D(Claimed80D(p)), v.regime, RiskOf(p))), TopN)
      && |v.recommendations| <= TopN
  {
    var v := Recommend(p, forceOld).value;
    CandidatesCatalogue(Remaining80C(Claimed80C(p)), Remaining80D(Claimed80D(p)), v.regime, RiskOf(p));
  }

  /** Without the override, the old regime is only recommended when it costs
      at most the savings threshold more, and the new regime is always
      recommended when it saves more than that. */
  lemma RegimeFollowsSavings(p: Profile)
    requires !HasRent(p) || p.grossIncome.Some?
    ensures Recommend(p, false).Success?
    ensures var v := Recommend(p, false).value;
      && (v.taxOld - v.taxNew > SavingsThreshold ==> v.regime == New && v.confidencePct >= 88)
      && (v.regime == Old ==> v.taxOld - v.taxNew <= SavingsThreshold && v.confidencePct == 92)
  {
  }

  /** Among new-regime decisions without the override, confidence never falls
      as the savings grow. */
  lemma ConfidenceGrowsWithSavings(s1: int, s2: int, claimed80C: int, hra: int)
    requires s1 <= s2
    requires ChooseRegime(s1, claimed80C, hra, false).regime == New
    requires ChooseRegime(s2, claimed80C, hra, false).regime == New
    ensures ChooseRegime(s1, claimed80C, hra, false).confidencePct <= ChooseRegime(s2, claimed80C, hra, false).confidencePct
  {
  }

  /** The new-regime tax does not depend on age; the old-regime tax never
      rises with age. */
  lemma OlderNeverPaysMore(p: Profile, olderAge: int)
    requires !HasRent(p) || p.grossIncome.Some?
    requires AgeOf(p) <= olderAge
    ensures var q := p.(age := Some(olderAge));
      && Recommend(p, false).Success? && Recommend(q, false).Success?
      && Recommend(q, false).value.taxNew == Recommend(p, false).value.taxNew
      && Recommend(q, false).value.taxOld <= Recommend(p, false).value.taxOld
  {
    var q := p.(age := Some(olderAge));
    assert HraExemption(q) == HraExemption(p);
    var hra := HraExemption(p).value;
    var x := TaxableOld(GrossOf(p), Claimed80C(p), Remaining80D(Claimed80D(p)), hra);
    AgeBandOrdering(AgeOf(p), olderAge, x);
  }

  /** Medium risk under the new regime, with room under both 80C and 80D:
      health insurance (95) first, then NPS and Sukanya tied at 85 in append
      order, then ELSS (75). */
  lemma MediumRiskNewRegimeRanking(rem80C: int, rem80D: int)
    requires rem80C > 0 && rem80D > 0
    ensures SortByScore(Candidates(rem80C, rem80D, New, Medium)) ==
      [HealthOffer(rem80D), NpsOffer(Medium), SukanyaOffer(rem80C), ElssOffer(rem80C, Medium)]
  {
    var e, n, h, s := ElssOffer(rem80C, Medium), NpsOffer(Medium), HealthOffer(rem80D), SukanyaOffer(rem80C);
    var c := Candidates(rem80C, rem80D, New, Medium);
    assert c == [e, n, h, s];
    assert c[3..] == [s] && c[2..] == [h, s] && c[1..] == [n, h, s];
    assert SortByScore([s]) == [s];
    assert SortByScore(c[2..]) == [h, s];
    assert Insert(n, [s]) == [n, s];
    assert SortByScore(c[1..]) == [h, n, s];
    assert Insert(e, [s]) == [s, e];
    assert Insert(e, [n, s]) == [n, s, e];
  }

  /** Worked case: gross 400000 and nothing else. New-regime taxable income
      is 325000, inside the zero-rate bracket; old-regime taxable income is
      also 325000 (NPS cap and unused 80D room deducted), where only the
      cess of 150 survives the rebate. */
  lemma LowIncomeScenario()
    ensures var p := Profile(Some(400000), None, None, None, None, None, None, None);
      Recommend(p, false) == Success(Recommendation(New, 0, 150, 150, 85,
        [HealthOffer(25000), NpsOffer(Medium), SukanyaOffer(150000), ElssOffer(150000, Medium)], Disclaimer))
  {
    NewRegimeZeroBand(325000);
    CessAfterRebateExample();
    MediumRiskNewRegimeRanking(150000, 25000);
  }

  /** The two liabilities of the sample profile below: 145000 base tax plus
      4% cess under the new regime, 246000 plus cess under the old one. */
  lemma SampleLiabilities()
    ensures Liability(1725000, NewRegimeSlabs) == 150800
    ensures Liability(1445000, OldRegimeSlabsBelow60) == 255840
  {
    NewRegimeBase(1725000);
    LiabilityMiddleBand(1725000, NewRegimeSlabs);
    OldRegimeBases(1445000);
    LiabilityMiddleBand(1445000, OldRegimeSlabsBelow60);
  }

  /** The source's sample profile: gross 1800000, age 45, metro, rent 35000 a
      month, 60000 claimed under 80C and 20000 under 80D. */
  function SampleProfile(): Profile {
    Profile(Some(1800000), Some(45), Some(Medium), Some(Metro), Some(true), Some(35000), Some(60000), Some(20000))
  }

  /** The sample profile's limits, exemption and taxable incomes. */
  lemma SampleProfileIncomes()
    ensures var p := SampleProfile();
      && Remaining80C(Claimed80C(p)) == 90000
      && Remaining80D(Claimed80D(p)) == 5000
      && HraExemption(p) == Success(240000)
      && TaxableNew(GrossOf(p)) == 1725000
      && TaxableOld(GrossOf(p), Claimed80C(p), 5000, 240000) == 1445000
  {
    assert ExemptionFor(1800000, 35000, true) == 240000;
  }

  /** The engine's full answer for the sample profile. */
  lemma SampleProfileScenario()
    ensures Recommend(SampleProfile(), false) == Success(Recommendation(New, 150800, 255840, 105040, 94,
              [Instrument(HealthInsurance, 5000, 1500, 95), Instrument(Nps, 50000, 15000, 85),
               Instrument(Sukanya, 90000, 27000, 85), Instrument(Elss, 90000, 27000, 75)], Disclaimer))
  {
    var p := SampleProfile();
    SampleProfileIncomes();
    SampleLiabilities();
    assert OldSlabsFor(45) == OldRegimeSlabsBelow60;
    assert ChooseRegime(105040, 60000, 240000, false) == Decision(New, 94);
    MediumRiskNewRegimeRanking(90000, 5000);
    var ranked := [HealthOffer(5000), NpsOffer(Medium), SukanyaOffer(90000), ElssOffer(90000, Medium)];
    assert Top(ranked, TopN) == ranked;
    assert ranked == [Instrument(HealthInsurance, 5000, 1500, 95), Instrument(Nps, 50000, 15000, 85),
                      Instrument(Sukanya, 90000, 27000, 85), Instrument(Elss, 90000, 27000, 75)];
  }
}
