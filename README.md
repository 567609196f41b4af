# Tax recommendation engine — a verified model

This project models the rule-based core of an Indian personal income-tax
recommendation engine for FY 2025-26. The engine compares the old and new
statutory regimes for one taxpayer and suggests deduction instruments. It has
three parts, all in `src/tax_recommendation_engine.py`:

- **The tax calculator** (`calculate_tax`). It walks a progressive slab table
  and adds a 4% cess on the base tax. At or below a taxable income of
  700000 it applies the section 87A rebate of 25000, never going below zero. It adds one
  surcharge rate, taken from a threshold table, and rounds to whole rupees.
- **The HRA exemption** (`calculate_hra_exemption`). This is a simplified form
  of section 10(13A) of the Income-tax Act, 1961.
- **The recommendation engine** (`generate_recommendations`). It works through
  these steps:
  - selects the old-regime table by age band;
  - computes the remaining deduction room under sections 80C and 80D;
  - computes the taxable income under each regime;
  - calls the calculator twice;
  - picks a regime with a first-match rule chain;
  - appends up to five scored instruments, then sorts them stably by score,
    highest first, and keeps the top five.

Modules (one file each):
- `Rounding` (rounding.dfy): Python's `round` on exact amounts, with ties to even.
- `Slabs` (slabs.dfy): bracket tables, the walk the calculator's loop performs,
  and an independent bracket-integral definition.
- `TaxCalculator` (tax_calculator.dfy): the rate tables, cess, rebate and
  surcharge. `CalculateTax` is the loop method. It is verified against the
  `Liability` function.
- `Profiles` (profiles.dfy): the input record. Every field is optional and is
  read with the engine's default.
- `Hra` (hra.dfy): the exemption rule.
- `Ranking` (ranking.dfy): instruments and the stable sort by score.
- `Engine` (engine.dfy): limits, taxable incomes, the regime chain, the
  catalogue, the `Recommend` function, and the imperative
  `GenerateRecommendations` method that is verified against it.
- `Wrappers` (wrappers.dfy): `Option` and `Result`.

Arithmetic is exact:
- Incomes are whole rupees and rates are whole percents.
- The base tax is kept in paise (rupees × percent).
- The total before rounding is kept in ten-thousandths of a rupee.
- HRA amounts are kept in tenths of a rupee.
- Confidence is kept in hundredths (85 stands for 0.85).

The training-data override at lines 150-155 (`random.random() < 0.4`) is a
coin toss. The model takes it as the explicit boolean parameter `forceOld`.

Where the code departs from the intent stated around it, the model follows the
code:
- The 87A rebate is applied to both regimes, although the comment at line 78
  says "new regime only".

Other behaviour of the code a reader might not expect; the model follows the
code here too:
- The surcharge multiplies the post-rebate tax only. It does not multiply the
  cess.
- The rule that switches to the old regime sums the *claimed* 80C amount, the
  NPS cap and the HRA exemption. It does not use the remaining 80C room.
- The old-regime taxable income subtracts:
  - the 80C claim, uncapped;
  - always the full 50000 NPS cap;
  - the *remaining* 80D room.
- `calculate_tax` does not clamp a negative income. Its callers pass only
  non-negative incomes.
- The thresholds are fixed at 30000, 60000 and 150000, and the list is cut at 5.
- The HRA rule reads gross income without a default, so a rent payer without
  a gross income makes the engine fail. The model returns
  `Failure(MissingGrossIncome)` for that case.
- Risk appetite is compared as text. An unrecognised value scores like "low"
  for ELSS (50) but like "medium" for NPS (85).

## Model

| member | source | states |
|---|---|---|
| Rounding.RoundHalfEvenNearest | src/tax_recommendation_engine.py:89 | the rounding used for the liability returns a nearest integer to the exact amount, and an exact half goes to the even neighbour (Python `round`) |
| Rounding.RoundHalfEvenMonotone | src/tax_recommendation_engine.py:89 | rounding preserves the order of two amounts |
| Rounding.RoundHalfEvenSign | src/tax_recommendation_engine.py:107 | rounding keeps the sign of the amount, so `max(0, round(x))` is 0 exactly when x rounds to a non-positive value |
| Slabs.WalkStopsInTable | src/tax_recommendation_engine.py:68-74 | on a valid table the bracket loop always reaches its `break`: there is a first bracket the income does not exceed, at the latest the unbounded last one |
| Slabs.SlabWalkIsBracketIntegral | src/tax_recommendation_engine.py:66-74 | the loop's accumulated tax equals the sum over all brackets of (overlap of the bracket with [0, income]) × rate |
| Slabs.OverlapSumAbove | src/tax_recommendation_engine.py:72-74 | brackets that lie entirely above the income add nothing |
| Slabs.SlabWalkNonNegative | src/tax_recommendation_engine.py:66-74 | the base tax of a non-negative income is never negative |
| Slabs.SlabWalkMonotone | src/tax_recommendation_engine.py:66-74 | the base tax is non-decreasing in income |
| Slabs.SlabWalkAtBoundary | src/tax_recommendation_engine.py:69-74 | at an income equal to a bracket's upper bound, that bracket and all below it count at full width and no later bracket contributes |
| TaxCalculator.CalculateTax | src/tax_recommendation_engine.py:64-89 | the loop method (bracket walk with early break, cess, rebate, surcharge loop, rounding) returns exactly `Liability(income, table)`, which is non-negative for a valid table and a non-negative income |
| TaxCalculator.SurchargeRateByThreshold | src/tax_recommendation_engine.py:82-87 | exactly one surcharge rate applies: 25% above 20000000, 15% above 10000000, 10% above 5000000, otherwise 0; the 37% keyed at infinity is never selected |
| TaxCalculator.SurchargeRateMonotone | src/tax_recommendation_engine.py:82-87 | the surcharge rate never falls as income rises |
| TaxCalculator.TaxFromBaseMonotone | src/tax_recommendation_engine.py:76-89 | cess, rebate, surcharge and rounding together are non-negative and non-decreasing in both the income and the base tax |
| TaxCalculator.LiabilityNonNegative | src/tax_recommendation_engine.py:78-80 | the rebate never makes the liability negative |
| TaxCalculator.LiabilityMonotone | src/tax_recommendation_engine.py:64-89 | for every valid table, the final liability is non-decreasing in taxable income, across the rebate limit and the surcharge thresholds |
| TaxCalculator.CessSurvivesRebate | src/tax_recommendation_engine.py:76-80 | when the rebate wipes out the base tax, the liability is still round(4% of the pre-rebate base tax), because the cess is taken before the rebate |
| TaxCalculator.LiabilityMiddleBand | src/tax_recommendation_engine.py:76-89 | between the rebate limit and the first surcharge threshold, the liability is round(104% of the base tax) |
| TaxCalculator.TablesValid | src/tax_recommendation_engine.py:9-36 | all four slab tables have strictly increasing bounds and end in an unbounded bracket |
| TaxCalculator.NewRegimeBase | src/tax_recommendation_engine.py:9-16 | closed form of the new-regime base tax, bracket by bracket |
| TaxCalculator.OldRegimeBases | src/tax_recommendation_engine.py:18-36 | closed forms of the base tax on the below-60, senior and super-senior tables |
| TaxCalculator.OldTablesOrdered | src/tax_recommendation_engine.py:18-36 | for every income, liability(super-senior) ≤ liability(senior) ≤ liability(below 60) |
| TaxCalculator.CessAfterRebateExample | src/tax_recommendation_engine.py:76-80 | taxable 325000 on the below-60 table: base tax 3750, removed by the rebate, but a liability of 150 (the cess) remains |
| TaxCalculator.LiabilityAboveRebate | src/tax_recommendation_engine.py:76-89 | above the rebate limit, at every income, the surcharge applies to the base tax only and the cess is 4% of it: the liability is round((104 + surcharge rate)% of the base tax) |
| TaxCalculator.LiabilityAtZero | src/tax_recommendation_engine.py:64-89 | every valid table charges nothing on a taxable income of 0 |
| TaxCalculator.NewRegimeZeroBand | src/tax_recommendation_engine.py:9-16 | the new regime charges nothing on a taxable income up to 400000 |
| Hra.HraExemption | src/tax_recommendation_engine.py:92-107 | the exemption is exactly 0 without rent; it fails exactly when rent is paid and gross income is missing; otherwise it is non-negative |
| Hra.ExemptionBounds | src/tax_recommendation_engine.py:98-107 | 0 ≤ exemption ≤ round(40% of gross), and exemption ≤ max(0, round(12 × rent − 10% of gross)) |
| Hra.MetroIrrelevant | src/tax_recommendation_engine.py:101-105 | the metro flag never changes the exemption: basic salary (40% of gross) is never above either city cap, and a negative gross gives 0 either way |
| Hra.ExemptionWithRent | src/tax_recommendation_engine.py:97-107 | with rent and a known gross, the exemption is max(0, round(min(12 × rent − 10% of gross, 40% of gross))) |
| Engine.OldSlabsFor | src/tax_recommendation_engine.py:126-131 | each age band selects a valid table |
| Engine.AgeBandOrdering | src/tax_recommendation_engine.py:126-131 | an older taxpayer's old-regime table never costs more at any taxable income (age ≥ 80 super-senior, 60-79 senior, otherwise below 60) |
| Engine.Remaining80C | src/tax_recommendation_engine.py:134 | the remaining 80C room is non-negative, fills the 150000 cap together with the claim, and is 0 once the claim reaches the cap |
| Engine.Remaining80D | src/tax_recommendation_engine.py:136 | the conditional form equals max(0, 25000 − claimed) |
| Engine.TaxableNew | src/tax_recommendation_engine.py:142 | new-regime taxable income is gross less 75000, and 0 when the deduction covers it |
| Engine.TaxableOld | src/tax_recommendation_engine.py:143 | old-regime taxable income is gross less (claimed 80C, uncapped) + 50000 + remaining 80D + HRA exemption, and 0 when the deductions cover it |
| Engine.GenerateRecommendations | src/tax_recommendation_engine.py:110-262 | the imperative engine (age-band branch, regime chain by assignment, candidate list by appends, sort, cut at five) returns exactly `Recommend(p, forceOld)`, and fails exactly when rent is paid without a gross income |
| Engine.RecommendationShape | src/tax_recommendation_engine.py:145-260 | potential savings are always max(0, old − new) (the dead `savings_new` changes nothing); the decision is the rule chain applied to those savings; the list is the ranked catalogue, at most five long |
| Engine.DecideRegime | src/tax_recommendation_engine.py:152-167 | the branch chain, run as successive assignments with the coin passed in as `forceOld`, yields exactly the decision `ChooseRegime` describes: the override gives old at 0.90, savings above 30000 give new at 0.88 or 0.94, deductions above 150000 give old at 0.92, and otherwise new at 0.85 |
| Engine.RegimeFollowsSavings | src/tax_recommendation_engine.py:157-167 | without the override, a saving of more than 30000 under the new regime always recommends it (confidence ≥ 0.88), and the old regime is recommended only when the new saves at most 30000, with confidence 0.92 |
| Engine.ConfidenceGrowsWithSavings | src/tax_recommendation_engine.py:158-167 | among new-regime decisions, confidence never falls as savings grow (0.85, 0.88, 0.94) |
| Engine.OlderNeverPaysMore | src/tax_recommendation_engine.py:126-146 | raising the age leaves the new-regime tax unchanged and never raises the old-regime tax |
| Engine.CollectCandidates | src/tax_recommendation_engine.py:170-250 | the five guarded appends build exactly the catalogue list `Candidates`, in append order |
| Engine.CandidatesCatalogue | src/tax_recommendation_engine.py:170-250 | at most five candidates; NPS always; ELSS and Sukanya exactly when 80C room remains; health insurance exactly when 80D room remains; the home loan exactly when the regime is old |
| Engine.CandidatesAreOffers | src/tax_recommendation_engine.py:172-250 | each candidate is the catalogue's record for its kind: its amount, 30% estimated saving and score |
| Engine.RankedCandidates | src/tax_recommendation_engine.py:252-260 | the cut at five never drops a candidate; the output is sorted by score descending, is a permutation of the candidates, and keeps equal scores in append order |
| Engine.RecommendedInstruments | src/tax_recommendation_engine.py:172-260 | the returned list holds exactly the instruments above, each with its catalogue amount, 30% estimated saving and risk-dependent score |
| Engine.OnlyHealthScores95 | src/tax_recommendation_engine.py:172-250 | health insurance is the only instrument scoring 95 or more, whatever the risk appetite |
| Engine.HealthInsuranceRanksFirst | src/tax_recommendation_engine.py:204-252 | whenever 80D room remains, health insurance (score 95) is ranked first |
| Engine.MediumRiskNewRegimeRanking | src/tax_recommendation_engine.py:172-252 | with medium risk, new regime and room under both 80C and 80D, the order is health insurance, NPS, Sukanya (tied with NPS, kept in append order), then ELSS |
| Engine.LowIncomeScenario | src/tax_recommendation_engine.py:116-167 | gross 400000 with all other fields missing: new-regime tax 0, old-regime tax 150 (cess only), regime "new" with 0.85 |
| Engine.SampleProfileIncomes | src/tax_recommendation_engine.py:267-276 | the sample profile has remaining 80C 90000, remaining 80D 5000, HRA exemption 240000, and taxable incomes 1725000 (new) and 1445000 (old) |
| Engine.SampleLiabilities | src/tax_recommendation_engine.py:145-146 | the calculator charges 150800 on 1725000 under the new table and 255840 on 1445000 under the below-60 old table |
| Engine.SampleProfileScenario | src/tax_recommendation_engine.py:266-279 | without the override, the engine answers the sample profile with taxes 150800 / 255840, savings 105040, "new" with 0.94, and the ranked list health, NPS, Sukanya, ELSS |
| Ranking.SortPermutes | src/tax_recommendation_engine.py:252 | sorting is a permutation of its input |
| Ranking.SortSorted | src/tax_recommendation_engine.py:252 | sorting orders by score, highest first |
| Ranking.SortStable | src/tax_recommendation_engine.py:252 | sorting keeps instruments of equal score in their input order (Python's sort is stable) |
| Ranking.SharedSection80C | src/tax_recommendation_engine.py:178-242 | the section codes the instruments carry put ELSS and Sukanya, and no other instrument, under 80C |
| Ranking.Top | src/tax_recommendation_engine.py:260 | the `[:5]` slice is the prefix of length min(5, length) |

## Left out

- Fractional rupee amounts are not modelled. Money is whole rupees (`int`), and exact percent arithmetic with round-half-to-even replaces the binary floating-point values of 0.04, 0.05, 0.1, 0.3 and 0.4. Float artefacts, if any arise, are not reproduced.
- The random override at lines 150-155 is not drawn. Its outcome is the parameter `forceOld`.
- Free-text fields are not modelled: the instrument display names, risk and lock-in labels, and the `explanation` strings with rupee formatting. Instruments carry a `Kind`; `Ranking.Section` gives each kind's section code.
- `current_80g` and `remaining_80g` (lines 121 and 137) are read and computed but never used, so they are not modelled. The same holds for the unused limit entries `80D_SENIOR_PARENTS`, `80G`, `EDU_LOAN_INTEREST` and `SUKANYA`.
- The `__main__` block's JSON printing is not modelled. Its sample profile is kept as `Engine.SampleProfileScenario`.
- Inputs of the wrong dynamic type are not modelled: text where a number is expected, or a non-boolean `has_rent` read for its truthiness. Risk appetite and city type are enumerations. Any unrecognised risk text is `Unrecognised`, and any city other than metro is `NonMetro`.
- The Flask endpoint (api/app.py) is not part of this model. Nor are batch CSV processing (src/batch_process.py), the data scripts (src/preprocess.py, src/integrate_with_data.py) and classifier training (src/train_random_forest_regime.py). They are I/O layers and foreign library calls around the engine.
- Python's `list.sort` is a library routine. It is modelled by its specification: a stable insertion sort with sorted, permutation and per-score-order lemmas. The model does not reproduce how the library sorts in place.
