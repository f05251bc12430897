# Scenario evaluation engine of the loneliness-programme cost–benefit tool

This project models, in Dafny, the evaluation engine of the single-page tool
in `script.js`. The tool takes a programme scenario and works it out from the
coefficients of a discrete choice experiment (DCE). A scenario is:
- a programme type, method of participation, frequency, duration and
  accessibility;
- a cost per session, a number of sessions, a target cohort and a region.

From these the tool computes:
- the scenario's attribute utility and its willingness to pay (WTP) per
  participant per session;
- the endorsement (uptake) probability, from a two-alternative logit:
  programme versus opt-out, with a linear cost term;
- endorsed participants, sessions, direct, opportunity and total economic
  cost, benefits and net benefit;
- a benefit–cost ratio (BCR) that is absent when the total cost is not
  positive.

The model also covers:
- the sensitivity sliders and the ±25% cost comparison of uptake;
- the page state that the apply handler and the slider handlers update;
- the direction and strength classification of the DCE parameter table.

Modules (one file each):

- `Coefficients`: the coefficient, multiplier and WTP tables, the
  opportunity-cost rate, and `WtpFor`, the first-match WTP lookup.
- `Scenario`: the configuration record and how it is read from the already
  parsed form. This covers the control defaults, the NSW region default, the
  region multiplier (1.0 for an unlisted region) and the adjusted cost.
- `Levels`: the five attribute dimensions and the level catalogue. This
  reference table records, for each level key the source's if-chains
  recognise, its coefficient and its WTP-table label.
- `Utility`, `ScenarioWtp`: the two if-chain accumulations, written as
  methods. Each is proved equal to the catalogue sum (`AttributeUtility`,
  `Wtp`).
- `Choice`: the clamped logistic helper, the logit shares and the endorsement
  record.
- `CostBenefit`: the aggregation, the BCR rule and their identities.
- `Sensitivity`: the slider arithmetic and the ±25% uptake bars.
- `Session`: the `AppState` class, holding `lastResults` and the two slider
  percentages.
- `DceTable`: the direction and relative-strength classifiers and the
  table-building loop.

JavaScript numbers are modelled as `real`, and the parsed counts as `int`.
`Math.exp` is not computed. It is a parameter `exp` of the functions that
need it. The model assumes only `IsExp(exp)`: it is positive and strictly
increasing. Uptake therefore has no numeric value here. What is proved is
that it lies strictly between 0 and 1 and falls as cost rises, and the
figures that do not depend on it. The BCR is one such figure: it equals the
WTP divided by 1.2 times the adjusted cost per session.

Some behaviours of the code that the model keeps as they are:
- **Aliased levels.** "daily" is valued with the weekly coefficient and
  estimate, and "home" with the local ones (the code's own comment treats
  home delivery as at least as attractive as local). Every coded frequency and
  accessibility level therefore adds a non-zero term (`Utility.NoZeroBaseline`).
- **Defaults, no errors.** An unknown level adds 0, an unknown region gets a
  multiplier of 1.0, and negative counts are clamped to 0 in the aggregation.
- **Fixed opportunity cost.** The 20% opportunity cost is always added.

## Model

| member | source | states |
|---|---|---|
| `Coefficients.WtpFor` | script.js:194-197 | `wtpFor`: the scan `FindFrom` from row 0; `WtpForFindsFirst` proves it returns the first matching row's estimate and 0 for an absent label |
| `Coefficients.FindFrom` | script.js:194-197 | the `Array.find` scan from row `i` on; `FindFromFindsFirst` proves it returns the first matching estimate from row `i`, or 0 |
| `Coefficients.FindFromFindsFirst` | script.js:194-197 | scanning from row `i`, with no earlier match: the result is the first row labelled `name`'s estimate, or 0 when no row has that label (an `Array.find` that falls back to 0) |
| `Coefficients.WtpForFindsFirst` | script.js:194-197 | `wtpFor` returns the estimate of the first row with the requested label, and 0 for a label the table does not contain |
| `Coefficients.WtpTableValues` | script.js:66-78 | the eleven WTP-table labels read back, in order: 14.47, 4.28, −9.58, −11.69, −7.95, 16.93, 9.21, 5.08, 5.85, 1.62, −13.99 |
| `Scenario.OrDefault` | script.js:318-327 | `value \|\| fallback` on a string: a non-empty value is kept, the empty string gives the fallback |
| `Scenario.RegionMultiplier` | script.js:336-337 | an unlisted region gets 1.0; a listed region gets its table multiplier |
| `Scenario.MultipliersAtLeastOne` | script.js:50-59 | every region's multiplier is at least 1.0, and QLD's is exactly 1.00 |
| `Scenario.ReadScenario` | script.js:317-352 | each attribute falls back to its control's default and the region to NSW; the multiplier is ≥ 1, is the table entry for a listed region and 1.0 for an unlisted one; adjusted cost per session = base cost × multiplier; the counts pass through |
| `Scenario.ExampleAdjustedCost` | script.js:1068-1084 | the example loader's scenario is costed in NSW: multiplier 1.10, adjusted cost per session 44 |
| `Scenario.EmptyFormDefaults` | script.js:318-336 | an empty form yields comm / inperson / weekly / 2hrs / local in NSW, at 1.10 × the entered cost |
| `Levels.CatalogMatchesCodedLevels` | script.js:359-403 | a key is recognised in a dimension exactly when it is one of that dimension's coded levels, and it adds a non-zero coefficient exactly then |
| `Utility.ComputeAttributeUtility` | script.js:359-403 | the if-chain accumulation of `u` equals the catalogue sum: one coefficient per dimension for a recognised level, 0 otherwise |
| `Utility.DailyScoresAsWeekly` | script.js:379-381 | "daily" gives the same utility as "weekly" |
| `Utility.HomeScoresAsLocal` | script.js:393-400 | "home" gives the same utility as "local" |
| `Utility.UncodedLevelAddsZero` | script.js:359-403 | any unrecognised level key in any dimension contributes 0, like the peer / in-person / short baselines |
| `Utility.WithLevel` | script.js:359-403 | replacing the level of one dimension sets that dimension and leaves the other four unchanged |
| `Utility.NoZeroBaseline` | script.js:379-400 | every coded frequency and accessibility level adds a non-zero coefficient; the lowest-coded selection peer / inperson / daily / 30 min / home still sums to 0.676 |
| `Utility.ExampleAttributeUtility` | script.js:359-403 | comm / inperson / weekly / 2hrs / local has attribute utility 1.388 |
| `ScenarioWtp.ComputeWtpPerParticipantPerSession` | script.js:440-483 | the if-chain accumulation of `wtp` from `wtpFor` lookups equals the catalogue sum of the selected levels' WTP-table estimates |
| `ScenarioWtp.WtpIgnoresCostAndScale` | script.js:440-483 | the WTP depends only on the five attribute selections, not on cost, region, multiplier or counts |
| `ScenarioWtp.WtpFollowsUtilityMapping` | script.js:440-483 | a level that adds no utility adds no WTP: both calculations use one level mapping |
| `ScenarioWtp.WtpAliases` | script.js:460-480 | "daily" is valued as "weekly" and "home" as "local" |
| `ScenarioWtp.ExampleWtp` | script.js:440-483 | comm / inperson / weekly / 2hrs / local has WTP 38.10 per participant per session |
| `ScenarioWtp.NegativeWtpIsKept` | script.js:440-483 | vr / virtual / monthly / 30 min / wider sums to −26.05, returned without a floor at zero |
| `Choice.Logistic` | script.js:199-203 | the result lies in [0, 1]; it is exactly 1 above 35 and exactly 0 below −35, and strictly between 0 and 1 in between |
| `Choice.LogisticMonotone` | script.js:199-203 | the clamped logistic never decreases, across the clamping thresholds too |
| `Choice.LogitShares` | script.js:417-423 | a zero denominator gives (0, 1); otherwise the two shares sum to 1, the programme share times the denominator is its exponential, and positive exponentials give shares strictly inside (0, 1) |
| `Choice.ShareGrows` | script.js:417-422 | a larger programme exponential gives a strictly larger programme share |
| `Choice.ProgrammeUtility` | script.js:410-415 | `U_prog` at a cost per session: with the negative cost coefficient it is at most ASC + attribute utility exactly when the cost is non-negative, and equal to it exactly at zero cost |
| `Choice.ComputeEndorsement` | script.js:405-434 | the two probabilities sum to 1 and both lie in (0, 1); the base utility is the attribute utility; ASC + base utility + cost term is the programme utility at the adjusted cost; the endorsement probability satisfies the logit relation with `exp` |
| `Choice.EndorsementFallsWithCost` | script.js:412-423 | the cost coefficient is negative, so a higher adjusted cost per session gives a strictly lower endorsement probability |
| `Choice.ExampleProgrammeUtility` | script.js:405-415 | the example selection at an adjusted cost of 40 has programme utility −0.164 |
| `Choice.ExampleLoaderProgrammeUtility` | script.js:1068-1084 | the example loader's scenario (44 per session in NSW) has programme utility −0.308 |
| `CostBenefit.ClampCount` | script.js:495-496 | `Math.max(0, n \|\| 0)`: a count is kept when non-negative and clamped to 0 otherwise |
| `CostBenefit.Aggregate` | script.js:492-529 | endorsed participants = clamped cohort × uptake, so 0 ≤ endorsed ≤ clamped cohort; sessions = endorsed × clamped sessions ≥ 0; direct = adjusted cost × sessions; opportunity = 0.2 × direct; total = direct + opportunity = 1.2 × direct; benefits = WTP × sessions; net = benefits − total; the BCR is absent exactly when total ≤ 0, and otherwise times total gives benefits |
| `CostBenefit.ComputeCostsAndBenefits` | script.js:489-529 | the results carry the scenario, its endorsement record, its endorsement probability as uptake (strictly inside (0, 1)) and its WTP |
| `CostBenefit.ZeroCohortGivesZeroAggregates` | script.js:495-513 | a zero or negative cohort gives all-zero participants, sessions, costs, benefits and net benefit, and no BCR |
| `CostBenefit.BcrPresentIff` | script.js:495-513 | the BCR is present exactly when cohort, session count and adjusted cost per session are all positive |
| `CostBenefit.BcrIsWtpOverEconomicCost` | script.js:499-513 | for positive cohort, session count and adjusted cost per session, the BCR is present and equals WTP / (1.2 × adjusted cost per session), whatever the cohort, session count and uptake |
| `CostBenefit.NetBenefitPositiveIffBcrAboveOne` | script.js:509-513 | for positive cohort, session count and adjusted cost per session (when the BCR is present), the net benefit is positive exactly when the BCR exceeds 1 |
| `CostBenefit.CostsNonNegative` | script.js:499-503 | a non-negative adjusted cost gives non-negative direct, opportunity and total costs |
| `CostBenefit.ExampleBcrAtForty` | script.js:489-529 | the example selection at an adjusted cost of 40, cohort 1000 and 8 sessions has BCR 38.10 / 48 = 0.79375 |
| `CostBenefit.ExampleLoaderBcr` | script.js:1068-1084 | the example loader's scenario has BCR 38.10 / 52.8 |
| `Sensitivity.ClampUnit` | script.js:737-740 | `Math.max(0, Math.min(1, x))` lies in [0, 1], keeps x inside it and clamps to the nearer bound outside |
| `Sensitivity.SensitivityFromSliders` | script.js:727-751 | adjusted uptake = base uptake × (1 + uptake% / 100) clamped to [0, 1]; adjusted participants = cohort × adjusted uptake; adjusted cost = total cost × (1 + cost% / 100); sessions = cohort × adjusted uptake × sessions, with the stored counts; benefits = WTP × sessions; net = benefits − adjusted cost |
| `Sensitivity.NeutralSlidersReproduceBase` | script.js:727-751 | at 0% / 0%, for positive cohort and session counts, the slider figures equal the base cost, uptake, sessions, benefits and net benefit |
| `Sensitivity.UptakePctScalesUptake` | script.js:737-745 | while the scaled uptake stays inside [0, 1], the adjusted uptake is exactly base uptake × (1 + uptake% / 100) and the adjusted participants are the cohort times that |
| `Sensitivity.NetFallsWithCostPct` | script.js:733-749 | with a non-negative base cost, raising the cost percentage never raises the adjusted net benefit |
| `Sensitivity.UptakeGrowsWithUptakePct` | script.js:737-740 | raising the uptake percentage never lowers the adjusted uptake |
| `Sensitivity.ClampUnitMonotone` | script.js:737-740 | the [0, 1] clamp never decreases |
| `Sensitivity.UptakeSensitivity` | script.js:654-667 | the middle bar is the results' uptake, and the 0.75× and 1.25× cost bars are endorsement probabilities strictly inside (0, 1) |
| `Sensitivity.BarsFallForPositiveCost` | script.js:654-667 | for results aggregated from the scenario's own endorsement and a positive cost per session: lower-cost uptake > current uptake > higher-cost uptake |
| `Sensitivity.BarsRiseForNegativeCost` | script.js:654-667 | for such results and a negative cost per session the order of the three bars is reversed |
| `Sensitivity.BarsEqualForZeroCost` | script.js:654-667 | for such results and a zero cost per session the three bars are equal |
| `Sensitivity.ComputedUptakeBarsOrdered` | script.js:654-667 | for the results `computeCostsAndBenefits` returns, a positive cost per session makes the bars fall from lower to higher cost |
| `Session.PassesApplyGuard` | script.js:1102 | the four-way apply guard passes exactly when cohort and session count are both positive |
| `Session.AppState.constructor` | script.js:17-26 | the initial state has no results and both percentages at 0 |
| `Session.AppState.UpdateSensitivityFromSliders` | script.js:727-751 | nothing is shown without stored results; otherwise the slider figures of the stored results at the current percentages, with the adjusted uptake in [0, 1] |
| `Session.AppState.ApplyCurrentScenario` | script.js:1100-1127 | the update happens exactly when the guard passes; a failing guard changes nothing; a passing one stores that scenario's results and resets both percentages to 0, and the figures it shows reproduce the stored net benefit; stored results always passed the guard |
| `Session.AppState.SetCostPct` | script.js:765-771 | the cost slider stores its percentage and shows the stored results' figures at it, changing nothing else |
| `Session.AppState.SetUptakePct` | script.js:774-780 | the uptake slider stores its percentage and shows the stored results' figures at it, changing nothing else |
| `DceTable.DirectionOf` | script.js:871-872 | "Preferred" exactly for a positive estimate, "Less preferred" exactly for a negative one, "Neutral" exactly for zero |
| `DceTable.RelativeStrength` | script.js:862-868 | for a positive largest value: "Very strong" exactly when the value is ≥ 0.75 of it, "Strong" in [0.5, 0.75), "Moderate" in [0.25, 0.5), "Modest" below 0.25; for a largest value of 0, "Modest" exactly for 0 (NaN ratio) |
| `DceTable.StrengthMonotone` | script.js:862-868 | a larger absolute estimate never gets a weaker strength |
| `DceTable.MaxAbsFrom` | script.js:858-860 | the largest absolute estimate from row `i` on is at least row `i`'s (so ≥ 0) and is one of those rows' absolute estimates |
| `DceTable.MaxAbs` | script.js:858-860 | `Math.max` over the absolute estimates of a non-empty table is ≥ 0 and is one row's absolute estimate |
| `DceTable.MaxAbsFromIsMaximum` | script.js:858-860 | the scan's result bounds every absolute estimate from row `i` on and is attained by one of them |
| `DceTable.MaxAbsIsMaximum` | script.js:858-860 | `Math.max` over the absolute estimates is non-negative, bounds every row and is attained by a row |
| `DceTable.RowFor` | script.js:858-878 | a table row keeps its WTP row's label and estimate, takes its direction from the estimate's sign and its strength from its absolute estimate relative to the table's largest |
| `DceTable.DceParameterRows` | script.js:852-881 | one row per WTP row, in table order, each with its direction and its strength relative to the table's largest absolute estimate |
| `DceTable.WtpTableMaxAbs` | script.js:66-78 | the WTP table's largest absolute estimate is 16.93 (weekly) |
| `DceTable.WtpTableStrengths` | script.js:862-881 | the strength column for the eleven rows, in order: very strong, moderate, strong, strong, moderate, very strong, strong, moderate, moderate, modest, very strong |

## Left out

- DOM access, event wiring and rendering (`$`, `setText`, control rendering, tabs, the `DOMContentLoaded` handler): these are I/O. The model's results are the values the tool would display.
- Form parsing (`parseFloat`/`parseInt` with `|| 0`): the model starts from the parsed values in `FormValues`, with a missing control as the empty string. `NaN` counts are therefore not modelled; the guard's `!cohortSize` is read as "equal to 0".
- Number formatting and the `pretty*` label functions: these are presentation only and rest on the foreign `toLocaleString`.
- Chart.js rendering, jsPDF and SheetJS export, and the export preview: these are wrappers over libraries that are not modelled. Of the uptake chart, only the three uptakes it plots are modelled (`UptakeSensitivity`).
- The chart handle in `state.charts`: it is not modelled, because it only holds a rendering object.
- Floating-point rounding: numbers are exact reals. The model proves no rounded dollar figure.
- The numeric values of `Math.exp`: `exp` is a parameter assumed only to be positive and strictly increasing. The ≈0.43 example uptake is therefore not derived.
- The `ASC_sd` coefficient and the `pVal`/`se` columns of the WTP table: no computation reads them.
- Looking up inherited object properties (for example a region named `constructor`): region lookups are modelled as lookups in the eight listed regions only.
- `Choice.Logistic`: the source defines this helper but never calls it. It is modelled on its own, and the endorsement uses the two-exponential shares as the code does.
- `DceTable.MaxAbs` on an empty table (`Math.max()` gives `-Infinity`): the table-building method returns no rows for an empty table, as the source's `forEach` does.
- `Sensitivity.SensitivityFromSliders` uses the stored cohort and session counts without clamping, as the source does. The model proves the neutral-slider identity only for positive counts, which is what the apply guard guarantees for stored results.
