/**
 * The sensitivity arithmetic behind the results page: the slider path that
 * rescales the last results' total cost and uptake by whole-number
 * percentages, and the uptake comparison at the adjusted cost per session
 * lowered and raised by a quarter.
 */
module Sensitivity {
  import opened Scenario
  import opened Choice
  import opened CostBenefit
  import opened ScenarioWtp

  /** The figures `updateSensitivityFromSliders` derives from the stored results. */
  datatype SensitivityOutcome = SensitivityOutcome(
    adjustedCost: real,
    adjustedUptake: real,
    endorsedParticipantsAdj: real,
    totalSessionsAdj: real,
    totalBenefitsAdj: real,
    netBenefitAdj: real)

  /** `Math.max(0, Math.min(1, x))`. */
  function ClampUnit(x: real): (c: real)
    ensures 0.0 <= c <= 1.0
    ensures 0.0 <= x <= 1.0 ==> c == x
    ensures x < 0.0 ==> c == 0.0
    ensures x > 1.0 ==> c == 1.0
  {
    if x > 1.0 then 1.0 else if x < 0.0 then 0.0 else x
  }

  /**
   * The slider path. The cost percentage scales the total economic cost and
   * the uptake percentage scales the uptake, capped to [0, 1]; sessions and
   * benefits are then recomputed from the configured cohort and session
   * counts as stored (not re-clamped).
   */
  function SensitivityFromSliders(base: Results, costPct: int, uptakePct: int): (o: SensitivityOutcome)
    ensures 0.0 <= o.adjustedUptake <= 1.0
    ensures o.adjustedUptake == ClampUnit(base.uptake * (1.0 + uptakePct as real / 100.0))
    ensures o.endorsedParticipantsAdj == base.cfg.cohortSize as real * o.adjustedUptake
    ensures o.totalSessionsAdj == o.endorsedParticipantsAdj * base.cfg.numSessions as real
    ensures o.adjustedCost == base.totalEconomicCostAll * (1.0 + costPct as real / 100.0)
    ensures o.totalSessionsAdj == base.cfg.cohortSize as real * o.adjustedUptake * base.cfg.numSessions as real
    ensures o.totalBenefitsAdj == base.wtpPerParticipantPerSession * o.totalSessionsAdj
    ensures o.netBenefitAdj == o.totalBenefitsAdj - o.adjustedCost
  {
    var adjustedCost := base.totalEconomicCostAll * (1.0 + costPct as real / 100.0);
    var adjustedUptake := ClampUnit(base.uptake * (1.0 + uptakePct as real / 100.0));
    var cohortSize := base.cfg.cohortSize as real;
    var numSessions := base.cfg.numSessions as real;
    var endorsedParticipantsAdj := cohortSize * adjustedUptake;
    var totalSessionsAdj := endorsedParticipantsAdj * numSessions;
    var totalBenefitsAdj := base.wtpPerParticipantPerSession * totalSessionsAdj;
    var netBenefitAdj := totalBenefitsAdj - adjustedCost;
    SensitivityOutcome(adjustedCost, adjustedUptake, endorsedParticipantsAdj, totalSessionsAdj,
                       totalBenefitsAdj, netBenefitAdj)
  }

  /**
   * At 0% / 0% the slider path reproduces the base figures of any results
   * whose cohort and session counts are positive, as the apply guard ensures.
   */
  lemma NeutralSlidersReproduceBase(cfg: ScenarioConfig, util: Endorsement, wtp: real)
    requires 0.0 < util.endorseProb < 1.0
    requires cfg.cohortSize > 0 && cfg.numSessions > 0
    ensures var base := Aggregate(cfg, util, wtp);
      var o := SensitivityFromSliders(base, 0, 0);
      o.adjustedCost == base.totalEconomicCostAll && o.adjustedUptake == base.uptake &&
      o.totalSessionsAdj == base.totalSessionsAll && o.totalBenefitsAdj == base.totalBenefitsAll &&
      o.netBenefitAdj == base.netBenefitAll
  {
    var base := Aggregate(cfg, util, wtp);
    var o := SensitivityFromSliders(base, 0, 0);
    assert ClampCount(cfg.cohortSize) == cfg.cohortSize as real;
    assert ClampCount(cfg.numSessions) == cfg.numSessions as real;
    assert o.adjustedUptake == base.uptake;
  }

  /** With a non-negative base cost, a larger cost percentage never raises the adjusted net benefit. */
  lemma NetFallsWithCostPct(base: Results, lowPct: int, highPct: int, uptakePct: int)
    requires base.totalEconomicCostAll >= 0.0
    requires lowPct <= highPct
    ensures SensitivityFromSliders(base, highPct, uptakePct).netBenefitAdj <=
            SensitivityFromSliders(base, lowPct, uptakePct).netBenefitAdj
  {
    var lo, hi := SensitivityFromSliders(base, lowPct, uptakePct), SensitivityFromSliders(base, highPct, uptakePct);
    var t := base.totalEconomicCostAll;
    var fl, fh := 1.0 + lowPct as real / 100.0, 1.0 + highPct as real / 100.0;
    assert fl <= fh;
    assert t * fl <= t * fh;
    assert lo.totalBenefitsAdj == hi.totalBenefitsAdj;
  }

  /** With a non-negative base uptake, a larger uptake percentage never lowers the adjusted uptake. */
  lemma UptakeGrowsWithUptakePct(base: Results, costPct: int, lowPct: int, highPct: int)
    requires base.uptake >= 0.0
    requires lowPct <= highPct
    ensures SensitivityFromSliders(base, costPct, lowPct).adjustedUptake <=
            SensitivityFromSliders(base, costPct, highPct).adjustedUptake
  {
    var u := base.uptake;
    var fl, fh := 1.0 + lowPct as real / 100.0, 1.0 + highPct as real / 100.0;
    ScaleMonotone(u, fl, fh);
    ClampUnitMonotone(u * fl, u * fh);
  }

  /**
   * While the scaled uptake stays inside [0, 1] the clamp does not bite: the
   * adjusted uptake is the base uptake times (1 + uptake% / 100), and the
   * adjusted participants are the cohort times that.
   */
  lemma UptakePctScalesUptake(base: Results, costPct: int, uptakePct: int)
    requires 0.0 <= base.uptake * (1.0 + uptakePct as real / 100.0) <= 1.0
    ensures var o := SensitivityFromSliders(base, costPct, uptakePct);
      o.adjustedUptake == base.uptake * (1.0 + uptakePct as real / 100.0) &&
      o.endorsedParticipantsAdj == base.cfg.cohortSize as real * base.uptake * (1.0 + uptakePct as real / 100.0)
  {
  }

  lemma ScaleMonotone(u: real, a: real, b: real)
    requires u >= 0.0 && a <= b
    ensures u * a <= u * b
  {
    assert u * b - u * a == u * (b - a);
  }

  lemma ClampUnitMonotone(x: real, y: real)
    requires x <= y
    ensures ClampUnit(x) <= ClampUnit(y)
  {
  }

  /** The three uptakes of the cost comparison chart: cost lowered by 25%, as configured, raised by 25%. */
  datatype UptakeBars = UptakeBars(lowCost: real, current: real, highCost: real)

  /**
   * The chart's uptakes: the endorsement probability recomputed at 0.75 and
   * 1.25 times the adjusted cost per session, beside the results' uptake.
   */
  function UptakeSensitivity(exp: real -> real, results: Results): (b: UptakeBars)
    requires IsExp(exp)
    ensures b.current == results.uptake
    ensures 0.0 < b.lowCost < 1.0 && 0.0 < b.highCost < 1.0
  {
    var cfg := results.cfg;
    var lowCostCfg := cfg.(adjustedCostPerSession := cfg.adjustedCostPerSession * 0.75);
    var highCostCfg := cfg.(adjustedCostPerSession := cfg.adjustedCostPerSession * 1.25);
    UptakeBars(ComputeEndorsement(exp, lowCostCfg).endorseProb, results.uptake,
               ComputeEndorsement(exp, highCostCfg).endorseProb)
  }

  /**
   * For results aggregated from a scenario's own endorsement (as
   * `ComputeCostsAndBenefits` builds them), a positive cost per session
   * orders the bars low-cost > current > high-cost.
   */
  lemma BarsFallForPositiveCost(exp: real -> real, cfg: ScenarioConfig, wtp: real)
    requires IsExp(exp)
    requires cfg.adjustedCostPerSession > 0.0
    ensures var b := UptakeSensitivity(exp, Aggregate(cfg, ComputeEndorsement(exp, cfg), wtp));
      b.lowCost > b.current > b.highCost
  {
    var c := cfg.adjustedCostPerSession;
    assert cfg.(adjustedCostPerSession := c) == cfg;
    EndorsementFallsWithCost(exp, cfg, c * 0.75, c);
    EndorsementFallsWithCost(exp, cfg, c, c * 1.25);
  }

  /** For such results, a negative cost per session reverses the order. */
  lemma BarsRiseForNegativeCost(exp: real -> real, cfg: ScenarioConfig, wtp: real)
    requires IsExp(exp)
    requires cfg.adjustedCostPerSession < 0.0
    ensures var b := UptakeSensitivity(exp, Aggregate(cfg, ComputeEndorsement(exp, cfg), wtp));
      b.lowCost < b.current < b.highCost
  {
    var c := cfg.adjustedCostPerSession;
    assert cfg.(adjustedCostPerSession := c) == cfg;
    EndorsementFallsWithCost(exp, cfg, c, c * 0.75);
    EndorsementFallsWithCost(exp, cfg, c * 1.25, c);
  }

  /** For such results, a zero cost per session makes the three bars equal. */
  lemma BarsEqualForZeroCost(exp: real -> real, cfg: ScenarioConfig, wtp: real)
    requires IsExp(exp)
    requires cfg.adjustedCostPerSession == 0.0
    ensures var b := UptakeSensitivity(exp, Aggregate(cfg, ComputeEndorsement(exp, cfg), wtp));
      b.lowCost == b.current == b.highCost
  {
    assert cfg.(adjustedCostPerSession := 0.0 * 0.75) == cfg;
    assert cfg.(adjustedCostPerSession := 0.0 * 1.25) == cfg;
  }

  /** The chart of a scenario's computed results falls from lower to higher cost whenever the cost is positive. */
  lemma ComputedUptakeBarsOrdered(exp: real -> real, cfg: ScenarioConfig)
    requires IsExp(exp)
    requires cfg.adjustedCostPerSession > 0.0
    ensures var b := UptakeSensitivity(exp, ComputeCostsAndBenefits(exp, cfg));
      b.lowCost > b.current > b.highCost
  {
    BarsFallForPositiveCost(exp, cfg, Wtp(cfg));
  }
}
