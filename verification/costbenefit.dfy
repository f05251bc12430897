/**
 * Cost and DCE-based benefit aggregation: endorsed participants, sessions,
 * direct, opportunity and total economic cost, benefits, net benefit, and a
 * benefit-cost ratio that is absent (`null`) when the total cost is not
 * positive. The opportunity cost is always applied.
 */
module CostBenefit {
  import opened Wrappers
  import opened Coefficients
  import opened Scenario
  import opened ScenarioWtp
  import opened Choice

  /** The record `computeCostsAndBenefits` returns. */
  datatype Results = Results(
    cfg: ScenarioConfig,
    util: Endorsement,
    uptake: real,
    endorsedParticipants: real,
    totalSessionsAll: real,
    wtpPerParticipantPerSession: real,
    totalBenefitsAll: real,
    directCostAll: real,
    oppCostAll: real,
    totalEconomicCostAll: real,
    netBenefitAll: real,
    bcr: Option<real>)

  /** `Math.max(0, n || 0)` on an integer count. */
  function ClampCount(n: int): (c: real)
    ensures c >= 0.0
    ensures n >= 0 ==> c == n as real
    ensures n < 0 ==> c == 0.0
  {
    if n > 0 then n as real else 0.0
  }

  /**
   * The aggregation step of `computeCostsAndBenefits`, over a scenario, its
   * endorsement result and its WTP per participant per session.
   */
  function Aggregate(cfg: ScenarioConfig, util: Endorsement, wtp: real): (r: Results)
    requires 0.0 < util.endorseProb < 1.0
    ensures r.cfg == cfg && r.util == util && r.uptake == util.endorseProb
    ensures r.wtpPerParticipantPerSession == wtp
    ensures 0.0 <= r.endorsedParticipants <= ClampCount(cfg.cohortSize)
    ensures r.endorsedParticipants == ClampCount(cfg.cohortSize) * r.uptake
    ensures r.totalSessionsAll == r.endorsedParticipants * ClampCount(cfg.numSessions)
    ensures r.totalSessionsAll == ClampCount(cfg.cohortSize) * r.uptake * ClampCount(cfg.numSessions)
    ensures r.totalSessionsAll >= 0.0
    ensures r.directCostAll == cfg.adjustedCostPerSession * r.totalSessionsAll
    ensures r.oppCostAll == OppCostRate * r.directCostAll
    ensures r.totalEconomicCostAll == r.directCostAll + r.oppCostAll
    ensures r.totalEconomicCostAll == 1.2 * r.directCostAll
    ensures r.totalBenefitsAll == wtp * r.totalSessionsAll
    ensures r.netBenefitAll == r.totalBenefitsAll - r.totalEconomicCostAll
    ensures r.bcr.None? <==> r.totalEconomicCostAll <= 0.0
    ensures r.bcr.Some? ==> r.bcr.value * r.totalEconomicCostAll == r.totalBenefitsAll
  {
    var uptake := util.endorseProb;
    var cohortSize := ClampCount(cfg.cohortSize);
    var numSessions := ClampCount(cfg.numSessions);

    var endorsedParticipants := cohortSize * uptake;
    var totalSessionsAll := endorsedParticipants * numSessions;

    var directCostAll := cfg.adjustedCostPerSession * totalSessionsAll;
    var oppCostAll := directCostAll * OppCostRate;
    var totalEconomicCostAll := directCostAll + oppCostAll;

    var totalBenefitsAll := wtp * totalSessionsAll;

    var netBenefitAll := totalBenefitsAll - totalEconomicCostAll;
    var bcr := if totalEconomicCostAll > 0.0 then Some(totalBenefitsAll / totalEconomicCostAll) else None;

    assert 0.0 <= endorsedParticipants <= cohortSize by {
      assert cohortSize * uptake <= cohortSize * 1.0;
    }
    Results(cfg, util, uptake, endorsedParticipants, totalSessionsAll, wtp,
            totalBenefitsAll, directCostAll, oppCostAll, totalEconomicCostAll, netBenefitAll, bcr)
  }

  /**
   * The cost, benefit and ratio figures of one scenario: the aggregation of
   * its endorsement result and its WTP per participant per session.
   */
  function ComputeCostsAndBenefits(exp: real -> real, cfg: ScenarioConfig): (r: Results)
    requires IsExp(exp)
    ensures r.cfg == cfg && r.util == ComputeEndorsement(exp, cfg) && r.uptake == r.util.endorseProb
    ensures 0.0 < r.uptake < 1.0
    ensures r.wtpPerParticipantPerSession == Wtp(cfg)
  {
    Aggregate(cfg, ComputeEndorsement(exp, cfg), Wtp(cfg))
  }

  /** A zero (or negative) cohort gives all-zero aggregates and no ratio. */
  lemma ZeroCohortGivesZeroAggregates(cfg: ScenarioConfig, util: Endorsement, wtp: real)
    requires 0.0 < util.endorseProb < 1.0
    requires cfg.cohortSize <= 0
    ensures var r := Aggregate(cfg, util, wtp);
      r.endorsedParticipants == 0.0 && r.totalSessionsAll == 0.0 &&
      r.directCostAll == 0.0 && r.oppCostAll == 0.0 && r.totalEconomicCostAll == 0.0 &&
      r.totalBenefitsAll == 0.0 && r.netBenefitAll == 0.0 && r.bcr == None
  {
  }

  /**
   * The ratio is present exactly when cohort, session count and adjusted
   * cost per session are all positive (uptake is always positive).
   */
  lemma BcrPresentIff(cfg: ScenarioConfig, util: Endorsement, wtp: real)
    requires 0.0 < util.endorseProb < 1.0
    ensures Aggregate(cfg, util, wtp).bcr.Some? <==>
      cfg.cohortSize > 0 && cfg.numSessions > 0 && cfg.adjustedCostPerSession > 0.0
  {
    var r := Aggregate(cfg, util, wtp);
    var n, s, u := ClampCount(cfg.cohortSize), ClampCount(cfg.numSessions), r.uptake;
    var c := cfg.adjustedCostPerSession;
    if cfg.cohortSize > 0 && cfg.numSessions > 0 {
      assert n * u > 0.0;
      assert r.totalSessionsAll == (n * u) * s;
      assert r.totalSessionsAll > 0.0;
      assert r.totalEconomicCostAll == 1.2 * (c * r.totalSessionsAll);
      if c > 0.0 {
        assert c * r.totalSessionsAll > 0.0;
      } else {
        assert c * r.totalSessionsAll <= 0.0;
      }
    } else {
      assert n == 0.0 || s == 0.0;
      assert r.totalSessionsAll == 0.0;
    }
  }

  /**
   * When present (positive counts and cost, by `BcrPresentIff`), the ratio is
   * the WTP per session over the economic cost per session: it does not
   * depend on cohort, session count or uptake.
   */
  lemma BcrIsWtpOverEconomicCost(cfg: ScenarioConfig, util: Endorsement, wtp: real)
    requires 0.0 < util.endorseProb < 1.0
    requires cfg.cohortSize > 0 && cfg.numSessions > 0 && cfg.adjustedCostPerSession > 0.0
    ensures Aggregate(cfg, util, wtp).bcr.Some?
    ensures Aggregate(cfg, util, wtp).bcr.value == wtp / (1.2 * cfg.adjustedCostPerSession)
  {
    BcrPresentIff(cfg, util, wtp);
    var r := Aggregate(cfg, util, wtp);
    var t, c := r.totalSessionsAll, cfg.adjustedCostPerSession;
    assert t > 0.0 by {
      assert r.totalEconomicCostAll == 1.2 * (c * t) > 0.0;
    }
    assert r.bcr.value == (wtp * t) / (1.2 * c * t);
    assert (wtp * t) / (1.2 * c * t) == wtp / (1.2 * c);
  }

  /**
   * With a ratio present (positive counts and cost), the net benefit is
   * positive exactly when the ratio exceeds 1.
   */
  lemma NetBenefitPositiveIffBcrAboveOne(cfg: ScenarioConfig, util: Endorsement, wtp: real)
    requires 0.0 < util.endorseProb < 1.0
    requires cfg.cohortSize > 0 && cfg.numSessions > 0 && cfg.adjustedCostPerSession > 0.0
    ensures var r := Aggregate(cfg, util, wtp);
      r.bcr.Some? && (r.netBenefitAll > 0.0 <==> r.bcr.value > 1.0)
  {
    BcrPresentIff(cfg, util, wtp);
    var r := Aggregate(cfg, util, wtp);
    RatioAboveOne(r.bcr.value, r.totalEconomicCostAll, r.totalBenefitsAll);
  }

  /** For a positive cost, benefits exceed it exactly when their ratio to it exceeds 1. */
  lemma RatioAboveOne(ratio: real, cost: real, benefits: real)
    requires cost > 0.0 && ratio * cost == benefits
    ensures benefits - cost > 0.0 <==> ratio > 1.0
  {
    assert benefits - cost == (ratio - 1.0) * cost;
    if ratio > 1.0 {
      assert (ratio - 1.0) * cost > 0.0;
    } else {
      assert (ratio - 1.0) * cost <= 0.0;
    }
  }

  /** A non-negative adjusted cost gives non-negative direct, opportunity and total costs. */
  lemma CostsNonNegative(cfg: ScenarioConfig, util: Endorsement, wtp: real)
    requires 0.0 < util.endorseProb < 1.0
    requires cfg.adjustedCostPerSession >= 0.0
    ensures var r := Aggregate(cfg, util, wtp);
      0.0 <= r.directCostAll && 0.0 <= r.oppCostAll && 0.0 <= r.totalEconomicCostAll
  {
    var r := Aggregate(cfg, util, wtp);
    assert cfg.adjustedCostPerSession * r.totalSessionsAll >= 0.0;
  }

  /**
   * The worked example at an adjusted cost of 40 (QLD): every session costs
   * 48 with opportunity cost and yields 38.10 of benefit, so the ratio is
   * 38.10 / 48 = 0.79375 whatever the uptake.
   */
  lemma ExampleBcrAtForty(exp: real -> real, cfg: ScenarioConfig)
    requires IsExp(exp)
    requires cfg.programmeType == "comm" && cfg.participation == "inperson"
    requires cfg.frequency == "weekly" && cfg.duration == "2hrs" && cfg.accessibility == "local"
    requires cfg.adjustedCostPerSession == 40.0 && cfg.cohortSize == 1000 && cfg.numSessions == 8
    ensures ComputeCostsAndBenefits(exp, cfg).bcr == Some(0.79375)
  {
    var util := ComputeEndorsement(exp, cfg);
    ExampleWtp(cfg);
    BcrPresentIff(cfg, util, Wtp(cfg));
    BcrIsWtpOverEconomicCost(cfg, util, Wtp(cfg));
  }

  /** The example loader's scenario (NSW, 44 per session): ratio 38.10 / 52.8. */
  lemma ExampleLoaderBcr(exp: real -> real)
    requires IsExp(exp)
    ensures ComputeCostsAndBenefits(exp, ReadScenario(ExampleForm)).bcr == Some(38.10 / 52.8)
  {
    var cfg := ReadScenario(ExampleForm);
    var util := ComputeEndorsement(exp, cfg);
    ExampleAdjustedCost();
    ExampleWtp(cfg);
    BcrPresentIff(cfg, util, Wtp(cfg));
    BcrIsWtpOverEconomicCost(cfg, util, Wtp(cfg));
  }
}
