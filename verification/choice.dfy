/**
 * The endorsement (uptake) model: a two-alternative logit, programme versus
 * opt-out, with a linear cost term. `Math.exp` is not computed: it is a
 * parameter `exp` of which the model assumes only what `IsExp` states.
 */
module Choice {
  import opened Coefficients
  import opened Scenario
  import opened Utility

  /** What the model assumes of `Math.exp`: it is positive and strictly increasing. */
  ghost predicate IsExp(exp: real -> real)
  {
    (forall x :: exp(x) > 0.0) &&
    (forall x, y :: x < y ==> exp(x) < exp(y))
  }

  /**
   * The clamped logistic helper: exactly 1 above 35, exactly 0 below -35,
   * and 1 / (1 + exp(-x)) in between.
   */
  function Logistic(exp: real -> real, x: real): (p: real)
    requires IsExp(exp)
    ensures 0.0 <= p <= 1.0
    ensures x > 35.0 ==> p == 1.0
    ensures x < -35.0 ==> p == 0.0
    ensures -35.0 <= x <= 35.0 ==> 0.0 < p < 1.0
  {
    if x > 35.0 then 1.0
    else if x < -35.0 then 0.0
    else 1.0 / (1.0 + exp(-x))
  }

  /** The clamped logistic never decreases, across the clamping thresholds too. */
  lemma LogisticMonotone(exp: real -> real, x: real, y: real)
    requires IsExp(exp)
    requires x <= y
    ensures Logistic(exp, x) <= Logistic(exp, y)
  {
    if -35.0 <= x <= 35.0 && -35.0 <= y <= 35.0 && x < y {
      assert exp(-y) < exp(-x);
      ReciprocalShrinks(1.0 + exp(-y), 1.0 + exp(-x));
    }
  }

  /** 1/a >= 1/b for 0 < a <= b. */
  lemma ReciprocalShrinks(a: real, b: real)
    requires 0.0 < a <= b
    ensures 1.0 / b <= 1.0 / a
  {
    assert 1.0 / a - 1.0 / b == (b - a) / (a * b);
    assert a * b > 0.0;
  }

  /** The two choice probabilities. */
  datatype Shares = Shares(endorseProb: real, optoutProb: real)

  /**
   * The logit shares of the programme and the opt-out alternative from
   * their exponentiated utilities, with (0, 1) when the denominator is 0.
   */
  function LogitShares(expP: real, expO: real): (s: Shares)
    ensures expP + expO == 0.0 ==> s == Shares(0.0, 1.0)
    ensures s.endorseProb + s.optoutProb == 1.0
    ensures expP > 0.0 && expO > 0.0 ==> 0.0 < s.endorseProb < 1.0 && 0.0 < s.optoutProb < 1.0
    ensures expP + expO != 0.0 ==> s.endorseProb * (expP + expO) == expP
  {
    var denom := expP + expO;
    var endorseProb := if denom == 0.0 then 0.0 else expP / denom;
    var optoutProb := if denom == 0.0 then 1.0 else expO / denom;
    assert denom != 0.0 ==> endorseProb + optoutProb == (expP + expO) / denom;
    Shares(endorseProb, optoutProb)
  }

  /** With the opt-out share fixed, the programme's share grows with its own exponentiated utility. */
  lemma ShareGrows(a1: real, a2: real, c: real)
    requires 0.0 < a1 < a2 && 0.0 < c
    ensures LogitShares(a1, c).endorseProb < LogitShares(a2, c).endorseProb
  {
    var d := (a1 + c) * (a2 + c);
    assert d > 0.0;
    assert a2 / (a2 + c) - a1 / (a1 + c) == (c * (a2 - a1)) / d;
    assert c * (a2 - a1) > 0.0;
    assert (c * (a2 - a1)) / d > 0.0;
    assert LogitShares(a1, c).endorseProb == a1 / (a1 + c);
    assert LogitShares(a2, c).endorseProb == a2 / (a2 + c);
  }

  /** The record `computeEndorsement` returns. */
  datatype Endorsement = Endorsement(
    endorseProb: real,
    optoutProb: real,
    baseUtility: real,
    ascProg: real,
    ascOpt: real,
    costTerm: real,
    costPerPersonPerSession: real)

  /** Utility of the programme alternative at a given cost per session. */
  function ProgrammeUtility(cfg: ScenarioConfig, cost: real): (u: real)
    ensures cost >= 0.0 <==> u <= AscMean + AttributeUtility(cfg)
    ensures cost == 0.0 <==> u == AscMean + AttributeUtility(cfg)
  {
    AscMean + AttributeUtility(cfg) + CostCont * cost
  }

  /**
   * The endorsement probabilities of a scenario at its adjusted cost per
   * session. The opt-out alternative's utility is its constant alone.
   */
  function ComputeEndorsement(exp: real -> real, cfg: ScenarioConfig): (e: Endorsement)
    requires IsExp(exp)
    ensures e.endorseProb + e.optoutProb == 1.0
    ensures 0.0 < e.endorseProb < 1.0 && 0.0 < e.optoutProb < 1.0
    ensures e.baseUtility == AttributeUtility(cfg)
    ensures e.costPerPersonPerSession == cfg.adjustedCostPerSession
    ensures e.ascProg + e.baseUtility + e.costTerm == ProgrammeUtility(cfg, cfg.adjustedCostPerSession)
    ensures e.endorseProb * (exp(ProgrammeUtility(cfg, cfg.adjustedCostPerSession)) + exp(AscOptout)) ==
            exp(ProgrammeUtility(cfg, cfg.adjustedCostPerSession))
  {
    var baseUtility := AttributeUtility(cfg);
    var costTerm := CostCont * cfg.adjustedCostPerSession;
    var uProg := AscMean + baseUtility + costTerm;
    var uOpt := AscOptout;
    var shares := LogitShares(exp(uProg), exp(uOpt));
    Endorsement(shares.endorseProb, shares.optoutProb, baseUtility, AscMean, AscOptout,
                costTerm, cfg.adjustedCostPerSession)
  }

  /**
   * The cost coefficient is negative, so a higher adjusted cost per session
   * strictly lowers the endorsement probability.
   */
  lemma EndorsementFallsWithCost(exp: real -> real, cfg: ScenarioConfig, lower: real, higher: real)
    requires IsExp(exp)
    requires lower < higher
    ensures ComputeEndorsement(exp, cfg.(adjustedCostPerSession := higher)).endorseProb <
            ComputeEndorsement(exp, cfg.(adjustedCostPerSession := lower)).endorseProb
  {
    var lo, hi := cfg.(adjustedCostPerSession := lower), cfg.(adjustedCostPerSession := higher);
    assert AttributeUtility(lo) == AttributeUtility(hi) == AttributeUtility(cfg);
    var uLow := AscMean + AttributeUtility(cfg) + CostCont * lower;
    var uHigh := AscMean + AttributeUtility(cfg) + CostCont * higher;
    assert uHigh < uLow;
    assert exp(uHigh) < exp(uLow);
    ShareGrows(exp(uHigh), exp(uLow), exp(AscOptout));
  }

  /** community / in person / weekly / 2 hours / local at an adjusted cost of 40: U_prog = -0.164. */
  lemma ExampleProgrammeUtility(cfg: ScenarioConfig)
    requires cfg.programmeType == "comm" && cfg.participation == "inperson"
    requires cfg.frequency == "weekly" && cfg.duration == "2hrs" && cfg.accessibility == "local"
    ensures ProgrammeUtility(cfg, 40.0) == -0.164
  {
    ExampleAttributeUtility(cfg);
  }

  /** The example loader's scenario is costed at 44 in NSW, so U_prog = -0.112 + 1.388 - 0.036 * 44 = -0.308. */
  lemma ExampleLoaderProgrammeUtility()
    ensures ReadScenario(ExampleForm).adjustedCostPerSession == 44.0
    ensures ProgrammeUtility(ReadScenario(ExampleForm), 44.0) == -0.308
  {
    ExampleAdjustedCost();
    ExampleAttributeUtility(ReadScenario(ExampleForm));
  }
}
