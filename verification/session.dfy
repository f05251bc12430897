/**
 * The page's module-level state: the last applied results and the two
 * sensitivity slider percentages, with the apply handler and the slider
 * handlers that update them. Chart handles are not part of this model.
 */
module Session {
  import opened Wrappers
  import opened Scenario
  import opened Choice
  import opened CostBenefit
  import opened Sensitivity

  /**
   * The apply handler's silent guard: a cohort or session count that is 0
   * (falsy) or negative stops the update, so it lets a scenario through
   * exactly when both counts are positive.
   */
  predicate PassesApplyGuard(cfg: ScenarioConfig)
    ensures PassesApplyGuard(cfg) <==> cfg.cohortSize > 0 && cfg.numSessions > 0
  {
    !(cfg.cohortSize == 0 || cfg.numSessions == 0 || cfg.cohortSize <= 0 || cfg.numSessions <= 0)
  }

  class AppState {
    /** The exponential the endorsement calculation uses. */
    const exp: real -> real
    /** `state.lastResults`: `null` until a scenario has been applied. */
    var lastResults: Option<Results>
    /** `state.sensitivity.costPct`. */
    var costPct: int
    /** `state.sensitivity.uptakePct`. */
    var uptakePct: int

    /** Stored results always come from a scenario that passed the guard. */
    ghost predicate Valid()
      reads this
    {
      IsExp(exp) &&
      (lastResults.Some? ==>
        PassesApplyGuard(lastResults.value.cfg) &&
        lastResults.value == ComputeCostsAndBenefits(exp, lastResults.value.cfg))
    }

    /** The initial state: no results, both percentages 0. */
    constructor (exp: real -> real)
      requires IsExp(exp)
      ensures Valid() && this.exp == exp
      ensures lastResults == None && costPct == 0 && uptakePct == 0
    {
      this.exp := exp;
      lastResults := None;
      costPct := 0;
      uptakePct := 0;
    }

    /**
     * `updateSensitivityFromSliders`: nothing without stored results,
     * otherwise the slider figures of the stored results.
     */
    method UpdateSensitivityFromSliders() returns (shown: Option<SensitivityOutcome>)
      requires Valid()
      ensures lastResults.None? <==> shown.None?
      ensures shown.Some? ==> shown.value == SensitivityFromSliders(lastResults.value, costPct, uptakePct)
      ensures shown.Some? ==> 0.0 <= shown.value.adjustedUptake <= 1.0
    {
      if lastResults.None? {
        return None;
      }
      var base := lastResults.value;
      shown := Some(SensitivityFromSliders(base, costPct, uptakePct));
    }

    /**
     * `applyCurrentScenario`: when the guard fails nothing changes;
     * otherwise the scenario's results are stored, both percentages are
     * reset to 0 and the slider figures are recomputed, which at 0% / 0%
     * reproduce the stored net benefit.
     */
    method ApplyCurrentScenario(form: FormValues) returns (applied: bool, shown: Option<SensitivityOutcome>)
      requires Valid()
      modifies this
      ensures Valid()
      ensures applied <==> PassesApplyGuard(ReadScenario(form))
      ensures !applied ==>
        lastResults == old(lastResults) && costPct == old(costPct) && uptakePct == old(uptakePct) && shown == None
      ensures applied ==>
        lastResults == Some(ComputeCostsAndBenefits(exp, ReadScenario(form))) &&
        costPct == 0 && uptakePct == 0 &&
        shown.Some? && shown.value.netBenefitAdj == lastResults.value.netBenefitAll
    {
      var cfg := ReadScenario(form);
      if cfg.cohortSize == 0 || cfg.numSessions == 0 || cfg.cohortSize <= 0 || cfg.numSessions <= 0 {
        return false, None;
      }

      var results := ComputeCostsAndBenefits(exp, cfg);
      lastResults := Some(results);

      costPct := 0;
      uptakePct := 0;
      NeutralSlidersReproduceBase(cfg, results.util, results.wtpPerParticipantPerSession);
      shown := UpdateSensitivityFromSliders();
      applied := true;
    }

    /** The cost slider's handler: stores the percentage and recomputes the slider figures. */
    method SetCostPct(val: int) returns (shown: Option<SensitivityOutcome>)
      requires Valid()
      modifies this`costPct
      ensures Valid() && costPct == val
      ensures lastResults.None? <==> shown.None?
      ensures shown.Some? ==> shown.value == SensitivityFromSliders(lastResults.value, val, uptakePct)
    {
      costPct := val;
      shown := UpdateSensitivityFromSliders();
    }

    /** The uptake slider's handler: stores the percentage and recomputes the slider figures. */
    method SetUptakePct(val: int) returns (shown: Option<SensitivityOutcome>)
      requires Valid()
      modifies this`uptakePct
      ensures Valid() && uptakePct == val
      ensures lastResults.None? <==> shown.None?
      ensures shown.Some? ==> shown.value == SensitivityFromSliders(lastResults.value, costPct, val)
    {
      uptakePct := val;
      shown := UpdateSensitivityFromSliders();
    }
  }
}
