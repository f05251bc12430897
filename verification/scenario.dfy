/**
 * The scenario configuration record and how it is read from the form: the
 * attribute selections (falling back to each control's default), the region
 * (falling back to NSW), its cost-of-living multiplier (falling back to 1.0)
 * and the adjusted cost per session.
 */
module Scenario {
  import opened Coefficients

  /**
   * The configuration every calculation works from. Attribute levels are
   * kept as the strings the form controls hold; counts are the integers
   * that `parseInt(…) || 0` produced.
   */
  datatype ScenarioConfig = ScenarioConfig(
    programmeType: string,
    participation: string,
    frequency: string,
    duration: string,
    accessibility: string,
    region: string,
    multiplier: real,
    baseCostPerSession: real,
    adjustedCostPerSession: real,
    numSessions: int,
    cohortSize: int)

  /**
   * The form's values after parsing. An empty string stands for a control
   * that is missing or holds no value; the numbers are already parsed, with
   * an unparsable field read as 0.
   */
  datatype FormValues = FormValues(
    programmeType: string,
    participation: string,
    frequency: string,
    duration: string,
    accessibility: string,
    costPerSession: real,
    numberOfSessions: int,
    targetCohort: int,
    region: string)

  // The default option of each attribute control.
  const DefaultProgrammeType: string := "comm"
  const DefaultMethod: string := "inperson"
  const DefaultFrequency: string := "weekly"
  const DefaultDuration: string := "2hrs"
  const DefaultAccessibility: string := "local"
  const DefaultRegion: string := "NSW"

  /** JavaScript's `value || fallback` on a string: the empty string is falsy. */
  function OrDefault(value: string, fallback: string): (r: string)
    ensures value != "" ==> r == value
    ensures value == "" ==> r == fallback
  {
    if value == "" then fallback else value
  }

  /**
   * `costOfLivingMultipliers[region] || 1.0`: the table's multiplier, or 1.0
   * for a region the table does not list (or a zero entry, which is falsy).
   */
  function RegionMultiplier(region: string): (m: real)
    ensures region !in CostOfLivingMultipliers ==> m == 1.0
    ensures region in CostOfLivingMultipliers ==> m == CostOfLivingMultipliers[region]
  {
    if region in CostOfLivingMultipliers && CostOfLivingMultipliers[region] != 0.0
    then CostOfLivingMultipliers[region]
    else 1.0
  }

  /** Every multiplier is at least 1.0, and the reference region QLD is exactly 1.0. */
  lemma MultipliersAtLeastOne(region: string)
    ensures RegionMultiplier(region) >= 1.0
    ensures RegionMultiplier("QLD") == 1.0
  {
    if region in CostOfLivingMultipliers {
      assert region in {"NSW", "VIC", "QLD", "WA", "SA", "TAS", "ACT", "NT"};
    }
  }

  /** Builds the configuration from the parsed form values. */
  function ReadScenario(form: FormValues): (cfg: ScenarioConfig)
    ensures cfg.programmeType == OrDefault(form.programmeType, DefaultProgrammeType)
    ensures cfg.participation == OrDefault(form.participation, DefaultMethod)
    ensures cfg.frequency == OrDefault(form.frequency, DefaultFrequency)
    ensures cfg.duration == OrDefault(form.duration, DefaultDuration)
    ensures cfg.accessibility == OrDefault(form.accessibility, DefaultAccessibility)
    ensures cfg.region == OrDefault(form.region, DefaultRegion)
    ensures cfg.multiplier >= 1.0
    ensures cfg.region !in CostOfLivingMultipliers ==> cfg.multiplier == 1.0
    ensures cfg.region in CostOfLivingMultipliers ==> cfg.multiplier == CostOfLivingMultipliers[cfg.region]
    ensures cfg.baseCostPerSession == form.costPerSession
    ensures cfg.adjustedCostPerSession == form.costPerSession * cfg.multiplier
    ensures cfg.numSessions == form.numberOfSessions && cfg.cohortSize == form.targetCohort
  {
    var region := OrDefault(form.region, DefaultRegion);
    var multiplier := RegionMultiplier(region);
    MultipliersAtLeastOne(region);
    ScenarioConfig(
      OrDefault(form.programmeType, DefaultProgrammeType),
      OrDefault(form.participation, DefaultMethod),
      OrDefault(form.frequency, DefaultFrequency),
      OrDefault(form.duration, DefaultDuration),
      OrDefault(form.accessibility, DefaultAccessibility),
      region,
      multiplier,
      form.costPerSession,
      form.costPerSession * multiplier,
      form.numberOfSessions,
      form.targetCohort)
  }

  /** The values the example loader puts in the form before applying it. */
  const ExampleForm: FormValues :=
    FormValues("comm", "inperson", "weekly", "2hrs", "local", 40.0, 8, 1000, "NSW")

  /** The example scenario is costed in NSW, so its adjusted cost per session is 44. */
  lemma ExampleAdjustedCost()
    ensures ReadScenario(ExampleForm).multiplier == 1.10
    ensures ReadScenario(ExampleForm).adjustedCostPerSession == 44.0
  {
  }

  /** An empty form yields the controls' defaults and the NSW multiplier. */
  lemma EmptyFormDefaults(cost: real, sessions: int, cohort: int)
    ensures var cfg := ReadScenario(FormValues("", "", "", "", "", cost, sessions, cohort, ""));
      cfg.programmeType == "comm" && cfg.participation == "inperson" && cfg.frequency == "weekly" &&
      cfg.duration == "2hrs" && cfg.accessibility == "local" &&
      cfg.region == "NSW" && cfg.adjustedCostPerSession == cost * 1.10
  {
  }
}
