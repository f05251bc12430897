/**
 * The attribute dimensions and the level catalogue: for every level key that
 * the utility and WTP calculations recognise in a dimension, the utility
 * coefficient it adds and the WTP-table row whose estimate it adds. This is
 * the reference table against which the two if-chains of the source are
 * proved; a key absent from it contributes nothing.
 */
module Levels {
  import opened Coefficients
  import opened Scenario

  datatype Dimension = ProgrammeType | Participation | Frequency | Duration | Accessibility

  /** The selected level key of one dimension. */
  function Level(cfg: ScenarioConfig, d: Dimension): string
  {
    match d
    case ProgrammeType => cfg.programmeType
    case Participation => cfg.participation
    case Frequency => cfg.frequency
    case Duration => cfg.duration
    case Accessibility => cfg.accessibility
  }

  /** What one recognised level adds: a utility coefficient and the label of its WTP-table row. */
  datatype LevelEffect = LevelEffect(coef: real, wtpAttribute: string)

  /**
   * The recognised levels of each dimension. "daily" shares the weekly entry
   * and "home" the local one; the reference levels (peer, in person, 30
   * minutes) are not listed, so they add 0 like any unrecognised key.
   */
  function LevelCatalog(d: Dimension): map<string, LevelEffect>
  {
    match d
    case ProgrammeType => map[
      "comm" := LevelEffect(TypeComm, "Community engagement"),
      "psych" := LevelEffect(TypePsych, "Psychological counselling"),
      "vr" := LevelEffect(TypeVr, "Virtual reality")]
    case Participation => map[
      "virtual" := LevelEffect(ModeVirtual, "Virtual (method)"),
      "hybrid" := LevelEffect(ModeHybrid, "Hybrid (method)")]
    case Frequency => map[
      "weekly" := LevelEffect(FreqWeekly, "Weekly (freq)"),
      "daily" := LevelEffect(FreqWeekly, "Weekly (freq)"),
      "monthly" := LevelEffect(FreqMonthly, "Monthly (freq)")]
    case Duration => map[
      "2hrs" := LevelEffect(Dur2hrs, "2-hour interaction"),
      "4hrs" := LevelEffect(Dur4hrs, "4-hour interaction")]
    case Accessibility => map[
      "local" := LevelEffect(DistLocal, "Local area accessibility"),
      "wider" := LevelEffect(DistSignif, "Wider community accessibility"),
      "home" := LevelEffect(DistLocal, "Local area accessibility")]
  }

  /** The level keys of dimension `d` that the catalogue lists. */
  function CodedLevels(d: Dimension): set<string>
  {
    match d
    case ProgrammeType => {"comm", "psych", "vr"}
    case Participation => {"virtual", "hybrid"}
    case Frequency => {"weekly", "daily", "monthly"}
    case Duration => {"2hrs", "4hrs"}
    case Accessibility => {"local", "wider", "home"}
  }

  /** The utility coefficient a level key adds in its dimension (0 when unlisted). */
  function LevelCoef(d: Dimension, key: string): real
  {
    if key in LevelCatalog(d) then LevelCatalog(d)[key].coef else 0.0
  }

  /** The WTP a level key adds in its dimension, read from the WTP table (0 when unlisted). */
  function LevelWtp(d: Dimension, key: string): real
  {
    if key in LevelCatalog(d) then WtpFor(WtpDataMain, LevelCatalog(d)[key].wtpAttribute) else 0.0
  }

  /**
   * A key is listed exactly when it is one of the dimension's coded levels,
   * and every listed level carries a non-zero coefficient; so a level adds a
   * non-zero utility exactly when it is coded.
   */
  lemma CatalogMatchesCodedLevels(d: Dimension, key: string)
    ensures key in LevelCatalog(d) <==> key in CodedLevels(d)
    ensures LevelCoef(d, key) != 0.0 <==> key in CodedLevels(d)
  {
  }
}
