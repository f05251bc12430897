/**
 * The attribute part of the programme's utility: one coefficient per
 * dimension, looked up from the selected level.
 */
module Utility {
  import opened Coefficients
  import opened Scenario
  import opened Levels

  /** The attribute utility: the catalogue coefficient of the selected level of each dimension, summed. */
  function AttributeUtility(cfg: ScenarioConfig): real
  {
    LevelCoef(ProgrammeType, cfg.programmeType) +
    LevelCoef(Participation, cfg.participation) +
    LevelCoef(Frequency, cfg.frequency) +
    LevelCoef(Duration, cfg.duration) +
    LevelCoef(Accessibility, cfg.accessibility)
  }

  /** The source's if-chains, accumulating `u` one dimension at a time. */
  method ComputeAttributeUtility(cfg: ScenarioConfig) returns (u: real)
    ensures u == AttributeUtility(cfg)
  {
    u := 0.0;

    // Programme type (peer support is the reference level)
    if cfg.programmeType == "comm" {
      u := u + TypeComm;
    } else if cfg.programmeType == "psych" {
      u := u + TypePsych;
    } else if cfg.programmeType == "vr" {
      u := u + TypeVr;
    }
    assert u == LevelCoef(ProgrammeType, cfg.programmeType);

    // Method of participation (in person is the reference level)
    if cfg.participation == "virtual" {
      u := u + ModeVirtual;
    } else if cfg.participation == "hybrid" {
      u := u + ModeHybrid;
    }
    assert u == LevelCoef(ProgrammeType, cfg.programmeType) + LevelCoef(Participation, cfg.participation);

    // Frequency (daily is treated as weekly)
    if cfg.frequency == "weekly" || cfg.frequency == "daily" {
      u := u + FreqWeekly;
    } else if cfg.frequency == "monthly" {
      u := u + FreqMonthly;
    }
    assert u == LevelCoef(ProgrammeType, cfg.programmeType) + LevelCoef(Participation, cfg.participation) +
      LevelCoef(Frequency, cfg.frequency);

    // Duration (short sessions are the reference level)
    if cfg.duration == "2hrs" {
      u := u + Dur2hrs;
    } else if cfg.duration == "4hrs" {
      u := u + Dur4hrs;
    }
    assert u == LevelCoef(ProgrammeType, cfg.programmeType) + LevelCoef(Participation, cfg.participation) +
      LevelCoef(Frequency, cfg.frequency) + LevelCoef(Duration, cfg.duration);

    // Accessibility (at home is scored like the local area)
    if cfg.accessibility == "local" {
      u := u + DistLocal;
    } else if cfg.accessibility == "wider" {
      u := u + DistSignif;
    } else if cfg.accessibility == "home" {
      u := u + DistLocal;
    }
  }

  /** Choosing "daily" instead of "weekly" leaves the utility unchanged. */
  lemma DailyScoresAsWeekly(cfg: ScenarioConfig)
    ensures AttributeUtility(cfg.(frequency := "daily")) == AttributeUtility(cfg.(frequency := "weekly"))
  {
  }

  /** Choosing "home" instead of "local" leaves the utility unchanged. */
  lemma HomeScoresAsLocal(cfg: ScenarioConfig)
    ensures AttributeUtility(cfg.(accessibility := "home")) == AttributeUtility(cfg.(accessibility := "local"))
  {
  }

  /** A level key that is not coded in its dimension contributes 0 to the utility. */
  lemma UncodedLevelAddsZero(cfg: ScenarioConfig, d: Dimension, key: string)
    requires key !in CodedLevels(d)
    ensures AttributeUtility(WithLevel(cfg, d, key)) == AttributeUtility(WithLevel(cfg, d, "peer"))
  {
    CatalogMatchesCodedLevels(d, key);
    CatalogMatchesCodedLevels(d, "peer");
  }

  /** The configuration with the level of dimension `d` replaced by `key`. */
  function WithLevel(cfg: ScenarioConfig, d: Dimension, key: string): (c: ScenarioConfig)
    ensures Level(c, d) == key
    ensures forall e :: e != d ==> Level(c, e) == Level(cfg, e)
  {
    match d
    case ProgrammeType => cfg.(programmeType := key)
    case Participation => cfg.(participation := key)
    case Frequency => cfg.(frequency := key)
    case Duration => cfg.(duration := key)
    case Accessibility => cfg.(accessibility := key)
  }

  /**
   * There is no all-zero configuration among the coded levels: every
   * frequency and every accessibility level adds a non-zero term, and the
   * selection peer / in person / daily / 30 minutes / at home sums to 0.676.
   */
  lemma NoZeroBaseline(cfg: ScenarioConfig)
    requires cfg.frequency in CodedLevels(Frequency)
    requires cfg.accessibility in CodedLevels(Accessibility)
    ensures LevelCoef(Frequency, cfg.frequency) != 0.0
    ensures LevelCoef(Accessibility, cfg.accessibility) != 0.0
    ensures AttributeUtility(cfg.(programmeType := "peer", participation := "inperson",
      frequency := "daily", duration := "30min", accessibility := "home")) == 0.676
  {
    CatalogMatchesCodedLevels(Frequency, cfg.frequency);
    CatalogMatchesCodedLevels(Accessibility, cfg.accessibility);
  }

  /** community / in person / weekly / 2 hours / local: 0.527 + 0.617 + 0.185 + 0.059. */
  lemma ExampleAttributeUtility(cfg: ScenarioConfig)
    requires cfg.programmeType == "comm" && cfg.participation == "inperson"
    requires cfg.frequency == "weekly" && cfg.duration == "2hrs" && cfg.accessibility == "local"
    ensures AttributeUtility(cfg) == 1.388
  {
  }
}
