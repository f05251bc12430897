/**
 * Scenario-level willingness to pay, in AUD per participant per session:
 * the WTP-table estimate of the selected level of each dimension, summed.
 */
module ScenarioWtp {
  import opened Coefficients
  import opened Scenario
  import opened Levels

  /** The scenario's WTP: the catalogue's WTP row of the selected level of each dimension, summed. */
  function Wtp(cfg: ScenarioConfig): real
  {
    LevelWtp(ProgrammeType, cfg.programmeType) +
    LevelWtp(Participation, cfg.participation) +
    LevelWtp(Frequency, cfg.frequency) +
    LevelWtp(Duration, cfg.duration) +
    LevelWtp(Accessibility, cfg.accessibility)
  }

  /** The source's if-chains, accumulating `wtp` one dimension at a time from `wtpFor` lookups. */
  method ComputeWtpPerParticipantPerSession(cfg: ScenarioConfig) returns (wtp: real)
    ensures wtp == Wtp(cfg)
  {
    wtp := 0.0;

    // Programme type
    if cfg.programmeType == "comm" {
      wtp := wtp + WtpFor(WtpDataMain, "Community engagement");
    } else if cfg.programmeType == "psych" {
      wtp := wtp + WtpFor(WtpDataMain, "Psychological counselling");
    } else if cfg.programmeType == "vr" {
      wtp := wtp + WtpFor(WtpDataMain, "Virtual reality");
    }
    assert wtp == LevelWtp(ProgrammeType, cfg.programmeType);

    // Method
    if cfg.participation == "virtual" {
      wtp := wtp + WtpFor(WtpDataMain, "Virtual (method)");
    } else if cfg.participation == "hybrid" {
      wtp := wtp + WtpFor(WtpDataMain, "Hybrid (method)");
    }
    assert wtp == LevelWtp(ProgrammeType, cfg.programmeType) + LevelWtp(Participation, cfg.participation);

    // Frequency
    if cfg.frequency == "weekly" || cfg.frequency == "daily" {
      wtp := wtp + WtpFor(WtpDataMain, "Weekly (freq)");
    } else if cfg.frequency == "monthly" {
      wtp := wtp + WtpFor(WtpDataMain, "Monthly (freq)");
    }
    assert wtp == LevelWtp(ProgrammeType, cfg.programmeType) + LevelWtp(Participation, cfg.participation) +
      LevelWtp(Frequency, cfg.frequency);

    // Duration
    if cfg.duration == "2hrs" {
      wtp := wtp + WtpFor(WtpDataMain, "2-hour interaction");
    } else if cfg.duration == "4hrs" {
      wtp := wtp + WtpFor(WtpDataMain, "4-hour interaction");
    }
    assert wtp == LevelWtp(ProgrammeType, cfg.programmeType) + LevelWtp(Participation, cfg.participation) +
      LevelWtp(Frequency, cfg.frequency) + LevelWtp(Duration, cfg.duration);

    // Accessibility
    if cfg.accessibility == "local" {
      wtp := wtp + WtpFor(WtpDataMain, "Local area accessibility");
    } else if cfg.accessibility == "wider" {
      wtp := wtp + WtpFor(WtpDataMain, "Wider community accessibility");
    } else if cfg.accessibility == "home" {
      wtp := wtp + WtpFor(WtpDataMain, "Local area accessibility");
    }
  }

  /**
   * The WTP reads only the five attribute selections: cost, region,
   * multiplier, session count and cohort size do not affect it.
   */
  lemma WtpIgnoresCostAndScale(a: ScenarioConfig, b: ScenarioConfig)
    requires forall d :: Level(a, d) == Level(b, d)
    ensures Wtp(a) == Wtp(b)
  {
    assert Level(a, ProgrammeType) == Level(b, ProgrammeType);
    assert Level(a, Participation) == Level(b, Participation);
    assert Level(a, Frequency) == Level(b, Frequency);
    assert Level(a, Duration) == Level(b, Duration);
    assert Level(a, Accessibility) == Level(b, Accessibility);
  }

  /** Both calculations follow one level mapping: a level adds WTP only where it adds utility. */
  lemma WtpFollowsUtilityMapping(d: Dimension, key: string)
    ensures LevelCoef(d, key) == 0.0 ==> LevelWtp(d, key) == 0.0
  {
    CatalogMatchesCodedLevels(d, key);
  }

  /** "daily" is valued as "weekly" and "home" as "local". */
  lemma WtpAliases(cfg: ScenarioConfig)
    ensures Wtp(cfg.(frequency := "daily")) == Wtp(cfg.(frequency := "weekly"))
    ensures Wtp(cfg.(accessibility := "home")) == Wtp(cfg.(accessibility := "local"))
  {
  }

  /** community / in person / weekly / 2 hours / local: 14.47 + 16.93 + 5.08 + 1.62 = 38.10. */
  lemma ExampleWtp(cfg: ScenarioConfig)
    requires cfg.programmeType == "comm" && cfg.participation == "inperson"
    requires cfg.frequency == "weekly" && cfg.duration == "2hrs" && cfg.accessibility == "local"
    ensures Wtp(cfg) == 38.10
  {
    WtpTableValues();
  }

  /**
   * A net-disliked selection keeps its negative total (no floor at zero):
   * virtual reality / virtual / monthly / 30 minutes / wider community.
   */
  lemma NegativeWtpIsKept(cfg: ScenarioConfig)
    requires cfg.programmeType == "vr" && cfg.participation == "virtual"
    requires cfg.frequency == "monthly" && cfg.duration == "30min" && cfg.accessibility == "wider"
    ensures Wtp(cfg) == -9.58 - 11.69 + 9.21 - 13.99
    ensures Wtp(cfg) < 0.0
  {
    WtpTableValues();
  }
}
