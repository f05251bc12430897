/**
 * The fixed tables of the decision aid: the main DCE utility coefficients,
 * the cost-of-living multipliers per Australian state or territory, the
 * willingness-to-pay estimates (AUD per participant per session) and the
 * opportunity-cost rate. JavaScript numbers are modelled as `real`, so the
 * literals below are exact decimals rather than their nearest doubles.
 */
module Coefficients {

  // Alternative-specific constants of the programme and opt-out alternatives.
  const AscMean: real := -0.112
  const AscOptout: real := 0.131

  // Programme type (peer support is the reference level).
  const TypeComm: real := 0.527
  const TypePsych: real := 0.156
  const TypeVr: real := -0.349

  // Method of participation (in person is the reference level).
  const ModeVirtual: real := -0.426
  const ModeHybrid: real := -0.289

  // Frequency of interaction.
  const FreqWeekly: real := 0.617
  const FreqMonthly: real := 0.336

  // Duration of each session (about 30 minutes is the reference level).
  const Dur2hrs: real := 0.185
  const Dur4hrs: real := 0.213

  // Accessibility / travel distance.
  const DistLocal: real := 0.059
  const DistSignif: real := -0.509

  /** Coefficient of the continuous cost attribute (per participant per session). */
  const CostCont: real := -0.036

  /** Cost-of-living multiplier per region code. */
  const CostOfLivingMultipliers: map<string, real> := map[
    "NSW" := 1.10,
    "VIC" := 1.05,
    "QLD" := 1.00,
    "WA" := 1.08,
    "SA" := 1.02,
    "TAS" := 1.03,
    "ACT" := 1.15,
    "NT" := 1.07
  ]

  /** One row of the WTP table: the attribute label and its point estimate. */
  datatype WtpRow = WtpRow(attribute: string, wtp: real)

  /** The WTP estimates, in the order the table lists them. */
  const WtpDataMain: seq<WtpRow> := [
    WtpRow("Community engagement", 14.47),
    WtpRow("Psychological counselling", 4.28),
    WtpRow("Virtual reality", -9.58),
    WtpRow("Virtual (method)", -11.69),
    WtpRow("Hybrid (method)", -7.95),
    WtpRow("Weekly (freq)", 16.93),
    WtpRow("Monthly (freq)", 9.21),
    WtpRow("2-hour interaction", 5.08),
    WtpRow("4-hour interaction", 5.85),
    WtpRow("Local area accessibility", 1.62),
    WtpRow("Wider community accessibility", -13.99)
  ]

  /** Opportunity cost, as a fraction added on top of direct costs. */
  const OppCostRate: real := 0.2

  /** True when row `i` is the first row of `rows` labelled `name`. */
  ghost predicate FirstWithLabel(rows: seq<WtpRow>, name: string, i: int)
  {
    0 <= i < |rows| && rows[i].attribute == name &&
    forall j :: 0 <= j < i ==> rows[j].attribute != name
  }

  /**
   * `wtpFor`: the WTP of the first row whose label is `name`, or 0 when no
   * row has that label (an `Array.find` that falls back to 0).
   */
  function WtpFor(rows: seq<WtpRow>, name: string): real
  {
    FindFrom(rows, name, 0)
  }

  /** The scan of `Array.find`, from row `i` on. */
  function FindFrom(rows: seq<WtpRow>, name: string, i: nat): real
    decreases |rows| - i
  {
    if i >= |rows| then 0.0
    else if rows[i].attribute == name then rows[i].wtp
    else FindFrom(rows, name, i + 1)
  }

  /**
   * Scanning from row `i` on, when no earlier row is labelled `name`: the
   * result is the first matching row's estimate, or 0 when none matches.
   */
  lemma {:induction false} FindFromFindsFirst(rows: seq<WtpRow>, name: string, i: nat)
    requires forall j :: 0 <= j < i && j < |rows| ==> rows[j].attribute != name
    ensures (forall k :: 0 <= k < |rows| ==> rows[k].attribute != name) ==> FindFrom(rows, name, i) == 0.0
    ensures forall k :: FirstWithLabel(rows, name, k) ==> FindFrom(rows, name, i) == rows[k].wtp
    decreases |rows| - i
  {
    if i < |rows| && rows[i].attribute != name {
      FindFromFindsFirst(rows, name, i + 1);
    }
  }

  /** `WtpFor` yields the first matching row's estimate, and 0 when no row matches. */
  lemma WtpForFindsFirst(rows: seq<WtpRow>, name: string)
    ensures (forall k :: 0 <= k < |rows| ==> rows[k].attribute != name) ==> WtpFor(rows, name) == 0.0
    ensures forall k :: FirstWithLabel(rows, name, k) ==> WtpFor(rows, name) == rows[k].wtp
  {
    FindFromFindsFirst(rows, name, 0);
  }

  /** The estimates `WtpFor` reads from the WTP table, one per label. */
  lemma WtpTableValues()
    ensures WtpFor(WtpDataMain, "Community engagement") == 14.47
    ensures WtpFor(WtpDataMain, "Psychological counselling") == 4.28
    ensures WtpFor(WtpDataMain, "Virtual reality") == -9.58
    ensures WtpFor(WtpDataMain, "Virtual (method)") == -11.69
    ensures WtpFor(WtpDataMain, "Hybrid (method)") == -7.95
    ensures WtpFor(WtpDataMain, "Weekly (freq)") == 16.93
    ensures WtpFor(WtpDataMain, "Monthly (freq)") == 9.21
    ensures WtpFor(WtpDataMain, "2-hour interaction") == 5.08
    ensures WtpFor(WtpDataMain, "4-hour interaction") == 5.85
    ensures WtpFor(WtpDataMain, "Local area accessibility") == 1.62
    ensures WtpFor(WtpDataMain, "Wider community accessibility") == -13.99
  {
  }
}
