/**
 * The DCE parameter table: every WTP row with its direction (preferred,
 * less preferred, neutral) and its strength relative to the largest
 * absolute WTP in the table.
 */
module DceTable {
  import opened Coefficients

  datatype Direction = Preferred | LessPreferred | Neutral

  datatype Strength = VeryStrong | Strong | Moderate | Modest

  /** One rendered row: label, direction, strength and the estimate shown beside it. */
  datatype DceRow = DceRow(attribute: string, direction: Direction, strength: Strength, wtp: real)

  function Abs(x: real): (a: real)
    ensures a >= 0.0 && (a == x || a == -x)
  {
    if x < 0.0 then -x else x
  }

  /** The sign of an estimate, read as a preference direction. */
  function DirectionOf(wtp: real): (d: Direction)
    ensures d == Preferred <==> wtp > 0.0
    ensures d == LessPreferred <==> wtp < 0.0
    ensures d == Neutral <==> wtp == 0.0
  {
    if wtp > 0.0 then Preferred else if wtp < 0.0 then LessPreferred else Neutral
  }

  /**
   * `relativeStrength`: the ratio to the largest absolute estimate, cut at
   * 0.75, 0.5 and 0.25. With a largest value of 0 the ratio is `NaN` (for a
   * zero value, classified "Modest") or `Infinity` (classified "Very strong").
   */
  function RelativeStrength(absVal: real, maxAbs: real): (s: Strength)
    requires 0.0 <= absVal && 0.0 <= maxAbs
    ensures maxAbs > 0.0 ==> (s == VeryStrong <==> absVal >= 0.75 * maxAbs)
    ensures maxAbs > 0.0 ==> (s == Strong <==> 0.5 * maxAbs <= absVal < 0.75 * maxAbs)
    ensures maxAbs > 0.0 ==> (s == Moderate <==> 0.25 * maxAbs <= absVal < 0.5 * maxAbs)
    ensures maxAbs > 0.0 ==> (s == Modest <==> absVal < 0.25 * maxAbs)
    ensures maxAbs == 0.0 ==> (s == VeryStrong <==> absVal > 0.0) && (s == Modest <==> absVal == 0.0)
  {
    if maxAbs == 0.0 then
      if absVal > 0.0 then VeryStrong else Modest
    else
      var ratio := absVal / maxAbs;
      RatioAtLeast(absVal, maxAbs, 0.75);
      RatioAtLeast(absVal, maxAbs, 0.5);
      RatioAtLeast(absVal, maxAbs, 0.25);
      if ratio >= 0.75 then VeryStrong
      else if ratio >= 0.5 then Strong
      else if ratio >= 0.25 then Moderate
      else Modest
  }

  /** Comparing a ratio with a threshold is comparing the numerator with the scaled denominator. */
  lemma RatioAtLeast(a: real, m: real, k: real)
    requires m > 0.0
    ensures a / m >= k <==> a >= k * m
  {
    assert (a / m) * m == a;
    if a / m >= k {
      assert (a / m) * m >= k * m;
    } else {
      assert (a / m) * m < k * m;
    }
  }

  /** Strengths in increasing order. */
  function Rank(s: Strength): nat
  {
    match s
    case Modest => 0
    case Moderate => 1
    case Strong => 2
    case VeryStrong => 3
  }

  /** A larger absolute estimate never gets a weaker strength. */
  lemma StrengthMonotone(a: real, b: real, maxAbs: real)
    requires 0.0 <= a <= b && 0.0 < maxAbs
    ensures Rank(RelativeStrength(a, maxAbs)) <= Rank(RelativeStrength(b, maxAbs))
  {
  }

  /** The largest absolute estimate of rows `i..` (`Math.max` over the mapped values). */
  function MaxAbsFrom(rows: seq<WtpRow>, i: nat): (m: real)
    requires i < |rows|
    ensures 0.0 <= Abs(rows[i].wtp) <= m
    ensures exists j :: i <= j < |rows| && m == Abs(rows[j].wtp)
    decreases |rows| - i
  {
    if i == |rows| - 1 then Abs(rows[i].wtp)
    else
      var rest := MaxAbsFrom(rows, i + 1);
      if Abs(rows[i].wtp) >= rest then Abs(rows[i].wtp) else rest
  }

  /** `Math.max(...rows.map(d => Math.abs(d.wtp)))` on a non-empty table. */
  function MaxAbs(rows: seq<WtpRow>): (m: real)
    requires |rows| > 0
    ensures m >= 0.0
    ensures exists j :: 0 <= j < |rows| && m == Abs(rows[j].wtp)
  {
    MaxAbsFrom(rows, 0)
  }

  /** The scan's result bounds every absolute estimate from row `i` on and is one of them. */
  lemma {:induction false} MaxAbsFromIsMaximum(rows: seq<WtpRow>, i: nat)
    requires i < |rows|
    ensures forall j :: i <= j < |rows| ==> Abs(rows[j].wtp) <= MaxAbsFrom(rows, i)
    ensures exists j :: i <= j < |rows| && Abs(rows[j].wtp) == MaxAbsFrom(rows, i)
    decreases |rows| - i
  {
    if i < |rows| - 1 {
      MaxAbsFromIsMaximum(rows, i + 1);
    }
  }

  /** The largest absolute estimate bounds every row's and is attained by one. */
  lemma MaxAbsIsMaximum(rows: seq<WtpRow>)
    requires |rows| > 0
    ensures MaxAbs(rows) >= 0.0
    ensures forall j :: 0 <= j < |rows| ==> Abs(rows[j].wtp) <= MaxAbs(rows)
    ensures exists j :: 0 <= j < |rows| && Abs(rows[j].wtp) == MaxAbs(rows)
  {
    MaxAbsFromIsMaximum(rows, 0);
  }

  /** The row the table shows for `rows[i]`. */
  function RowFor(rows: seq<WtpRow>, i: nat): (r: DceRow)
    requires i < |rows|
    ensures r.attribute == rows[i].attribute && r.wtp == rows[i].wtp
    ensures r.direction == DirectionOf(rows[i].wtp)
    ensures r.strength == RelativeStrength(Abs(rows[i].wtp), MaxAbs(rows))
  {
    MaxAbsIsMaximum(rows);
    DceRow(rows[i].attribute, DirectionOf(rows[i].wtp),
           RelativeStrength(Abs(rows[i].wtp), MaxAbs(rows)), rows[i].wtp)
  }

  /** `populateDceParametersTable`: one row per WTP row, in table order. */
  method DceParameterRows(rows: seq<WtpRow>) returns (table: seq<DceRow>)
    ensures |table| == |rows|
    ensures forall i :: 0 <= i < |rows| ==> table[i] == RowFor(rows, i)
  {
    table := [];
    if |rows| == 0 {
      return;
    }
    var maxAbs := MaxAbs(rows);
    MaxAbsIsMaximum(rows);
    var i := 0;
    while i < |rows|
      invariant 0 <= i <= |rows|
      invariant |table| == i
      invariant forall k :: 0 <= k < i ==> table[k] == RowFor(rows, k)
    {
      var row := rows[i];
      var direction := if row.wtp > 0.0 then Preferred else if row.wtp < 0.0 then LessPreferred else Neutral;
      var strength := RelativeStrength(Abs(row.wtp), maxAbs);
      table := table + [DceRow(row.attribute, direction, strength, row.wtp)];
      i := i + 1;
    }
  }

  /** The largest absolute estimate of the WTP table is the weekly one, 16.93. */
  lemma WtpTableMaxAbs()
    ensures MaxAbs(WtpDataMain) == 16.93
  {
  }

  /** The strength column of the WTP table, row by row. */
  lemma WtpTableStrengths()
    ensures forall i :: 0 <= i < |WtpDataMain| ==>
      RowFor(WtpDataMain, i).strength ==
      [VeryStrong, Moderate, Strong, Strong, Moderate, VeryStrong, Strong, Moderate, Moderate, Modest, VeryStrong][i]
  {
    WtpTableMaxAbs();
  }
}
