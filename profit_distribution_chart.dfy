/** The capped/uncapped profit distribution chart
    (flowchart2/src/components/slides/orientation/profit-distribution-comparison-chart.tsx).
    Profits are whole pounds; the number formatting itself is not modelled, only which unit is chosen. */
module ProfitDistributionChart {
  import opened Wrappers
  import opened Strings

  datatype RawDistributionDatum = RawDistributionDatum(likelihood: int, capped: int, uncapped: int)
  datatype DistributionDatum = DistributionDatum(likelihood: int, capped: int, uncapped: int, uncappedActual: int)

  const MAX_DISPLAY_PROFIT := 120_000

  const RAW_DISTRIBUTION: seq<RawDistributionDatum> := [
    RawDistributionDatum(100, 1_000, 1_000),
    RawDistributionDatum(95, 3_200, 3_200),
    RawDistributionDatum(90, 5_600, 5_600),
    RawDistributionDatum(80, 9_500, 9_500),
    RawDistributionDatum(70, 14_500, 14_500),
    RawDistributionDatum(60, 18_500, 18_500),
    RawDistributionDatum(50, 22_000, 22_000),
    RawDistributionDatum(40, 26_000, 26_000),
    RawDistributionDatum(30, 28_500, 28_500),
    RawDistributionDatum(20, 30_000, 32_000),
    RawDistributionDatum(10, 30_000, 65_000),
    RawDistributionDatum(5, 29_500, 140_000),
    RawDistributionDatum(2, 30_000, 420_000),
    RawDistributionDatum(1, 30_000, 1_000_000)
  ]

  /** One point of the `DISTRIBUTION` mapping: the uncapped value is clipped to the display maximum
      and the actual value is kept beside it. */
  function Clip(point: RawDistributionDatum): (d: DistributionDatum)
    ensures d.likelihood == point.likelihood && d.capped == point.capped
    ensures d.uncappedActual == point.uncapped
    ensures d.uncapped <= MAX_DISPLAY_PROFIT && d.uncapped <= point.uncapped
    ensures d.uncapped == point.uncapped || d.uncapped == MAX_DISPLAY_PROFIT
    ensures d.uncapped == d.uncappedActual <==> point.uncapped <= MAX_DISPLAY_PROFIT
  {
    DistributionDatum(point.likelihood, point.capped,
      if point.uncapped <= MAX_DISPLAY_PROFIT then point.uncapped else MAX_DISPLAY_PROFIT,
      point.uncapped)
  }

  /** `RAW_DISTRIBUTION.map(...)`: same length and order, every point clipped. */
  function Distribution(raw: seq<RawDistributionDatum>): (r: seq<DistributionDatum>)
    ensures |r| == |raw|
    ensures forall i :: 0 <= i < |r| ==> r[i] == Clip(raw[i])
    ensures forall i :: 0 <= i < |r| ==> r[i].likelihood == raw[i].likelihood && r[i].capped == raw[i].capped
    ensures forall i :: 0 <= i < |r| ==> r[i].uncappedActual == raw[i].uncapped && r[i].uncapped <= MAX_DISPLAY_PROFIT
    ensures forall i :: 0 <= i < |r| ==> (r[i].uncapped == r[i].uncappedActual <==> raw[i].uncapped <= MAX_DISPLAY_PROFIT)
  {
    seq(|raw|, i requires 0 <= i < |raw| => Clip(raw[i]))
  }

  /** With the shipped data, exactly the 5%, 2% and 1% points are clipped. */
  lemma ShippedClipping()
    ensures var d := Distribution(RAW_DISTRIBUTION);
      forall i :: 0 <= i < |d| ==> (d[i].uncapped < d[i].uncappedActual <==> d[i].likelihood <= 5)
  {
  }

  /** The unit `formatProfit` writes: "M" from a million, "k" from a thousand, plain pounds below. */
  datatype ProfitUnit = Millions | Thousands | Pounds

  function UnitRank(u: ProfitUnit): nat {
    match u
    case Pounds => 0
    case Thousands => 1
    case Millions => 2
  }

  function FormatUnit(value: int): (u: ProfitUnit)
    ensures u == Millions <==> value >= 1_000_000
    ensures u == Thousands <==> 1_000 <= value < 1_000_000
    ensures u == Pounds <==> value < 1_000
  {
    if value >= 1_000_000 then Millions
    else if value >= 1_000 then Thousands
    else Pounds
  }

  /** Larger values never get a smaller unit. */
  lemma FormatUnitMonotone(v: int, w: int)
    requires v <= w
    ensures UnitRank(FormatUnit(v)) <= UnitRank(FormatUnit(w))
  {
  }

  /** A tooltip line: an amount formatted in some unit, with "+" appended for the cap label. */
  datatype ProfitText = ProfitText(unit: ProfitUnit, amount: int, plus: bool)

  datatype PayloadEntry = PayloadEntry(name: Option<string>, value: int, point: Option<DistributionDatum>)

  datatype Label = NumberLabel(n: int) | TextLabel(text: string)

  const UNCAPPED := "uncapped"

  /** `entry.name?.toLowerCase().includes("uncapped") && point && point.uncappedActual > MAX_DISPLAY_PROFIT`. */
  predicate ShowsCap(entry: PayloadEntry) {
    && entry.name.Some?
    && Contains(ToLower(entry.name.value), UNCAPPED)
    && entry.point.Some?
    && entry.point.value.uncappedActual > MAX_DISPLAY_PROFIT
  }

  /** One tooltip line: the cap label "£120k+" for a clipped uncapped point, otherwise the entry's value. */
  function EntryText(entry: PayloadEntry): (t: ProfitText)
    ensures t.plus <==> ShowsCap(entry)
    ensures t.plus ==> t.amount == MAX_DISPLAY_PROFIT && t.unit == Thousands
    ensures !t.plus ==> t.amount == entry.value && t.unit == FormatUnit(entry.value)
  {
    if ShowsCap(entry) then ProfitText(FormatUnit(MAX_DISPLAY_PROFIT), MAX_DISPLAY_PROFIT, true)
    else ProfitText(FormatUnit(entry.value), entry.value, false)
  }

  /** The rendered tooltip: the likelihood label and one line per entry. */
  datatype TooltipBody = TooltipBody(likelihood: int, lines: seq<ProfitText>)

  /** `CustomTooltip`: nothing unless active, with a non-empty payload and a numeric label. */
  function Tooltip(active: bool, payload: Option<seq<PayloadEntry>>, tickLabel: Option<Label>): (r: Option<TooltipBody>)
    ensures r.None? <==> !active || payload.None? || |payload.value| == 0 || !(tickLabel.Some? && tickLabel.value.NumberLabel?)
    ensures r.Some? ==> r.value.likelihood == tickLabel.value.n && |r.value.lines| == |payload.value|
    ensures r.Some? ==> forall i :: 0 <= i < |payload.value| ==> r.value.lines[i] == EntryText(payload.value[i])
  {
    if !active || payload.None? || |payload.value| == 0 || !(tickLabel.Some? && tickLabel.value.NumberLabel?) then None
    else
      var entries := payload.value;
      Some(TooltipBody(tickLabel.value.n, seq(|entries|, i requires 0 <= i < |entries| => EntryText(entries[i]))))
  }

  /** The names the chart gives its two lines. */
  const UNCAPPED_LINE_NAME := "NewCo Scenario \U{2014} uncapped"
  const CAPPED_LINE_NAME := "CD Scenario"

  /** The cap label appears on the uncapped line for clipped points, never on the capped line;
      letter case in the name does not matter. */
  lemma CapLabelByLine(point: DistributionDatum, value: int)
    ensures ShowsCap(PayloadEntry(Some(UNCAPPED_LINE_NAME), value, Some(point))) <==> point.uncappedActual > MAX_DISPLAY_PROFIT
    ensures ShowsCap(PayloadEntry(Some("UNCAPPED"), value, Some(point))) <==> point.uncappedActual > MAX_DISPLAY_PROFIT
    ensures !ShowsCap(PayloadEntry(Some(CAPPED_LINE_NAME), value, Some(point)))
    ensures !ShowsCap(PayloadEntry(None, value, Some(point)))
  {
    var lower := ToLower(UNCAPPED_LINE_NAME);
    assert OccursAt(lower, UNCAPPED, 17) by {
      assert lower[17..25] == UNCAPPED;
    }
    assert OccursAt(ToLower("UNCAPPED"), UNCAPPED, 0) by {
      assert ToLower("UNCAPPED") == UNCAPPED;
    }
    var capped := ToLower(CAPPED_LINE_NAME);
    assert capped == "cd scenario";
    assert !Contains(capped, UNCAPPED) by {
      assert forall j :: 0 <= j < |capped| ==> capped[j] != 'u';
      forall i: nat | i <= |capped|
        ensures !OccursAt(capped, UNCAPPED, i)
      {
        if i + |UNCAPPED| <= |capped| {
          assert capped[i..i + |UNCAPPED|][0] == capped[i];
        }
      }
    }
  }
}
