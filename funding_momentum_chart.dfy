/** The funding chart with its "Exclude US companies" checkbox
    (flowchart2/src/components/slides/orientation/funding-momentum-chart.tsx). */
module FundingMomentumChart {
  import opened Wrappers
  import opened Seqs
  import opened LineChartBlock

  function Point(date: string, value: int): LineSeriesDatum {
    LineSeriesDatum(date, value, None, None)
  }

  function RoundPoint(date: string, value: int, round: string, amount: int): LineSeriesDatum {
    LineSeriesDatum(date, value, Some(round), Some(amount))
  }

  const SERIES: seq<LineSeries> := [
    LineSeries("Profound", [Point("2025-01-01", 0),
      RoundPoint("2025-06-18", 23_500_000, "Series A", 20_000_000),
      RoundPoint("2025-08-12", 58_500_000, "Series B", 35_000_000)], None),
    LineSeries("Bluefish", [Point("2025-01-01", 0),
      RoundPoint("2025-08-20", 23_500_000, "Series A", 20_000_000)], None),
    LineSeries("Scrunch", [Point("2025-01-01", 0),
      RoundPoint("2025-03-04", 4_000_000, "Seed", 4_000_000),
      RoundPoint("2025-07-22", 19_000_000, "Series A", 15_000_000)], None),
    LineSeries("Evertune", [Point("2025-01-01", 0),
      RoundPoint("2025-08-12", 19_000_000, "Series A", 15_000_000)], None),
    LineSeries("Peec", [Point("2025-01-01", 0),
      RoundPoint("2025-04-15", 2_095_200, "Pre-Seed", 2_095_200),
      RoundPoint("2025-07-02", 8_148_000, "Seed", 6_052_800)], None),
    LineSeries("Athena", [Point("2025-01-01", 0),
      RoundPoint("2025-06-18", 2_200_000, "Seed", 2_200_000)], None),
    LineSeries("Promptwatch", [Point("2025-01-01", 0),
      RoundPoint("2025-09-18", 1_396_800, "Seed", 1_396_800)], None)
  ]

  const NON_US_COMPANIES: set<string> := {"Peec", "Promptwatch"}

  predicate IsNonUS(line: LineSeries) { line.name in NON_US_COMPANIES }

  /** `excludeUSCompanies ? SERIES.filter(line => NON_US_COMPANIES.has(line.name)) : SERIES`. */
  function SelectSeries(exclude: bool, series: seq<LineSeries>): (r: seq<LineSeries>)
    ensures !exclude ==> r == series
    ensures exclude ==> forall i :: 0 <= i < |r| ==> r[i] in series && r[i].name in NON_US_COMPANIES
    ensures exclude ==> forall i :: 0 <= i < |series| && series[i].name in NON_US_COMPANIES ==> series[i] in r
  {
    if exclude then Filter(series, IsNonUS) else series
  }

  /** Whatever the flag, the lines passed on keep their original relative order. */
  lemma SelectionIsSubsequence(exclude: bool, series: seq<LineSeries>)
    ensures IsSubsequence(SelectSeries(exclude, series), series)
  {
    if exclude {
      FilterIsSubsequence(series, IsNonUS);
    } else {
      SubsequenceReflexive(series);
    }
  }

  /** With the flag on, each non-US line is kept as often as it occurs and every other line is dropped. */
  lemma SelectionCounts(series: seq<LineSeries>, line: LineSeries)
    ensures multiset(SelectSeries(true, series))[line] == if IsNonUS(line) then multiset(series)[line] else 0
  {
    FilterCount(series, IsNonUS, line);
  }

  lemma {:induction false} SubsequenceReflexive<T>(s: seq<T>)
    ensures IsSubsequence(s, s)
    decreases |s|
  {
    if |s| > 0 {
      SubsequenceReflexive(s[1..]);
    }
  }

  /** With the shipped data, excluding US companies leaves Peec then Promptwatch. */
  lemma ShippedNonUSSelection()
    ensures SelectSeries(true, SERIES) == [SERIES[4], SERIES[6]]
  {
    FilterSevenByName(SERIES);
  }

  /** The filter over seven lines whose names put only the fifth and the seventh outside the US. */
  lemma FilterSevenByName(s: seq<LineSeries>)
    requires |s| == 7
    requires !IsNonUS(s[0]) && !IsNonUS(s[1]) && !IsNonUS(s[2]) && !IsNonUS(s[3])
    requires IsNonUS(s[4]) && !IsNonUS(s[5]) && IsNonUS(s[6])
    ensures Filter(s, IsNonUS) == [s[4], s[6]]
  {
    assert s[6..][1..] == [];
    assert Filter(s[6..], IsNonUS) == [s[6]];
    assert s[5..][1..] == s[6..];
    assert Filter(s[5..], IsNonUS) == [s[6]];
    assert s[4..][1..] == s[5..];
    assert Filter(s[4..], IsNonUS) == [s[4], s[6]];
    assert s[3..][1..] == s[4..];
    assert Filter(s[3..], IsNonUS) == [s[4], s[6]];
    assert s[2..][1..] == s[3..];
    assert Filter(s[2..], IsNonUS) == [s[4], s[6]];
    assert s[1..][1..] == s[2..];
    assert Filter(s[1..], IsNonUS) == [s[4], s[6]];
  }

  class Chart {
    var excludeUSCompanies: bool

    constructor ()
      ensures !excludeUSCompanies
    {
      excludeUSCompanies := false;
    }

    /** The checkbox's onChange: the flag becomes the checked value. */
    method OnCheckedChange(checked: bool)
      modifies this
      ensures excludeUSCompanies == checked
    {
      excludeUSCompanies := checked;
    }

    /** The series handed to the line chart. */
    function FilteredSeries(): (r: seq<LineSeries>)
      reads this
      ensures !excludeUSCompanies ==> r == SERIES
      ensures excludeUSCompanies ==> r == [SERIES[4], SERIES[6]]
    {
      ShippedNonUSSelection();
      SelectSeries(excludeUSCompanies, SERIES)
    }
  }
}
