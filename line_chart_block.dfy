/** Multi-series merge, stroke colours and tooltip filter of the line chart
    (flowchart2/src/components/mdx/line-chart-block.tsx). Values are modelled as integers. */
module LineChartBlock {
  import opened Wrappers
  import opened Seqs
  import opened Strings

  datatype LineSeriesDatum = LineSeriesDatum(date: string, value: int, round: Option<string>, roundAmount: Option<int>)
  datatype LineSeries = LineSeries(name: string, data: seq<LineSeriesDatum>, color: Option<string>)

  /** A cell of a merged row record. */
  datatype Field = DateField(date: string) | ValueField(value: int) | MetaField(point: LineSeriesDatum) | NullField

  /** One merged row: a record keyed by "date", by each series name and by each name with "__meta". */
  type Row = map<string, Field>

  const DATE_KEY := "date"
  const META_SUFFIX := "__meta"

  const COLOR_SEQUENCE: seq<string> := ["#2563eb", "#f97316", "#0ea5e9", "#9333ea", "#f59e0b", "#22c55e", "#ef4444"]

  // ---- Collecting the dates (the `Set` filled by the nested forEach) ----

  /** `dates.add(d)`: a JavaScript Set keeps first-insertion order and ignores repeats. */
  function AddDate(dates: seq<string>, d: string): seq<string> {
    if d in dates then dates else dates + [d]
  }

  function AddPoints(dates: seq<string>, points: seq<LineSeriesDatum>): seq<string>
    decreases |points|
  {
    if |points| == 0 then dates
    else AddDate(AddPoints(dates, points[..|points| - 1]), points[|points| - 1].date)
  }

  /** The Set's contents after visiting every point of every series, in insertion order. */
  function CollectDates(series: seq<LineSeries>): seq<string>
    decreases |series|
  {
    if |series| == 0 then []
    else AddPoints(CollectDates(series[..|series| - 1]), series[|series| - 1].data)
  }

  /** Every date that occurs in some series. */
  ghost function AllDates(series: seq<LineSeries>): set<string> {
    set l, p | l in series && p in l.data :: p.date
  }

  lemma {:induction false} AddPointsSpec(dates: seq<string>, points: seq<LineSeriesDatum>)
    requires Distinct(dates)
    ensures Distinct(AddPoints(dates, points))
    ensures forall d :: d in AddPoints(dates, points) <==> d in dates || exists p :: p in points && p.date == d
    decreases |points|
  {
    if |points| > 0 {
      var front := points[..|points| - 1];
      AddPointsSpec(dates, front);
      assert points == front + [points[|points| - 1]];
    }
  }

  /** The collected dates are duplicate-free and are exactly the dates of the series. */
  lemma {:induction false} CollectDatesSpec(series: seq<LineSeries>)
    ensures Distinct(CollectDates(series))
    ensures forall d :: d in CollectDates(series) <==> d in AllDates(series)
    decreases |series|
  {
    if |series| > 0 {
      var front := series[..|series| - 1];
      var last := series[|series| - 1];
      CollectDatesSpec(front);
      AddPointsSpec(CollectDates(front), last.data);
      assert series == front + [last];
      forall d ensures d in AllDates(series) <==> d in AllDates(front) || exists p :: p in last.data && p.date == d {
        if d in AllDates(series) {
          var l, p :| l in series && p in l.data && p.date == d;
          if l != last {
            assert l in front;
          }
        }
      }
    }
  }

  /** `Array.from(dates).sort()`: one entry per distinct date, in ascending order. */
  function SortedDates(series: seq<LineSeries>): (r: seq<string>)
    ensures StrictlySorted(r)
    ensures forall d :: d in r <==> d in AllDates(series)
  {
    CollectDatesSpec(series);
    Sort(CollectDates(series))
  }

  /** The sorted dates have exactly as many entries as there are distinct dates, and do not depend on
      the order in which the series list them. */
  lemma SortedDatesUnique(series: seq<LineSeries>, other: seq<LineSeries>)
    requires AllDates(series) == AllDates(other)
    ensures SortedDates(series) == SortedDates(other)
    ensures |SortedDates(series)| == |CollectDates(series)|
  {
    StrictlySortedUnique(SortedDates(series), SortedDates(other));
    CollectDatesSpec(series);
    SortKeepsLength(CollectDates(series));
  }

  // ---- Building each row ----

  /** `line.data.find(point => point.date === date)`. */
  function FirstMatch(data: seq<LineSeriesDatum>, date: string): (r: Option<LineSeriesDatum>)
    ensures r.None? <==> forall j :: 0 <= j < |data| ==> data[j].date != date
    ensures r.Some? ==> r.value.date == date
    ensures r.Some? ==> exists i :: 0 <= i < |data| && data[i] == r.value && forall j :: 0 <= j < i ==> data[j].date != date
  {
    Find(data, (p: LineSeriesDatum) => p.date == date)
  }

  /** `match ? match.value : null`. */
  function ValueOf(m: Option<LineSeriesDatum>): Field {
    if m.Some? then ValueField(m.value.value) else NullField
  }

  /** `match ?? null`. */
  function MetaOf(m: Option<LineSeriesDatum>): Field {
    if m.Some? then MetaField(m.value) else NullField
  }

  /** The record for one date after the forEach over `series`: later writes to the same key win. */
  function RowFor(series: seq<LineSeries>, date: string): (row: Row)
    ensures DATE_KEY in row
    ensures forall i :: 0 <= i < |series| ==> series[i].name in row && series[i].name + META_SUFFIX in row
    decreases |series|
  {
    if |series| == 0 then map[DATE_KEY := DateField(date)]
    else
      var line := series[|series| - 1];
      var m := FirstMatch(line.data, date);
      var front := series[..|series| - 1];
      assert forall i :: 0 <= i < |front| ==> front[i] == series[i];
      RowFor(front, date)[line.name := ValueOf(m)][line.name + META_SUFFIX := MetaOf(m)]
  }

  /** No series name collides with "date", with another series' name, or with another series' meta key. */
  ghost predicate DistinctKeys(series: seq<LineSeries>) {
    && (forall i :: 0 <= i < |series| ==> series[i].name != DATE_KEY)
    && (forall i, j :: 0 <= i < j < |series| ==> series[i].name != series[j].name)
    && (forall i, j :: 0 <= i < |series| && 0 <= j < |series| ==> series[i].name != series[j].name + META_SUFFIX)
  }

  lemma SuffixCancels(a: string, b: string)
    requires a + META_SUFFIX == b + META_SUFFIX
    ensures a == b
  {
    assert |a| == |b|;
    assert forall k :: 0 <= k < |a| ==> a[k] == (a + META_SUFFIX)[k] && b[k] == (b + META_SUFFIX)[k];
  }

  /** The series names, and the names with the meta suffix. */
  function NameKeys(series: seq<LineSeries>): set<string> {
    set l | l in series :: l.name
  }

  function MetaKeys(series: seq<LineSeries>): set<string> {
    set l | l in series :: l.name + META_SUFFIX
  }

  /** A row has exactly the keys "date", each series name and each name with "__meta". */
  lemma {:induction false} RowKeys(series: seq<LineSeries>, date: string)
    ensures RowFor(series, date).Keys == {DATE_KEY} + NameKeys(series) + MetaKeys(series)
    decreases |series|
  {
    if |series| > 0 {
      var front := series[..|series| - 1];
      var last := series[|series| - 1];
      RowKeys(front, date);
      var prev := RowFor(front, date);
      var m := FirstMatch(last.data, date);
      assert RowFor(series, date) == prev[last.name := ValueOf(m)][last.name + META_SUFFIX := MetaOf(m)];
      KeysSnoc(series);
    }
  }

  /** The key sets of a non-empty list add its last line's two keys to those of the rest. */
  lemma KeysSnoc(series: seq<LineSeries>)
    requires |series| > 0
    ensures NameKeys(series) == NameKeys(series[..|series| - 1]) + {series[|series| - 1].name}
    ensures MetaKeys(series) == MetaKeys(series[..|series| - 1]) + {series[|series| - 1].name + META_SUFFIX}
  {
    assert series == series[..|series| - 1] + [series[|series| - 1]];
  }

  /** Unless some series is called "date", the row's "date" entry is its date. */
  lemma {:induction false} RowDate(series: seq<LineSeries>, date: string)
    requires forall i :: 0 <= i < |series| ==> series[i].name != DATE_KEY
    ensures RowFor(series, date)[DATE_KEY] == DateField(date)
    decreases |series|
  {
    if |series| > 0 {
      var front := series[..|series| - 1];
      assert forall i :: 0 <= i < |front| ==> front[i] == series[i];
      RowDate(front, date);
      var last := series[|series| - 1];
      assert |last.name + META_SUFFIX| != |DATE_KEY|;
    }
  }

  /** With distinct keys, each series' entry is the value of its first point on that date (or null),
      and its meta entry is that same point (or null). */
  lemma {:induction false} RowSeriesEntries(series: seq<LineSeries>, date: string, i: nat)
    requires DistinctKeys(series) && i < |series|
    ensures RowFor(series, date)[series[i].name] == ValueOf(FirstMatch(series[i].data, date))
    ensures RowFor(series, date)[series[i].name + META_SUFFIX] == MetaOf(FirstMatch(series[i].data, date))
    decreases |series|
  {
    var last := series[|series| - 1];
    if i < |series| - 1 {
      var front := series[..|series| - 1];
      assert forall k :: 0 <= k < |front| ==> front[k] == series[k];
      RowSeriesEntries(front, date, i);
      var name := series[i].name;
      assert name != last.name;
      assert name != last.name + META_SUFFIX;
      assert name + META_SUFFIX != last.name;
      if name + META_SUFFIX == last.name + META_SUFFIX {
        SuffixCancels(name, last.name);
      }
    } else {
      assert last.name != last.name + META_SUFFIX;
    }
  }

  /** The nested forEach that fills the date Set. */
  method CollectDatesInOrder(series: seq<LineSeries>) returns (dates: seq<string>)
    ensures dates == CollectDates(series)
    ensures Distinct(dates)
  {
    dates := [];
    var s := 0;
    while s < |series|
      invariant 0 <= s <= |series|
      invariant dates == CollectDates(series[..s])
    {
      dates := AddSeriesDates(dates, series[s].data);
      assert series[..s + 1][..s] == series[..s];
      s := s + 1;
    }
    assert series[..s] == series;
    CollectDatesSpec(series);
  }

  /** The inner forEach: `line.data.forEach(({ date }) => dates.add(date))`. */
  method AddSeriesDates(dates0: seq<string>, points: seq<LineSeriesDatum>) returns (dates: seq<string>)
    ensures dates == AddPoints(dates0, points)
  {
    dates := dates0;
    var p := 0;
    while p < |points|
      invariant 0 <= p <= |points|
      invariant dates == AddPoints(dates0, points[..p])
    {
      var d := points[p].date;
      if d !in dates {
        dates := dates + [d];
      }
      p := p + 1;
      assert points[..p][..p - 1] == points[..p - 1];
    }
    assert points[..p] == points;
  }

  /** One row: the record starts as `{ date }` and a forEach over the series writes each name and meta key. */
  method BuildRow(series: seq<LineSeries>, date: string) returns (entry: Row)
    ensures entry == RowFor(series, date)
  {
    entry := map[DATE_KEY := DateField(date)];
    var k := 0;
    while k < |series|
      invariant 0 <= k <= |series|
      invariant entry == RowFor(series[..k], date)
    {
      var line := series[k];
      var found := FirstMatch(line.data, date);
      entry := entry[line.name := ValueOf(found)];
      entry := entry[line.name + META_SUFFIX := MetaOf(found)];
      k := k + 1;
      assert series[..k][..k - 1] == series[..k - 1];
    }
    assert series[..k] == series;
  }

  /** `chartData`: the collected dates are sorted and each is mapped to its row. */
  method ChartData(series: seq<LineSeries>) returns (rows: seq<Row>)
    ensures |rows| == |SortedDates(series)|
    ensures forall i :: 0 <= i < |rows| ==> rows[i] == RowFor(series, SortedDates(series)[i])
  {
    var dates := CollectDatesInOrder(series);
    var sortedDates := Sort(dates);
    assert sortedDates == SortedDates(series);
    rows := BuildRows(series, sortedDates);
  }

  /** `sortedDates.map(date => ...)`: one row per date, in the same order. */
  method BuildRows(series: seq<LineSeries>, dates: seq<string>) returns (rows: seq<Row>)
    ensures |rows| == |dates|
    ensures forall i :: 0 <= i < |rows| ==> rows[i] == RowFor(series, dates[i])
  {
    rows := [];
    var r := 0;
    while r < |dates|
      invariant 0 <= r <= |dates|
      invariant |rows| == r
      invariant forall i :: 0 <= i < r ==> rows[i] == RowFor(series, dates[i])
    {
      var entry := BuildRow(series, dates[r]);
      rows := rows + [entry];
      r := r + 1;
    }
  }

  // ---- Colours and tooltip ----

  /** `line.color ?? COLOR_SEQUENCE[index % COLOR_SEQUENCE.length]`. */
  function StrokeColor(line: LineSeries, index: nat): string {
    line.color.GetOr(COLOR_SEQUENCE[index % |COLOR_SEQUENCE|])
  }

  /** A line's own colour always wins, even an empty one; uncoloured lines cycle through seven
      distinct colours, sharing one exactly when their positions agree modulo seven. */
  lemma StrokeColorRule(line: LineSeries, other: LineSeries, i: nat, j: nat)
    ensures line.color.Some? ==> StrokeColor(line, i) == line.color.value
    ensures line.color.None? && other.color.None? ==>
      (StrokeColor(line, i) == StrokeColor(other, j) <==> i % 7 == j % 7)
  {
    assert forall a, b :: 0 <= a < b < 7 ==> COLOR_SEQUENCE[a] != COLOR_SEQUENCE[b];
  }

  datatype TooltipValue = NumberValue(n: int) | TextValue(text: string)

  datatype TooltipEntry = TooltipEntry(dataKey: Option<string>, name: Option<string>, value: Option<TooltipValue>, color: Option<string>)

  /** An entry the tooltip lists: present, with a non-null value. */
  predicate IsShown(entry: Option<TooltipEntry>) {
    entry.Some? && entry.value.value.Some?
  }

  /** How many payload entries the tooltip lists. */
  function CountShown(payload: seq<Option<TooltipEntry>>): nat
    decreases |payload|
  {
    if |payload| == 0 then 0
    else (if IsShown(payload[0]) then 1 else 0) + CountShown(payload[1..])
  }

  /** `payload.filter(entry => entry && entry.value != null)`: absent entries and null values are dropped,
      every other entry is kept, once per occurrence. */
  function ShownEntries(payload: seq<Option<TooltipEntry>>): (r: seq<TooltipEntry>)
    ensures |r| == CountShown(payload)
    ensures forall k :: 0 <= k < |r| ==> r[k].value.Some? && Some(r[k]) in payload
    ensures forall k :: 0 <= k < |payload| && IsShown(payload[k]) ==> payload[k].value in r
    decreases |payload|
  {
    if |payload| == 0 then []
    else
      var rest := ShownEntries(payload[1..]);
      assert forall k :: 1 <= k < |payload| ==> payload[k] == payload[1..][k - 1];
      if IsShown(payload[0]) then [payload[0].value] + rest else rest
  }

  /** The shown entries, as payload elements. */
  function Lift(entries: seq<TooltipEntry>): seq<Option<TooltipEntry>> {
    seq(|entries|, k requires 0 <= k < |entries| => Some(entries[k]))
  }

  /** The shown entries keep the payload's order. */
  lemma {:induction false} ShownEntriesInOrder(payload: seq<Option<TooltipEntry>>)
    ensures IsSubsequence(Lift(ShownEntries(payload)), payload)
    decreases |payload|
  {
    if |payload| > 0 {
      var rest := ShownEntries(payload[1..]);
      ShownEntriesInOrder(payload[1..]);
      if IsShown(payload[0]) {
        var lifted := Lift([payload[0].value] + rest);
        assert lifted[0] == payload[0];
        assert lifted[1..] == Lift(rest);
      } else {
        SubsequenceOfTail(Lift(rest), payload);
      }
    }
  }

  /** `CustomTooltip`: nothing is rendered when inactive or without a non-empty payload; otherwise the
      shown entries. */
  function TooltipContent(active: bool, payload: Option<seq<Option<TooltipEntry>>>): (r: Option<seq<TooltipEntry>>)
    ensures r.None? <==> !active || payload.None? || |payload.value| == 0
    ensures r.Some? ==> r.value == ShownEntries(payload.value)
    ensures r.Some? ==> forall k :: 0 <= k < |r.value| ==> r.value[k].value.Some?
  {
    if !active || payload.None? || |payload.value| == 0 then None
    else Some(ShownEntries(payload.value))
  }
}
