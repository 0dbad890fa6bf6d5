/**
  The super admin's dashboard over the summary report: the CTR added to every row, the chart
  data that re-groups the rows by company or by category name, the overall totals and CTR,
  and the CSV export.
*/
module SuperDashboard {
  import opened Common
  import opened Grouping
  import opened Csv
  import Entities
  import Reports
  import ReportDashboard

  /** A row of `/api/reports/summary` as the dashboard receives it: names, not ids. */
  datatype SummaryRow = SummaryRow(company: string, category: string, impressions: nat, clicks: nat)

  /** A row of the dashboard's `data`: the summary row with its CTR in percent. */
  datatype DataRow = DataRow(company: string, category: string, impressions: nat, clicks: nat, ctr: real)

  /** `impressions > 0 ? clicks / impressions * 100 : 0`. */
  function RowCtr(r: SummaryRow): (c: real)
    ensures r.impressions == 0 ==> c == 0.0
    ensures r.impressions > 0 ==> c * r.impressions as real == r.clicks as real * 100.0
    ensures r.clicks <= r.impressions ==> 0.0 <= c <= 100.0
  {
    if r.impressions > 0 then r.clicks as real / r.impressions as real * 100.0 else 0.0
  }

  /** `res.data.map(row => ({ ...row, ctr }))`: every row kept, in order, with its CTR added. */
  function WithCtr(rows: seq<SummaryRow>): (data: seq<DataRow>)
    ensures |data| == |rows|
    ensures forall i :: 0 <= i < |rows| ==>
      && data[i].company == rows[i].company && data[i].category == rows[i].category
      && data[i].impressions == rows[i].impressions && data[i].clicks == rows[i].clicks
      && data[i].ctr == RowCtr(rows[i])
  {
    seq(|rows|, i requires 0 <= i < |rows| =>
      DataRow(rows[i].company, rows[i].category, rows[i].impressions, rows[i].clicks, RowCtr(rows[i])))
  }

  /** The dashboard after its effect: it asks for the summary once signed in and shows the rows with their CTR. */
  function SuperScreen(signedIn: bool, fetch: ReportDashboard.Fetch<SummaryRow>): (s: ReportDashboard.Screen<DataRow>)
    ensures !signedIn || fetch.Pending? ==> s == ReportDashboard.Spinner
    ensures signedIn && fetch.Succeeded? ==> s == ReportDashboard.Shown(WithCtr(fetch.rows))
    ensures signedIn && fetch.Failed? ==> s == ReportDashboard.Shown([])
  {
    match ReportDashboard.AfterFetch(signedIn, fetch)
    case Spinner => ReportDashboard.Spinner
    case Shown(rows) => ReportDashboard.Shown(WithCtr(rows))
  }

  /** The JSON row a summary entry becomes: its company and category names and its counters. */
  function FromEntry(e: Reports.SummaryEntry): (r: SummaryRow)
    ensures r.company == e.title.0 && r.category == e.title.1
    ensures r.impressions == e.impressions && r.clicks == e.clicks
  {
    SummaryRow(e.title.0, e.title.1, e.impressions, e.clicks)
  }

  function FromEntries(entries: seq<Reports.SummaryEntry>): (rows: seq<SummaryRow>)
    ensures |rows| == |entries|
    ensures forall i :: 0 <= i < |entries| ==> rows[i] == FromEntry(entries[i])
  {
    seq(|entries|, i requires 0 <= i < |entries| => FromEntry(entries[i]))
  }

  /**
    On what the summary endpoint returns, every row's CTR lies between 0 and 100, and the
    dashboard's totals are the number of impressions and of clicked impressions.
  */
  lemma ServerSummaryFigures(imps: seq<Entities.JoinedImpression>, entries: seq<Reports.SummaryEntry>)
    requires IsGrouping(imps, Reports.SummaryKey, Reports.SummaryTitle, Reports.WasClicked, entries)
    ensures var data := WithCtr(FromEntries(entries));
      && (forall i :: 0 <= i < |data| ==> 0.0 <= data[i].ctr <= 100.0)
      && TotalImpressions(data) == |imps|
      && TotalClicks(data) == ClickedCount(imps, Reports.WasClicked)
  {
    Reports.SummaryFacts(imps, entries);
    var data := WithCtr(FromEntries(entries));
    SumNatPointwise(data, entries, Impressions, EntryImpressions);
    SumNatPointwise(data, entries, Clicks, EntryClicks);
  }

  /** The chart's grouping choice. */
  datatype GroupBy = ByCompany | ByCategory

  function CompanyName(r: DataRow): string { r.company }
  function CategoryName(r: DataRow): string { r.category }

  function ChartKey(g: GroupBy): DataRow -> string {
    if g == ByCompany then CompanyName else CategoryName
  }

  function Impressions(r: DataRow): nat { r.impressions }
  function Clicks(r: DataRow): nat { r.clicks }

  /** One bar or slice: the company (or category) name and its summed counters. */
  datatype ChartEntry = ChartEntry(name: string, impressions: nat, clicks: nat)

  function ChartImpressions(e: ChartEntry): nat { e.impressions }
  function ChartClicks(e: ChartEntry): nat { e.clicks }

  /** The sum of `f` over the rows whose key is `k`. */
  function KeySum(rows: seq<DataRow>, key: DataRow -> string, f: DataRow -> nat, k: string): nat
    decreases |rows|
  {
    if rows == [] then 0
    else KeySum(rows[..|rows| - 1], key, f, k) + (if key(rows[|rows| - 1]) == k then f(rows[|rows| - 1]) else 0)
  }

  function KeySumOf(rows: seq<DataRow>, key: DataRow -> string, f: DataRow -> nat): string -> nat {
    (k: string) => KeySum(rows, key, f, k)
  }

  /** The entry the loop holds for name `k` once it has seen `rows`. */
  function EntryOf(rows: seq<DataRow>, key: DataRow -> string, k: string): ChartEntry {
    ChartEntry(k, KeySum(rows, key, Impressions, k), KeySum(rows, key, Clicks, k))
  }

  /** The `Map` after `rows`: insertion order is the first-seen order, each entry holds its sums. */
  ghost predicate MapHolds(rows: seq<DataRow>, key: DataRow -> string, order: seq<string>,
                           table: map<string, ChartEntry>) {
    && order == DistinctKeys(rows, key)
    && table.Keys == (set k | k in order)
    && forall k :: k in table ==> table[k] == EntryOf(rows, key, k)
  }

  lemma {:induction false} KeySumAbsent(rows: seq<DataRow>, key: DataRow -> string, f: DataRow -> nat, k: string)
    requires k !in DistinctKeys(rows, key)
    ensures KeySum(rows, key, f, k) == 0
    decreases |rows|
  {
    if rows != [] {
      assert rows[|rows| - 1] in rows;
      KeySumAbsent(rows[..|rows| - 1], key, f, k);
    }
  }

  /** One row added into the map: its name's entry, created empty if missing, gains the row's counters. */
  function AddInto(table: map<string, ChartEntry>, r: DataRow, key: DataRow -> string): map<string, ChartEntry> {
    var k := key(r);
    var existing := if k in table then table[k] else ChartEntry(k, 0, 0);
    table[k := existing.(impressions := existing.impressions + r.impressions, clicks := existing.clicks + r.clicks)]
  }

  /** After adding a row, its name's entry holds the sums over the extended rows. */
  lemma MapStepKey(rows: seq<DataRow>, r: DataRow, key: DataRow -> string, order: seq<string>,
                   table: map<string, ChartEntry>)
    requires MapHolds(rows, key, order, table)
    ensures AddInto(table, r, key)[key(r)] == EntryOf(rows + [r], key, key(r))
  {
    var rows' := rows + [r];
    assert rows'[..|rows'| - 1] == rows;
    if key(r) !in table {
      KeySumAbsent(rows, key, Impressions, key(r));
      KeySumAbsent(rows, key, Clicks, key(r));
    }
  }

  /** Adding a row leaves the sums of every other name as they were. */
  lemma MapStepOthers(rows: seq<DataRow>, r: DataRow, key: DataRow -> string, order: seq<string>,
                      table: map<string, ChartEntry>)
    requires MapHolds(rows, key, order, table)
    ensures forall k :: k in table && k != key(r) ==> table[k] == EntryOf(rows + [r], key, k)
  {
    var rows' := rows + [r];
    assert rows'[..|rows'| - 1] == rows;
  }

  lemma MapStep(rows: seq<DataRow>, r: DataRow, key: DataRow -> string, order: seq<string>,
                table: map<string, ChartEntry>)
    requires MapHolds(rows, key, order, table)
    ensures MapHolds(rows + [r], key, if key(r) in table then order else order + [key(r)], AddInto(table, r, key))
  {
    var rows' := rows + [r];
    assert rows'[..|rows'| - 1] == rows;
    var order' := if key(r) in table then order else order + [key(r)];
    var table' := AddInto(table, r, key);
    assert table'.Keys == table.Keys + {key(r)};
    assert (set k | k in order') == (set k | k in order) + {key(r)};
    MapStepKey(rows, r, key, order, table);
    MapStepOthers(rows, r, key, order, table);
    forall k | k in table'
      ensures table'[k] == EntryOf(rows', key, k)
    {
      if k != key(r) {
        assert table'[k] == table[k];
      }
    }
  }

  /** The shape `prepareChartData` returns: entry `i` sums the rows of the `i`-th distinct name. */
  ghost predicate IsChart(rows: seq<DataRow>, key: DataRow -> string, entries: seq<ChartEntry>) {
    && |entries| == |DistinctKeys(rows, key)|
    && forall i :: 0 <= i < |entries| ==> entries[i] == EntryOf(rows, key, DistinctKeys(rows, key)[i])
  }

  /** The map's entries listed in insertion order. */
  function InOrder(order: seq<string>, table: map<string, ChartEntry>): (entries: seq<ChartEntry>)
    requires forall i :: 0 <= i < |order| ==> order[i] in table
    ensures |entries| == |order|
    ensures forall i :: 0 <= i < |order| ==> entries[i] == table[order[i]]
  {
    seq(|order|, i requires 0 <= i < |order| => table[order[i]])
  }

  /** Once every row is in the map, listing the map in insertion order gives the chart. */
  lemma MapGivesChart(rows: seq<DataRow>, key: DataRow -> string, order: seq<string>,
                      table: map<string, ChartEntry>)
    requires MapHolds(rows, key, order, table)
    ensures forall i :: 0 <= i < |order| ==> order[i] in table
    ensures IsChart(rows, key, InOrder(order, table))
  {
    assert forall i :: 0 <= i < |order| ==> order[i] in order;
  }

  /**
    The loop body of `prepareChartData`: the row's name gets an entry if it has none yet (and
    joins the insertion order), and the row's impressions and clicks are added to that entry.
  */
  method AddRow(row: DataRow, key: DataRow -> string, order: seq<string>, table: map<string, ChartEntry>)
    returns (order': seq<string>, table': map<string, ChartEntry>)
    ensures order' == if key(row) in table then order else order + [key(row)]
    ensures table' == AddInto(table, row, key)
  {
    var name := key(row);
    var existing := if name in table then table[name] else ChartEntry(name, 0, 0);
    order' := if name in table then order else order + [name];
    existing := existing.(impressions := existing.impressions + row.impressions);
    existing := existing.(clicks := existing.clicks + row.clicks);
    table' := table[name := existing];
  }

  /**
    `prepareChartData`: walks `data` once, creating an entry the first time a name is seen and
    adding each row's impressions and clicks to it; the entries come out in insertion order.
  */
  method PrepareChartData(data: seq<DataRow>, groupBy: GroupBy) returns (entries: seq<ChartEntry>)
    ensures IsChart(data, ChartKey(groupBy), entries)
  {
    var key := ChartKey(groupBy);
    var table: map<string, ChartEntry> := map[];
    var order: seq<string> := [];
    for n := 0 to |data|
      invariant MapHolds(data[..n], key, order, table)
    {
      assert data[..n + 1] == data[..n] + [data[n]];
      MapStep(data[..n], data[n], key, order, table);
      order, table := AddRow(data[n], key, order, table);
    }
    assert data[..|data|] == data;
    MapGivesChart(data, key, order, table);
    entries := InOrder(order, table);
  }

  /** Conservation per counter: the per-name sums over the distinct names add up to the whole sum. */
  lemma {:induction false} KeySumsTotal(rows: seq<DataRow>, key: DataRow -> string, f: DataRow -> nat)
    ensures SumNat(DistinctKeys(rows, key), KeySumOf(rows, key, f)) == SumNat(rows, f)
    decreases |rows|
  {
    if rows != [] {
      var init := rows[..|rows| - 1];
      var r := rows[|rows| - 1];
      var k0 := key(r);
      var ks0 := DistinctKeys(init, key);
      KeySumsTotal(init, key, f);
      DistinctKeysUnique(init, key);
      SumNatBump(ks0, KeySumOf(init, key, f), KeySumOf(rows, key, f), k0, f(r));
      if k0 !in ks0 {
        var ks := ks0 + [k0];
        assert ks[..|ks| - 1] == ks0;
        KeySumAbsent(init, key, f, k0);
      }
    }
  }

  /** `totalImpressions` and `totalClicks`: the sums over all rows. */
  function TotalImpressions(data: seq<DataRow>): nat { SumNat(data, Impressions) }
  function TotalClicks(data: seq<DataRow>): nat { SumNat(data, Clicks) }

  /** The chart has one entry per distinct name and no name twice. */
  lemma ChartNames(data: seq<DataRow>, groupBy: GroupBy, entries: seq<ChartEntry>)
    requires IsChart(data, ChartKey(groupBy), entries)
    ensures forall i, j :: 0 <= i < j < |entries| ==> entries[i].name != entries[j].name
    ensures forall r :: r in data ==> exists i :: 0 <= i < |entries| && entries[i].name == ChartKey(groupBy)(r)
    ensures forall i :: 0 <= i < |entries| ==> exists r :: r in data && ChartKey(groupBy)(r) == entries[i].name
  {
    var key := ChartKey(groupBy);
    var ks := DistinctKeys(data, key);
    DistinctKeysUnique(data, key);
    forall r | r in data
      ensures exists i :: 0 <= i < |entries| && entries[i].name == key(r)
    {
      assert key(r) in ks;
      var i :| 0 <= i < |ks| && ks[i] == key(r);
      assert entries[i].name == key(r);
    }
    forall i | 0 <= i < |entries|
      ensures exists r :: r in data && key(r) == entries[i].name
    {
      assert ks[i] in ks;
    }
  }

  /** Conservation: the chart's entries add up to the dashboard's total impressions and total clicks. */
  lemma ChartTotals(data: seq<DataRow>, groupBy: GroupBy, entries: seq<ChartEntry>)
    requires IsChart(data, ChartKey(groupBy), entries)
    ensures SumNat(entries, ChartImpressions) == TotalImpressions(data)
    ensures SumNat(entries, ChartClicks) == TotalClicks(data)
  {
    var key := ChartKey(groupBy);
    var ks := DistinctKeys(data, key);
    KeySumsTotal(data, key, Impressions);
    KeySumsTotal(data, key, Clicks);
    SumNatPointwise(entries, ks, ChartImpressions, KeySumOf(data, key, Impressions));
    SumNatPointwise(entries, ks, ChartClicks, KeySumOf(data, key, Clicks));
  }

  /** `overallCTR`: `'0'` without impressions, else the percentage of clicks. */
  function OverallCtr(data: seq<DataRow>): (c: CtrFigure)
    ensures c == ZeroText <==> TotalImpressions(data) == 0
    ensures c.Percent? ==> c.value * TotalImpressions(data) as real == TotalClicks(data) as real * 100.0
  {
    PercentOrZero(TotalClicks(data), TotalImpressions(data))
  }

  /** The overall CTR is at most 100 when no row has more clicks than impressions. */
  lemma OverallCtrBounded(data: seq<DataRow>)
    requires forall i :: 0 <= i < |data| ==> data[i].clicks <= data[i].impressions
    ensures OverallCtr(data).Percent? ==> 0.0 <= OverallCtr(data).value <= 100.0
  {
    SumNatMonotone(data, Clicks, Impressions);
  }

  const SummaryHeader: seq<string> := ["company", "category", "impressions", "clicks"]

  function SummaryHeaderLine(): string {
    Join(SummaryHeader, ',')
  }

  function SummaryFields(r: DataRow): seq<string> {
    [r.company, r.category, NatToString(r.impressions), NatToString(r.clicks)]
  }

  function SummaryLine(r: DataRow): string {
    Join(SummaryFields(r), ',')
  }

  /** One line per row of `data`, in order. */
  function SummaryRowLines(data: seq<DataRow>): (lines: seq<string>)
    ensures |lines| == |data|
    ensures forall i :: 0 <= i < |data| ==> lines[i] == SummaryLine(data[i])
  {
    seq(|data|, i requires 0 <= i < |data| => SummaryLine(data[i]))
  }

  /** `exportCSV`: the header and the row lines joined by line breaks. */
  function SummaryCsv(data: seq<DataRow>): string {
    Join([SummaryHeaderLine()] + SummaryRowLines(data), '\n')
  }

  lemma SummaryHeaderSafe()
    ensures '\n' !in SummaryHeaderLine()
  {
    JoinAvoids(SummaryHeader, ',', '\n');
  }

  lemma SummaryLineSafe(r: DataRow)
    requires '\n' !in r.company && '\n' !in r.category
    ensures '\n' !in SummaryLine(r)
  {
    DigitsAreSafe(r.impressions);
    DigitsAreSafe(r.clicks);
    JoinAvoids(SummaryFields(r), ',', '\n');
  }

  /** Read back line by line, the export is the header and one line per row, in order. */
  lemma SummaryRowLinesSafe(data: seq<DataRow>)
    requires forall i :: 0 <= i < |data| ==> '\n' !in data[i].company && '\n' !in data[i].category
    ensures forall i :: 0 <= i < |SummaryRowLines(data)| ==> '\n' !in SummaryRowLines(data)[i]
  {
    forall i | 0 <= i < |data|
      ensures '\n' !in SummaryLine(data[i])
    {
      SummaryLineSafe(data[i]);
    }
  }

  lemma SummaryCsvLines(data: seq<DataRow>)
    requires forall i :: 0 <= i < |data| ==> '\n' !in data[i].company && '\n' !in data[i].category
    ensures Split(SummaryCsv(data), '\n') == [SummaryHeaderLine()] + SummaryRowLines(data)
  {
    SummaryRowLinesSafe(data);
    SummaryHeaderSafe();
    SplitJoinHeader(SummaryHeaderLine(), SummaryRowLines(data), '\n');
  }

  /** When neither name holds a comma, a row's line splits into its four fields and the counters read back. */
  lemma SummaryLineFields(r: DataRow)
    requires ',' !in r.company && ',' !in r.category
    ensures Split(SummaryLine(r), ',') == SummaryFields(r)
    ensures ParseNat(SummaryFields(r)[2]) == r.impressions && ParseNat(SummaryFields(r)[3]) == r.clicks
  {
    DigitsAreSafe(r.impressions);
    DigitsAreSafe(r.clicks);
    SplitJoin(SummaryFields(r), ',');
    ParseNatToString(r.impressions);
    ParseNatToString(r.clicks);
  }
}
