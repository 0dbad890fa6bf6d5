/**
  What the advertiser and staff dashboards do with the rows of `GET /api/reports`: the row as the
  browser receives it, when the dashboard leaves its spinner, the summary figures (total
  impressions, views, clicks and the CTR over views), and the eight-column CSV export in which
  the question is written as a JSON string literal.
*/
module ReportDashboard {
  import opened Common
  import opened Csv
  import Entities
  import Reports

  /** A report row after the JSON round trip: the timestamp arrives as its ISO text. */
  datatype ClientRow = ClientRow(impressionId: string, adId: string, company: string, category: string,
                                 question: string, timestamp: string, views: nat, clicks: nat)

  /** The row the browser holds for a row the server sent; `iso` is `Date.prototype.toJSON`. */
  function Received(r: Reports.ReportRow, iso: Time -> string): (c: ClientRow)
    ensures c.timestamp == iso(r.timestamp)
    ensures c.impressionId == r.impressionId && c.adId == r.adId && c.company == r.company
    ensures c.category == r.category && c.question == r.question && c.views == r.views && c.clicks == r.clicks
  {
    ClientRow(r.impressionId, r.adId, r.company, r.category, r.question, iso(r.timestamp), r.views, r.clicks)
  }

  function ReceivedAll(rows: seq<Reports.ReportRow>, iso: Time -> string): (data: seq<ClientRow>)
    ensures |data| == |rows|
    ensures forall i :: 0 <= i < |rows| ==> data[i] == Received(rows[i], iso)
  {
    seq(|rows|, i requires 0 <= i < |rows| => Received(rows[i], iso))
  }

  /** How a dashboard's request for its rows ended, if it has. */
  datatype Fetch<R> = Pending | Succeeded(rows: seq<R>) | Failed

  /** A dashboard shows its spinner until `loading` turns false, then it shows `data`. */
  datatype Screen<R> = Spinner | Shown(data: seq<R>)

  /**
    The dashboard after its effect: with no request sent (`requested` false) or none settled
    yet it keeps spinning; a success shows the rows and a failure the initial empty list.
  */
  function AfterFetch<R>(requested: bool, fetch: Fetch<R>): (s: Screen<R>)
    ensures !requested ==> s == Spinner
    ensures requested && fetch.Pending? ==> s == Spinner
    ensures requested && fetch.Succeeded? ==> s == Shown(fetch.rows)
    ensures requested && fetch.Failed? ==> s == Shown([])
  {
    if !requested then Spinner
    else match fetch
      case Pending => Spinner
      case Succeeded(rows) => Shown(rows)
      case Failed => Shown([])
  }

  /** The advertiser dashboard asks for its company's rows only when the session has a company. */
  function AdvertiserScreen(companyId: Option<string>, fetch: Fetch<ClientRow>): (s: Screen<ClientRow>)
    ensures !Truthy(companyId) ==> s == Spinner
    ensures Truthy(companyId) ==> s == AfterFetch(true, fetch)
  {
    AfterFetch(Truthy(companyId), fetch)
  }

  /** The staff dashboard asks for all rows as soon as there is a session. */
  function StaffScreen(signedIn: bool, fetch: Fetch<ClientRow>): (s: Screen<ClientRow>)
    ensures !signedIn ==> s == Spinner
    ensures signedIn ==> s == AfterFetch(true, fetch)
  {
    AfterFetch(signedIn, fetch)
  }

  function Views(r: ClientRow): nat { r.views }
  function Clicks(r: ClientRow): nat { r.clicks }

  /** The summary cards: impressions are rows, views and clicks are the rows' sums. */
  datatype Stats = Stats(impressions: nat, views: nat, clicks: nat, ctr: CtrFigure)

  /** The figures over `data`; the CTR is clicks over views, the literal '0' without views. */
  function StatsOf(data: seq<ClientRow>): (s: Stats)
    ensures s.impressions == |data|
    ensures s.views == SumNat(data, Views) && s.clicks == SumNat(data, Clicks)
    ensures s.ctr == ZeroText <==> s.views == 0
    ensures s.ctr.Percent? ==> s.ctr.value * s.views as real == s.clicks as real * 100.0
  {
    var views := SumNat(data, Views);
    var clicks := SumNat(data, Clicks);
    Stats(|data|, views, clicks, PercentOrZero(clicks, views))
  }

  /** When every row is one view, the views add up to the number of rows. */
  lemma {:induction false} ViewsCountRows(data: seq<ClientRow>)
    requires forall i :: 0 <= i < |data| ==> data[i].views == 1
    ensures SumNat(data, Views) == |data|
    decreases |data|
  {
    if data != [] {
      ViewsCountRows(data[..|data| - 1]);
    }
  }

  /**
    For rows the report endpoint built, views equal impressions, so the CTR over views is
    the CTR over impressions; and with at most one click per row it is at most 100.
  */
  lemma ServerRowsStats(js: seq<Entities.JoinedImpression>, iso: Time -> string)
    ensures var s := StatsOf(ReceivedAll(seq(|js|, i requires 0 <= i < |js| => Reports.ToRow(js[i])), iso));
      && s.views == s.impressions == |js|
      && s.clicks <= s.views
      && (s.ctr.Percent? ==> 0.0 <= s.ctr.value <= 100.0)
  {
    var rows := seq(|js|, i requires 0 <= i < |js| => Reports.ToRow(js[i]));
    var data := ReceivedAll(rows, iso);
    ViewsCountRows(data);
    SumNatMonotone(data, Clicks, Views);
  }

  /** A failed request leaves the dashboard on zero figures and the '0' CTR. */
  lemma FailureShowsZeros(requested: bool)
    requires requested
    ensures AfterFetch<ClientRow>(requested, Failed) == Shown([])
    ensures StatsOf([]) == Stats(0, 0, 0, ZeroText)
  {
  }

  const ReportHeader: seq<string> := ["impressionId", "adId", "company", "category", "question", "timestamp", "views", "clicks"]

  /** The export's first line. */
  function HeaderLine(): string {
    Join(ReportHeader, ',')
  }

  /** One row of the export; the question is written with `JSON.stringify`. */
  function ReportFields(r: ClientRow): seq<string> {
    [r.impressionId, r.adId, r.company, r.category, JsonQuote(r.question), r.timestamp,
     NatToString(r.views), NatToString(r.clicks)]
  }

  /** One row's line. */
  function ReportLine(r: ClientRow): string {
    Join(ReportFields(r), ',')
  }

  /** The row lines, one per row, in order. */
  function RowLines(data: seq<ClientRow>): (lines: seq<string>)
    ensures |lines| == |data|
    ensures forall i :: 0 <= i < |data| ==> lines[i] == ReportLine(data[i])
  {
    seq(|data|, i requires 0 <= i < |data| => ReportLine(data[i]))
  }

  /** `exportCSV`: the header and the row lines, joined by line breaks. */
  function ReportCsv(data: seq<ClientRow>): string {
    Join([HeaderLine()] + RowLines(data), '\n')
  }

  /** The fields other than the question hold no line break. */
  predicate SingleLine(r: ClientRow) {
    && '\n' !in r.impressionId && '\n' !in r.adId && '\n' !in r.company && '\n' !in r.category
    && '\n' !in r.timestamp
  }

  /** No field holds a comma, the question included. */
  predicate CommaFree(r: ClientRow) {
    && ',' !in r.impressionId && ',' !in r.adId && ',' !in r.company && ',' !in r.category
    && ',' !in r.timestamp && ',' !in r.question
  }

  lemma HeaderLineSafe()
    ensures '\n' !in HeaderLine()
  {
    JoinAvoids(ReportHeader, ',', '\n');
  }

  /** A row's line holds no line break when only its question might: the quoting escapes them. */
  lemma LineSingle(r: ClientRow)
    requires SingleLine(r)
    ensures '\n' !in ReportLine(r)
  {
    DigitsAreSafe(r.views);
    DigitsAreSafe(r.clicks);
    JoinAvoids(ReportFields(r), ',', '\n');
  }

  lemma RowLinesSafe(data: seq<ClientRow>)
    requires forall i :: 0 <= i < |data| ==> SingleLine(data[i])
    ensures forall i :: 0 <= i < |RowLines(data)| ==> '\n' !in RowLines(data)[i]
  {
    forall i | 0 <= i < |data|
      ensures '\n' !in ReportLine(data[i])
    {
      LineSingle(data[i]);
    }
  }

  /** Read back line by line, the export is the header and one line per row, in order. */
  lemma ReportCsvLines(data: seq<ClientRow>)
    requires forall i :: 0 <= i < |data| ==> SingleLine(data[i])
    ensures Split(ReportCsv(data), '\n') == [HeaderLine()] + RowLines(data)
  {
    RowLinesSafe(data);
    HeaderLineSafe();
    SplitJoinHeader(HeaderLine(), RowLines(data), '\n');
  }

  /** Where no field holds a comma, a row's line splits into its eight fields and the question reads back. */
  lemma ReportLineFields(r: ClientRow)
    requires CommaFree(r)
    ensures Split(ReportLine(r), ',') == ReportFields(r)
    ensures |ReportFields(r)| == |ReportHeader|
    ensures JsonUnquote(ReportFields(r)[4]) == r.question
  {
    DigitsAreSafe(r.views);
    DigitsAreSafe(r.clicks);
    EscapeNoComma(r.question);
    SplitJoin(ReportFields(r), ',');
    JsonRoundTrip(r.question);
  }

  /** Escaping adds no comma. */
  lemma {:induction false} EscapeNoComma(s: string)
    requires ',' !in s
    ensures ',' !in Escape(s)
    decreases |s|
  {
    if s != [] {
      EscapeCharNoComma(s[0]);
      EscapeNoComma(s[1..]);
    }
  }

  lemma EscapeCharNoComma(c: char)
    requires c != ','
    ensures ',' !in EscapeChar(c)
  {
  }
}
