/**
  The three report endpoints: `GET /api/reports/summary` (counts per company and
  category, super only), `GET /api/reports/daily` (counts per UTC day for one
  company, sorted by day) and `GET /api/reports` (one row per impression matching
  a role-dependent filter). The session is a parameter (`None` when signed out);
  the impression query's join is the `JoinedImpression` record.
*/
module Reports {
  import opened Common
  import opened Entities
  import opened Grouping

  function WasClicked(j: JoinedImpression): bool { j.imp.clicked }

  /** The roles the daily and row reports admit. */
  predicate ReportRole(r: Role) {
    r == Advertiser || r == Staff || r == Super
  }

  // ---------------------------------------------------------------- summary

  /** The summary's grouping key `${company.id}|${category.id}`, as the pair it encodes. */
  function SummaryKey(j: JoinedImpression): (string, string) { (j.companyId, j.categoryId) }

  /** The names an entry takes from the first impression of its group. */
  function SummaryTitle(j: JoinedImpression): (string, string) { (j.companyName, j.categoryName) }

  type SummaryEntry = Tally<(string, string), (string, string)>

  /** `GET /api/reports/summary`: 401 signed out, 403 for any role but super, else the grouping. */
  method Summary(session: Option<User>, imps: seq<JoinedImpression>) returns (r: Response<seq<SummaryEntry>>)
    ensures session.None? ==> r == Fail(401, "Unauthorized")
    ensures session.Some? && session.value.role != Super ==> r == Fail(403, "Forbidden")
    ensures session.Some? && session.value.role == Super ==>
      r.Ok? && IsGrouping(imps, SummaryKey, SummaryTitle, WasClicked, r.body)
  {
    if session.None? {
      return Fail(401, "Unauthorized");
    }
    if session.value.role != Super {
      return Fail(403, "Forbidden");
    }
    var entries := GroupCount(imps, SummaryKey, SummaryTitle, WasClicked);
    return Ok(entries);
  }

  /**
    The summary has one entry per (company id, category id) pair present and no other; entries
    add up to the number of impressions and of clicked impressions; no entry has more clicks than
    impressions.
  */
  lemma SummaryFacts(imps: seq<JoinedImpression>, entries: seq<SummaryEntry>)
    requires IsGrouping(imps, SummaryKey, SummaryTitle, WasClicked, entries)
    ensures forall i, j :: 0 <= i < j < |entries| ==> entries[i].key != entries[j].key
    ensures forall m :: m in imps ==> exists i :: 0 <= i < |entries| && entries[i].key == (m.companyId, m.categoryId)
    ensures forall i :: 0 <= i < |entries| ==> exists m :: m in imps && entries[i].key == (m.companyId, m.categoryId)
    ensures SumNat(entries, EntryImpressions) == |imps|
    ensures SumNat(entries, EntryClicks) == ClickedCount(imps, WasClicked)
    ensures forall i :: 0 <= i < |entries| ==> entries[i].clicks <= entries[i].impressions
  {
    GroupingKeys(imps, SummaryKey, SummaryTitle, WasClicked, entries);
    GroupingBounded(imps, SummaryKey, SummaryTitle, WasClicked, entries);
    GroupingConserves(imps, SummaryKey, SummaryTitle, WasClicked, entries);
  }

  // ---------------------------------------------------------------- daily

  /** The UTC calendar day of a timestamp, the `YYYY-MM-DD` of `toISOString()`, as a day number. */
  function DayOf(t: Time): int {
    t / DayMs
  }

  function ImpressionDay(j: JoinedImpression): int { DayOf(j.imp.timestamp) }

  function OfCompany(companyId: string): JoinedImpression -> bool {
    (j: JoinedImpression) => j.companyId == companyId
  }

  type DailyEntry = Tally<int, int>

  /** Ascending by day. */
  predicate SortedByDay(s: seq<DailyEntry>) {
    forall i, j :: 0 <= i < j < |s| ==> s[i].key <= s[j].key
  }

  function InsertByDay(e: DailyEntry, s: seq<DailyEntry>): seq<DailyEntry> {
    if s == [] then [e]
    else if e.key < s[0].key then [e] + s
    else [s[0]] + InsertByDay(e, s[1..])
  }

  lemma {:induction false} InsertByDayKeeps(e: DailyEntry, s: seq<DailyEntry>)
    ensures multiset(InsertByDay(e, s)) == multiset(s) + multiset{e}
    decreases |s|
  {
    if s != [] && e.key >= s[0].key {
      InsertByDayKeeps(e, s[1..]);
      assert s == [s[0]] + s[1..];
    }
  }

  /** Inserting an entry not below `lo` into entries not below `lo` gives entries not below `lo`. */
  lemma {:induction false} InsertByDayAbove(e: DailyEntry, s: seq<DailyEntry>, lo: int)
    requires lo <= e.key
    requires forall i :: 0 <= i < |s| ==> lo <= s[i].key
    ensures forall i :: 0 <= i < |InsertByDay(e, s)| ==> lo <= InsertByDay(e, s)[i].key
    decreases |s|
  {
    if s != [] && e.key >= s[0].key {
      InsertByDayAbove(e, s[1..], lo);
    }
  }

  lemma {:induction false} InsertByDaySorted(e: DailyEntry, s: seq<DailyEntry>)
    requires SortedByDay(s)
    ensures SortedByDay(InsertByDay(e, s))
    decreases |s|
  {
    if s != [] && e.key >= s[0].key {
      var rest := InsertByDay(e, s[1..]);
      InsertByDaySorted(e, s[1..]);
      InsertByDayAbove(e, s[1..], s[0].key);
      var r := [s[0]] + rest;
      forall i, j | 0 <= i < j < |r|
        ensures r[i].key <= r[j].key
      {
        assert r[j] == rest[j - 1];
        if i > 0 {
          assert r[i] == rest[i - 1];
        }
      }
    }
  }

  /** `sort` by date: the same entries, ascending by day. */
  function SortByDay(s: seq<DailyEntry>): (r: seq<DailyEntry>)
    ensures SortedByDay(r)
    ensures multiset(r) == multiset(s)
  {
    if s == [] then []
    else
      var sorted := SortByDay(s[..|s| - 1]);
      InsertByDaySorted(s[|s| - 1], sorted);
      InsertByDayKeeps(s[|s| - 1], sorted);
      assert s == s[..|s| - 1] + [s[|s| - 1]];
      InsertByDay(s[|s| - 1], sorted)
  }

  /** The company the daily report is for: the session's for an advertiser, the query's for others. */
  function DailyCompany(user: User, companyParam: Option<string>): Option<string> {
    if user.role == Advertiser then user.companyId else companyParam
  }

  /**
    `GET /api/reports/daily`: 401 signed out; 403 for a role outside advertiser, staff and super;
    400 when there is no company to report on; else that company's impressions grouped by day,
    sorted by day, one entry per day.
  */
  method Daily(session: Option<User>, companyParam: Option<string>, imps: seq<JoinedImpression>)
    returns (r: Response<seq<DailyEntry>>)
    ensures session.None? ==> r == Fail(401, "Unauthorized")
    ensures session.Some? && !ReportRole(session.value.role) ==> r == Fail(403, "Forbidden")
    ensures session.Some? && ReportRole(session.value.role) && !Truthy(DailyCompany(session.value, companyParam)) ==>
      r == Fail(400, "Company ID is required")
    ensures session.Some? && ReportRole(session.value.role) && Truthy(DailyCompany(session.value, companyParam)) ==>
      && r.Ok?
      && var xs := Filter(imps, OfCompany(DailyCompany(session.value, companyParam).value));
      && (forall i, j :: 0 <= i < j < |r.body| ==> r.body[i].key < r.body[j].key)
      && (forall m :: m in xs ==> exists i :: 0 <= i < |r.body| && r.body[i].key == DayOf(m.imp.timestamp))
      && (forall i :: 0 <= i < |r.body| ==> r.body[i].clicks <= r.body[i].impressions)
      && SumNat(r.body, EntryImpressions) == |xs|
      && exists groups :: IsGrouping(xs, ImpressionDay, ImpressionDay, WasClicked, groups)
                       && multiset(r.body) == multiset(groups)
  {
    if session.None? {
      return Fail(401, "Unauthorized");
    }
    var user := session.value;
    if !ReportRole(user.role) {
      return Fail(403, "Forbidden");
    }
    var finalCompanyId := if user.role == Advertiser then user.companyId else companyParam;
    if !Truthy(finalCompanyId) {
      return Fail(400, "Company ID is required");
    }
    var impressions := Filter(imps, OfCompany(finalCompanyId.value));
    var dailyData := GroupCount(impressions, ImpressionDay, ImpressionDay, WasClicked);
    GroupingKeys(impressions, ImpressionDay, ImpressionDay, WasClicked, dailyData);
    GroupingBounded(impressions, ImpressionDay, ImpressionDay, WasClicked, dailyData);
    GroupingConserves(impressions, ImpressionDay, ImpressionDay, WasClicked, dailyData);
    var result := SortByDay(dailyData);
    DailyFacts(impressions, dailyData, result);
    r := Ok(result);
  }

  /** The advertiser's daily report ignores the query parameter: it is always the session's company. */
  lemma DailyAdvertiserUsesSession(user: User, p1: Option<string>, p2: Option<string>)
    requires user.role == Advertiser
    ensures DailyCompany(user, p1) == DailyCompany(user, p2) == user.companyId
  {
  }

  /**
    The daily report: sorting groups with distinct days gives strictly ascending days, so one entry
    per day; every impression has its day's entry; each entry has clicks ≤ impressions; the
    entries add up to the impressions.
  */
  lemma DailyFacts(xs: seq<JoinedImpression>, groups: seq<DailyEntry>, out: seq<DailyEntry>)
    requires forall i, j :: 0 <= i < j < |groups| ==> groups[i].key != groups[j].key
    requires forall m :: m in xs ==> exists i :: 0 <= i < |groups| && groups[i].key == ImpressionDay(m)
    requires forall i :: 0 <= i < |groups| ==> groups[i].clicks <= groups[i].impressions
    requires SumNat(groups, EntryImpressions) == |xs|
    requires SortedByDay(out) && multiset(out) == multiset(groups)
    ensures forall i, j :: 0 <= i < j < |out| ==> out[i].key < out[j].key
    ensures forall m :: m in xs ==> exists i :: 0 <= i < |out| && out[i].key == DayOf(m.imp.timestamp)
    ensures forall i :: 0 <= i < |out| ==> out[i].clicks <= out[i].impressions
    ensures SumNat(out, EntryImpressions) == |xs|
  {
    StrictlyAscending(out, groups);
    SameEntries(out, groups);
    SumNatPermutation(out, groups, EntryImpressions);
    forall m | m in xs
      ensures exists i :: 0 <= i < |out| && out[i].key == DayOf(m.imp.timestamp)
    {
      var g :| 0 <= g < |groups| && groups[g].key == ImpressionDay(m);
      assert groups[g] in out;
    }
    forall i | 0 <= i < |out|
      ensures out[i].clicks <= out[i].impressions
    {
      assert out[i] in groups;
    }
  }

  /** A permutation has the same elements. */
  lemma SameEntries(out: seq<DailyEntry>, groups: seq<DailyEntry>)
    requires multiset(out) == multiset(groups)
    ensures forall e :: e in out <==> e in groups
  {
    forall e
      ensures e in out <==> e in groups
    {
      assert e in out <==> e in multiset(out);
      assert e in groups <==> e in multiset(groups);
    }
  }

  /** Sorting entries with distinct keys orders them strictly. */
  lemma StrictlyAscending(out: seq<DailyEntry>, groups: seq<DailyEntry>)
    requires multiset(out) == multiset(groups)
    requires forall a, b :: 0 <= a < b < |groups| ==> groups[a].key != groups[b].key
    requires SortedByDay(out)
    ensures forall i, j :: 0 <= i < j < |out| ==> out[i].key < out[j].key
  {
    forall i, j | 0 <= i < j < |out|
      ensures out[i].key < out[j].key
    {
      OrderedDistinct(out, groups, i, j);
    }
  }

  lemma OrderedDistinct(out: seq<DailyEntry>, groups: seq<DailyEntry>, i: int, j: int)
    requires multiset(out) == multiset(groups)
    requires forall a, b :: 0 <= a < b < |groups| ==> groups[a].key != groups[b].key
    requires SortedByDay(out)
    requires 0 <= i < j < |out|
    ensures out[i].key < out[j].key
  {
    if out[i].key == out[j].key {
      assert out[i] in multiset(groups) && out[j] in multiset(groups);
      var a :| 0 <= a < |groups| && groups[a] == out[i];
      var b :| 0 <= b < |groups| && groups[b] == out[j];
      if a == b {
        MultiplicityTwo(out, i, j);
        OnlyOnce(groups, a);
      }
    }
  }

  lemma {:induction false} MultiplicityTwo<X>(s: seq<X>, i: int, j: int)
    requires 0 <= i < j < |s| && s[i] == s[j]
    ensures multiset(s)[s[i]] >= 2
  {
    var x := s[i];
    assert s == s[..i] + [s[i]] + s[i + 1..j] + [s[j]] + s[j + 1..];
    assert multiset(s) == multiset(s[..i]) + multiset{x} + multiset(s[i + 1..j]) + multiset{x} + multiset(s[j + 1..]);
  }

  /** An entry whose key no other entry shares occurs once. */
  lemma {:induction false} OnlyOnce(groups: seq<DailyEntry>, a: int)
    requires 0 <= a < |groups|
    requires forall p, q :: 0 <= p < q < |groups| ==> groups[p].key != groups[q].key
    ensures multiset(groups)[groups[a]] == 1
  {
    var x := groups[a];
    assert groups == groups[..a] + [x] + groups[a + 1..];
    assert x !in groups[..a] by {
      forall p | 0 <= p < a ensures groups[..a][p] != x { assert groups[p].key != groups[a].key; }
    }
    assert x !in groups[a + 1..] by {
      forall p | a + 1 <= p < |groups| ensures groups[p] != x {
        assert groups[a].key != groups[p].key;
      }
    }
    assert multiset(groups) == multiset(groups[..a]) + multiset{x} + multiset(groups[a + 1..]);
  }

  lemma RemoveAtMultiset<X>(ys: seq<X>, k: int)
    requires 0 <= k < |ys|
    ensures multiset(ys[..k] + ys[k + 1..]) == multiset(ys) - multiset{ys[k]}
  {
    assert ys == ys[..k] + [ys[k]] + ys[k + 1..];
  }

  lemma SumNatRemoveAt<X>(ys: seq<X>, k: int, f: X -> nat)
    requires 0 <= k < |ys|
    ensures SumNat(ys, f) == SumNat(ys[..k] + ys[k + 1..], f) + f(ys[k])
  {
    var a, y, b := ys[..k], ys[k], ys[k + 1..];
    assert ys == (a + [y]) + b;
    SumNatAppend(a + [y], b, f);
    SumNatAppend(a, b, f);
    assert (a + [y])[..|a + [y]| - 1] == a;
  }

  /** Reordering the terms does not change a sum. */
  lemma {:induction false} SumNatPermutation<X>(xs: seq<X>, ys: seq<X>, f: X -> nat)
    requires multiset(xs) == multiset(ys)
    ensures SumNat(xs, f) == SumNat(ys, f)
    decreases |xs|
  {
    if xs != [] {
      var init := xs[..|xs| - 1];
      var x := xs[|xs| - 1];
      assert xs == init + [x];
      assert x in multiset(ys);
      var k :| 0 <= k < |ys| && ys[k] == x;
      var rest := ys[..k] + ys[k + 1..];
      RemoveAtMultiset(ys, k);
      assert multiset(init) == multiset(xs) - multiset{x};
      SumNatPermutation(init, rest, f);
      SumNatRemoveAt(ys, k, f);
    }
  }

  // ---------------------------------------------------------------- rows

  /** The `where` object the row report builds: a company filter and inclusive timestamp bounds. */
  datatype Where = Where(companyId: Option<string>, gte: Option<Time>, lte: Option<Time>)

  /**
    The successive assignments that build `where`. An advertiser with a company is restricted to
    it; the `companyId` parameter is used only for other roles, whenever it is present; a truthy
    `from` or `to` sets the bound, read by `readDate` (`new Date(...)`).
  */
  method BuildWhere(user: User, companyFilter: Option<string>, from: Option<string>, to: Option<string>,
                    readDate: string -> Time) returns (w: Where)
    ensures user.role == Advertiser ==> w.companyId == (if Truthy(user.companyId) then user.companyId else None)
    ensures user.role != Advertiser ==> w.companyId == companyFilter
    ensures w.gte == (if Truthy(from) then Some(readDate(from.value)) else None)
    ensures w.lte == (if Truthy(to) then Some(readDate(to.value)) else None)
  {
    w := Where(None, None, None);
    if user.role == Advertiser && Truthy(user.companyId) {
      w := w.(companyId := user.companyId);
    }
    if companyFilter.Some? && user.role != Advertiser {
      w := w.(companyId := companyFilter);
    }
    if Truthy(from) || Truthy(to) {
      if Truthy(from) {
        w := w.(gte := Some(readDate(from.value)));
      }
      if Truthy(to) {
        w := w.(lte := Some(readDate(to.value)));
      }
    }
  }

  predicate Matches(w: Where, j: JoinedImpression) {
    && (w.companyId.None? || j.companyId == w.companyId.value)
    && (w.gte.None? || j.imp.timestamp >= w.gte.value)
    && (w.lte.None? || j.imp.timestamp <= w.lte.value)
  }

  function MatchesWhere(w: Where): JoinedImpression -> bool {
    (j: JoinedImpression) => Matches(w, j)
  }

  /** One report row: every impression is exactly one view, and one click when clicked. */
  datatype ReportRow = ReportRow(impressionId: string, adId: string, company: string, category: string,
                                 question: string, timestamp: Time, views: nat, clicks: nat)

  function ToRow(j: JoinedImpression): (row: ReportRow)
    ensures row.views == 1
    ensures row.clicks == (if j.imp.clicked then 1 else 0)
    ensures row.impressionId == j.imp.id && row.adId == j.imp.adId && row.timestamp == j.imp.timestamp
  {
    ReportRow(j.imp.id, j.imp.adId, j.companyName, j.categoryName, j.imp.question, j.imp.timestamp,
              1, if j.imp.clicked then 1 else 0)
  }

  /**
    `GET /api/reports`: 401 signed out, 403 for a role outside advertiser, staff and super, else
    one row per impression the `where` filter selects, in the query's order.
  */
  method Rows(session: Option<User>, companyFilter: Option<string>, from: Option<string>, to: Option<string>,
              readDate: string -> Time, imps: seq<JoinedImpression>) returns (r: Response<seq<ReportRow>>)
    ensures session.None? ==> r == Fail(401, "Unauthorized")
    ensures session.Some? && !ReportRole(session.value.role) ==> r == Fail(403, "Forbidden")
    ensures session.Some? && ReportRole(session.value.role) ==>
      && r.Ok?
      && exists w: Where ::
           && (session.value.role == Advertiser ==>
                 w.companyId == (if Truthy(session.value.companyId) then session.value.companyId else None))
           && (session.value.role != Advertiser ==> w.companyId == companyFilter)
           && w.gte == (if Truthy(from) then Some(readDate(from.value)) else None)
           && w.lte == (if Truthy(to) then Some(readDate(to.value)) else None)
           && |r.body| == |Filter(imps, MatchesWhere(w))|
           && forall i :: 0 <= i < |r.body| ==> r.body[i] == ToRow(Filter(imps, MatchesWhere(w))[i])
  {
    if session.None? {
      return Fail(401, "Unauthorized");
    }
    var user := session.value;
    if !ReportRole(user.role) {
      return Fail(403, "Forbidden");
    }
    var where := BuildWhere(user, companyFilter, from, to, readDate);
    var selected := Filter(imps, MatchesWhere(where));
    var data := seq(|selected|, i requires 0 <= i < |selected| => ToRow(selected[i]));
    return Ok(data);
  }

  /** An advertiser with a company sees only that company's impressions, whatever `companyId` asks for. */
  lemma AdvertiserRestricted(w: Where, user: User, imps: seq<JoinedImpression>)
    requires user.role == Advertiser && Truthy(user.companyId)
    requires w.companyId == user.companyId
    ensures forall m :: m in Filter(imps, MatchesWhere(w)) ==> m.companyId == user.companyId.value
  {
  }

  /**
    An advertiser without a company gets no company restriction at all: with no date bounds every
    impression is selected.
  */
  lemma AdvertiserWithoutCompanyUnrestricted(w: Where, imps: seq<JoinedImpression>)
    requires w == Where(None, None, None)
    ensures Filter(imps, MatchesWhere(w)) == imps
  {
    FilterAll(imps, MatchesWhere(w));
  }

  /** The bounds are inclusive: within the company filter, an impression at `from` or at `to` is selected. */
  lemma BoundsInclusive(w: Where, j: JoinedImpression)
    requires w.companyId.None? || j.companyId == w.companyId.value
    requires w.gte.Some? && w.lte.Some? && w.gte.value <= w.lte.value
    requires j.imp.timestamp == w.gte.value || j.imp.timestamp == w.lte.value
    ensures Matches(w, j)
  {
  }

  /** Rows keep the selected impressions' order and their clicks add up to the clicked ones. */
  lemma {:induction false} RowClicksCount(selected: seq<JoinedImpression>)
    ensures SumNat(seq(|selected|, i requires 0 <= i < |selected| => ToRow(selected[i])), RowClicks) ==
            ClickedCount(selected, WasClicked)
    decreases |selected|
  {
    var rows := seq(|selected|, i requires 0 <= i < |selected| => ToRow(selected[i]));
    if selected != [] {
      var init := selected[..|selected| - 1];
      RowClicksCount(init);
      assert rows[..|rows| - 1] == seq(|init|, i requires 0 <= i < |init| => ToRow(init[i]));
    }
  }

  function RowClicks(r: ReportRow): nat { r.clicks }
}
