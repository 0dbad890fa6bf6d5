/**
  The staff dashboard: the company and category filters built from the rows, and the filtered
  rows the table and the summary cards show. Its export is `ReportDashboard.ReportCsv` of every
  fetched row, whatever the filters say.
*/
module StaffDashboard {
  import opened Common
  import opened Grouping
  import opened ReportDashboard

  /** The filter value that lets every row through. */
  const AllOption: string := "all"

  function RowCompany(r: ClientRow): string { r.company }
  function RowCategory(r: ClientRow): string { r.category }

  /** `['all', ...new Set(data.map(key))]`: `'all'` first, then each name once, in first-seen order. */
  function Options(data: seq<ClientRow>, key: ClientRow -> string): (opts: seq<string>)
    ensures |opts| >= 1 && opts[0] == AllOption
    ensures forall k :: k in opts[1..] <==> exists r :: r in data && key(r) == k
    ensures NoDuplicates(opts[1..])
  {
    DistinctKeysUnique(data, key);
    var opts := [AllOption] + DistinctKeys(data, key);
    assert opts[1..] == DistinctKeys(data, key);
    opts
  }

  /** Without a row whose name is `'all'`, no option appears twice. */
  lemma OptionsDistinct(data: seq<ClientRow>, key: ClientRow -> string)
    requires forall r :: r in data ==> key(r) != AllOption
    ensures NoDuplicates(Options(data, key))
  {
    var opts := Options(data, key);
    forall i, j | 0 <= i < j < |opts|
      ensures opts[i] != opts[j]
    {
      if i == 0 {
        assert opts[j] == opts[1..][j - 1] && opts[1..][j - 1] in opts[1..];
      } else {
        assert opts[i] == opts[1..][i - 1] && opts[j] == opts[1..][j - 1];
      }
    }
  }

  /** A row passes when each filter is `'all'` or names the row's company, resp. category. */
  predicate Matches(r: ClientRow, companyFilter: string, categoryFilter: string) {
    && (companyFilter == AllOption || r.company == companyFilter)
    && (categoryFilter == AllOption || r.category == categoryFilter)
  }

  function MatchesBy(companyFilter: string, categoryFilter: string): ClientRow -> bool {
    (r: ClientRow) => Matches(r, companyFilter, categoryFilter)
  }

  /** `filteredData`: the rows that pass both filters, in their order. */
  function FilteredData(data: seq<ClientRow>, companyFilter: string, categoryFilter: string): (r: seq<ClientRow>)
    ensures IsSubsequence(r, data)
    ensures forall x :: x in r <==> x in data && Matches(x, companyFilter, categoryFilter)
  {
    FilterExactly(data, MatchesBy(companyFilter, categoryFilter));
    Filter(data, MatchesBy(companyFilter, categoryFilter))
  }

  /** The summary cards count the filtered rows. */
  function StaffStats(data: seq<ClientRow>, companyFilter: string, categoryFilter: string): Stats {
    StatsOf(FilteredData(data, companyFilter, categoryFilter))
  }

  /** With both filters on `'all'` the table and the cards cover every row. */
  lemma AllShowsEverything(data: seq<ClientRow>)
    ensures FilteredData(data, AllOption, AllOption) == data
    ensures StaffStats(data, AllOption, AllOption) == StatsOf(data)
  {
    FilterAll(data, MatchesBy(AllOption, AllOption));
  }

  /** `xs.filter(p)` of an extended list. */
  lemma {:induction false} FilterSnoc<T>(xs: seq<T>, x: T, p: T -> bool)
    ensures Filter(xs + [x], p) == Filter(xs, p) + (if p(x) then [x] else [])
    decreases |xs|
  {
    if xs == [] {
      assert xs + [x] == [x];
    } else {
      assert (xs + [x])[1..] == xs[1..] + [x];
      FilterSnoc(xs[1..], x, p);
    }
  }

  /** Choosing a company (other than `'all'`) shows as many rows as that company has. */
  lemma {:induction false} CompanyFilterCount(data: seq<ClientRow>, company: string)
    requires company != AllOption
    ensures |FilteredData(data, company, AllOption)| == Occurrences(data, RowCompany, company)
    decreases |data|
  {
    if data != [] {
      var init := data[..|data| - 1];
      assert data == init + [data[|data| - 1]];
      FilterSnoc(init, data[|data| - 1], MatchesBy(company, AllOption));
      CompanyFilterCount(init, company);
    }
  }

  function CompanyCount(data: seq<ClientRow>): string -> nat {
    (c: string) => |FilteredData(data, c, AllOption)|
  }

  /**
    When no company is named `'all'`, the company options split the rows: the impressions shown
    for each company, added over the options after `'all'`, are the impressions of all rows.
  */
  lemma CompaniesPartitionRows(data: seq<ClientRow>)
    requires forall r :: r in data ==> r.company != AllOption
    ensures SumNat(Options(data, RowCompany)[1..], CompanyCount(data)) == StatsOf(data).impressions
  {
    var ks := DistinctKeys(data, RowCompany);
    assert Options(data, RowCompany)[1..] == ks;
    forall i | 0 <= i < |ks|
      ensures CompanyCount(data)(ks[i]) == OccurrencesOf(data, RowCompany)(ks[i])
    {
      assert ks[i] in ks;
      CompanyFilterCount(data, ks[i]);
    }
    SumNatPointwise(ks, ks, CompanyCount(data), OccurrencesOf(data, RowCompany));
    GroupSums(data, RowCompany, (r: ClientRow) => r.clicks > 0);
  }
}
