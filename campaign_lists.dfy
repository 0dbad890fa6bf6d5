/**
  The two campaign-management views, the advertiser's and the super admin's: the search,
  status, category and company filters, the status tabs, the categories offered for the
  selected company, and the local list updates after a status change, a save or a create.
  The HTTP calls are parameters: an outcome of `None` is a request that threw, after which
  the list is left as it was.
*/
module CampaignLists {
  import opened Common
  import opened Entities
  import opened Campaigns
  import opened Categories
  import opened CampaignEdit

  /** The ad columns the update route returns (the row with its category's name). */
  datatype CampaignRow = CampaignRow(
    id: string, headline: string, ctaText: string, ctaUrl: string, imageUrl: string, status: AdStatus,
    budget: Option<real>, spendCap: Option<real>, startDate: Option<string>, endDate: Option<string>,
    categoryId: string, companyId: string, categoryName: string)

  /** A campaign as the view holds it: the row, the company name (super view only) and the roll-up. */
  datatype Listed = Listed(row: CampaignRow, companyName: Option<string>, metrics: Option<Totals>)

  /** The filter value that means "no restriction". */
  const AllValue := "all"

  /** The headline contains the search term, ignoring case. */
  predicate MatchesSearch(c: Listed, searchTerm: string) {
    Contains(ToLower(c.row.headline), ToLower(searchTerm))
  }

  /** The advertiser view's test: search, then status and category, each `'all'` or equal. */
  predicate Kept(c: Listed, searchTerm: string, statusFilter: string, categoryFilter: string) {
    && MatchesSearch(c, searchTerm)
    && (statusFilter == AllValue || StatusName(c.row.status) == statusFilter)
    && (categoryFilter == AllValue || c.row.categoryId == categoryFilter)
  }

  /** The super view adds the company filter. */
  predicate KeptBySuper(c: Listed, searchTerm: string, statusFilter: string, categoryFilter: string,
                        companyFilter: string) {
    Kept(c, searchTerm, statusFilter, categoryFilter) && (companyFilter == AllValue || c.row.companyId == companyFilter)
  }

  function KeptBy(searchTerm: string, statusFilter: string, categoryFilter: string): Listed -> bool {
    (c: Listed) => Kept(c, searchTerm, statusFilter, categoryFilter)
  }

  function KeptBySuperBy(searchTerm: string, statusFilter: string, categoryFilter: string,
                         companyFilter: string): Listed -> bool {
    (c: Listed) => KeptBySuper(c, searchTerm, statusFilter, categoryFilter, companyFilter)
  }

  /** `filteredCampaigns` of the advertiser view. */
  function FilteredCampaigns(campaigns: seq<Listed>, searchTerm: string, statusFilter: string,
                             categoryFilter: string): (r: seq<Listed>)
    ensures IsSubsequence(r, campaigns)
    ensures forall c :: c in r <==> c in campaigns && Kept(c, searchTerm, statusFilter, categoryFilter)
  {
    FilterExactly(campaigns, KeptBy(searchTerm, statusFilter, categoryFilter));
    Filter(campaigns, KeptBy(searchTerm, statusFilter, categoryFilter))
  }

  /** `filteredCampaigns` of the super view. */
  function SuperFilteredCampaigns(campaigns: seq<Listed>, searchTerm: string, statusFilter: string,
                                  categoryFilter: string, companyFilter: string): (r: seq<Listed>)
    ensures IsSubsequence(r, campaigns)
    ensures forall c :: c in r <==>
      c in campaigns && KeptBySuper(c, searchTerm, statusFilter, categoryFilter, companyFilter)
  {
    FilterExactly(campaigns, KeptBySuperBy(searchTerm, statusFilter, categoryFilter, companyFilter));
    Filter(campaigns, KeptBySuperBy(searchTerm, statusFilter, categoryFilter, companyFilter))
  }

  /** The empty string occurs in every string, lower-cased or not. */
  lemma EmptySearchMatches(c: Listed)
    ensures MatchesSearch(c, "")
  {
    assert ToLower("") == "";
  }

  /** With no search term and every filter on `'all'` the list is shown whole, in its order. */
  lemma NoFiltersKeepAll(campaigns: seq<Listed>)
    ensures FilteredCampaigns(campaigns, "", AllValue, AllValue) == campaigns
    ensures SuperFilteredCampaigns(campaigns, "", AllValue, AllValue, AllValue) == campaigns
  {
    forall c | c in campaigns
      ensures Kept(c, "", AllValue, AllValue)
    {
      EmptySearchMatches(c);
    }
    FilterAll(campaigns, KeptBy("", AllValue, AllValue));
    FilterAll(campaigns, KeptBySuperBy("", AllValue, AllValue, AllValue));
  }

  /** With the company filter on `'all'`, the super view shows what the advertiser view would. */
  lemma SuperWithoutCompanyFilter(campaigns: seq<Listed>, searchTerm: string, statusFilter: string,
                                  categoryFilter: string)
    ensures forall c :: c in SuperFilteredCampaigns(campaigns, searchTerm, statusFilter, categoryFilter, AllValue)
                <==> c in FilteredCampaigns(campaigns, searchTerm, statusFilter, categoryFilter)
  {
  }

  /** The status a tab shows: 1 active, 2 paused, 3 archived; any other tab shows all. */
  function TabStatus(tab: int): Option<AdStatus> {
    if tab == 1 then Some(Active)
    else if tab == 2 then Some(Paused)
    else if tab == 3 then Some(Archived)
    else None
  }

  function HasStatus(s: AdStatus): Listed -> bool {
    (c: Listed) => c.row.status == s
  }

  /** `getTabCampaigns`: the filtered list, narrowed to the tab's status. */
  function TabCampaigns(filtered: seq<Listed>, tab: int): (r: seq<Listed>)
    ensures IsSubsequence(r, filtered)
    ensures TabStatus(tab).None? ==> r == filtered
    ensures TabStatus(tab).Some? ==> forall c :: c in r <==> c in filtered && c.row.status == TabStatus(tab).value
  {
    match TabStatus(tab)
    case None =>
      FilterAll(filtered, (c: Listed) => true);
      FilterIsSubsequence(filtered, (c: Listed) => true);
      filtered
    case Some(s) =>
      FilterExactly(filtered, HasStatus(s));
      Filter(filtered, HasStatus(s))
  }

  /** The tabs split the list: every shown campaign is on the tab of its status. */
  lemma TabsCoverStatuses(filtered: seq<Listed>, c: Listed)
    requires c in filtered
    ensures c.row.status == Active ==> c in TabCampaigns(filtered, 1)
    ensures c.row.status == Paused ==> c in TabCampaigns(filtered, 2)
    ensures c.row.status == Archived ==> c in TabCampaigns(filtered, 3)
    ensures c in TabCampaigns(filtered, 0)
  {
  }

  function CategoryOf(companyId: string): Category -> bool {
    (c: Category) => c.companyId == companyId
  }

  /** `getCompanyCategories`: nothing without a selected company, else that company's categories. */
  function CompanyCategories(categories: seq<Category>, selectedCompanyId: string): (r: seq<Category>)
    ensures selectedCompanyId == "" ==> r == []
    ensures selectedCompanyId != "" ==>
      IsSubsequence(r, categories) && forall c :: c in r <==> c in categories && c.companyId == selectedCompanyId
  {
    if selectedCompanyId == "" then []
    else
      FilterExactly(categories, CategoryOf(selectedCompanyId));
      Filter(categories, CategoryOf(selectedCompanyId))
  }

  /** `campaigns.find(c => c.id === adId) || null`: the first campaign with that id. */
  function FindById(campaigns: seq<Listed>, adId: string): (r: Option<Listed>)
    ensures r.None? <==> forall c :: c in campaigns ==> c.row.id != adId
    ensures r.Some? ==> exists i :: 0 <= i < |campaigns| && campaigns[i] == r.value && r.value.row.id == adId
                                    && forall j :: 0 <= j < i ==> campaigns[j].row.id != adId
  {
    if campaigns == [] then None
    else if campaigns[0].row.id == adId then Some(campaigns[0])
    else
      var r := FindById(campaigns[1..], adId);
      if r.Some? then
        var i :| 0 <= i < |campaigns[1..]| && campaigns[1..][i] == r.value && r.value.row.id == adId
                 && forall j :: 0 <= j < i ==> campaigns[1..][j].row.id != adId;
        assert campaigns[i + 1] == r.value;
        assert forall j :: 1 <= j < i + 1 ==> campaigns[j] == campaigns[1..][j - 1];
        r
      else
        assert forall c :: c in campaigns ==> c == campaigns[0] || c in campaigns[1..];
        r
  }

  /** The ids of a list, in order. */
  function Ids(campaigns: seq<Listed>): (r: seq<string>)
    ensures |r| == |campaigns|
    ensures forall i :: 0 <= i < |r| ==> r[i] == campaigns[i].row.id
  {
    seq(|campaigns|, i requires 0 <= i < |campaigns| => campaigns[i].row.id)
  }

  /** `prev.map(c => c.id === adId ? { ...c, status } : c)`. */
  function WithStatus(campaigns: seq<Listed>, adId: string, status: AdStatus): (r: seq<Listed>)
    ensures |r| == |campaigns|
    ensures forall i :: 0 <= i < |r| && campaigns[i].row.id != adId ==> r[i] == campaigns[i]
    ensures forall i :: 0 <= i < |r| && campaigns[i].row.id == adId ==>
      r[i].row.status == status && r[i].(row := r[i].row.(status := campaigns[i].row.status)) == campaigns[i]
  {
    seq(|campaigns|, i requires 0 <= i < |campaigns| =>
      if campaigns[i].row.id == adId then campaigns[i].(row := campaigns[i].row.(status := status)) else campaigns[i])
  }

  /** A status change keeps the ids in place, and changing it again to the same status does nothing more. */
  lemma WithStatusFacts(campaigns: seq<Listed>, adId: string, status: AdStatus)
    ensures Ids(WithStatus(campaigns, adId, status)) == Ids(campaigns)
    ensures WithStatus(WithStatus(campaigns, adId, status), adId, status) == WithStatus(campaigns, adId, status)
  {
  }

  /** After a status change, the campaign found by that id carries the new status. */
  lemma FindAfterStatusChange(campaigns: seq<Listed>, adId: string, status: AdStatus)
    requires FindById(campaigns, adId).Some?
    ensures var found := FindById(WithStatus(campaigns, adId, status), adId);
      found.Some? && found.value.row.status == status
      && found.value.row.(status := FindById(campaigns, adId).value.row.status) == FindById(campaigns, adId).value.row
  {
    var r := FindById(campaigns, adId);
    var i :| 0 <= i < |campaigns| && campaigns[i] == r.value && r.value.row.id == adId
             && forall j :: 0 <= j < i ==> campaigns[j].row.id != adId;
    FirstMatchIsFound(WithStatus(campaigns, adId, status), adId, i);
  }

  /** The element at the first index with an id is what `find` returns. */
  lemma {:induction false} FirstMatchIsFound(campaigns: seq<Listed>, adId: string, i: nat)
    requires i < |campaigns| && campaigns[i].row.id == adId
    requires forall j :: 0 <= j < i ==> campaigns[j].row.id != adId
    ensures FindById(campaigns, adId) == Some(campaigns[i])
  {
    if i > 0 {
      assert forall j :: 0 <= j < i - 1 ==> campaigns[1..][j] == campaigns[j + 1];
      FirstMatchIsFound(campaigns[1..], adId, i - 1);
    }
  }

  /**
    `prev.map(c => c.id === id ? { ...c, ...response } : c)`: the response carries every ad column,
    so the matching campaigns take its row and keep their company name and roll-up.
  */
  function Merged(campaigns: seq<Listed>, adId: string, response: CampaignRow): (r: seq<Listed>)
    ensures |r| == |campaigns|
    ensures forall i :: 0 <= i < |r| && campaigns[i].row.id != adId ==> r[i] == campaigns[i]
    ensures forall i :: 0 <= i < |r| && campaigns[i].row.id == adId ==>
      r[i] == Listed(response, campaigns[i].companyName, campaigns[i].metrics)
  {
    seq(|campaigns|, i requires 0 <= i < |campaigns| =>
      if campaigns[i].row.id == adId then campaigns[i].(row := response) else campaigns[i])
  }

  /** When the server echoes the same id, a save keeps every id in place. */
  lemma MergedKeepsIds(campaigns: seq<Listed>, adId: string, response: CampaignRow)
    requires response.id == adId
    ensures Ids(Merged(campaigns, adId, response)) == Ids(campaigns)
  {
  }

  /** `[...prev, response]`: the created row is appended, without company name or roll-up. */
  function Appended(campaigns: seq<Listed>, response: CampaignRow): (r: seq<Listed>)
    ensures |r| == |campaigns| + 1
    ensures r[..|campaigns|] == campaigns && r[|campaigns|] == Listed(response, None, None)
  {
    campaigns + [Listed(response, None, None)]
  }

  /** The request a save sends: a `PUT` to the edited campaign, or a `POST` with the company id attached. */
  datatype SaveRequest = PutTo(adId: string, data: Submission) | PostWith(data: Submission, companyId: Option<string>)

  /** The advertiser's campaign view: the list it shows and the campaign open in the dialog. */
  class AdvertiserCampaigns {
    var campaigns: seq<Listed>
    var currentAd: Option<Listed>
    /** `session.user.companyId`, attached to every create. */
    const sessionCompanyId: Option<string>

    constructor(sessionCompanyId: Option<string>)
      ensures campaigns == [] && currentAd.None? && this.sessionCompanyId == sessionCompanyId
    {
      campaigns := [];
      currentAd := None;
      this.sessionCompanyId := sessionCompanyId;
    }

    /** The campaigns request (`None` when it failed): a success replaces the list, a failure keeps it. */
    method Load(fetched: Option<seq<Listed>>)
      modifies this
      ensures campaigns == (if fetched.Some? then fetched.value else old(campaigns))
      ensures currentAd == old(currentAd)
    {
      if fetched.Some? {
        campaigns := fetched.value;
      }
    }

    /** `handleEditCampaign`: the dialog opens on the first campaign with that id, or empty. */
    method HandleEditCampaign(adId: string)
      modifies this
      ensures currentAd == FindById(campaigns, adId) && campaigns == old(campaigns)
    {
      currentAd := FindById(campaigns, adId);
    }

    /** `handleCreateCampaign`: the dialog opens empty. */
    method HandleCreateCampaign()
      modifies this
      ensures currentAd.None? && campaigns == old(campaigns)
    {
      currentAd := None;
    }

    /** `handleStatusChange`: after the `PATCH` succeeds, only the campaigns with that id change status. */
    method HandleStatusChange(adId: string, newStatus: AdStatus, patched: bool)
      modifies this
      ensures campaigns == (if patched then WithStatus(old(campaigns), adId, newStatus) else old(campaigns))
      ensures currentAd == old(currentAd)
    {
      if patched {
        campaigns := WithStatus(campaigns, adId, newStatus);
      }
    }

    /**
      `handleSaveCampaign`: with a campaign open, a `PUT` whose response is merged into that id;
      otherwise a `POST` carrying the session's company, whose response is appended.
    */
    method HandleSaveCampaign(adData: Submission, response: Option<CampaignRow>) returns (request: SaveRequest)
      modifies this
      ensures old(currentAd).Some? ==> request == PutTo(old(currentAd).value.row.id, adData)
      ensures old(currentAd).None? ==> request == PostWith(adData, sessionCompanyId)
      ensures response.None? ==> campaigns == old(campaigns)
      ensures response.Some? && old(currentAd).Some? ==>
        campaigns == Merged(old(campaigns), old(currentAd).value.row.id, response.value)
      ensures response.Some? && old(currentAd).None? ==> campaigns == Appended(old(campaigns), response.value)
      ensures currentAd == old(currentAd)
    {
      if currentAd.Some? {
        request := PutTo(currentAd.value.row.id, adData);
        if response.Some? {
          campaigns := Merged(campaigns, currentAd.value.row.id, response.value);
        }
      } else {
        request := PostWith(adData, sessionCompanyId);
        if response.Some? {
          campaigns := Appended(campaigns, response.value);
        }
      }
    }
  }

  /** The super admin's campaign view: adds the categories of every company and the dialog's company. */
  class SuperCampaigns {
    var campaigns: seq<Listed>
    var categories: seq<Category>
    var currentAd: Option<Listed>
    var selectedCompanyId: string

    constructor()
      ensures campaigns == [] && categories == [] && currentAd.None? && selectedCompanyId == ""
    {
      campaigns := [];
      categories := [];
      currentAd := None;
      selectedCompanyId := "";
    }

    /**
      The three requests in turn, companies, campaigns, then categories (`None` or `false` when
      one failed): the first failure ends the load, so each list is replaced only when its own
      request and every earlier one succeeded, and a failed categories request leaves the new
      campaigns beside the old categories.
    */
    method Load(companiesFetched: bool, fetchedCampaigns: Option<seq<Listed>>,
                fetchedCategories: Option<seq<Category>>)
      modifies this
      ensures campaigns == (if companiesFetched && fetchedCampaigns.Some? then fetchedCampaigns.value
                            else old(campaigns))
      ensures categories == (if companiesFetched && fetchedCampaigns.Some? && fetchedCategories.Some?
                             then fetchedCategories.value else old(categories))
      ensures currentAd == old(currentAd) && selectedCompanyId == old(selectedCompanyId)
    {
      if !companiesFetched || fetchedCampaigns.None? {
        return;
      }
      campaigns := fetchedCampaigns.value;
      if fetchedCategories.Some? {
        categories := fetchedCategories.value;
      }
    }

    /** The categories the dialog offers. */
    function DialogCategories(): (r: seq<Category>)
      reads this
      ensures selectedCompanyId == "" ==> r == []
      ensures forall c :: c in r ==> c in categories && c.companyId == selectedCompanyId
    {
      CompanyCategories(categories, selectedCompanyId)
    }

    /** `handleEditCampaign`: opens the found campaign and, when found, selects its company. */
    method HandleEditCampaign(adId: string)
      modifies this
      ensures currentAd == FindById(campaigns, adId)
      ensures currentAd.Some? ==> selectedCompanyId == currentAd.value.row.companyId
      ensures currentAd.None? ==> selectedCompanyId == old(selectedCompanyId)
      ensures campaigns == old(campaigns) && categories == old(categories)
    {
      var ad := FindById(campaigns, adId);
      currentAd := ad;
      if ad.Some? {
        selectedCompanyId := ad.value.row.companyId;
      }
    }

    /** `handleCreateCampaign`: the dialog opens empty; the selected company is kept. */
    method HandleCreateCampaign()
      modifies this
      ensures currentAd.None? && campaigns == old(campaigns) && categories == old(categories)
      ensures selectedCompanyId == old(selectedCompanyId)
    {
      currentAd := None;
    }

    /** The dialog's `onClose`: after a create (no campaign open) the selected company is cleared. */
    method HandleDialogClose()
      modifies this
      ensures selectedCompanyId == (if currentAd.None? then "" else old(selectedCompanyId))
      ensures campaigns == old(campaigns) && categories == old(categories) && currentAd == old(currentAd)
    {
      if currentAd.None? {
        selectedCompanyId := "";
      }
    }

    /** `handleCompanyChange`: the dialog's company selector. */
    method HandleCompanyChange(companyId: string)
      modifies this
      ensures selectedCompanyId == companyId
      ensures campaigns == old(campaigns) && categories == old(categories) && currentAd == old(currentAd)
    {
      selectedCompanyId := companyId;
    }

    /** `handleStatusChange`: as in the advertiser view. */
    method HandleStatusChange(adId: string, newStatus: AdStatus, patched: bool)
      modifies this
      ensures campaigns == (if patched then WithStatus(old(campaigns), adId, newStatus) else old(campaigns))
      ensures categories == old(categories) && currentAd == old(currentAd)
      ensures selectedCompanyId == old(selectedCompanyId)
    {
      if patched {
        campaigns := WithStatus(campaigns, adId, newStatus);
      }
    }

    /**
      `handleSaveCampaign`: as in the advertiser view, except that a create carries the company
      selected in the dialog.
    */
    method HandleSaveCampaign(adData: Submission, response: Option<CampaignRow>) returns (request: SaveRequest)
      modifies this
      ensures old(currentAd).Some? ==> request == PutTo(old(currentAd).value.row.id, adData)
      ensures old(currentAd).None? ==> request == PostWith(adData, Some(old(selectedCompanyId)))
      ensures response.None? ==> campaigns == old(campaigns)
      ensures response.Some? && old(currentAd).Some? ==>
        campaigns == Merged(old(campaigns), old(currentAd).value.row.id, response.value)
      ensures response.Some? && old(currentAd).None? ==> campaigns == Appended(old(campaigns), response.value)
      ensures categories == old(categories) && currentAd == old(currentAd)
      ensures selectedCompanyId == old(selectedCompanyId)
    {
      if currentAd.Some? {
        request := PutTo(currentAd.value.row.id, adData);
        if response.Some? {
          campaigns := Merged(campaigns, currentAd.value.row.id, response.value);
        }
      } else {
        request := PostWith(adData, Some(selectedCompanyId));
        if response.Some? {
          campaigns := Appended(campaigns, response.value);
        }
      }
    }
  }
}
