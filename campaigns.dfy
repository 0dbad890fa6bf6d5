/**
  `GET /api/campaigns` and `POST /api/campaigns`: the access guards, the per-campaign
  metrics roll-up, and the validation and defaults of a new campaign. The session is
  a parameter; the store is the list of campaigns with their metrics rows, in the
  query's order (`updatedAt` descending), each campaign's rows newest first.
*/
module Campaigns {
  import opened Common
  import opened Entities

  /** A campaign as fetched: the ad and its metrics rows, newest first. */
  datatype Campaign = Campaign(ad: Ad, metrics: seq<AdMetrics>)

  /** The three sums the list shows for a campaign. */
  datatype Totals = Totals(impressions: nat, clicks: nat, spend: real)

  /** A campaign with its rows replaced by their totals; every other field is kept. */
  datatype CampaignWithMetrics = CampaignWithMetrics(ad: Ad, metrics: Totals)

  /** How many metrics rows the query fetches per campaign (`take: 30`). */
  const MetricsTake: nat := 30

  function MetricImpressions(m: AdMetrics): nat { m.impressions }
  function MetricClicks(m: AdMetrics): nat { m.clicks }
  function MetricSpend(m: AdMetrics): real { m.spend }

  /** The roll-up of one campaign over its fetched rows. */
  function RollUp(c: Campaign): CampaignWithMetrics {
    var rows := Take(c.metrics, MetricsTake);
    CampaignWithMetrics(c.ad, Totals(SumNat(rows, MetricImpressions), SumNat(rows, MetricClicks),
                                     SumReal(rows, MetricSpend)))
  }

  /**
    The roll-up keeps the ad, sums the newest rows (at most thirty), is all zero without rows,
    and keeps clicks ≤ impressions when every row does.
  */
  lemma RollUpFacts(c: Campaign)
    ensures RollUp(c).ad == c.ad
    ensures c.metrics == [] ==> RollUp(c).metrics == Totals(0, 0, 0.0)
    ensures |c.metrics| <= MetricsTake ==>
      RollUp(c).metrics == Totals(SumNat(c.metrics, MetricImpressions), SumNat(c.metrics, MetricClicks),
                                  SumReal(c.metrics, MetricSpend))
    ensures (forall i :: 0 <= i < |c.metrics| ==> c.metrics[i].clicks <= c.metrics[i].impressions) ==>
      RollUp(c).metrics.clicks <= RollUp(c).metrics.impressions
  {
    var rows := Take(c.metrics, MetricsTake);
    if forall i :: 0 <= i < |c.metrics| ==> c.metrics[i].clicks <= c.metrics[i].impressions {
      assert forall i :: 0 <= i < |rows| ==> rows[i] == c.metrics[i];
      SumNatMonotone(rows, MetricClicks, MetricImpressions);
    }
  }

  /** The roll-up applied to every campaign, one entry each, in the same order. */
  function RollUpAll(cs: seq<Campaign>): (r: seq<CampaignWithMetrics>)
    ensures |r| == |cs|
    ensures forall i :: 0 <= i < |cs| ==> r[i] == RollUp(cs[i])
  {
    seq(|cs|, i requires 0 <= i < |cs| => RollUp(cs[i]))
  }

  function OfCompany(companyId: string): Campaign -> bool {
    (c: Campaign) => c.ad.companyId == companyId
  }

  /**
    `GET /api/campaigns`: 401 signed out, then 400 without a company id, then 403 when a
    non-super asks for another company; else the company's campaigns rolled up.
  */
  function ListCampaigns(session: Option<User>, companyId: Option<string>, store: seq<Campaign>)
    : (r: Response<seq<CampaignWithMetrics>>)
    ensures session.None? ==> r == Fail(401, "Unauthorized")
    ensures session.Some? && !Truthy(companyId) ==> r == Fail(400, "Company ID is required")
    ensures session.Some? && Truthy(companyId) && !MayAccessCompany(session.value, companyId.value) ==>
      r == Fail(403, "Unauthorized access to company data")
    ensures r.Ok? <==> session.Some? && Truthy(companyId) && MayAccessCompany(session.value, companyId.value)
    ensures r.Ok? ==>
      && |r.body| == |Filter(store, OfCompany(companyId.value))|
      && forall i :: 0 <= i < |r.body| ==>
           r.body[i] == RollUp(Filter(store, OfCompany(companyId.value))[i])
           && r.body[i].ad.companyId == companyId.value
  {
    if session.None? then Fail(401, "Unauthorized")
    else if !Truthy(companyId) then Fail(400, "Company ID is required")
    else if session.value.role != Super && session.value.companyId != companyId then
      Fail(403, "Unauthorized access to company data")
    else
      var campaigns := Filter(store, OfCompany(companyId.value));
      assert forall i :: 0 <= i < |campaigns| ==> campaigns[i] in campaigns;
      Ok(RollUpAll(campaigns))
  }

  /** A JSON body field as the handler receives it: absent (or null), a number, or a string. */
  datatype Field = Absent | Num(n: real) | Text(s: string)

  /** JavaScript truthiness of a field: a non-zero number or a non-empty string. */
  predicate TruthyField(f: Field) {
    (f.Num? && f.n != 0.0) || (f.Text? && f.s != "")
  }

  /** `parseFloat(f)`: a number is itself; a string is read by `parse`. */
  function ParseFloat(f: Field, parse: string -> real): real
    requires f.Num? || f.Text?
  {
    if f.Num? then f.n else parse(f.s)
  }

  /** `x ? parseFloat(x) : null`. */
  function NumberOrNull(f: Field, parse: string -> real): (r: Option<real>)
    ensures !TruthyField(f) <==> r.None?
    ensures r.Some? ==> r.value == ParseFloat(f, parse)
  {
    if TruthyField(f) then Some(ParseFloat(f, parse)) else None
  }

  /** The body of `POST /api/campaigns`. */
  datatype CreateRequest = CreateRequest(
    headline: Option<string>, ctaText: Option<string>, ctaUrl: Option<string>, imageUrl: Option<string>,
    status: Option<string>, budget: Field, spendCap: Field, startDate: Option<string>, endDate: Option<string>,
    categoryId: Option<string>, companyId: Option<string>)

  /** The row `prisma.ad.create` is given. */
  datatype NewCampaign = NewCampaign(
    headline: string, ctaText: string, ctaUrl: string, imageUrl: string, status: string,
    budget: Option<real>, spendCap: Option<real>, startDate: Option<Time>, endDate: Option<Time>,
    categoryId: string, companyId: string)

  predicate HasRequiredFields(req: CreateRequest) {
    && Truthy(req.headline) && Truthy(req.ctaText) && Truthy(req.ctaUrl) && Truthy(req.imageUrl)
    && Truthy(req.categoryId) && Truthy(req.companyId)
  }

  /**
    `POST /api/campaigns`: 401 signed out; 400 when a required field is missing, before the 403
    for a non-super creating for another company; 400 when the category (looked up in
    `categoryOwner`, category id to company id) is unknown or belongs to another company; else
    201 with the new row.
  */
  function CreateCampaign(session: Option<User>, req: CreateRequest, categoryOwner: map<string, string>,
                          parse: string -> real, readDate: string -> Time): (r: Response<NewCampaign>)
    ensures session.None? ==> r == Fail(401, "Unauthorized")
    ensures session.Some? && !HasRequiredFields(req) ==> r == Fail(400, "Missing required fields")
    ensures session.Some? && HasRequiredFields(req) && !MayAccessCompany(session.value, req.companyId.value) ==>
      r == Fail(403, "Unauthorized access to company data")
    ensures session.Some? && HasRequiredFields(req) && MayAccessCompany(session.value, req.companyId.value)
            && (req.categoryId.value !in categoryOwner || categoryOwner[req.categoryId.value] != req.companyId.value) ==>
      r == Fail(400, "Category does not belong to the company")
    ensures r.Ok? <==>
      && session.Some? && HasRequiredFields(req) && MayAccessCompany(session.value, req.companyId.value)
      && req.categoryId.value in categoryOwner && categoryOwner[req.categoryId.value] == req.companyId.value
    ensures r.Ok? ==>
      && req.categoryId.value in categoryOwner && categoryOwner[req.categoryId.value] == r.body.companyId
      && r.body.headline == req.headline.value && r.body.ctaText == req.ctaText.value
      && r.body.ctaUrl == req.ctaUrl.value && r.body.imageUrl == req.imageUrl.value
      && r.body.categoryId == req.categoryId.value && r.body.companyId == req.companyId.value
      && r.body.status == (if Truthy(req.status) then req.status.value else "active")
      && r.body.budget == NumberOrNull(req.budget, parse)
      && r.body.spendCap == NumberOrNull(req.spendCap, parse)
      && r.body.startDate == (if Truthy(req.startDate) then Some(readDate(req.startDate.value)) else None)
      && r.body.endDate == (if Truthy(req.endDate) then Some(readDate(req.endDate.value)) else None)
  {
    if session.None? then Fail(401, "Unauthorized")
    else if !HasRequiredFields(req) then Fail(400, "Missing required fields")
    else if session.value.role != Super && session.value.companyId != req.companyId then
      Fail(403, "Unauthorized access to company data")
    else if req.categoryId.value !in categoryOwner || categoryOwner[req.categoryId.value] != req.companyId.value then
      Fail(400, "Category does not belong to the company")
    else
      Ok(NewCampaign(
        req.headline.value, req.ctaText.value, req.ctaUrl.value, req.imageUrl.value,
        if Truthy(req.status) then req.status.value else "active",
        NumberOrNull(req.budget, parse), NumberOrNull(req.spendCap, parse),
        if Truthy(req.startDate) then Some(readDate(req.startDate.value)) else None,
        if Truthy(req.endDate) then Some(readDate(req.endDate.value)) else None,
        req.categoryId.value, req.companyId.value))
  }

  /** A missing field is reported even to a user who may not touch the company: validation comes first. */
  lemma MissingFieldsBeforeAccess(user: User, req: CreateRequest, categoryOwner: map<string, string>,
                                  parse: string -> real, readDate: string -> Time)
    requires !HasRequiredFields(req)
    ensures CreateCampaign(Some(user), req, categoryOwner, parse, readDate) == Fail(400, "Missing required fields")
  {
  }
}
