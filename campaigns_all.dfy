/**
  `GET /api/campaigns/all`: the super-only list of every campaign with its metrics
  rolled up the same way as the per-company list.
*/
module CampaignsAll {
  import opened Common
  import opened Campaigns

  /** 401 signed out, 403 for any role but super, else one rolled-up entry per campaign, in order. */
  function ListAllCampaigns(session: Option<User>, store: seq<Campaign>): (r: Response<seq<CampaignWithMetrics>>)
    ensures session.None? ==> r == Fail(401, "Unauthorized")
    ensures session.Some? && session.value.role != Super ==> r == Fail(403, "Unauthorized access")
    ensures r.Ok? <==> session.Some? && session.value.role == Super
    ensures r.Ok? ==>
      && |r.body| == |store|
      && forall i :: 0 <= i < |store| ==> r.body[i] == RollUp(store[i]) && r.body[i].ad == store[i].ad
  {
    if session.None? then Fail(401, "Unauthorized")
    else if session.value.role != Super then Fail(403, "Unauthorized access")
    else Ok(RollUpAll(store))
  }

  /**
    Each entry's totals are the sums over that campaign's fetched rows, and zero for a campaign
    without rows.
  */
  lemma AllTotals(session: Option<User>, store: seq<Campaign>, i: int)
    requires ListAllCampaigns(session, store).Ok? && 0 <= i < |store|
    ensures var t := ListAllCampaigns(session, store).body[i].metrics;
      var rows := Take(store[i].metrics, MetricsTake);
      && t == Totals(SumNat(rows, MetricImpressions), SumNat(rows, MetricClicks), SumReal(rows, MetricSpend))
      && (store[i].metrics == [] ==> t == Totals(0, 0, 0.0))
  {
    RollUpFacts(store[i]);
  }
}
