/**
  One ad request end to end: the selection over a snapshot of the store, then the impression
  the handler records for the ad it serves. A failed selection records nothing.
*/
module Serving {
  import opened Common
  import opened Entities
  import opened AdSelection
  import Ledger

  /**
    The handler's flow: select, and on success create impression `id` for the served ad with
    the question the selection recorded, unclicked, stamped `now`. Metrics are left alone.
  */
  method Serve(store: Ledger.AdStore, id: string, verb: Verb, ads: seq<Ad>, metrics: seq<AdMetrics>,
               impressions: seq<Impression>, rawQuestion: Option<string>, sessionId: Option<string>,
               now: Time, today: Time, roll: real)
    returns (r: Response<Selection>)
    requires 0.0 <= roll < 1.0
    requires id !in store.impressions
    modifies store
    ensures SelectionMeets(ads, metrics, impressions, rawQuestion, now, today, roll, r)
    ensures r.Fail? ==> r.message == (if QuestionOf(rawQuestion) != "" && verb == Post then "No fallback ads available"
                                      else "No active ads available")
    ensures r.Fail? ==> store.impressions == old(store.impressions)
    ensures r.Ok? ==>
      && r.body.question == QuestionOf(rawQuestion)
      && store.impressions == old(store.impressions)[id := Impression(id, r.body.ad.id, r.body.question, now, false,
                                                                     if Truthy(sessionId) then sessionId else None, None)]
    ensures store.metrics == old(store.metrics)
  {
    r := SelectAd(verb, ads, metrics, impressions, rawQuestion, now, today, roll);
    if r.Ok? {
      store.CreateImpression(id, r.body.ad.id, r.body.question, sessionId, now);
    }
  }
}
