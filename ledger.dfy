/**
  The impression and metrics ledger (app/api/report/route.ts, and the impression
  `create` of app/api/ads/route.ts). The store is a class holding the impression
  table keyed by id and the metrics table keyed by `(adId, date)`. A report
  validates its request, changes one impression (its `sessionId` on a view, its
  `clicked` flag on a click) and then recomputes the `(adId, today)` metrics row
  by counting impressions, rather than incrementing it.
*/
module Ledger {
  import opened Common
  import opened Entities

  type ImpressionTable = map<string, Impression>
  type MetricsTable = map<(string, Time), AdMetrics>

  /** A report request body; `None` is an absent field. */
  datatype ReportRequest = ReportRequest(kind: Option<string>, impressionId: Option<string>, sessionId: Option<string>)

  /** The two tables as one value. */
  datatype Tables = Tables(impressions: ImpressionTable, metrics: MetricsTable)

  lemma {:induction false} SubsetCard<T>(a: set<T>, b: set<T>)
    requires a <= b
    ensures |a| <= |b|
    decreases |b|
  {
    if a != {} {
      var x :| x in a;
      SubsetCard(a - {x}, b - {x});
    }
  }

  /** The ids of `adId`'s impressions with timestamp at or after `today`'s midnight. */
  function ShownToday(imps: ImpressionTable, adId: string, today: Time): set<string> {
    set id | id in imps && imps[id].adId == adId && imps[id].timestamp >= today
  }

  /** Those of them that were clicked. */
  function ClickedToday(imps: ImpressionTable, adId: string, today: Time): set<string> {
    set id | id in imps && imps[id].adId == adId && imps[id].timestamp >= today && imps[id].clicked
  }

  /** `clicksCount / impressionsCount`, and 0 when nothing was shown. */
  function CtrOf(clicks: nat, impressions: nat): real {
    if impressions > 0 then clicks as real / impressions as real else 0.0
  }

  lemma CtrOfBounds(clicks: nat, impressions: nat)
    requires clicks <= impressions
    ensures 0.0 <= CtrOf(clicks, impressions) <= 1.0
  {
  }

  /** The `(adId, today)` row an upsert over an existing row (or none) writes. */
  function MetricsRow(imps: ImpressionTable, adId: string, today: Time, existing: Option<AdMetrics>): AdMetrics {
    var impressionsCount := |ShownToday(imps, adId, today)|;
    var clicksCount := |ClickedToday(imps, adId, today)|;
    AdMetrics(adId, today, impressionsCount, clicksCount, CtrOf(clicksCount, impressionsCount),
              if existing.Some? then existing.value.spend else 0.0)
  }

  /** A written row has clicks ≤ impressions and ctr clicks/impressions, or 0 with no impressions, in [0, 1]. */
  lemma RowBounds(imps: ImpressionTable, adId: string, today: Time, existing: Option<AdMetrics>)
    ensures var row := MetricsRow(imps, adId, today, existing);
      && row.clicks <= row.impressions
      && row.ctr == (if row.impressions > 0 then row.clicks as real / row.impressions as real else 0.0)
      && 0.0 <= row.ctr <= 1.0
  {
    SubsetCard(ClickedToday(imps, adId, today), ShownToday(imps, adId, today));
    var row := MetricsRow(imps, adId, today, existing);
    CtrOfBounds(row.clicks, row.impressions);
  }

  function Lookup(metrics: MetricsTable, key: (string, Time)): Option<AdMetrics> {
    if key in metrics then Some(metrics[key]) else None
  }

  /** `updateAdMetrics(adId)`: replace (or create) the `(adId, today)` row by recounting. */
  function Upsert(imps: ImpressionTable, metrics: MetricsTable, adId: string, today: Time): MetricsTable {
    metrics[(adId, today) := MetricsRow(imps, adId, today, Lookup(metrics, (adId, today)))]
  }

  const ViewKind := "view"
  const ClickKind := "click"

  /** The request passes validation and names a stored impression. */
  predicate Succeeds(imps: ImpressionTable, req: ReportRequest) {
    && Truthy(req.kind) && Truthy(req.impressionId)
    && (req.kind.value == ViewKind || req.kind.value == ClickKind)
    && req.impressionId.value in imps
  }

  /** The effect of `POST /api/report` on the tables, and its response. */
  function ApplyReport(t: Tables, req: ReportRequest, today: Time): (Tables, Response<string>) {
    if !Truthy(req.kind) then (t, Fail(400, "Missing required parameter: type"))
    else if !Truthy(req.impressionId) then (t, Fail(400, "Missing required parameter: impressionId"))
    else
      var id := req.impressionId.value;
      if req.kind.value != ViewKind && req.kind.value != ClickKind then (t, Fail(400, "Invalid type parameter"))
      else if id !in t.impressions then (t, Fail(400, "Invalid impressionId"))
      else
        var imp := t.impressions[id];
        var updated :=
          if req.kind.value == ClickKind then imp.(clicked := true)
          else if Truthy(req.sessionId) then imp.(sessionId := req.sessionId)
          else imp;
        var imps := t.impressions[id := updated];
        (Tables(imps, Upsert(imps, t.metrics, imp.adId, today)), Ok(id))
  }

  /** A missing `type` or `impressionId` is a 400 that changes nothing; `type` is checked first. */
  lemma MissingParameterRejected(t: Tables, req: ReportRequest, today: Time)
    requires !Truthy(req.kind) || !Truthy(req.impressionId)
    ensures ApplyReport(t, req, today).0 == t
    ensures ApplyReport(t, req, today).1 ==
      Fail(400, if !Truthy(req.kind) then "Missing required parameter: type" else "Missing required parameter: impressionId")
  {
  }

  /**
    Every request that does not succeed changes nothing, and is a 400 whose message names the
    reason: an unknown type, or an id with no impression.
  */
  lemma FailureChangesNothing(t: Tables, req: ReportRequest, today: Time)
    ensures !Succeeds(t.impressions, req) <==> ApplyReport(t, req, today).1.Fail?
    ensures !Succeeds(t.impressions, req) ==>
      && ApplyReport(t, req, today).0 == t
      && ApplyReport(t, req, today).1.status == 400
    ensures Truthy(req.kind) && Truthy(req.impressionId) && req.kind.value != ViewKind && req.kind.value != ClickKind ==>
      ApplyReport(t, req, today).1 == Fail(400, "Invalid type parameter")
    ensures Truthy(req.kind) && Truthy(req.impressionId) && (req.kind.value == ViewKind || req.kind.value == ClickKind)
            && req.impressionId.value !in t.impressions ==>
      ApplyReport(t, req, today).1 == Fail(400, "Invalid impressionId")
  {
  }

  /**
    A successful view writes the session id when one is given and nothing else of the impression;
    a successful click sets `clicked` and nothing else. Every other impression is untouched.
  */
  lemma ImpressionEffect(t: Tables, req: ReportRequest, today: Time)
    requires Succeeds(t.impressions, req)
    ensures var id := req.impressionId.value;
      var old_ := t.impressions[id];
      var imps := ApplyReport(t, req, today).0.impressions;
      && imps.Keys == t.impressions.Keys
      && (forall other :: other in imps && other != id ==> imps[other] == t.impressions[other])
      && (req.kind.value == ViewKind ==>
            imps[id] == old_.(sessionId := if Truthy(req.sessionId) then req.sessionId else old_.sessionId))
      && (req.kind.value == ClickKind ==> imps[id] == old_.(clicked := true))
      && ApplyReport(t, req, today).1 == Ok(id)
  {
  }

  /** No report clears `clicked`, or changes an impression's ad or timestamp, or the set of impressions. */
  lemma ClickedNeverReset(t: Tables, req: ReportRequest, today: Time)
    ensures var imps := ApplyReport(t, req, today).0.impressions;
      && imps.Keys == t.impressions.Keys
      && forall id :: id in imps ==>
           && (t.impressions[id].clicked ==> imps[id].clicked)
           && imps[id].adId == t.impressions[id].adId
           && imps[id].timestamp == t.impressions[id].timestamp
  {
  }

  /**
    After a successful report the `(adId, today)` row counts that ad's impressions from today's
    midnight on, and the clicked ones among them; clicks ≤ impressions; ctr is their ratio or 0.
    Every other row is unchanged, and `spend` is kept (a new row starts at 0).
  */
  lemma MetricsEffect(t: Tables, req: ReportRequest, today: Time)
    requires Succeeds(t.impressions, req)
    ensures var adId := t.impressions[req.impressionId.value].adId;
      var after := ApplyReport(t, req, today).0;
      var row := after.metrics[(adId, today)];
      && after.metrics.Keys == t.metrics.Keys + {(adId, today)}
      && row.impressions == |ShownToday(after.impressions, adId, today)|
      && row.clicks == |ClickedToday(after.impressions, adId, today)|
      && row.clicks <= row.impressions
      && row.ctr == (if row.impressions > 0 then row.clicks as real / row.impressions as real else 0.0)
      && row.spend == (if (adId, today) in t.metrics then t.metrics[(adId, today)].spend else 0.0)
      && forall k :: k in t.metrics && k != (adId, today) ==> after.metrics[k] == t.metrics[k]
  {
    var adId := t.impressions[req.impressionId.value].adId;
    var after := ApplyReport(t, req, today).0;
    RowBounds(after.impressions, adId, today, Lookup(t.metrics, (adId, today)));
  }

  /** The same report twice has the effect of once: tables and response. */
  lemma ReportIdempotent(t: Tables, req: ReportRequest, today: Time)
    ensures var once := ApplyReport(t, req, today);
      ApplyReport(once.0, req, today) == once
  {
    var once := ApplyReport(t, req, today);
    if Succeeds(t.impressions, req) {
      var id := req.impressionId.value;
      var adId := t.impressions[id].adId;
      var t1 := once.0;
      assert t1.impressions[id] == t1.impressions[id := t1.impressions[id]][id];
      var twice := ApplyReport(t1, req, today);
      assert twice.0.impressions == t1.impressions;
      assert twice.0.metrics == t1.metrics;
    }
  }

  /** Reports applied in order. */
  function ApplyAll(t: Tables, reqs: seq<ReportRequest>, today: Time): Tables
    decreases |reqs|
  {
    if reqs == [] then t
    else ApplyReport(ApplyAll(t, reqs[..|reqs| - 1], today), reqs[|reqs| - 1], today).0
  }

  predicate IsClickOn(imps: ImpressionTable, req: ReportRequest) {
    Succeeds(imps, req) && req.kind.value == ClickKind
  }

  /** The impressions some successful click among `reqs` names. */
  function ClickIds(imps: ImpressionTable, reqs: seq<ReportRequest>): set<string> {
    set r | r in reqs && IsClickOn(imps, r) :: r.impressionId.value
  }

  /** The ads some successful report among `reqs` touches. */
  function TouchedAds(imps: ImpressionTable, reqs: seq<ReportRequest>): set<string> {
    set r | r in reqs && Succeeds(imps, r) :: imps[r.impressionId.value].adId
  }

  /** The impressions with `clicked` raised on the ids in `clicks`. */
  function WithClicks(imps: ImpressionTable, clicks: set<string>): ImpressionTable {
    map id | id in imps :: imps[id].(clicked := imps[id].clicked || id in clicks)
  }

  /**
    The metrics table after a batch of reports, stated without their order: every touched ad's
    today row is recounted over the impressions with their clicks raised, keeping the original
    row's spend; every other row is the original one.
  */
  function FinalMetrics(t: Tables, reqs: seq<ReportRequest>, today: Time): MetricsTable {
    Recounted(t, TouchedAds(t.impressions, reqs), ClickIds(t.impressions, reqs), today)
  }

  /** The rows of the `touched` ads recounted with `clicks` raised; the other rows kept. */
  function Recounted(t: Tables, touched: set<string>, clicks: set<string>, today: Time): MetricsTable {
    var clicked := WithClicks(t.impressions, clicks);
    map k | k in t.metrics.Keys + (set a | a in touched :: (a, today)) ::
      if k.1 == today && k.0 in touched then MetricsRow(clicked, k.0, today, Lookup(t.metrics, k))
      else t.metrics[k]
  }

  /** Two impression tables that agree on one ad's counted data give that ad the same counts. */
  lemma {:induction false} SameCounts(i1: ImpressionTable, i2: ImpressionTable, adId: string, today: Time)
    requires i1.Keys == i2.Keys
    requires forall id :: id in i1 ==> (i1[id].adId == adId <==> i2[id].adId == adId)
    requires forall id :: id in i1 && i1[id].adId == adId ==>
      i1[id].timestamp == i2[id].timestamp && i1[id].clicked == i2[id].clicked
    ensures ShownToday(i1, adId, today) == ShownToday(i2, adId, today)
    ensures ClickedToday(i1, adId, today) == ClickedToday(i2, adId, today)
  {
  }

  /** What a batch keeps invariant about the impression table, and its clicked state. */
  ghost predicate ImpressionsAfter(t: Tables, reqs: seq<ReportRequest>, imps: ImpressionTable) {
    && imps.Keys == t.impressions.Keys
    && forall id :: id in imps ==>
         && imps[id].adId == t.impressions[id].adId
         && imps[id].timestamp == t.impressions[id].timestamp
         && (imps[id].clicked <==> t.impressions[id].clicked || id in ClickIds(t.impressions, reqs))
  }

  lemma {:induction false} ClickIdsSnoc(imps: ImpressionTable, reqs: seq<ReportRequest>, r: ReportRequest)
    ensures ClickIds(imps, reqs + [r]) == ClickIds(imps, reqs) + (if IsClickOn(imps, r) then {r.impressionId.value} else {})
    ensures TouchedAds(imps, reqs + [r]) ==
      TouchedAds(imps, reqs) + (if Succeeds(imps, r) then {imps[r.impressionId.value].adId} else {})
  {
    assert forall x :: x in reqs + [r] <==> x in reqs || x == r;
  }

  /** A successful report writes its impression and upserts its ad's today row, nothing more. */
  lemma SuccessShape(t: Tables, req: ReportRequest, today: Time)
    requires Succeeds(t.impressions, req)
    ensures var after := ApplyReport(t, req, today).0;
      var id := req.impressionId.value;
      && after.impressions.Keys == t.impressions.Keys
      && after.metrics == Upsert(after.impressions, t.metrics, t.impressions[id].adId, today)
  {
  }

  /** A failing report leaves the order-free metrics as they were. */
  lemma {:induction false} FinalMetricsFailStep(t: Tables, reqs: seq<ReportRequest>, r: ReportRequest, today: Time)
    requires !Succeeds(t.impressions, r)
    ensures FinalMetrics(t, reqs + [r], today) == FinalMetrics(t, reqs, today)
  {
    ClickIdsSnoc(t.impressions, reqs, r);
    assert ClickIds(t.impressions, reqs + [r]) == ClickIds(t.impressions, reqs);
    assert TouchedAds(t.impressions, reqs + [r]) == TouchedAds(t.impressions, reqs);
  }

  /** The impression half of one batch step. */
  lemma {:induction false} ImpressionsStep(t: Tables, reqs: seq<ReportRequest>, r: ReportRequest, today: Time, mid: Tables)
    requires ImpressionsAfter(t, reqs, mid.impressions)
    ensures ImpressionsAfter(t, reqs + [r], ApplyReport(mid, r, today).0.impressions)
  {
    ClickIdsSnoc(t.impressions, reqs, r);
    assert Succeeds(mid.impressions, r) <==> Succeeds(t.impressions, r);
    ClickedNeverReset(mid, r, today);
    if Succeeds(t.impressions, r) {
      ImpressionEffect(mid, r, today);
    }
  }

  /** A table satisfying `ImpressionsAfter` counts like the original one with the batch's clicks raised. */
  lemma AfterCountsLikeClicks(t: Tables, reqs: seq<ReportRequest>, after: ImpressionTable, adId: string, today: Time)
    requires ImpressionsAfter(t, reqs, after)
    ensures ShownToday(after, adId, today) == ShownToday(WithClicks(t.impressions, ClickIds(t.impressions, reqs)), adId, today)
    ensures ClickedToday(after, adId, today) == ClickedToday(WithClicks(t.impressions, ClickIds(t.impressions, reqs)), adId, today)
  {
    SameCounts(after, WithClicks(t.impressions, ClickIds(t.impressions, reqs)), adId, today);
  }

  /** The row a successful step writes is the order-free one. */
  lemma {:induction false} TouchedRowStep(t: Tables, reqs: seq<ReportRequest>, r: ReportRequest, today: Time,
                                          mid: Tables, after: ImpressionTable)
    requires Succeeds(t.impressions, r)
    requires mid.metrics == FinalMetrics(t, reqs, today)
    requires ImpressionsAfter(t, reqs + [r], after)
    ensures var adId := t.impressions[r.impressionId.value].adId;
      var key := (adId, today);
      && key in FinalMetrics(t, reqs + [r], today)
      && MetricsRow(after, adId, today, Lookup(mid.metrics, key)) == FinalMetrics(t, reqs + [r], today)[key]
  {
    ClickIdsSnoc(t.impressions, reqs, r);
    var adId := t.impressions[r.impressionId.value].adId;
    var key := (adId, today);
    assert adId in TouchedAds(t.impressions, reqs + [r]);
    assert key in (set a | a in TouchedAds(t.impressions, reqs + [r]) :: (a, today));
    AfterCountsLikeClicks(t, reqs + [r], after, adId, today);
    MidLookup(t, reqs, today, mid, adId);
  }

  /** The `(adId, today)` row before the step: recounted if an earlier report touched the ad, else the original. */
  lemma MidLookup(t: Tables, reqs: seq<ReportRequest>, today: Time, mid: Tables, adId: string)
    requires mid.metrics == FinalMetrics(t, reqs, today)
    ensures var key := (adId, today);
      Lookup(mid.metrics, key) ==
        if adId in TouchedAds(t.impressions, reqs)
        then Some(MetricsRow(WithClicks(t.impressions, ClickIds(t.impressions, reqs)), adId, today, Lookup(t.metrics, key)))
        else Lookup(t.metrics, key)
  {
    var key := (adId, today);
    var touchedBefore := TouchedAds(t.impressions, reqs);
    if adId in touchedBefore {
      assert key in (set a | a in touchedBefore :: (a, today));
    } else {
      assert key !in (set a | a in touchedBefore :: (a, today));
    }
  }

  /** The rows a successful step does not write are the order-free ones. */
  lemma {:induction false} OtherRowsStep(t: Tables, reqs: seq<ReportRequest>, r: ReportRequest, today: Time,
                                         mid: Tables, k: (string, Time))
    requires Succeeds(t.impressions, r)
    requires mid.metrics == FinalMetrics(t, reqs, today)
    requires k != (t.impressions[r.impressionId.value].adId, today)
    ensures k in mid.metrics <==> k in FinalMetrics(t, reqs + [r], today)
    ensures k in mid.metrics ==> mid.metrics[k] == FinalMetrics(t, reqs + [r], today)[k]
  {
    ClickIdsSnoc(t.impressions, reqs, r);
    var adId := t.impressions[r.impressionId.value].adId;
    var touched := TouchedAds(t.impressions, reqs + [r]);
    var touchedBefore := TouchedAds(t.impressions, reqs);
    assert k in (set a | a in touched :: (a, today)) <==> k in (set a | a in touchedBefore :: (a, today));
    if k in mid.metrics && k.1 == today && k.0 in touched {
      SameCounts(WithClicks(t.impressions, ClickIds(t.impressions, reqs)),
                 WithClicks(t.impressions, ClickIds(t.impressions, reqs + [r])), k.0, today);
    }
  }

  /** Two maps that agree at `k0` and on every other key are equal. */
  lemma MapsAgree<K, V>(m1: map<K, V>, m2: map<K, V>, k0: K)
    requires k0 in m1 && k0 in m2 && m1[k0] == m2[k0]
    requires forall k :: k != k0 ==> (k in m1 <==> k in m2)
    requires forall k :: k != k0 && k in m1 ==> m1[k] == m2[k]
    ensures m1 == m2
  {
    assert m1.Keys == m2.Keys;
  }

  /** The metrics half of a successful batch step. */
  lemma {:induction false} SuccessMetricsStep(t: Tables, reqs: seq<ReportRequest>, r: ReportRequest, today: Time,
                                              mid: Tables)
    requires Succeeds(t.impressions, r) && Succeeds(mid.impressions, r)
    requires mid.metrics == FinalMetrics(t, reqs, today)
    requires t.impressions[r.impressionId.value].adId == mid.impressions[r.impressionId.value].adId
    requires ImpressionsAfter(t, reqs + [r], ApplyReport(mid, r, today).0.impressions)
    ensures ApplyReport(mid, r, today).0.metrics == FinalMetrics(t, reqs + [r], today)
  {
    var imps := ApplyReport(mid, r, today).0.impressions;
    var adId := t.impressions[r.impressionId.value].adId;
    var key := (adId, today);
    var final := FinalMetrics(t, reqs + [r], today);
    SuccessShape(mid, r, today);
    var written := Upsert(imps, mid.metrics, adId, today);
    TouchedRowStep(t, reqs, r, today, mid, imps);
    forall k | k != key
      ensures k in mid.metrics <==> k in final
      ensures k in mid.metrics ==> mid.metrics[k] == final[k]
    {
      OtherRowsStep(t, reqs, r, today, mid, k);
    }
    MapsAgree(written, final, key);
  }

  /** The single report step of the batch characterization. */
  lemma {:induction false} ApplyAllStep(t: Tables, reqs: seq<ReportRequest>, r: ReportRequest, today: Time, mid: Tables)
    requires ImpressionsAfter(t, reqs, mid.impressions)
    requires mid.metrics == FinalMetrics(t, reqs, today)
    ensures ImpressionsAfter(t, reqs + [r], ApplyReport(mid, r, today).0.impressions)
    ensures ApplyReport(mid, r, today).0.metrics == FinalMetrics(t, reqs + [r], today)
  {
    ImpressionsStep(t, reqs, r, today, mid);
    assert Succeeds(mid.impressions, r) <==> Succeeds(t.impressions, r);
    if !Succeeds(t.impressions, r) {
      FinalMetricsFailStep(t, reqs, r, today);
    } else {
      SuccessMetricsStep(t, reqs, r, today, mid);
    }
  }

  /** A batch raises `clicked` on exactly the clicked ids and its metrics are the order-free `FinalMetrics`. */
  lemma {:induction false} ApplyAllCharacterized(t: Tables, reqs: seq<ReportRequest>, today: Time)
    ensures ImpressionsAfter(t, reqs, ApplyAll(t, reqs, today).impressions)
    ensures ApplyAll(t, reqs, today).metrics == FinalMetrics(t, reqs, today)
    decreases |reqs|
  {
    if reqs == [] {
      assert ClickIds(t.impressions, reqs) == {};
      assert TouchedAds(t.impressions, reqs) == {};
      assert FinalMetrics(t, reqs, today) == t.metrics;
    } else {
      var init := reqs[..|reqs| - 1];
      var r := reqs[|reqs| - 1];
      assert init + [r] == reqs;
      ApplyAllCharacterized(t, init, today);
      ApplyAllStep(t, init, r, today, ApplyAll(t, init, today));
    }
  }

  /**
    Any reordering or duplication of the same reports, on the same day, leaves the same metrics
    table, and the same `clicked` flags.
  */
  lemma ReportsCommute(t: Tables, reqs1: seq<ReportRequest>, reqs2: seq<ReportRequest>, today: Time)
    requires forall r :: r in reqs1 <==> r in reqs2
    ensures ApplyAll(t, reqs1, today).metrics == ApplyAll(t, reqs2, today).metrics
    ensures var i1 := ApplyAll(t, reqs1, today).impressions;
      var i2 := ApplyAll(t, reqs2, today).impressions;
      i1.Keys == i2.Keys && forall id :: id in i1 ==> i1[id].clicked == i2[id].clicked
  {
    ApplyAllCharacterized(t, reqs1, today);
    ApplyAllCharacterized(t, reqs2, today);
    assert ClickIds(t.impressions, reqs1) == ClickIds(t.impressions, reqs2);
    assert TouchedAds(t.impressions, reqs1) == TouchedAds(t.impressions, reqs2);
  }

  /** The store of impressions and metrics rows. */
  class AdStore {
    var impressions: ImpressionTable
    var metrics: MetricsTable

    constructor ()
      ensures impressions == map[] && metrics == map[]
    {
      impressions := map[];
      metrics := map[];
    }

    /**
      `prisma.impression.create` after a selection: a new impression `id` (chosen by the store)
      of `adId` with the question asked, stamped `now`, not clicked, with the session id when
      one is given and no user. Metrics rows are left as they are.
    */
    method CreateImpression(id: string, adId: string, question: string, sessionId: Option<string>, now: Time)
      modifies this
      requires id !in impressions
      ensures impressions == old(impressions)[id := Impression(id, adId, question, now, false,
                                                               if Truthy(sessionId) then sessionId else None, None)]
      ensures metrics == old(metrics)
    {
      var session := if Truthy(sessionId) then sessionId else None;
      impressions := impressions[id := Impression(id, adId, question, now, false, session, None)];
    }

    /** `updateAdMetrics(adId)`. */
    method UpdateAdMetrics(adId: string, today: Time)
      modifies this
      ensures impressions == old(impressions)
      ensures metrics == Upsert(impressions, old(metrics), adId, today)
    {
      var impressionsCount := |ShownToday(impressions, adId, today)|;
      var clicksCount := |ClickedToday(impressions, adId, today)|;
      var ctr := CtrOf(clicksCount, impressionsCount);
      var key := (adId, today);
      if key in metrics {
        metrics := metrics[key := metrics[key].(adId := adId, date := today, impressions := impressionsCount,
                                                clicks := clicksCount, ctr := ctr)];
      } else {
        metrics := metrics[key := AdMetrics(adId, today, impressionsCount, clicksCount, ctr, 0.0)];
      }
    }

    /** `POST /api/report`. */
    method Report(req: ReportRequest, today: Time) returns (r: Response<string>)
      modifies this
      ensures (Tables(impressions, metrics), r) == ApplyReport(Tables(old(impressions), old(metrics)), req, today)
    {
      if !Truthy(req.kind) {
        return Fail(400, "Missing required parameter: type");
      }
      if !Truthy(req.impressionId) {
        return Fail(400, "Missing required parameter: impressionId");
      }
      var id := req.impressionId.value;
      if req.kind.value == ViewKind {
        if id !in impressions {
          return Fail(400, "Invalid impressionId");
        }
        var impression := impressions[id];
        if Truthy(req.sessionId) {
          impressions := impressions[id := impression.(sessionId := req.sessionId)];
        } else {
          impressions := impressions[id := impression];
        }
        UpdateAdMetrics(impression.adId, today);
      } else if req.kind.value == ClickKind {
        if id !in impressions {
          return Fail(400, "Invalid impressionId");
        }
        var impression := impressions[id];
        impressions := impressions[id := impression.(clicked := true)];
        UpdateAdMetrics(impression.adId, today);
      } else {
        return Fail(400, "Invalid type parameter");
      }
      return Ok(id);
    }
  }
}
