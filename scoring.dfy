/**
  The weighted score of a candidate ad (app/api/ads/route.ts, `WEIGHTS`,
  `calculateAdScore`, `calculateAdSpend`). The store is a snapshot: the
  metrics table and the impressions table as sequences. Scores are reals.
*/
module Scoring {
  import opened Common
  import opened Entities

  const KeywordRelevanceWeight: real := 0.5
  const PerformanceWeight: real := 0.3
  const FreshnessWeight: real := 0.1
  const BudgetWeight: real := 0.1

  /** Midnight thirty days before today's midnight: the start of the performance window. */
  function WindowStart(today: Time): Time {
    today - 30 * DayMs
  }

  /** The window query's condition: a row of the ad dated on or after the window start. */
  function InWindow(adId: string, today: Time): AdMetrics -> bool {
    (m: AdMetrics) => m.adId == adId && m.date >= WindowStart(today)
  }

  /** The condition of a query for all of the ad's rows. */
  function RowOf(adId: string): AdMetrics -> bool {
    (m: AdMetrics) => m.adId == adId
  }

  function RowImpressions(m: AdMetrics): nat { m.impressions }
  function RowClicks(m: AdMetrics): nat { m.clicks }
  function RowSpend(m: AdMetrics): real { m.spend }

  /** The ad's metrics rows dated on or after the window start, in table order. */
  function WindowRows(metrics: seq<AdMetrics>, adId: string, today: Time): (rows: seq<AdMetrics>)
    ensures forall m :: m in rows <==> m in metrics && m.adId == adId && m.date >= WindowStart(today)
  {
    var rows := Filter(metrics, InWindow(adId, today));
    forall m | m in metrics && m.adId == adId && m.date >= WindowStart(today)
      ensures m in rows
    {
      FilterKeeps(metrics, InWindow(adId, today), m);
    }
    rows
  }

  function TotalImpressions(rows: seq<AdMetrics>): nat {
    SumNat(rows, RowImpressions)
  }

  function TotalClicks(rows: seq<AdMetrics>): nat {
    SumNat(rows, RowClicks)
  }

  /** Click-through rate over the rows: summed clicks over summed impressions, 0 without impressions. */
  function Ctr(rows: seq<AdMetrics>): real {
    if TotalImpressions(rows) > 0 then TotalClicks(rows) as real / TotalImpressions(rows) as real else 0.0
  }

  /** Rows whose clicks never exceed their impressions give a rate between 0 and 1. */
  lemma CtrBounds(rows: seq<AdMetrics>)
    requires forall i :: 0 <= i < |rows| ==> rows[i].clicks <= rows[i].impressions
    ensures 0.0 <= Ctr(rows) <= 1.0
    ensures TotalImpressions(rows) == 0 ==> Ctr(rows) == 0.0
  {
    SumNatMonotone(rows, RowClicks, RowImpressions);
    assert TotalClicks(rows) <= TotalImpressions(rows);
  }

  /**
    The time of the ad's most recent impression (`findFirst` ordered by timestamp, descending),
    or None when it was never shown.
  */
  function LastShown(impressions: seq<Impression>, adId: string): (r: Option<Time>)
    ensures r.None? <==> forall i :: 0 <= i < |impressions| ==> impressions[i].adId != adId
    ensures r.Some? ==>
      && (exists i :: 0 <= i < |impressions| && impressions[i].adId == adId && impressions[i].timestamp == r.value)
      && (forall i :: 0 <= i < |impressions| && impressions[i].adId == adId ==> impressions[i].timestamp <= r.value)
  {
    if impressions == [] then None
    else
      var last := impressions[|impressions| - 1];
      var earlier := LastShown(impressions[..|impressions| - 1], adId);
      if last.adId != adId then earlier
      else if earlier.Some? && earlier.value >= last.timestamp then earlier
      else Some(last.timestamp)
  }

  /** 1.0 for a never-shown ad, else the hours since it was last shown over 24, capped at 1. */
  function Freshness(lastShown: Option<Time>, now: Time): real {
    if lastShown.None? then 1.0
    else Min(((now - lastShown.value) as real / HourMs as real) / 24.0, 1.0)
  }

  lemma FreshnessBounds(lastShown: Option<Time>, now: Time)
    ensures lastShown.None? ==> Freshness(lastShown, now) == 1.0
    ensures lastShown.Some? && lastShown.value <= now ==> 0.0 <= Freshness(lastShown, now) <= 1.0
    ensures lastShown.Some? && now - lastShown.value >= 24 * HourMs ==> Freshness(lastShown, now) == 1.0
    ensures lastShown.Some? && 0 <= now - lastShown.value < 24 * HourMs ==>
      Freshness(lastShown, now) == (now - lastShown.value) as real / (24 * HourMs) as real
  {
  }

  /** `calculateAdSpend`: the spend summed over every metrics row of the ad, not windowed. */
  function CalculateAdSpend(metrics: seq<AdMetrics>, adId: string): real {
    SumReal(Filter(metrics, RowOf(adId)), RowSpend)
  }

  lemma {:induction false} SpendNonNegative(rows: seq<AdMetrics>)
    requires forall i :: 0 <= i < |rows| ==> rows[i].spend >= 0.0
    ensures SumReal(rows, RowSpend) >= 0.0
    decreases |rows|
  {
    if rows != [] {
      SpendNonNegative(rows[..|rows| - 1]);
    }
  }

  /**
    The budget signal. It is computed only when both `budget` and `spendCap` are truthy
    (present and non-zero); otherwise it is 1.0.
  */
  function BudgetScore(ad: Ad, spent: real): real {
    if TruthyNumber(ad.budget) && TruthyNumber(ad.spendCap) then
      Max(0.0, ad.budget.value - spent) / ad.budget.value
    else 1.0
  }

  lemma BudgetScoreFacts(ad: Ad, spent: real)
    ensures !TruthyNumber(ad.budget) || !TruthyNumber(ad.spendCap) ==> BudgetScore(ad, spent) == 1.0
    ensures spent >= 0.0 ==> 0.0 <= BudgetScore(ad, spent) <= 1.0
    ensures TruthyNumber(ad.spendCap) && ad.budget.Some? && ad.budget.value > 0.0 && 0.0 <= spent <= ad.budget.value ==>
      BudgetScore(ad, spent) == (ad.budget.value - spent) / ad.budget.value
    ensures TruthyNumber(ad.budget) && TruthyNumber(ad.spendCap) && spent >= ad.budget.value >= 0.0 ==>
      BudgetScore(ad, spent) == 0.0
  {
    if TruthyNumber(ad.budget) && TruthyNumber(ad.spendCap) && spent >= 0.0 {
      var b := ad.budget.value;
      if b > 0.0 {
        assert Max(0.0, b - spent) <= b;
        DivBounds(Max(0.0, b - spent), b);
      } else {
        assert Max(0.0, b - spent) == 0.0;
      }
    }
  }

  lemma DivBounds(x: real, b: real)
    requires b > 0.0 && 0.0 <= x <= b
    ensures 0.0 <= x / b <= 1.0
  {
  }

  /** The fixed-weight combination of the four signals. */
  function WeightedScore(relevance: real, ctr: real, freshness: real, budget: real): real {
    relevance * KeywordRelevanceWeight + ctr * PerformanceWeight + freshness * FreshnessWeight + budget * BudgetWeight
  }

  /** The score `calculateAdScore` computes from the snapshot. */
  function AdScore(ad: Ad, relevance: real, metrics: seq<AdMetrics>, impressions: seq<Impression>, now: Time, today: Time): real {
    WeightedScore(
      relevance,
      Ctr(WindowRows(metrics, ad.id, today)),
      Freshness(LastShown(impressions, ad.id), now),
      BudgetScore(ad, CalculateAdSpend(metrics, ad.id)))
  }

  /** The weights sum to one, so signals in [0, 1] give a score in [0, 1]. */
  lemma WeightedScoreBounds(relevance: real, ctr: real, freshness: real, budget: real)
    requires 0.0 <= relevance <= 1.0 && 0.0 <= ctr <= 1.0 && 0.0 <= freshness <= 1.0 && 0.0 <= budget <= 1.0
    ensures KeywordRelevanceWeight + PerformanceWeight + FreshnessWeight + BudgetWeight == 1.0
    ensures 0.0 <= WeightedScore(relevance, ctr, freshness, budget) <= 1.0
  {
  }

  /**
    With a relevance in [0, 1], clicks never above impressions, no impression of the ad in the
    future and no negative spend, the score lies in [0, 1].
  */
  lemma AdScoreBounds(ad: Ad, relevance: real, metrics: seq<AdMetrics>, impressions: seq<Impression>, now: Time, today: Time)
    requires 0.0 <= relevance <= 1.0
    requires forall i :: 0 <= i < |metrics| ==> metrics[i].clicks <= metrics[i].impressions && metrics[i].spend >= 0.0
    requires forall i :: 0 <= i < |impressions| ==> impressions[i].timestamp <= now
    ensures 0.0 <= AdScore(ad, relevance, metrics, impressions, now, today) <= 1.0
  {
    var rows := WindowRows(metrics, ad.id, today);
    forall i | 0 <= i < |rows| ensures rows[i].clicks <= rows[i].impressions {
      assert rows[i] in rows;
    }
    CtrBounds(rows);
    var last := LastShown(impressions, ad.id);
    FreshnessBounds(last, now);
    var own := Filter(metrics, RowOf(ad.id));
    forall i | 0 <= i < |own| ensures own[i].spend >= 0.0 {
      assert own[i] in own;
    }
    SpendNonNegative(own);
    BudgetScoreFacts(ad, CalculateAdSpend(metrics, ad.id));
    WeightedScoreBounds(relevance, Ctr(rows), Freshness(last, now), BudgetScore(ad, CalculateAdSpend(metrics, ad.id)));
  }

  /** The loop of `calculateAdScore` that adds up the window rows' impressions and clicks. */
  method SumWindow(rows: seq<AdMetrics>) returns (totalImpressions: nat, totalClicks: nat)
    ensures totalImpressions == TotalImpressions(rows)
    ensures totalClicks == TotalClicks(rows)
  {
    totalImpressions, totalClicks := 0, 0;
    for i := 0 to |rows|
      invariant totalImpressions == TotalImpressions(rows[..i])
      invariant totalClicks == TotalClicks(rows[..i])
    {
      assert rows[..i + 1][..i] == rows[..i];
      totalImpressions := totalImpressions + rows[i].impressions;
      totalClicks := totalClicks + rows[i].clicks;
    }
    assert rows[..|rows|] == rows;
  }

  /**
    `calculateAdScore`: sums the window rows' impressions and clicks, then combines
    the rate, the freshness and the budget signal with the fixed weights.
  */
  method CalculateAdScore(ad: Ad, categoryRelevance: real, metrics: seq<AdMetrics>, impressions: seq<Impression>, now: Time, today: Time)
    returns (score: real)
    ensures score == AdScore(ad, categoryRelevance, metrics, impressions, now, today)
  {
    var rows := WindowRows(metrics, ad.id, today);
    var totalImpressions, totalClicks := SumWindow(rows);
    var ctr := if totalImpressions > 0 then totalClicks as real / totalImpressions as real else 0.0;
    assert ctr == Ctr(rows);

    var lastImpression := LastShown(impressions, ad.id);
    var freshnessScore := 1.0;
    if lastImpression.Some? {
      var hoursSinceLastShown := (now - lastImpression.value) as real / HourMs as real;
      freshnessScore := Min(hoursSinceLastShown / 24.0, 1.0);
    }
    assert freshnessScore == Freshness(lastImpression, now);

    var budgetScore := 1.0;
    if TruthyNumber(ad.budget) && TruthyNumber(ad.spendCap) {
      var spent := CalculateAdSpend(metrics, ad.id);
      var remainingBudget := Max(0.0, ad.budget.value - spent);
      budgetScore := remainingBudget / ad.budget.value;
    }
    assert budgetScore == BudgetScore(ad, CalculateAdSpend(metrics, ad.id));

    score := categoryRelevance * KeywordRelevanceWeight + ctr * PerformanceWeight
      + freshnessScore * FreshnessWeight + budgetScore * BudgetWeight;
  }

  /**
    A worked example: a never-shown cardiology ad that matches scores 0.7; an
    oncology ad with a 100% rate shown an hour ago scores 0.3 + 0.1/24 + 0.1; the first is higher.
  */
  lemma FreshRelevantAdWins(cardiology: Ad, oncology: Ad, row: AdMetrics, now: Time, today: Time)
    requires cardiology.budget.None? && oncology.budget.None?
    requires row == AdMetrics(oncology.id, today, 1, 1, 1.0, 0.0) && cardiology.id != oncology.id
    ensures AdScore(cardiology, 1.0, [row], [Impression("i1", oncology.id, "", now - HourMs, true, None, None)], now, today) == 0.7
    ensures AdScore(oncology, 0.0, [row], [Impression("i1", oncology.id, "", now - HourMs, true, None, None)], now, today)
      == 0.4 + 0.1 / 24.0
    ensures 0.4 + 0.1 / 24.0 < 0.7
  {
    var imps := [Impression("i1", oncology.id, "", now - HourMs, true, None, None)];
    assert WindowRows([row], cardiology.id, today) == [];
    assert LastShown(imps, cardiology.id) == None;
    assert WindowRows([row], oncology.id, today) == [row];
    assert [row][..0] == [];
    assert SumNat([row], RowImpressions) == SumNat([row][..0], RowImpressions) + RowImpressions(row);
    assert SumNat([row], RowClicks) == SumNat([row][..0], RowClicks) + RowClicks(row);
    assert LastShown(imps, oncology.id) == Some(now - HourMs);
  }

  /** A worked example: budget 1000 with 400 spent leaves 0.6, once a spend cap is set. */
  lemma BudgetExample(ad: Ad)
    requires ad.budget == Some(1000.0) && TruthyNumber(ad.spendCap)
    ensures BudgetScore(ad, 400.0) == 0.6
  {
  }
}
