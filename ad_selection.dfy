/**
  The selection flow of the ad endpoints (app/api/ads/route.ts, `POST` and
  `GET`): the eligibility filter, the random pick for an empty question,
  the category-filtered candidates, the random fallback over at most five
  eligible ads, and the scored path that keeps the highest score.
  `Math.random()` is the parameter `roll` in [0, 1); the clock is `now`.
*/
module AdSelection {
  import opened Common
  import opened Entities
  import opened CategoryMatcher
  import opened Scoring

  /** The `where` of every ad query: active, started (or no start), not ended (or no end). */
  predicate Eligible(ad: Ad, now: Time) {
    && ad.status == Active
    && (ad.startDate.None? || ad.startDate.value <= now)
    && (ad.endDate.None? || ad.endDate.value >= now)
  }

  function EligibleAt(now: Time): Ad -> bool {
    (ad: Ad) => Eligible(ad, now)
  }

  function HasSlug(slug: string): Ad -> bool {
    (ad: Ad) => ad.categorySlug == slug
  }

  /** Every eligible ad, in the order the store returns them. */
  function EligibleAds(ads: seq<Ad>, now: Time): (r: seq<Ad>)
    ensures IsSubsequence(r, ads)
    ensures forall a :: a in r <==> a in ads && Eligible(a, now)
  {
    FilterExactly(ads, EligibleAt(now));
    Filter(ads, EligibleAt(now))
  }

  /** The candidates: eligible ads, restricted to the matched category's slug when there is one. */
  function CandidateAds(ads: seq<Ad>, now: Time, matched: Option<string>): (r: seq<Ad>)
    ensures IsSubsequence(r, EligibleAds(ads, now))
    ensures forall a :: a in r <==> a in ads && Eligible(a, now) && (matched.None? || a.categorySlug == matched.value)
  {
    if matched.None? then IsSubsequenceRefl(EligibleAds(ads, now)); EligibleAds(ads, now)
    else
      FilterExactly(EligibleAds(ads, now), HasSlug(matched.value));
      Filter(EligibleAds(ads, now), HasSlug(matched.value))
  }

  /** The most fallback candidates one query fetches (`take: 5`). */
  const FallbackLimit: nat := 5

  /** The fallback query: the first eligible ads, at most five of them. */
  function FallbackAds(ads: seq<Ad>, now: Time): (r: seq<Ad>)
    ensures |r| <= FallbackLimit
    ensures |r| <= |EligibleAds(ads, now)| && r == EligibleAds(ads, now)[..|r|]
    ensures forall a :: a in r ==> a in ads && Eligible(a, now)
  {
    Take(EligibleAds(ads, now), FallbackLimit)
  }

  /** `Math.floor(Math.random() * n)` for a draw `roll` in [0, 1). */
  function RandomIndex(roll: real, n: nat): (i: nat)
    requires 0.0 <= roll < 1.0 && n > 0
    ensures i < n
  {
    RollBelow(roll, n);
    (roll * n as real).Floor
  }

  lemma RollBelow(roll: real, n: nat)
    requires 0.0 <= roll < 1.0 && n > 0
    ensures 0.0 <= roll * n as real < n as real
  {
  }

  /** The random pick among a non-empty list of ads. */
  function Pick(candidates: seq<Ad>, roll: real): (a: Ad)
    requires 0.0 <= roll < 1.0 && candidates != []
    ensures a in candidates
  {
    candidates[RandomIndex(roll, |candidates|)]
  }

  /** The relevance signal: 1.0 when the ad's slug is the matched category, else 0.0. */
  function Relevance(ad: Ad, matched: Option<string>): real {
    if matched.Some? && ad.categorySlug == matched.value then 1.0 else 0.0
  }

  /** The candidates all share one relevance: 1.0 when a category matched, 0.0 when none did. */
  lemma RelevanceUniform(ads: seq<Ad>, now: Time, matched: Option<string>)
    ensures forall a :: a in CandidateAds(ads, now, matched) ==>
      Relevance(a, matched) == if matched.Some? then 1.0 else 0.0
  {
  }

  /** The scores of the candidates, in candidate order. */
  function CandidateScores(candidates: seq<Ad>, matched: Option<string>, metrics: seq<AdMetrics>,
                           impressions: seq<Impression>, now: Time, today: Time): (s: seq<real>)
    ensures |s| == |candidates|
  {
    seq(|candidates|, i requires 0 <= i < |candidates| =>
      AdScore(candidates[i], Relevance(candidates[i], matched), metrics, impressions, now, today))
  }

  /**
    Index `k` is where a stable descending sort puts its first element: a highest score, and
    no earlier index with the same score.
  */
  predicate IsFirstMax(scores: seq<real>, k: int) {
    && 0 <= k < |scores|
    && (forall j :: 0 <= j < |scores| ==> scores[j] <= scores[k])
    && (forall j :: 0 <= j < k ==> scores[j] < scores[k])
  }

  /** `adScores.sort((a, b) => b.score - a.score)[0]`: the head of the stable descending sort. */
  method HighestScoring(scores: seq<real>) returns (k: nat)
    requires scores != []
    ensures IsFirstMax(scores, k)
  {
    k := 0;
    for i := 1 to |scores|
      invariant k < i
      invariant forall j :: 0 <= j < i ==> scores[j] <= scores[k]
      invariant forall j :: 0 <= j < k ==> scores[j] < scores[k]
    {
      if scores[i] > scores[k] {
        k := i;
      }
    }
  }

  /** How the ad was chosen. */
  datatype SelectionPath = RandomPick | FallbackPick | ScoredPick

  /** The chosen ad and the question its impression records. */
  datatype Selection = Selection(ad: Ad, question: string, path: SelectionPath)

  /** The two handlers differ only in where they read the request and in one 404 message. */
  datatype Verb = Post | Get

  /** `body.question || ''` and `searchParams.get('question') || ''`. */
  function QuestionOf(raw: Option<string>): (q: string)
    ensures raw.Some? ==> q == raw.value
    ensures raw.None? ==> q == ""
  {
    if raw.Some? then raw.value else ""
  }

  /** The scoring loop: each candidate scored in turn with its category relevance, 1 or 0. */
  method ScoreCandidates(activeAds: seq<Ad>, matchedCategory: Option<string>, metrics: seq<AdMetrics>,
                         impressions: seq<Impression>, now: Time, today: Time) returns (adScores: seq<real>)
    ensures adScores == CandidateScores(activeAds, matchedCategory, metrics, impressions, now, today)
  {
    adScores := [];
    for i := 0 to |activeAds|
      invariant |adScores| == i
      invariant forall j :: 0 <= j < i ==>
        adScores[j] == AdScore(activeAds[j], Relevance(activeAds[j], matchedCategory), metrics, impressions, now, today)
    {
      var categoryRelevance := if matchedCategory.Some? && activeAds[i].categorySlug == matchedCategory.value then 1.0 else 0.0;
      var score := CalculateAdScore(activeAds[i], categoryRelevance, metrics, impressions, now, today);
      adScores := adScores + [score];
    }
  }

  /**
    What a selection over a store snapshot answers: a served ad is in the store and eligible; the
    only failure is a 404. An empty question picks at random among all eligible ads and records the
    question ''. Otherwise the candidates are the eligible ads of the matched category (all eligible
    ads when nothing matched); when there are none the pick is random among at most five eligible
    ads, without scoring; otherwise the first candidate with the highest score wins.
  */
  ghost predicate SelectionMeets(ads: seq<Ad>, metrics: seq<AdMetrics>, impressions: seq<Impression>,
                                 rawQuestion: Option<string>, now: Time, today: Time, roll: real,
                                 r: Response<Selection>)
    requires 0.0 <= roll < 1.0
  {
    && (r.Ok? ==> r.body.ad in ads && Eligible(r.body.ad, now))
    && (r.Fail? ==> r.status == 404)
    && (QuestionOf(rawQuestion) == "" ==>
      && (r.Fail? <==> EligibleAds(ads, now) == [])
      && (r.Ok? ==> r.body == Selection(Pick(EligibleAds(ads, now), roll), "", RandomPick)))
    && (QuestionOf(rawQuestion) != "" ==>
      var question := QuestionOf(rawQuestion);
      var matched := MatchedCategory(CategoryKeywords, question);
      var candidates := CandidateAds(ads, now, matched);
      && (candidates == [] ==>
            && (r.Fail? <==> FallbackAds(ads, now) == [])
            && (r.Ok? ==> r.body == Selection(Pick(FallbackAds(ads, now), roll), question, FallbackPick)))
      && (candidates != [] ==>
            && r.Ok? && r.body.question == question && r.body.path == ScoredPick
            && exists k :: IsFirstMax(CandidateScores(candidates, matched, metrics, impressions, now, today), k)
                        && r.body.ad == candidates[k]))
  }

  /**
    The selection flow of one request over a store snapshot. An empty question picks at random
    among all eligible ads and records the question ''. Otherwise the candidates are the eligible
    ads of the matched category (all eligible ads when nothing matched); when there are none the
    pick is random among at most five eligible ads, without scoring; otherwise every candidate is
    scored and the first highest score wins. An empty pool on either random path is a 404.
  */
  method SelectAd(verb: Verb, ads: seq<Ad>, metrics: seq<AdMetrics>, impressions: seq<Impression>,
                  rawQuestion: Option<string>, now: Time, today: Time, roll: real)
    returns (r: Response<Selection>)
    requires 0.0 <= roll < 1.0
    ensures r.Ok? ==> r.body.ad in ads && Eligible(r.body.ad, now)
    ensures r.Fail? ==> r.status == 404
    ensures QuestionOf(rawQuestion) == "" ==>
      && (r.Fail? <==> EligibleAds(ads, now) == [])
      && (r.Ok? ==> r.body == Selection(Pick(EligibleAds(ads, now), roll), "", RandomPick))
    ensures QuestionOf(rawQuestion) != "" ==>
      var question := QuestionOf(rawQuestion);
      var matched := MatchedCategory(CategoryKeywords, question);
      var candidates := CandidateAds(ads, now, matched);
      && (candidates == [] ==>
            && (r.Fail? <==> FallbackAds(ads, now) == [])
            && (r.Ok? ==> r.body == Selection(Pick(FallbackAds(ads, now), roll), question, FallbackPick)))
      && (candidates != [] ==>
            && r.Ok? && r.body.question == question && r.body.path == ScoredPick
            && exists k :: IsFirstMax(CandidateScores(candidates, matched, metrics, impressions, now, today), k)
                        && r.body.ad == candidates[k])
    ensures SelectionMeets(ads, metrics, impressions, rawQuestion, now, today, roll, r)
    ensures r.Fail? ==> r.message == (if QuestionOf(rawQuestion) != "" && verb == Post then "No fallback ads available"
                                      else "No active ads available")
  {
    var question := QuestionOf(rawQuestion);
    if question == "" {
      var activeAds := EligibleAds(ads, now);
      if activeAds == [] {
        return Fail(404, "No active ads available");
      }
      var randomAd := activeAds[RandomIndex(roll, |activeAds|)];
      return Ok(Selection(randomAd, "", RandomPick));
    }

    var matchedCategory := MatchQuestionToCategory(question);
    var activeAds := CandidateAds(ads, now, matchedCategory);
    if activeAds == [] {
      var fallbackAds := FallbackAds(ads, now);
      if fallbackAds == [] {
        var message := if verb == Post then "No fallback ads available" else "No active ads available";
        return Fail(404, message);
      }
      var randomAd := fallbackAds[RandomIndex(roll, |fallbackAds|)];
      return Ok(Selection(randomAd, question, FallbackPick));
    }

    var adScores := ScoreCandidates(activeAds, matchedCategory, metrics, impressions, now, today);
    var best := HighestScoring(adScores);
    r := Ok(Selection(activeAds[best], question, ScoredPick));
  }

  /** No eligible ad anywhere: every request, with or without a question, is a 404. */
  lemma NoEligibleAdsMeansNotFound(ads: seq<Ad>, now: Time, matched: Option<string>)
    requires EligibleAds(ads, now) == []
    ensures CandidateAds(ads, now, matched) == [] && FallbackAds(ads, now) == []
  {
    if matched.Some? {
      assert CandidateAds(ads, now, matched) == Filter([], HasSlug(matched.value));
    }
  }

  /**
    When the matched category has no eligible ad but other ads are eligible, the fallback pool is
    not empty and holds the first min(5, n) eligible ads.
  */
  lemma FallbackWidens(ads: seq<Ad>, now: Time)
    requires EligibleAds(ads, now) != []
    ensures FallbackAds(ads, now) != []
    ensures |FallbackAds(ads, now)| == if |EligibleAds(ads, now)| < 5 then |EligibleAds(ads, now)| else 5
  {
  }
}
