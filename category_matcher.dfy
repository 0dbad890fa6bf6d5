/**
  Maps a free-text question to the category whose keywords it mentions most
  (app/api/ads/route.ts, `CATEGORY_KEYWORDS` and `matchQuestionToCategory`).
*/
module CategoryMatcher {
  import opened Common

  /** Category slugs with their keywords, in the order they are visited. */
  type KeywordTable = seq<(string, seq<string>)>

  /** The keyword table, in declaration order (the order `Object.entries` visits it). */
  const CategoryKeywords: KeywordTable := [
    ("cardiology", ["heart", "cardiac", "cardiovascular", "chest pain", "blood pressure", "cholesterol", "artery", "stroke"]),
    ("neurology", ["brain", "nerve", "neurological", "headache", "migraine", "seizure", "memory", "alzheimer", "parkinson"]),
    ("oncology", ["cancer", "tumor", "oncology", "chemotherapy", "radiation", "carcinoma", "lymphoma", "leukemia"]),
    ("pediatrics", ["child", "children", "kid", "baby", "infant", "pediatric", "vaccination", "growth", "development"])
  ]

  /** The keyword occurs in the question, both lower-cased. */
  predicate KeywordHit(question: string, keyword: string) {
    Contains(ToLower(question), ToLower(keyword))
  }

  /** The score of category `c`: how many of its keywords occur in the question. */
  function Hits(table: KeywordTable, question: string, c: nat): (n: nat)
    requires c < |table|
    ensures n <= |table[c].1|
  {
    Count(table[c].1, k => KeywordHit(question, k))
  }

  /**
    Category `c` wins: its score is positive and at least every other score, and every
    category declared before it scores strictly less (only a larger score replaces the best).
  */
  ghost predicate IsBest(table: KeywordTable, question: string, c: int) {
    && 0 <= c < |table|
    && Hits(table, question, c) > 0
    && (forall d :: 0 <= d < |table| ==> Hits(table, question, d) <= Hits(table, question, c))
    && (forall d :: 0 <= d < c ==> Hits(table, question, d) < Hits(table, question, c))
  }

  lemma BestIsUnique(table: KeywordTable, question: string, c: int, c': int)
    requires IsBest(table, question, c) && IsBest(table, question, c')
    ensures c == c'
  {
  }

  /** Some category scores above zero, then a winner exists. */
  lemma BestExists(table: KeywordTable, question: string, c0: nat)
    requires c0 < |table| && Hits(table, question, c0) > 0
    ensures exists c :: IsBest(table, question, c)
  {
    var best, i := 0, 1;
    while i < |table|
      invariant 0 <= best < i <= |table|
      invariant forall d :: 0 <= d < i ==> Hits(table, question, d) <= Hits(table, question, best)
      invariant forall d :: 0 <= d < best ==> Hits(table, question, d) < Hits(table, question, best)
    {
      if Hits(table, question, i) > Hits(table, question, best) {
        best := i;
      }
      i := i + 1;
    }
    assert IsBest(table, question, best);
  }

  /** The reference answer: the winner's slug, or None when every score is zero. */
  ghost function MatchedCategory(table: KeywordTable, question: string): (r: Option<string>)
  {
    if forall c :: 0 <= c < |table| ==> Hits(table, question, c) == 0 then None
    else
      var c0 :| 0 <= c0 < |table| && Hits(table, question, c0) > 0;
      BestExists(table, question, c0);
      var c :| IsBest(table, question, c);
      Some(table[c].0)
  }

  /** `matchQuestionToCategory`: score every category, then keep the first strictly highest. */
  method BestCategory(table: KeywordTable, question: string) returns (best: Option<string>)
    ensures best == MatchedCategory(table, question)
  {
    var lowerQuestion := ToLower(question);
    var scores: seq<nat> := [];
    for c := 0 to |table|
      invariant |scores| == c
      invariant forall d :: 0 <= d < c ==> scores[d] == Hits(table, question, d)
    {
      var keywords := table[c].1;
      var score: nat := 0;
      for k := 0 to |keywords|
        invariant score == Count(keywords[..k], kw => KeywordHit(question, kw))
      {
        CountSnoc(keywords, k, kw => KeywordHit(question, kw));
        if Contains(lowerQuestion, ToLower(keywords[k])) {
          score := score + 1;
        }
      }
      assert keywords[..|keywords|] == keywords;
      scores := scores + [score];
    }

    best := None;
    var highestScore: nat := 0;
    ghost var bestIndex := -1;
    for c := 0 to |scores|
      invariant forall d :: 0 <= d < c ==> scores[d] <= highestScore
      invariant highestScore == 0 ==> best.None?
      invariant highestScore > 0 ==>
        && 0 <= bestIndex < c
        && scores[bestIndex] == highestScore
        && best == Some(table[bestIndex].0)
        && forall d :: 0 <= d < bestIndex ==> scores[d] < highestScore
    {
      if scores[c] > highestScore {
        highestScore := scores[c];
        best := Some(table[c].0);
        bestIndex := c;
      }
    }
    if highestScore > 0 {
      assert IsBest(table, question, bestIndex);
      BestIsUnique(table, question, bestIndex, MatchedCategoryIndex(table, question));
    } else {
      best := None;
    }
  }

  /** `matchQuestionToCategory` over the fixed table. */
  method MatchQuestionToCategory(question: string) returns (best: Option<string>)
    ensures best == MatchedCategory(CategoryKeywords, question)
  {
    best := BestCategory(CategoryKeywords, question);
  }

  /** The index behind `MatchedCategory` when it is Some. */
  ghost function MatchedCategoryIndex(table: KeywordTable, question: string): (c: int)
    requires exists c0 :: 0 <= c0 < |table| && Hits(table, question, c0) > 0
    ensures IsBest(table, question, c)
    ensures MatchedCategory(table, question) == Some(table[c].0)
  {
    var c0 :| 0 <= c0 < |table| && Hits(table, question, c0) > 0;
    BestExists(table, question, c0);
    var c :| IsBest(table, question, c);
    assert forall c' :: IsBest(table, question, c') ==> c' == c;
    c
  }

  /** Counting over one more element adds that element's contribution. */
  lemma {:induction false} CountSnoc<T>(xs: seq<T>, k: nat, p: T -> bool)
    requires k < |xs|
    ensures Count(xs[..k + 1], p) == Count(xs[..k], p) + (if p(xs[k]) then 1 else 0)
  {
    FilterAppend(xs[..k], [xs[k]], p);
    assert xs[..k + 1] == xs[..k] + [xs[k]];
  }

  lemma {:induction false} FilterAppend<T>(xs: seq<T>, ys: seq<T>, p: T -> bool)
    ensures Filter(xs + ys, p) == Filter(xs, p) + Filter(ys, p)
    decreases |xs|
  {
    if xs == [] {
      assert xs + ys == ys;
    } else {
      assert (xs + ys)[1..] == xs[1..] + ys;
      FilterAppend(xs[1..], ys, p);
    }
  }

  /** No match exactly when no keyword of any category occurs in the question, ignoring case. */
  lemma MatchedNoneIff(table: KeywordTable, question: string)
    ensures MatchedCategory(table, question).None? <==>
      forall c, k :: 0 <= c < |table| && 0 <= k < |table[c].1| ==>
        !KeywordHit(question, table[c].1[k])
  {
    forall c | 0 <= c < |table|
      ensures Hits(table, question, c) == 0 <==>
        forall k :: 0 <= k < |table[c].1| ==> !KeywordHit(question, table[c].1[k])
    {
      CountZero(table[c].1, k => KeywordHit(question, k));
    }
  }

  /** A match is the winning category: highest score, earliest among equal scores. */
  lemma MatchedIsBest(table: KeywordTable, question: string)
    requires MatchedCategory(table, question).Some?
    ensures exists c :: IsBest(table, question, c) && MatchedCategory(table, question) == Some(table[c].0)
  {
    var c := MatchedCategoryIndex(table, question);
  }
}
