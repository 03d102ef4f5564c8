/** The dashboard metrics over the two tables: counts, the high-risk count,
    the mean score, the band distribution of each article's latest score,
    the highest-risk row, and the AI coverage. */
module Analytics {
  import opened Common
  import Risk
  import opened Models

  /** The score from which an inference row counts as high risk (not the
      80 of the `high` band). */
  const HighRiskThreshold: int := 70

  /** The article key, title and score of the highest-risk row. */
  datatype Highest = Highest(articleId: nat, title: string, score: int)

  datatype DashboardMetrics = DashboardMetrics(
    totalArticles: nat,
    aiCoverageRatio: real,
    highRiskArticles: nat,
    averageRiskScore: real,
    highest: Option<Highest>,
    riskDistribution: map<string, nat>)

  // ---------------------------------------------------------------- counts

  /** `count(InferenceResult.id) where risk_score >= 70` */
  function HighRiskCount(inferences: seq<Inference>): (r: nat)
    ensures r <= |inferences|
  {
    if inferences == [] then 0
    else (if inferences[0].riskScore >= HighRiskThreshold then 1 else 0) + HighRiskCount(inferences[1..])
  }

  /** The high-risk count counts rows: it adds up over any split of the
      table, and is the whole table when every score is at least 70 and zero
      when none is. */
  lemma {:induction false} HighRiskCountSplit(xs: seq<Inference>, ys: seq<Inference>)
    ensures HighRiskCount(xs + ys) == HighRiskCount(xs) + HighRiskCount(ys)
  {
    if xs == [] {
      assert xs + ys == ys;
    } else {
      assert (xs + ys)[1..] == xs[1..] + ys;
      HighRiskCountSplit(xs[1..], ys);
    }
  }

  lemma {:induction false} HighRiskCountBounds(xs: seq<Inference>)
    ensures (forall k :: 0 <= k < |xs| ==> xs[k].riskScore >= HighRiskThreshold) ==> HighRiskCount(xs) == |xs|
    ensures (forall k :: 0 <= k < |xs| ==> xs[k].riskScore < HighRiskThreshold) ==> HighRiskCount(xs) == 0
  {
    if xs != [] {
      HighRiskCountBounds(xs[1..]);
      assert forall k :: 1 <= k < |xs| ==> xs[1..][k - 1] == xs[k];
    }
  }

  function SumScores(inferences: seq<Inference>): int {
    if inferences == [] then 0 else inferences[0].riskScore + SumScores(inferences[1..])
  }

  /** `avg(risk_score) or 0.0`, before rounding. */
  function AverageRiskScore(inferences: seq<Inference>): real {
    if inferences == [] then 0.0 else SumScores(inferences) as real / |inferences| as real
  }

  lemma {:induction false} SumScoresBounds(xs: seq<Inference>, lo: int, hi: int)
    requires forall k :: 0 <= k < |xs| ==> lo <= xs[k].riskScore <= hi
    ensures lo * |xs| <= SumScores(xs) <= hi * |xs|
  {
    if xs != [] {
      assert forall k :: 0 <= k < |xs| - 1 ==> xs[1..][k] == xs[k + 1];
      SumScoresBounds(xs[1..], lo, hi);
    }
  }

  /** The mean of scores in [1, 100] is in [1, 100]; with no row it is 0. */
  lemma AverageBounds(xs: seq<Inference>)
    requires forall k :: 0 <= k < |xs| ==> 1 <= xs[k].riskScore <= 100
    ensures xs == [] ==> AverageRiskScore(xs) == 0.0
    ensures xs != [] ==> 1.0 <= AverageRiskScore(xs) <= 100.0
  {
    if xs != [] {
      SumScoresBounds(xs, 1, 100);
      var n := |xs| as real;
      var s := SumScores(xs) as real;
      RealDivBounds(s, n, 1.0, 100.0);
    }
  }

  lemma RealDivBounds(s: real, n: real, lo: real, hi: real)
    requires n > 0.0 && lo * n <= s <= hi * n
    ensures lo <= s / n <= hi
  {
    var q := s / n;
    assert q * n == s;
    assert (q - lo) * n == s - lo * n >= 0.0;
    assert (hi - q) * n == hi * n - s >= 0.0;
  }

  // ---------------------------------------------------------------- distribution

  /** The articles that have rows in the inference table, each once, in
      order of first appearance (the window's partitions). */
  function ScoredArticles(inferences: seq<Inference>): (r: seq<nat>)
    ensures forall id :: id in r <==> exists k :: 0 <= k < |inferences| && inferences[k].articleId == id
    ensures forall i, j :: 0 <= i < j < |r| ==> r[i] != r[j]
  {
    if inferences == [] then []
    else
      var init := inferences[..|inferences| - 1];
      var rest := ScoredArticles(init);
      var id := inferences[|inferences| - 1].articleId;
      assert forall k :: 0 <= k < |init| ==> init[k] == inferences[k];
      if id in rest then rest else rest + [id]
  }

  /** The score of each partition's first row (`rn == 1`): the latest score of each scored article. */
  function LatestScores(inferences: seq<Inference>): (r: seq<int>)
    ensures |r| == |ScoredArticles(inferences)|
  {
    var ids := ScoredArticles(inferences);
    seq(|ids|, i requires 0 <= i < |ids| => assert ids[i] in ids; Latest(inferences, ids[i]).value.riskScore)
  }

  /** The slug of the band `classify` gives a score. */
  function SlugOf(score: int): string {
    Risk.Classify(Some(score)).value.slug
  }

  /** How many of `scores` fall in the band `slug`. */
  function BandCount(scores: seq<int>, slug: string): (r: nat)
    ensures r <= |scores|
  {
    if scores == [] then 0
    else BandCount(scores[..|scores| - 1], slug) + (if SlugOf(scores[|scores| - 1]) == slug then 1 else 0)
  }

  /** Every slug of `keys`, with its count among `scores`. */
  function Tally(keys: seq<string>, scores: seq<int>): map<string, nat> {
    map s | s in keys :: BandCount(scores, s)
  }

  /** The distribution `gather_metrics` builds: every slug, with its count. */
  function Distribution(scores: seq<int>): map<string, nat> {
    Tally(Risk.Slugs(), scores)
  }

  /** The four band counts add up to the number of scores. */
  lemma {:induction false} BandCountsSum(scores: seq<int>)
    ensures BandCount(scores, "high") + BandCount(scores, "elevated") + BandCount(scores, "moderate")
            + BandCount(scores, "low") == |scores|
  {
    if scores != [] {
      BandCountsSum(scores[..|scores| - 1]);
      Risk.ClassifyUnfolded(scores[|scores| - 1]);
    }
  }

  /** The distribution has exactly the four band slugs as keys, counts each
      scored article once in the band of its latest inference, and its counts
      add up to the number of scored articles; an empty table gives four
      zeros. */
  lemma DistributionRule(inferences: seq<Inference>)
    ensures var d := Distribution(LatestScores(inferences));
      d.Keys == {"high", "elevated", "moderate", "low"}
      && d["high"] + d["elevated"] + d["moderate"] + d["low"] == |ScoredArticles(inferences)|
      && (inferences == [] ==> forall s :: s in d ==> d[s] == 0)
  {
    Risk.SlugsInTableOrder();
    BandCountsSum(LatestScores(inferences));
  }

  // ---------------------------------------------------------------- highest risk

  /** `y` comes before `x` in `risk_score desc, created_at desc`. */
  predicate Outranks(y: Inference, x: Inference) {
    y.riskScore > x.riskScore || (y.riskScore == x.riskScore && y.createdAt > x.createdAt)
  }

  /** The rows of the join: inferences whose article is stored. */
  predicate Joined(articles: seq<Article>, x: Inference) {
    HasArticle(articles, x.articleId)
  }

  /** The first row of the join in that order. */
  function HighestRow(articles: seq<Article>, inferences: seq<Inference>): (r: Option<Inference>)
    ensures r.None? <==> forall k :: 0 <= k < |inferences| ==> !Joined(articles, inferences[k])
    ensures r.Some? ==> r.value in inferences && Joined(articles, r.value)
    ensures r.Some? ==> forall k :: 0 <= k < |inferences| && Joined(articles, inferences[k]) ==>
                          !Outranks(inferences[k], r.value)
  {
    if inferences == [] then None
    else
      var init := inferences[..|inferences| - 1];
      var rest := HighestRow(articles, init);
      var last := inferences[|inferences| - 1];
      assert forall k :: 0 <= k < |init| ==> init[k] == inferences[k];
      if !Joined(articles, last) then rest
      else if rest.None? || Outranks(last, rest.value) then Some(last)
      else rest
  }

  /** The stored article with key `id`. */
  function ArticleById(articles: seq<Article>, id: nat): (r: Option<Article>)
    ensures r.Some? ==> r.value in articles && r.value.id == id
    ensures r.None? <==> !HasArticle(articles, id)
  {
    if articles == [] then None
    else if articles[0].id == id then Some(articles[0])
    else
      var r := ArticleById(articles[1..], id);
      assert forall i :: 1 <= i < |articles| ==> articles[i] == articles[1..][i - 1];
      r
  }

  function HighestRisk(articles: seq<Article>, inferences: seq<Inference>): Option<Highest> {
    var row := HighestRow(articles, inferences);
    if row.None? then None
    else Some(Highest(row.value.articleId, ArticleById(articles, row.value.articleId).value.title, row.value.riskScore))
  }

  /** No joined row gives three `None`s; otherwise the triple is a stored
      article's key and title with the largest score of any row, the newest
      among rows that tie on it. */
  lemma HighestRiskRule(articles: seq<Article>, inferences: seq<Inference>)
    ensures var h := HighestRisk(articles, inferences);
      (h.None? <==> forall k :: 0 <= k < |inferences| ==> !Joined(articles, inferences[k]))
      && (h.Some? ==>
            (exists a :: a in articles && a.id == h.value.articleId && a.title == h.value.title)
            && (exists x :: x in inferences && x.articleId == h.value.articleId && x.riskScore == h.value.score)
            && forall k :: 0 <= k < |inferences| && Joined(articles, inferences[k]) ==>
                 inferences[k].riskScore <= h.value.score)
  {
    var row := HighestRow(articles, inferences);
    if row.Some? {
      var a := ArticleById(articles, row.value.articleId).value;
      assert a in articles && a.id == row.value.articleId;
    }
  }

  // ---------------------------------------------------------------- coverage

  /** `min(1.0, inference_count / total_articles)`, 0 with no article (before rounding). */
  function Coverage(articleCount: nat, inferenceCount: nat): real {
    if articleCount == 0 then 0.0
    else if inferenceCount as real / articleCount as real <= 1.0 then inferenceCount as real / articleCount as real
    else 1.0
  }

  lemma CoverageBounds(articleCount: nat, inferenceCount: nat)
    ensures 0.0 <= Coverage(articleCount, inferenceCount) <= 1.0
    ensures articleCount == 0 ==> Coverage(articleCount, inferenceCount) == 0.0
    ensures articleCount > 0 && inferenceCount <= articleCount ==>
      Coverage(articleCount, inferenceCount) == inferenceCount as real / articleCount as real
  {
    if articleCount > 0 && inferenceCount <= articleCount {
      var n := articleCount as real;
      var m := inferenceCount as real;
      assert m / n <= 1.0 by { assert m <= n; }
    }
  }

  // ---------------------------------------------------------------- gather

  /** `gather_metrics(session)` over the two tables. */
  function Metrics(articles: seq<Article>, inferences: seq<Inference>): DashboardMetrics {
    DashboardMetrics(|articles|, Coverage(|articles|, |inferences|), HighRiskCount(inferences),
                     AverageRiskScore(inferences), HighestRisk(articles, inferences),
                     Distribution(LatestScores(inferences)))
  }

  /** Every score's band is one of the slugs. */
  lemma SlugOfInSlugs(score: int)
    ensures SlugOf(score) in Risk.Slugs()
  {
    var band := Risk.Classify(Some(score)).value;
    var j :| 0 <= j < |Risk.Levels| && Risk.Levels[j] == band;
    assert Risk.Slugs()[j] == band.slug;
  }

  /** Counting one more score adds one to its own band only. */
  lemma BandCountSnoc(scores: seq<int>, i: nat, slug: string)
    requires i < |scores|
    ensures BandCount(scores[..i + 1], slug)
            == BandCount(scores[..i], slug) + (if SlugOf(scores[i]) == slug then 1 else 0)
  {
    assert scores[..i + 1][..i] == scores[..i];
  }

  /** `distribution[slug] += 1` */
  function Bump(d: map<string, nat>, slug: string): map<string, nat>
    requires slug in d
  {
    d[slug := d[slug] + 1]
  }

  /** Counting one more score bumps exactly its own band in the tally. */
  lemma TallySnoc(keys: seq<string>, scores: seq<int>, i: nat, d: map<string, nat>)
    requires i < |scores| && SlugOf(scores[i]) in keys && d == Tally(keys, scores[..i])
    ensures SlugOf(scores[i]) in d
    ensures Tally(keys, scores[..i + 1]) == Bump(d, SlugOf(scores[i]))
  {
    var slug := SlugOf(scores[i]);
    var e := Bump(d, slug);
    forall s | s in keys ensures Tally(keys, scores[..i + 1])[s] == e[s] {
      BandCountSnoc(scores, i, s);
    }
    assert Tally(keys, scores[..i + 1]).Keys == e.Keys;
  }

  /** Before any score is counted every band is at zero. */
  lemma TallyEmpty(keys: seq<string>, scores: seq<int>)
    requires scores == []
    ensures Tally(keys, scores) == map s | s in keys :: 0
  {
  }

  /** The counting loop of `gather_metrics` over the latest scores. */
  method CountBands(scores: seq<int>) returns (distribution: map<string, nat>)
    ensures distribution == Distribution(scores)
  {
    var keys := Risk.Slugs();
    distribution := map s | s in keys :: 0;
    TallyEmpty(keys, scores[..0]);
    for i := 0 to |scores|
      invariant distribution == Tally(keys, scores[..i])
    {
      var slug := SlugOf(scores[i]);
      SlugOfInSlugs(scores[i]);
      TallySnoc(keys, scores, i, distribution);
      distribution := Bump(distribution, slug);
    }
    assert scores[..|scores|] == scores;
  }

  /** `gather_metrics`: the counts, the ratios, the highest-risk article and
      the distribution counted by the loop. */
  method GatherMetrics(articles: seq<Article>, inferences: seq<Inference>) returns (m: DashboardMetrics)
    ensures m == Metrics(articles, inferences)
  {
    var distribution := CountBands(LatestScores(inferences));
    m := DashboardMetrics(|articles|, Coverage(|articles|, |inferences|), HighRiskCount(inferences),
                          AverageRiskScore(inferences), HighestRisk(articles, inferences), distribution);
  }


}
