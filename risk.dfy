/** The risk bands: a constant table, most severe first, and a first-match
    classifier from scores to bands. */
module Risk {
  import opened Common

  datatype RiskBand = RiskBand(
    slug: string,
    name: string,
    badge: string,
    description: string,
    minScore: int,
    maxScore: Option<int>)

  const High: RiskBand := RiskBand("high", "High", "要警戒", "重大インシデントが想定される高リスク", 80, None)
  const Elevated: RiskBand := RiskBand("elevated", "Elevated", "注意", "被害拡大の恐れがあるリスク", 60, Some(79))
  const Moderate: RiskBand := RiskBand("moderate", "Moderate", "観測", "状況把握が必要な中程度リスク", 40, Some(59))
  const Low: RiskBand := RiskBand("low", "Low", "低リスク", "深刻な影響は想定されにくい", 0, Some(39))

  /** `_LEVELS`, which `levels()` returns. */
  const Levels: seq<RiskBand> := [High, Elevated, Moderate, Low]

  /** The test `classify` applies to one band. */
  predicate Matches(band: RiskBand, score: int) {
    if band.maxScore.None? then score >= band.minScore
    else band.minScore <= score <= band.maxScore.value
  }

  /** The first band of `bands` that matches `score`. */
  function FirstMatch(bands: seq<RiskBand>, score: int): (r: Option<RiskBand>)
    ensures r.Some? ==> r.value in bands && Matches(r.value, score)
    ensures r.None? ==> forall b :: b in bands ==> !Matches(b, score)
  {
    if bands == [] then None
    else if Matches(bands[0], score) then Some(bands[0])
    else FirstMatch(bands[1..], score)
  }

  /** `classify(score)`: `None` for no score; otherwise the first matching
      band, or the last band when none matches. */
  function Classify(score: Option<int>): (r: Option<RiskBand>)
    ensures r.None? <==> score.None?
    ensures r.Some? ==> r.value in Levels
  {
    if score.None? then None
    else Some(FirstMatch(Levels, score.value).GetOr(Levels[|Levels| - 1]))
  }

  /** The first-match scan over the table, unfolded. */
  lemma ClassifyUnfolded(score: int)
    ensures Classify(Some(score)) == Some(
      if score >= 80 then High
      else if score >= 60 then Elevated
      else if score >= 40 then Moderate
      else Low)
  {
    var rest := [Elevated, Moderate, Low];
    assert Levels == [High] + rest;
    assert rest[1..] == [Moderate, Low];
    assert rest[1..][1..] == [Low];
    assert rest[1..][1..][1..] == [];
    if score >= 80 {
      assert Matches(High, score);
    } else {
      assert FirstMatch(Levels, score) == FirstMatch(rest, score);
      if score < 60 {
        assert FirstMatch(rest, score) == FirstMatch([Moderate, Low], score);
        if score < 40 {
          assert FirstMatch([Moderate, Low], score) == FirstMatch([Low], score);
        }
      }
    }
  }

  /** Every integer score gets a band; a non-negative one gets a band that
      matches it, and a score no band matches (a negative one) gets `low`. */
  lemma ClassifyTotal(score: int)
    ensures Classify(Some(score)).Some?
    ensures score >= 0 ==> Matches(Classify(Some(score)).value, score)
    ensures score < 0 ==> Classify(Some(score)) == Some(Low)
  {
    ClassifyUnfolded(score);
  }

  /** The thresholds: 80 and above is `high`, 60-79 `elevated`, 40-59
      `moderate`, and everything below 40 `low`, in both directions. */
  lemma ClassifyThresholds(score: int)
    ensures Classify(Some(score)) == Some(High) <==> score >= 80
    ensures Classify(Some(score)) == Some(Elevated) <==> 60 <= score <= 79
    ensures Classify(Some(score)) == Some(Moderate) <==> 40 <= score <= 59
    ensures Classify(Some(score)) == Some(Low) <==> score <= 39
  {
    ClassifyUnfolded(score);
  }

  /** The bands do not overlap, leave no gap above zero, and only the first
      one is open above. */
  lemma BandsPartition(score: int)
    ensures forall i, j :: 0 <= i < j < |Levels| ==> !(Matches(Levels[i], score) && Matches(Levels[j], score))
    ensures score >= 0 ==> exists i :: 0 <= i < |Levels| && Matches(Levels[i], score)
    ensures forall i :: 0 <= i < |Levels| ==> (Levels[i].maxScore.None? <==> i == 0)
  {
    if score >= 0 {
      if score >= 80 { assert Matches(Levels[0], score); }
      else if score >= 60 { assert Matches(Levels[1], score); }
      else if score >= 40 { assert Matches(Levels[2], score); }
      else { assert Matches(Levels[3], score); }
    }
  }

  /** A band's severity: 3 for `high` down to 0 for `low`. */
  function Severity(band: RiskBand): int {
    if band == High then 3
    else if band == Elevated then 2
    else if band == Moderate then 1
    else 0
  }

  /** A higher score never maps to a less severe band. */
  lemma ClassifyMonotone(s: int, t: int)
    requires s <= t
    ensures Severity(Classify(Some(s)).value) <= Severity(Classify(Some(t)).value)
  {
    ClassifyThresholds(s);
    ClassifyThresholds(t);
  }

  /** The band of `bands` whose slug is `slug`. */
  function FindSlug(bands: seq<RiskBand>, slug: string): (r: Option<RiskBand>)
    ensures r.Some? ==> r.value in bands && r.value.slug == slug
    ensures r.None? ==> forall b :: b in bands ==> b.slug != slug
  {
    if bands == [] then None
    else if bands[0].slug == slug then Some(bands[0])
    else FindSlug(bands[1..], slug)
  }

  /** `level_by_slug(slug)` */
  function LevelBySlug(slug: Option<string>): Option<RiskBand> {
    if slug.None? || slug.value == [] then None
    else FindSlug(Levels, Lower(slug.value))
  }

  /** `slugs()`: the slugs in table order. */
  function Slugs(): (r: seq<string>)
    ensures |r| == |Levels|
    ensures forall i :: 0 <= i < |Levels| ==> r[i] == Levels[i].slug
  {
    seq(|Levels|, i requires 0 <= i < |Levels| => Levels[i].slug)
  }

  lemma SlugsInTableOrder()
    ensures Slugs() == ["high", "elevated", "moderate", "low"]
  {
  }

  /** A string without upper-case ASCII letters is its own lower-casing. */
  lemma LowerOfLowerCase(s: string)
    requires forall i :: 0 <= i < |s| ==> !('A' <= s[i] <= 'Z')
    ensures Lower(s) == s
  {
  }

  /** Every band is found by its own slug, and only by a slug equal to it up to case. */
  lemma LevelBySlugRoundTrip(band: RiskBand, slug: string)
    requires band in Levels
    ensures LevelBySlug(Some(band.slug)) == Some(band)
    ensures LevelBySlug(Some(slug)) == Some(band) <==> Lower(slug) == band.slug
  {
    SlugsDistinct();
    LowerOfLowerCase(band.slug);
    FindOwnSlug(band);
    if Lower(slug) == band.slug {
      assert |slug| == |band.slug| > 0;
    }
  }

  /** No two bands share a slug. */
  lemma SlugsDistinct()
    ensures forall a, b :: a in Levels && b in Levels && a.slug == b.slug ==> a == b
  {
    assert Levels == [High, Elevated, Moderate, Low];
    assert "high"[0] == 'h' && "elevated"[0] == 'e' && "moderate"[0] == 'm' && "low"[0] == 'l';
  }

  lemma FindOwnSlug(band: RiskBand)
    requires band in Levels
    requires forall a, b :: a in Levels && b in Levels && a.slug == b.slug ==> a == b
    ensures FindSlug(Levels, band.slug) == Some(band)
  {
  }

  /** The lookup ignores case, and gives `None` for no slug, the empty slug
      and a slug that no band has. */
  lemma LevelBySlugRule(slug: Option<string>)
    ensures slug.None? || slug == Some([]) ==> LevelBySlug(slug).None?
    ensures slug.Some? ==> LevelBySlug(slug) == LevelBySlug(Some(Lower(slug.value)))
    ensures slug.Some? && Lower(slug.value) !in Slugs() ==> LevelBySlug(slug).None?
  {
    if slug.Some? {
      LowerIdempotent(slug.value);
      if Lower(slug.value) !in Slugs() {
        assert forall b :: b in Levels ==> b.slug in Slugs();
      }
    }
  }
}
