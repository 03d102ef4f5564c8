/** The latest-articles feed: provider settings and labels, the enabled
    providers, the configured feed URLs, and the mock feed built from the
    Virtual News article table, newest first. */
module NewsFeed {
  import opened Common
  import opened External
  import VirtualNews

  const VirtualNewsProvider: string := "virtual_news"

  datatype ProviderSettings = ProviderSettings(configKey: string, displayName: string, defaults: seq<string>)

  const VirtualNewsSettings: ProviderSettings :=
    ProviderSettings("VIRTUAL_NEWS_FEED_URLS", "Virtual News", ["http://localhost:5000/virtual-news/"])

  /** `_DEFAULT_PROVIDERS` */
  const DefaultProviders: seq<string> := [VirtualNewsProvider]

  /** `_CACHE_TTL`, in seconds. */
  const CacheTtl: real := 300.0

  /** Where the mock feed points each item. */
  const ArticleUrlPrefix: string := "http://localhost:5000/virtual-news/article/"

  /** `_PROVIDER_SETTINGS.get(provider)` */
  function Settings(provider: string): Option<ProviderSettings> {
    if provider == VirtualNewsProvider then Some(VirtualNewsSettings) else None
  }

  // ---------------------------------------------------------------- providers

  /** `provider_label(provider)` */
  function ProviderLabel(provider: string): string {
    var settings := Settings(Lower(provider));
    if settings.None? then Title(provider) else settings.value.displayName
  }

  /** A known provider, in any case, gets its configured label; any other
      name is title-cased. Either way the lookup ignores case. */
  lemma ProviderLabelRule(provider: string)
    ensures Lower(provider) == VirtualNewsProvider ==> ProviderLabel(provider) == "Virtual News"
    ensures Lower(provider) != VirtualNewsProvider ==> ProviderLabel(provider) == Title(provider)
    ensures ProviderLabel(Lower(provider)) == ProviderLabel(provider)
  {
    LowerIdempotent(provider);
    TitleOfLower(provider);
  }

  /** The lower-cased slugs that name a known provider, in order. */
  function KnownLowered(slugs: seq<string>): (r: seq<string>)
    ensures forall x :: x in r ==> Settings(x).Some?
    ensures forall i :: 0 <= i < |slugs| && Settings(Lower(slugs[i])).Some? ==> Lower(slugs[i]) in r
    ensures |r| <= |slugs|
  {
    if slugs == [] then []
    else
      var rest := KnownLowered(slugs[1..]);
      assert forall i :: 1 <= i < |slugs| ==> slugs[i] == slugs[1..][i - 1];
      (if Settings(Lower(slugs[0])).Some? then [Lower(slugs[0])] else []) + rest
  }

  /** The slugs `enabled_providers` starts from: the configured list, or the
      defaults when it is missing or empty. */
  function ConfiguredSlugs(configured: Option<seq<string>>): seq<string> {
    if configured.None? || configured.value == [] then DefaultProviders else configured.value
  }

  /** `enabled_providers()` with `ENABLED_FEED_PROVIDERS` as `configured`. */
  function EnabledProviders(configured: Option<seq<string>>): (r: seq<string>) {
    var filtered := KnownLowered(ConfiguredSlugs(configured));
    if filtered == [] then DefaultProviders else filtered
  }

  /** The enabled providers are never empty and are lower-case known
      providers. */
  lemma EnabledProvidersKnown(configured: Option<seq<string>>)
    ensures EnabledProviders(configured) != []
    ensures forall x :: x in EnabledProviders(configured) ==> Settings(x).Some? && Lower(x) == x
  {
    ProviderIsLowerCase();
    EnabledAreVirtualNews(configured);
  }

  lemma EnabledAreVirtualNews(configured: Option<seq<string>>)
    ensures EnabledProviders(configured) != []
    ensures forall x :: x in EnabledProviders(configured) ==> x == VirtualNewsProvider
  {
    var filtered := KnownLowered(ConfiguredSlugs(configured));
    forall x | x in EnabledProviders(configured) ensures x == VirtualNewsProvider {
      if filtered != [] {
        assert x in filtered;
        assert Settings(x).Some?;
      }
    }
  }

  /** Every configured slug that names a known provider is enabled, in
      lower case. */
  lemma EnabledProvidersFromConfig(configured: Option<seq<string>>)
    ensures forall s :: s in ConfiguredSlugs(configured) && Settings(Lower(s)).Some? ==>
      Lower(s) in EnabledProviders(configured)
  {
    var slugs := ConfiguredSlugs(configured);
    forall s | s in slugs && Settings(Lower(s)).Some? ensures Lower(s) in EnabledProviders(configured) {
      var i :| 0 <= i < |slugs| && slugs[i] == s;
      assert Lower(slugs[i]) in KnownLowered(slugs);
    }
  }

  /** When no configured slug names a known provider, `virtual_news` is
      enabled alone. */
  lemma EnabledProvidersFallback(configured: Option<seq<string>>)
    ensures (forall s :: s in ConfiguredSlugs(configured) ==> Settings(Lower(s)).None?) ==>
      EnabledProviders(configured) == DefaultProviders
  {
    var slugs := ConfiguredSlugs(configured);
    if forall s :: s in slugs ==> Settings(Lower(s)).None? {
      if KnownLowered(slugs) != [] {
        var x := KnownLowered(slugs)[0];
        assert x in KnownLowered(slugs);
        KnownLoweredFrom(slugs, x);
      }
    }
  }

  lemma ProviderIsLowerCase()
    ensures Lower(VirtualNewsProvider) == VirtualNewsProvider
  {
    var p := VirtualNewsProvider;
    assert forall i :: 0 <= i < |p| ==> LowerChar(p[i]) == p[i];
  }

  /** Every element of the filter is the lower-casing of a configured slug. */
  lemma KnownLoweredFrom(slugs: seq<string>, x: string)
    requires x in KnownLowered(slugs)
    ensures exists s :: s in slugs && Lower(s) == x
  {
    if Settings(Lower(slugs[0])).Some? && x == Lower(slugs[0]) {
      assert slugs[0] in slugs;
    } else {
      KnownLoweredFrom(slugs[1..], x);
      var s :| s in slugs[1..] && Lower(s) == x;
      assert s in slugs;
    }
  }

  /** `_feed_urls(provider)`: for a known provider, the non-empty URLs of the
      configured value when it is truthy, else of the defaults. */
  function FeedUrls(provider: string, config: map<string, seq<string>>): seq<string> {
    var settings := Settings(Lower(provider));
    if settings.None? then []
    else
      var key := settings.value.configKey;
      DropEmpty(if key in config && config[key] != [] then config[key] else settings.value.defaults)
  }

  /** An unknown provider has no URL; a non-empty configured list replaces
      the defaults; an empty URL is never yielded. */
  lemma FeedUrlsRule(provider: string, config: map<string, seq<string>>)
    ensures Settings(Lower(provider)).None? ==> FeedUrls(provider, config) == []
    ensures forall u :: u in FeedUrls(provider, config) ==> u != []
    ensures Lower(provider) == VirtualNewsProvider ==>
      var key := VirtualNewsSettings.configKey;
      (key in config && config[key] != [] ==> FeedUrls(provider, config) == DropEmpty(config[key]))
      && (!(key in config && config[key] != []) ==> FeedUrls(provider, config) == VirtualNewsSettings.defaults)
  {
    var d := VirtualNewsSettings.defaults;
    assert DropEmpty(d[1..]) == [];
  }

  // ---------------------------------------------------------------- the mock feed

  /** One row of the Virtual News article table: its key, its title and its
      ISO `published_at` text. */
  datatype Entry = Entry(id: string, title: string, publishedAt: string)

  /** `ARTICLES`, in insertion order. */
  const Table: seq<Entry> := [
    Entry("1", "【速報】AIエージェント、驚異的な進化を遂げる", "2025-11-30T10:00:00"),
    Entry("2", "次世代Webフレームワーク「Flask-Next」が登場か？", "2025-11-29T15:30:00"),
    Entry("3", "プログラミング言語「Python 4.0」のロードマップが流出", "2025-11-28T09:15:00"),
    Entry("4", "リモートワーク時代の新しい働き方「メタバースオフィス」", "2025-11-27T18:45:00"),
    Entry("5", "量子コンピュータ、ついに家庭用モデルが発売へ", "2025-11-26T12:00:00")
  ]

  datatype NewsFeedItem = NewsFeedItem(title: string, url: string, publishedAt: Option<DateTime>,
                                       source: string, provider: string)

  /** Python's `a < b` on strings: code point by code point, a proper prefix first. */
  predicate LexLt(a: string, b: string) {
    if a == [] then b != []
    else if b == [] then false
    else if a[0] != b[0] then a[0] < b[0]
    else LexLt(a[1..], b[1..])
  }

  lemma LexLtAsymmetric(a: string, b: string)
    ensures LexLt(a, b) ==> !LexLt(b, a)
  {
  }

  /** Non-increasing by `published_at`. */
  predicate Descending(s: seq<Entry>) {
    forall i :: 0 < i < |s| ==> !LexLt(s[i - 1].publishedAt, s[i].publishedAt)
  }

  /** `x` placed before the first entry that is strictly older. */
  function InsertDesc(x: Entry, s: seq<Entry>): (r: seq<Entry>)
    requires Descending(s)
    ensures Descending(r)
    ensures multiset(r) == multiset(s) + multiset{x}
    ensures |r| == |s| + 1
    ensures r[0] == x || (s != [] && r[0] == s[0])
  {
    if s == [] then [x]
    else if LexLt(s[0].publishedAt, x.publishedAt) then
      LexLtAsymmetric(s[0].publishedAt, x.publishedAt);
      [x] + s
    else
      var rest := InsertDesc(x, s[1..]);
      assert s == [s[0]] + s[1..];
      [s[0]] + rest
  }

  /** `list.sort(key=published_at, reverse=True)`: a stable sort, newest first. */
  function SortDesc(s: seq<Entry>): (r: seq<Entry>)
    ensures Descending(r)
    ensures multiset(r) == multiset(s)
    ensures |r| == |s|
  {
    if s == [] then []
    else
      assert s == s[..|s| - 1] + [s[|s| - 1]];
      InsertDesc(s[|s| - 1], SortDesc(s[..|s| - 1]))
  }

  /** `s[:limit]`, including Python's meaning for a negative limit. */
  function PySlice<T>(s: seq<T>, limit: int): (r: seq<T>)
    ensures |r| == (if limit >= 0 then Min(limit, |s|) else Max(0, |s| + limit))
    ensures r == s[..|r|]
  {
    if limit >= 0 then s[..Min(limit, |s|)] else s[..Max(0, |s| + limit)]
  }

  /** The item's time: the ISO text parsed, a naive result tagged UTC, the
      current time in UTC when it does not parse. */
  function PublishedTime(lib: Lib, now: int, text: string): (r: DateTime)
    ensures r.zone.Some?
  {
    match lib.fromIsoFormat(text)
    case None => DateTime(now, Some(Utc))
    case Some(d) => if d.zone.None? then d.(zone := Some(Utc)) else d
  }

  function ItemOf(lib: Lib, now: int, e: Entry, source: string, provider: string): NewsFeedItem {
    NewsFeedItem(e.title, ArticleUrlPrefix + e.id, Some(PublishedTime(lib, now, e.publishedAt)), source, provider)
  }

  /** The entries the feed shows, in the order it shows them. */
  function Shown(table: seq<Entry>, limit: int): (r: seq<Entry>)
    ensures |r| <= |table|
  {
    PySlice(SortDesc(table), limit)
  }

  /** What `fetch_latest_articles(limit, provider)` returns. */
  function LatestItems(lib: Lib, now: int, table: seq<Entry>, limit: int, provider: string): (r: seq<NewsFeedItem>)
    ensures |r| == |Shown(table, limit)|
    ensures forall i :: 0 <= i < |r| ==> r[i] == ItemOf(lib, now, Shown(table, limit)[i], ProviderLabel(provider), provider)
  {
    var shown := Shown(table, limit);
    seq(|shown|, i requires 0 <= i < |shown| => ItemOf(lib, now, shown[i], ProviderLabel(provider), provider))
  }

  /** `fetch_latest_articles(limit, provider)`: sort the table, slice it, and
      append one item per entry; `now` is the current time. */
  method FetchLatestArticles(lib: Lib, now: int, table: seq<Entry>, limit: int, provider: string)
    returns (items: seq<NewsFeedItem>)
    ensures items == LatestItems(lib, now, table, limit, provider)
  {
    var ordered := SortDesc(table);
    var source := ProviderLabel(provider);
    var selected := PySlice(ordered, limit);
    items := [];
    for i := 0 to |selected|
      invariant |items| == i
      invariant forall k :: 0 <= k < i ==> items[k] == ItemOf(lib, now, selected[k], source, provider)
    {
      items := items + [ItemOf(lib, now, selected[i], source, provider)];
    }
  }

  // ---------------------------------------------------------------- properties

  /** A non-negative limit shows `min(limit, len(ARTICLES))` items. */
  lemma LatestCount(lib: Lib, now: int, table: seq<Entry>, limit: int, provider: string)
    requires limit >= 0
    ensures |LatestItems(lib, now, table, limit, provider)| == Min(limit, |table|)
  {
    assert |multiset(SortDesc(table))| == |multiset(table)|;
  }

  /** The items come from entries of the table, newest first, each entry at
      most as often as the table holds it. */
  lemma LatestOrdered(table: seq<Entry>, limit: int)
    ensures Descending(Shown(table, limit))
    ensures multiset(Shown(table, limit)) <= multiset(table)
  {
    var sorted := SortDesc(table);
    var n := |Shown(table, limit)|;
    assert Shown(table, limit) == sorted[..n];
    assert sorted == sorted[..n] + sorted[n..];
    assert multiset(sorted) == multiset(sorted[..n]) + multiset(sorted[n..]);
  }

  /** Every item carries the provider label as its source and the provider
      as given, has a time zone, and points at a Virtual News article page. */
  lemma LatestItemsShape(lib: Lib, now: int, table: seq<Entry>, limit: int, provider: string)
    ensures forall x :: x in LatestItems(lib, now, table, limit, provider) ==>
      x.source == ProviderLabel(provider) && x.provider == provider
      && x.publishedAt.Some? && x.publishedAt.value.zone.Some?
      && StartsWith(x.url, ArticleUrlPrefix) && VirtualNews.IsVirtualNewsUrl(x.url)
  {
    forall x | x in LatestItems(lib, now, table, limit, provider)
      ensures StartsWith(x.url, ArticleUrlPrefix) && VirtualNews.IsVirtualNewsUrl(x.url)
    {
      var i :| 0 <= i < |LatestItems(lib, now, table, limit, provider)| && LatestItems(lib, now, table, limit, provider)[i] == x;
      FeedItemUrl(Shown(table, limit)[i].id);
    }
  }

  /** The URL the feed gives an entry is a Virtual News article page. */
  lemma FeedItemUrl(id: string)
    ensures StartsWith(ArticleUrlPrefix + id, ArticleUrlPrefix)
    ensures VirtualNews.IsVirtualNewsUrl(ArticleUrlPrefix + id)
  {
    var url := ArticleUrlPrefix + id;
    assert url[..|ArticleUrlPrefix|] == ArticleUrlPrefix;
    assert url[22..22 + |VirtualNews.ArticleMarker|] == VirtualNews.ArticleMarker;
    assert OccursAt(url, VirtualNews.ArticleMarker, 22);
  }

  /** Items of entries with different keys have different URLs. */
  lemma ItemUrlsDistinct(lib: Lib, now: int, e1: Entry, e2: Entry, source: string, provider: string)
    requires e1.id != e2.id
    ensures ItemOf(lib, now, e1, source, provider).url != ItemOf(lib, now, e2, source, provider).url
  {
    var u1 := ArticleUrlPrefix + e1.id;
    var u2 := ArticleUrlPrefix + e2.id;
    assert u1[|ArticleUrlPrefix|..] == e1.id;
    assert u2[|ArticleUrlPrefix|..] == e2.id;
  }

  /** The table's keys are distinct, as a dictionary's are. */
  lemma TableKeysDistinct()
    ensures forall i, j :: 0 <= i < j < |Table| ==> Table[i].id != Table[j].id
  {
  }

  // ---------------------------------------------------------------- cache

  /** `_CACHE`: provider key to the time it was filled and its items. */
  class FeedCache {
    var entries: map<string, (real, seq<NewsFeedItem>)>

    constructor ()
      ensures entries == map[]
    {
      entries := map[];
    }

    /** `clear_cache()` */
    method Clear()
      modifies this
      ensures entries == map[]
    {
      entries := map[];
    }
  }
}
