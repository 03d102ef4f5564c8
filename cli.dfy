/** The batch commands: `scrape feed` (ingest the feed's items and tally
    the statuses), `ai rerun` (re-run the AI on stored articles) and
    `export csv` (one row per selected article). Terminal output is kept
    only where it is the command's result. */
module Cli {
  import opened Common
  import opened External
  import opened Models
  import opened Articles
  import NewsFeed
  import VirtualNews
  import NiftyNews
  import Scraping
  import Risk
  import Ai

  // ================================================================ scrape feed

  /** The `stats` dictionary. */
  datatype Stats = Stats(created: nat, updated: nat, cached: nat, errors: nat)

  const NoStats: Stats := Stats(0, 0, 0, 0)

  function Total(s: Stats): nat {
    s.created + s.updated + s.cached + s.errors
  }

  /** A rejected limit, the final tally, or an exception that escaped
      `ingest_article` and ends the command. */
  datatype FeedOutcome = BadLimit | Finished(stats: Stats) | Aborted(error: PyError)

  /** `stats[result.status] += 1`, or `stats["errors"] += 1` for an ingestion
      error: exactly one counter goes up. */
  function Tally(stats: Stats, outcome: IngestOutcome): (r: Stats)
    requires !outcome.Crash?
    ensures Total(r) == Total(stats) + 1
    ensures outcome.IngestionError? <==> r.errors == stats.errors + 1
    ensures outcome.Ingested? && outcome.result.status == Created <==> r.created == stats.created + 1
    ensures outcome.Ingested? && outcome.result.status == Updated <==> r.updated == stats.updated + 1
    ensures outcome.Ingested? && outcome.result.status == Cached <==> r.cached == stats.cached + 1
  {
    match outcome
    case IngestionError(_, _) => stats.(errors := stats.errors + 1)
    case Ingested(res) =>
      match res.status
      case Created => stats.(created := stats.created + 1)
      case Updated => stats.(updated := stats.updated + 1)
      case Cached => stats.(cached := stats.cached + 1)
  }

  /** One `ingest_article` call with fixed options, as a function of the
      store and the URL. */
  type Step = (Db, string) -> (Db, IngestOutcome)

  function FeedStep(force: bool, runAi: bool, forceAi: bool, svc: Services): Step {
    (d: Db, u: string) => Ingest(d, Request(u, force, runAi, forceAi), svc)
  }

  /** Each URL ingested in turn, the store carried from one call to the next;
      an escaping exception ends the run with what earlier calls committed. */
  function IngestAll(db: Db, urls: seq<string>, step: Step, stats: Stats): (Db, FeedOutcome)
    decreases |urls|
  {
    if urls == [] then (db, Finished(stats))
    else
      var r := step(db, urls[0]);
      if r.1.Crash? then (r.0, Aborted(r.1.error))
      else IngestAll(r.0, urls[1..], step, Tally(stats, r.1))
  }

  /** The items `fetch_latest_articles(limit, provider)` returns for the
      feed's table; the feed's clock is the services' clock. */
  function FeedItems(svc: Services, feed: seq<NewsFeed.Entry>, limit: int, provider: string): seq<NewsFeed.NewsFeedItem> {
    NewsFeed.LatestItems(svc.lib, svc.now, feed, limit, provider)
  }

  function ItemUrls(items: seq<NewsFeed.NewsFeedItem>): (r: seq<string>)
    ensures |r| == |items|
    ensures forall i :: 0 <= i < |items| ==> r[i] == items[i].url
  {
    seq(|items|, i requires 0 <= i < |items| => items[i].url)
  }

  /** The URLs processed, provider after provider. */
  function AllUrls(svc: Services, feed: seq<NewsFeed.Entry>, limit: int, providers: seq<string>): seq<string> {
    if providers == [] then []
    else ItemUrls(FeedItems(svc, feed, limit, providers[0])) + AllUrls(svc, feed, limit, providers[1..])
  }

  /** `providers or news_feed.enabled_providers()` */
  function Targets(providers: seq<string>, configured: Option<seq<string>>): seq<string> {
    if providers != [] then providers else NewsFeed.EnabledProviders(configured)
  }

  /** `scrape feed --limit --force --skip-ai --force-ai -p…` */
  function ScrapeFeed(db: Db, limit: int, force: bool, skipAi: bool, forceAi: bool,
                      providers: seq<string>, configured: Option<seq<string>>, svc: Services, feed: seq<NewsFeed.Entry>): (Db, FeedOutcome)
  {
    if limit <= 0 then (db, BadLimit)
    else IngestAll(db, AllUrls(svc, feed, limit, Targets(providers, configured)), FeedStep(force, !skipAi, forceAi, svc), NoStats)
  }

  /** The command, with the tally kept in a loop over the providers. */
  method ScrapeFeedCommand(store: Store, limit: int, force: bool, skipAi: bool, forceAi: bool,
                           providers: seq<string>, configured: Option<seq<string>>, svc: Services, feed: seq<NewsFeed.Entry>)
    returns (outcome: FeedOutcome)
    modifies store
    ensures (store.State(), outcome) == ScrapeFeed(old(store.State()), limit, force, skipAi, forceAi, providers, configured, svc, feed)
  {
    ghost var goal := ScrapeFeed(store.State(), limit, force, skipAi, forceAi, providers, configured, svc, feed);
    if limit <= 0 {
      ScrapeFeedBadLimit(store.State(), limit, force, skipAi, forceAi, providers, configured, svc, feed);
      return BadLimit;
    }
    var targets := if providers != [] then providers else NewsFeed.EnabledProviders(configured);
    ghost var step := FeedStep(force, !skipAi, forceAi, svc);
    ScrapeFeedStart(store.State(), limit, force, skipAi, forceAi, providers, configured, svc, feed, targets, step);
    var stats := NoStats;
    for p := 0 to |targets|
      invariant IngestAll(store.State(), AllUrls(svc, feed, limit, targets[p..]), step, stats) == goal
    {
      var items := NewsFeed.FetchLatestArticles(svc.lib, svc.now, feed, limit, targets[p]);
      ghost var rest := AllUrls(svc, feed, limit, targets[p + 1..]);
      AllUrlsSplit(svc, feed, limit, targets, p);
      var error;
      stats, error := IngestItems(store, items, rest, force, !skipAi, forceAi, svc, stats);
      if error.Some? {
        return Aborted(error.value);
      }
    }
    NothingLeft(store.State(), AllUrls(svc, feed, limit, targets[|targets|..]), step, stats);
    outcome := Finished(stats);
  }

  lemma ScrapeFeedBadLimit(db: Db, limit: int, force: bool, skipAi: bool, forceAi: bool,
                           providers: seq<string>, configured: Option<seq<string>>, svc: Services, feed: seq<NewsFeed.Entry>)
    requires limit <= 0
    ensures ScrapeFeed(db, limit, force, skipAi, forceAi, providers, configured, svc, feed) == (db, BadLimit)
  {
  }

  lemma ScrapeFeedStart(db: Db, limit: int, force: bool, skipAi: bool, forceAi: bool,
                        providers: seq<string>, configured: Option<seq<string>>, svc: Services, feed: seq<NewsFeed.Entry>,
                        targets: seq<string>, step: Step)
    requires limit > 0 && targets == Targets(providers, configured) && step == FeedStep(force, !skipAi, forceAi, svc)
    ensures ScrapeFeed(db, limit, force, skipAi, forceAi, providers, configured, svc, feed)
            == IngestAll(db, AllUrls(svc, feed, limit, targets[0..]), step, NoStats)
  {
    assert targets[0..] == targets;
  }

  /** The URLs from provider `p` on are its items' URLs, then the rest's. */
  lemma AllUrlsSplit(svc: Services, feed: seq<NewsFeed.Entry>, limit: int, targets: seq<string>, p: nat)
    requires p < |targets|
    ensures AllUrls(svc, feed, limit, targets[p..])
            == ItemUrls(FeedItems(svc, feed, limit, targets[p])) + AllUrls(svc, feed, limit, targets[p + 1..])
  {
    assert targets[p..][1..] == targets[p + 1..];
  }

  lemma NothingLeft(db: Db, urls: seq<string>, step: Step, stats: Stats)
    requires urls == []
    ensures IngestAll(db, urls, step, stats) == (db, Finished(stats))
  {
  }

  /** The loop over one provider's items; `rest` are the URLs still to come
      after them. */
  method IngestItems(store: Store, items: seq<NewsFeed.NewsFeedItem>, ghost rest: seq<string>,
                     force: bool, runAi: bool, forceAi: bool, svc: Services, stats0: Stats)
    returns (stats: Stats, error: Option<PyError>)
    modifies store
    ensures var goal := IngestAll(old(store.State()), ItemUrls(items) + rest, FeedStep(force, runAi, forceAi, svc), stats0);
      if error.Some? then (store.State(), Aborted(error.value)) == goal
      else IngestAll(store.State(), rest, FeedStep(force, runAi, forceAi, svc), stats) == goal
  {
    ghost var step := FeedStep(force, runAi, forceAi, svc);
    ghost var goal := IngestAll(old(store.State()), ItemUrls(items) + rest, step, stats0);
    assert ItemUrls(items)[0..] == ItemUrls(items);
    stats := stats0;
    for j := 0 to |items|
      invariant IngestAll(store.State(), ItemUrls(items)[j..] + rest, step, stats) == goal
    {
      ghost var pending := ItemUrls(items)[j..] + rest;
      assert pending[0] == items[j].url;
      assert pending[1..] == ItemUrls(items)[j + 1..] + rest;
      ghost var before := store.State();
      var result := store.IngestArticle(Request(items[j].url, force, runAi, forceAi), svc);
      assert step(before, items[j].url) == (store.State(), result);
      if result.Crash? {
        return stats, Some(result.error);
      }
      stats := Tally(stats, result);
    }
    assert ItemUrls(items)[|items|..] + rest == rest;
    error := None;
  }

  // ---------------------------------------------------------------- properties

  /** Every call that does not raise moves exactly one counter, so a finished
      run's counters add up to the number of URLs processed. */
  lemma {:induction false} IngestAllTotal(db: Db, urls: seq<string>, step: Step, stats: Stats)
    ensures var r := IngestAll(db, urls, step, stats);
      !r.1.BadLimit? && (r.1.Finished? ==> Total(r.1.stats) == Total(stats) + |urls|)
    decreases |urls|
  {
    if urls != [] {
      var r := step(db, urls[0]);
      if !r.1.Crash? {
        IngestAllTotal(r.0, urls[1..], step, Tally(stats, r.1));
      }
    }
  }

  /** Each provider contributes `min(limit, len(feed))` items. */
  lemma {:induction false} AllUrlsCount(svc: Services, feed: seq<NewsFeed.Entry>, limit: int, providers: seq<string>)
    requires limit >= 0
    ensures |AllUrls(svc, feed, limit, providers)| == |providers| * Min(limit, |feed|)
  {
    if providers != [] {
      var k := Min(limit, |feed|);
      NewsFeed.LatestCount(svc.lib, svc.now, feed, limit, providers[0]);
      AllUrlsCount(svc, feed, limit, providers[1..]);
      assert |providers| * k == k + (|providers| - 1) * k;
    }
  }

  /** A limit below 1 is rejected before anything happens; otherwise the
      named providers, or the enabled ones when none is named, are processed,
      and a finished run's counters add up to `min(limit, len(feed))` per
      provider. */
  lemma ScrapeFeedRule(db: Db, limit: int, force: bool, skipAi: bool, forceAi: bool,
                       providers: seq<string>, configured: Option<seq<string>>, svc: Services, feed: seq<NewsFeed.Entry>)
    ensures limit <= 0 ==> ScrapeFeed(db, limit, force, skipAi, forceAi, providers, configured, svc, feed) == (db, BadLimit)
    ensures limit > 0 ==>
      var r := ScrapeFeed(db, limit, force, skipAi, forceAi, providers, configured, svc, feed);
      var targets := Targets(providers, configured);
      (providers == [] ==> targets == NewsFeed.EnabledProviders(configured) && targets != [])
      && !r.1.BadLimit?
      && (r.1.Finished? ==> Total(r.1.stats) == |targets| * Min(limit, |feed|))
  {
    if limit > 0 {
      var targets := Targets(providers, configured);
      NewsFeed.EnabledProvidersKnown(configured);
      AllUrlsCount(svc, feed, limit, targets);
      IngestAllTotal(db, AllUrls(svc, feed, limit, targets), FeedStep(force, !skipAi, forceAi, svc), NoStats);
    }
  }

  /** Every feed item points at a local Virtual News page. */
  lemma AllUrlsShape(svc: Services, feed: seq<NewsFeed.Entry>, limit: int, providers: seq<string>)
    ensures forall u :: u in AllUrls(svc, feed, limit, providers) ==> StartsWith(u, NewsFeed.ArticleUrlPrefix)
  {
    if providers != [] {
      var items := FeedItems(svc, feed, limit, providers[0]);
      NewsFeed.LatestItemsShape(svc.lib, svc.now, feed, limit, providers[0]);
      forall u | u in ItemUrls(items) ensures StartsWith(u, NewsFeed.ArticleUrlPrefix) {
        var i :| 0 <= i < |items| && ItemUrls(items)[i] == u;
        assert items[i] in items;
      }
      AllUrlsShape(svc, feed, limit, providers[1..]);
    }
  }

  /** A feed URL is a Virtual News URL that the fetcher's allow-list rejects. */
  lemma FeedUrlClass(url: string)
    requires StartsWith(url, NewsFeed.ArticleUrlPrefix)
    ensures url != [] && SourceOf(url) == Some(VirtualSource) && !Scraping.IsAllowed(url)
  {
    var p := NewsFeed.ArticleUrlPrefix;
    var m := VirtualNews.ArticleMarker;
    assert url[..|p|] == p;
    assert url[22..22 + |m|] == url[..|p|][22..22 + |m|] == p[22..22 + |m|] == m;
    assert OccursAt(url, m, 22);
    assert url[4] == p[4] == ':' && NiftyNews.TopicsPrefix[4] == 's';
    assert !NiftyNews.IsNiftyNewsUrl(url);
    assert p[..14] == "http://localho";
    assert Scraping.YahooNewsPrefix[..14] == "https://news.y" && Scraping.AccidentPrefix[..14] == "https://news.y";
    assert !IsSpace(p[0]) && !IsSpace(p[|p| - 1]);
    Scraping.ForeignPrefixIsNotAllowed(url, p);
  }

  /** A feed URL is dispatched to the Virtual News parser, but the fetcher
      only accepts Yahoo! URLs: whenever it has to be fetched the call is a
      502 with the allow-list message and the store is untouched. */
  lemma FeedUrlFails(db: Db, url: string, force: bool, runAi: bool, forceAi: bool, svc: Services)
    requires StartsWith(url, NewsFeed.ArticleUrlPrefix)
    requires force || FindByUrl(db.articles, url).None?
    ensures Ingest(db, Request(url, force, runAi, forceAi), svc) == (db, IngestionError(Scraping.DisallowedMessage, 502))
  {
    FeedUrlClass(url);
    NonYahooSourcesFail(db, Request(url, force, runAi, forceAi), svc);
  }

  /** Every URL of `urls`, ingested into `db`, is a 502 with the allow-list
      message that leaves the store as it was. */
  ghost predicate AllFail(step: Step, db: Db, urls: seq<string>) {
    forall u :: u in urls ==> step(db, u) == (db, IngestionError(Scraping.DisallowedMessage, 502))
  }

  /** When every call fails without writing, the run stores nothing and
      counts every URL as an error. */
  lemma {:induction false} IngestAllFails(db: Db, urls: seq<string>, step: Step, stats: Stats)
    requires AllFail(step, db, urls)
    ensures IngestAll(db, urls, step, stats) == (db, Finished(stats.(errors := stats.errors + |urls|)))
    decreases |urls|
  {
    if urls != [] {
      assert urls[0] in urls;
      assert forall u :: u in urls[1..] ==> u in urls;
      IngestAllFails(db, urls[1..], step, stats.(errors := stats.errors + 1));
    }
  }

  lemma FeedStepFails(db: Db, urls: seq<string>, force: bool, runAi: bool, forceAi: bool, svc: Services)
    requires forall u :: u in urls ==> StartsWith(u, NewsFeed.ArticleUrlPrefix)
    requires force || forall i :: 0 <= i < |db.articles| ==> !StartsWith(db.articles[i].url, NewsFeed.ArticleUrlPrefix)
    ensures AllFail(FeedStep(force, runAi, forceAi, svc), db, urls)
  {
    forall u | u in urls
      ensures FeedStep(force, runAi, forceAi, svc)(db, u) == (db, IngestionError(Scraping.DisallowedMessage, 502))
    {
      FeedUrlFails(db, u, force, runAi, forceAi, svc);
    }
  }

  lemma FeedUrlsFail(db: Db, svc: Services, feed: seq<NewsFeed.Entry>, limit: int, targets: seq<string>,
                     force: bool, runAi: bool, forceAi: bool)
    requires force || forall i :: 0 <= i < |db.articles| ==> !StartsWith(db.articles[i].url, NewsFeed.ArticleUrlPrefix)
    ensures AllFail(FeedStep(force, runAi, forceAi, svc), db, AllUrls(svc, feed, limit, targets))
  {
    AllUrlsShape(svc, feed, limit, targets);
    FeedStepFails(db, AllUrls(svc, feed, limit, targets), force, runAi, forceAi, svc);
  }

  /** With `--force`, or when no stored article has a feed URL, the command
      stores nothing: every feed item counts as an error. */
  lemma ScrapeFeedOnlyErrors(db: Db, limit: int, force: bool, skipAi: bool, forceAi: bool,
                             providers: seq<string>, configured: Option<seq<string>>, svc: Services,
                             feed: seq<NewsFeed.Entry>)
    requires limit > 0
    requires force || forall i :: 0 <= i < |db.articles| ==> !StartsWith(db.articles[i].url, NewsFeed.ArticleUrlPrefix)
    ensures ScrapeFeed(db, limit, force, skipAi, forceAi, providers, configured, svc, feed)
            == (db, Finished(Stats(0, 0, 0, |AllUrls(svc, feed, limit, Targets(providers, configured))|)))
  {
    var urls, step := AllUrls(svc, feed, limit, Targets(providers, configured)), FeedStep(force, !skipAi, forceAi, svc);
    FeedUrlsFail(db, svc, feed, limit, Targets(providers, configured), force, !skipAi, forceAi);
    NothingStored(db, urls, step);
    assert ScrapeFeed(db, limit, force, skipAi, forceAi, providers, configured, svc, feed) == IngestAll(db, urls, step, NoStats);
  }

  lemma NothingStored(db: Db, urls: seq<string>, step: Step)
    requires AllFail(step, db, urls)
    ensures IngestAll(db, urls, step, NoStats) == (db, Finished(Stats(0, 0, 0, |urls|)))
  {
    IngestAllFails(db, urls, step, NoStats);
    assert NoStats.(errors := NoStats.errors + |urls|) == Stats(0, 0, 0, |urls|);
  }

  // ================================================================ ai rerun

  /** What the command reports for a target: an ingestion error, an AI
      error, a refreshed article with its latest score (if any), or the stop
      when the AI is disabled. */
  datatype RerunLine =
    | Failed(articleId: nat, message: string)
    | AiFailed(articleId: nat, aiMessage: string)
    | Refreshed(title: string, score: Option<int>)
    | Stopped

  datatype RerunOutcome =
    | RerunBadLimit
    | NoTargets
    | Reran(log: seq<RerunLine>)
    | RerunAborted(error: PyError)

  /** Oldest first. */
  predicate AscendingCreated(s: seq<Article>) {
    AscendingBy(CreatedAt, s)
  }

  /** Each entry's key no greater than the next one's. */
  predicate AdjacentBy<T>(key: T -> int, s: seq<T>) {
    forall i :: 0 < i < |s| ==> key(s[i - 1]) <= key(s[i])
  }

  predicate AscendingBy<T>(key: T -> int, s: seq<T>) {
    forall i, j :: 0 <= i < j < |s| ==> key(s[i]) <= key(s[j])
  }

  lemma {:induction false} AdjacentIsAscending<T>(key: T -> int, s: seq<T>)
    requires AdjacentBy(key, s)
    ensures AscendingBy(key, s)
  {
    if s != [] {
      var init := s[..|s| - 1];
      assert AdjacentBy(key, init) by {
        forall i | 0 < i < |init| ensures key(init[i - 1]) <= key(init[i]) {
          assert init[i - 1] == s[i - 1] && init[i] == s[i];
        }
      }
      AdjacentIsAscending(key, init);
      forall i, j | 0 <= i < j < |s| ensures key(s[i]) <= key(s[j]) {
        if j < |s| - 1 {
          assert init[i] == s[i] && init[j] == s[j];
        } else if i < j - 1 {
          assert init[i] == s[i] && init[j - 1] == s[j - 1];
        }
      }
    }
  }

  /** `x` placed after every entry whose key is no greater than its own. */
  function InsertBy<T>(key: T -> int, x: T, s: seq<T>): (r: seq<T>)
    requires AdjacentBy(key, s)
    ensures AdjacentBy(key, r)
    ensures multiset(r) == multiset(s) + multiset{x}
    ensures r[0] == x || (s != [] && r[0] == s[0])
  {
    if s == [] then [x]
    else if key(x) < key(s[0]) then [x] + s
    else
      var rest := InsertBy(key, x, s[1..]);
      assert s == [s[0]] + s[1..];
      [s[0]] + rest
  }

  /** A stable insertion sort by `key`. */
  function SortBy<T>(key: T -> int, s: seq<T>): (r: seq<T>)
    ensures AdjacentBy(key, r)
    ensures multiset(r) == multiset(s)
  {
    if s == [] then []
    else
      assert s == s[..|s| - 1] + [s[|s| - 1]];
      InsertBy(key, s[|s| - 1], SortBy(key, s[..|s| - 1]))
  }

  function CreatedAt(a: Article): int { a.createdAt }

  /** `order_by(Article.created_at.asc())`, stable on the table order. */
  function SortByCreated(s: seq<Article>): (r: seq<Article>)
    ensures AscendingCreated(r)
    ensures multiset(r) == multiset(s)
  {
    var r := SortBy(CreatedAt, s);
    AdjacentIsAscending(CreatedAt, r);
    r
  }

  /** The entries of `s` that `keep` accepts, in order. */
  function KeepIf<T(!new)>(keep: T -> bool, s: seq<T>): (r: seq<T>)
    ensures forall a :: a in r <==> a in s && keep(a)
    ensures |r| <= |s|
  {
    if s == [] then []
    else (if keep(s[0]) then [s[0]] else []) + KeepIf(keep, s[1..])
  }

  /** Filtering keeps the order. */
  lemma {:induction false} KeepIfAscending<T(!new)>(key: T -> int, keep: T -> bool, c: seq<T>)
    requires AscendingBy(key, c)
    ensures AscendingBy(key, KeepIf(keep, c))
  {
    if c != [] {
      TailAscending(key, c);
      KeepIfAscending(key, keep, c[1..]);
      var rest := KeepIf(keep, c[1..]);
      if keep(c[0]) {
        forall y | y in rest ensures key(c[0]) <= key(y) {
          HeadIsLeast(key, c, y);
        }
        ConsAscending(key, c[0], rest);
      }
    }
  }

  lemma TailAscending<T>(key: T -> int, c: seq<T>)
    requires c != [] && AscendingBy(key, c)
    ensures AscendingBy(key, c[1..])
  {
    var tail := c[1..];
    forall i, j | 0 <= i < j < |tail| ensures key(tail[i]) <= key(tail[j]) {
      assert tail[i] == c[i + 1] && tail[j] == c[j + 1];
    }
  }

  lemma HeadIsLeast<T>(key: T -> int, c: seq<T>, y: T)
    requires c != [] && AscendingBy(key, c) && y in c[1..]
    ensures key(c[0]) <= key(y)
  {
    var n :| 0 <= n < |c[1..]| && c[1..][n] == y;
    assert c[n + 1] == y;
  }

  lemma ConsAscending<T>(key: T -> int, x: T, rest: seq<T>)
    requires AscendingBy(key, rest) && forall y :: y in rest ==> key(x) <= key(y)
    ensures AscendingBy(key, [x] + rest)
  {
    var r := [x] + rest;
    forall i, j | 0 <= i < j < |r| ensures key(r[i]) <= key(r[j]) {
      assert r[j] == rest[j - 1] && rest[j - 1] in rest;
      if i > 0 {
        assert r[i] == rest[i - 1];
      }
    }
  }


  function HasNoInference(inferences: seq<Inference>): Article -> bool {
    (a: Article) => Latest(inferences, a.id).None?
  }

  /** `[article for article in candidates if not article.latest_inference]` */
  function WithoutInference(candidates: seq<Article>, inferences: seq<Inference>): (r: seq<Article>)
    ensures forall a :: a in r <==> a in candidates && Latest(inferences, a.id).None?
    ensures |r| <= |candidates|
    ensures AscendingCreated(candidates) ==> AscendingCreated(r)
  {
    var r := KeepIf(HasNoInference(inferences), candidates);
    if AscendingCreated(candidates) then
      KeepIfAscending(CreatedAt, HasNoInference(inferences), candidates);
      r
    else r
  }

  function Candidates(db: Db, missingOnly: bool): seq<Article> {
    var sorted := SortByCreated(db.articles);
    if missingOnly then WithoutInference(sorted, db.inferences) else sorted
  }

  /** `candidates[:limit]` */
  function RerunTargets(db: Db, limit: int, missingOnly: bool): seq<Article> {
    NewsFeed.PySlice(Candidates(db, missingOnly), limit)
  }

  /** The rerun request: no re-fetch, AI on, AI forced. */
  function RerunRequest(url: string): Request {
    Request(url, false, true, true)
  }

  function ScoreOf(latest: Option<Inference>): Option<int> {
    if latest.Some? then Some(latest.value.riskScore) else None
  }

  /** The loop over the targets: an ingestion error or an AI error is
      reported and the loop goes on, a disabled AI stops it, an escaping
      exception ends the command. */
  function RerunStep(svc: Services): Step {
    (d: Db, u: string) => Ingest(d, RerunRequest(u), svc)
  }

  function RerunFrom(db: Db, targets: seq<Article>, step: Step, log: seq<RerunLine>): (Db, RerunOutcome)
    decreases |targets|
  {
    if targets == [] then (db, Reran(log))
    else
      var r := step(db, targets[0].url);
      match r.1
      case Crash(e) => (r.0, RerunAborted(e))
      case IngestionError(m, _) => RerunFrom(r.0, targets[1..], step, log + [Failed(targets[0].id, m)])
      case Ingested(res) =>
        if !res.aiEnabled then (r.0, Reran(log + [Stopped]))
        else if res.aiError.Some? then
          RerunFrom(r.0, targets[1..], step, log + [AiFailed(targets[0].id, res.aiError.value)])
        else
          RerunFrom(r.0, targets[1..], step,
                    log + [Refreshed(res.article.title, ScoreOf(Latest(r.0.inferences, res.article.id)))])
  }

  /** `ai rerun --limit --missing-only` */
  function AiRerun(db: Db, limit: int, missingOnly: bool, svc: Services): (Db, RerunOutcome) {
    if limit <= 0 then (db, RerunBadLimit)
    else
      var targets := RerunTargets(db, limit, missingOnly);
      if targets == [] then (db, NoTargets) else RerunFrom(db, targets, RerunStep(svc), [])
  }

  /** The command, looping over the targets with `continue` and `break`. */
  method AiRerunCommand(store: Store, limit: int, missingOnly: bool, svc: Services) returns (outcome: RerunOutcome)
    modifies store
    ensures (store.State(), outcome) == AiRerun(old(store.State()), limit, missingOnly, svc)
  {
    if limit <= 0 {
      return RerunBadLimit;
    }
    var targets := RerunTargets(store.State(), limit, missingOnly);
    if targets == [] {
      return NoTargets;
    }
    ghost var goal := AiRerun(old(store.State()), limit, missingOnly, svc);
    ghost var step := RerunStep(svc);
    var log: seq<RerunLine> := [];
    var i := 0;
    while i < |targets|
      invariant 0 <= i <= |targets|
      invariant RerunFrom(store.State(), targets[i..], step, log) == goal
      decreases |targets| - i
    {
      var article := targets[i];
      assert targets[i..][0] == article && targets[i..][1..] == targets[i + 1..];
      ghost var before := store.State();
      var result := store.IngestArticle(RerunRequest(article.url), svc);
      assert step(before, article.url) == (store.State(), result);
      if result.Crash? {
        return RerunAborted(result.error);
      }
      if result.IngestionError? {
        log := log + [Failed(article.id, result.message)];
        i := i + 1;
        continue;
      }
      if !result.result.aiEnabled {
        log := log + [Stopped];
        return Reran(log);
      }
      if result.result.aiError.Some? {
        log := log + [AiFailed(article.id, result.result.aiError.value)];
        i := i + 1;
        continue;
      }
      var refreshed := result.result.article;
      log := log + [Refreshed(refreshed.title, ScoreOf(Latest(store.inferences, refreshed.id)))];
      i := i + 1;
    }
    outcome := Reran(log);
  }

  // ---------------------------------------------------------------- properties

  /** The targets are stored articles, oldest first, at most `limit` of
      them (all candidates when fewer), and without an inference when
      `--missing-only` is given. */
  lemma RerunTargetsRule(db: Db, limit: int, missingOnly: bool)
    requires limit > 0
    ensures var t := RerunTargets(db, limit, missingOnly);
      AscendingCreated(t)
      && (forall a :: a in t ==> a in db.articles)
      && (missingOnly ==> forall a :: a in t ==> Latest(db.inferences, a.id).None?)
      && |t| == Min(limit, |Candidates(db, missingOnly)|)
      && (!missingOnly ==> |t| == Min(limit, |db.articles|))
  {
    var sorted := SortByCreated(db.articles);
    var c := Candidates(db, missingOnly);
    var t := RerunTargets(db, limit, missingOnly);
    assert |multiset(sorted)| == |multiset(db.articles)|;
    forall a | a in t ensures a in c {
      var k :| 0 <= k < |t| && t[k] == a;
      assert c[k] == a;
    }
    forall a | a in sorted ensures a in db.articles {
      assert a in multiset(sorted);
    }
    forall i, j | 0 <= i < j < |t| ensures CreatedAt(t[i]) <= CreatedAt(t[j]) {
      assert t[i] == c[i] && t[j] == c[j];
    }
  }

  /** A rerun call on a stored article never touches the articles table:
      it finds the article, does not fetch, and the AI stage only appends
      inferences. */
  lemma RerunStepKeepsArticles(db: Db, url: string, svc: Services)
    requires FindByUrl(db.articles, url).Some?
    ensures Ingest(db, RerunRequest(url), svc).0.articles == db.articles
  {
    var req := RerunRequest(url);
    if url != [] && SourceOf(url).Some? {
      var found := FindByUrl(db.articles, url);
      AiStageRule(db, db, db.articles[found.value], Cached, false, req, svc);
    }
  }

  /** With the AI enabled, a rerun call on a stored article either raises,
      reports an AI error and changes nothing, or records exactly one new
      inference for that article: `force_ai` overrides an existing one. */
  lemma RerunStepRecords(db: Db, url: string, svc: Services)
    requires FindByUrl(db.articles, url).Some? && url != [] && SourceOf(url).Some?
    requires Ai.AiEnabled(svc.ai.enableAi)
    ensures var r := Ingest(db, RerunRequest(url), svc);
      var a := db.articles[FindByUrl(db.articles, url).value];
      r.1.Crash? ==> r.0 == db
    ensures var r := Ingest(db, RerunRequest(url), svc);
      var a := db.articles[FindByUrl(db.articles, url).value];
      r.1.Ingested? ==>
        r.1.result.aiEnabled && r.1.result.article == a && r.1.result.status == Cached
        && (r.1.result.aiError.Some? <==> !r.1.result.aiRan)
        && (r.1.result.aiError.Some? ==> r.0 == db)
        && (r.1.result.aiRan ==>
              |r.0.inferences| == |db.inferences| + 1 && r.0.inferences[..|db.inferences|] == db.inferences
              && r.0.inferences[|db.inferences|].articleId == a.id)
  {
    var req := RerunRequest(url);
    var found := FindByUrl(db.articles, url);
    var a := db.articles[found.value];
    AiStageRule(db, db, a, Cached, false, req, svc);
    var r := Ingest(db, req, svc);
    if r.1.Ingested? && r.1.result.aiRan {
      assert r.0.inferences == db.inferences + [RecordOf(db.nextId, a.id, AiAnswer(svc, a).result, svc.now)];
    }
  }

  /** A step that never changes the articles table when the URL is stored. */
  ghost predicate KeepsArticles(step: Step) {
    forall d: Db, u: string :: FindByUrl(d.articles, u).Some? ==> step(d, u).0.articles == d.articles
  }

  lemma RerunStepKeepsAll(svc: Services)
    ensures KeepsArticles(RerunStep(svc))
  {
    forall d: Db, u: string | FindByUrl(d.articles, u).Some?
      ensures RerunStep(svc)(d, u).0.articles == d.articles
    {
      RerunStepKeepsArticles(d, u, svc);
    }
  }

  /** The whole loop leaves the articles table as it was when every target
      is stored. */
  lemma {:induction false} RerunKeepsArticles(db: Db, targets: seq<Article>, step: Step, log: seq<RerunLine>)
    requires KeepsArticles(step)
    requires forall a :: a in targets ==> FindByUrl(db.articles, a.url).Some?
    ensures RerunFrom(db, targets, step, log).0.articles == db.articles
    decreases |targets|
  {
    if targets != [] {
      assert targets[0] in targets;
      var r := step(db, targets[0].url);
      assert r.0.articles == db.articles;
      forall a | a in targets[1..] ensures FindByUrl(r.0.articles, a.url).Some? {
        assert a in targets;
      }
      match r.1 {
        case Crash(_) =>
        case IngestionError(m, _) =>
          RerunKeepsArticles(r.0, targets[1..], step, log + [Failed(targets[0].id, m)]);
        case Ingested(res) =>
          if res.aiEnabled && res.aiError.Some? {
            RerunKeepsArticles(r.0, targets[1..], step, log + [AiFailed(targets[0].id, res.aiError.value)]);
          } else if res.aiEnabled {
            RerunKeepsArticles(r.0, targets[1..], step,
                               log + [Refreshed(res.article.title, ScoreOf(Latest(r.0.inferences, res.article.id)))]);
          }
      }
    }
  }

  /** The call writes nothing and is either an ingestion error or a result
      reporting the AI off. */
  predicate WritesNothing(step: Step, db: Db, url: string) {
    step(db, url).0 == db
    && (step(db, url).1.IngestionError? || (step(db, url).1.Ingested? && !step(db, url).1.result.aiEnabled))
  }

  /** With the AI disabled a rerun call on a stored article writes
      nothing. */
  lemma DisabledStep(db: Db, url: string, svc: Services)
    requires !Ai.AiEnabled(svc.ai.enableAi)
    requires FindByUrl(db.articles, url).Some?
    ensures WritesNothing(RerunStep(svc), db, url)
  {
    if url != [] && SourceOf(url).Some? {
      var found := FindByUrl(db.articles, url);
      AiStageRule(db, db, db.articles[found.value], Cached, false, RerunRequest(url), svc);
    }
  }

  /** When no call writes, nothing is written: the first target that gets
      past the classification stops the loop, and every line before the stop
      is an ingestion error. */
  lemma {:induction false} RerunWhenDisabled(db: Db, targets: seq<Article>, step: Step, log: seq<RerunLine>)
    requires forall a :: a in targets ==> WritesNothing(step, db, a.url)
    ensures var r := RerunFrom(db, targets, step, log);
      r.0 == db && r.1.Reran? && |r.1.log| >= |log| && r.1.log[..|log|] == log
      && forall k :: |log| <= k < |r.1.log| ==> r.1.log[k].Failed? || (r.1.log[k].Stopped? && k == |r.1.log| - 1)
    decreases |targets|
  {
    if targets != [] {
      var a := targets[0];
      assert a in targets;
      var r := step(db, a.url);
      if r.1.IngestionError? {
        var next := log + [Failed(a.id, r.1.message)];
        assert forall b :: b in targets[1..] ==> b in targets;
        RerunWhenDisabled(db, targets[1..], step, next);
        var rest := RerunFrom(db, targets[1..], step, next);
        assert rest.1.log[..|next|] == next;
        assert rest.1.log[..|log|] == next[..|log|];
      }
    }
  }

  /** The command's targets are stored, so it never changes the articles
      table; and with the AI disabled it changes nothing at all. */
  lemma AiRerunRule(db: Db, limit: int, missingOnly: bool, svc: Services)
    ensures limit <= 0 ==> AiRerun(db, limit, missingOnly, svc) == (db, RerunBadLimit)
    ensures AiRerun(db, limit, missingOnly, svc).0.articles == db.articles
    ensures !Ai.AiEnabled(svc.ai.enableAi) ==> AiRerun(db, limit, missingOnly, svc).0 == db
  {
    if limit > 0 {
      var targets := RerunTargets(db, limit, missingOnly);
      RerunTargetsRule(db, limit, missingOnly);
      forall a | a in targets ensures FindByUrl(db.articles, a.url).Some? {
        var i :| 0 <= i < |db.articles| && db.articles[i] == a;
      }
      RerunStepKeepsAll(svc);
      RerunKeepsArticles(db, targets, RerunStep(svc), []);
      if !Ai.AiEnabled(svc.ai.enableAi) {
        forall a | a in targets ensures WritesNothing(RerunStep(svc), db, a.url) {
          DisabledStep(db, a.url, svc);
        }
        RerunWhenDisabled(db, targets, RerunStep(svc), []);
      }
    }
  }

  // ================================================================ export csv

  const CsvHeader: seq<string> :=
    ["title", "url", "published_at", "created_at", "risk_score", "risk_level", "risk_label", "summary"]

  /** One `writerow` dictionary, in header order. */
  datatype CsvRow = CsvRow(title: string, url: string, publishedAt: Option<DateTime>, createdAt: int,
                           riskScore: Option<int>, riskLevel: string, riskLabel: string, summary: string)

  /** The row of one article's dictionary: the level of its `inference`,
      else its own `risk_level`; name and badge, or "" without a level. */
  function RowOf(d: ArticleDict): CsvRow {
    var level := if d.inference.Some? && d.inference.value.riskLevel.Some? then d.inference.value.riskLevel
                 else d.riskLevel;
    CsvRow(d.title, d.url, d.publishedAt, d.createdAt,
           if d.inference.Some? then Some(d.inference.value.riskScore) else None,
           if level.Some? then level.value.name else "",
           if level.Some? then level.value.badge else "",
           if d.inference.Some? then d.inference.value.summary else "")
  }

  /** The filter the command hands `article_select`. */
  function ExportFilter(lib: Lib, query: string, start: Option<string>, end: Option<string>,
                        riskSlug: Option<string>): Filter {
    Filter(Strip(query), ParseDate(lib, start), ParseDate(lib, end), Risk.LevelBySlug(riskSlug))
  }

  /** The row an article is exported as. */
  function RowFor(inferences: seq<Inference>): Article -> CsvRow {
    (a: Article) => RowOf(ArticleToDict(a, inferences))
  }

  function CsvRows(articles: seq<Article>, inferences: seq<Inference>): (r: seq<CsvRow>)
    ensures |r| == |articles|
  {
    MapSeq(RowFor(inferences), articles)
  }

  /** `export csv`: the selected articles' rows, one per article. */
  method ExportCsv(db: Db, lib: Lib, query: string, start: Option<string>, end: Option<string>,
                   riskSlug: Option<string>) returns (rows: seq<CsvRow>)
    ensures rows == CsvRows(ArticleSelect(db.articles, db.inferences, ExportFilter(lib, query, start, end, riskSlug)), db.inferences)
  {
    var selected := ArticleSelect(db.articles, db.inferences, ExportFilter(lib, query, start, end, riskSlug));
    ghost var row := RowFor(db.inferences);
    rows := [];
    for i := 0 to |selected|
      invariant rows == MapSeq(row, selected[..i])
    {
      var payload := ArticleToDict(selected[i], db.inferences);
      MapSeqSnoc(row, selected, i);
      rows := rows + [RowOf(payload)];
    }
    assert selected[..|selected|] == selected;
  }

  /** The row carries the article's fields; without an inference the score
      is missing and level, label and summary are ""; with one, the level is
      the name and the label the badge of the band of the first recorded
      inference's score, so `risk_level` is "" exactly when there is no
      inference. */
  lemma CsvRowRule(a: Article, inferences: seq<Inference>)
    ensures var r := RowOf(ArticleToDict(a, inferences));
      var records := InferencesOf(inferences, a.id);
      r.title == a.title && r.url == a.url && r.publishedAt == a.publishedAt && r.createdAt == a.createdAt
      && (r.riskLevel == "" <==> records == [])
      && (records == [] ==> r.riskScore.None? && r.riskLabel == "" && r.summary == "")
      && (records != [] ==>
            var band := Risk.Classify(Some(records[0].riskScore)).value;
            r.riskScore == Some(records[0].riskScore) && r.riskLevel == band.name && r.riskLabel == band.badge
            && r.summary == records[0].summary)
  {
    var records := InferencesOf(inferences, a.id);
    ArticleToDictRule(a, inferences);
    if records != [] {
      assert records[0] in records;
      RiskLevelPayloadRule(Some(records[0].riskScore));
      Risk.ClassifyUnfolded(records[0].riskScore);
    } else {
      forall k | 0 <= k < |inferences| ensures inferences[k].articleId != a.id {
        assert inferences[k] in inferences;
        assert inferences[k] !in records;
      }
    }
  }

  /** Under the schema's one-inference-per-article rule the first recorded
      inference is the latest, so the row shows the band of the latest
      score. */
  lemma CsvRowShowsLatest(a: Article, inferences: seq<Inference>)
    requires OnePerArticle(inferences)
    requires Latest(inferences, a.id).Some?
    ensures RowOf(ArticleToDict(a, inferences)).riskScore == Some(Latest(inferences, a.id).value.riskScore)
  {
    var records := InferencesOf(inferences, a.id);
    var latest := Latest(inferences, a.id).value;
    assert latest in records;
    var first := records[0];
    assert first in records;
    var i :| 0 <= i < |inferences| && inferences[i] == first;
    var j :| 0 <= j < |inferences| && inferences[j] == latest;
    assert i == j;
  }

  /** Every exported row is the row of a stored article that the filters
      select, and every selected article gets one. */
  lemma ExportRowsRule(db: Db, f: Filter)
    ensures var selected := ArticleSelect(db.articles, db.inferences, f);
      var rows := CsvRows(selected, db.inferences);
      |rows| == |selected|
      && (forall k :: 0 <= k < |rows| ==>
            selected[k] in db.articles && Selected(selected[k], db.inferences, f)
            && rows[k] == RowOf(ArticleToDict(selected[k], db.inferences)))
      && (forall a :: a in db.articles && Selected(a, db.inferences, f) ==>
            RowOf(ArticleToDict(a, db.inferences)) in rows)
  {
    var selected := ArticleSelect(db.articles, db.inferences, f);
    var rows := CsvRows(selected, db.inferences);
    forall k | 0 <= k < |rows|
      ensures selected[k] in db.articles && Selected(selected[k], db.inferences, f)
    {
      assert selected[k] in selected;
    }
    forall a | a in db.articles && Selected(a, db.inferences, f) ensures RowOf(ArticleToDict(a, db.inferences)) in rows {
      var k :| 0 <= k < |selected| && selected[k] == a;
      assert rows[k] == RowOf(ArticleToDict(a, db.inferences));
    }
  }
}
