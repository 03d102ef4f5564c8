/** The ingestion pipeline: URL classification, the stored-article lookup,
    fetching and parsing, the create-or-update write, the decision to run the
    AI and the recording of its result; plus the read-side helpers (the risk
    payload, the article dictionary and the list filters). */
module Articles {
  import opened Common
  import opened Json
  import opened External
  import opened Html
  import Parsing
  import NiftyNews
  import VirtualNews
  import Scraping
  import Ai
  import Risk
  import opened Models

  const EmptyUrlMessage: string := "URLを指定してください。"
  const UnsupportedMessage: string :=
    "対応していないニュースサイトです。Yahoo!ニュースまたは@niftyニュースの記事URLを指定してください。"
  const UnparsableMessage: string := "記事の本文を解析できませんでした。"
  /** How much of the body the AI is shown. */
  const AiBodyLimit: nat := 4000

  datatype Source = NiftySource | VirtualSource | YahooSource

  datatype Status = Created | Updated | Cached

  /** `ArticleIngestionResult` */
  datatype IngestResult = IngestResult(article: Article, status: Status, aiEnabled: bool, aiRan: bool, aiError: Option<string>)

  /** A result, an `ArticleIngestionError` with its HTTP status code, or an
      exception nothing in the pipeline catches (the session is then
      discarded without a commit). */
  datatype IngestOutcome =
    | Ingested(result: IngestResult)
    | IngestionError(message: string, statusCode: int)
    | Crash(error: PyError)

  /** The keyword arguments of `ingest_article`. */
  datatype Request = Request(url: string, force: bool, runAi: bool, forceAi: bool)

  /** Everything outside the store that ingestion consults: the HTTP
      transport, the @nifty topics-page link extractor, the AI client, the
      parsing libraries, the AI configuration and the database clock. */
  datatype Services = Services(
    transport: string -> Scraping.Transport,
    extractArticleUrl: Page -> Option<string>,
    client: Ai.Request -> Ai.Completion,
    lib: Lib,
    ai: Ai.AiEnv,
    now: int)

  // ---------------------------------------------------------------- classification

  /** The parser a URL is dispatched to: @nifty first, then Virtual News,
      then the Yahoo! allow-list. */
  function SourceOf(url: string): (r: Option<Source>)
    ensures r == Some(NiftySource) <==> NiftyNews.IsNiftyNewsUrl(url)
    ensures r == Some(VirtualSource) <==> !NiftyNews.IsNiftyNewsUrl(url) && VirtualNews.IsVirtualNewsUrl(url)
    ensures r == Some(YahooSource) <==>
      !NiftyNews.IsNiftyNewsUrl(url) && !VirtualNews.IsVirtualNewsUrl(url) && Scraping.IsAllowed(url)
  {
    if NiftyNews.IsNiftyNewsUrl(url) then Some(NiftySource)
    else if VirtualNews.IsVirtualNewsUrl(url) then Some(VirtualSource)
    else if Scraping.IsAllowed(url) then Some(YahooSource)
    else None
  }

  /** `select(Article).where(Article.url == url)` */
  function FindByUrl(articles: seq<Article>, url: string): (r: Option<nat>)
    ensures r.Some? ==> r.value < |articles| && articles[r.value].url == url
    ensures r.None? ==> forall i :: 0 <= i < |articles| ==> articles[i].url != url
  {
    if articles == [] then None
    else
      var r := FindByUrl(articles[..|articles| - 1], url);
      if r.Some? then r
      else if articles[|articles| - 1].url == url then Some(|articles| - 1)
      else None
  }

  // ---------------------------------------------------------------- fetch and parse

  datatype Fetched =
    | Got(parsed: Parsing.ParsedArticle)
    | ScrapeFailed(message: string)
    | ParseFailed
    | ParserCrashed(error: PyError)

  function FromParser(o: Parsing.ParseOutcome): Fetched {
    match o
    case Parsed(a) => Got(a)
    case ParseError => ParseFailed
    case Unhandled(e) => ParserCrashed(e)
  }

  /** The `try` block of `ingest_article`: fetch, then the source's parser on
      the response's final URL and page. */
  function FetchAndParse(source: Source, url: string, svc: Services): Fetched {
    match Scraping.Fetch(url, svc.transport)
    case ScrapeError(m) => ScrapeFailed(m)
    case Fetched(response) =>
      match source
      case NiftySource =>
        if Contains(response.url, "/topics/") then
          var link := svc.extractArticleUrl(response.page);
          if link.Some? && link.value != [] then
            match Scraping.Fetch(link.value, svc.transport)
            case ScrapeError(m) => ScrapeFailed(m)
            case Fetched(second) => FromParser(NiftyNews.Parse(svc.lib, second.url, second.page))
          else FromParser(NiftyNews.Parse(svc.lib, response.url, response.page))
        else FromParser(NiftyNews.Parse(svc.lib, response.url, response.page))
      case VirtualSource => Got(VirtualNews.Parse(svc.lib, response.url, response.page))
      case YahooSource => FromParser(Parsing.Parse(svc.lib, response.url, response.page))
  }

  // ---------------------------------------------------------------- write

  /** Another stored article (not the one at `found`) already has `url`:
      the flush then violates the unique constraint. */
  predicate UrlTaken(articles: seq<Article>, found: Option<nat>, url: string) {
    exists j :: 0 <= j < |articles| && Some(j) != found && articles[j].url == url
  }

  /** The article as rewritten in place from the parsed fields. */
  function Overwrite(a: Article, p: Parsing.ParsedArticle): Article {
    a.(url := p.url, title := p.title, publishedAt := p.publishedAt, body := p.body)
  }

  /** The article created from the parsed fields, with a fresh key and the
      database's `now()` as `created_at`. */
  function NewArticle(id: nat, p: Parsing.ParsedArticle, now: int): Article {
    Article(id, p.url, p.title, p.publishedAt, p.body, now)
  }

  // ---------------------------------------------------------------- AI stage

  /** `run_ai and ai_enabled and (force_ai or latest is None or needs_fetch)` */
  predicate AiRuns(req: Request, svc: Services, inferences: seq<Inference>, article: Article, needsFetch: bool) {
    req.runAi && Ai.AiEnabled(svc.ai.enableAi)
    && (req.forceAi || Latest(inferences, article.id).None? || needsFetch)
  }

  /** What the service answers for this article. */
  function AiAnswer(svc: Services, article: Article): Ai.AiOutcome {
    Ai.SummarizeAndScore(svc.ai, svc.lib, article.title, Take(article.body, AiBodyLimit), svc.client)
  }

  function RecordOf(id: nat, articleId: nat, r: Ai.AiResult, now: int): Inference {
    Inference(id, articleId, r.riskScore, r.summary, r.model, r.promptVersion, now)
  }

  /** From the flush to the commit; `before` is the state the call started
      from, restored when an exception escapes. */
  function AiStage(before: Db, db: Db, article: Article, status: Status, needsFetch: bool,
                   req: Request, svc: Services): (Db, IngestOutcome)
  {
    var enabled := Ai.AiEnabled(svc.ai.enableAi);
    if !AiRuns(req, svc, db.inferences, article, needsFetch) then
      (db, Ingested(IngestResult(article, status, enabled, false, None)))
    else match AiAnswer(svc, article)
      case Unavailable(m) => (db, Ingested(IngestResult(article, status, enabled, false, Some(m))))
      case Crashed(e) => (before, Crash(e))
      case Scored(r) =>
        (Db(db.articles, db.inferences + [RecordOf(db.nextId, article.id, r, svc.now)], db.nextId + 1),
         Ingested(IngestResult(article, status, enabled, true, None)))
  }

  // ---------------------------------------------------------------- ingest

  /** The create-or-update write: a fresh article appended with the next key
      and the clock, or the stored one at `found` overwritten in place. */
  function Write(db: Db, found: Option<nat>, p: Parsing.ParsedArticle, now: int): (r: (Db, Article, Status))
    requires found.Some? ==> found.value < |db.articles|
    ensures r.0.inferences == db.inferences && r.1 in r.0.articles
    ensures found.None? ==> r.2 == Created && r.0.articles == db.articles + [r.1] && r.0.nextId == db.nextId + 1
    ensures found.Some? ==> r.2 == Updated && r.0.articles == db.articles[found.value := r.1] && r.0.nextId == db.nextId
    // the written article carries the parsed fields
    ensures r.1.url == p.url && r.1.title == p.title && r.1.publishedAt == p.publishedAt && r.1.body == p.body
    // a new article gets the next key and the clock; an updated one keeps its key and creation time
    ensures found.None? ==> r.1.id == db.nextId && r.1.createdAt == now
    ensures found.Some? ==> r.1.id == db.articles[found.value].id && r.1.createdAt == db.articles[found.value].createdAt
  {
    if found.None? then
      var a := NewArticle(db.nextId, p, now);
      assert (db.articles + [a])[|db.articles|] == a;
      (Db(db.articles + [a], db.inferences, db.nextId + 1), a, Created)
    else
      var a := Overwrite(db.articles[found.value], p);
      assert db.articles[found.value := a][found.value] == a;
      (Db(db.articles[found.value := a], db.inferences, db.nextId), a, Updated)
  }

  /** What follows the fetch: the error mapping, the write and its flush,
      then the AI stage. */
  function FetchStage(db: Db, found: Option<nat>, fetched: Fetched, req: Request, svc: Services): (Db, IngestOutcome)
    requires found.Some? ==> found.value < |db.articles|
  {
    match fetched
    case ScrapeFailed(m) => (db, IngestionError(m, 502))
    case ParseFailed => (db, IngestionError(UnparsableMessage, 422))
    case ParserCrashed(e) => (db, Crash(e))
    case Got(p) =>
      if UrlTaken(db.articles, found, p.url) then
        (db, Crash(IntegrityError("UNIQUE constraint failed: articles.url")))
      else
        var (mid, a, status) := Write(db, found, p, svc.now);
        AiStage(db, mid, a, status, true, req, svc)
  }

  /** `ingest_article(url, force=…, run_ai=…, force_ai=…)`: the new state of
      the store and the outcome. */
  function Ingest(db: Db, req: Request, svc: Services): (Db, IngestOutcome) {
    if req.url == [] then (db, IngestionError(EmptyUrlMessage, 400))
    else if SourceOf(req.url).None? then (db, IngestionError(UnsupportedMessage, 400))
    else
      var found := FindByUrl(db.articles, req.url);
      if !(req.force || found.None?) then AiStage(db, db, db.articles[found.value], Cached, false, req, svc)
      else FetchStage(db, found, FetchAndParse(SourceOf(req.url).value, req.url, svc), req, svc)
  }

  /** The store the pipeline writes to, updated in place like the session. */
  class Store {
    var articles: seq<Article>
    var inferences: seq<Inference>
    var nextId: nat

    function State(): Db
      reads this
    {
      Db(articles, inferences, nextId)
    }

    constructor ()
      ensures State() == Db([], [], 0)
    {
      articles := [];
      inferences := [];
      nextId := 0;
    }

    /** `ingest_article`, step by step: the article is written in place and
        flushed, the inference added, and the state restored from the
        snapshot when an exception escapes before the commit. */
    method IngestArticle(req: Request, svc: Services) returns (outcome: IngestOutcome)
      modifies this
      ensures (State(), outcome) == Ingest(old(State()), req, svc)
    {
      if req.url == [] {
        return IngestionError(EmptyUrlMessage, 400);
      }
      var source := SourceOf(req.url);
      if source.None? {
        return IngestionError(UnsupportedMessage, 400);
      }
      var found := FindByUrl(articles, req.url);
      if req.force || found.None? {
        var fetched := FetchAndParse(source.value, req.url, svc);
        outcome := StoreFetched(found, fetched, req, svc);
      } else {
        outcome := RunAi(State(), articles[found.value], Cached, false, req, svc);
      }
    }

    /** The write and the flush, then the AI stage. */
    method StoreFetched(found: Option<nat>, fetched: Fetched, req: Request, svc: Services) returns (outcome: IngestOutcome)
      requires found.Some? ==> found.value < |articles|
      modifies this
      ensures (State(), outcome) == FetchStage(old(State()), found, fetched, req, svc)
    {
      var snapshot := State();
      match fetched {
        case ScrapeFailed(m) =>
          return IngestionError(m, 502);
        case ParseFailed =>
          return IngestionError(UnparsableMessage, 422);
        case ParserCrashed(e) =>
          return Crash(e);
        case Got(p) =>
          var article: Article;
          var status: Status;
          if found.None? {
            article := NewArticle(nextId, p, svc.now);
            articles := articles + [article];
            nextId := nextId + 1;
            status := Created;
          } else {
            article := Overwrite(articles[found.value], p);
            articles := articles[found.value := article];
            status := Updated;
          }
          // The flush: a second article with the same URL is rejected.
          if UrlTaken(snapshot.articles, found, p.url) {
            articles, inferences, nextId := snapshot.articles, snapshot.inferences, snapshot.nextId;
            return Crash(IntegrityError("UNIQUE constraint failed: articles.url"));
          }
          outcome := RunAi(snapshot, article, status, true, req, svc);
      }
    }

    /** From the flush to the commit; an escaping exception restores `before`. */
    method RunAi(before: Db, article: Article, status: Status, needsFetch: bool, req: Request, svc: Services)
      returns (outcome: IngestOutcome)
      modifies this
      ensures (State(), outcome) == AiStage(before, old(State()), article, status, needsFetch, req, svc)
    {
      AiStageRule(before, State(), article, status, needsFetch, req, svc);
      var enabled := Ai.AiEnabled(svc.ai.enableAi);
      var latest := Latest(inferences, article.id);
      if req.runAi && enabled && (req.forceAi || latest.None? || needsFetch) {
        var answer := AiAnswer(svc, article);
        match answer {
          case Unavailable(m) =>
            outcome := Ingested(IngestResult(article, status, enabled, false, Some(m)));
          case Crashed(e) =>
            articles, inferences, nextId := before.articles, before.inferences, before.nextId;
            outcome := Crash(e);
          case Scored(r) =>
            inferences := inferences + [RecordOf(nextId, article.id, r, svc.now)];
            nextId := nextId + 1;
            outcome := Ingested(IngestResult(article, status, enabled, true, None));
        }
      } else {
        outcome := Ingested(IngestResult(article, status, enabled, false, None));
      }
    }
  }

  // ---------------------------------------------------------------- properties

  /** An empty URL is rejected with 400 and the store is untouched. */
  lemma EmptyUrlRejected(db: Db, req: Request, svc: Services)
    requires req.url == []
    ensures Ingest(db, req, svc) == (db, IngestionError(EmptyUrlMessage, 400))
  {
  }

  /** A URL no parser accepts is rejected with 400 and the store is untouched. */
  lemma UnsupportedUrlRejected(db: Db, req: Request, svc: Services)
    requires req.url != []
    requires !NiftyNews.IsNiftyNewsUrl(req.url) && !VirtualNews.IsVirtualNewsUrl(req.url) && !Scraping.IsAllowed(req.url)
    ensures Ingest(db, req, svc) == (db, IngestionError(UnsupportedMessage, 400))
  {
  }

  /** Every call that does not return a result leaves the store as it was. */
  lemma FailuresLeaveStoreUnchanged(db: Db, req: Request, svc: Services)
    ensures !Ingest(db, req, svc).1.Ingested? ==> Ingest(db, req, svc).0 == db
  {
    if ReachesAi(db, req, svc) {
      var mid, a, status, needsFetch := WrittenState(db, req, svc);
      AiStageRule(db, mid, a, status, needsFetch, req, svc);
    }
  }

  /** A fetch failure is a 502 carrying the fetcher's message, and a parse
      failure a 422. */
  lemma FetchAndParseFailureCodes(db: Db, req: Request, svc: Services)
    requires req.url != [] && SourceOf(req.url).Some?
    requires req.force || FindByUrl(db.articles, req.url).None?
    ensures var f := FetchAndParse(SourceOf(req.url).value, req.url, svc);
      (f.ScrapeFailed? ==> Ingest(db, req, svc) == (db, IngestionError(f.message, 502)))
      && (f.ParseFailed? ==> Ingest(db, req, svc) == (db, IngestionError(UnparsableMessage, 422)))
  {
  }

  /** An @nifty News URL is never on the fetcher's allow-list. */
  lemma NiftyIsNotAllowed(url: string)
    requires NiftyNews.IsNiftyNewsUrl(url)
    ensures !Scraping.IsAllowed(url)
  {
    var p := NiftyNews.TopicsPrefix;
    assert p[..14] == "https://news.n";
    assert Scraping.YahooNewsPrefix[..14] == "https://news.y" && Scraping.AccidentPrefix[..14] == "https://news.y";
    assert !IsSpace(p[0]) && !IsSpace(p[|p| - 1]);
    Scraping.ForeignPrefixIsNotAllowed(url, p);
  }

  /** The fetcher re-checks the allow-list, so every @nifty News URL, and
      every Virtual News URL that is not also an allowed Yahoo! URL, ends in a
      502 with the allow-list message whenever it has to be fetched, and the
      store is untouched. */
  lemma NonYahooSourcesFail(db: Db, req: Request, svc: Services)
    requires req.url != []
    requires SourceOf(req.url) == Some(NiftySource) || (SourceOf(req.url) == Some(VirtualSource) && !Scraping.IsAllowed(req.url))
    requires req.force || FindByUrl(db.articles, req.url).None?
    ensures Ingest(db, req, svc) == (db, IngestionError(Scraping.DisallowedMessage, 502))
  {
    if SourceOf(req.url) == Some(NiftySource) {
      NiftyIsNotAllowed(req.url);
    }
  }

  /** The call gets past the classification and, when it fetches, past the
      fetch, the parse and the flush: the AI stage is reached. */
  predicate ReachesAi(db: Db, req: Request, svc: Services) {
    req.url != [] && SourceOf(req.url).Some?
    && (var found := FindByUrl(db.articles, req.url);
        !(req.force || found.None?)
        || (var f := FetchAndParse(SourceOf(req.url).value, req.url, svc);
            f.Got? && !UrlTaken(db.articles, found, f.parsed.url)))
  }

  /** The state the AI stage starts from: the store itself on the cached
      path, the store after the write otherwise. The write keeps the schema's
      constraints. */
  lemma WrittenState(db: Db, req: Request, svc: Services) returns (mid: Db, a: Article, status: Status, needsFetch: bool)
    requires ReachesAi(db, req, svc)
    ensures Ingest(db, req, svc) == AiStage(db, mid, a, status, needsFetch, req, svc)
    ensures a in mid.articles && mid.inferences == db.inferences
    ensures needsFetch == (req.force || FindByUrl(db.articles, req.url).None?)
    ensures !needsFetch ==> status == Cached && mid == db && a == db.articles[FindByUrl(db.articles, req.url).value]
    ensures needsFetch ==>
      var found := FindByUrl(db.articles, req.url);
      var f := FetchAndParse(SourceOf(req.url).value, req.url, svc);
      f.Got? && (mid, a, status) == Write(db, found, f.parsed, svc.now)
    ensures Valid(db) ==> Valid(mid)
  {
    var found := FindByUrl(db.articles, req.url);
    needsFetch := req.force || found.None?;
    if !needsFetch {
      mid, a, status := db, db.articles[found.value], Cached;
    } else {
      var f := FetchAndParse(SourceOf(req.url).value, req.url, svc);
      var w := Write(db, found, f.parsed, svc.now);
      mid, a, status := w.0, w.1, w.2;
      if Valid(db) {
        WriteKeepsValid(db, found, f.parsed, svc.now);
      }
    }
  }

  /** A write that passes the flush keeps unique URLs and keys, the foreign
      keys and the key counter. */
  lemma WriteKeepsValid(db: Db, found: Option<nat>, p: Parsing.ParsedArticle, now: int)
    requires found.Some? ==> found.value < |db.articles|
    requires Valid(db) && !UrlTaken(db.articles, found, p.url)
    ensures Valid(Write(db, found, p, now).0)
  {
    var mid := Write(db, found, p, now).0;
    forall k | 0 <= k < |db.inferences| ensures HasArticle(mid.articles, db.inferences[k].articleId) {
      var i :| 0 <= i < |db.articles| && db.articles[i].id == db.inferences[k].articleId;
      assert mid.articles[i].id == db.articles[i].id;
    }
  }

  /** A result is only returned from the AI stage. */
  lemma IngestedReachesAi(db: Db, req: Request, svc: Services)
    ensures Ingest(db, req, svc).1.Ingested? ==> ReachesAi(db, req, svc)
  {
    if !ReachesAi(db, req, svc) {
      ShortOfAiFails(db, req, svc);
    }
  }

  /** A call that stops before the AI stage returns an error or raises. */
  lemma ShortOfAiFails(db: Db, req: Request, svc: Services)
    requires !ReachesAi(db, req, svc)
    ensures !Ingest(db, req, svc).1.Ingested?
  {
    if req.url != [] && SourceOf(req.url).Some? {
      var found := FindByUrl(db.articles, req.url);
      var f := FetchAndParse(SourceOf(req.url).value, req.url, svc);
      assert Ingest(db, req, svc) == FetchStage(db, found, f, req, svc);
      FetchStageFails(db, found, f, req, svc);
    }
  }

  lemma FetchStageFails(db: Db, found: Option<nat>, fetched: Fetched, req: Request, svc: Services)
    requires found.Some? ==> found.value < |db.articles|
    requires !fetched.Got? || UrlTaken(db.articles, found, fetched.parsed.url)
    ensures !FetchStage(db, found, fetched, req, svc).1.Ingested?
  {
  }

  /** The AI is consulted exactly when `run_ai`, the configuration flag and
      (`force_ai`, no inference yet, or a fresh fetch) all hold; it sees the
      title and the first 4000 characters of the body. A failure is reported
      in `ai_error` and the write is kept; a success appends exactly one
      inference carrying the service's fields; an exception restores the
      state the call started from. */
  lemma AiStageRule(before: Db, db: Db, article: Article, status: Status, needsFetch: bool, req: Request, svc: Services)
    ensures var r := AiStage(before, db, article, status, needsFetch, req, svc);
      var runs := AiRuns(req, svc, db.inferences, article, needsFetch);
      var answer := Ai.SummarizeAndScore(svc.ai, svc.lib, article.title, Take(article.body, 4000), svc.client);
      (r.1.Ingested? ==>
        r.1.result.article == article && r.1.result.status == status
        && r.1.result.aiEnabled == Ai.AiEnabled(svc.ai.enableAi)
        && (r.1.result.aiRan || r.1.result.aiError.Some? <==> runs)
        && !(r.1.result.aiRan && r.1.result.aiError.Some?)
        && (r.1.result.aiError.Some? ==> answer == Ai.Unavailable(r.1.result.aiError.value) && r.0 == db)
        && (r.1.result.aiRan ==>
              answer.Scored?
              && r.0 == Db(db.articles, db.inferences + [RecordOf(db.nextId, article.id, answer.result, svc.now)], db.nextId + 1))
        && (!r.1.result.aiRan ==> r.0 == db))
      && (!r.1.Ingested? ==> r.1.Crash? && runs && answer.Crashed? && r.0 == before)
  {
  }

  /** Without `force`, a stored article is not fetched again: the status is
      `cached`, the articles table is untouched and the stored article is the
      one returned. */
  lemma CachedPath(db: Db, req: Request, svc: Services)
    requires req.url != [] && SourceOf(req.url).Some?
    requires !req.force && FindByUrl(db.articles, req.url).Some?
    ensures var r := Ingest(db, req, svc);
      r.1.Ingested? ==>
        r.1.result.status == Cached && r.0.articles == db.articles
        && r.1.result.article == db.articles[FindByUrl(db.articles, req.url).value]
  {
    var mid, a, status, needsFetch := WrittenState(db, req, svc);
    AiStageRule(db, mid, a, status, needsFetch, req, svc);
  }

  /** A fetched article that was not stored is appended with the parsed
      fields, a fresh key and the database clock: status `created`. */
  lemma CreatedPath(db: Db, req: Request, svc: Services)
    requires FindByUrl(db.articles, req.url).None?
    ensures var r := Ingest(db, req, svc);
      r.1.Ingested? ==>
        var f := FetchAndParse(SourceOf(req.url).value, req.url, svc);
        f.Got? && r.1.result.status == Created
        && r.1.result.article == Article(db.nextId, f.parsed.url, f.parsed.title, f.parsed.publishedAt, f.parsed.body, svc.now)
        && r.0.articles == db.articles + [r.1.result.article]
  {
    if Ingest(db, req, svc).1.Ingested? {
      IngestedReachesAi(db, req, svc);
      var mid, a, status, needsFetch := WrittenState(db, req, svc);
      AiStageRule(db, mid, a, status, needsFetch, req, svc);
    }
  }

  /** A forced fetch of a stored article overwrites its url, title,
      published_at and body in place and keeps its key and creation time:
      status `updated`. */
  lemma UpdatedPath(db: Db, req: Request, svc: Services)
    requires req.force && FindByUrl(db.articles, req.url).Some?
    ensures var r := Ingest(db, req, svc);
      r.1.Ingested? ==>
        var i := FindByUrl(db.articles, req.url).value;
        var f := FetchAndParse(SourceOf(req.url).value, req.url, svc);
        var x := r.1.result.article;
        f.Got? && r.1.result.status == Updated
        && x.id == db.articles[i].id && x.createdAt == db.articles[i].createdAt
        && x.url == f.parsed.url && x.title == f.parsed.title
        && x.publishedAt == f.parsed.publishedAt && x.body == f.parsed.body
        && r.0.articles == db.articles[i := x]
  {
    if Ingest(db, req, svc).1.Ingested? {
      IngestedReachesAi(db, req, svc);
      var mid, a, status, needsFetch := WrittenState(db, req, svc);
      AiStageRule(db, mid, a, status, needsFetch, req, svc);
    }
  }

  /** The stored article a result names is in the new store. */
  lemma ResultArticleStored(db: Db, req: Request, svc: Services)
    ensures Ingest(db, req, svc).1.Ingested? ==> Ingest(db, req, svc).1.result.article in Ingest(db, req, svc).0.articles
  {
    if Ingest(db, req, svc).1.Ingested? {
      IngestedReachesAi(db, req, svc);
      var mid, a, status, needsFetch := WrittenState(db, req, svc);
      AiStageRule(db, mid, a, status, needsFetch, req, svc);
    }
  }

  /** Ingestion keeps the schema's constraints: unique URLs, unique keys,
      foreign keys and the key counter. */
  lemma IngestKeepsValid(db: Db, req: Request, svc: Services)
    requires Valid(db)
    ensures Valid(Ingest(db, req, svc).0)
  {
    if ReachesAi(db, req, svc) {
      var mid, a, status, needsFetch := WrittenState(db, req, svc);
      AiStageKeepsValid(db, mid, a, status, needsFetch, req, svc);
    } else {
      FailuresLeaveStoreUnchanged(db, req, svc);
    }
  }

  lemma AiStageKeepsValid(before: Db, db: Db, article: Article, status: Status, needsFetch: bool, req: Request, svc: Services)
    requires Valid(before) && Valid(db) && article in db.articles
    ensures Valid(AiStage(before, db, article, status, needsFetch, req, svc).0)
  {
    AiStageRule(before, db, article, status, needsFetch, req, svc);
    var r := AiStage(before, db, article, status, needsFetch, req, svc);
    if r.1.Ingested? && r.1.result.aiRan {
      var i :| 0 <= i < |db.articles| && db.articles[i] == article;
      assert HasArticle(r.0.articles, article.id);
    }
  }

  /** Repeating a successful call without `force`, when the parsed URL was the
      requested one, finds the article again and leaves the articles table as
      it is. */
  lemma RepeatIsCached(db: Db, req: Request, svc: Services)
    requires Ingest(db, req, svc).1.Ingested?
    requires Ingest(db, req, svc).1.result.article.url == req.url
    ensures var db1 := Ingest(db, req, svc).0;
      var r := Ingest(db1, req.(force := false), svc);
      r.1.Ingested? ==> r.1.result.status == Cached && r.0.articles == db1.articles
  {
    var db1 := Ingest(db, req, svc).0;
    ResultArticleStored(db, req, svc);
    IngestedReachesAi(db, req, svc);
    var k :| 0 <= k < |db1.articles| && db1.articles[k] == Ingest(db, req, svc).1.result.article;
    assert db1.articles[k].url == req.url;
    CachedPath(db1, req.(force := false), svc);
  }

  /** If that first call also recorded an inference, a repeat that forces
      neither the fetch nor the AI changes nothing at all. */
  lemma RepeatAfterInferenceChangesNothing(db: Db, req: Request, svc: Services)
    requires Valid(db)
    requires Ingest(db, req, svc).1.Ingested?
    requires Ingest(db, req, svc).1.result.article.url == req.url
    requires Ingest(db, req, svc).1.result.aiRan
    ensures var db1 := Ingest(db, req, svc).0;
      Ingest(db1, req.(force := false, forceAi := false), svc).0 == db1
  {
    var r1 := Ingest(db, req, svc);
    var db1 := r1.0;
    var a := r1.1.result.article;
    IngestedReachesAi(db, req, svc);
    var mid, a0, status, needsFetch := WrittenState(db, req, svc);
    AiStageRule(db, mid, a0, status, needsFetch, req, svc);
    assert a in db1.articles;
    IngestKeepsValid(db, req, svc);
    var k :| 0 <= k < |db1.articles| && db1.articles[k] == a;
    var found := FindByUrl(db1.articles, req.url);
    assert db1.articles[k].url == req.url;
    assert found.value == k;
    var rec := db1.inferences[|db1.inferences| - 1];
    assert rec.articleId == a.id;
    assert Latest(db1.inferences, a.id).Some?;
    CachedWithInferenceKeeps(db1, req.(force := false, forceAi := false), svc);
  }

  /** A cached call on an article that has an inference, without `force_ai`,
      leaves the store as it is. */
  lemma CachedWithInferenceKeeps(db: Db, req: Request, svc: Services)
    requires req.url != [] && SourceOf(req.url).Some? && !req.force && !req.forceAi
    requires FindByUrl(db.articles, req.url).Some?
    requires Latest(db.inferences, db.articles[FindByUrl(db.articles, req.url).value].id).Some?
    ensures Ingest(db, req, svc).0 == db
  {
  }

  /** The one-inference-per-article rule survives every call that records no
      inference, and every call that records one for an article that had none. */
  lemma OnePerArticleWhenFirst(db: Db, req: Request, svc: Services)
    requires OnePerArticle(db.inferences)
    ensures var r := Ingest(db, req, svc);
      !r.1.Ingested? || !r.1.result.aiRan || Latest(db.inferences, r.1.result.article.id).None? ==>
        OnePerArticle(r.0.inferences)
  {
    if ReachesAi(db, req, svc) {
      var mid, a, status, needsFetch := WrittenState(db, req, svc);
      AiStageRule(db, mid, a, status, needsFetch, req, svc);
      var r := AiStage(db, mid, a, status, needsFetch, req, svc);
      if r.1.Ingested? && r.1.result.aiRan && Latest(db.inferences, a.id).None? {
        OnePerArticleAppend(db.inferences, RecordOf(mid.nextId, a.id, AiAnswer(svc, a).result, svc.now));
      }
    }
  }

  /** `force_ai` (as `ai rerun` passes it) on an article that already has an
      inference records a second one when the service answers: the schema's
      one-per-article rule is broken. */
  lemma ForceAiBreaksOnePerArticle(db: Db, req: Request, svc: Services)
    requires req.url != [] && SourceOf(req.url).Some?
    requires !req.force && FindByUrl(db.articles, req.url).Some?
    requires req.runAi && req.forceAi && Ai.AiEnabled(svc.ai.enableAi)
    requires Latest(db.inferences, db.articles[FindByUrl(db.articles, req.url).value].id).Some?
    requires AiAnswer(svc, db.articles[FindByUrl(db.articles, req.url).value]).Scored?
    ensures Ingest(db, req, svc).1.Ingested? && Ingest(db, req, svc).1.result.aiRan
    ensures !OnePerArticle(Ingest(db, req, svc).0.inferences)
  {
    var a := db.articles[FindByUrl(db.articles, req.url).value];
    var prev := Latest(db.inferences, a.id).value;
    var k :| 0 <= k < |db.inferences| && db.inferences[k] == prev;
    var after := Ingest(db, req, svc).0.inferences;
    assert after[k] == prev;
    assert after[|db.inferences|].articleId == a.id;
  }

  // ---------------------------------------------------------------- read side

  /** The dictionary `risk_level_payload` builds. */
  datatype LevelPayload = LevelPayload(slug: string, name: string, badge: string, description: string,
                                       minScore: int, maxScore: Option<int>)

  /** `risk_level_payload(score)` */
  function RiskLevelPayload(score: Option<int>): Option<LevelPayload> {
    var level := Risk.Classify(score);
    if level.None? then None
    else Some(LevelPayload(level.value.slug, level.value.name, level.value.badge, level.value.description,
                           level.value.minScore, level.value.maxScore))
  }

  /** No score gives no payload; a score gives the six fields of its band. */
  lemma RiskLevelPayloadRule(score: Option<int>)
    ensures score.None? <==> RiskLevelPayload(score).None?
    ensures score.Some? ==>
      var b := Risk.Classify(score).value;
      var p := RiskLevelPayload(score).value;
      p.slug == b.slug && p.name == b.name && p.badge == b.badge && p.description == b.description
      && p.minScore == b.minScore && p.maxScore == b.maxScore
      && (p.slug == "high" <==> score.value >= 80)
  {
    if score.Some? {
      Risk.ClassifyThresholds(score.value);
    }
  }

  datatype InferenceDict = InferenceDict(id: nat, riskScore: int, riskLevel: Option<LevelPayload>, summary: string,
                                         model: string, promptVersion: string, createdAt: int)

  datatype ArticleDict = ArticleDict(
    id: nat, url: string, title: string, publishedAt: Option<DateTime>, body: string, createdAt: int,
    inference: Option<InferenceDict>, inferenceHistory: seq<InferenceDict>, riskLevel: Option<LevelPayload>)

  function InferenceToDict(x: Inference): InferenceDict {
    InferenceDict(x.id, x.riskScore, RiskLevelPayload(Some(x.riskScore)), x.summary, x.model, x.promptVersion, x.createdAt)
  }

  function History(records: seq<Inference>): (r: seq<InferenceDict>)
    ensures |r| == |records|
    ensures forall i :: 0 <= i < |records| ==> r[i] == InferenceToDict(records[i])
  {
    if records == [] then [] else [InferenceToDict(records[0])] + History(records[1..])
  }

  /** `article_to_dict(article)` */
  function ArticleToDict(article: Article, inferences: seq<Inference>): ArticleDict {
    var history := History(InferencesOf(inferences, article.id));
    var latest := Latest(inferences, article.id);
    ArticleDict(article.id, article.url, article.title, article.publishedAt, article.body, article.createdAt,
                if history == [] then None else Some(history[0]),
                history,
                if latest.None? then None else RiskLevelPayload(Some(latest.value.riskScore)))
  }

  /** The dictionary's `inference` is the first record of the history (log
      order), present exactly when the article has an inference; its
      `risk_level` is the band of the latest inference and is present in
      exactly the same cases. */
  lemma ArticleToDictRule(article: Article, inferences: seq<Inference>)
    ensures var d := ArticleToDict(article, inferences);
      (d.inference.None? <==> forall k :: 0 <= k < |inferences| ==> inferences[k].articleId != article.id)
      && (d.riskLevel.None? <==> d.inference.None?)
      && (d.inference.Some? ==> d.inference.value == d.inferenceHistory[0])
      && (d.riskLevel.Some? ==> d.riskLevel == RiskLevelPayload(Some(Latest(inferences, article.id).value.riskScore)))
      && |d.inferenceHistory| <= |inferences|
  {
    var records := InferencesOf(inferences, article.id);
    if records != [] {
      assert records[0] in records;
    }
  }

  /** `parse_date(value)`: no value or an empty one gives `None`; otherwise
      the parser's answer, `None` when it fails. */
  function ParseDate(lib: Lib, value: Option<string>): (r: Option<DateTime>)
    ensures value.None? || value == Some([]) ==> r.None?
    ensures value.Some? && value.value != [] ==> r == lib.dateutilParse(value.value)
  {
    if value.None? || value.value == [] then None else lib.dateutilParse(value.value)
  }

  // ---------------------------------------------------------------- list filters

  /** The filters of `article_select`. */
  datatype Filter = Filter(query: string, start: Option<DateTime>, end: Option<DateTime>, band: Option<Risk.RiskBand>)

  /** `ilike '%q%'` for a query without wildcards: an ASCII-case-insensitive substring test. */
  predicate MatchesQuery(text: string, query: string) {
    Contains(Lower(text), Lower(query))
  }

  /** The `where` clauses: the query on title or body; the date bounds, which
      a missing published date never satisfies; the band on the score of the
      latest inference, which an article without inference never satisfies. */
  predicate Selected(a: Article, inferences: seq<Inference>, f: Filter) {
    (f.query == [] || MatchesQuery(a.title, f.query) || MatchesQuery(a.body, f.query))
    && (f.start.None? || (a.publishedAt.Some? && a.publishedAt.value.stamp >= f.start.value.stamp))
    && (f.end.None? || (a.publishedAt.Some? && a.publishedAt.value.stamp <= f.end.value.stamp))
    && (f.band.None? ||
        (var latest := Latest(inferences, a.id);
         latest.Some? && latest.value.riskScore >= f.band.value.minScore
         && (f.band.value.maxScore.None? || latest.value.riskScore <= f.band.value.maxScore.value)))
  }

  /** The selected articles, in table order. */
  function ArticleSelect(articles: seq<Article>, inferences: seq<Inference>, f: Filter): (r: seq<Article>)
    ensures forall a :: a in r <==> a in articles && Selected(a, inferences, f)
    ensures |r| <= |articles|
  {
    if articles == [] then []
    else (if Selected(articles[0], inferences, f) then [articles[0]] else [])
         + ArticleSelect(articles[1..], inferences, f)
  }

  /** A band filter keeps exactly the articles whose latest inference the
      classifier puts in that band. */
  lemma BandFilterIsClassification(a: Article, inferences: seq<Inference>, band: Risk.RiskBand)
    requires band in Risk.Levels
    requires Latest(inferences, a.id).Some? && Latest(inferences, a.id).value.riskScore >= 0
    ensures Selected(a, inferences, Filter([], None, None, Some(band))) <==>
      Risk.Classify(Some(Latest(inferences, a.id).value.riskScore)) == Some(band)
  {
    Risk.ClassifyThresholds(Latest(inferences, a.id).value.riskScore);
  }

  datatype Direction = Asc | Desc

  /** The sort column (unknown keys fall back to `published_at`) and the
      direction (anything but "desc" sorts ascending). */
  function SortOrder(sortKey: string, order: string): (r: (string, Direction))
    ensures r.0 in {"published_at", "created_at", "title"}
    ensures sortKey in {"published_at", "created_at", "title"} ==> r.0 == sortKey
    ensures r.1 == Desc <==> order == "desc"
  {
    (if sortKey in {"published_at", "created_at", "title"} then sortKey else "published_at",
     if order == "desc" then Desc else Asc)
  }
}
