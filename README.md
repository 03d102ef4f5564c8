# Article ingestion and risk pipeline, in Dafny

This project models the core of a Flask news-scraping application. The
application ingests news articles from three sources (Yahoo! News, @nifty
News and a local "Virtual News" site), scores them with an AI model, and
classifies the score into one of four risk bands. It also offers a
per-client rate limiter for the API, a mock news feed, a dashboard of
metrics, and three batch commands: `scrape feed`, `ai rerun` and
`export csv`.

The model is organised by the program's own files:

| module | file | flavour |
|---|---|---|
| `Risk` | app/services/risk.py | pure: the band table, the first-match classifier, the slug lookup |
| `Scraping` | app/services/scraping.py | the URL allow-list, the fetch pre-check and error kinds, the retry policy |
| `Ai` | app/services/ai.py | the checks on the model's reply, clamping and stripping |
| `Parsing`, `NiftyNews`, `VirtualNews` | the three parsers | fallback chains as functions; the loops that collect paragraphs as methods |
| `Models` | app/models/article.py | the records, the schema constraints as predicates, and the latest inference per article |
| `Articles` | app/services/articles.py | `ingest_article` as a method on a `Store` class, next to the function that specifies it |
| `NewsFeed` | app/services/news_feed.py | provider filtering, feed URLs, the mock `fetch_latest_articles`, the cache |
| `RateLimit` | app/__init__.py | the key taken from the request headers; the sliding window as a `RateLimiter` class |
| `Analytics` | app/services/analytics.py | the dashboard metrics; the band-distribution loop as a method |
| `Cli` | app/cli.py | the three batch commands as loops, each proved against a function |

`Common`, `Json`, `Html` and `External` are supporting modules:

- `Common` holds Python's string helpers: `strip`, `lower`, `title` and `join`.
- `Json` is a JSON value type.
- `Html` stands for a parsed page: a map from CSS selector to the nodes it matches.
- `External` bundles the library functions the program calls as opaque parameters: date parsing, `json.loads` and `fromisoformat`.

Every state-changing operation follows the same pattern:

- A method performs it step by step.
- Its `ensures` ties the new state and the result to a function of the old state.
- Lemmas about that function state what the program promises.

For example:

- `Articles.Store.IngestArticle` is specified by `Articles.Ingest`.
- `RateLimit.RateLimiter.ApplyRateLimit` is specified by `RateLimit.Admit`.
- `Cli.ScrapeFeedCommand` is specified by `Cli.ScrapeFeed`.

Some properties hold for the code but not for the documentation or the tests:

- **The fetcher's allow-list blocks non-Yahoo URLs.**
  - `scraping.fetch` repeats the allow-list check, and only Yahoo! URLs pass it.
  - So an @nifty URL that must be fetched always ends in a 502. So does a Virtual News URL that is not also on the Yahoo! allow-list (`Articles.NonYahooSourcesFail`).
  - In particular, every URL the mock feed produces is such a Virtual News URL. With `--force`, or with no such article stored, `scrape feed` therefore only counts errors (`Cli.ScrapeFeedOnlyErrors`).
  - A Virtual News URL that also satisfies the allow-list is fetched normally.
- **The @nifty parser follows the code.**
  - A URL containing `/article/` is not an @nifty URL.
  - The body comes from the `div.article_body` or `article` paragraphs.
  - The title is not shortened.
- **The mock feed has no RSS and uses no cache.** `fetch_latest_articles` ignores the provider's URLs and the cache; it sorts and slices the Virtual News table.

## Model

| member | source | states |
|---|---|---|
| Risk.FirstMatch | app/services/risk.py:57-61 | the band the scan stops at is in the table and matches the score; when the scan finds nothing, no band of the table matches |
| Risk.Classify | app/services/risk.py:54-62 | no score gives no band, any score gives a band of the table |
| Risk.ClassifyUnfolded | app/services/risk.py:18-62 | the first-match scan over the four bands equals the threshold cascade 80 / 60 / 40 / otherwise low |
| Risk.ClassifyTotal | app/services/risk.py:54-62 | every integer score gets a band; a non-negative score gets a band whose range contains it; a negative score falls through to the last band, `low` |
| Risk.ClassifyThresholds | app/services/risk.py:18-62 | each band is chosen exactly on its range (both directions): high iff >= 80, elevated iff 60-79, moderate iff 40-59, low iff <= 39 |
| Risk.BandsPartition | app/services/risk.py:18-51 | the band ranges do not overlap, cover every non-negative score, and only `high` is open above |
| Risk.ClassifyMonotone | app/services/risk.py:54-62 | a higher score never gets a less severe band |
| Risk.FindSlug | app/services/risk.py:73-76 | the band found carries the slug asked for; no band is found only when none carries it |
| Risk.Slugs | app/services/risk.py:79-80 | one slug per band, in table order |
| Risk.SlugsInTableOrder | app/services/risk.py:79-80 | the slugs are exactly high, elevated, moderate, low |
| Risk.LevelBySlugRoundTrip | app/services/risk.py:69-76 | looking up a band's own slug gives that band back; a slug finds a band exactly when its lower-casing is that band's slug |
| Risk.SlugsDistinct | app/services/risk.py:18-51 | no two bands share a slug |
| Risk.LevelBySlugRule | app/services/risk.py:69-76 | a missing or empty slug finds nothing; lookup ignores case; a slug whose lower-casing is not a band slug finds nothing |
| Scraping.EmptyIsNotAllowed | app/services/scraping.py:36-37 | the empty URL is refused |
| Scraping.RejectionRule | app/services/scraping.py:34-42 | a scheme other than http or https is refused; a URL whose stripped form starts with neither prefix is refused |
| Scraping.HttpsScheme | app/services/scraping.py:38-40 | a URL that begins with `https://` has the scheme `https`, so the scheme test passes |
| Scraping.SchemeBeforeColon | app/services/scraping.py:38 | the scheme of a URL is its lower-cased text before the first colon when that text is a well-formed scheme |
| Scraping.PrefixedIsAllowed | app/services/scraping.py:34-42 | every URL that starts with the articles prefix or the pickup prefix is allowed |
| Scraping.ForeignPrefixIsNotAllowed | app/services/scraping.py:34-42 | a URL that starts with an unpadded prefix differing from both Yahoo prefixes in its first 14 characters is refused |
| Scraping.RetryPolicy | app/services/scraping.py:45-57 | the session retries exactly GET requests answered 429, 500, 502, 503 or 504; without configuration it retries twice with backoff 0.5 and sends the default user agent |
| Scraping.DisallowedFailsBeforeRequest | app/services/scraping.py:60-62 | a refused URL fails with the not-allowed message whatever the network would have done, so no request is made |
| Scraping.FailureKindsDistinct | app/services/scraping.py:62-82 | the timeout, HTTP-status, network and not-allowed messages are pairwise different, and the HTTP message quotes the status code |
| Scraping.WithEncoding | app/services/scraping.py:70-71 | the response always ends with an encoding: the declared one, else the apparent one; its other fields are unchanged |
| Scraping.FetchedEncoding | app/services/scraping.py:61-72 | a fetch succeeds exactly for an allowed URL answered with a non-error status; the response then has the declared encoding, or the apparent encoding when none was declared, and is otherwise unchanged |
| Scraping.HttpMessageShape | app/services/scraping.py:76-79 | the HTTP-status message starts with the fixed failure text and contains the status code |
| Ai.ExtractText | app/services/ai.py:104-110 | there is no text exactly when the response has no choices, the list is empty or the first message lacks a `content` attribute |
| Ai.Truncate | app/services/ai.py:93 | `int()` on a float truncates toward zero: below the value for positive numbers, above it for negative ones, within one |
| Ai.Clamp | app/services/ai.py:94 | the score ends in 1..100, unchanged when already there, 1 below and 100 above |
| Ai.GuardsPrecedeCall | app/services/ai.py:33-42 | when AI is disabled, the key is missing or empty, or the client library is absent, the result does not depend on the client (no call is made) and carries the matching message: disabled, then missing key, then missing `openai` package |
| Ai.RequestShape | app/services/ai.py:44-74 | the request uses the configured model, temperature 0.2, 500 tokens, a JSON-object response format, the configured timeout (default 30), and a user prompt ending with the body |
| Ai.UnusableRepliesFail | app/services/ai.py:79-110 | a reply without choices fails with the format message; a reply whose text is not JSON fails with the parse message |
| Ai.BadPayloadsFail | app/services/ai.py:87-91 | a payload that is not an object crashes; a missing or non-string summary, or a missing or non-numeric risk_score, fails with the format message |
| Ai.ScoredResultRule | app/services/ai.py:93-101 | a scored result has a score in 1..100, a stripped summary, the configured model and the prompt version (default "v1") |
| Ai.InRangeScorePassesThrough | app/services/ai.py:87-101 | an integer score already in 1..100 is kept, with the summary stripped |
| Ai.FractionalScores | app/services/ai.py:93-94 | 42.9 becomes 42 and -3.5 becomes 1 |
| Analytics.HighRiskCount | app/services/analytics.py:30-35 | the count of rows scored 70 or more is at most the number of rows |
| Analytics.HighRiskCountSplit | app/services/analytics.py:30-35 | the high-risk count adds up over any split of the inference table |
| Analytics.HighRiskCountBounds | app/services/analytics.py:30-35 | the count is every row when all scores are at least 70 and zero when none is |
| Analytics.SumScoresBounds | app/services/analytics.py:37 | scores between two bounds sum to between the bounds times the row count |
| Analytics.AverageBounds | app/services/analytics.py:37 | with no row the average is 0.0; the mean of scores in 1..100 lies in 1..100 |
| Analytics.ScoredArticles | app/services/analytics.py:40-54 | the window's partitions: exactly the articles with an inference row, each once |
| Analytics.LatestScores | app/services/analytics.py:40-58 | one latest score (`rn == 1`) per scored article |
| Analytics.BandCount | app/services/analytics.py:60-64 | a band's count never exceeds the number of scores |
| Analytics.BandCountsSum | app/services/analytics.py:60-64 | the four band counts add up to the number of scores counted |
| Analytics.DistributionRule | app/services/analytics.py:60-64 | the distribution's keys are exactly the four slugs, its counts add up to the number of scored articles, and an empty table gives four zeros |
| Analytics.TallySnoc | app/services/analytics.py:61-64 | counting one more score raises its own band by one and leaves the others |
| Analytics.CountBands | app/services/analytics.py:60-64 | the counting loop yields the band distribution of the latest scores |
| Analytics.HighestRow | app/services/analytics.py:88-94 | no row is found exactly when no inference joins a stored article; the row found joins one and no joined row comes before it in score-then-date descending order |
| Analytics.ArticleById | app/services/analytics.py:90-91 | the article found is stored and has the key asked for; none is found exactly when no stored article has it |
| Analytics.HighestRiskRule | app/services/analytics.py:88-94 | no joined row gives no highest-risk triple; otherwise the triple is a stored article's key and title with the largest joined score |
| Analytics.CoverageBounds | app/services/analytics.py:72-74 | coverage is in 0..1, zero without articles, and the plain ratio when there are no more inferences than articles |
| Analytics.GatherMetrics | app/services/analytics.py:24-85 | the metrics computed with the counting loop equal the dashboard metrics over the two tables |
| Models.Latest | app/services/analytics.py:44-57 | an article has no latest inference exactly when it has none; the latest is one of its own and none of its others comes before it in `created_at desc, id desc` |
| Models.InferencesOf | app/models/article.py:26-45 | exactly the article's own inferences, no more rows than the table |
| Models.LatestAfterAppend | app/services/analytics.py:44-57 | after an append the article's latest is the new row exactly when it is newer than the previous latest |
| Models.LatestOtherArticle | app/services/analytics.py:44-57 | appending a row for one article leaves every other article's latest unchanged |
| Models.OnePerArticleAppend | app/models/article.py:43-45 | the first inference of an article keeps `article_id` unique |
| Articles.SourceOf | app/services/articles.py:146-157 | the parser is chosen in order: @nifty News when the URL is @nifty's, else Virtual News when it is Virtual News', else Yahoo! when the allow-list accepts it, else none |
| Articles.FindByUrl | app/services/articles.py:165 | the row found has the requested URL; none is found only when no stored article has it |
| Articles.Write | app/services/articles.py:206-220 | the written article carries the parsed url, title, date and body; a new one is appended with the next key, the clock as `created_at` and the status `created`; a stored one is overwritten at its own position, keeping its key and `created_at`, with the status `updated`; inferences untouched |
| Articles.Store.IngestArticle | app/services/articles.py:134-254 | the step-by-step ingestion leaves the store in the state, and returns the outcome, of the ingestion function |
| Articles.Store.StoreFetched | app/services/articles.py:197-222 | the error mapping, the in-place write, the flush that rejects a duplicate URL and rolls back, and the AI stage agree with the fetch-stage function |
| Articles.Store.RunAi | app/services/articles.py:224-254 | the AI stage on the store agrees with the AI-stage function, including the rollback when an exception escapes |
| Articles.EmptyUrlRejected | app/services/articles.py:143-144 | an empty URL is rejected with 400 and the store is untouched |
| Articles.UnsupportedUrlRejected | app/services/articles.py:146-163 | a URL no parser accepts is rejected with 400 and the store is untouched |
| Articles.FailuresLeaveStoreUnchanged | app/services/articles.py:159-246 | every call that ends in an error or an exception leaves the store as it was |
| Articles.FetchAndParseFailureCodes | app/services/articles.py:197-204 | a fetch failure is a 502 carrying the fetcher's message and a parse failure a 422 with the fixed message |
| Articles.NiftyIsNotAllowed | app/services/articles.py:147 | an @nifty News URL is never on the fetcher's allow-list |
| Articles.NonYahooSourcesFail | app/services/articles.py:170-200 | every @nifty URL, and every Virtual News URL not also allowed as Yahoo!, ends in a 502 with the allow-list message whenever it must be fetched; the store is untouched |
| Articles.WrittenState | app/services/articles.py:165-222 | once past the fetch and flush, the call is the AI stage started from the store (cached path) or from the written store, and the write keeps the schema's constraints |
| Articles.WriteKeepsValid | app/services/articles.py:206-222 | a write that passes the flush keeps URLs and keys unique, foreign keys intact and the key counter ahead |
| Articles.IngestedReachesAi | app/services/articles.py:134-254 | a call that returns a result got past classification, fetch, parse and flush |
| Articles.ShortOfAiFails | app/services/articles.py:143-204 | a call that stops before the AI stage returns an error or raises |
| Articles.AiStageRule | app/services/articles.py:224-254 | the AI is asked exactly when `run_ai`, the flag and (`force_ai`, no inference yet, or a fresh fetch) hold; a failure goes into `ai_error` and keeps the write; a success appends one inference with the service's fields; an exception restores the starting state |
| Articles.CachedPath | app/services/articles.py:165-254 | without `force` a stored article is not fetched: status `cached`, the articles table unchanged, the stored article returned |
| Articles.CreatedPath | app/services/articles.py:206-214 | an unstored article is appended with the parsed fields, a fresh key and the database clock: status `created` |
| Articles.UpdatedPath | app/services/articles.py:215-220 | a forced fetch of a stored article rewrites url, title, published_at and body in place and keeps its key and creation time: status `updated` |
| Articles.ResultArticleStored | app/services/articles.py:248-254 | the article a result names is in the new store |
| Articles.IngestKeepsValid | app/services/articles.py:134-254 | ingestion keeps the schema's constraints: unique URLs, unique keys, foreign keys and the key counter |
| Articles.RepeatIsCached | app/services/articles.py:165-168 | repeating a successful call without `force` (parsed URL equal to the requested one) finds the article and leaves the articles table alone |
| Articles.RepeatAfterInferenceChangesNothing | app/services/articles.py:165-230 | when the first call also recorded an inference, a repeat forcing neither fetch nor AI changes nothing |
| Articles.CachedWithInferenceKeeps | app/services/articles.py:228-230 | a cached call on an article that has an inference, without `force_ai`, leaves the store as it was |
| Articles.OnePerArticleWhenFirst | app/services/articles.py:230-244 | the one-inference-per-article rule survives every call that records nothing or records a first inference |
| Articles.ForceAiBreaksOnePerArticle | app/services/articles.py:230-244 | `force_ai` on an article that already has an inference records a second one when the service answers, breaking the unique `article_id` |
| Articles.RiskLevelPayloadRule | app/services/articles.py:94-105 | no score gives no payload; a score gives the six fields of its band, `high` exactly from 80 |
| Articles.History | app/services/articles.py:109-120 | one dictionary per inference record, in order |
| Articles.ArticleToDictRule | app/services/articles.py:108-131 | `inference` is the history's first record and present exactly when the article has one; `risk_level` is the latest inference's band and present in the same cases |
| Articles.ParseDate | app/services/articles.py:36-42 | no value or an empty one gives none; otherwise the parser's answer, none when it fails |
| Articles.ArticleSelect | app/services/articles.py:45-81 | exactly the stored articles that pass the query, date and band filters |
| Articles.BandFilterIsClassification | app/services/articles.py:69-81 | a band filter keeps exactly the articles whose latest score the classifier puts in that band |
| Articles.SortOrder | app/services/articles.py:83-91 | the sort column is one of the three, the requested one when known; the direction is descending exactly for "desc" |
| Articles.AiStageKeepsValid | app/services/articles.py:224-246 | the AI stage keeps the schema's constraints: unique URLs and keys, and every inference, the new one included, references a stored article |
| Parsing.FirstArticleAppend | app/services/parsing.py:49-68 | the scan over two candidate runs is the scan of the first run unless it found nothing there |
| Parsing.FirstArticleIsFirst | app/services/parsing.py:63-67 | a pick is one of the candidates; nothing is picked exactly when every candidate is a non-dict or a dict of another `@type` |
| Parsing.CandidatesAppend | app/services/parsing.py:49-61 | the candidates of two script runs are those of the first followed by those of the second |
| Parsing.FirstArticleDecided | app/services/parsing.py:63-67 | the first candidate the scan does not pass over decides the pick, whatever follows |
| Parsing.PickDecided | app/services/parsing.py:47-68 | a candidate that decides the scan of one script decides the pick over all scripts |
| Parsing.PickJsonLd | app/services/parsing.py:47-68 | the nested loop returns the first article-typed dict over the scripts in order, skipping blank and undecodable scripts and flattening top-level lists one level |
| Parsing.ScanScript | app/services/parsing.py:63-67 | the inner loop either decides the overall pick or leaves the scan undecided through this script |
| Parsing.FallbackTitleRule | app/services/parsing.py:71-80 | an `og:title` with content wins (stripped), then a non-empty `<title>` (stripped), then the `<h1>` text, else "(タイトル不明)" |
| Parsing.TimeFallback | app/services/parsing.py:88-91 | the `<time>` fallback never yields an empty text |
| Parsing.FindMetaContent | app/services/parsing.py:83-91 | the loop tries datePublished, article:published_time, pubdate in order, the `property` match before the `name` match, then the `<time>` tag |
| Parsing.PropertyShadowsName | app/services/parsing.py:85-87 | a `property` tag without content hides the `name` tag of the same attribute: the lookup moves on to the next attribute |
| Parsing.ParseDateTimeRule | app/services/parsing.py:94-107 | missing, empty and unparsable text give none; a parsed timestamp keeps its instant and always has a zone, Asia/Tokyo when it had none |
| Parsing.NonEmptyTexts | app/services/parsing.py:120 | only non-empty texts are kept, no more than the nodes |
| Parsing.NonEmptyTextsAppend | app/services/parsing.py:120 | filtering empty texts distributes over concatenation |
| Parsing.DomParagraphsFirstSelector | app/services/parsing.py:118-123 | the paragraphs are empty exactly when every selector yields nothing; otherwise they are those of the first selector yielding any, and the earlier ones yield none |
| Parsing.DomBodyEmpty | app/services/parsing.py:110-124 | the DOM body is empty exactly when no body selector yields a non-empty text |
| Parsing.ExtractBodyFromDom | app/services/parsing.py:110-124 | the selector loop with its `break` produces the DOM body: the first non-empty selector's texts joined with a blank line |
| Parsing.ParseArticle | app/services/parsing.py:27-44 | the step-by-step parse yields the outcome of the parse function |
| Parsing.ParsedUrlIsInput | app/services/parsing.py:35-44 | the parsed URL is the URL the parser was given |
| Parsing.JsonLdFields | app/services/parsing.py:31-35 | the JSON-LD branch never raises ParseError and parses exactly when the chosen title and body fields are strings or absent; the title is a non-empty `title`, else a non-empty `headline`, else the fallback; the body is a non-empty `articleBody`, else the DOM body; the date comes from `datePublished` |
| Parsing.JsonLdPath | app/services/parsing.py:30-35 | with a JSON-LD article on the page the parse is that article's JSON-LD branch: never ParseError, and a parse exactly when the chosen fields are strings or absent |
| Parsing.NoJsonLdPath | app/services/parsing.py:37-44 | without JSON-LD, ParseError is raised exactly when no body selector yields text; otherwise the title is the fallback and the date comes from the meta lookup |
| NiftyNews.TitleRule | app/services/nifty_news.py:39-98 | the title is never empty; a page with `h1.article_title` takes its text, or the sentinel when that text is empty, whatever else the page holds |
| NiftyNews.FindTitle | app/services/nifty_news.py:39-51 | the selector loop with its `break` yields the first selector's result: an element's text even when empty, the `og:title` content only when non-empty |
| NiftyNews.ScanJsonLd | app/services/nifty_news.py:54-67 | the JSON-LD loop yields the first parsable `datePublished` of a dict, with `Z` read as +00:00; a script without text raises an uncaught error |
| NiftyNews.JsonLdDateWins | app/services/nifty_news.py:54-78 | a date found in JSON-LD wins over the `<time class="article_date">` fallback |
| NiftyNews.LongParagraphs | app/services/nifty_news.py:89-92 | the kept paragraphs are longer than ten characters and come from the input |
| NiftyNews.LongParagraphsAppend | app/services/nifty_news.py:89-92 | the paragraph filter distributes over concatenation, so order is kept |
| NiftyNews.CollectBody | app/services/nifty_news.py:81-92 | the append loop over the container's paragraphs collects exactly the long paragraphs of `div.article_body`, else of `<article>` |
| NiftyNews.BodyRule | app/services/nifty_news.py:83-100 | the body is "本文取得失敗" or the long paragraphs joined with a blank line, each longer than ten characters |
| NiftyNews.ParseArticle | app/services/nifty_news.py:25-101 | the step-by-step parse yields the outcome of the parse function |
| NiftyNews.ParseNeverFailsToParse | app/services/nifty_news.py:25-101 | the @nifty parser never raises ParseError; a result has the input URL and a non-empty title and body; it raises only when a script has no text |
| VirtualNews.Published | app/services/virtual_news_parser.py:39-47 | a date is set exactly when the meta line exists and matches the format; it is then the parsed stamp, naive |
| VirtualNews.NonEmpty | app/services/virtual_news_parser.py:53-56 | only non-empty paragraph texts are kept, each from the input |
| VirtualNews.NonEmptyAppend | app/services/virtual_news_parser.py:53-56 | the filter distributes over concatenation, so order is kept |
| VirtualNews.ParseArticle | app/services/virtual_news_parser.py:21-65 | the append loop over `div.article_body` yields the article of the parse function |
| VirtualNews.ParseRule | app/services/virtual_news_parser.py:35-65 | the URL is echoed, the body is never empty ("本文取得失敗" without the container), a found date is naive, and the title is the sentinel only when the heading is absent or reads as the sentinel |
| NewsFeed.ProviderLabelRule | app/services/news_feed.py:58-62 | a provider known in any case gets its configured label "Virtual News", any other name is title-cased, and the lookup ignores case |
| NewsFeed.KnownLowered | app/services/news_feed.py:67 | the filter keeps exactly the lower-cased slugs that name a known provider: every kept slug is known, every known configured slug is kept, and nothing is added |
| NewsFeed.KnownLoweredFrom | app/services/news_feed.py:67 | every enabled provider is the lower-casing of some configured slug |
| NewsFeed.EnabledProvidersKnown | app/services/news_feed.py:65-68 | the enabled providers are never empty and are lower-case known providers |
| NewsFeed.EnabledAreVirtualNews | app/services/news_feed.py:22-68 | with one provider configured in the settings, every enabled provider is `virtual_news` |
| NewsFeed.EnabledProvidersFromConfig | app/services/news_feed.py:66-67 | every configured (or default) slug naming a known provider is enabled, lower-cased |
| NewsFeed.EnabledProvidersFallback | app/services/news_feed.py:68 | when no configured slug names a known provider, the result is `("virtual_news",)` |
| NewsFeed.ProviderIsLowerCase | app/services/news_feed.py:20-23 | the provider key is already lower case, so the lower-cased lookup finds it |
| NewsFeed.FeedUrlsRule | app/services/news_feed.py:71-83 | an unknown provider yields no URL; a truthy configured list replaces the defaults; an empty URL is never yielded |
| NewsFeed.LexLtAsymmetric | app/services/news_feed.py:98 | Python's string order on the ISO texts is asymmetric, which the descending sort relies on |
| NewsFeed.InsertDesc | app/services/news_feed.py:98 | inserting an entry into a newest-first list keeps it newest first and adds exactly that entry |
| NewsFeed.SortDesc | app/services/news_feed.py:97-98 | the sort with `reverse=True` yields a newest-first permutation of the table |
| NewsFeed.PySlice | app/services/news_feed.py:102 | `s[:limit]` is a prefix of length `min(limit, len)` for a non-negative limit and `max(0, len + limit)` for a negative one |
| NewsFeed.PublishedTime | app/services/news_feed.py:104-110 | the item time always carries a time zone: naive parses are tagged UTC and failures fall back to the current UTC time |
| NewsFeed.Shown | app/services/news_feed.py:97-102 | the shown entries are no more than the table holds |
| NewsFeed.LatestItems | app/services/news_feed.py:100-122 | one item per shown entry, in order, each built from that entry with the provider label as source |
| NewsFeed.FetchLatestArticles | app/services/news_feed.py:90-122 | the append loop returns exactly the items of the specification function |
| NewsFeed.LatestCount | app/services/news_feed.py:102 | a non-negative limit yields `min(limit, len(ARTICLES))` items |
| NewsFeed.LatestOrdered | app/services/news_feed.py:97-102 | the shown entries are newest first and a sub-multiset of the table |
| NewsFeed.LatestItemsShape | app/services/news_feed.py:104-120 | every item has the provider label as source, the provider as given, a zoned time, and a Virtual News article URL |
| NewsFeed.FeedItemUrl | app/services/news_feed.py:115 | the URL built for an entry starts with the article prefix and is a Virtual News URL |
| NewsFeed.ItemUrlsDistinct | app/services/news_feed.py:115 | entries with different keys get different URLs |
| NewsFeed.TableKeysDistinct | app/blueprints/virtual_news.py:6-37 | the article table's keys are distinct, as a dictionary's are |
| NewsFeed.FeedCache.Clear | app/services/news_feed.py:48-55 | clearing leaves the cache empty |
| RateLimit.ClientIpRule | app/__init__.py:55-59 | with an `X-Forwarded-For` header the address is the stripped text before its first comma (the whole stripped header when there is no comma), holding no comma; without it the peer address, or "" when there is none |
| RateLimit.StripIsInfix | app/__init__.py:57 | stripping keeps only characters of the input |
| RateLimit.StripInfixChar | app/__init__.py:57 | a character of the stripped text occurs in the input |
| RateLimit.StripIdempotent | app/__init__.py:57-64 | stripping twice is stripping once |
| RateLimit.CredentialRule | app/__init__.py:60-65 | a non-empty `Authorization` header gives its stripped text; otherwise the credential is "api:" plus the stripped `X-API-Key`, empty exactly when that key is blank |
| RateLimit.Evict | app/__init__.py:84-85 | eviction leaves a suffix of the bucket whose first time is within the window, having dropped only times more than a window old |
| RateLimit.RateLimiter.ApplyRateLimit | app/__init__.py:51-91 | the pop-left loop and the check leave the buckets and the response exactly as the admission function says |
| RateLimit.DisabledPasses | app/__init__.py:74-78 | a non-positive limit or a request outside the `api` blueprint passes and changes no bucket |
| RateLimit.OnlyKeyChanges | app/__init__.py:80-90 | a call changes no bucket but the one of its own key |
| RateLimit.RejectionRule | app/__init__.py:87-90 | a request is rejected with 429 exactly when the evicted bucket holds `limit` or more times; a rejected request is not recorded, an admitted one is appended |
| RateLimit.EvictKeepsWindow | app/__init__.py:70-85 | for times recorded in order, eviction keeps exactly the times at most a window old |
| RateLimit.EvictedIsRecent | app/__init__.py:84-85 | each kept time of an ordered bucket is within the window |
| RateLimit.RecentIsKept | app/__init__.py:84-85 | a time within the window is never evicted |
| RateLimit.EvictAppendAscending | app/__init__.py:84-90 | eviction and appending the current time keep a bucket in time order, with no time after now |
| RateLimit.SuffixAppend | app/__init__.py:84-90 | a suffix of an ordered bucket with `now` appended stays ordered and bounded by now |
| RateLimit.WindowRule | app/__init__.py:70-90 | after an `api` call the key's bucket holds only times within the window and keeps every earlier time within it |
| RateLimit.BoundRule | app/__init__.py:87-90 | no bucket ever grows beyond the limit |
| RateLimit.UpdateKeepsBound | app/__init__.py:90 | replacing one bucket with one within the bound keeps every bucket within it |
| RateLimit.AscendingRule | app/__init__.py:84-90 | with a clock that does not go back, every bucket stays in time order |
| Cli.Tally | app/cli.py:54-76 | a call that does not raise moves exactly one counter by one: `errors` for an ingestion error, else the counter named by the result's status |
| Cli.ItemUrls | app/cli.py:63-66 | one URL per feed item, in order |
| Cli.ScrapeFeedCommand | app/cli.py:46-89 | the loop over providers and items leaves the store and the outcome exactly as the command's specification function says |
| Cli.ScrapeFeedBadLimit | app/cli.py:49-50 | a limit below 1 is rejected before the store is touched |
| Cli.ScrapeFeedStart | app/cli.py:52-55 | with a positive limit the command is the ingestion of every target's URLs, starting from zero counters |
| Cli.AllUrlsSplit | app/cli.py:55-56 | the URLs from one provider on are that provider's item URLs followed by the rest |
| Cli.NothingLeft | app/cli.py:86-89 | with no URL left the run finishes with the counters as they are |
| Cli.IngestItems | app/cli.py:63-84 | the inner loop over one provider's items agrees with the specification: either it stops on an escaping exception with what earlier calls committed, or the rest of the run continues from its store and counters |
| Cli.IngestAllTotal | app/cli.py:63-89 | a finished run's counters add up to the number of URLs processed |
| Cli.AllUrlsCount | app/cli.py:55-56 | each provider contributes `min(limit, len(ARTICLES))` URLs |
| Cli.ScrapeFeedRule | app/cli.py:49-89 | a limit below 1 is rejected; otherwise the named providers, or the never-empty enabled ones, are processed, and a finished run's counters add up to `min(limit, len(ARTICLES))` per provider |
| Cli.AllUrlsShape | app/cli.py:56-66 | every URL the command ingests is a local Virtual News article page |
| Cli.FeedUrlClass | app/services/news_feed.py:115 | a feed URL is non-empty, has the Virtual News source, and is outside the fetcher's allow-list |
| Cli.FeedUrlFails | app/cli.py:65-74 | ingesting a feed URL that has to be fetched is a 502 with the allow-list message and leaves the store as it was |
| Cli.IngestAllFails | app/cli.py:63-76 | when every call fails without writing, the run stores nothing and counts every URL as an error |
| Cli.FeedStepFails | app/cli.py:65-74 | with `--force`, or no stored feed URL, every feed URL's call fails without writing |
| Cli.FeedUrlsFail | app/cli.py:55-74 | the same holds for every URL of every target provider |
| Cli.ScrapeFeedOnlyErrors | app/cli.py:46-89 | with `--force`, or when no stored article has a feed URL, the command stores nothing and finishes with `errors` equal to the number of feed items and every other counter 0 |
| Cli.NothingStored | app/cli.py:54-74 | a run in which every call fails leaves the store as it was and counts only errors |
| Cli.AdjacentIsAscending | app/cli.py:110 | a list whose neighbours are in order is in order throughout |
| Cli.InsertBy | app/cli.py:110 | inserting into an ordered list keeps it ordered and adds exactly that entry |
| Cli.SortBy | app/cli.py:110 | the insertion sort yields an ordered permutation of its input |
| Cli.CreatedAt | app/cli.py:110 | the sort key is the article's creation time |
| Cli.SortByCreated | app/cli.py:110-111 | the candidates are the stored articles, a permutation, oldest first |
| Cli.KeepIf | app/cli.py:114 | the filter keeps exactly the entries it accepts and adds none |
| Cli.KeepIfAscending | app/cli.py:110-114 | filtering keeps the order |
| Cli.TailAscending | app/cli.py:110-114 | the tail of an ordered list is ordered |
| Cli.HeadIsLeast | app/cli.py:110-114 | the head of an ordered list has the least key |
| Cli.ConsAscending | app/cli.py:110-114 | an entry no greater than every entry of an ordered list, put in front of it, keeps it ordered |
| Cli.WithoutInference | app/cli.py:113-114 | `--missing-only` keeps exactly the candidates without a latest inference, still oldest first |
| Cli.AiRerunCommand | app/cli.py:103-144 | the loop with its `continue` and `break` leaves the store and the outcome exactly as the command's specification function says |
| Cli.RerunTargetsRule | app/cli.py:110-116 | the targets are stored articles, oldest first, `min(limit, len(candidates))` of them, and without an inference under `--missing-only` |
| Cli.RerunStepKeepsArticles | app/cli.py:123-128 | a rerun call on a stored article finds it, does not fetch, and leaves the articles table as it was |
| Cli.RerunStepRecords | app/cli.py:123-144 | with the AI enabled a rerun call on a stored article either raises without writing, or reports an AI error and changes nothing, or records exactly one new inference for it, whatever inference it had |
| Cli.RerunStepKeepsAll | app/cli.py:123-128 | the rerun step never changes the articles table of a stored URL |
| Cli.RerunKeepsArticles | app/cli.py:121-144 | the whole loop over stored targets leaves the articles table as it was |
| Cli.DisabledStep | app/cli.py:133-135 | with the AI disabled a rerun call on a stored article writes nothing |
| Cli.RerunWhenDisabled | app/cli.py:121-135 | when no call writes, the store is unchanged and the log is ingestion errors until at most one final stop |
| Cli.AiRerunRule | app/cli.py:103-144 | a limit below 1 is rejected; the command never changes the articles table; with the AI disabled it changes nothing at all |
| Cli.CsvRows | app/cli.py:221-236 | one row per selected article, in order |
| Cli.ExportCsv | app/cli.py:181-236 | the loop's rows are exactly the rows of the articles `article_select` returns for the command's filter |
| Cli.CsvRowRule | app/cli.py:222-235 | the row carries the article's fields; without an inference the score is missing and level, label and summary are empty; with one, level and label are the name and badge of its score's band, so `risk_level` is empty exactly when there is no inference |
| Cli.CsvRowShowsLatest | app/cli.py:222-231 | with one inference per article the row's score is the latest inference's score |
| Cli.ExportRowsRule | app/cli.py:197-236 | every row is the row of a stored article the filters select, and every such article gets one |

## Left out

- `Articles.Ingest`: follows the intended inference history, not the code as written. `ingest_article` reads `article.latest_inference` right after the flush (app/services/articles.py:228), and the ORM model defines no such attribute (app/models/article.py:26-31 defines only `inference`). As written, every call that reaches the AI stage raises `AttributeError`. The model instead derives the latest inference from an append-only history, as `Models.Latest`.
- `Models.Latest`: the latest record is the maximum by `created_at desc, id desc`, the order the dashboard query uses; it is not an attribute of the article. The schema's `unique=True` on `article_id` (app/models/article.py:44) is the predicate `Models.OnePerArticle`, not an `IntegrityError`. So the second record that `Articles.ForceAiBreaksOnePerArticle` and `Cli.RerunStepRecords` append would be refused at commit by the real database.
- `Articles.ArticleToDict`: `article.inferences` (app/services/articles.py:119) is not defined on the ORM model either. The model reads it as the history, so `inference` is its first record, and the CSV row shows the latest score only under the one-per-article rule (`Cli.CsvRowShowsLatest`).
- `Parsing.Parse`: a JSON-LD `title`, `headline` or `articleBody` that is truthy but not a string (a number, a list, an object) is modelled as an uncaught `TypeError`. `parse_article` (app/services/parsing.py:32-35) instead returns it inside the parsed article; the source fails later or not at all, depending on the value (binding a list or dict at the flush fails; a number is stored, and a numeric body fails at `body[:4000]`). Titles and bodies are strings in the model, so these values are not carried through.
- `Parsing.ParseArticle`: the same difference as `Parsing.Parse`, which it equals.

- **Network, files and the terminal:**
  - The HTTP session, its retry adapter and the request itself (app/services/scraping.py:45-82) are outside the model. The fetch is a parameter that returns a response, a timeout, an HTTP status or a network error. Only the retry constants are kept, as values.
  - The OpenAI client call (app/services/ai.py:61-77) is a parameter that returns a reply or an error.
  - `click.echo` output, the CSV text writer and the output file (app/cli.py:207-245) are left out. The export model stops at the rows in header order.
- **Libraries:**
  - BeautifulSoup selector matching, `dateutil`, `datetime.fromisoformat`, `strptime` and `json.loads` are opaque functions in `External.Lib` and `Html.Page`. Only the rules the program adds around them are modelled: the fallback order, the zone tagging and the type checks.
  - `urlparse` is reduced to scheme extraction: the text before the first `:`, lower-cased, when it is a valid scheme.
- **`NiftyNewsParser.extract_article_url`:** it is called at app/services/articles.py:178 but not defined in app/services/nifty_news.py. It is an opaque parameter returning an optional URL.
- **Databases:**
  - SQL collation is left out. `ilike` is an ASCII-case-insensitive substring test on title and body, and a query containing `%` or `_` is taken literally.
  - An article without `published_at` fails every date bound, as a SQL comparison with NULL does.
  - Window functions are replaced by in-memory maxima.
- `Articles.ArticleSelect`: the result is in table order. The requested sort order is modelled only as the column and direction `Articles.SortOrder` picks; the sorted order itself is not stated.
- **Time:**
  - Datetimes are an integer stamp plus an optional zone. Timezone conversion and `format_timestamp` (app/services/articles.py:257-265) are left out.
  - `time()` in the rate limiter is a `real` parameter. Everything else takes the clock as an integer parameter.
  - Keys from `uuid4` are natural numbers taken from a counter.
- **Floating point:**
  - `Analytics`: coverage and the average are exact rationals; `round(…, 3)` and `round(…, 1)` are not modelled.
  - `Ai`: the score's `int(float(…))` truncation is modelled toward zero on a rational score. NaN and infinity are the one value `JNonFinite`, and `int()` on it is one uncaught `ValueError`; Python raises `ValueError` for NaN and `OverflowError` for infinity. Either way the request aborts and nothing is stored.
- `Analytics.HighestRow`: ties on both score and creation time are broken by table order, which the SQL query leaves unspecified.
- `Common.Lower`, `Common.Title`: case mapping covers ASCII letters only.
- **Concurrency:** `_RATE_BUCKETS` and `_CACHE` are shared module globals, and every operation is modelled single-threaded.
- `NewsFeed.FeedCache`: the cache is only created and cleared, because the mock feed never reads or fills it.
- **Commands and code outside the core:**
  - The `list-articles` command (app/cli.py:22-27) only prints.
  - The Flask app factory, authentication, sessions, logging and configuration loading are outside the core. Configuration values are parameters.
  - The Selenium scrapers, the machine-learning scripts and the legacy top-level app are outside the core.
  - app/blueprints/virtual_news.py only renders pages; its `ARTICLES` table is the constant `NewsFeed.Table`.
- `NewsFeed.SortDesc`: the in-place `list.sort` is a stable insertion sort on a sequence. It is not a method over an array.
