/** The Yahoo! News fetcher: the URL allow-list, the retry settings of the
    HTTP session, and the mapping of transport failures onto `ScrapeError`
    messages. The HTTP exchange itself is an oracle. */
module Scraping {
  import opened Common
  import opened Json
  import opened Html

  const YahooNewsPrefix: string := "https://news.yahoo.co.jp/articles/"
  const AccidentPrefix: string := "https://news.yahoo.co.jp/pickup/"
  const DefaultUserAgent: string := "Mozilla/5.0 (compatible; ScraperApp/1.0; +https://example.com/bot)"
  const DefaultRequestTimeout: int := 10
  const DefaultRetryTotal: int := 2
  const DefaultRetryBackoff: real := 0.5
  const StatusForcelist: seq<int> := [429, 500, 502, 503, 504]
  const AllowedMethods: seq<string> := ["GET"]

  const DisallowedMessage: string := "許可されたYahoo!ニュースのURLではありません。"
  const TimeoutMessage: string := "記事の取得がタイムアウトしました。時間をおいて再度お試しください。"
  const NetworkMessage: string := "記事の取得に失敗しました。ネットワークをご確認ください。"

  function HttpErrorMessage(status: int): string {
    HttpPrefix + IntToString(status) + ")."
  }

  // ---------------------------------------------------------------- allow-list

  /** The characters `urlsplit` strips from the front of a URL (C0 controls
      and the space). */
  predicate IsC0OrSpace(c: char) {
    c <= ' '
  }

  function StripC0(s: string): (r: string)
    ensures |r| <= |s| && r == s[|s| - |r|..]
    ensures r != [] ==> !IsC0OrSpace(r[0])
  {
    if s != [] && IsC0OrSpace(s[0]) then StripC0(s[1..]) else s
  }

  predicate IsSchemeChar(c: char) {
    IsAsciiLetter(c) || ('0' <= c <= '9') || c == '+' || c == '-' || c == '.'
  }

  /** `urlparse(url).scheme`: the lower-cased text before the first colon,
      when it starts with an ASCII letter and holds only scheme characters;
      otherwise empty. */
  function Scheme(url: string): string {
    var s := StripC0(url);
    var colon := IndexOf(s, ':');
    if colon.None? || colon.value == 0 || !IsAsciiLetter(s[0]) then []
    else if forall k :: 0 <= k < colon.value ==> IsSchemeChar(s[k]) then Lower(s[..colon.value])
    else []
  }

  /** `is_allowed(url)` */
  predicate IsAllowed(url: string) {
    url != []
    && Scheme(url) in {"http", "https"}
    && (StartsWith(Strip(url), YahooNewsPrefix) || StartsWith(Strip(url), AccidentPrefix))
  }

  lemma EmptyIsNotAllowed()
    ensures !IsAllowed("")
  {
  }

  /** A scheme other than http or https is rejected, and so is every URL
      whose stripped form starts with neither allowed prefix. */
  lemma RejectionRule(url: string)
    ensures Scheme(url) !in {"http", "https"} ==> !IsAllowed(url)
    ensures !StartsWith(Strip(url), YahooNewsPrefix) && !StartsWith(Strip(url), AccidentPrefix) ==> !IsAllowed(url)
  {
  }

  /** A URL that starts with `https://` has the scheme `https`. */
  lemma HttpsScheme(url: string)
    requires StartsWith(url, "https://")
    ensures Scheme(url) == "https"
  {
    HttpsHead(url);
    SchemeBeforeColon(url, 5);
    LowerHttps(url[..5]);
  }

  /** The first five characters of an `https://` URL, and the colon after them. */
  lemma HttpsHead(url: string)
    requires StartsWith(url, "https://")
    ensures url[..5] == "https" && url[5] == ':' && ':' !in url[..5]
    ensures IsAsciiLetter(url[0]) && forall k :: 0 <= k < 5 ==> IsSchemeChar(url[k])
  {
    var head := url[..5];
    assert head == url[..8][..5] == "https";
    assert url[5] == url[..8][5] == ':';
    forall k | 0 <= k < 5 ensures IsSchemeChar(url[k]) {
      assert url[k] == head[k];
    }
  }

  lemma LowerHttps(s: string)
    requires s == "https"
    ensures Lower(s) == "https"
  {
  }


  /** The scheme of a URL with no leading control characters is what comes
      before its first colon, lower-cased. */
  lemma SchemeBeforeColon(url: string, k: nat)
    requires 0 < k < |url| && url[k] == ':' && ':' !in url[..k]
    requires IsAsciiLetter(url[0]) && forall i :: 0 <= i < k ==> IsSchemeChar(url[i])
    ensures Scheme(url) == Lower(url[..k])
  {
    assert !IsC0OrSpace(url[0]);
    assert StripC0(url) == url;
    var r := IndexOf(url, ':');
    assert url[k] in url;
  }

  /** Every URL that starts with one of the two prefixes is accepted. */
  lemma PrefixedIsAllowed(url: string)
    requires StartsWith(url, YahooNewsPrefix) || StartsWith(url, AccidentPrefix)
    ensures IsAllowed(url)
  {
    if StartsWith(url, YahooNewsPrefix) {
      assert url[..8] == YahooNewsPrefix[..8];
    } else {
      assert url[..8] == AccidentPrefix[..8];
    }
    HttpsScheme(url);
    if StartsWith(url, YahooNewsPrefix) {
      StripKeepsPrefix(url, YahooNewsPrefix);
    } else {
      StripKeepsPrefix(url, AccidentPrefix);
    }
  }

  /** A URL that starts with a non-white-space character other than the two
      prefixes, such as an @nifty News or a Virtual News URL, is never allowed. */
  lemma ForeignPrefixIsNotAllowed(url: string, p: string)
    requires StartsWith(url, p) && p != [] && !IsSpace(p[0]) && !IsSpace(p[|p| - 1])
    requires |p| >= 14 && p[..14] != YahooNewsPrefix[..14] && p[..14] != AccidentPrefix[..14]
    ensures !IsAllowed(url)
  {
    StripKeepsPrefix(url, p);
    var s := Strip(url);
    assert s[..14] == p[..14];
  }

  // ---------------------------------------------------------------- session

  /** `_config_get(key, default)`: the application's value when there is an
      application context, else the default. */
  function ConfigGet(config: Option<map<string, Json>>, key: string, default: Json): Json {
    if config.Some? && key in config.value then config.value[key] else default
  }

  /** The retry and header settings `_build_session` installs on both the
      `http://` and `https://` adapters. */
  datatype SessionSettings = SessionSettings(
    retryTotal: Json,
    backoffFactor: Json,
    statusForcelist: seq<int>,
    allowedMethods: seq<string>,
    mounts: seq<string>,
    userAgent: Json)

  function BuildSession(config: Option<map<string, Json>>): SessionSettings {
    SessionSettings(
      ConfigGet(config, "SCRAPE_RETRY_TOTAL", JInt(DefaultRetryTotal)),
      ConfigGet(config, "SCRAPE_RETRY_BACKOFF", JFloat(DefaultRetryBackoff)),
      StatusForcelist,
      AllowedMethods,
      ["http://", "https://"],
      ConfigGet(config, "USER_AGENT", JStr(DefaultUserAgent)))
  }

  /** Whether the adapter retries a request with this method and status. */
  predicate Retries(settings: SessionSettings, verb: string, status: int) {
    verb in settings.allowedMethods && status in settings.statusForcelist
  }

  /** Retries happen only for GET and only on 429, 500, 502, 503 and 504;
      without overrides there are two retries with a backoff factor of 0.5. */
  lemma RetryPolicy(config: Option<map<string, Json>>, verb: string, status: int)
    ensures Retries(BuildSession(config), verb, status) <==>
      verb == "GET" && (status == 429 || status == 500 || status == 502 || status == 503 || status == 504)
    ensures config.None? ==>
      BuildSession(config).retryTotal == JInt(2)
      && BuildSession(config).backoffFactor == JFloat(0.5)
      && BuildSession(config).userAgent == JStr(DefaultUserAgent)
  {
  }

  // ---------------------------------------------------------------- fetch

  datatype Response = Response(url: string, status: int, encoding: Option<string>, apparentEncoding: string, page: Page)

  /** What `session.get` does: time out, fail at the network level, or answer. */
  datatype Transport = Timeout | NetworkError | Answered(response: Response)

  datatype FetchResult = Fetched(response: Response) | ScrapeError(message: string)

  /** `raise_for_status`: 4xx and 5xx statuses raise `HTTPError`. */
  predicate IsHttpError(status: int) {
    400 <= status < 600
  }

  /** `fetch(url)`: the allow-list check comes before any request; a missing
      encoding is replaced by the apparent one. */
  function Fetch(url: string, transport: string -> Transport): FetchResult {
    if !IsAllowed(url) then ScrapeError(DisallowedMessage)
    else FromTransport(transport(url))
  }

  /** The `try` block of `fetch`: the request's outcome mapped to a response
      or to one of the three failure messages. */
  function FromTransport(t: Transport): FetchResult {
    match t
    case Timeout => ScrapeError(TimeoutMessage)
    case NetworkError => ScrapeError(NetworkMessage)
    case Answered(r) =>
      if IsHttpError(r.status) then ScrapeError(HttpErrorMessage(r.status))
      else Fetched(WithEncoding(r))
  }

  /** A disallowed URL fails before the transport is used: the result is the
      same whatever the transport would do. */
  lemma DisallowedFailsBeforeRequest(url: string, t1: string -> Transport, t2: string -> Transport)
    requires !IsAllowed(url)
    ensures Fetch(url, t1) == Fetch(url, t2) == ScrapeError(DisallowedMessage)
  {
  }

  /** The three failure kinds have three different messages, none equal to
      the allow-list message; the HTTP message carries the status code. */
  lemma FailureKindsDistinct(status: int)
    ensures TimeoutMessage != NetworkMessage
    ensures HttpErrorMessage(status) != TimeoutMessage && HttpErrorMessage(status) != NetworkMessage
    ensures HttpErrorMessage(status) != DisallowedMessage
    ensures Contains(HttpErrorMessage(status), IntToString(status))
  {
    HttpMessageShape(status);
    assert TimeoutMessage[5] != NetworkMessage[5];
    assert TimeoutMessage[5] != HttpPrefix[5] && NetworkMessage[12] != ' ' && DisallowedMessage[0] != '記';
  }

  const HttpPrefix: string := "記事の取得に失敗しました (HTTP "

  lemma HttpMessageShape(status: int)
    ensures |HttpErrorMessage(status)| > 12
    ensures HttpErrorMessage(status)[0] == '記' && HttpErrorMessage(status)[5] == HttpPrefix[5]
    ensures HttpErrorMessage(status)[12] == ' '
    ensures Contains(HttpErrorMessage(status), IntToString(status))
  {
    var m := HttpErrorMessage(status);
    var d := IntToString(status);
    assert m == HttpPrefix + d + ").";
    assert m[..|HttpPrefix|] == HttpPrefix;
    assert m[|HttpPrefix|..|HttpPrefix| + |d|] == d;
    assert OccursAt(m, d, |HttpPrefix|);
  }

  /** What `fetch` does with a response that passed `raise_for_status`: a
      missing encoding is replaced by the apparent one. */
  function WithEncoding(r: Response): (f: Response)
    ensures f.encoding.Some?
    ensures r.encoding.Some? ==> f.encoding == r.encoding
    ensures r.encoding.None? ==> f.encoding == Some(r.apparentEncoding)
    ensures f.url == r.url && f.status == r.status && f.page == r.page && f.apparentEncoding == r.apparentEncoding
  {
    r.(encoding := Some(r.encoding.GetOr(r.apparentEncoding)))
  }

  /** A fetch succeeds exactly for an allowed URL the transport answers
      without an error status. The response then always has an encoding: the
      one it declared, else its apparent encoding; nothing else about the
      response changes. */
  lemma FetchedEncoding(url: string, transport: string -> Transport)
    ensures Fetch(url, transport).Fetched? <==>
      IsAllowed(url) && transport(url).Answered? && !IsHttpError(transport(url).response.status)
    ensures Fetch(url, transport).Fetched? ==>
      Fetch(url, transport).response == WithEncoding(transport(url).response)
  {
    var t := transport(url);
    assert FromTransport(t).Fetched? <==> t.Answered? && !IsHttpError(t.response.status);
    assert FromTransport(t).Fetched? ==> FromTransport(t).response == WithEncoding(t.response);
  }
}
