/** The @nifty News parser: fixed selectors for title, JSON-LD or `<time>` for
    the publication date, and long paragraphs for the body. It never raises
    `ParseError`: missing parts become sentinels. */
module NiftyNews {
  import opened Common
  import opened Json
  import opened External
  import opened Html
  import opened Parsing

  const BaseUrl: string := "https://news.nifty.com"
  const TopicsPrefix: string := "https://news.nifty.com/topics/"
  const UnknownTitle: string := "タイトル不明"
  const NoBody: string := "本文取得失敗"
  const TitleSelectors: seq<string> := ["h1.article_title", "h1", OgTitle]
  /** Paragraphs of at most this many characters are dropped. */
  const MinParagraph: nat := 10

  /** `is_nifty_news_url` */
  predicate IsNiftyNewsUrl(url: string) {
    StartsWith(url, TopicsPrefix)
  }

  // ---------------------------------------------------------------- title

  /** A selector containing `meta` is served by the `og:title` meta tag
      (only when its content is non-empty); any other selector by the first
      matching element, whose text is taken even when empty. */
  function TitleFrom(page: Page, selectors: seq<string>): Option<string> {
    if selectors == [] then None
    else if Contains(selectors[0], "meta") then
      var m := First(page, OgTitle);
      if m.Some? && HasAttr(m.value, "content") then Some(m.value.attrs["content"])
      else TitleFrom(page, selectors[1..])
    else
      var t := First(page, selectors[0]);
      if t.Some? then Some(t.value.text) else TitleFrom(page, selectors[1..])
  }

  /** `title or "タイトル不明"` */
  function Title(page: Page): string {
    var t := TitleFrom(page, TitleSelectors);
    if t.None? || t.value == [] then UnknownTitle else t.value
  }

  /** A selector without the letter `m` does not contain `meta`. */
  lemma NoMetaWithoutM(s: string)
    requires 'm' !in s
    ensures !Contains(s, "meta")
  {
    forall i | 0 <= i <= |s| ensures !OccursAt(s, "meta", i) {
      if i + 4 <= |s| {
        assert s[i..i + 4][0] == s[i];
        assert s[i] in s;
      }
    }
  }

  /** The title is never empty; a page with an `h1.article_title` element
      takes its text (or the sentinel when that text is empty), whatever else
      the page holds. */
  lemma TitleRule(page: Page)
    ensures Title(page) != []
    ensures First(page, "h1.article_title").Some? ==>
      Title(page) == (if First(page, "h1.article_title").value.text == [] then UnknownTitle
                      else First(page, "h1.article_title").value.text)
  {
    NoMetaWithoutM("h1.article_title");
  }

  // ---------------------------------------------------------------- date

  datatype DateScan = Dated(at: DateTime) | Undated | ScanFailed

  /** `datetime.fromisoformat(s.replace('Z', '+00:00'))` */
  function IsoDate(lib: Lib, s: string): Option<DateTime> {
    lib.fromIsoFormat(ReplaceChar(s, 'Z', "+00:00"))
  }

  /** The JSON-LD scan: a script without a string makes `json.loads(None)`
      raise `TypeError`, which is not caught; an undecodable script, a
      non-dict, a dict without `datePublished`, a non-string value and an
      unparsable date are skipped; the first parsed date ends the scan. */
  function JsonLdDate(lib: Lib, scripts: seq<Node>): DateScan {
    if scripts == [] then Undated
    else if scripts[0].str.None? then ScanFailed
    else
      var data := lib.jsonLoads(scripts[0].str.value, true);
      var d :=
        if data.Some? && data.value.JObj? && "datePublished" in data.value.fields
           && data.value.fields["datePublished"].JStr?
        then IsoDate(lib, data.value.fields["datePublished"].s)
        else None;
      if d.Some? then Dated(d.value) else JsonLdDate(lib, scripts[1..])
  }

  /** The `<time class="article_date">` fallback. */
  function TimeDate(lib: Lib, page: Page): Option<DateTime> {
    var t := First(page, "time.article_date");
    if t.Some? && HasAttr(t.value, "datetime") then IsoDate(lib, t.value.attrs["datetime"]) else None
  }

  // ---------------------------------------------------------------- body

  /** The stripped paragraph texts longer than ten characters, in order. */
  function LongParagraphs(texts: seq<string>): (r: seq<string>)
    ensures forall i :: 0 <= i < |r| ==> |r[i]| > MinParagraph
    ensures forall t :: t in r ==> t in texts
  {
    if texts == [] then []
    else (if |texts[0]| > MinParagraph then [texts[0]] else []) + LongParagraphs(texts[1..])
  }

  lemma {:induction false} LongParagraphsAppend(a: seq<string>, b: seq<string>)
    ensures LongParagraphs(a + b) == LongParagraphs(a) + LongParagraphs(b)
  {
    if a == [] {
      assert a + b == b;
    } else {
      assert (a + b)[0] == a[0];
      assert (a + b)[1..] == a[1..] + b;
      LongParagraphsAppend(a[1..], b);
    }
  }

  /** `div.article_body`, else the first `<article>`. */
  function BodyContainer(page: Page): Option<Node> {
    var d := First(page, "div.article_body");
    if d.Some? then d else First(page, "article")
  }

  function BodyParts(page: Page): seq<string> {
    var c := BodyContainer(page);
    if c.None? then [] else LongParagraphs(c.value.paragraphs)
  }

  /** `body or "本文取得失敗"` */
  function Body(page: Page): string {
    var b := Join(Separator, BodyParts(page));
    if b == [] then NoBody else b
  }

  // ---------------------------------------------------------------- whole page

  /** `NiftyNewsParser.parse_article(html, url)` */
  function Parse(lib: Lib, url: string, page: Page): ParseOutcome {
    match JsonLdDate(lib, All(page, LdJsonScripts))
    case ScanFailed => Unhandled(TypeError("the JSON object must be str, not NoneType"))
    case Dated(d) => Parsed(ParsedArticle(url, Title(page), Some(d), Body(page)))
    case Undated => Parsed(ParsedArticle(url, Title(page), TimeDate(lib, page), Body(page)))
  }

  /** The title loop: the first selector that yields something wins. */
  method FindTitle(page: Page) returns (title: Option<string>)
    ensures title == TitleFrom(page, TitleSelectors)
  {
    title := None;
    var k := 0;
    while k < |TitleSelectors|
      invariant 0 <= k <= |TitleSelectors|
      invariant title.None? ==> TitleFrom(page, TitleSelectors) == TitleFrom(page, TitleSelectors[k..])
      invariant title.Some? ==> TitleFrom(page, TitleSelectors) == title
    {
      assert TitleSelectors[k..][1..] == TitleSelectors[k + 1..];
      var selector := TitleSelectors[k];
      if Contains(selector, "meta") {
        var meta := First(page, OgTitle);
        if meta.Some? && HasAttr(meta.value, "content") {
          title := Some(meta.value.attrs["content"]);
          break;
        }
      } else {
        var tag := First(page, selector);
        if tag.Some? {
          title := Some(tag.value.text);
          break;
        }
      }
      k := k + 1;
    }
    if title.None? {
      assert TitleSelectors[k..] == [];
    }
  }

  /** The JSON-LD date loop. */
  method ScanJsonLd(lib: Lib, scripts: seq<Node>) returns (scan: DateScan)
    ensures scan == JsonLdDate(lib, scripts)
  {
    var i := 0;
    while i < |scripts|
      invariant 0 <= i <= |scripts|
      invariant JsonLdDate(lib, scripts) == JsonLdDate(lib, scripts[i..])
    {
      assert scripts[i..][1..] == scripts[i + 1..];
      if scripts[i].str.None? {
        return ScanFailed;
      }
      var data := lib.jsonLoads(scripts[i].str.value, true);
      if data.Some? && data.value.JObj? && "datePublished" in data.value.fields
         && data.value.fields["datePublished"].JStr? {
        var d := IsoDate(lib, data.value.fields["datePublished"].s);
        if d.Some? {
          return Dated(d.value);
        }
      }
      i := i + 1;
    }
    assert scripts[i..] == [];
    return Undated;
  }

  /** The paragraph loop. */
  method CollectBody(page: Page) returns (parts: seq<string>)
    ensures parts == BodyParts(page)
  {
    var container := BodyContainer(page);
    parts := [];
    if container.Some? {
      var texts := container.value.paragraphs;
      for j := 0 to |texts|
        invariant parts == LongParagraphs(texts[..j])
      {
        assert texts[..j + 1] == texts[..j] + [texts[j]];
        LongParagraphsAppend(texts[..j], [texts[j]]);
        if |texts[j]| > MinParagraph {
          parts := parts + [texts[j]];
        }
      }
      assert texts[..|texts|] == texts;
    }
  }

  method ParseArticle(lib: Lib, url: string, page: Page) returns (r: ParseOutcome)
    ensures r == Parse(lib, url, page)
  {
    var title := FindTitle(page);
    var titleText := if title.None? || title.value == [] then UnknownTitle else title.value;
    var scan := ScanJsonLd(lib, All(page, LdJsonScripts));
    var published: Option<DateTime>;
    match scan {
      case ScanFailed =>
        return Unhandled(TypeError("the JSON object must be str, not NoneType"));
      case Dated(d) =>
        published := Some(d);
      case Undated =>
        published := TimeDate(lib, page);
    }
    var parts := CollectBody(page);
    var body := Join(Separator, parts);
    r := Parsed(ParsedArticle(url, titleText, published, if body == [] then NoBody else body));
  }

  /** The @nifty parser never raises `ParseError`; when it returns, the URL is
      the one it was given, and the title and the body are never empty. */
  lemma ParseNeverFailsToParse(lib: Lib, url: string, page: Page)
    ensures Parse(lib, url, page) != ParseError
    ensures Parse(lib, url, page).Parsed? ==>
      var a := Parse(lib, url, page).article;
      a.url == url && a.title != [] && a.body != []
    ensures Parse(lib, url, page).Unhandled? <==> JsonLdDate(lib, All(page, LdJsonScripts)) == ScanFailed
  {
    TitleRule(page);
  }

  /** The body is the sentinel, or it is made of the container's paragraphs
      that are longer than ten characters. */
  lemma BodyRule(page: Page)
    ensures Body(page) == NoBody || (BodyParts(page) != [] && Body(page) == Join(Separator, BodyParts(page)))
    ensures forall p :: p in BodyParts(page) ==> |p| > MinParagraph
  {
    var parts := BodyParts(page);
    forall p | p in parts ensures |p| > MinParagraph {
      var i :| 0 <= i < |parts| && parts[i] == p;
    }
  }

  /** A date found in JSON-LD wins over the `<time>` fallback. */
  lemma JsonLdDateWins(lib: Lib, url: string, page: Page)
    requires JsonLdDate(lib, All(page, LdJsonScripts)).Dated?
    ensures Parse(lib, url, page).article.publishedAt == Some(JsonLdDate(lib, All(page, LdJsonScripts)).at)
  {
  }
}
