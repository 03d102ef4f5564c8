/** The parser for the bundled Virtual News demo site. */
module VirtualNews {
  import opened Common
  import opened External
  import opened Html
  import opened Parsing

  const ArticleMarker: string := "virtual-news/article/"
  const UnknownTitle: string := "タイトル不明"
  const NoBody: string := "本文取得失敗"

  /** `is_virtual_news_url` */
  predicate IsVirtualNewsUrl(url: string) {
    Contains(url, ArticleMarker)
  }

  /** The `blog-post-title` heading's text, even when empty; else the sentinel. */
  function Title(page: Page): string {
    var t := First(page, "h1.blog-post-title");
    if t.Some? then t.value.text else UnknownTitle
  }

  /** `strptime(text, '%Y年%m月%d日 %H:%M')`: a naive timestamp, or `None`
      when there is no meta line or it does not match the format. */
  function Published(lib: Lib, page: Page): (r: Option<DateTime>)
    ensures r.Some? ==> IsNaive(r.value)
    ensures r.Some? <==> First(page, "p.blog-post-meta").Some?
                         && lib.strptimeMeta(First(page, "p.blog-post-meta").value.text).Some?
    ensures r.Some? ==> r.value.stamp == lib.strptimeMeta(First(page, "p.blog-post-meta").value.text).value
  {
    var m := First(page, "p.blog-post-meta");
    if m.None? then None
    else match lib.strptimeMeta(m.value.text)
      case Some(stamp) => Some(DateTime(stamp, None))
      case None => None
  }

  function NonEmpty(texts: seq<string>): (r: seq<string>)
    ensures forall i :: 0 <= i < |r| ==> r[i] != []
    ensures forall t :: t in r ==> t in texts
  {
    if texts == [] then []
    else (if texts[0] != [] then [texts[0]] else []) + NonEmpty(texts[1..])
  }

  lemma {:induction false} NonEmptyAppend(a: seq<string>, b: seq<string>)
    ensures NonEmpty(a + b) == NonEmpty(a) + NonEmpty(b)
  {
    if a == [] {
      assert a + b == b;
    } else {
      assert (a + b)[0] == a[0];
      assert (a + b)[1..] == a[1..] + b;
      NonEmptyAppend(a[1..], b);
    }
  }

  function BodyParts(page: Page): seq<string> {
    var d := First(page, "div.article_body");
    if d.None? then [] else NonEmpty(d.value.paragraphs)
  }

  function Body(page: Page): string {
    var parts := BodyParts(page);
    if parts == [] then NoBody else Join(Separator, parts)
  }

  /** `VirtualNewsParser.parse_article(html, url)`: it always returns. */
  function Parse(lib: Lib, url: string, page: Page): ParsedArticle {
    ParsedArticle(url, Title(page), Published(lib, page), Body(page))
  }

  method ParseArticle(lib: Lib, url: string, page: Page) returns (r: ParsedArticle)
    ensures r == Parse(lib, url, page)
  {
    var titleTag := First(page, "h1.blog-post-title");
    var title := if titleTag.Some? then titleTag.value.text else UnknownTitle;
    var published := Published(lib, page);
    var parts: seq<string> := [];
    var container := First(page, "div.article_body");
    if container.Some? {
      var texts := container.value.paragraphs;
      for j := 0 to |texts|
        invariant parts == NonEmpty(texts[..j])
      {
        assert texts[..j + 1] == texts[..j] + [texts[j]];
        NonEmptyAppend(texts[..j], [texts[j]]);
        if texts[j] != [] {
          parts := parts + [texts[j]];
        }
      }
      assert texts[..|texts|] == texts;
    }
    var body := if parts == [] then NoBody else Join(Separator, parts);
    r := ParsedArticle(url, title, published, body);
  }

  /** The parsed article echoes the URL, its body is never empty, and its
      date (when found) is naive. */
  lemma ParseRule(lib: Lib, url: string, page: Page)
    ensures Parse(lib, url, page).url == url
    ensures Parse(lib, url, page).body != []
    ensures Parse(lib, url, page).publishedAt.Some? ==> IsNaive(Parse(lib, url, page).publishedAt.value)
    ensures First(page, "div.article_body").None? ==> Parse(lib, url, page).body == NoBody
    ensures Parse(lib, url, page).title == UnknownTitle <==>
      First(page, "h1.blog-post-title").None? || First(page, "h1.blog-post-title").value.text == UnknownTitle
  {
    var parts := BodyParts(page);
    if parts != [] {
      JoinNonEmpty(Separator, parts);
    }
  }
}
