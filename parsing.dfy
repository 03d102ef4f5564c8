/** The generic article parser (used for Yahoo! News): JSON-LD first, then
    page metadata, then DOM selectors; it raises `ParseError` when no body
    can be found at all. */
module Parsing {
  import opened Common
  import opened Json
  import opened External
  import opened Html

  datatype ParsedArticle = ParsedArticle(url: string, title: string, publishedAt: Option<DateTime>, body: string)

  /** What a parser hands back: an article, `ParseError` (no body found), or an
      exception that no handler of the pipeline catches. */
  datatype ParseOutcome = Parsed(article: ParsedArticle) | ParseError | Unhandled(error: PyError)

  const JsonLdTypes: set<string> := {"NewsArticle", "Article"}
  const UnknownTitle: string := "(タイトル不明)"
  const NoBodyMessage: string := "本文を抽出できませんでした。"
  const PublishedAttrs: seq<string> := ["datePublished", "article:published_time", "pubdate"]
  const BodySelectors: seq<string> := ["article p", "div.article_body p", "div.article_body__item", "div#uamods-pickup p"]
  const Separator: string := "\n\n"

  // ---------------------------------------------------------------- JSON-LD

  /** The candidates one `<script type="application/ld+json">` contributes:
      none when its text is blank or does not decode, the items of a
      top-level list (flattened one level), else the decoded value itself. */
  function ScriptCandidates(lib: Lib, script: Node): seq<Json> {
    var raw := script.str.GetOr("");
    if Strip(raw) == [] then []
    else match lib.jsonLoads(raw, false)
      case None => []
      case Some(JArr(items)) => items
      case Some(data) => [data]
  }

  /** All candidates of the page's scripts, in script order. */
  function Candidates(lib: Lib, scripts: seq<Node>): seq<Json> {
    Flatten((script: Node) => ScriptCandidates(lib, script), scripts)
  }

  datatype TypeTest = IsArticle | NotArticle | Unhashable

  /** `candidate.get("@type") in JSON_LD_TYPES`: a list or dict value is not
      hashable, so the membership test raises `TypeError`. */
  function TestType(fields: map<string, Json>): TypeTest {
    match Get(fields, "@type")
    case Some(JStr(t)) => if t in JsonLdTypes then IsArticle else NotArticle
    case Some(JArr(_)) => Unhashable
    case Some(JObj(_)) => Unhashable
    case _ => NotArticle
  }

  datatype Pick = Found(fields: map<string, Json>) | NotFound | PickFailed

  /** A candidate the scan passes over: not a dict, or a dict of another type. */
  predicate Skipped(c: Json) {
    !c.JObj? || TestType(c.fields) == NotArticle
  }

  /** The first candidate the scan does not pass over decides the pick. */
  function FirstArticle(cands: seq<Json>): Pick {
    if cands == [] then NotFound
    else if Skipped(cands[0]) then FirstArticle(cands[1..])
    else if TestType(cands[0].fields) == IsArticle then Found(cands[0].fields)
    else PickFailed
  }

  lemma {:induction false} FirstArticleAppend(a: seq<Json>, b: seq<Json>)
    ensures FirstArticle(a + b) == if FirstArticle(a).NotFound? then FirstArticle(b) else FirstArticle(a)
  {
    if a != [] {
      assert (a + b)[0] == a[0];
      assert (a + b)[1..] == a[1..] + b;
      FirstArticleAppend(a[1..], b);
      if Skipped(a[0]) {
        assert FirstArticle(a + b) == FirstArticle(a[1..] + b);
        assert FirstArticle(a) == FirstArticle(a[1..]);
      }
    } else {
      assert a + b == b;
    }
  }

  /** The pick is the first dict, in candidate order, whose `@type` is an
      article type; nothing before it is a dict of an article type or an
      unhashable type. */
  lemma {:induction false} FirstArticleIsFirst(cands: seq<Json>)
    ensures FirstArticle(cands).Found? ==>
      exists k :: 0 <= k < |cands| && cands[k] == JObj(FirstArticle(cands).fields)
        && TestType(FirstArticle(cands).fields) == IsArticle
        && forall j :: 0 <= j < k ==> Skipped(cands[j])
    ensures FirstArticle(cands).NotFound? <==> forall j :: 0 <= j < |cands| ==> Skipped(cands[j])
  {
    if cands != [] {
      FirstArticleIsFirst(cands[1..]);
      if Skipped(cands[0]) {
        if FirstArticle(cands).Found? {
          var k :| 0 <= k < |cands[1..]| && cands[1..][k] == JObj(FirstArticle(cands[1..]).fields)
            && TestType(FirstArticle(cands[1..]).fields) == IsArticle
            && forall j :: 0 <= j < k ==> Skipped(cands[1..][j]);
          assert cands[k + 1] == JObj(FirstArticle(cands).fields);
          assert forall j :: 0 <= j < k + 1 ==> Skipped(cands[j]) by {
            forall j | 0 <= j < k + 1 ensures Skipped(cands[j]) {
              if j > 0 { assert cands[j] == cands[1..][j - 1]; }
            }
          }
        }
        if forall j :: 0 <= j < |cands[1..]| ==> Skipped(cands[1..][j]) {
          assert forall j :: 0 <= j < |cands| ==> Skipped(cands[j]) by {
            forall j | 0 <= j < |cands| ensures Skipped(cands[j]) {
              if j > 0 { assert cands[j] == cands[1..][j - 1]; }
            }
          }
        }
      } else {
        assert !FirstArticle(cands).NotFound?;
        if FirstArticle(cands).Found? {
          assert cands[0] == JObj(FirstArticle(cands).fields);
        }
      }
    }
  }

  lemma CandidatesAppend(lib: Lib, a: seq<Node>, b: seq<Node>)
    ensures Candidates(lib, a + b) == Candidates(lib, a) + Candidates(lib, b)
  {
    FlattenAppend((script: Node) => ScriptCandidates(lib, script), a, b);
  }

  lemma CandidatesSnoc(lib: Lib, scripts: seq<Node>, i: nat)
    requires i < |scripts|
    ensures Candidates(lib, scripts[..i + 1]) == Candidates(lib, scripts[..i]) + ScriptCandidates(lib, scripts[i])
  {
    assert scripts[..i + 1] == scripts[..i] + [scripts[i]];
    FlattenAppend((script: Node) => ScriptCandidates(lib, script), scripts[..i], [scripts[i]]);
    FlattenSingleton((script: Node) => ScriptCandidates(lib, script), scripts[i]);
  }

  /** Once the scan meets a candidate it does not pass over, what follows no
      longer matters. */
  lemma FirstArticleDecided(pre: seq<Json>, c: Json, post: seq<Json>)
    requires FirstArticle(pre) == NotFound && !Skipped(c)
    ensures FirstArticle(pre + [c] + post) == if TestType(c.fields) == IsArticle then Found(c.fields) else PickFailed
  {
    assert pre + [c] + post == pre + ([c] + post);
    FirstArticleAppend(pre, [c] + post);
    assert ([c] + post)[0] == c;
  }

  lemma FirstArticleSkip(pre: seq<Json>, c: Json)
    requires FirstArticle(pre) == NotFound && Skipped(c)
    ensures FirstArticle(pre + [c]) == NotFound
  {
    FirstArticleAppend(pre, [c]);
    assert [c][1..] == [];
  }

  lemma PickDecided(lib: Lib, scripts: seq<Node>, i: nat, j: nat)
    requires i < |scripts| && j < |ScriptCandidates(lib, scripts[i])|
    requires FirstArticle(Candidates(lib, scripts[..i]) + ScriptCandidates(lib, scripts[i])[..j]) == NotFound
    requires !Skipped(ScriptCandidates(lib, scripts[i])[j])
    ensures var c := ScriptCandidates(lib, scripts[i])[j];
      FirstArticle(Candidates(lib, scripts)) == if TestType(c.fields) == IsArticle then Found(c.fields) else PickFailed
  {
    var done := Candidates(lib, scripts[..i]);
    var cands := ScriptCandidates(lib, scripts[i]);
    var rest := Candidates(lib, scripts[i + 1..]);
    FlattenSplit((script: Node) => ScriptCandidates(lib, script), scripts, i);
    var all := Candidates(lib, scripts);
    assert all == done + cands + rest;
    SplitAround(done, cands, rest, j);
    var pre, post := done + cands[..j], cands[j + 1..] + rest;
    assert all == pre + [cands[j]] + post;
    FirstArticleDecided(pre, cands[j], post);
  }

  /** `_parse_from_json_ld`: the scripts are scanned in order and each
      script's candidates in order; the first article-typed dict is returned. */
  method PickJsonLd(lib: Lib, scripts: seq<Node>) returns (r: Pick)
    ensures r == FirstArticle(Candidates(lib, scripts))
  {
    var i := 0;
    while i < |scripts|
      invariant 0 <= i <= |scripts|
      invariant FirstArticle(Candidates(lib, scripts[..i])) == NotFound
    {
      CandidatesSnoc(lib, scripts, i);
      var raw := scripts[i].str.GetOr("");
      if Strip(raw) == [] {
        AppendEmpty(Candidates(lib, scripts[..i]));
        i := i + 1;
        continue;
      }
      var data := lib.jsonLoads(raw, false);
      if data.None? {
        AppendEmpty(Candidates(lib, scripts[..i]));
        i := i + 1;
        continue;
      }
      var cands := if data.value.JArr? then data.value.items else [data.value];
      assert cands == ScriptCandidates(lib, scripts[i]);
      var decided := ScanScript(lib, scripts, i, cands);
      if decided.Some? {
        return decided.value;
      }
      i := i + 1;
    }
    assert scripts[..i] == scripts;
    return NotFound;
  }

  /** The inner loop of `_parse_from_json_ld` over one script's candidates:
      either a candidate decides the pick, or the scan goes on past the script. */
  method ScanScript(lib: Lib, scripts: seq<Node>, i: nat, cands: seq<Json>) returns (decided: Option<Pick>)
    requires i < |scripts| && cands == ScriptCandidates(lib, scripts[i])
    requires FirstArticle(Candidates(lib, scripts[..i])) == NotFound
    ensures decided.Some? ==> decided.value == FirstArticle(Candidates(lib, scripts))
    ensures decided.None? ==> FirstArticle(Candidates(lib, scripts[..i + 1])) == NotFound
  {
    CandidatesSnoc(lib, scripts, i);
    var done := Candidates(lib, scripts[..i]);
    var j := 0;
    AppendPrefix(done, cands, 0);
    while j < |cands|
      invariant 0 <= j <= |cands|
      invariant FirstArticle(done + cands[..j]) == NotFound
    {
      var c := cands[j];
      if c.JObj? {
        var t := TestType(c.fields);
        if t != NotArticle {
          PickDecided(lib, scripts, i, j);
          if t == IsArticle {
            return Some(Found(c.fields));
          } else {
            return Some(PickFailed);
          }
        }
      }
      FirstArticleSkip(done + cands[..j], c);
      AppendPrefix(done, cands, j);
      j := j + 1;
    }
    AppendPrefix(done, cands, j);
    return None;
  }

  // ---------------------------------------------------------------- metadata

  /** `_fallback_title`: stripped `og:title` content, else the stripped
      `<title>` string, else the first `<h1>`'s text, else the sentinel. */
  function FallbackTitle(page: Page): string {
    var og := First(page, OgTitle);
    var title := First(page, "title");
    var h1 := First(page, "h1");
    if og.Some? && HasAttr(og.value, "content") then Strip(og.value.attrs["content"])
    else if title.Some? && title.value.str.Some? && title.value.str.value != [] then Strip(title.value.str.value)
    else if h1.Some? then h1.value.text
    else UnknownTitle
  }
  /** The fallback title sources in priority order: an `og:title` tag with
      content wins over `<title>`, which wins over `<h1>`; the sentinel is
      used only when none of the three is usable. */
  lemma FallbackTitleRule(page: Page)
    ensures var og := First(page, OgTitle);
      og.Some? && HasAttr(og.value, "content") ==> FallbackTitle(page) == Strip(og.value.attrs["content"])
    ensures var og := First(page, OgTitle); var title := First(page, "title");
      !(og.Some? && HasAttr(og.value, "content")) && title.Some? && title.value.str.Some? && title.value.str.value != [] ==>
        FallbackTitle(page) == Strip(title.value.str.value)
    ensures var og := First(page, OgTitle); var title := First(page, "title"); var h1 := First(page, "h1");
      !(og.Some? && HasAttr(og.value, "content")) && !(title.Some? && title.value.str.Some? && title.value.str.value != [])
      ==> FallbackTitle(page) == (if h1.Some? then h1.value.text else UnknownTitle)
  {
  }


  /** `soup.find("meta", property=a) or soup.find("meta", attrs={"name": a})`:
      the `property` match shadows the `name` match even when it has no content. */
  function MetaFor(page: Page, attr: string): Option<Node> {
    var p := First(page, MetaProperty(attr));
    if p.Some? then p else First(page, MetaName(attr))
  }

  /** The `<time>` fallback: its `datetime` attribute, else its text, else `None`. */
  function TimeFallback(page: Page): (r: Option<string>)
    ensures r.Some? ==> r.value != []
  {
    var t := First(page, "time");
    if t.None? then None
    else if HasAttr(t.value, "datetime") then Some(t.value.attrs["datetime"])
    else if t.value.text != [] then Some(t.value.text)
    else None
  }

  /** The published-time text found by trying `attrs` in order, then `<time>`. */
  function MetaContentFrom(page: Page, attrs: seq<string>): Option<string> {
    if attrs == [] then TimeFallback(page)
    else
      var m := MetaFor(page, attrs[0]);
      if m.Some? && HasAttr(m.value, "content") then Some(Strip(m.value.attrs["content"]))
      else MetaContentFrom(page, attrs[1..])
  }

  function MetaContent(page: Page): Option<string> {
    MetaContentFrom(page, PublishedAttrs)
  }

  /** `_find_meta_content` */
  method FindMetaContent(page: Page) returns (r: Option<string>)
    ensures r == MetaContent(page)
  {
    for i := 0 to |PublishedAttrs|
      invariant MetaContent(page) == MetaContentFrom(page, PublishedAttrs[i..])
    {
      assert PublishedAttrs[i..][1..] == PublishedAttrs[i + 1..];
      var attr := PublishedAttrs[i];
      var meta := MetaFor(page, attr);
      if meta.Some? && HasAttr(meta.value, "content") {
        return Some(Strip(meta.value.attrs["content"]));
      }
    }
    assert PublishedAttrs[|PublishedAttrs|..] == [];
    return TimeFallback(page);
  }

  /** A `<meta property=…>` tag for an attribute name hides every
      `<meta name=…>` tag for the same name, even when it has no content. */
  lemma PropertyShadowsName(page: Page)
    requires First(page, MetaProperty("datePublished")).Some?
    requires !HasAttr(First(page, MetaProperty("datePublished")).value, "content")
    ensures MetaContent(page) == MetaContentFrom(page, PublishedAttrs[1..])
  {
  }

  // ---------------------------------------------------------------- timestamps

  /** A naive datetime is placed in Asia/Tokyo; an aware one is kept. */
  function Localize(d: Option<DateTime>): Option<DateTime> {
    match d
    case None => None
    case Some(dt) => Some(if dt.zone.None? then DateTime(dt.stamp, Some(Tokyo)) else dt)
  }

  /** `_parse_datetime` on a text. */
  function ParseDateTimeText(lib: Lib, value: Option<string>): Option<DateTime> {
    match value
    case None => None
    case Some(s) => if s == [] then None else Localize(lib.dateutilParse(s))
  }

  /** `_parse_datetime` on a JSON-LD value: a falsy value gives `None`, and so
      does a non-string, for which the parser raises a `TypeError` that is caught. */
  function ParseDateTime(lib: Lib, value: Option<Json>): Option<DateTime> {
    match value
    case Some(JStr(s)) => ParseDateTimeText(lib, Some(s))
    case _ => None
  }

  /** The timestamp rule: missing or empty text and unparsable text give `None`;
      a parsed timestamp keeps its instant and always carries a zone, Asia/Tokyo
      when the text had none. */
  lemma ParseDateTimeRule(lib: Lib, value: Option<string>)
    ensures value.None? || value == Some([]) ==> ParseDateTimeText(lib, value).None?
    ensures value.Some? && value.value != [] ==>
      var parsed := lib.dateutilParse(value.value);
      var r := ParseDateTimeText(lib, value);
      (r.None? <==> parsed.None?)
      && (r.Some? ==> r.value.stamp == parsed.value.stamp
                      && r.value.zone == Some(parsed.value.zone.GetOr(Tokyo)))
  {
  }

  // ---------------------------------------------------------------- DOM body

  /** The texts of the nodes that have any text, in order. */
  function NonEmptyTexts(nodes: seq<Node>): (r: seq<string>)
    ensures forall i :: 0 <= i < |r| ==> r[i] != []
    ensures |r| <= |nodes|
  {
    if nodes == [] then []
    else (if nodes[0].text != [] then [nodes[0].text] else []) + NonEmptyTexts(nodes[1..])
  }

  lemma {:induction false} NonEmptyTextsAppend(a: seq<Node>, b: seq<Node>)
    ensures NonEmptyTexts(a + b) == NonEmptyTexts(a) + NonEmptyTexts(b)
  {
    if a != [] {
      assert (a + b)[0] == a[0];
      assert (a + b)[1..] == a[1..] + b;
      NonEmptyTextsAppend(a[1..], b);
      assert NonEmptyTexts(a + b) == (if a[0].text != [] then [a[0].text] else []) + NonEmptyTexts(a[1..] + b);
    } else {
      assert a + b == b;
    }
  }

  /** The paragraphs of the first selector in `selectors` that yields any
      non-empty text. */
  function DomParagraphs(page: Page, selectors: seq<string>): seq<string> {
    if selectors == [] then []
    else
      var c := NonEmptyTexts(All(page, selectors[0]));
      if c != [] then c else DomParagraphs(page, selectors[1..])
  }

  function DomBody(page: Page): string {
    Join(Separator, DomParagraphs(page, BodySelectors))
  }

  /** The DOM body comes from exactly one selector: the first with a non-empty
      text; the selectors before it yield nothing and those after it are ignored. */
  lemma {:induction false} DomParagraphsFirstSelector(page: Page, selectors: seq<string>)
    ensures var r := DomParagraphs(page, selectors);
      (r == [] <==> forall k :: 0 <= k < |selectors| ==> NonEmptyTexts(All(page, selectors[k])) == [])
      && (r != [] ==>
            exists k :: 0 <= k < |selectors| && r == NonEmptyTexts(All(page, selectors[k]))
              && forall j :: 0 <= j < k ==> NonEmptyTexts(All(page, selectors[j])) == [])
  {
    if selectors != [] {
      DomParagraphsFirstSelector(page, selectors[1..]);
      var rest := selectors[1..];
      var r := DomParagraphs(page, selectors);
      if NonEmptyTexts(All(page, selectors[0])) == [] {
        assert forall k :: 1 <= k < |selectors| ==> selectors[k] == rest[k - 1];
        if r != [] {
          var k :| 0 <= k < |rest| && r == NonEmptyTexts(All(page, rest[k]))
                   && forall j :: 0 <= j < k ==> NonEmptyTexts(All(page, rest[j])) == [];
          assert r == NonEmptyTexts(All(page, selectors[k + 1]));
          assert forall j :: 0 <= j < k + 1 ==> NonEmptyTexts(All(page, selectors[j])) == [] by {
            forall j | 0 <= j < k + 1 ensures NonEmptyTexts(All(page, selectors[j])) == [] {
              if j > 0 { assert selectors[j] == rest[j - 1]; }
            }
          }
        } else {
          assert forall k :: 0 <= k < |selectors| ==> NonEmptyTexts(All(page, selectors[k])) == [] by {
            forall k | 0 <= k < |selectors| ensures NonEmptyTexts(All(page, selectors[k])) == [] {
              if k > 0 { assert selectors[k] == rest[k - 1]; }
            }
          }
        }
      }
    }
  }

  /** The DOM body is empty exactly when no body selector yields a non-empty text. */
  lemma DomBodyEmpty(page: Page)
    ensures DomBody(page) == [] <==>
      forall k :: 0 <= k < |BodySelectors| ==> NonEmptyTexts(All(page, BodySelectors[k])) == []
  {
    var ps := DomParagraphs(page, BodySelectors);
    DomParagraphsFirstSelector(page, BodySelectors);
    if ps != [] {
      assert ps[0] != [];
      JoinNonEmpty(Separator, ps);
    }
  }

  /** `_extract_body_from_dom` */
  method ExtractBodyFromDom(page: Page) returns (body: string)
    ensures body == DomBody(page)
  {
    var paragraphs: seq<string> := [];
    var i := 0;
    while i < |BodySelectors|
      invariant 0 <= i <= |BodySelectors|
      invariant paragraphs == []
      invariant DomParagraphs(page, BodySelectors) == DomParagraphs(page, BodySelectors[i..])
    {
      assert BodySelectors[i..][1..] == BodySelectors[i + 1..];
      var nodes := All(page, BodySelectors[i]);
      var candidate: seq<string> := [];
      for j := 0 to |nodes|
        invariant candidate == NonEmptyTexts(nodes[..j])
      {
        assert nodes[..j + 1] == nodes[..j] + [nodes[j]];
        NonEmptyTextsAppend(nodes[..j], [nodes[j]]);
        if nodes[j].text != [] {
          candidate := candidate + [nodes[j].text];
        }
      }
      assert nodes[..|nodes|] == nodes;
      if candidate != [] {
        paragraphs := candidate;
        break;
      }
      i := i + 1;
    }
    body := Join(Separator, paragraphs);
  }

  // ---------------------------------------------------------------- whole page

  /** The string a JSON-LD field contributes, else the fallback; `None` when
      the field is truthy but not a string (the model treats that as a type
      error: see `Parsing.Parse` under "Left out" in the README). */
  function TextOr(v: Option<Json>, fallback: string): Option<string> {
    match v
    case None => Some(fallback)
    case Some(JStr(s)) => Some(s)
    case Some(_) => None
  }

  /** `data.get("title") or data.get("headline")` */
  function TitleChoice(d: map<string, Json>): Option<Json> {
    OrElse(Get(d, "title"), Get(d, "headline"))
  }

  /** `data.get("articleBody")`, kept only when truthy. */
  function BodyChoice(d: map<string, Json>): Option<Json> {
    OrElse(Get(d, "articleBody"), None)
  }

  /** The article-typed JSON-LD dict the page offers, if any. */
  function JsonLdPick(lib: Lib, page: Page): Pick {
    FirstArticle(Candidates(lib, All(page, LdJsonScripts)))
  }

  /** The JSON-LD branch of `parse_article`, for the picked dict `d`. */
  function FromJsonLd(lib: Lib, url: string, page: Page, d: map<string, Json>): ParseOutcome {
    var title := TextOr(TitleChoice(d), FallbackTitle(page));
    var body := TextOr(BodyChoice(d), DomBody(page));
    if title.None? || body.None? then Unhandled(TypeError("non-string JSON-LD field"))
    else Parsed(ParsedArticle(url, title.value, ParseDateTime(lib, Get(d, "datePublished")), body.value))
  }

  /** `parse_article(url, html)` */
  function Parse(lib: Lib, url: string, page: Page): ParseOutcome {
    match JsonLdPick(lib, page)
    case PickFailed => Unhandled(TypeError("unhashable @type"))
    case Found(d) => FromJsonLd(lib, url, page, d)
    case NotFound =>
      var body := DomBody(page);
      if body == [] then ParseError
      else Parsed(ParsedArticle(url, FallbackTitle(page), ParseDateTimeText(lib, MetaContent(page)), body))
  }

  /** `parse_article`, step by step as the source does it. */
  method ParseArticle(lib: Lib, url: string, page: Page) returns (r: ParseOutcome)
    ensures r == Parse(lib, url, page)
  {
    var data := PickJsonLd(lib, All(page, LdJsonScripts));
    assert data == JsonLdPick(lib, page);
    match data {
      case PickFailed =>
        r := Unhandled(TypeError("unhashable @type"));
      case Found(d) =>
        var t := OrElse(Get(d, "title"), Get(d, "headline"));
        var title := TextOr(t, FallbackTitle(page));
        var published := ParseDateTime(lib, Get(d, "datePublished"));
        var b := OrElse(Get(d, "articleBody"), None);
        var body: Option<string>;
        if b.Some? {
          body := TextOr(b, "");
        } else {
          var dom := ExtractBodyFromDom(page);
          body := Some(dom);
        }
        if title.None? || body.None? {
          r := Unhandled(TypeError("non-string JSON-LD field"));
        } else {
          r := Parsed(ParsedArticle(url, title.value, published, body.value));
        }
      case NotFound =>
        var title := FallbackTitle(page);
        var meta := FindMetaContent(page);
        var published := ParseDateTimeText(lib, meta);
        var body := ExtractBodyFromDom(page);
        if body == [] {
          r := ParseError;
        } else {
          r := Parsed(ParsedArticle(url, title, published, body));
        }
    }
  }

  /** The parsed URL is always the URL the parser was given. */
  lemma ParsedUrlIsInput(lib: Lib, url: string, page: Page)
    ensures Parse(lib, url, page).Parsed? ==> Parse(lib, url, page).article.url == url
  {
  }

  /** `d[key]` is a non-empty string. */
  predicate NonEmptyText(d: map<string, Json>, key: string) {
    key in d && d[key].JStr? && d[key].s != []
  }

  /** `d.get(key)` is falsy: absent, null, empty, zero or false. */
  predicate Falsy(d: map<string, Json>, key: string) {
    key !in d || !Truthy(d[key])
  }

  /** A chosen field that is a string, or no field chosen at all. */
  predicate TextOrNone(v: Option<Json>) {
    v.None? || v.value.JStr?
  }

  /** The JSON-LD branch for a dict `d`: never `ParseError`, even for an
      empty body, and a parse whenever the chosen title and body fields are
      strings. The title is `d["title"]` when that is a non-empty string, else
      `d["headline"]` when that is, else the fallback title. The body is
      `d["articleBody"]` when that is a non-empty string, else the DOM body.
      The date comes from `d["datePublished"]`. */
  lemma JsonLdFields(lib: Lib, url: string, page: Page, d: map<string, Json>)
    ensures FromJsonLd(lib, url, page, d) != ParseError
    ensures FromJsonLd(lib, url, page, d).Parsed? <==> TextOrNone(TitleChoice(d)) && TextOrNone(BodyChoice(d))
    ensures var r := FromJsonLd(lib, url, page, d);
      TextOrNone(BodyChoice(d)) ==>
        (NonEmptyText(d, "title") ==> r.Parsed? && r.article.title == d["title"].s)
        && (Falsy(d, "title") && NonEmptyText(d, "headline") ==> r.Parsed? && r.article.title == d["headline"].s)
        && (Falsy(d, "title") && Falsy(d, "headline") ==> r.Parsed? && r.article.title == FallbackTitle(page))
    ensures var r := FromJsonLd(lib, url, page, d);
      TextOrNone(TitleChoice(d)) ==>
        (NonEmptyText(d, "articleBody") ==> r.Parsed? && r.article.body == d["articleBody"].s)
        && (Falsy(d, "articleBody") ==> r.Parsed? && r.article.body == DomBody(page))
    ensures var r := FromJsonLd(lib, url, page, d);
      r.Parsed? ==> r.article.url == url && r.article.publishedAt == ParseDateTime(lib, Get(d, "datePublished"))
  {
    if NonEmptyText(d, "title") {
      assert TitleChoice(d) == Get(d, "title");
    } else if Falsy(d, "title") && NonEmptyText(d, "headline") {
      assert TitleChoice(d) == Get(d, "headline");
    }
    if NonEmptyText(d, "articleBody") {
      assert BodyChoice(d) == Get(d, "articleBody");
    }
  }

  /** With a JSON-LD article on the page, `parse_article` takes the JSON-LD
      branch for that article, whose fields `JsonLdFields` states. */
  lemma JsonLdPath(lib: Lib, url: string, page: Page)
    requires JsonLdPick(lib, page).Found?
    ensures Parse(lib, url, page) == FromJsonLd(lib, url, page, JsonLdPick(lib, page).fields)
    ensures Parse(lib, url, page) != ParseError
    ensures Parse(lib, url, page).Parsed? <==>
      TextOrNone(TitleChoice(JsonLdPick(lib, page).fields)) && TextOrNone(BodyChoice(JsonLdPick(lib, page).fields))
  {
    JsonLdFields(lib, url, page, JsonLdPick(lib, page).fields);
  }

  /** Without a JSON-LD article, `ParseError` is raised exactly when the DOM
      body is empty, which is when no body selector yields any text. */
  lemma NoJsonLdPath(lib: Lib, url: string, page: Page)
    requires JsonLdPick(lib, page).NotFound?
    ensures Parse(lib, url, page) == ParseError <==>
      forall k :: 0 <= k < |BodySelectors| ==> NonEmptyTexts(All(page, BodySelectors[k])) == []
    ensures Parse(lib, url, page).Parsed? ==>
      Parse(lib, url, page).article.title == FallbackTitle(page)
      && Parse(lib, url, page).article.publishedAt == ParseDateTimeText(lib, MetaContent(page))
  {
    DomBodyEmpty(page);
  }
}
