/** A parsed HTML page, described by what the selector engine returns for
    each selector the parsers use. `soup.find(tag, class_=c)`,
    `soup.find("meta", property=p)` and `soup.select_one(sel)` are the first
    match of the equivalent CSS selector; `soup.select(sel)` and
    `soup.find_all(...)` are all of them, in document order. */
module Html {
  import opened Common

  /** One matched element: `text` is `get_text(strip=True)`, `str` is `.string`
      (`None` unless the element has exactly one string child), `attrs` its
      attributes, and `paragraphs` the `get_text(strip=True)` of each `<p>`
      inside it, in document order. */
  datatype Node = Node(text: string, str: Option<string>, attrs: map<string, string>, paragraphs: seq<string>)

  datatype Page = Page(matches: map<string, seq<Node>>)

  /** `soup.select(selector)` */
  function All(page: Page, selector: string): seq<Node> {
    if selector in page.matches then page.matches[selector] else []
  }

  /** `soup.select_one(selector)` */
  function First(page: Page, selector: string): (r: Option<Node>)
    ensures r.Some? <==> All(page, selector) != []
    ensures r.Some? ==> r.value == All(page, selector)[0]
  {
    var nodes := All(page, selector);
    if nodes == [] then None else Some(nodes[0])
  }

  /** `tag.get(name)` is present and non-empty. */
  predicate HasAttr(n: Node, name: string) {
    name in n.attrs && n.attrs[name] != []
  }

  function MetaProperty(p: string): string { "meta[property=\"" + p + "\"]" }
  function MetaName(p: string): string { "meta[name=\"" + p + "\"]" }

  const LdJsonScripts: string := "script[type=\"application/ld+json\"]"
  const OgTitle: string := MetaProperty("og:title")
}
