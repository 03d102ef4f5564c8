/** The two stored records, the schema's constraints as predicates, and the
    "latest inference" of an article. */
module Models {
  import opened Common
  import opened External

  /** A row of `articles`. The string primary key (a random UUID) is an
      abstract natural number here. */
  datatype Article = Article(
    id: nat,
    url: string,
    title: string,
    publishedAt: Option<DateTime>,
    body: string,
    createdAt: int)

  /** A row of `inference_results`. */
  datatype Inference = Inference(
    id: nat,
    articleId: nat,
    riskScore: int,
    summary: string,
    model: string,
    promptVersion: string,
    createdAt: int)

  /** Both tables and the source of fresh primary keys. */
  datatype Db = Db(articles: seq<Article>, inferences: seq<Inference>, nextId: nat)

  /** `url` is declared unique. */
  predicate UniqueUrls(articles: seq<Article>) {
    forall i, j :: 0 <= i < j < |articles| ==> articles[i].url != articles[j].url
  }

  predicate UniqueArticleIds(articles: seq<Article>) {
    forall i, j :: 0 <= i < j < |articles| ==> articles[i].id != articles[j].id
  }

  predicate UniqueInferenceIds(inferences: seq<Inference>) {
    forall i, j :: 0 <= i < j < |inferences| ==> inferences[i].id != inferences[j].id
  }

  predicate HasArticle(articles: seq<Article>, id: nat) {
    exists i :: 0 <= i < |articles| && articles[i].id == id
  }

  /** `article_id` is a foreign key into `articles`. */
  predicate ForeignKeys(articles: seq<Article>, inferences: seq<Inference>) {
    forall k :: 0 <= k < |inferences| ==> HasArticle(articles, inferences[k].articleId)
  }

  /** Every key handed out so far is below the counter. */
  predicate KeysBelow(db: Db) {
    (forall i :: 0 <= i < |db.articles| ==> db.articles[i].id < db.nextId)
    && (forall k :: 0 <= k < |db.inferences| ==> db.inferences[k].id < db.nextId)
  }

  /** The constraints the pipeline keeps. */
  predicate Valid(db: Db) {
    UniqueUrls(db.articles) && UniqueArticleIds(db.articles) && UniqueInferenceIds(db.inferences)
    && ForeignKeys(db.articles, db.inferences) && KeysBelow(db)
  }

  /** The schema's `unique=True` on `article_id` (with `uselist=False`):
      at most one inference per article. */
  predicate OnePerArticle(inferences: seq<Inference>) {
    forall i, j :: 0 <= i < j < |inferences| ==> inferences[i].articleId != inferences[j].articleId
  }

  /** The order `created_at desc, id desc`: `a` comes before `b`. */
  predicate Newer(a: Inference, b: Inference) {
    a.createdAt > b.createdAt || (a.createdAt == b.createdAt && a.id > b.id)
  }

  /** The latest inference of an article: the first in the order
      `created_at desc, id desc`. */
  function Latest(inferences: seq<Inference>, articleId: nat): (r: Option<Inference>)
    ensures r.None? <==> forall k :: 0 <= k < |inferences| ==> inferences[k].articleId != articleId
    ensures r.Some? ==> r.value in inferences && r.value.articleId == articleId
    ensures r.Some? ==> forall k :: 0 <= k < |inferences| && inferences[k].articleId == articleId ==>
                          !Newer(inferences[k], r.value)
  {
    if inferences == [] then None
    else
      var rest := Latest(inferences[..|inferences| - 1], articleId);
      var last := inferences[|inferences| - 1];
      assert forall k :: 0 <= k < |inferences| - 1 ==> inferences[k] == inferences[..|inferences| - 1][k];
      if last.articleId != articleId then rest
      else if rest.None? || Newer(last, rest.value) then Some(last)
      else rest
  }

  /** The inferences of one article, in log order. */
  function InferencesOf(inferences: seq<Inference>, articleId: nat): (r: seq<Inference>)
    ensures forall x :: x in r <==> x in inferences && x.articleId == articleId
    ensures |r| <= |inferences|
  {
    if inferences == [] then []
    else (if inferences[0].articleId == articleId then [inferences[0]] else [])
         + InferencesOf(inferences[1..], articleId)
  }

  /** Appending an inference never hides a newer one: afterwards the latest
      inference of its article is the new one exactly when it is newer than
      the previous latest. */
  lemma LatestAfterAppend(inferences: seq<Inference>, x: Inference)
    ensures var before := Latest(inferences, x.articleId);
      Latest(inferences + [x], x.articleId) ==
        (if before.None? || Newer(x, before.value) then Some(x) else before)
  {
    assert (inferences + [x])[..|inferences|] == inferences;
  }

  /** Appending an inference of one article leaves every other article's
      latest inference alone. */
  lemma LatestOtherArticle(inferences: seq<Inference>, x: Inference, id: nat)
    requires x.articleId != id
    ensures Latest(inferences + [x], id) == Latest(inferences, id)
  {
    assert (inferences + [x])[..|inferences|] == inferences;
  }

  /** The first inference of an article keeps the one-per-article rule. */
  lemma OnePerArticleAppend(inferences: seq<Inference>, x: Inference)
    requires OnePerArticle(inferences) && Latest(inferences, x.articleId).None?
    ensures OnePerArticle(inferences + [x])
  {
    var s := inferences + [x];
    forall i, j | 0 <= i < j < |s| ensures s[i].articleId != s[j].articleId {
      if j == |inferences| {
        assert s[i] == inferences[i];
      } else {
        assert s[i] == inferences[i] && s[j] == inferences[j];
      }
    }
  }
}
