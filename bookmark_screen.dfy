/**
 * The bookmark screen: each stored row is turned back into a displayed article,
 * with the saved summary standing in for the description.
 */
module BookmarkScreen {
  import opened Wrappers
  import opened NewsTypes
  import opened Bookmarks
  import opened HomePage

  /** The article shown for a stored bookmark. */
  function ToDisplayArticle(e: ArticleEntity): (a: Article)
    ensures a.description == (if e.summary.Some? then e.summary else e.description)
    ensures a.url == e.url && a.title == e.title && a.publishedAt == e.publishedAt && a.image == e.imageUrl
    ensures a.content == None && a.source == Source(e.sourceName, "")
  {
    Article(
      title := e.title,
      description := e.summary.OrElse(e.description),
      content := None,
      url := e.url,
      image := e.imageUrl,
      publishedAt := e.publishedAt,
      source := Source(e.sourceName, ""))
  }

  /** One displayed article per stored row, in the order the rows were observed. */
  function DisplayArticles(rows: seq<ArticleEntity>): (r: seq<Article>)
    ensures |r| == |rows|
    ensures forall i :: 0 <= i < |rows| ==> r[i] == ToDisplayArticle(rows[i])
  {
    if rows == [] then [] else [ToDisplayArticle(rows[0])] + DisplayArticles(rows[1..])
  }

  /** What the screen shows below its title. */
  datatype ScreenBody = Placeholder | ArticleList(items: seq<Article>)

  /** The placeholder for an empty list, the converted rows otherwise. */
  function ScreenContent(rows: seq<ArticleEntity>): (b: ScreenBody)
    ensures b.Placeholder? <==> rows == []
    ensures b.ArticleList? ==> b.items == DisplayArticles(rows)
  {
    if rows == [] then Placeholder else ArticleList(DisplayArticles(rows))
  }

  /** The screen built from the current table: the placeholder exactly when no row is stored, else every row once. */
  method ShowBookmarks(store: ArticleDao) returns (body: ScreenBody)
    requires store.Valid()
    ensures body.Placeholder? <==> store.rows == map[]
    ensures body.ArticleList? ==> |body.items| == |store.rows|
    ensures body.ArticleList? ==> forall u :: u in store.rows ==> ToDisplayArticle(store.rows[u]) in body.items
  {
    var observed := store.GetAllBookmarkedArticles();
    body := ScreenContent(observed);
    if body.ArticleList? {
      forall u | u in store.rows ensures ToDisplayArticle(store.rows[u]) in body.items {
        var i :| 0 <= i < |observed| && observed[i] == store.rows[u];
        assert body.items[i] == ToDisplayArticle(store.rows[u]);
      }
    }
  }

  /**
   * Saving an article and showing it again: the displayed copy keeps url, title,
   * image, date and source name, shows the frozen summary (or the original
   * description when none was frozen), and loses its content and source URL.
   */
  lemma SavedThenDisplayed(article: Article, summary: Option<string>)
    ensures ToDisplayArticle(BuildEntity(article, summary))
         == Article(article.title, if summary.Some? then summary else article.description, None,
                    article.url, article.image, article.publishedAt, Source(article.source.name, ""))
  {
  }

  /** A bookmark card shows the saved summary (else the stored description) and never asks for one. */
  lemma BookmarkCardSummary(e: ArticleEntity, cache: map<string, string>, expanded: bool, hasViewModel: bool)
    ensures ShownSummary(ToDisplayArticle(e), true, cache) == (if e.summary.Some? then e.summary else e.description)
    ensures !ShouldGenerateOnDemand(expanded, ShownSummary(ToDisplayArticle(e), true, cache), hasViewModel, true)
  {
  }
}
