/** Client runs that put the feed, the card and the bookmark table together. */
module Scenarios {
  import opened Wrappers
  import opened NewsTypes
  import opened Feed
  import opened Bookmarks
  import opened HomePage

  /**
   * Fetch the "science" headlines, bookmark the first article, observe the table,
   * press the bookmark again and observe once more: the first observation is
   * exactly that one row (the article's fields with a freshly generated summary,
   * since nothing was cached), and the second is empty.
   */
  method BookmarkFirstScienceArticle(initial: Outcome<GNewsResponse>, science: Outcome<GNewsResponse>,
                                     reply1: Outcome<OpenAIResponse>, reply2: Outcome<OpenAIResponse>)
    returns (saved: ArticleEntity, afterAdd: seq<ArticleEntity>, afterRemove: seq<ArticleEntity>)
    requires science.Success? && |science.body.articles| > 0
    ensures saved == BuildEntity(ToArticle(science.body.articles[0]), Some(SummaryText(reply1)))
    ensures afterAdd == [saved]
    ensures afterRemove == []
  {
    var vm := new NewsViewModel(initial);
    var request := vm.FetchTopHeadlinesByCategory("science", science);
    var article := vm.articles[0];
    var store := new ArticleDao();

    var _, s := PressBookmark(store, vm, article, false, reply1);
    saved := s;
    afterAdd := store.GetAllBookmarkedArticles();
    assert store.rows == map[article.url := saved];
    assert saved in store.rows.Values;

    var _, _ := PressBookmark(store, vm, article, false, reply2);
    afterRemove := store.GetAllBookmarkedArticles();
  }
}
