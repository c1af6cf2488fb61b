/**
 * The decision rules of the home feed's article card (`ArticleItem`) and of the
 * category bar (`CategoriesBar`): which summary a card shows, when it asks for
 * one, what a bookmark press saves, and which fetch a button or search starts.
 */
module HomePage {
  import opened Wrappers
  import opened Text
  import opened NewsTypes
  import opened Feed
  import opened Bookmarks

  /** `bookmarkedArticles.any { it.url == url }`. */
  function IsBookmarked(bookmarks: seq<ArticleEntity>, url: string): (b: bool)
    ensures b <==> exists i :: 0 <= i < |bookmarks| && bookmarks[i].url == url
  {
    if bookmarks == [] then false
    else bookmarks[0].url == url || IsBookmarked(bookmarks[1..], url)
  }

  /** The summary cache the card sees: the controller's, or an empty map when there is none. */
  function CacheOf(vm: NewsViewModel?): (c: map<string, string>)
    reads vm
    ensures vm == null ==> c == map[]
    ensures vm != null ==> c == vm.summaries
  {
    if vm == null then map[] else vm.summaries
  }

  /** The summary a card shows: on the bookmark screen the article's description, elsewhere the cache entry. */
  function ShownSummary(article: Article, fromBookmarkScreen: bool, cache: map<string, string>): (shown: Option<string>)
    ensures fromBookmarkScreen ==> shown == article.description
    ensures !fromBookmarkScreen ==> (shown.Some? <==> article.url in cache)
    ensures !fromBookmarkScreen && article.url in cache ==> shown == Some(cache[article.url])
  {
    if fromBookmarkScreen then article.description
    else if article.url in cache then Some(cache[article.url])
    else None
  }

  /** The text sent for summarisation: content, else description, else title. */
  function SummarySourceText(article: Article): (text: string)
    ensures article.content.Some? ==> text == article.content.value
    ensures article.content.None? && article.description.Some? ==> text == article.description.value
    ensures article.content.None? && article.description.None? ==> text == article.title
  {
    article.content.GetOr(article.description.GetOr(article.title))
  }

  /**
   * The condition of the card's on-demand summary effect: a collapsed card, a card
   * that already shows a summary, a card without a controller and a card on the
   * bookmark screen never ask.
   */
  function ShouldGenerateOnDemand(expanded: bool, shown: Option<string>, hasViewModel: bool, fromBookmarkScreen: bool): (b: bool)
    ensures b ==> expanded && hasViewModel && shown == None
    ensures fromBookmarkScreen ==> !b
  {
    expanded && shown.None? && hasViewModel && !fromBookmarkScreen
  }

  /**
   * With a controller present, the card asks for a summary exactly when it is
   * expanded on the home feed and its URL has no cache entry, so the request
   * always reaches the provider.
   */
  lemma OnDemandExactlyWhenUncached(article: Article, fromBookmarkScreen: bool, cache: map<string, string>, expanded: bool)
    ensures ShouldGenerateOnDemand(expanded, ShownSummary(article, fromBookmarkScreen, cache), true, fromBookmarkScreen)
        <==> expanded && !fromBookmarkScreen && article.url !in cache
    ensures ShouldGenerateOnDemand(expanded, ShownSummary(article, fromBookmarkScreen, cache), true, fromBookmarkScreen)
        ==> SummaryCall(cache, article.url, SummarySourceText(article)).Some?
  {
  }

  /** The summary frozen into a bookmark: the shown one, else a fresh blocking one when a controller exists. */
  function FrozenSummary(shown: Option<string>, hasViewModel: bool, reply: Outcome<OpenAIResponse>): (s: Option<string>)
    ensures shown.Some? ==> s == shown
    ensures shown.None? && hasViewModel ==> s == Some(SummaryText(reply))
    ensures shown.None? && !hasViewModel ==> s == None
  {
    if shown.Some? then shown else if hasViewModel then Some(SummaryText(reply)) else None
  }

  /** The row a bookmark press saves for an article. */
  function BuildEntity(article: Article, summary: Option<string>): (e: ArticleEntity)
    ensures e.url == article.url && e.title == article.title && e.description == article.description
    ensures e.imageUrl == article.image && e.publishedAt == article.publishedAt
    ensures e.sourceName == article.source.name && e.summary == summary
  {
    ArticleEntity(article.url, article.title, article.description, article.image,
                  article.publishedAt, article.source.name, summary)
  }

  /** The bookmark toggle on the table: delete when the URL is stored, insert otherwise. */
  function Toggled(t: Table, e: ArticleEntity): (r: Table)
    ensures e.url in r <==> e.url !in t
    ensures e.url !in t ==> r[e.url] == e
    ensures forall u :: u != e.url ==> (u in r <==> u in t)
    ensures forall u :: u in r && u != e.url ==> r[u] == t[u]
    ensures KeyedByUrl(t) ==> KeyedByUrl(r)
  {
    if e.url in t then Delete(t, e) else Upsert(t, e)
  }

  /** Two presses on a card whose URL is not bookmarked give back the original table. */
  lemma {:induction false} ToggleTwiceRestores(t: Table, first: ArticleEntity, second: ArticleEntity)
    requires first.url !in t && second.url == first.url
    ensures Toggled(Toggled(t, first), second) == t
  {
    assert first.url in Upsert(t, first);
    DeleteUndoesInsert(t, first, second);
  }

  /** The card's bookmarked state, read from the observed table: true exactly when a row has the article's URL. */
  method ObserveBookmarked(store: ArticleDao, url: string) returns (bookmarked: bool)
    requires store.Valid()
    ensures bookmarked <==> url in store.rows
  {
    var observed := store.GetAllBookmarkedArticles();
    bookmarked := IsBookmarked(observed, url);
    ObservedMatchesTable(store.rows, observed, url);
  }

  /**
   * `summary ?: newsViewModel?.generateSummaryBlocking(...)`: the shown summary when
   * there is one, with no provider call; otherwise a blocking summary of the card's
   * text when a controller exists. `call` is the provider request made, if any.
   */
  method FreezeSummary(vm: NewsViewModel?, article: Article, shown: Option<string>, reply: Outcome<OpenAIResponse>)
    returns (call: Option<OpenAIRequest>, frozen: Option<string>)
    ensures call == (if shown.None? && vm != null then Some(SummaryRequest(SummarySourceText(article))) else None)
    ensures shown.Some? ==> frozen == shown
    ensures shown.None? && vm != null ==> frozen == Some(SummaryText(reply))
    ensures shown.None? && vm == null ==> frozen == None
  {
    if shown.Some? {
      call, frozen := None, shown;
    } else if vm != null {
      var text, request := vm.GenerateSummaryBlocking(SummarySourceText(article), reply);
      call, frozen := Some(request), Some(text);
    } else {
      call, frozen := None, None;
    }
  }

  /**
   * The bookmark button: freeze the shown summary (or a blocking one), build the
   * row, and delete it when the observed table holds its URL, insert it otherwise.
   * `summaryCall` is the blocking provider request, if one was made.
   */
  method PressBookmark(store: ArticleDao, vm: NewsViewModel?, article: Article, fromBookmarkScreen: bool,
                       reply: Outcome<OpenAIResponse>)
    returns (summaryCall: Option<OpenAIRequest>, saved: ArticleEntity)
    requires store.Valid()
    modifies store
    ensures store.Valid()
    ensures var shown := ShownSummary(article, fromBookmarkScreen, CacheOf(vm));
      && summaryCall == (if shown.None? && vm != null then Some(SummaryRequest(SummarySourceText(article))) else None)
      && saved == BuildEntity(article, FrozenSummary(shown, vm != null, reply))
    ensures store.rows == Toggled(old(store.rows), saved)
  {
    var bookmarked := ObserveBookmarked(store, article.url);
    var shown := ShownSummary(article, fromBookmarkScreen, CacheOf(vm));
    var frozen;
    summaryCall, frozen := FreezeSummary(vm, article, shown, reply);
    saved := BuildEntity(article, frozen);
    if bookmarked {
      store.DeleteArticle(saved);
    } else {
      store.InsertArticle(saved);
    }
  }

  /** Two presses in a row on a card whose URL is not bookmarked leave the table as it was. */
  method PressBookmarkTwice(store: ArticleDao, vm: NewsViewModel?, article: Article, fromBookmarkScreen: bool,
                            reply1: Outcome<OpenAIResponse>, reply2: Outcome<OpenAIResponse>)
    requires store.Valid() && article.url !in store.rows
    modifies store
    ensures store.Valid() && store.rows == old(store.rows)
  {
    var _, first := PressBookmark(store, vm, article, fromBookmarkScreen, reply1);
    var _, second := PressBookmark(store, vm, article, fromBookmarkScreen, reply2);
    ToggleTwiceRestores(old(store.rows), first, second);
  }

  /**
   * The card's on-demand effect when `expanded` changes: when the trigger
   * condition holds, `generateSummaryForUrl` runs with the card's text.
   */
  method ExpandCard(vm: NewsViewModel?, article: Article, expanded: bool, fromBookmarkScreen: bool,
                    reply: Outcome<OpenAIResponse>)
    returns (call: Option<OpenAIRequest>)
    modifies vm
    ensures var shown := ShownSummary(article, fromBookmarkScreen, old(CacheOf(vm)));
      if ShouldGenerateOnDemand(expanded, shown, vm != null, fromBookmarkScreen) then
        && vm != null
        && call == Some(SummaryRequest(SummarySourceText(article)))
        && vm.summaries == CacheAfter(old(vm.summaries), article.url, reply)
        && vm.summaries[article.url] == SummaryText(reply)
        && vm.articles == old(vm.articles)
      else
        call == None && (vm != null ==> unchanged(vm))
  {
    var shown := ShownSummary(article, fromBookmarkScreen, CacheOf(vm));
    if ShouldGenerateOnDemand(expanded, shown, vm != null, fromBookmarkScreen) {
      call := vm.GenerateSummaryForUrl(article.url, SummarySourceText(article), reply);
    } else {
      call := None;
    }
  }

  /** The labels of the category buttons, in display order. */
  const CategoryLabels: seq<string> :=
    ["General", "UK news", "Business", "Sports", "Entertainment", "Technology", "Science"]

  /** The topic codes the buttons are meant to request, in the same order. */
  const ButtonTopics: seq<string> :=
    ["world", "nation", "business", "sports", "entertainment", "technology", "science"]

  /** Each category button requests its intended topic once its label is lower-cased. */
  lemma CategoryButtonTopic(i: nat)
    requires i < |CategoryLabels|
    ensures TopicFor(CategoryLabels[i]) == ButtonTopics[i]
  {
    var s := CategoryLabels[i];
    if i == 0 {
      assert s == "General";
      LowerIs(s, "general");
    } else if i == 1 {
      assert s == "UK news";
      LowerIs(s, "uk news");
    } else if i == 2 {
      assert s == "Business";
      LowerIs(s, "business");
    } else if i == 3 {
      assert s == "Sports";
      LowerIs(s, "sports");
    } else if i == 4 {
      assert s == "Entertainment";
      LowerIs(s, "entertainment");
    } else if i == 5 {
      assert s == "Technology";
      LowerIs(s, "technology");
    } else {
      assert s == "Science";
      LowerIs(s, "science");
    }
  }

  /** A category button: fetch the headlines of the lower-cased label. */
  method ClickCategory(vm: NewsViewModel, buttonLabel: string, reply: Outcome<GNewsResponse>)
    returns (request: HeadlineRequest)
    modifies vm
    ensures request == TopHeadlines(TopicFor(buttonLabel), Country, Language)
    ensures reply.Success? ==> vm.articles == ToArticles(reply.body.articles)
    ensures reply.Failure? ==> vm.articles == old(vm.articles)
    ensures vm.summaries == old(vm.summaries)
  {
    TopicIgnoresCase(buttonLabel);
    request := vm.FetchTopHeadlinesByCategory(Lower(buttonLabel), reply);
  }

  /** The search button: a search starts only for a non-empty query. */
  method SubmitSearch(vm: NewsViewModel, query: string, reply: Outcome<GNewsResponse>)
    returns (request: Option<HeadlineRequest>)
    modifies vm
    ensures query == [] ==> request == None && unchanged(vm)
    ensures query != [] ==> request == Some(SearchNews(query + " UK", Country, Language))
    ensures query != [] && reply.Success? ==> vm.articles == ToArticles(reply.body.articles)
    ensures query != [] && reply.Failure? ==> vm.articles == old(vm.articles)
    ensures vm.summaries == old(vm.summaries)
  {
    if query != [] {
      var r := vm.FetchEverythingWithQuery(query, reply);
      request := Some(r);
    } else {
      request := None;
    }
  }
}
