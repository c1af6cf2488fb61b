# Orange News — article feed, summary cache and bookmarks

A Dafny model of the stateful core of the Orange News Android app:

- the **feed controller** (`NewsViewModel`): the category-to-topic table, headline cleaning,
  the replace-or-keep rule for fetched and searched article lists, and the write-once,
  URL-keyed summary cache with its blocking variant;
- the **bookmark table** (`ArticleDao` over `ArticleEntity`): a URL-keyed table with
  REPLACE-on-conflict insert, delete by primary key and an order-free "all rows" query;
- the **glue** in the article card and the category bar (`ArticleItem`, `CategoriesBar`):
  the bookmarked test, which summary is shown and frozen into a bookmark, when a summary
  is generated on demand, the bookmark toggle, and which fetch a button or search starts;
- the **bookmark screen**: each stored row turned back into a displayed article.

The two remote providers are not called: each call is an `Outcome` parameter
(`Success(body)` or `Failure` for any exception), and each operation returns the request
it would issue (`None` when it issues none). The Kotlin `Flow`/`StateFlow` observation is
modelled as reading the current state.

Files and modules: `wrappers.dfy` (Option, Outcome), `text.dfy` (`lowercase`, `trim`),
`news_types.dfy` (the records), `headline.dfy` (`cleanHeadline`), `feed.dfy`
(`NewsViewModel` as a class with an article list and a summary map), `bookmarks.dfy`
(`ArticleDao` as a class over a URL-keyed map), `home_page.dfy`, `bookmark_screen.dfy`,
`scenarios.dfy` (an end-to-end client run).

Where the code does something other than what a reader of its intent might expect, the model follows the code:
- a title without " - " or " | " is still trimmed, not left unchanged;
- `generateSummaryForUrl` returns nothing; the summary is read back from the cache map;
- no constraint on the URL of a bookmark (for example non-empty) is enforced;
- the headline regex removes a separator suffix on every line of a multi-line title, not only at the end;
- a summary reply whose first candidate has a null `message` or null `content` (which JSON decoding can produce although both are declared non-null) yields "Summary not available", so the model makes both optional.

## Model

| member | source | states |
|---|---|---|
| Text.Lower | app/src/main/java/com/example/orangenews/NewsViewModel.kt:47 | same length; every character lower-cased; no upper-case ASCII letter remains |
| Text.LowerIdempotent | app/src/main/java/com/example/orangenews/NewsViewModel.kt:47 | lower-casing twice equals lower-casing once |
| Text.Trim | app/src/main/java/com/example/orangenews/NewsViewModel.kt:34 | result has no whitespace at either end; only whitespace is dropped, and only from the ends |
| Text.TrimIdempotent | app/src/main/java/com/example/orangenews/NewsViewModel.kt:34 | trimming twice equals trimming once |
| Headline.StripSeparators | app/src/main/java/com/example/orangenews/NewsViewModel.kt:34 | the regex replacement never lengthens the title; its first character is kept from a position with no match, or is the line terminator that ended a match |
| Headline.StripLeavesNoSeparator | app/src/main/java/com/example/orangenews/NewsViewModel.kt:34 | after the replacement no " - " or " \| " is left anywhere, on any line |
| Headline.StripWithoutSeparator | app/src/main/java/com/example/orangenews/NewsViewModel.kt:34 | a text with no separator is unchanged by the replacement |
| Headline.StripSingleLine | app/src/main/java/com/example/orangenews/NewsViewModel.kt:34 | on a single line the replacement keeps exactly the prefix before the first separator |
| Headline.CleanHeadline | app/src/main/java/com/example/orangenews/NewsViewModel.kt:33-35 | null gives "No Title"; any result has no " - " or " \| "; a cleaned title is trimmed and no longer than the title |
| Headline.CleanWithoutSeparator | app/src/main/java/com/example/orangenews/NewsViewModel.kt:34 | a title with no separator is only trimmed |
| Headline.CleanSingleLine | app/src/main/java/com/example/orangenews/NewsViewModel.kt:34 | a single-line title becomes the trimmed prefix before its first separator, and stays single-line |
| Headline.CleanIdempotent | app/src/main/java/com/example/orangenews/NewsViewModel.kt:34 | cleaning a cleaned headline changes nothing, for every title including null |
| Headline.CleanAtFirstSeparator | app/src/main/java/com/example/orangenews/NewsViewModel.kt:34 | a clean head followed by a separator suffix is cut back to the head |
| Headline.CleanExample | app/src/main/java/com/example/orangenews/NewsViewModel.kt:34 | "Storm hits coast - BBC News" becomes "Storm hits coast" |
| Feed.TopicOfKey | app/src/main/java/com/example/orangenews/NewsViewModel.kt:47-56 | a lower-cased label in the fixed table gets its table entry, any other gets "nation" |
| Feed.TopicFor | app/src/main/java/com/example/orangenews/NewsViewModel.kt:46-56 | the topic is the table entry of the lower-cased label, "nation" for an unknown label, and always one of the table's topic codes |
| Feed.TopicIgnoresCase | app/src/main/java/com/example/orangenews/NewsViewModel.kt:47 | a label and its lower-cased form choose the same topic |
| Feed.UnknownCategoryExample | app/src/main/java/com/example/orangenews/NewsViewModel.kt:55 | "unknown-category" falls back to "nation" |
| Feed.ToArticle | app/src/main/java/com/example/orangenews/NewsViewModel.kt:69-80 | the entry's title is clean (no separator, trimmed); description is null; content, url, image, publishedAt and source are copied |
| Feed.ToArticles | app/src/main/java/com/example/orangenews/NewsViewModel.kt:68-81 | one entry per provider article, in the same order |
| Feed.FeedTitlesAreClean | app/src/main/java/com/example/orangenews/NewsViewModel.kt:70 | each feed title is the cleaned provider title and is a fixed point of cleaning |
| Feed.SummaryRequest | app/src/main/java/com/example/orangenews/NewsViewModel.kt:124-133 | model "gpt-4", the fixed system message, then a user message made of the summary prompt followed by the whole article text |
| Feed.SummaryText | app/src/main/java/com/example/orangenews/NewsViewModel.kt:135-139 | the first candidate's content; "Summary not available" on failure, an empty candidate list, a null message or null content |
| Feed.SummaryCall | app/src/main/java/com/example/orangenews/NewsViewModel.kt:121-134 | no provider request exactly when the URL is cached; otherwise the fixed summary request for the text |
| Feed.CacheAfter | app/src/main/java/com/example/orangenews/NewsViewModel.kt:119-142 | the URL becomes a key, no other key is added, existing entries keep their values, a new entry holds the reply's summary text |
| Feed.SummaryMemoised | app/src/main/java/com/example/orangenews/NewsViewModel.kt:119-142 | after one request for a URL a second one makes no call and leaves the cache as it was |
| Feed.FailureIsCached | app/src/main/java/com/example/orangenews/NewsViewModel.kt:136-141 | a failed request caches the fallback and a later request does not replace it |
| Feed.DefaultCategory | app/src/main/java/com/example/orangenews/PreferenceManager.kt:14-16 | the stored category, or "general" when none is stored |
| Feed.NewsViewModel.constructor | app/src/main/java/com/example/orangenews/NewsViewModel.kt:20-30 | empty cache; the list is the "general" fetch result on success, empty on failure |
| Feed.NewsViewModel.FetchTopHeadlinesByCategory | app/src/main/java/com/example/orangenews/NewsViewModel.kt:46-86 | requests TopicFor(category) with "gb"/"en"; success replaces the whole list by the mapped articles, failure leaves it; the cache is untouched |
| Feed.NewsViewModel.LoadDefaultCategory | app/src/main/java/com/example/orangenews/NewsViewModel.kt:38-43 | the same as a category fetch for the stored (or default) category |
| Feed.NewsViewModel.FetchEverythingWithQuery | app/src/main/java/com/example/orangenews/NewsViewModel.kt:89-116 | requests the query with " UK" appended, "gb"/"en"; same replace-or-keep rule |
| Feed.NewsViewModel.GenerateSummaryForUrl | app/src/main/java/com/example/orangenews/NewsViewModel.kt:119-143 | the provider call is made only for an uncached URL; the new cache is CacheAfter of the old one; the list is untouched |
| Feed.NewsViewModel.GenerateSummaryBlocking | app/src/main/java/com/example/orangenews/NewsViewModel.kt:146-164 | the same request and the same first-candidate-or-fallback rule, and no change to the controller |
| Feed.SummaryRequestedTwice | app/src/main/java/com/example/orangenews/NewsViewModel.kt:119-143 | two requests in a row for one URL: the second makes no call and both leave the same cached text |
| Bookmarks.Upsert | app/src/main/java/com/example/orangenews/ArticleDao.kt:16-23 | the key set gains the URL; the new row is the inserted record; other rows unchanged; size +1 for a new URL, same size otherwise; the primary-key invariant is kept |
| Bookmarks.Delete | app/src/main/java/com/example/orangenews/ArticleDao.kt:25-31 | the row with the record's URL goes, other rows unchanged; an absent URL leaves the table as it was |
| Bookmarks.DeleteUndoesInsert | app/src/main/java/com/example/orangenews/ArticleDao.kt:16-31 | deleting by the URL just inserted as new gives back the original table |
| Bookmarks.UpsertReplacesWholeRow | app/src/main/java/com/example/orangenews/ArticleDao.kt:16-23 | re-inserting a stored URL keeps the keys and leaves no trace of the old row |
| Bookmarks.ArticleDao.constructor | app/src/main/java/com/example/orangenews/ArticleDao.kt:14-15 | a new table is empty and satisfies the primary-key invariant |
| Bookmarks.ArticleDao.InsertArticle | app/src/main/java/com/example/orangenews/ArticleDao.kt:16-23 | the table becomes Upsert of the old one; the invariant is kept |
| Bookmarks.ArticleDao.DeleteArticle | app/src/main/java/com/example/orangenews/ArticleDao.kt:25-31 | the table becomes Delete of the old one; the invariant is kept |
| Bookmarks.ArticleDao.GetAllBookmarkedArticles | app/src/main/java/com/example/orangenews/ArticleDao.kt:33-40 | every stored row exactly once and nothing else, with distinct URLs and no fixed order |
| Bookmarks.ObservedMatchesTable | app/src/main/java/com/example/orangenews/HomePage.kt:91-92 | in an observed list a URL occurs exactly when the table stores it |
| HomePage.IsBookmarked | app/src/main/java/com/example/orangenews/HomePage.kt:92 | true exactly when some listed row has the article's URL |
| HomePage.ObserveBookmarked | app/src/main/java/com/example/orangenews/HomePage.kt:91-92 | the card's bookmarked state equals "the table holds the URL" |
| HomePage.CacheOf | app/src/main/java/com/example/orangenews/HomePage.kt:94 | the controller's summary map, or the empty map when the card has no controller |
| HomePage.ShownSummary | app/src/main/java/com/example/orangenews/HomePage.kt:94-95 | on the bookmark screen the description; elsewhere the cache entry for the URL, absent when uncached |
| HomePage.SummarySourceText | app/src/main/java/com/example/orangenews/HomePage.kt:106 | content if present, else description, else title |
| HomePage.ShouldGenerateOnDemand | app/src/main/java/com/example/orangenews/HomePage.kt:102 | a card asks only when expanded, with no summary shown and a controller present, and never on the bookmark screen |
| HomePage.OnDemandExactlyWhenUncached | app/src/main/java/com/example/orangenews/HomePage.kt:102 | with a controller, the effect fires exactly when expanded, off the bookmark screen and uncached, and then the request reaches the provider |
| HomePage.FrozenSummary | app/src/main/java/com/example/orangenews/HomePage.kt:222-224 | the shown summary if any; else a blocking summary when a controller exists; else null |
| HomePage.FreezeSummary | app/src/main/java/com/example/orangenews/HomePage.kt:222-224 | the blocking generator is called only when no summary is shown and a controller exists |
| HomePage.BuildEntity | app/src/main/java/com/example/orangenews/HomePage.kt:226-234 | url, title, description, image, publishedAt and source name copied; the summary is the frozen one |
| HomePage.Toggled | app/src/main/java/com/example/orangenews/HomePage.kt:236-240 | the URL's membership flips; an inserted row is the new entity; other rows unchanged; the primary-key invariant is kept |
| HomePage.ToggleTwiceRestores | app/src/main/java/com/example/orangenews/HomePage.kt:236-240 | two toggles on an unbookmarked URL give back the original table |
| HomePage.PressBookmark | app/src/main/java/com/example/orangenews/HomePage.kt:220-241 | freezes the summary (calling the provider only when none is shown), builds the row, and toggles it in the table |
| HomePage.PressBookmarkTwice | app/src/main/java/com/example/orangenews/HomePage.kt:220-241 | two presses on an unbookmarked card leave the table as it was |
| HomePage.ExpandCard | app/src/main/java/com/example/orangenews/HomePage.kt:101-110 | when the trigger holds the cache gains the card's summary and the request is sent; otherwise nothing changes |
| HomePage.CategoryButtonTopic | app/src/main/java/com/example/orangenews/HomePage.kt:269-309 | each of the seven buttons requests its intended topic (General to world, UK news to nation, the rest to themselves) |
| HomePage.ClickCategory | app/src/main/java/com/example/orangenews/HomePage.kt:306-313 | a button fetches the topic of its lower-cased label, which equals the label's own topic |
| HomePage.SubmitSearch | app/src/main/java/com/example/orangenews/HomePage.kt:285-289 | a search starts only for a non-empty query; an empty query changes nothing |
| BookmarkScreen.ToDisplayArticle | app/src/main/java/com/example/orangenews/BookmarkScreen.kt:56-68 | description is the saved summary, else the stored description; url, title, publishedAt copied; image from imageUrl; content null; source URL "" |
| BookmarkScreen.DisplayArticles | app/src/main/java/com/example/orangenews/BookmarkScreen.kt:54-68 | one displayed article per stored row, in the observed order |
| BookmarkScreen.ScreenContent | app/src/main/java/com/example/orangenews/BookmarkScreen.kt:45-79 | the placeholder exactly for an empty list, the converted rows otherwise |
| BookmarkScreen.ShowBookmarks | app/src/main/java/com/example/orangenews/BookmarkScreen.kt:26-81 | placeholder exactly when the table is empty; otherwise every row shown once |
| BookmarkScreen.SavedThenDisplayed | app/src/main/java/com/example/orangenews/BookmarkScreen.kt:56-68 | a saved article is displayed with its frozen summary (or original description), same url, title, image, date and source name, no content |
| BookmarkScreen.BookmarkCardSummary | app/src/main/java/com/example/orangenews/BookmarkScreen.kt:71-76 | a bookmark card shows the saved summary or description and never triggers generation |
| Scenarios.BookmarkFirstScienceArticle | app/src/main/java/com/example/orangenews/HomePage.kt:220-241 | fetch "science", bookmark the first article: the table holds exactly the row built from that article with the summary generated for it; press again: the table is empty |

## Left out

- Compose rendering, theming, navigation, the WebView page and the loading spinner flag (`isLoading`) are not modelled.
- `formatDate` is left out: it depends on `SimpleDateFormat`, the locale and the time zone.
- `shareArticle` is left out: it only starts an Android share intent.
- The HTTP clients are not modelled: each provider call is an `Outcome` input, the API key is not part of a request, and `OpenAIRequest.temperature` (a floating-point constant) is left out of the request record.
- Coroutines are not modelled: every operation runs to completion in sequence, so the check-then-write race on the summary map is out of scope.
- Room's reactive `Flow` is modelled as reading the current table; storage failures on insert or delete are not modelled.
- `ArticleRepository`, `BookmarkViewModel` and `ViewModelFactory` only forward to the DAO, so the model calls the table directly.
- The preference store is reduced to its stored value, an input to `LoadDefaultCategory`; `setDefaultCategory` is left out.
- Log calls are left out.
- Text.Lower: only the ASCII letters are mapped; the other Unicode case mappings of Kotlin's `lowercase()` are not modelled. A non-ASCII label can therefore lower-case to a table key in Kotlin but not in the model: KELVIN SIGN (U+212A) becomes `k`, so "U\u212A news" is "uk news" in Kotlin. The chosen topic still agrees for that label only because "uk news" maps to the fallback "nation"; the model does not promise agreement for non-ASCII labels in general.
- Feed.NewsViewModel.GenerateSummaryForUrl: the provider reply is an input even when no call is made; it is then ignored, and the returned `call` says whether a call happened.
- `GNewsArticle.title` is non-null as declared, so in the model the feed never meets the "No Title" branch; JSON decoding that bypasses Kotlin's null checks is not modelled.
- `GNewsResponse.totalArticles` is carried but unused, as in the source; its 32-bit width is not modelled.
