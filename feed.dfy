/**
 * The article-feed controller (`NewsViewModel`): the current article list, the
 * write-once summary cache keyed by article URL, and the rules that pick the
 * provider request and turn provider replies into state.
 */
module Feed {
  import opened Wrappers
  import opened Text
  import opened NewsTypes
  import opened Headline

  /** Country and language sent with every headline request. */
  const Country := "gb"
  const Language := "en"

  /** The category table: lower-cased label to provider topic code. */
  const TopicTable: map<string, string> := map[
    "general" := "world",
    "uk news" := "nation",
    "business" := "business",
    "sports" := "sports",
    "entertainment" := "entertainment",
    "technology" := "technology",
    "science" := "science"]

  /** Topic code used for a label that is not in the table. */
  const FallbackTopic := "nation"

  /** The `when` table on an already lower-cased label. */
  function TopicOfKey(key: string): (topic: string)
    ensures key in TopicTable ==> topic == TopicTable[key]
    ensures key !in TopicTable ==> topic == FallbackTopic
  {
    if key == "general" then "world"
    else if key == "uk news" then "nation"
    else if key == "business" then "business"
    else if key == "sports" then "sports"
    else if key == "entertainment" then "entertainment"
    else if key == "technology" then "technology"
    else if key == "science" then "science"
    else "nation"
  }

  /** Topic code for a category label: table lookup on the lower-cased label, unknown labels give "nation". */
  function TopicFor(category: string): (topic: string)
    ensures Lower(category) in TopicTable ==> topic == TopicTable[Lower(category)]
    ensures Lower(category) !in TopicTable ==> topic == FallbackTopic
    ensures topic in TopicTable.Values
  {
    assert TopicTable["uk news"] == FallbackTopic;
    TopicOfKey(Lower(category))
  }

  /** The lookup ignores case: a label and its lower-cased form choose the same topic. */
  lemma TopicIgnoresCase(category: string)
    ensures TopicFor(Lower(category)) == TopicFor(category)
  {
    LowerIdempotent(category);
  }

  /** A label outside the table, whatever its case, falls back to "nation". */
  lemma UnknownCategoryExample(category: string)
    requires category == "unknown-category"
    ensures TopicFor(category) == FallbackTopic
  {
    LowerIs(category, "unknown-category");
  }

  /** A feed entry built from a provider article. */
  function ToArticle(g: GNewsArticle): (a: Article)
    ensures !HasSeparator(a.title) && IsTrimmed(a.title)
    ensures a.description == None
    ensures a.content == g.content && a.url == g.url && a.image == g.image
    ensures a.publishedAt == g.publishedAt && a.source == Source(g.source.name, g.source.url)
  {
    Article(
      title := CleanHeadline(Some(g.title)),
      description := None,
      content := g.content,
      url := g.url,
      image := g.image,
      publishedAt := g.publishedAt,
      source := Source(g.source.name, g.source.url))
  }

  /** The provider's article list mapped, in order, to feed entries. */
  function ToArticles(gs: seq<GNewsArticle>): (r: seq<Article>)
    ensures |r| == |gs|
    ensures forall i :: 0 <= i < |gs| ==> r[i] == ToArticle(gs[i])
  {
    if gs == [] then [] else [ToArticle(gs[0])] + ToArticles(gs[1..])
  }

  /** Every headline in a freshly mapped feed is already clean: cleaning it again changes nothing. */
  lemma FeedTitlesAreClean(gs: seq<GNewsArticle>, i: nat)
    requires i < |gs|
    ensures CleanHeadline(Some(ToArticles(gs)[i].title)) == ToArticles(gs)[i].title
    ensures ToArticles(gs)[i].title == CleanHeadline(Some(gs[i].title))
  {
    CleanIdempotent(Some(gs[i].title));
  }

  /** The fixed answer stored when no summary can be obtained. */
  const SummaryFallback := "Summary not available"

  /** The instruction put in front of the article text in the user message. */
  const SummaryPrompt := "Summarize this article in 3\U{2013}5 short sentences. If unable, say 'Summary not available':\n"

  /**
   * The chat request asking for a summary of `content`: "gpt-4", a fixed system
   * message, then a user message that is the prompt followed by the whole text.
   */
  function SummaryRequest(content: string): (r: OpenAIRequest)
    ensures r.model == "gpt-4" && |r.messages| == 2
    ensures r.messages[0] == Message("system", Some("You are a helpful assistant."))
    ensures r.messages[1].role == "user" && r.messages[1].content.Some?
    ensures |r.messages[1].content.value| == |SummaryPrompt| + |content|
    ensures r.messages[1].content.value[..|SummaryPrompt|] == SummaryPrompt
    ensures r.messages[1].content.value[|SummaryPrompt|..] == content
  {
    OpenAIRequest(
      "gpt-4",
      [ Message("system", Some("You are a helpful assistant.")),
        Message("user", Some(SummaryPrompt + content))])
  }

  /** The reply carries a first candidate with a non-null message and non-null content. */
  predicate HasFirstContent(reply: Outcome<OpenAIResponse>) {
    && reply.Success?
    && |reply.body.choices| > 0
    && reply.body.choices[0].message.Some?
    && reply.body.choices[0].message.value.content.Some?
  }

  /**
   * The summary taken from a provider reply: the first candidate's text, or the
   * fallback on failure, no candidate, a null message or null content.
   */
  function SummaryText(reply: Outcome<OpenAIResponse>): (s: string)
    ensures HasFirstContent(reply) ==> s == reply.body.choices[0].message.value.content.value
    ensures !HasFirstContent(reply) ==> s == SummaryFallback
  {
    match reply
    case Failure => SummaryFallback
    case Success(response) =>
      if response.choices == [] then SummaryFallback
      else match response.choices[0].message
        case None => SummaryFallback
        case Some(m) => m.content.GetOr(SummaryFallback)
  }

  /** The request `generateSummaryForUrl` sends: none when the URL is already cached. */
  function SummaryCall(cache: map<string, string>, url: string, content: string): (call: Option<OpenAIRequest>)
    ensures call.None? <==> url in cache
    ensures call.Some? ==> call.value == SummaryRequest(content)
  {
    if url in cache then None else Some(SummaryRequest(content))
  }

  /** The summary cache after `generateSummaryForUrl(url, _)` with the given provider reply. */
  function CacheAfter(cache: map<string, string>, url: string, reply: Outcome<OpenAIResponse>): (c: map<string, string>)
    ensures c.Keys == cache.Keys + {url}
    ensures forall u :: u in cache ==> c[u] == cache[u]
    ensures url !in cache ==> c[url] == SummaryText(reply)
  {
    if url in cache then cache else cache[url := SummaryText(reply)]
  }

  /**
   * The cache is write-once: after one request for a URL, a second one issues no
   * provider call, whatever its text, and leaves the cache as the first left it.
   */
  lemma {:induction false} SummaryMemoised(cache: map<string, string>, url: string, first: Outcome<OpenAIResponse>,
                                           second: Outcome<OpenAIResponse>, content: string)
    ensures SummaryCall(CacheAfter(cache, url, first), url, content) == None
    ensures CacheAfter(CacheAfter(cache, url, first), url, second) == CacheAfter(cache, url, first)
    ensures url !in cache ==> CacheAfter(cache, url, first)[url] == SummaryText(first)
  {
  }

  /** A failed summary request caches the fallback, and a later request does not retry. */
  lemma FailureIsCached(cache: map<string, string>, url: string, later: Outcome<OpenAIResponse>)
    requires url !in cache
    ensures CacheAfter(cache, url, Failure)[url] == SummaryFallback
    ensures CacheAfter(CacheAfter(cache, url, Failure), url, later)[url] == SummaryFallback
  {
  }

  /** The category stored in the preferences, with "general" when none is stored. */
  function DefaultCategory(stored: Option<string>): (category: string)
    ensures stored.Some? ==> category == stored.value
    ensures stored.None? ==> category == "general"
  {
    stored.GetOr("general")
  }

  /** `NewsViewModel`: the displayed articles and the URL-keyed summary cache. */
  class NewsViewModel {
    var articles: seq<Article>
    var summaries: map<string, string>

    /** A new controller starts with an empty cache and fetches the "general" headlines. */
    constructor (initialReply: Outcome<GNewsResponse>)
      ensures summaries == map[]
      ensures initialReply.Success? ==> articles == ToArticles(initialReply.body.articles)
      ensures initialReply.Failure? ==> articles == []
    {
      articles := [];
      summaries := map[];
      new;
      var _ := FetchTopHeadlinesByCategory("general", initialReply);
    }

    /**
     * Asks for the headlines of a category's topic; a successful reply replaces
     * the whole list, a failed one leaves it untouched.
     */
    method FetchTopHeadlinesByCategory(category: string, reply: Outcome<GNewsResponse>)
      returns (request: HeadlineRequest)
      modifies this
      ensures request == TopHeadlines(TopicFor(category), Country, Language)
      ensures reply.Success? ==> articles == ToArticles(reply.body.articles)
      ensures reply.Failure? ==> articles == old(articles)
      ensures summaries == old(summaries)
    {
      var topic := TopicFor(category);
      request := TopHeadlines(topic, Country, Language);
      match reply {
        case Success(response) => articles := ToArticles(response.articles);
        case Failure =>
      }
    }

    /** Fetches the headlines of the category stored in the preferences. */
    method LoadDefaultCategory(stored: Option<string>, reply: Outcome<GNewsResponse>)
      returns (request: HeadlineRequest)
      modifies this
      ensures request == TopHeadlines(TopicFor(DefaultCategory(stored)), Country, Language)
      ensures reply.Success? ==> articles == ToArticles(reply.body.articles)
      ensures reply.Failure? ==> articles == old(articles)
      ensures summaries == old(summaries)
    {
      request := FetchTopHeadlinesByCategory(DefaultCategory(stored), reply);
    }

    /** Searches for `query` with " UK" appended; same replace-or-keep rule as a category fetch. */
    method FetchEverythingWithQuery(query: string, reply: Outcome<GNewsResponse>)
      returns (request: HeadlineRequest)
      modifies this
      ensures request == SearchNews(query + " UK", Country, Language)
      ensures reply.Success? ==> articles == ToArticles(reply.body.articles)
      ensures reply.Failure? ==> articles == old(articles)
      ensures summaries == old(summaries)
    {
      request := SearchNews(query + " UK", Country, Language);
      match reply {
        case Success(response) => articles := ToArticles(response.articles);
        case Failure =>
      }
    }

    /**
     * Generates and caches a summary for `url` unless one is cached: `call` is the
     * provider request made (None when the URL was cached, and `reply` is then unused).
     */
    method GenerateSummaryForUrl(url: string, content: string, reply: Outcome<OpenAIResponse>)
      returns (call: Option<OpenAIRequest>)
      modifies this
      ensures call == SummaryCall(old(summaries), url, content)
      ensures summaries == CacheAfter(old(summaries), url, reply)
      ensures articles == old(articles)
    {
      if url in summaries {
        return None;
      }
      call := Some(SummaryRequest(content));
      var summary := SummaryText(reply);
      summaries := summaries[url := summary];
    }

    /** The blocking variant: the same request and the same reply rule, without the cache. */
    method GenerateSummaryBlocking(content: string, reply: Outcome<OpenAIResponse>)
      returns (summary: string, call: OpenAIRequest)
      ensures call == SummaryRequest(content)
      ensures HasFirstContent(reply) ==> summary == reply.body.choices[0].message.value.content.value
      ensures !HasFirstContent(reply) ==> summary == SummaryFallback
    {
      call := SummaryRequest(content);
      summary := SummaryText(reply);
    }
  }

  /** Two requests for the same URL in a row make at most one provider call and agree on the cached text. */
  method SummaryRequestedTwice(vm: NewsViewModel, url: string, content1: string, content2: string,
                               reply1: Outcome<OpenAIResponse>, reply2: Outcome<OpenAIResponse>)
    returns (call1: Option<OpenAIRequest>, call2: Option<OpenAIRequest>, first: string, second: string)
    modifies vm
    ensures call2 == None
    ensures url in vm.summaries && first == second == vm.summaries[url]
    ensures url !in old(vm.summaries) ==> call1.Some? && first == SummaryText(reply1)
  {
    call1 := vm.GenerateSummaryForUrl(url, content1, reply1);
    first := vm.summaries[url];
    call2 := vm.GenerateSummaryForUrl(url, content2, reply2);
    second := vm.summaries[url];
  }
}
