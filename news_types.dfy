/** The records exchanged between the providers, the feed, the bookmark table and the screens. */
module NewsTypes {
  import opened Wrappers

  /** Publisher of a displayed article. */
  datatype Source = Source(name: string, url: string)

  /** The UI-facing article; `url` is its identity. */
  datatype Article = Article(
    title: string,
    description: Option<string>,
    content: Option<string>,
    url: string,
    image: Option<string>,
    publishedAt: string,
    source: Source)

  /** Publisher as the headline provider reports it. */
  datatype GNewsSource = GNewsSource(name: string, url: string)

  /** One article as the headline provider reports it. */
  datatype GNewsArticle = GNewsArticle(
    title: string,
    description: Option<string>,
    content: Option<string>,
    url: string,
    image: Option<string>,
    publishedAt: string,
    source: GNewsSource)

  /** Body of a headline or search reply. */
  datatype GNewsResponse = GNewsResponse(totalArticles: int, articles: seq<GNewsArticle>)

  /** One row of the `bookmarked_articles` table; `url` is the primary key. */
  datatype ArticleEntity = ArticleEntity(
    url: string,
    title: string,
    description: Option<string>,
    imageUrl: Option<string>,
    publishedAt: string,
    sourceName: string,
    summary: Option<string>)

  /**
   * One chat message sent to, or received from, the summarisation provider.
   * The JSON decoder fills a missing or null `content` with null although the
   * field is declared non-null, so a received message may carry none.
   */
  datatype Message = Message(role: string, content: Option<string>)

  /** One candidate completion; likewise its `message` may be null after decoding. */
  datatype Choice = Choice(message: Option<Message>)

  /** Body of a chat-completion reply. */
  datatype OpenAIResponse = OpenAIResponse(choices: seq<Choice>)

  /** Body of a chat-completion request (the temperature is not modelled). */
  datatype OpenAIRequest = OpenAIRequest(model: string, messages: seq<Message>)

  /** Parameters of one call to the headline provider (the API key is left out). */
  datatype HeadlineRequest =
    | TopHeadlines(topic: string, country: string, language: string)
    | SearchNews(query: string, country: string, language: string)
}
