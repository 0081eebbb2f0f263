/** The earlier retrieval adapter (the repository's top-level tools.py). Its `url_scrape`
    is the same code as the later one and is modelled by `Scrape.UrlScrape`; its
    `tavily_search` is a single list comprehension with no URL shortening. */
module EarlyTools {
  import opened Search

  const FailurePrefix := "Search failed: "

  /** `tavily_search(query)` of the earlier revision, given the client's reply. It returns
      the result URLs in order and unchanged, whatever their length; any failure is a
      one-element list holding the failure message. */
  function TavilySearch(reply: TavilyReply): (urls: seq<string>)
    ensures reply.TavilyResults? && AllPresent(reply.items) ==>
              |urls| == |reply.items| && forall k :: 0 <= k < |urls| ==> urls[k] == reply.items[k].value
    ensures reply.TavilyRaised? ==> urls == ["Search failed: " + reply.reason]
    ensures reply.TavilyResults? && !AllPresent(reply.items) ==> urls == [FailurePrefix + "'url'"]
  {
    match reply
    case TavilyRaised(reason) => [FailurePrefix + reason]
    case TavilyResults(items) =>
      if AllPresent(items) then Values(items) else [FailurePrefix + "'url'"]
  }

  /** The two revisions agree on a successful reply whose URLs are all at most 125
      characters long: the later revision's shortening is the only difference. */
  lemma RevisionsAgreeOnShortUrls(items: seq<Item>, shortener: string -> ShortenerReply)
    requires AllPresent(items)
    requires forall k :: 0 <= k < |items| ==> |items[k].value| <= UrlCharLimit
    ensures TavilySearch(TavilyResults(items)) == ShapedAll(items, shortener)
  {
    ShortUrlsUnchanged(items, shortener);
  }
}
