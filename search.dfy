/** The retrieval adapters of deep_research/tools.py: `tavily_search` (English track),
    `google_search` (Arabic track) and `shorten_url`. The search services and the is.gd
    shortener are opaque; their replies are values here, and the shortener is a function
    from the long URL to its reply. What is modelled is what the code does with those
    replies: the order of results, the 125-character shortening rule, and the failure
    strings returned in place of URLs. */
module Search {
  import opened Wrappers
  import opened Strings

  /** URLs strictly longer than this are sent to the shortener. */
  const UrlCharLimit: nat := 125

  const TavilyFailurePrefix := "Tavily search failed: "
  const GoogleFailurePrefix := "Google search failed: "
  const NoGoogleResults := "No results returned by Google."
  const ShortenerRequestPrefix := "Request to is.gd failed: "
  const ShortenerRefusedPrefix := "Failed to shorten URL. Reason: "
  const ShortenerUnparsable := "Failed to parse response from is.gd. The service might be down."

  /** What the is.gd call produced: a request exception (including a bad status), a body
      that is not JSON, or the decoded object with its optional `shorturl` and
      `errormessage` keys. */
  datatype ShortenerReply =
    | RequestFailed(reason: string)
    | Undecodable
    | Decoded(shorturl: Option<string>, errormessage: Option<string>)

  /** A search result item: its URL field, or `None` when the key is missing
      (the `item["url"]` / `item["link"]` lookup then raises `KeyError`). */
  type Item = Option<string>

  /** Tavily client outcome: an exception from the client call, or its result items. */
  datatype TavilyReply = TavilyRaised(reason: string) | TavilyResults(items: seq<Item>)

  /** Google Custom Search outcome: an exception from the request, the status check or
      the JSON decoding, or the decoded body with its optional `items` list. */
  datatype GoogleReply = GoogleRaised(reason: string) | GoogleData(items: Option<seq<Item>>)

  predicate AllPresent(items: seq<Item>) {
    forall k :: 0 <= k < |items| ==> items[k].Some?
  }

  /** The URLs of items that all have one, in order. */
  function Values(items: seq<Item>): (urls: seq<string>)
    requires AllPresent(items)
  {
    seq(|items|, k requires 0 <= k < |items| => items[k].value)
  }

  /** `shorten_url(long_url)`, given the reply of the is.gd call. */
  function ShortenUrl(reply: ShortenerReply): (r: string)
    ensures reply.Decoded? && reply.shorturl.Some? ==> r == reply.shorturl.value
    ensures reply.Decoded? && reply.shorturl.None? ==> StartsWith(r, ShortenerRefusedPrefix)
    ensures reply.Decoded? && reply.shorturl.None? && reply.errormessage.Some? ==>
              r == ShortenerRefusedPrefix + reply.errormessage.value
    ensures reply == Decoded(None, None) ==> r == ShortenerRefusedPrefix + "Unknown error"
    ensures reply.Undecodable? ==> r == ShortenerUnparsable
    ensures reply.RequestFailed? ==> StartsWith(r, ShortenerRequestPrefix)
    ensures reply.RequestFailed? ==> r == ShortenerRequestPrefix + reply.reason
  {
    match reply
    case RequestFailed(reason) => ShortenerRequestPrefix + reason
    case Undecodable => ShortenerUnparsable
    case Decoded(shorturl, errormessage) =>
      if shorturl.Some? then shorturl.value
      else ShortenerRefusedPrefix + errormessage.GetOr("Unknown error")
  }

  /** The URL a search adapter returns for one result URL. */
  function Shaped(url: string, shortener: string -> ShortenerReply): string {
    if |url| > UrlCharLimit then ShortenUrl(shortener(url)) else url
  }

  function ShapedAll(items: seq<Item>, shortener: string -> ShortenerReply): (urls: seq<string>)
    requires AllPresent(items)
  {
    seq(|items|, k requires 0 <= k < |items| => Shaped(items[k].value, shortener))
  }

  /** URLs of at most 125 characters pass through the adapter unchanged, so a reply whose
      URLs are all short comes back exactly as the service gave it. */
  lemma ShortUrlsUnchanged(items: seq<Item>, shortener: string -> ShortenerReply)
    requires AllPresent(items)
    requires forall k :: 0 <= k < |items| ==> |items[k].value| <= UrlCharLimit
    ensures ShapedAll(items, shortener) == Values(items)
  {
  }

  /** Shared loop of both adapters: shape every item's URL in order, stopping at the
      first item without one (the `KeyError`). */
  method ShapeItems(items: seq<Item>, shortener: string -> ShortenerReply)
    returns (urls: seq<string>, missing: bool)
    ensures missing <==> !AllPresent(items)
    ensures !missing ==> urls == ShapedAll(items, shortener)
  {
    urls := [];
    var k := 0;
    while k < |items|
      invariant 0 <= k <= |items|
      invariant forall j :: 0 <= j < k ==> items[j].Some?
      invariant |urls| == k
      invariant forall j :: 0 <= j < k ==> urls[j] == Shaped(items[j].value, shortener)
    {
      if items[k].None? {
        return urls, true;
      }
      var url := items[k].value;
      if |url| > UrlCharLimit {
        url := ShortenUrl(shortener(url));
      }
      assert url == Shaped(items[k].value, shortener);
      urls := urls + [url];
      k := k + 1;
    }
    missing := false;
  }

  /** `tavily_search(query)`, given the client's reply for that query. */
  method TavilySearch(reply: TavilyReply, shortener: string -> ShortenerReply)
    returns (urls: seq<string>)
    ensures reply.TavilyRaised? ==> urls == [TavilyFailurePrefix + reply.reason]
    ensures reply.TavilyResults? && !AllPresent(reply.items) ==> urls == [TavilyFailurePrefix + "'url'"]
    ensures reply.TavilyResults? && AllPresent(reply.items) ==>
              |urls| == |reply.items| && urls == ShapedAll(reply.items, shortener)
  {
    match reply
    case TavilyRaised(reason) =>
      urls := [TavilyFailurePrefix + reason];
    case TavilyResults(items) =>
      var missing;
      urls, missing := ShapeItems(items, shortener);
      if missing {
        urls := [TavilyFailurePrefix + "'url'"];
      }
  }

  /** `google_search(query)`, given the reply of the Custom Search request. It never
      returns an empty list. */
  method GoogleSearch(reply: GoogleReply, shortener: string -> ShortenerReply)
    returns (urls: seq<string>)
    ensures |urls| >= 1
    ensures reply.GoogleRaised? ==> urls == [GoogleFailurePrefix + reply.reason]
    ensures reply.GoogleData? ==>
              var items := reply.items.GetOr([]);
              && (!AllPresent(items) ==> urls == [GoogleFailurePrefix + "'link'"])
              && (AllPresent(items) && |items| == 0 ==> urls == [NoGoogleResults])
              && (AllPresent(items) && |items| > 0 ==> urls == ShapedAll(items, shortener))
  {
    match reply
    case GoogleRaised(reason) =>
      urls := [GoogleFailurePrefix + reason];
    case GoogleData(found) =>
      var missing;
      urls, missing := ShapeItems(found.GetOr([]), shortener);
      if missing {
        urls := [GoogleFailurePrefix + "'link'"];
      } else if |urls| == 0 {
        urls := [NoGoogleResults];
      }
  }
}
