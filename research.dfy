/** `run_research` of deep_research/main.py: the research loop behind the streaming
    endpoint. The planner's reply fixes a loop count in [1, 6]; each iteration generates
    one query per language track, keeps at most two search hits per track, scrapes them,
    keeps only the usable scrapes, summarises them in one batch and splits the batch back
    into the two tracks by position; finally the summaries are cited and synthesised into
    one report. Every external call is a field of `Services`; the progress events the
    generator yields are the `events` output, and the calls made to `ask` are logged in
    `calls`. */
module Research {
  import opened Wrappers
  import opened Strings
  import opened Llm

  const PlanningStage := "Planning research strategy..."
  const GeneratingStage := "Generating search queries..."
  const SearchingStage := "Searching and scraping sources..."
  const SummarizingStage := "Summarizing scraped content..."
  const NothingStage := "No new content to summarize for this loop."
  const ComposingStage := "Composing final research paper..."
  const FollowUpQuery := "Write a follow-up query."
  const FollowUpSummary := "Write a summary."
  const FailedScrapeMarker := "Failed to scrape content"
  const MissingUrl := "No URL available"
  const NoInformation := "No relevant information could be found or summarized for your query. Please try a different query."
  const ThinkOpen := "<think>"
  const ThinkClose := "</think>"

  /** At most this many search hits per track are scraped in one iteration. */
  const UrlsPerTrack: nat := 2
  const MinLoops: int := 1
  const MaxLoops: int := 6

  /** One message the generator yields. */
  datatype Event = Progress(stage: string, detail: string) | Final(content: string)

  /** The opaque collaborators: the generative call, Python's `int()` on the planner reply
      (`None` where it raises `ValueError`), the two search adapters and the scraper. */
  datatype Services = Services(
    ask: Call -> string,
    parseInt: string -> Option<int>,
    tavilySearch: string -> seq<string>,
    googleSearch: string -> seq<string>,
    urlScrape: string -> string)

  /** The four accumulator lists of one language track. */
  datatype Track = Track(queries: seq<string>, urls: seq<string>, scrapes: seq<string>, summaries: seq<string>)

  // ---------------------------------------------------------------------------
  // Planner

  /** Loop count from the parsed planner reply: 1 when it is not an integer, otherwise
      the integer clamped into [1, 6]. */
  function LoopCount(parsed: Option<int>): (n: int)
    ensures MinLoops <= n <= MaxLoops
    ensures parsed.None? ==> n == 1
    ensures parsed.Some? && MinLoops <= parsed.value <= MaxLoops ==> n == parsed.value
    ensures parsed.Some? && parsed.value < MinLoops ==> n == MinLoops
    ensures parsed.Some? && parsed.value > MaxLoops ==> n == MaxLoops
  {
    var n := if parsed.Some? then parsed.value else 1;
    if !(MinLoops <= n <= MaxLoops) then
      var capped := if n < MaxLoops then n else MaxLoops;
      if capped > MinLoops then capped else MinLoops
    else n
  }

  // ---------------------------------------------------------------------------
  // Event texts

  function DeterminedStage(n: nat): string {
    "Determined " + NatToString(n) + " research loops."
  }

  /** `f"{i+1}/{number_of_loops}"` for the iteration with index i. */
  function Fraction(i: nat, n: nat): string {
    NatToString(i + 1) + "/" + NatToString(n)
  }

  function FoundDetail(found: nat): string {
    "Found " + NatToString(found) + " new sources."
  }

  /** The events of the iteration with index i of n that accepted `found` scrapes. */
  function IterationEvents(i: nat, n: nat, found: nat): (events: seq<Event>)
    ensures |events| == if found == 0 then 4 else 3
  {
    [Progress(GeneratingStage, Fraction(i, n)),
     Progress(SearchingStage, Fraction(i, n)),
     Progress(SummarizingStage, FoundDetail(found))]
    + (if found == 0 then [Progress(NothingStage, "")] else [])
  }

  // ---------------------------------------------------------------------------
  // Good/bad partition of the scraped hits

  /** The test at deep_research/main.py:79: a non-empty scrape that is not a failure
      message. */
  predicate IsGood(scrape: string) {
    |scrape| > 0 && !StartsWith(scrape, FailedScrapeMarker)
  }

  /** `results[:2]` */
  function Candidates(results: seq<string>): (r: seq<string>)
    ensures |r| <= UrlsPerTrack && |r| <= |results| && r == results[..|r|]
    ensures |results| <= UrlsPerTrack ==> r == results
  {
    if |results| > UrlsPerTrack then results[..UrlsPerTrack] else results
  }

  /** The URLs whose scrape is good, in their original order; every one of them has a
      good scrape. */
  function Accepted(urls: seq<string>, urlScrape: string -> string): (good: seq<string>)
    ensures |good| <= |urls|
    ensures forall k :: 0 <= k < |good| ==> IsGood(urlScrape(good[k]))
    decreases |urls|
  {
    if |urls| == 0 then []
    else
      var last := urls[|urls| - 1];
      Accepted(urls[..|urls| - 1], urlScrape) + (if IsGood(urlScrape(last)) then [last] else [])
  }

  /** The URLs whose scrape is empty or a failure message, in their original order; every
      one of them has a bad scrape. */
  function Rejected(urls: seq<string>, urlScrape: string -> string): (bad: seq<string>)
    ensures |bad| <= |urls|
    ensures forall k :: 0 <= k < |bad| ==> !IsGood(urlScrape(bad[k]))
    decreases |urls|
  {
    if |urls| == 0 then []
    else
      var last := urls[|urls| - 1];
      Rejected(urls[..|urls| - 1], urlScrape) + (if IsGood(urlScrape(last)) then [] else [last])
  }

  /** A considered URL is accepted exactly when its scrape is good, and rejected exactly
      when it is not. */
  lemma {:induction false} PartitionMembers(urls: seq<string>, urlScrape: string -> string, u: string)
    ensures u in Accepted(urls, urlScrape) <==> u in urls && IsGood(urlScrape(u))
    ensures u in Rejected(urls, urlScrape) <==> u in urls && !IsGood(urlScrape(u))
    decreases |urls|
  {
    if |urls| > 0 {
      var init := urls[..|urls| - 1];
      PartitionMembers(init, urlScrape, u);
      assert urls == init + [urls[|urls| - 1]];
    }
  }

  function ScrapesOf(urls: seq<string>, urlScrape: string -> string): (scrapes: seq<string>)
  {
    seq(|urls|, k requires 0 <= k < |urls| => urlScrape(urls[k]))
  }

  /** Every considered URL lands in exactly one of the two lists: together they are the
      considered URLs, each as often as it was considered, and (by the contracts of
      `Accepted` and `Rejected`) the good ones are those with a good scrape. */
  lemma {:induction false} PartitionExact(urls: seq<string>, urlScrape: string -> string)
    ensures multiset(Accepted(urls, urlScrape)) + multiset(Rejected(urls, urlScrape)) == multiset(urls)
    ensures |Accepted(urls, urlScrape)| + |Rejected(urls, urlScrape)| == |urls|
    decreases |urls|
  {
    if |urls| > 0 {
      var init, last := urls[..|urls| - 1], urls[|urls| - 1];
      PartitionExact(init, urlScrape);
      var good, bad := Accepted(init, urlScrape), Rejected(init, urlScrape);
      assert urls == init + [last];
      assert multiset(urls) == multiset(init) + multiset{last};
      if IsGood(urlScrape(last)) {
        assert Accepted(urls, urlScrape) == good + [last];
        assert multiset(good + [last]) == multiset(good) + multiset{last};
      } else {
        assert Rejected(urls, urlScrape) == bad + [last];
        assert multiset(bad + [last]) == multiset(bad) + multiset{last};
      }
    }
  }

  /** The two append loops of deep_research/main.py:75-95 for one track. */
  method PartitionScrapes(urls: seq<string>, urlScrape: string -> string)
    returns (goodUrls: seq<string>, goodScrapes: seq<string>, badUrls: seq<string>, badScrapes: seq<string>)
    ensures goodUrls == Accepted(urls, urlScrape) && goodScrapes == ScrapesOf(goodUrls, urlScrape)
    ensures badUrls == Rejected(urls, urlScrape) && badScrapes == ScrapesOf(badUrls, urlScrape)
  {
    goodUrls, goodScrapes, badUrls, badScrapes := [], [], [], [];
    for k := 0 to |urls|
      invariant goodUrls == Accepted(urls[..k], urlScrape) && goodScrapes == ScrapesOf(goodUrls, urlScrape)
      invariant badUrls == Rejected(urls[..k], urlScrape) && badScrapes == ScrapesOf(badUrls, urlScrape)
    {
      assert urls[..k + 1][..k] == urls[..k];
      var url := urls[k];
      var scrape := urlScrape(url);
      if |scrape| > 0 && !StartsWith(scrape, FailedScrapeMarker) {
        goodUrls := goodUrls + [url];
        goodScrapes := goodScrapes + [scrape];
      } else {
        badUrls := badUrls + [url];
        badScrapes := badScrapes + [scrape];
      }
    }
    assert urls[..|urls|] == urls;
  }

  // ---------------------------------------------------------------------------
  // Calls

  function QueryCall(lang: Lang, t: Track, user: string): Call {
    Call(QueriesPrompt(lang, t.queries, t.summaries), user)
  }

  function SummaryCalls(lang: Lang, scrapes: seq<string>, user: string): (calls: seq<Call>)
  {
    seq(|scrapes|, k requires 0 <= k < |scrapes| => Call(SummarizePrompt(lang, scrapes[k]), user))
  }

  // ---------------------------------------------------------------------------
  // Synthesis

  function Citation(urls: seq<string>, k: nat): string {
    if k < |urls| then urls[k] else MissingUrl
  }

  function SourceBlock(url: string, summary: string): string {
    "Source: [" + url + "]\nSummary: " + summary
  }

  /** One cited block per summary of the track, in order. */
  function SourceBlocks(t: Track): (blocks: seq<string>)
  {
    seq(|t.summaries|, k requires 0 <= k < |t.summaries| => SourceBlock(Citation(t.urls, k), t.summaries[k]))
  }

  function SynthesisCall(sources: seq<string>, originalQuery: string): Call {
    Call(SynthesizerPrompt("Sources:\n" + Join(sources, "\n\n")), originalQuery)
  }

  /** The two loops of deep_research/main.py:122-129: English blocks, then Arabic ones. */
  method AssembleSources(en: Track, ar: Track) returns (sources: seq<string>)
    ensures |sources| == |en.summaries| + |ar.summaries|
    ensures forall k :: 0 <= k < |en.summaries| ==>
              sources[k] == SourceBlock(Citation(en.urls, k), en.summaries[k])
    ensures forall k :: 0 <= k < |ar.summaries| ==>
              sources[|en.summaries| + k] == SourceBlock(Citation(ar.urls, k), ar.summaries[k])
  {
    sources := [];
    for k := 0 to |en.summaries|
      invariant |sources| == k
      invariant forall j :: 0 <= j < k ==> sources[j] == SourceBlock(Citation(en.urls, j), en.summaries[j])
    {
      var citation := if k < |en.urls| then en.urls[k] else MissingUrl;
      sources := sources + ["Source: [" + citation + "]\nSummary: " + en.summaries[k]];
    }
    for k := 0 to |ar.summaries|
      invariant |sources| == |en.summaries| + k
      invariant forall j :: 0 <= j < |en.summaries| ==> sources[j] == SourceBlock(Citation(en.urls, j), en.summaries[j])
      invariant forall j :: 0 <= j < k ==> sources[|en.summaries| + j] == SourceBlock(Citation(ar.urls, j), ar.summaries[j])
    {
      var citation := if k < |ar.urls| then ar.urls[k] else MissingUrl;
      sources := sources + ["Source: [" + citation + "]\nSummary: " + ar.summaries[k]];
    }
  }

  /** Where the reasoning block at the head of s ends, if one opens there and closes. */
  function BlockEnd(s: string): (r: Option<nat>)
    ensures r.Some? ==> |ThinkOpen| + |ThinkClose| <= r.value <= |s|
  {
    if StartsWith(s, ThinkOpen) then
      match Find(s[|ThinkOpen|..], ThinkClose)
      case Some(i) => Some(|ThinkOpen| + i + |ThinkClose|)
      case None => None
    else None
  }

  /** The reply with its reasoning blocks removed, scanning left to right: wherever a
      `<think>` opens and a `</think>` follows it, everything from the opening tag through
      the first closing tag after it is dropped (a non-greedy, dot-matches-newline regular
      expression replaced by nothing). */
  function RemoveThink(s: string): (r: string)
    ensures |r| <= |s|
    decreases |s|
  {
    if |s| == 0 then ""
    else if s[0] == '<' && BlockEnd(s).Some? then RemoveThink(s[BlockEnd(s).value..])
    else [s[0]] + RemoveThink(s[1..])
  }

  /** A character other than '<' at the head is copied and the rest is processed. */
  lemma PlainCharKept(pre: string, rest: string)
    requires |pre| > 0 && pre[0] != '<'
    ensures RemoveThink(pre + rest) == [pre[0]] + RemoveThink(pre[1..] + rest)
  {
    var s := pre + rest;
    assert s[1..] == pre[1..] + rest;
  }

  /** Text without '<' cannot open a reasoning block, so it is copied unchanged. */
  lemma {:induction false} PlainPrefixKept(pre: string, rest: string)
    requires '<' !in pre
    ensures RemoveThink(pre + rest) == pre + RemoveThink(rest)
    decreases |pre|
  {
    if |pre| > 0 {
      PlainCharKept(pre, rest);
      PlainPrefixKept(pre[1..], rest);
      assert [pre[0]] + (pre[1..] + RemoveThink(rest)) == pre + RemoveThink(rest);
    } else {
      assert pre + rest == rest;
    }
  }

  /** A reply without `<think>` goes through the substitution untouched. */
  lemma {:induction false} NoThinkUntouched(s: string)
    requires Find(s, ThinkOpen).None?
    ensures RemoveThink(s) == s
    decreases |s|
  {
    if |s| > 0 {
      assert !StartsWith(s, ThinkOpen);
      assert Find(s[1..], ThinkOpen).None?;
      NoThinkUntouched(s[1..]);
    }
  }

  lemma {:induction false} FindCloseAfter(body: string, rest: string)
    requires '<' !in body && StartsWith(rest, ThinkClose)
    ensures Find(body + rest, ThinkClose) == Some(|body|)
    decreases |body|
  {
    if |body| > 0 {
      var s := body + rest;
      assert s[0] == body[0];
      assert s[..|ThinkClose|] != ThinkClose by { assert ThinkClose[0] == '<'; }
      assert s[1..] == body[1..] + rest;
      FindCloseAfter(body[1..], rest);
    } else {
      assert body + rest == rest;
    }
  }

  /** A reasoning block at the head of the reply is dropped. */
  lemma ThinkBlockAtStart(body: string, post: string)
    requires '<' !in body
    ensures RemoveThink(ThinkOpen + body + ThinkClose + post) == RemoveThink(post)
  {
    var s := ThinkOpen + body + ThinkClose + post;
    assert s[|ThinkOpen|..] == body + (ThinkClose + post);
    FindCloseAfter(body, ThinkClose + post);
    assert BlockEnd(s) == Some(|ThinkOpen| + |body| + |ThinkClose|);
    assert s[|ThinkOpen| + |body| + |ThinkClose|..] == post;
  }

  /** A reasoning block whose text holds no '<', preceded by text with no '<', is
      removed together with its delimiters and nothing else is. */
  lemma ThinkBlockDropped(pre: string, body: string, post: string)
    requires '<' !in pre && '<' !in body
    ensures RemoveThink(pre + ThinkOpen + body + ThinkClose + post) == pre + RemoveThink(post)
  {
    var rest := ThinkOpen + body + ThinkClose + post;
    Regroup(pre, body, post);
    PlainPrefixKept(pre, rest);
    ThinkBlockAtStart(body, post);
  }

  lemma Regroup(pre: string, body: string, post: string)
    ensures pre + ThinkOpen + body + ThinkClose + post == pre + (ThinkOpen + body + ThinkClose + post)
  {
  }
  /** What the final event carries when there are sources: the reply without reasoning
      blocks and without surrounding whitespace. */
  function CleanSynthesis(reply: string): string {
    Strip(RemoveThink(reply))
  }

  /** The synthesis step: no call at all without sources, otherwise exactly one call
      whose reply, cleaned, is the report. */
  method Synthesize(sources: seq<string>, originalQuery: string, ask: Call -> string)
    returns (content: string, calls: seq<Call>)
    ensures |sources| == 0 ==> content == NoInformation && calls == []
    ensures |sources| > 0 ==>
              && calls == [SynthesisCall(sources, originalQuery)]
              && content == CleanSynthesis(ask(calls[0]))
  {
    if |sources| == 0 {
      content := NoInformation;
      calls := [];
    } else {
      var call := Call(SynthesizerPrompt("Sources:\n" + Join(sources, "\n\n")), originalQuery);
      var synthesis := ask(call);
      calls := [call];
      content := Strip(RemoveThink(synthesis));
    }
  }

  // ---------------------------------------------------------------------------
  // The loop

  /** The URLs one track has accumulated after the iterations that issued `queries`. */
  function AcceptedAll(queries: seq<string>, search: string -> seq<string>, urlScrape: string -> string): seq<string>
    decreases |queries|
  {
    if |queries| == 0 then []
    else
      AcceptedAll(queries[..|queries| - 1], search, urlScrape)
      + Accepted(Candidates(search(queries[|queries| - 1])), urlScrape)
  }

  lemma {:induction false} AcceptedAllGrows(queries: seq<string>, i: nat, search: string -> seq<string>, urlScrape: string -> string)
    requires i <= |queries|
    ensures |AcceptedAll(queries[..i], search, urlScrape)| <= |AcceptedAll(queries, search, urlScrape)|
    decreases |queries|
  {
    if i < |queries| {
      var init := queries[..|queries| - 1];
      assert queries[..i] == init[..i];
      AcceptedAllGrows(init, i, search, urlScrape);
    } else {
      assert queries[..i] == queries;
    }
  }

  /** Number of scrapes accepted, over both tracks, in the iteration that issued these
      two queries. */
  function FoundAt(svc: Services, enQuery: string, arQuery: string): nat {
    |Accepted(Candidates(svc.tavilySearch(enQuery)), svc.urlScrape)|
    + |Accepted(Candidates(svc.googleSearch(arQuery)), svc.urlScrape)|
  }

  /** The events of the iterations, out of n, that accepted these numbers of scrapes. */
  function LoopEvents(founds: seq<nat>, n: nat): seq<Event>
    decreases |founds|
  {
    if |founds| == 0 then []
    else LoopEvents(founds[..|founds| - 1], n) + IterationEvents(|founds| - 1, n, founds[|founds| - 1])
  }

  /** Number of iterations that had nothing to summarise. */
  function Skipped(founds: seq<nat>): nat
    decreases |founds|
  {
    if |founds| == 0 then 0
    else Skipped(founds[..|founds| - 1]) + (if founds[|founds| - 1] == 0 then 1 else 0)
  }

  /** The number of scrapes accepted over all iterations. */
  function Total(founds: seq<nat>): nat
    decreases |founds|
  {
    if |founds| == 0 then 0 else Total(founds[..|founds| - 1]) + founds[|founds| - 1]
  }

  /** The loop emits three progress events per iteration plus one per skipped
      iteration, and nothing but progress events. */
  lemma {:induction false} LoopEventsShape(founds: seq<nat>, n: nat)
    ensures |LoopEvents(founds, n)| == 3 * |founds| + Skipped(founds)
    ensures forall k :: 0 <= k < |LoopEvents(founds, n)| ==> LoopEvents(founds, n)[k].Progress?
    decreases |founds|
  {
    if |founds| > 0 {
      LoopEventsShape(founds[..|founds| - 1], n);
    }
  }

  /** One summary of `scrape` in track `lang`: the user turn is the original query in the
      first batch and the fixed instruction afterwards. */
  predicate Summarizes(ask: Call -> string, lang: Lang, summary: string, scrape: string, originalQuery: string) {
    || summary == ask(Call(SummarizePrompt(lang, scrape), originalQuery))
    || summary == ask(Call(SummarizePrompt(lang, scrape), FollowUpSummary))
  }

  /** The alignment of one track's lists: one scrape and one summary per URL, each scrape
      the good scrape of the URL at the same index, each summary a summary of it. */
  predicate Aligned(t: Track, lang: Lang, svc: Services, originalQuery: string) {
    && |t.urls| == |t.scrapes| == |t.summaries|
    && (forall k :: 0 <= k < |t.urls| ==> t.scrapes[k] == svc.urlScrape(t.urls[k]) && IsGood(t.scrapes[k]))
    && (forall k :: 0 <= k < |t.summaries| ==> Summarizes(svc.ask, lang, t.summaries[k], t.scrapes[k], originalQuery))
  }

  /** Query i of the track was generated from the queries before it and the summaries
      present at that time, with the original query as user turn only the first time. */
  predicate FollowsHistory(t: Track, lang: Lang, search: string -> seq<string>, svc: Services, originalQuery: string) {
    forall i :: 0 <= i < |t.queries| ==> QueryFollows(t, i, lang, search, svc, originalQuery)
  }

  predicate QueryFollows(t: Track, i: nat, lang: Lang, search: string -> seq<string>, svc: Services, originalQuery: string)
    requires i < |t.queries|
  {
    var seen := |AcceptedAll(t.queries[..i], search, svc.urlScrape)|;
    && seen <= |t.summaries|
    && t.queries[i] == svc.ask(Call(QueriesPrompt(lang, t.queries[..i], t.summaries[..seen]),
                                    if i == 0 then originalQuery else FollowUpQuery))
  }

  lemma ExtendKeepsAligned(t: Track, t': Track, lang: Lang, svc: Services, originalQuery: string,
                           good: seq<string>, user: string)
    requires Aligned(t, lang, svc, originalQuery)
    requires forall k :: 0 <= k < |good| ==> IsGood(svc.urlScrape(good[k]))
    requires user == originalQuery || user == FollowUpSummary
    requires t'.urls == t.urls + good && t'.scrapes == t.scrapes + ScrapesOf(good, svc.urlScrape)
    requires t'.summaries == t.summaries + Gather(svc.ask, SummaryCalls(lang, ScrapesOf(good, svc.urlScrape), user))
    ensures Aligned(t', lang, svc, originalQuery)
  {
    var m := |t.urls|;
    forall k | 0 <= k < |t'.summaries|
      ensures Summarizes(svc.ask, lang, t'.summaries[k], t'.scrapes[k], originalQuery)
    {
      if k >= m {
        assert t'.scrapes[k] == svc.urlScrape(good[k - m]);
      }
    }
  }

  lemma ExtendKeepsHistory(t: Track, t': Track, lang: Lang, search: string -> seq<string>, svc: Services,
                           originalQuery: string, query: string, more: seq<string>)
    requires FollowsHistory(t, lang, search, svc, originalQuery)
    requires t.urls == AcceptedAll(t.queries, search, svc.urlScrape) && |t.urls| == |t.summaries|
    requires query == svc.ask(Call(QueriesPrompt(lang, t.queries, t.summaries),
                                   if |t.queries| == 0 then originalQuery else FollowUpQuery))
    requires t'.queries == t.queries + [query] && t'.summaries == t.summaries + more
    ensures FollowsHistory(t', lang, search, svc, originalQuery)
  {
    forall i | 0 <= i < |t'.queries|
      ensures QueryFollows(t', i, lang, search, svc, originalQuery)
    {
      ExtendKeepsQuery(t, t', i, lang, search, svc, originalQuery, query, more);
    }
  }

  lemma ExtendKeepsQuery(t: Track, t': Track, i: nat, lang: Lang, search: string -> seq<string>, svc: Services,
                         originalQuery: string, query: string, more: seq<string>)
    requires FollowsHistory(t, lang, search, svc, originalQuery)
    requires t.urls == AcceptedAll(t.queries, search, svc.urlScrape) && |t.urls| == |t.summaries|
    requires query == svc.ask(Call(QueriesPrompt(lang, t.queries, t.summaries),
                                   if |t.queries| == 0 then originalQuery else FollowUpQuery))
    requires t'.queries == t.queries + [query] && t'.summaries == t.summaries + more
    requires i < |t'.queries|
    ensures QueryFollows(t', i, lang, search, svc, originalQuery)
  {
    assert t'.queries[..i] == t.queries[..i];
    AcceptedAllGrows(t.queries, i, search, svc.urlScrape);
    var seen := |AcceptedAll(t.queries[..i], search, svc.urlScrape)|;
    assert t'.summaries[..seen] == t.summaries[..seen];
    if i == |t.queries| {
      assert t.queries[..i] == t.queries;
      assert t.summaries[..seen] == t.summaries;
    } else {
      assert QueryFollows(t, i, lang, search, svc, originalQuery);
    }
  }

  /** What holds of one track's lists between iterations: its URLs are those accepted
      for its queries so far, aligned with its scrapes and summaries, and each query was
      generated from the history before it. */
  predicate TrackState(t: Track, lang: Lang, search: string -> seq<string>, svc: Services, originalQuery: string) {
    && t.urls == AcceptedAll(t.queries, search, svc.urlScrape)
    && Aligned(t, lang, svc, originalQuery)
    && FollowsHistory(t, lang, search, svc, originalQuery)
  }

  /** The user turn of the query calls in the iteration with index i. */
  function QueryUser(i: nat, originalQuery: string): string {
    if i == 0 then originalQuery else FollowUpQuery
  }

  lemma ExtendKeepsState(t: Track, t': Track, lang: Lang, search: string -> seq<string>, svc: Services,
                         originalQuery: string, query: string, user: string)
    requires TrackState(t, lang, search, svc, originalQuery)
    requires query == svc.ask(QueryCall(lang, t, QueryUser(|t.queries|, originalQuery)))
    requires user == originalQuery || user == FollowUpSummary
    requires var good := Accepted(Candidates(search(query)), svc.urlScrape);
             && t'.queries == t.queries + [query]
             && t'.urls == t.urls + good
             && t'.scrapes == t.scrapes + ScrapesOf(good, svc.urlScrape)
             && t'.summaries == t.summaries + Gather(svc.ask, SummaryCalls(lang, ScrapesOf(good, svc.urlScrape), user))
    ensures TrackState(t', lang, search, svc, originalQuery)
  {
    var good := Accepted(Candidates(search(query)), svc.urlScrape);
    assert t'.queries[..|t'.queries| - 1] == t.queries;
    ExtendKeepsAligned(t, t', lang, svc, originalQuery, good, user);
    ExtendKeepsHistory(t, t', lang, search, svc, originalQuery, query,
                       Gather(svc.ask, SummaryCalls(lang, ScrapesOf(good, svc.urlScrape), user)));
  }

  /** The loop's variables between iterations: the two tracks, the user turn of the
      next summary batch, the number of scrapes each iteration accepted, and the calls
      made to `ask` so far. */
  datatype LoopState = LoopState(en: Track, ar: Track, summaryUser: string, founds: seq<nat>, calls: seq<Call>)

  function Initial(originalQuery: string): LoopState {
    LoopState(Track([], [], [], []), Track([], [], [], []), originalQuery, [], [])
  }

  /** What one iteration of deep_research/main.py:52-118 does to the loop's variables:
      two query calls, the search and scrape of each new query, and one summary batch
      (empty when nothing was accepted, which also leaves the summary user turn as it
      was). Everything the loop has accumulated is kept, one count is appended, and the
      iteration makes two calls plus one per accepted scrape. */
  function Step(svc: Services, originalQuery: string, s: LoopState): (r: LoopState)
    ensures |r.founds| == |s.founds| + 1 && r.founds[..|s.founds|] == s.founds
    ensures |r.calls| == |s.calls| + 2 + r.founds[|s.founds|] && r.calls[..|s.calls|] == s.calls
    ensures |r.en.queries| == |s.en.queries| + 1 && r.en.queries[..|s.en.queries|] == s.en.queries
    ensures |r.ar.queries| == |s.ar.queries| + 1 && r.ar.queries[..|s.ar.queries|] == s.ar.queries
  {
    var queryUser := QueryUser(|s.en.queries|, originalQuery);
    var queryCalls := [QueryCall(English, s.en, queryUser), QueryCall(Arabic, s.ar, queryUser)];
    var qEn := svc.ask(queryCalls[0]);
    var qAr := svc.ask(queryCalls[1]);
    var goodEn := Accepted(Candidates(svc.tavilySearch(qEn)), svc.urlScrape);
    var goodAr := Accepted(Candidates(svc.googleSearch(qAr)), svc.urlScrape);
    var enScrapes := ScrapesOf(goodEn, svc.urlScrape);
    var arScrapes := ScrapesOf(goodAr, svc.urlScrape);
    var enCalls := SummaryCalls(English, enScrapes, s.summaryUser);
    var arCalls := SummaryCalls(Arabic, arScrapes, s.summaryUser);
    LoopState(
      Track(s.en.queries + [qEn], s.en.urls + goodEn, s.en.scrapes + enScrapes, s.en.summaries + Gather(svc.ask, enCalls)),
      Track(s.ar.queries + [qAr], s.ar.urls + goodAr, s.ar.scrapes + arScrapes, s.ar.summaries + Gather(svc.ask, arCalls)),
      if |goodEn| + |goodAr| == 0 then s.summaryUser else FollowUpSummary,
      s.founds + [|goodEn| + |goodAr|],
      s.calls + queryCalls + enCalls + arCalls)
  }

  /** The first half of an iteration (deep_research/main.py:56-100): the two query calls
      and the search and scrape of each new query; summaries are not touched yet.
      `Searched` and `Summarized` are proof aids: they specify the methods `SearchPhase`
      and `SummaryPhase`, and `StepInHalves` shows that together they are `Step`, which
      stays the one definition of an iteration that the invariant lemmas are about. */
  function Searched(svc: Services, originalQuery: string, s: LoopState): (m: LoopState)
    ensures |s.en.scrapes| <= |m.en.scrapes| && |s.ar.scrapes| <= |m.ar.scrapes|
  {
    var queryUser := QueryUser(|s.en.queries|, originalQuery);
    var queryCalls := [QueryCall(English, s.en, queryUser), QueryCall(Arabic, s.ar, queryUser)];
    var qEn := svc.ask(queryCalls[0]);
    var qAr := svc.ask(queryCalls[1]);
    var goodEn := Accepted(Candidates(svc.tavilySearch(qEn)), svc.urlScrape);
    var goodAr := Accepted(Candidates(svc.googleSearch(qAr)), svc.urlScrape);
    LoopState(
      Track(s.en.queries + [qEn], s.en.urls + goodEn, s.en.scrapes + ScrapesOf(goodEn, svc.urlScrape), s.en.summaries),
      Track(s.ar.queries + [qAr], s.ar.urls + goodAr, s.ar.scrapes + ScrapesOf(goodAr, svc.urlScrape), s.ar.summaries),
      s.summaryUser,
      s.founds + [|goodEn| + |goodAr|],
      s.calls + queryCalls)
  }

  /** The second half of an iteration (deep_research/main.py:102-118): one summary batch
      over the new scrapes of both tracks, skipped when there are none. */
  function Summarized(svc: Services, m: LoopState, enScrapes: seq<string>, arScrapes: seq<string>): LoopState {
    var enCalls := SummaryCalls(English, enScrapes, m.summaryUser);
    var arCalls := SummaryCalls(Arabic, arScrapes, m.summaryUser);
    LoopState(
      m.en.(summaries := m.en.summaries + Gather(svc.ask, enCalls)),
      m.ar.(summaries := m.ar.summaries + Gather(svc.ask, arCalls)),
      if |enScrapes| + |arScrapes| == 0 then m.summaryUser else FollowUpSummary,
      m.founds,
      m.calls + enCalls + arCalls)
  }

  /** An iteration is its two halves, the second taking the scrapes the first added. */
  lemma StepInHalves(svc: Services, originalQuery: string, s: LoopState)
    ensures var m := Searched(svc, originalQuery, s);
            Step(svc, originalQuery, s)
            == Summarized(svc, m, m.en.scrapes[|s.en.scrapes|..], m.ar.scrapes[|s.ar.scrapes|..])
  {
    var m := Searched(svc, originalQuery, s);
    var queryUser := QueryUser(|s.en.queries|, originalQuery);
    var qEn := svc.ask(QueryCall(English, s.en, queryUser));
    var qAr := svc.ask(QueryCall(Arabic, s.ar, queryUser));
    var goodEn := Accepted(Candidates(svc.tavilySearch(qEn)), svc.urlScrape);
    var goodAr := Accepted(Candidates(svc.googleSearch(qAr)), svc.urlScrape);
    assert m.en.scrapes[|s.en.scrapes|..] == ScrapesOf(goodEn, svc.urlScrape);
    assert m.ar.scrapes[|s.ar.scrapes|..] == ScrapesOf(goodAr, svc.urlScrape);
  }

  /** One iteration adds one found count, two calls more than it accepted scrapes, and
      one summary per accepted scrape. */
  lemma StepTotals(svc: Services, originalQuery: string, p: LoopState)
    ensures var s := Step(svc, originalQuery, p);
            && |s.founds| == |p.founds| + 1
            && |s.calls| - 2 - Total(s.founds) == |p.calls| - Total(p.founds)
            && |s.en.summaries| + |s.ar.summaries| - Total(s.founds)
               == |p.en.summaries| + |p.ar.summaries| - Total(p.founds)
  {
    SkipWhenNothingFound(svc, originalQuery, p);
    CountsGrow(p, Step(svc, originalQuery, p));
  }

  /** The running totals after one more iteration, from what `Step` and
      `SkipWhenNothingFound` say about it. */
  lemma CountsGrow(p: LoopState, s: LoopState)
    requires |s.founds| == |p.founds| + 1 && s.founds[..|p.founds|] == p.founds
    requires var found := s.founds[|p.founds|];
             && |s.calls| == |p.calls| + 2 + found
             && |s.en.summaries| + |s.ar.summaries| == |p.en.summaries| + |p.ar.summaries| + found
    ensures Total(s.founds) == Total(p.founds) + s.founds[|p.founds|]
    ensures |s.calls| - 2 - Total(s.founds) == |p.calls| - Total(p.founds)
    ensures |s.en.summaries| + |s.ar.summaries| - Total(s.founds) == |p.en.summaries| + |p.ar.summaries| - Total(p.founds)
  {
  }

  /** What holds of the loop's variables between iterations: one query and one found
      count per iteration in each track; each track's lists keep `TrackState`; the
      summary user turn is the original query until the first summary exists and the
      fixed instruction afterwards; the found counts are those of the queries issued;
      and no synthesis call has been made. */
  predicate LoopInvariant(svc: Services, originalQuery: string, s: LoopState) {
    && |s.en.queries| == |s.ar.queries| == |s.founds|
    && TrackState(s.en, English, svc.tavilySearch, svc, originalQuery)
    && TrackState(s.ar, Arabic, svc.googleSearch, svc, originalQuery)
    && s.summaryUser == (if |s.en.summaries| + |s.ar.summaries| == 0 then originalQuery else FollowUpSummary)
    && (forall k :: 0 <= k < |s.founds| ==> s.founds[k] == FoundAt(svc, s.en.queries[k], s.ar.queries[k]))
    && NoSynthesis(s.calls)
  }

  predicate NoSynthesis(calls: seq<Call>) {
    forall k :: 0 <= k < |calls| ==> !calls[k].system.SynthesizerPrompt?
  }

  lemma StepMakesNoSynthesis(svc: Services, originalQuery: string, s: LoopState)
    requires NoSynthesis(s.calls)
    ensures NoSynthesis(Step(svc, originalQuery, s).calls)
  {
    var queryUser := QueryUser(|s.en.queries|, originalQuery);
    var queryCalls := [QueryCall(English, s.en, queryUser), QueryCall(Arabic, s.ar, queryUser)];
    var goodEn := Accepted(Candidates(svc.tavilySearch(svc.ask(queryCalls[0]))), svc.urlScrape);
    var goodAr := Accepted(Candidates(svc.googleSearch(svc.ask(queryCalls[1]))), svc.urlScrape);
    var enCalls := SummaryCalls(English, ScrapesOf(goodEn, svc.urlScrape), s.summaryUser);
    var arCalls := SummaryCalls(Arabic, ScrapesOf(goodAr, svc.urlScrape), s.summaryUser);
    assert NoSynthesis(queryCalls);
    assert NoSynthesis(enCalls) && NoSynthesis(arCalls);
    NoSynthesisAppend(s.calls, queryCalls);
    NoSynthesisAppend(s.calls + queryCalls, enCalls);
    NoSynthesisAppend(s.calls + queryCalls + enCalls, arCalls);
  }

  lemma NoSynthesisAppend(a: seq<Call>, b: seq<Call>)
    requires NoSynthesis(a) && NoSynthesis(b)
    ensures NoSynthesis(a + b)
  {
    forall k | 0 <= k < |a + b| ensures !(a + b)[k].system.SynthesizerPrompt? {
      if k >= |a| {
        assert (a + b)[k] == b[k - |a|];
      }
    }
  }

  lemma StepRecordsFound(svc: Services, originalQuery: string, s: LoopState)
    requires |s.en.queries| == |s.ar.queries| == |s.founds|
    requires forall k :: 0 <= k < |s.founds| ==> s.founds[k] == FoundAt(svc, s.en.queries[k], s.ar.queries[k])
    ensures var s' := Step(svc, originalQuery, s);
            && |s'.en.queries| == |s'.ar.queries| == |s'.founds|
            && forall k :: 0 <= k < |s'.founds| ==> s'.founds[k] == FoundAt(svc, s'.en.queries[k], s'.ar.queries[k])
  {
    var s' := Step(svc, originalQuery, s);
    forall k | 0 <= k < |s'.founds|
      ensures s'.founds[k] == FoundAt(svc, s'.en.queries[k], s'.ar.queries[k])
    {
      if k < |s.founds| {
        assert s'.founds[k] == s.founds[k];
        assert s'.en.queries[k] == s.en.queries[k] && s'.ar.queries[k] == s.ar.queries[k];
      }
    }
  }

  lemma StepSetsSummaryUser(svc: Services, originalQuery: string, s: LoopState)
    requires s.summaryUser == (if |s.en.summaries| + |s.ar.summaries| == 0 then originalQuery else FollowUpSummary)
    ensures var s' := Step(svc, originalQuery, s);
            s'.summaryUser == (if |s'.en.summaries| + |s'.ar.summaries| == 0 then originalQuery else FollowUpSummary)
  {
    var s' := Step(svc, originalQuery, s);
    var queryUser := QueryUser(|s.en.queries|, originalQuery);
    var qEn := svc.ask(QueryCall(English, s.en, queryUser));
    var qAr := svc.ask(QueryCall(Arabic, s.ar, queryUser));
    var goodEn := Accepted(Candidates(svc.tavilySearch(qEn)), svc.urlScrape);
    var goodAr := Accepted(Candidates(svc.googleSearch(qAr)), svc.urlScrape);
    assert |s'.en.summaries| == |s.en.summaries| + |goodEn|;
    assert |s'.ar.summaries| == |s.ar.summaries| + |goodAr|;
  }

  lemma StepKeepsTracks(svc: Services, originalQuery: string, s: LoopState)
    requires |s.en.queries| == |s.ar.queries|
    requires TrackState(s.en, English, svc.tavilySearch, svc, originalQuery)
    requires TrackState(s.ar, Arabic, svc.googleSearch, svc, originalQuery)
    requires s.summaryUser == originalQuery || s.summaryUser == FollowUpSummary
    ensures TrackState(Step(svc, originalQuery, s).en, English, svc.tavilySearch, svc, originalQuery)
    ensures TrackState(Step(svc, originalQuery, s).ar, Arabic, svc.googleSearch, svc, originalQuery)
  {
    var s' := Step(svc, originalQuery, s);
    var queryUser := QueryUser(|s.en.queries|, originalQuery);
    var qEn := svc.ask(QueryCall(English, s.en, queryUser));
    var qAr := svc.ask(QueryCall(Arabic, s.ar, queryUser));
    ExtendKeepsState(s.en, s'.en, English, svc.tavilySearch, svc, originalQuery, qEn, s.summaryUser);
    ExtendKeepsState(s.ar, s'.ar, Arabic, svc.googleSearch, svc, originalQuery, qAr, s.summaryUser);
  }

  /** Every iteration keeps the loop invariant. */
  lemma StepKeepsInvariant(svc: Services, originalQuery: string, s: LoopState)
    requires LoopInvariant(svc, originalQuery, s)
    ensures LoopInvariant(svc, originalQuery, Step(svc, originalQuery, s))
  {
    StepKeepsTracks(svc, originalQuery, s);
    StepSetsSummaryUser(svc, originalQuery, s);
    StepRecordsFound(svc, originalQuery, s);
    StepMakesNoSynthesis(svc, originalQuery, s);
  }

  /** An iteration that accepted nothing makes only its two query calls and leaves the
      summaries and the summary user turn as they were; one that accepted something makes
      one summary call and adds one summary per accepted scrape, and switches the summary
      user turn to the follow-up text. */
  lemma SkipWhenNothingFound(svc: Services, originalQuery: string, s: LoopState)
    ensures var s' := Step(svc, originalQuery, s);
            var found := s'.founds[|s'.founds| - 1];
            && |s'.calls| == |s.calls| + 2 + found
            && (found == 0 ==>
                  && s'.en.summaries == s.en.summaries && s'.ar.summaries == s.ar.summaries
                  && s'.summaryUser == s.summaryUser)
            && (found > 0 ==>
                  && s'.summaryUser == FollowUpSummary
                  && |s'.en.summaries| + |s'.ar.summaries| == |s.en.summaries| + |s.ar.summaries| + found)
  {
  }

  lemma LoopEventsAppend(opening: seq<Event>, founds: seq<nat>, found: nat, n: nat)
    ensures opening + LoopEvents(founds + [found], n)
            == opening + LoopEvents(founds, n) + IterationEvents(|founds|, n, found)
  {
    assert (founds + [found])[..|founds|] == founds;
  }

  /** One iteration of the `for` loop (deep_research/main.py:52-118): the loop's
      variables afterwards, and the events it yields. */
  method RunIteration(svc: Services, originalQuery: string, n: nat, s: LoopState)
    returns (s': LoopState, events: seq<Event>)
    ensures s' == Step(svc, originalQuery, s)
    ensures events == IterationEvents(|s.en.queries|, n, s'.founds[|s'.founds| - 1])
  {
    var i := |s.en.queries|;
    events := [Progress(GeneratingStage, Fraction(i, n)), Progress(SearchingStage, Fraction(i, n))];
    var m, enScrapes, arScrapes := SearchPhase(svc, originalQuery, s);
    var found := |enScrapes| + |arScrapes|;
    events := events + [Progress(SummarizingStage, FoundDetail(found))];
    if found == 0 {
      events := events + [Progress(NothingStage, "")];
    }
    s' := SummaryPhase(svc, m, enScrapes, arScrapes);
    StepInHalves(svc, originalQuery, s);
  }

  /** Query generation, search and scrape for both tracks. */
  method SearchPhase(svc: Services, originalQuery: string, s: LoopState)
    returns (m: LoopState, enScrapes: seq<string>, arScrapes: seq<string>)
    ensures m == Searched(svc, originalQuery, s)
    ensures enScrapes == m.en.scrapes[|s.en.scrapes|..] && arScrapes == m.ar.scrapes[|s.ar.scrapes|..]
    ensures m.founds[|m.founds| - 1] == |enScrapes| + |arScrapes|
  {
    var queryUser := QueryUser(|s.en.queries|, originalQuery);
    var queryCalls := [QueryCall(English, s.en, queryUser), QueryCall(Arabic, s.ar, queryUser)];
    var queries := Gather(svc.ask, queryCalls);
    assert queries[0] == svc.ask(queryCalls[0]) && queries[1] == svc.ask(queryCalls[1]);
    var en, ar;
    en, enScrapes := SearchTrack(s.en, queries[0], svc.tavilySearch, svc.urlScrape);
    ar, arScrapes := SearchTrack(s.ar, queries[1], svc.googleSearch, svc.urlScrape);
    var found: nat := |enScrapes| + |arScrapes|;
    m := LoopState(en, ar, s.summaryUser, s.founds + [found], s.calls + queryCalls);
    assert en.scrapes[|s.en.scrapes|..] == enScrapes;
    assert ar.scrapes[|s.ar.scrapes|..] == arScrapes;
  }

  /** The summary batch, or nothing when no scrape was accepted. */
  method SummaryPhase(svc: Services, m: LoopState, enScrapes: seq<string>, arScrapes: seq<string>)
    returns (s': LoopState)
    ensures s' == Summarized(svc, m, enScrapes, arScrapes)
  {
    var enCalls := SummaryCalls(English, enScrapes, m.summaryUser);
    var arCalls := SummaryCalls(Arabic, arScrapes, m.summaryUser);
    if |enScrapes| + |arScrapes| == 0 {
      assert enCalls == [] && arCalls == [];
      assert m.en.summaries == m.en.summaries + Gather(svc.ask, enCalls);
      assert m.ar.summaries == m.ar.summaries + Gather(svc.ask, arCalls);
      assert m.calls == m.calls + enCalls + arCalls;
      s' := m;
    } else {
      var en, ar, summarizeCalls := SummarizeBatch(m.en, m.ar, enScrapes, arScrapes, m.summaryUser, svc.ask);
      AppendAssoc(m.calls, enCalls, arCalls);
      s' := LoopState(en, ar, FollowUpSummary, m.founds, m.calls + summarizeCalls);
    }
  }

  /** deep_research/main.py:69-100 for one track: record the query, search it, keep the
      first two hits, and extend the URL and scrape lists with the good ones. */
  method SearchTrack(t: Track, query: string, search: string -> seq<string>, urlScrape: string -> string)
    returns (t': Track, goodScrapes: seq<string>)
    ensures var good := Accepted(Candidates(search(query)), urlScrape);
            && goodScrapes == ScrapesOf(good, urlScrape)
            && t' == Track(t.queries + [query], t.urls + good, t.scrapes + goodScrapes, t.summaries)
  {
    t' := t.(queries := t.queries + [query]);
    var newUrls := Candidates(search(t'.queries[|t'.queries| - 1]));
    var goodUrls, badUrls, badScrapes;
    goodUrls, goodScrapes, badUrls, badScrapes := PartitionScrapes(newUrls, urlScrape);
    t' := t'.(urls := t'.urls + goodUrls, scrapes := t'.scrapes + goodScrapes);
  }

  /** deep_research/main.py:104-118 when there is something to summarise: one batch of
      summary calls, English scrapes first, whose replies are split back by position. */
  method SummarizeBatch(en: Track, ar: Track, enScrapes: seq<string>, arScrapes: seq<string>,
                        user: string, ask: Call -> string)
    returns (en': Track, ar': Track, calls: seq<Call>)
    ensures calls == SummaryCalls(English, enScrapes, user) + SummaryCalls(Arabic, arScrapes, user)
    ensures forall k :: 0 <= k < |calls| ==> calls[k].system.SummarizePrompt?
    ensures en' == en.(summaries := en.summaries + Gather(ask, SummaryCalls(English, enScrapes, user)))
    ensures ar' == ar.(summaries := ar.summaries + Gather(ask, SummaryCalls(Arabic, arScrapes, user)))
  {
    var enCalls := SummaryCalls(English, enScrapes, user);
    var arCalls := SummaryCalls(Arabic, arScrapes, user);
    calls := enCalls + arCalls;
    var summaries := Gather(ask, calls);
    var enCount := |enScrapes|;
    GatherSplit(ask, enCalls, arCalls);
    en' := en.(summaries := en.summaries + summaries[..enCount]);
    ar' := ar.(summaries := ar.summaries + summaries[enCount..]);
  }

  /** The loop count `run_research` settles on for this query. */
  function PlannedLoops(originalQuery: string, svc: Services): (n: nat)
    ensures MinLoops <= n <= MaxLoops
  {
    LoopCount(svc.parseInt(svc.ask(Call(PlannerPrompt, originalQuery))))
  }

  /** All sources cited in the synthesis, English first. */
  function Sources(en: Track, ar: Track): seq<string> {
    SourceBlocks(en) + SourceBlocks(ar)
  }

  /** When every summary has its URL, which aligned tracks guarantee, the "No URL
      available" fallback never appears: source k cites the k-th URL of its track. */
  lemma CitationsComplete(en: Track, ar: Track)
    requires |en.urls| == |en.summaries| && |ar.urls| == |ar.summaries|
    ensures |Sources(en, ar)| == |en.summaries| + |ar.summaries|
    ensures forall k :: 0 <= k < |en.summaries| ==> Sources(en, ar)[k] == SourceBlock(en.urls[k], en.summaries[k])
    ensures forall k :: 0 <= k < |ar.summaries| ==>
              Sources(en, ar)[|en.summaries| + k] == SourceBlock(ar.urls[k], ar.summaries[k])
  {
  }

  /** deep_research/main.py:122-140: cite every summary and synthesise the report. */
  method Compose(en: Track, ar: Track, originalQuery: string, ask: Call -> string)
    returns (content: string, calls: seq<Call>)
    ensures |Sources(en, ar)| == 0 ==> content == NoInformation && calls == []
    ensures |Sources(en, ar)| > 0 ==>
              && calls == [SynthesisCall(Sources(en, ar), originalQuery)]
              && content == CleanSynthesis(ask(calls[0]))
  {
    var sources := AssembleSources(en, ar);
    assert sources == Sources(en, ar);
    content, calls := Synthesize(sources, originalQuery, ask);
  }

  /** `run_research(original_query)`: the events it yields, the calls it makes to `ask`,
      and the two tracks' lists when the loop is over; `founds` records, per iteration,
      how many scrapes it accepted. The events are the planning and loop-count events,
      the loop's events, the composing event and one final event carrying the report;
      the calls are the planner call, the loop's calls, none of which is a synthesis
      call, and, exactly when there is at least one source, the synthesis call. */
  method RunResearch(originalQuery: string, svc: Services)
    returns (events: seq<Event>, calls: seq<Call>, en: Track, ar: Track, ghost founds: seq<nat>)
    ensures var n := PlannedLoops(originalQuery, svc);
            && |en.queries| == n && |ar.queries| == n && |founds| == n
            && TrackState(en, English, svc.tavilySearch, svc, originalQuery)
            && TrackState(ar, Arabic, svc.googleSearch, svc, originalQuery)
            && (forall k :: 0 <= k < n ==> founds[k] == FoundAt(svc, en.queries[k], ar.queries[k]))
    ensures var n := PlannedLoops(originalQuery, svc);
            var sources := Sources(en, ar);
            events == [Progress(PlanningStage, ""), Progress(DeterminedStage(n), "")]
                      + LoopEvents(founds, n)
                      + [Progress(ComposingStage, ""),
                         Final(if |sources| == 0 then NoInformation
                               else CleanSynthesis(svc.ask(SynthesisCall(sources, originalQuery))))]
    ensures |calls| >= 1 && calls[0] == Call(PlannerPrompt, originalQuery)
    ensures |en.summaries| + |ar.summaries| == Total(founds)
    ensures |calls| == 1 + 2 * PlannedLoops(originalQuery, svc) + Total(founds)
                       + (if |Sources(en, ar)| > 0 then 1 else 0)
    ensures var sources := Sources(en, ar);
            && (|sources| == 0 ==> NoSynthesis(calls))
            && (|sources| > 0 ==>
                  && calls[|calls| - 1] == SynthesisCall(sources, originalQuery)
                  && NoSynthesis(calls[..|calls| - 1]))
  {
    var plannerCall := Call(PlannerPrompt, originalQuery);
    var reply := svc.ask(plannerCall);
    var n := LoopCount(svc.parseInt(reply));
    events := [Progress(PlanningStage, ""), Progress(DeterminedStage(n), "")];

    var state;
    state, events := RunLoop(svc, originalQuery, n, events);
    en, ar, founds := state.en, state.ar, state.founds;
    ClosingCalls(plannerCall, state.calls, Sources(en, ar), originalQuery);
    events, calls := Close(en, ar, originalQuery, svc.ask, events, [plannerCall] + state.calls);
  }

  /** The end of the session (deep_research/main.py:120-142): the composing event, the
      synthesis when there are sources, and the final event. */
  method Close(en: Track, ar: Track, originalQuery: string, ask: Call -> string,
               events: seq<Event>, calls: seq<Call>)
    returns (events': seq<Event>, calls': seq<Call>)
    ensures var sources := Sources(en, ar);
            events' == events + [Progress(ComposingStage, ""),
                                 Final(if |sources| == 0 then NoInformation
                                       else CleanSynthesis(ask(SynthesisCall(sources, originalQuery))))]
    ensures var sources := Sources(en, ar);
            calls' == calls + (if |sources| == 0 then [] else [SynthesisCall(sources, originalQuery)])
  {
    events' := events + [Progress(ComposingStage, "")];
    var content, synthesisCalls := Compose(en, ar, originalQuery, ask);
    calls' := calls + synthesisCalls;
    events' := events' + [Final(content)];
  }

  /** The `for` loop of deep_research/main.py:52-118, run n times from the empty
      tracks, its events following those already yielded. */
  method RunLoop(svc: Services, originalQuery: string, n: nat, opening: seq<Event>)
    returns (state: LoopState, events: seq<Event>)
    ensures LoopInvariant(svc, originalQuery, state) && |state.founds| == n
    ensures |state.calls| == 2 * n + Total(state.founds)
    ensures |state.en.summaries| + |state.ar.summaries| == Total(state.founds)
    ensures events == opening + LoopEvents(state.founds, n)
  {
    state, events := Initial(originalQuery), opening;
    for i := 0 to n
      invariant LoopInvariant(svc, originalQuery, state) && |state.founds| == i
      invariant |state.calls| == 2 * i + Total(state.founds)
      invariant |state.en.summaries| + |state.ar.summaries| == Total(state.founds)
      invariant events == opening + LoopEvents(state.founds, n)
    {
      StepTotals(svc, originalQuery, state);
      state, events := Advance(svc, originalQuery, n, state, opening, events);
    }
  }

  /** One pass of the loop: `RunIteration` together with the invariant it keeps and
      the events it adds to the session's stream. */
  method Advance(svc: Services, originalQuery: string, n: nat, s: LoopState,
                 ghost opening: seq<Event>, events: seq<Event>)
    returns (s': LoopState, events': seq<Event>)
    requires LoopInvariant(svc, originalQuery, s)
    requires events == opening + LoopEvents(s.founds, n)
    ensures s' == Step(svc, originalQuery, s)
    ensures LoopInvariant(svc, originalQuery, s') && |s'.founds| == |s.founds| + 1
    ensures events' == opening + LoopEvents(s'.founds, n)
  {
    StepKeepsInvariant(svc, originalQuery, s);
    var iterationEvents;
    s', iterationEvents := RunIteration(svc, originalQuery, n, s);
    assert s'.founds == s.founds + [s'.founds[|s.founds|]];
    LoopEventsAppend(opening, s.founds, s'.founds[|s.founds|], n);
    events' := events + iterationEvents;
  }

  /** The calls of a whole session: the planner call first, no synthesis call during
      the loop, and the synthesis call last exactly when there are sources. */
  lemma ClosingCalls(plannerCall: Call, loopCalls: seq<Call>, sources: seq<string>, originalQuery: string)
    requires plannerCall.system.PlannerPrompt?
    requires NoSynthesis(loopCalls)
    ensures var synthesisCalls := if |sources| == 0 then [] else [SynthesisCall(sources, originalQuery)];
            var calls := [plannerCall] + loopCalls + synthesisCalls;
            && |calls| >= 1 && calls[0] == plannerCall
            && (|sources| == 0 ==> NoSynthesis(calls))
            && (|sources| > 0 ==>
                  && calls[|calls| - 1] == SynthesisCall(sources, originalQuery)
                  && NoSynthesis(calls[..|calls| - 1]))
  {
    var synthesisCalls := if |sources| == 0 then [] else [SynthesisCall(sources, originalQuery)];
    var calls := [plannerCall] + loopCalls + synthesisCalls;
    NoSynthesisAppend([plannerCall], loopCalls);
    if |sources| > 0 {
      assert calls[..|calls| - 1] == [plannerCall] + loopCalls;
    } else {
      assert calls == [plannerCall] + loopCalls;
    }
  }

  /** The session's event stream: every event but the last is a progress event and the
      last is the final one; there are three progress events per loop plus one per loop
      with nothing to summarise, around the two opening and the one closing event. */
  lemma SessionEvents(founds: seq<nat>, n: nat, head: seq<Event>, content: string)
    requires head == [Progress(PlanningStage, ""), Progress(DeterminedStage(n), "")]
    ensures var events := head + LoopEvents(founds, n) + [Progress(ComposingStage, ""), Final(content)];
            && |events| == 4 + 3 * |founds| + Skipped(founds)
            && events[|events| - 1] == Final(content)
            && forall k :: 0 <= k < |events| - 1 ==> events[k].Progress?
  {
    LoopEventsShape(founds, n);
    var events := head + LoopEvents(founds, n) + [Progress(ComposingStage, ""), Final(content)];
    forall k | 0 <= k < |events| - 1 ensures events[k].Progress? {
      if k >= 2 && k < 2 + |LoopEvents(founds, n)| {
        assert events[k] == LoopEvents(founds, n)[k - 2];
      }
    }
  }
}
