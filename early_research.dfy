/** `main` of the repository's top-level main.py: the earlier research loop. The planner's
    reply is converted with `int()` and used unclamped as the loop count; every iteration
    takes exactly the first two search hits of each track, scrapes them, summarises all four
    scrapes in one batch and appends two URLs, two scrapes and two summaries per track. All
    calls use the original query as the user turn, and one synthesis call over the two
    summary lists ends the run, followed by the printed source listing. The lists share
    the shape of the later loop's `Research.Track`. */
module EarlyResearch {
  import opened Wrappers
  import opened Strings
  import opened Llm
  import opened Research

  /** The collaborators of the earlier loop: `ask`, `int()` on the planner reply (`None`
      where it raises `ValueError`), the earlier `tavily_search` (`EarlyTools.TavilySearch`
      of the client's reply) and the earlier `url_scrape`. */
  datatype Services = Services(
    ask: Call -> string,
    parseInt: string -> Option<int>,
    search: string -> seq<string>,
    urlScrape: string -> string)

  /** The exceptions that end the earlier loop early. */
  datatype Error = ValueError | IndexError

  /** How the run ends: an uncaught exception, or the synthesis and the printed listing. */
  datatype Outcome = Crashed(error: Error) | Finished(synthesis: string, listing: seq<string>)

  function EmptyTrack(): Track {
    Track([], [], [], [])
  }

  /** `range(n)` runs no iteration for a non-positive n. */
  function IterationCount(n: int): (k: nat)
    ensures n <= 0 ==> k == 0
    ensures n > 0 ==> k == n
  {
    if n < 0 then 0 else n
  }

  // ---------------------------------------------------------------------------
  // One iteration, per track

  /** The query the track's next iteration generates. */
  function QueryOf(svc: Services, originalQuery: string, lang: Lang, t: Track): string {
    svc.ask(Call(QueriesPrompt(lang, t.queries, t.summaries), originalQuery))
  }

  /** Indexing the first two search hits succeeds. */
  predicate Wide(results: seq<string>) {
    |results| >= 2
  }

  /** The summary of the page at `url`. */
  function SummaryOf(svc: Services, originalQuery: string, lang: Lang, url: string): string {
    svc.ask(Call(SummarizePrompt(lang, svc.urlScrape(url)), originalQuery))
  }

  /** The other index of the pair that index j belongs to. */
  function Partner(j: nat, pairs: nat): (r: nat)
    requires j < 2 * pairs
    ensures r < 2 * pairs
  {
    if j % 2 == 0 then j + 1 else j - 1
  }

  /** What one iteration means for a track whose search returned at least two hits: one
      more query, the two hits, their scrapes in reverse order, and their summaries in
      the order of the hits. The iteration only appends: the earlier history is kept. */
  function Widen(svc: Services, originalQuery: string, lang: Lang, t: Track): (r: Track)
    requires Wide(svc.search(QueryOf(svc, originalQuery, lang, t)))
    ensures |r.queries| == |t.queries| + 1 && r.queries[..|t.queries|] == t.queries
    ensures |r.urls| == |t.urls| + 2 && r.urls[..|t.urls|] == t.urls
    ensures |r.scrapes| == |t.scrapes| + 2 && r.scrapes[..|t.scrapes|] == t.scrapes
    ensures |r.summaries| == |t.summaries| + 2 && r.summaries[..|t.summaries|] == t.summaries
  {
    var query := QueryOf(svc, originalQuery, lang, t);
    var hits := svc.search(query);
    Track(t.queries + [query],
          t.urls + [hits[0], hits[1]],
          t.scrapes + [svc.urlScrape(hits[1]), svc.urlScrape(hits[0])],
          t.summaries + [SummaryOf(svc, originalQuery, lang, hits[0]), SummaryOf(svc, originalQuery, lang, hits[1])])
  }

  /** Query i of the track was generated from the queries and summaries before it, and
      URLs 2i and 2i+1 are the first two hits of its search. */
  predicate Issued(t: Track, i: nat, lang: Lang, svc: Services, originalQuery: string)
    requires i < |t.queries| && |t.urls| == |t.summaries| == 2 * |t.queries|
  {
    var hits := svc.search(t.queries[i]);
    && t.queries[i] == svc.ask(Call(QueriesPrompt(lang, t.queries[..i], t.summaries[..2 * i]), originalQuery))
    && Wide(hits)
    && t.urls[2 * i] == hits[0] && t.urls[2 * i + 1] == hits[1]
  }

  /** What holds of a track between iterations: two URLs, scrapes and summaries per query;
      each scrape is that of the other URL of its pair; each summary is that of the URL at
      the same index; and every query and URL pair came from the history before it. */
  predicate EarlyTrack(t: Track, lang: Lang, svc: Services, originalQuery: string) {
    && |t.urls| == |t.scrapes| == |t.summaries| == 2 * |t.queries|
    && (forall j :: 0 <= j < |t.urls| ==> t.scrapes[j] == svc.urlScrape(t.urls[Partner(j, |t.queries|)]))
    && (forall j :: 0 <= j < |t.urls| ==> t.summaries[j] == SummaryOf(svc, originalQuery, lang, t.urls[j]))
    && (forall i :: 0 <= i < |t.queries| ==> Issued(t, i, lang, svc, originalQuery))
  }

  /** An iteration keeps the track invariant: the reversed scrapes and the realigned
      summaries of the new pair fit the pattern of the earlier pairs. */
  lemma WidenKeeps(svc: Services, originalQuery: string, lang: Lang, t: Track)
    requires EarlyTrack(t, lang, svc, originalQuery)
    requires Wide(svc.search(QueryOf(svc, originalQuery, lang, t)))
    ensures EarlyTrack(Widen(svc, originalQuery, lang, t), lang, svc, originalQuery)
  {
    var t' := Widen(svc, originalQuery, lang, t);
    var m := |t.urls|;
    forall j | 0 <= j < |t'.urls|
      ensures t'.scrapes[j] == svc.urlScrape(t'.urls[Partner(j, |t'.queries|)])
    {
      if j < m {
        assert Partner(j, |t'.queries|) == Partner(j, |t.queries|);
      }
    }
    forall i | 0 <= i < |t'.queries|
      ensures Issued(t', i, lang, svc, originalQuery)
    {
      IssuedKept(svc, originalQuery, lang, t, i);
    }
  }

  lemma IssuedKept(svc: Services, originalQuery: string, lang: Lang, t: Track, i: nat)
    requires EarlyTrack(t, lang, svc, originalQuery)
    requires Wide(svc.search(QueryOf(svc, originalQuery, lang, t)))
    requires i <= |t.queries|
    ensures var t' := Widen(svc, originalQuery, lang, t);
            |t'.urls| == |t'.summaries| == 2 * |t'.queries| && Issued(t', i, lang, svc, originalQuery)
  {
    var t' := Widen(svc, originalQuery, lang, t);
    assert t'.queries[..i] == t.queries[..i];
    assert t'.summaries[..2 * i] == t.summaries[..2 * i];
    if i == |t.queries| {
      assert t.queries[..i] == t.queries;
      assert t.summaries[..2 * i] == t.summaries;
    } else {
      assert Issued(t, i, lang, svc, originalQuery);
    }
  }

  // ---------------------------------------------------------------------------
  // One iteration of main.py:47-120, both tracks together

  /** One pass of the `for _ in range(number_of_loops)` body. `ok` is false when indexing
      the first two hits of either search raises `IndexError`; otherwise both tracks grew
      by `Widen` and the six calls made all carry the original query. */
  method RunRound(svc: Services, originalQuery: string, en: Track, ar: Track)
    returns (ok: bool, en': Track, ar': Track, calls: seq<Call>)
    ensures ok <==> Wide(svc.search(QueryOf(svc, originalQuery, English, en)))
                    && Wide(svc.search(QueryOf(svc, originalQuery, Arabic, ar)))
    ensures ok ==> && en' == Widen(svc, originalQuery, English, en)
                   && ar' == Widen(svc, originalQuery, Arabic, ar)
    ensures |calls| == (if ok then 6 else 2)
    ensures forall k :: 0 <= k < |calls| ==> calls[k].user == originalQuery
  {
    var queryCalls := [Call(QueriesPrompt(English, en.queries, en.summaries), originalQuery),
                       Call(QueriesPrompt(Arabic, ar.queries, ar.summaries), originalQuery)];
    var queries := Gather(svc.ask, queryCalls);
    en' := en.(queries := en.queries + [queries[0]]);
    ar' := ar.(queries := ar.queries + [queries[1]]);

    var enHits := svc.search(en'.queries[|en'.queries| - 1]);
    var arHits := svc.search(ar'.queries[|ar'.queries| - 1]);
    if |enHits| < 2 || |arHits| < 2 {
      ok, calls := false, queryCalls;
      return;
    }
    ok := true;
    en' := en'.(urls := en'.urls + [enHits[0]] + [enHits[1]]);
    ar' := ar'.(urls := ar'.urls + [arHits[0]] + [arHits[1]]);

    en' := en'.(scrapes := en'.scrapes + [svc.urlScrape(en'.urls[|en'.urls| - 1])]);
    en' := en'.(scrapes := en'.scrapes + [svc.urlScrape(en'.urls[|en'.urls| - 2])]);
    ar' := ar'.(scrapes := ar'.scrapes + [svc.urlScrape(ar'.urls[|ar'.urls| - 1])]);
    ar' := ar'.(scrapes := ar'.scrapes + [svc.urlScrape(ar'.urls[|ar'.urls| - 2])]);

    var summarizeCalls := [
      Call(SummarizePrompt(English, en'.scrapes[|en'.scrapes| - 1]), originalQuery),
      Call(SummarizePrompt(English, en'.scrapes[|en'.scrapes| - 2]), originalQuery),
      Call(SummarizePrompt(Arabic, ar'.scrapes[|ar'.scrapes| - 1]), originalQuery),
      Call(SummarizePrompt(Arabic, ar'.scrapes[|ar'.scrapes| - 2]), originalQuery)];
    var summaries := Gather(svc.ask, summarizeCalls);
    var last := |summaries|;
    en' := en'.(summaries := en'.summaries + [summaries[last - 4]] + [summaries[last - 3]]);
    ar' := ar'.(summaries := ar'.summaries + [summaries[last - 2]] + [summaries[last - 1]]);
    calls := queryCalls + summarizeCalls;
  }

  // ---------------------------------------------------------------------------
  // The whole run

  /** The printed line for source number `counter`. */
  function SourceLine(counter: nat, url: string, summary: string): string {
    "Source " + NatToString(counter) + " - " + url + ": \n" + summary + "\n"
  }

  /** The listing zips the four lists: for each index up to the shortest list, the English
      source and then the Arabic one, numbered consecutively from 1. */
  predicate ListsSources(lines: seq<string>, enUrls: seq<string>, enSummaries: seq<string>,
                         arUrls: seq<string>, arSummaries: seq<string>)
  {
    var pairs := Min(Min(|enUrls|, |enSummaries|), Min(|arUrls|, |arSummaries|));
    && |lines| == 2 * pairs
    && forall j :: 0 <= j < pairs ==>
         && lines[2 * j] == SourceLine(2 * j + 1, enUrls[j], enSummaries[j])
         && lines[2 * j + 1] == SourceLine(2 * j + 2, arUrls[j], arSummaries[j])
  }

  function Min(a: nat, b: nat): nat {
    if a <= b then a else b
  }

  /** The listing loop at main.py:129-134, with its running counter. */
  method ListSources(enUrls: seq<string>, enSummaries: seq<string>, arUrls: seq<string>, arSummaries: seq<string>)
    returns (lines: seq<string>)
    ensures ListsSources(lines, enUrls, enSummaries, arUrls, arSummaries)
  {
    var pairs := Min(Min(|enUrls|, |enSummaries|), Min(|arUrls|, |arSummaries|));
    var counter := 1;
    lines := [];
    for j := 0 to pairs
      invariant counter == 2 * j + 1 && |lines| == 2 * j
      invariant forall i :: 0 <= i < j ==>
                  && lines[2 * i] == SourceLine(2 * i + 1, enUrls[i], enSummaries[i])
                  && lines[2 * i + 1] == SourceLine(2 * i + 2, arUrls[i], arSummaries[i])
    {
      lines := lines + [SourceLine(counter, enUrls[j], enSummaries[j])];
      counter := counter + 1;
      lines := lines + [SourceLine(counter, arUrls[j], arSummaries[j])];
      counter := counter + 1;
    }
  }

  /** `main()` of main.py. A planner reply that is not an integer raises `ValueError`
      before any iteration; a search with fewer than two hits raises `IndexError` in the
      first iteration that sees it (the tracks returned are those before that iteration,
      the calls include that iteration's two query calls);
      otherwise the loop runs `max(0, n)` times, exactly one synthesis call ends the run
      even with no summaries, and every call carries the original query. */
  method RunMain(originalQuery: string, svc: Services)
    returns (outcome: Outcome, calls: seq<Call>, en: Track, ar: Track)
    ensures var parsed := svc.parseInt(svc.ask(Call(PlannerPrompt, originalQuery)));
            && (outcome == Crashed(ValueError) <==> parsed.None?)
            && (outcome == Crashed(IndexError) ==>
                  && parsed.Some? && |en.queries| < parsed.value
                  && |calls| == 3 + 6 * |en.queries|
                  && !(Wide(svc.search(QueryOf(svc, originalQuery, English, en)))
                       && Wide(svc.search(QueryOf(svc, originalQuery, Arabic, ar)))))
            && (outcome.Finished? ==>
                  && parsed.Some? && |en.queries| == IterationCount(parsed.value)
                  && |calls| == 2 + 6 * |en.queries|
                  && calls[|calls| - 1] == Call(SummaryListsPrompt(en.summaries, ar.summaries), originalQuery)
                  && outcome.synthesis == svc.ask(calls[|calls| - 1])
                  && ListsSources(outcome.listing, en.urls, en.summaries, ar.urls, ar.summaries))
    ensures |calls| >= 1 && calls[0] == Call(PlannerPrompt, originalQuery)
    ensures forall k :: 0 <= k < |calls| ==> calls[k].user == originalQuery
    ensures |en.queries| == |ar.queries|
    ensures EarlyTrack(en, English, svc, originalQuery) && EarlyTrack(ar, Arabic, svc, originalQuery)
  {
    var plannerCall := Call(PlannerPrompt, originalQuery);
    calls := [plannerCall];
    en, ar := EmptyTrack(), EmptyTrack();
    var parsed := svc.parseInt(svc.ask(plannerCall));
    if parsed.None? {
      outcome := Crashed(ValueError);
      return;
    }
    var n := parsed.value;
    var i := 0;
    while i < n
      invariant 0 <= i == |en.queries| == |ar.queries| <= IterationCount(n)
      invariant |calls| == 1 + 6 * i && calls[0] == plannerCall
      invariant forall k :: 0 <= k < |calls| ==> calls[k].user == originalQuery
      invariant EarlyTrack(en, English, svc, originalQuery) && EarlyTrack(ar, Arabic, svc, originalQuery)
    {
      var ok, en', ar', roundCalls := RunRound(svc, originalQuery, en, ar);
      if !ok {
        calls := calls + roundCalls;
        outcome := Crashed(IndexError);
        return;
      }
      WidenKeeps(svc, originalQuery, English, en);
      WidenKeeps(svc, originalQuery, Arabic, ar);
      en, ar := en', ar';
      calls := calls + roundCalls;
      i := i + 1;
    }
    var synthesisCall := Call(SummaryListsPrompt(en.summaries, ar.summaries), originalQuery);
    var synthesis := svc.ask(synthesisCall);
    calls := calls + [synthesisCall];
    var listing := ListSources(en.urls, en.summaries, ar.urls, ar.summaries);
    outcome := Finished(synthesis, listing);
  }
}
