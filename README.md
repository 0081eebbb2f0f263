# Deep research agent: a Dafny model

The system is a bilingual (English and Arabic) research agent. A planner call picks
how many research iterations to run. Each iteration asks a language model for one new
search query per language track, searches (Tavily for English, Google Custom Search for
Arabic), scrapes the top hits, keeps the usable scrapes and summarises them. The
summaries are cited and synthesised into one report, streamed to a browser client as
newline-delimited JSON progress events.

This project models the core of that system and proves properties of the model:

- `research.dfy` (module `Research`): `run_research` in deep_research/main.py.
  - The planner clamp.
  - The per-iteration accumulation of queries, URLs, scrapes and summaries per track.
  - The good/bad partition of scrapes.
  - The positional split of the summary batch.
  - Source assembly, the synthesis short-circuit, removal of `<think>` blocks, and the
    event sequence.
  - The loop is a `for` loop over a loop state. Each iteration is proved equal to a
    specification function `Step`, whose invariant is proved.
- `scrape.dfy` (`Scrape`): the text normalisation, truncation and failure string of
  `url_scrape`. This part is identical in both revisions of tools.py.
- `search.dfy` (`Search`): `tavily_search`, `google_search` and `shorten_url` of
  deep_research/tools.py, with the URL-shortening rule and the failure strings.
- `early_tools.dfy` (`EarlyTools`): the earlier `tavily_search` of tools.py, which does
  not shorten URLs.
- `early_research.dfy` (`EarlyResearch`): `main` of the top-level main.py, the earlier
  loop.
  - The count is unclamped.
  - It takes exactly two hits per track per iteration.
  - Scrapes are stored reversed within each pair, yet summaries are aligned with URLs.
  - It always ends with one synthesis call, followed by the numbered source listing.
- `client.dfy` (`Client`): deep-research-frontend/src/App.jsx.
  - The newline-buffer read loop.
  - The `processStreamedLines` reducer.
  - The submit, clear and toggle handlers.
  - The React state hooks are the fields of class `App`.
- `llm.dfy` (`Llm`) defines the calls made to the language model. `strings.dfy`
  (`Strings`) and `wrappers.dfy` (`Wrappers`) hold shared string helpers and `Option`.

The model treats the following as opaque and represents each as a function-typed
parameter or field (`Services`):
- the language model `ask`;
- Python's `int()` on the planner reply, as `Option<int>`;
- the search clients, the HTTP fetch plus HTML text extraction, and the is.gd shortener;
- on the client, `JSON.parse` and the decoded stream chunks.

`asyncio.gather` is an order-preserving map (`Llm.Gather`). A call to `ask` is a
structured `Call(system, user)`; its system part is the prompt kind plus the data
interpolated into it. The only prompt text kept literally is the synthesis input
`"Sources:\n" + "\n\n".join(...)`.

What the code does not do:
- There is no content-usability filter and no token-budget truncation. A scrape is
  usable when it is non-empty and does not start with "Failed to scrape content", and
  `url_scrape` itself caps the text at 5000 characters.
- Generated queries are not stripped of quotes.
- There is no PDF handling.
- Sources are not deduplicated.
- The final event carries only `content` and has no `sources` list
  (deep_research/main.py:142).

## Model

| member | source | states |
|---|---|---|
| Research.LoopCount | deep_research/main.py:39-48 | the loop count always lies in [1, 6]; a reply that is not an integer gives 1; an integer in range is kept; one below or above the range gives the nearest bound |
| Research.PlannedLoops | deep_research/main.py:39-48 | the count the planner call yields is in [1, 6] |
| Research.Candidates | deep_research/main.py:72-73 | `[:2]` keeps at most two results, as a prefix, and all of them when there are at most two |
| Research.Accepted | deep_research/main.py:75-95 | the URLs kept as good, in their original order and never more than were considered, each with a non-empty scrape that does not start with the failure marker |
| Research.Rejected | deep_research/main.py:75-95 | the URLs set aside, in their original order, each with an empty scrape or one starting with the failure marker |
| Research.PartitionMembers | deep_research/main.py:75-95 | a considered URL is accepted exactly when its scrape is good, and rejected exactly when it is not |
| Research.PartitionExact | deep_research/main.py:75-95 | accepted and rejected URLs together are exactly the considered URLs, each as often as considered |
| Research.PartitionScrapes | deep_research/main.py:75-95 | the two append loops build the accepted URLs with their scrapes and the rejected URLs with their scrapes |
| Research.SearchTrack | deep_research/main.py:69-100 | one query appended per track, followed by that query's accepted URLs and their scrapes; summaries untouched |
| Research.SummarizeBatch | deep_research/main.py:104-118 | one summarise call per good scrape, English first; the first `en_count` replies extend the English summaries and the rest the Arabic ones |
| Llm.Gather | deep_research/main.py:113 | one reply per call, reply k being the reply to call k |
| Llm.GatherSplit | deep_research/main.py:116-118 | splitting the gathered replies at the English count gives exactly the replies to the English calls and to the Arabic calls |
| Research.IterationEvents | deep_research/main.py:53-111 | an iteration yields three progress events, or four when it found nothing to summarise |
| Research.SkipWhenNothingFound | deep_research/main.py:109-114 | an iteration that accepted nothing makes only its two query calls and leaves summaries and the summary user turn unchanged; otherwise it adds one call and one summary per accepted scrape and switches the user turn to "Write a summary." |
| Research.Step | deep_research/main.py:52-118 | an iteration appends one query per track and one found count, keeps every earlier call, and makes two query calls plus one summarise call per accepted scrape |
| Research.ExtendKeepsAligned | deep_research/main.py:97-118 | appending the accepted URLs, their scrapes and the positional share of the summary batch keeps one scrape and one summary per URL, each at the same index |
| Research.ExtendKeepsHistory | deep_research/main.py:55-70 | every query was generated from the track's earlier queries and summaries, with the original query as user turn only in the first iteration |
| Research.ExtendKeepsState | deep_research/main.py:55-118 | one iteration keeps the whole track invariant: URLs are the accepted hits of the track's queries, aligned with scrapes and summaries, queries following the history |
| Research.StepRecordsFound | deep_research/main.py:102 | the count in each iteration's "Found N new sources." is the number of accepted English plus Arabic scrapes for that iteration's queries |
| Research.StepSetsSummaryUser | deep_research/main.py:109-114 | the summary user turn is the original query until the first non-empty batch and "Write a summary." afterwards |
| Research.StepMakesNoSynthesis | deep_research/main.py:52-118 | no iteration makes a synthesis call: the loop body only makes query and summarise calls |
| Research.StepKeepsTracks | deep_research/main.py:52-118 | both tracks keep their invariant through an iteration |
| Research.StepKeepsInvariant | deep_research/main.py:52-118 | the loop invariant (one query per track per iteration, track invariants, summary user turn, found counts, no synthesis) holds after every iteration |
| Research.LoopEventsShape | deep_research/main.py:53-111 | the loop yields three events per iteration plus one per skipped iteration, all of them progress events |
| Research.RunIteration | deep_research/main.py:52-118 | one iteration of the loop body computes exactly `Step` and yields that iteration's events |
| Research.SearchPhase | deep_research/main.py:53-100 | the query calls, searches and scrapes of an iteration, returning the scrapes it added |
| Research.SummaryPhase | deep_research/main.py:102-118 | the summary batch, skipped when there is nothing to summarise |
| Research.StepTotals | deep_research/main.py:52-118 | an iteration records one found count f and adds exactly 2 + f calls and f summaries: nothing is summarised, and no summarise call made, for an iteration that found nothing |
| Research.Advance | deep_research/main.py:52-118 | the new loop state is exactly `Step` of the old one; it keeps the loop invariant and extends the events by that iteration's events |
| Research.RunLoop | deep_research/main.py:52-118 | after n iterations the invariant holds, n found counts are recorded, the calls number 2n plus the sum of the found counts, the summaries number that sum, and the events are the loop's events |
| Research.AssembleSources | deep_research/main.py:122-129 | one source block per summary, English first, block k citing URL k of its track (or "No URL available") |
| Research.CitationsComplete | deep_research/main.py:122-129 | when each track has a URL per summary, as the loop guarantees, every block cites the URL at its own index and the fallback never appears |
| Research.BlockEnd | deep_research/main.py:140 | a `<think>` block found at the start of the text ends within it, after both tags |
| Research.RemoveThink | deep_research/main.py:140 | removing `<think>…</think>` spans never lengthens the text |
| Research.NoThinkUntouched | deep_research/main.py:140 | a reply with no `<think>` is left as it is, so it is only trimmed |
| Research.PlainPrefixKept | deep_research/main.py:140 | text containing no `<` before the first block is kept verbatim |
| Research.ThinkBlockDropped | deep_research/main.py:140 | a `<think>` block, from its opening tag to the first closing tag after it, is removed and the text around it kept |
| Research.Synthesize | deep_research/main.py:131-140 | no sources: the fixed "No relevant information…" text and no call; otherwise exactly one synthesis call, whose cleaned reply is the content |
| Research.Compose | deep_research/main.py:122-140 | source assembly followed by synthesis |
| Research.Close | deep_research/main.py:120-142 | the closing events are "Composing…" and one final event with the synthesis content; a synthesis call is added exactly when there are sources |
| Research.ClosingCalls | deep_research/main.py:39-139 | the planner call comes first; the synthesis call, when made, comes last; no other call is a synthesis call |
| Research.SessionEvents | deep_research/main.py:20-142 | a session yields 4 + 3N + (skipped iterations) events, all progress events except the last, which is the final event |
| Research.RunResearch | deep_research/main.py:19-142 | the whole session: N = planner count; N queries per track; track invariants; recorded found counts; the exact event sequence from "Planning…" and "Determined N research loops." to the final event; planner call first and at most one synthesis call, last; exactly 1 + 2N + (sum of the found counts) + (1 if there are sources) calls, so an iteration that found nothing adds no summarise call, and one summary per accepted scrape |
| Strings.NatToStringRoundTrip | deep_research/main.py:50 | the decimal text in the progress events reads back as the number |
| Strings.Find | deep_research/main.py:140 | the index found is that of the first occurrence of the pattern; no index means the pattern occurs nowhere |
| Strings.Strip | deep_research/main.py:140 | `.strip()` leaves no white space at either end |
| Strings.StripIsSlice | deep_research/main.py:140 | the stripped text is a contiguous slice of the input |
| Strings.StripRemovesSpace | deep_research/main.py:140 | what `.strip()` removes at either end is white space |
| Strings.SqueezeStrip | deep_research/tools.py:28-29 | `.strip()` removes white space only: the other characters are kept, in order |
| Strings.StripLeft | deep_research/main.py:140 | `lstrip` part of `.strip()`: a suffix of the text that does not start with white space, the whole text when it does not start with any |
| Strings.StripRight | deep_research/main.py:140 | `rstrip` part of `.strip()`: a prefix of the text that does not end with white space, the whole text when it does not end with any |
| Strings.StripClean | deep_research/main.py:140 | text already without surrounding white space is unchanged |
| Scrape.LineEnd | deep_research/tools.py:28 | the first line boundary, with no boundary before it |
| Scrape.SplitLines | deep_research/tools.py:28 | `splitlines()` pieces contain no line boundary |
| Scrape.LineBreaksLength | deep_research/tools.py:28 | `splitlines()` ends every line at exactly one boundary (or at the end of the text): one boundary per line |
| Scrape.SplitLinesRejoin | deep_research/tools.py:28 | each line followed by the boundary that ended it, all in order, gives back the text: the cuts fall exactly at the boundaries |
| Scrape.SplitLinesBreaks | deep_research/tools.py:28 | every boundary but the last is a single boundary character or "\r\n"; the last is one too, or empty when the last line runs to the end of the text, which is then non-empty (no trailing empty line) |
| Scrape.LoneReturn | deep_research/tools.py:28 | a boundary "\r" is never followed by a "\n" boundary: "\r\n" is always cut as one boundary |
| Scrape.SplitLinesConcat | deep_research/tools.py:28 | the lines, put back together, are the text without its line-boundary characters: nothing else is lost, moved or added |
| Scrape.SplitOnDoubleSpace | deep_research/tools.py:29 | `split("  ")` pieces contain no double space and no line break when the line had none |
| Scrape.SplitOnDoubleSpaceJoin | deep_research/tools.py:29 | joining the pieces of `split("  ")` with a double space gives back the line |
| Scrape.NonEmpty | deep_research/tools.py:30 | only non-empty chunks are joined |
| Scrape.NonEmptyMembers | deep_research/tools.py:30 | a chunk is kept exactly when it is not empty |
| Scrape.NonEmptyConcat | deep_research/tools.py:30 | dropping the empty chunks keeps their concatenation |
| Scrape.ChunksClean | deep_research/tools.py:28-29 | every stripped phrase of every stripped line is clean: single-line, no double space, no surrounding white space |
| Scrape.JoinClean | deep_research/tools.py:30 | a single-space join of clean non-empty chunks is clean |
| Scrape.Truncate | deep_research/tools.py:32 | the cut text has at most 5000 characters, is a prefix, and is the whole text when that is no longer |
| Scrape.UrlScrape | deep_research/tools.py:12-34 | a successful scrape is a prefix of the normalised text, of at most 5000 characters and all of it when it fits, with no line break and no double space; a failure is exactly "Failed to scrape content from " + url + ": " + reason, which starts with the marker the loop tests |
| Scrape.WordsSplitLines | deep_research/tools.py:28 | splitting into lines keeps the white-space-separated words of the text, in order |
| Scrape.WordsStrip | deep_research/tools.py:29 | `.strip()` keeps the words |
| Scrape.WordsJoin | deep_research/tools.py:29-30 | joining pieces with white space gives the words of the pieces, in order |
| Scrape.NormalizeWords | deep_research/tools.py:27-30 | the normalised text has exactly the words of the page text, in order |
| Scrape.Normalize | deep_research/tools.py:27-30 | the normalised text is one clean line (no line break, no double space, no white space at either end) holding exactly the non-white characters of the page text, in order, and exactly its words, in order (separated by one space, or by the page's own white-space run when that run holds no double space and no line break); tools.py:22-25 of the earlier revision is the same code |
| Scrape.NormalizeIdempotent | deep_research/tools.py:27-30 | normalising normalised text changes nothing |
| Search.ShortenUrl | deep_research/tools.py:76-95 | the `shorturl` when present; otherwise exactly the refusal prefix followed by `errormessage`, or by "Unknown error" when that is missing; exactly the request-failure prefix followed by the exception text; the fixed text for a decode failure |
| Search.ShapeItems | deep_research/tools.py:41-45 | one entry per item, in order, URLs over 125 characters replaced by their shortened form; a missing `url`/`link` key is reported |
| Search.ShortUrlsUnchanged | deep_research/tools.py:43 | URLs of at most 125 characters pass through unchanged |
| Search.TavilySearch | deep_research/tools.py:37-48 | shaped URLs in result order, or the one-element "Tavily search failed: …" list on any exception |
| Search.GoogleSearch | deep_research/tools.py:51-73 | never empty: shaped URLs in order, "No results returned by Google." for no items, or one "Google search failed: …" entry on any exception |
| EarlyTools.TavilySearch | tools.py:32-37 | the earlier search returns the result URLs in order and unchanged, exactly ["Search failed: " + reason] on an exception, and exactly ["Search failed: 'url'"] when a result lacks its URL (the `KeyError` text) |
| EarlyTools.RevisionsAgreeOnShortUrls | tools.py:35 | on results of at most 125 characters both revisions of the search return the same URLs |
| EarlyResearch.IterationCount | main.py:47 | `range(n)` runs n times for positive n and not at all otherwise |
| EarlyResearch.Partner | main.py:89-93 | the index paired with j stays within the same track lists |
| EarlyResearch.Widen | main.py:70-113 | an iteration only appends to a track: one query and two URLs, scrapes and summaries, every earlier entry kept |
| EarlyResearch.WidenKeeps | main.py:70-113 | an iteration keeps the track invariant: lengths 2k; the scrape at j is the scrape of the URL at its partner index (stored reversed); the summary at j summarises the scrape of the URL at j (realigned) |
| EarlyResearch.IssuedKept | main.py:70-81 | URLs 2i and 2i+1 stay the first two hits of query i, and query i stays generated from the history before it |
| EarlyResearch.RunRound | main.py:54-113 | an iteration succeeds exactly when both searches return at least two hits; it then appends the pair per track and makes six calls, otherwise only the two query calls, all with the original query |
| EarlyResearch.ListSources | main.py:129-134 | the listing zips the four lists: 2·min(lengths) lines numbered from 1, English before Arabic at each index |
| EarlyResearch.RunMain | main.py:20-136 | a non-integer reply raises ValueError; a short search raises IndexError after 3 + 6k calls (k completed iterations); otherwise max(0, n) iterations, 2 + 6k calls, all with the original query, ending in one synthesis call over the two summary lists, then the listing; both tracks keep the invariant |
| Client.JsTrim | deep-research-frontend/src/App.jsx:46 | `trim()` never lengthens the text; its meaning is stated by the rows below |
| Client.BlankIffAllSpace | deep-research-frontend/src/App.jsx:46 | `trim() === ''` holds exactly when every character is JavaScript white space |
| Client.TrimStartCut | deep-research-frontend/src/App.jsx:46 | the start `trim()` cuts off is white space, and what is left does not start with any |
| Client.TrimEndCut | deep-research-frontend/src/App.jsx:46 | the end `trim()` cuts off is white space, and what is left does not end with any |
| Client.JsTrimIsSlice | deep-research-frontend/src/App.jsx:46 | `trim()` returns a piece of the text with white space at neither end, everything cut off on either side being white space |
| Client.Split | deep-research-frontend/src/App.jsx:133 | `split('\n')` gives at least one piece and no piece contains a newline |
| Client.SplitJoin | deep-research-frontend/src/App.jsx:133 | joining the pieces with newlines gives back the text |
| Client.JoinSplit | deep-research-frontend/src/App.jsx:133 | splitting a newline-join of newline-free pieces gives back the pieces |
| Client.SplitPlain | deep-research-frontend/src/App.jsx:127 | a buffer without newline splits into itself |
| Client.StreamLines | deep-research-frontend/src/App.jsx:123-137 | no line handed to the reducer holds a newline |
| Client.BufferInvariant | deep-research-frontend/src/App.jsx:132-136 | after a chunk, the handed-over lines joined by newlines, followed by the kept rest, are the earlier text plus the chunk |
| Client.StreamLinesFrame | deep-research-frontend/src/App.jsx:123-137 | the lines of a stream, rejoined with newlines, give back the whole text, short of one final newline |
| Client.ApplyLinesAppend | deep-research-frontend/src/App.jsx:136 | handing lines over in batches has the same effect as handing them over at once |
| Client.IgnoredLinesChangeNothing | deep-research-frontend/src/App.jsx:46-78 | blank, unparsable and unknown-type lines leave the whole state unchanged |
| Client.ApplyLines | deep-research-frontend/src/App.jsx:44-80 | the stream never changes the query or the loading flag, keeps every chat entry, and adds one entry per final or error message |
| Client.ApplyLine | deep-research-frontend/src/App.jsx:50-74 | one line never changes the query or the loading flag, keeps the chat entries, and adds one exactly when it is a final or error message |
| Client.ProgressShowsStage | deep-research-frontend/src/App.jsx:50-56 | a progress message sets the progress card and changes no chat entry, error or report |
| Client.FinalOpensReport | deep-research-frontend/src/App.jsx:57-66 | a final message appends the clickable report entry, stores the content, clears the progress card and opens the side panel |
| Client.ErrorShowsNote | deep-research-frontend/src/App.jsx:67-74 | an error message sets the error, clears the progress card and appends exactly one error entry |
| Client.Submitted | deep-research-frontend/src/App.jsx:82-148 | a blank query only sets "Please enter a query."; any other ends with loading off, the input cleared and the query in the chat list |
| Client.App.constructor | deep-research-frontend/src/App.jsx:10-22 | the seven state hooks start at their initial values, with the three greeting entries |
| Client.App.ProcessStreamedLines | deep-research-frontend/src/App.jsx:44-80 | the state after the loop is the reducer applied to the lines in order |
| Client.App.ReadStream | deep-research-frontend/src/App.jsx:119-137 | the read loop hands every line of the decoded text to the reducer exactly once, in order, including the non-empty rest at the end |
| Client.App.HandleResearchSubmit | deep-research-frontend/src/App.jsx:82-148 | the state after a submit is the blank-query error, or the reset started state, followed by the stream or the request-failure entry, with loading off |
| Client.App.HandleClearChat | deep-research-frontend/src/App.jsx:157-165 | messages are reset to the initial list, error and report to '', progress to none, loading and side panel off, query to '' |
| Client.App.ToggleSidePanel | deep-research-frontend/src/App.jsx:167-169 | only the side-panel flag changes, to its negation |

## Left out

- Prompt texts (deep_research/prompts.py, including the date interpolated into them) and
  the Python list repr in the query prompts. A call's system part is a structured value.
- The OpenAI and Tavily clients, the `asyncio.Semaphore(10)` gate of deep_research/llm.py,
  and any concurrency. Calls in one `gather` happen in submission order.
- deep_research/app.py: HTTP routing, CORS and the JSON-line framing on the server side.
- `requests.get`, the status check, BeautifulSoup's `get_text` and script/style removal,
  and the request timeouts (15 s and 10 s in the two revisions). Their combined outcome
  is the `Scrape.Fetch` value.
- Python `int()` parsing and the `re` engine. Parsing is an opaque `Option<int>`.
  `Research.RemoveThink` follows the leftmost, non-greedy, dot-matches-newline meaning of
  the pattern.
- Research.LoopCount, EarlyResearch.RunMain: an exception raised by the language-model
  call is not modelled. It can come from deep_research/main.py:39, 62, 113 and 139, and
  from every `ask` of the earlier main.py, whose client module is not part of this
  model. deep_research/app.py:53-57 turns such an exception into an error event, which
  the client shows. A `None` reply (deep_research/llm.py:28) is not modelled either:
  `int(None)` raises a `TypeError`. The `except ValueError` at deep_research/main.py:42
  does not catch it, and main.py:40 has no handler at all. `Services.ask` always returns
  a string, and `Services.parseInt` turns it into `Option<int>`.
- Research.ThinkBlockDropped: proved only when the text before the block and the block
  body contain no `<`. `RemoveThink` itself is defined for every input.
- Research.RunResearch: each summary is stated to reply to a summarise call on its scrape
  with one of the two user turns (original query or "Write a summary."), not which one.
  The current turn is fixed by the loop invariant, but the turn used for each earlier
  summary is not recorded.
- Research.PartitionExact: order preservation is not a separate lemma. `Accepted` and
  `Rejected` are order-preserving filters by definition.
- Search.ShortenUrl: the JSON-decode branch follows the code as written. With `requests`
  2.27 or later the decode error is also a `RequestException`, so the first handler would
  take it. The library version is not part of this model.
- EarlyResearch.RunMain: after an `IndexError` it returns the tracks from before the
  failing iteration. The query appends made before the exception are dropped, because
  the program stops there and prints nothing more. The call log keeps that iteration's
  two query calls.
- The hard-coded query of main.py is a parameter (`originalQuery`).
- `print` diagnostics in both revisions, and `console.error` in the client.
- Client rendering and JSX, scroll and textarea effects, `handleQueryChange` and
  `handleKeyDown`.
- Client timestamps. The first-message replacement at
  deep-research-frontend/src/App.jsx:90 compares entries that include time-of-day
  strings, so its outcome is a boolean parameter (`clockMatches`).
- `fetch`, `TextDecoder` (including the decoder state across chunks) and `JSON.parse`.
  The response is either a sequence of decoded chunks or a failure with its message
  (network error, or a non-ok status with the server's `detail`).
- Client.App.HandleResearchSubmit: a read that fails after some chunks were processed is
  not modelled. A failure is modelled only before any chunk.
- Stream messages with missing fields (`stage`, `detail`, `content` being `undefined`).
  A parsed message always carries its strings.
- React's batching of state updates and stale closures. Setters take effect in order, and
  only one submit is in progress at a time.
