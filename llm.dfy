/** The generative call `ask(system_prompt, user_prompt)` as both research loops use it.
    The fixed instruction texts of the prompts are configuration and stay opaque; a
    system prompt is identified by its role and by whatever the code appends to the
    instruction text, which is all the code decides. `ask` itself is an uninterpreted
    function of the call, and `asyncio.gather` over several calls is an order-preserving
    map. */
module Llm {

  /** The two language tracks. */
  datatype Lang = English | Arabic

  datatype System =
      /** `planner_system_prompt` */
    | PlannerPrompt
      /** `{lang}_queries_system_prompt` followed by the queries already searched and the
          summaries so far of that track */
    | QueriesPrompt(lang: Lang, searched: seq<string>, summaries: seq<string>)
      /** `summarize_{lang}_system_prompt` followed by `text: {scrape}` */
    | SummarizePrompt(lang: Lang, text: string)
      /** `synthesizer_system_prompt` followed by the given text (the cited sources) */
    | SynthesizerPrompt(sources: string)
      /** `synthesizer_system_prompt` followed by the two summary lists (the earlier loop) */
    | SummaryListsPrompt(english: seq<string>, arabic: seq<string>)

  /** One call to `ask`: a system prompt and the user-turn text. */
  datatype Call = Call(system: System, user: string)

  /** `await asyncio.gather(*(ask(c) for c in calls))`: one reply per call, in the order
      the calls were submitted. */
  function Gather(ask: Call -> string, calls: seq<Call>): (replies: seq<string>)
    ensures |replies| == |calls|
    ensures forall k :: 0 <= k < |calls| ==> replies[k] == ask(calls[k])
    decreases |calls|
  {
    if |calls| == 0 then [] else [ask(calls[0])] + Gather(ask, calls[1..])
  }

  /** Gathering one batch made of two lists of calls and cutting the replies at the
      length of the first list gives back each list's own replies. */
  lemma GatherSplit(ask: Call -> string, first: seq<Call>, second: seq<Call>)
    ensures Gather(ask, first + second)[..|first|] == Gather(ask, first)
    ensures Gather(ask, first + second)[|first|..] == Gather(ask, second)
  {
    var all := Gather(ask, first + second);
    assert forall k :: 0 <= k < |first| ==> all[..|first|][k] == ask(first[k]);
    assert forall k :: 0 <= k < |second| ==> all[|first|..][k] == ask((first + second)[|first| + k]);
  }
}
