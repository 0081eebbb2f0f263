/** The browser client (deep-research-frontend/src/App.jsx): the newline-delimited framing
    of the research stream, the reducer that turns each stream line into state changes,
    and the submit, clear and toggle handlers. The React state hooks are the fields of
    class `App`; `fetch`, `TextDecoder` and `JSON.parse` are opaque (the stream arrives as
    already-decoded chunks and parsing is a function to `Option<StreamMessage>`). */
module Client {
  import opened Wrappers
  import opened Strings

  // ---------------------------------------------------------------------------
  // JavaScript string operations

  /** The characters `String.prototype.trim` removes: white space and line terminators. */
  predicate IsJsSpace(c: char) {
    || c in {'\t', '\n', '\U{0b}', '\U{0c}', '\r', ' ', '\U{a0}', '\U{1680}', '\U{2028}', '\U{2029}'}
    || c in {'\U{202f}', '\U{205f}', '\U{3000}', '\U{feff}'}
    || ('\U{2000}' <= c <= '\U{200a}')
  }

  function TrimStart(s: string): (r: string)
    ensures |r| <= |s|
    decreases |s|
  {
    if |s| > 0 && IsJsSpace(s[0]) then TrimStart(s[1..]) else s
  }

  function TrimEnd(s: string): (r: string)
    ensures |r| <= |s|
    decreases |s|
  {
    if |s| > 0 && IsJsSpace(s[|s| - 1]) then TrimEnd(s[..|s| - 1]) else s
  }

  /** `s.trim()`. */
  function JsTrim(s: string): (r: string)
    ensures |r| <= |s|
  {
    TrimEnd(TrimStart(s))
  }

  /** `trimStart` cuts off white space only, and what it leaves does not start with any. */
  lemma {:induction false} TrimStartCut(s: string)
    ensures var r := TrimStart(s);
            && r == s[|s| - |r|..]
            && (forall k :: 0 <= k < |s| - |r| ==> IsJsSpace(s[k]))
            && (|r| > 0 ==> !IsJsSpace(r[0]))
    decreases |s|
  {
    if |s| > 0 && IsJsSpace(s[0]) {
      TrimStartCut(s[1..]);
      forall k | 1 <= k < |s| - |TrimStart(s)| ensures IsJsSpace(s[k]) {
        assert s[k] == s[1..][k - 1];
      }
    }
  }

  /** `trimEnd` cuts off white space only, and what it leaves does not end with any. */
  lemma {:induction false} TrimEndCut(s: string)
    ensures var r := TrimEnd(s);
            && r == s[..|r|]
            && (forall k :: |r| <= k < |s| ==> IsJsSpace(s[k]))
            && (|r| > 0 ==> !IsJsSpace(r[|r| - 1]))
    decreases |s|
  {
    if |s| > 0 && IsJsSpace(s[|s| - 1]) {
      TrimEndCut(s[..|s| - 1]);
    }
  }

  /** `s.trim()` is a piece of `s` with white space at neither end, and everything cut off
      on either side of it is white space. */
  lemma JsTrimIsSlice(s: string)
    ensures var lo := |s| - |TrimStart(s)|;
            var r := JsTrim(s);
            && lo + |r| <= |s| && r == s[lo..lo + |r|]
            && (|r| > 0 ==> !IsJsSpace(r[0]) && !IsJsSpace(r[|r| - 1]))
            && (forall k :: 0 <= k < lo ==> IsJsSpace(s[k]))
            && (forall k :: lo + |r| <= k < |s| ==> IsJsSpace(s[k]))
  {
    var t := TrimStart(s);
    var lo := |s| - |t|;
    var r := JsTrim(s);
    TrimStartCut(s);
    TrimEndCut(t);
    forall k | lo + |r| <= k < |s| ensures IsJsSpace(s[k]) {
      assert s[k] == t[k - lo];
    }
  }

  /** `s.trim() === ''`, the test both the reducer and the submit handler apply. */
  predicate Blank(s: string) {
    JsTrim(s) == ""
  }

  /** A string trims to nothing exactly when every character of it is white space. */
  lemma {:induction false} BlankIffAllSpace(s: string)
    ensures Blank(s) <==> forall k :: 0 <= k < |s| ==> IsJsSpace(s[k])
    decreases |s|
  {
    if |s| > 0 {
      BlankIffAllSpace(s[1..]);
      if IsJsSpace(s[0]) {
        assert forall k :: 1 <= k < |s| ==> s[k] == s[1..][k - 1];
      } else {
        assert TrimStart(s) == s;
        assert !IsJsSpace(TrimEnd(s)[0]) by { TrimEndKeepsHead(s); }
      }
    }
  }

  lemma {:induction false} TrimEndKeepsHead(s: string)
    requires |s| > 0 && !IsJsSpace(s[0])
    ensures |TrimEnd(s)| > 0 && TrimEnd(s)[0] == s[0]
    decreases |s|
  {
    if IsJsSpace(s[|s| - 1]) {
      TrimEndKeepsHead(s[..|s| - 1]);
    }
  }

  /** `s.split('\n')`: the pieces between newlines, at least one, none holding a newline. */
  function Split(s: string): (parts: seq<string>)
    ensures |parts| >= 1
    ensures forall k :: 0 <= k < |parts| ==> '\n' !in parts[k]
    decreases |s|
  {
    if |s| == 0 then [""]
    else
      var rest := Split(s[1..]);
      if s[0] == '\n' then [""] + rest
      else [[s[0]] + rest[0]] + rest[1..]
  }

  /** Splitting loses nothing: rejoining the pieces with newlines gives the text back. */
  lemma {:induction false} SplitJoin(s: string)
    ensures Join(Split(s), "\n") == s
    decreases |s|
  {
    if |s| > 0 {
      var rest := Split(s[1..]);
      SplitJoin(s[1..]);
      if s[0] == '\n' {
        assert ([""] + rest)[1..] == rest;
        assert s == "\n" + s[1..];
      } else {
        var parts := [[s[0]] + rest[0]] + rest[1..];
        if |rest| == 1 {
          assert s == [s[0]] + s[1..];
        } else {
          assert parts[1..] == rest[1..];
          assert Join(rest, "\n") == rest[0] + "\n" + Join(rest[1..], "\n");
          assert s == [s[0]] + s[1..];
        }
      }
    }
  }

  lemma {:induction false} SplitPlain(p: string)
    requires '\n' !in p
    ensures Split(p) == [p]
    decreases |p|
  {
    if |p| > 0 {
      SplitPlain(p[1..]);
      assert p == [p[0]] + p[1..];
    }
  }

  lemma {:induction false} SplitAfterPiece(p: string, t: string)
    requires '\n' !in p
    ensures Split(p + "\n" + t) == [p] + Split(t)
    decreases |p|
  {
    var s := p + "\n" + t;
    if |p| == 0 {
      assert s == "\n" + t && s[1..] == t;
    } else {
      assert s[0] == p[0] && s[1..] == p[1..] + "\n" + t;
      SplitAfterPiece(p[1..], t);
      assert [p[0]] + p[1..] == p;
    }
  }

  /** Splitting undoes joining: pieces without newlines, joined by newlines, split back
      into the same pieces. */
  lemma {:induction false} JoinSplit(parts: seq<string>)
    requires |parts| >= 1
    requires forall k :: 0 <= k < |parts| ==> '\n' !in parts[k]
    ensures Split(Join(parts, "\n")) == parts
    decreases |parts|
  {
    if |parts| == 1 {
      SplitPlain(parts[0]);
    } else {
      JoinSplit(parts[1..]);
      SplitAfterPiece(parts[0], Join(parts[1..], "\n"));
      assert [parts[0]] + parts[1..] == parts;
    }
  }

  lemma {:induction false} JoinAppend(ps: seq<string>, qs: seq<string>, sep: string)
    requires |ps| >= 1 && |qs| >= 1
    ensures Join(ps + qs, sep) == Join(ps, sep) + sep + Join(qs, sep)
    decreases |ps|
  {
    if |ps| == 1 {
      assert (ps + qs)[1..] == qs;
    } else {
      assert (ps + qs)[1..] == ps[1..] + qs;
      JoinAppend(ps[1..], qs, sep);
    }
  }

  /** The lines a stream of this text hands to the reducer: every piece before the last
      newline, and the piece after it when it is not empty. None of them holds a newline. */
  function StreamLines(text: string): (lines: seq<string>)
    ensures forall k :: 0 <= k < |lines| ==> '\n' !in lines[k]
  {
    var parts := Split(text);
    var tail := parts[|parts| - 1];
    parts[..|parts| - 1] + (if tail == "" then [] else [tail])
  }

  /** The lines of a stream are the text cut at its newlines, each line once and in order:
      rejoined, they give back the text, short of the one newline that ends it when it does
      end with one. */
  lemma StreamLinesFrame(text: string)
    ensures |text| == 0 || text[|text| - 1] != '\n' ==> Join(StreamLines(text), "\n") == text
    ensures |text| > 0 && text[|text| - 1] == '\n' ==> Join(StreamLines(text), "\n") + "\n" == text
  {
    var parts := Split(text);
    var n := |parts|;
    var init := parts[..n - 1];
    var tail := parts[n - 1];
    SplitJoin(text);
    assert init + [tail] == parts;
    if n == 1 {
      assert text == tail;
    } else {
      JoinAppend(init, [tail], "\n");
      assert text == Join(init, "\n") + "\n" + tail;
    }
    if tail == "" {
      assert StreamLines(text) == init;
    } else {
      assert StreamLines(text) == parts;
      assert text[|text| - 1] == tail[|tail| - 1];
    }
  }

  // ---------------------------------------------------------------------------
  // Client state

  datatype Kind = Ai | User | ErrorNote

  /** One entry of the chat list (its timestamp is left out). */
  datatype ChatMessage = ChatMessage(kind: Kind, content: string, clickableReport: bool)

  /** The progress card: stage and detail of the latest progress message. */
  datatype ProgressView = ProgressView(stage: string, detail: string)

  /** A parsed stream line, by its `type` field; any other type is `Other`. */
  datatype StreamMessage = ProgressMsg(stage: string, detail: string) | FinalMsg(content: string) | ErrorMsg(content: string) | Other

  /** How the request ended: a stream of decoded chunks, or a thrown error with its message
      (a network failure, or a non-ok status with the server's detail). */
  datatype Response = Streamed(chunks: seq<string>) | Failed(message: string)

  /** The seven state hooks. */
  datatype View = View(
    query: string,
    messages: seq<ChatMessage>,
    progress: Option<ProgressView>,
    loading: bool,
    error: string,
    sidePanel: bool,
    report: string)

  const ReportLink := "View Synthesized Research Report"
  const EmptyQueryError := "Please enter a query."
  const InitiatingStage := "Initiating research..."
  const RequestFailedPrefix := "Failed to get research: "
  const RequestFailedSuffix := ". Please ensure the backend server is running and accessible."

  const Greeting := "Hello! How can I assist you today? I'm an AI deep research agent."
  const SampleQuestion := "Can you tell me about the future of AI in medicine?"
  const SampleAnswer := "Working on it. Please note, I will provide real-time updates as I gather information from various sources."

  function InitialMessages(): seq<ChatMessage> {
    [ChatMessage(Ai, Greeting, false), ChatMessage(User, SampleQuestion, false), ChatMessage(Ai, SampleAnswer, false)]
  }

  function InitialView(): View {
    View("", InitialMessages(), None, false, "", false, "")
  }

  /** The reducer's effect of one stream line: it never touches the query or the loading
      flag, keeps the chat list and adds one entry to it exactly for a final or an error
      message. */
  function ApplyLine(v: View, line: string, parse: string -> Option<StreamMessage>): (w: View)
    ensures w.query == v.query && w.loading == v.loading
    ensures |w.messages| == |v.messages| + (if Notice(line, parse) then 1 else 0)
    ensures w.messages[..|v.messages|] == v.messages
  {
    if Blank(line) then v
    else match parse(line)
      case None => v
      case Some(ProgressMsg(stage, detail)) => v.(progress := Some(ProgressView(stage, detail)))
      case Some(FinalMsg(content)) =>
        v.(messages := v.messages + [ChatMessage(Ai, ReportLink, true)], report := content,
           progress := None, sidePanel := true)
      case Some(ErrorMsg(content)) =>
        v.(error := content, progress := None, messages := v.messages + [ChatMessage(ErrorNote, content, false)])
      case Some(Other) => v
  }

  /** The reducer over lines, in order. The stream never touches the query or the loading
      flag, keeps every chat entry there was, and adds exactly one entry per final or
      error message. */
  function ApplyLines(v: View, lines: seq<string>, parse: string -> Option<StreamMessage>): (w: View)
    ensures w.query == v.query && w.loading == v.loading
    ensures |w.messages| == |v.messages| + Notices(lines, parse)
    ensures w.messages[..|v.messages|] == v.messages
    decreases |lines|
  {
    if |lines| == 0 then v
    else
      var u := ApplyLines(v, lines[..|lines| - 1], parse);
      var w := ApplyLine(u, lines[|lines| - 1], parse);
      assert w.messages[..|v.messages|] == w.messages[..|u.messages|][..|v.messages|];
      w
  }

  /** A line that adds an entry to the chat list: a final or an error message. */
  predicate Notice(line: string, parse: string -> Option<StreamMessage>) {
    !Blank(line) && parse(line).Some? && (parse(line).value.FinalMsg? || parse(line).value.ErrorMsg?)
  }

  function Notices(lines: seq<string>, parse: string -> Option<StreamMessage>): nat
    decreases |lines|
  {
    if |lines| == 0 then 0
    else Notices(lines[..|lines| - 1], parse) + (if Notice(lines[|lines| - 1], parse) then 1 else 0)
  }

  /** A line that changes nothing: blank, unparsable, or of an unknown type. */
  predicate Ignored(line: string, parse: string -> Option<StreamMessage>) {
    Blank(line) || parse(line).None? || parse(line) == Some(Other)
  }

  /** Handing lines over in batches is the same as handing them over at once. */
  lemma {:induction false} ApplyLinesAppend(v: View, a: seq<string>, b: seq<string>, parse: string -> Option<StreamMessage>)
    ensures ApplyLines(v, a + b, parse) == ApplyLines(ApplyLines(v, a, parse), b, parse)
    decreases |b|
  {
    if |b| == 0 {
      assert a + b == a;
    } else {
      assert (a + b)[..|a + b| - 1] == a + b[..|b| - 1];
      ApplyLinesAppend(v, a, b[..|b| - 1], parse);
    }
  }

  /** Blank, unparsable and unknown lines leave the whole state as it was. */
  lemma {:induction false} IgnoredLinesChangeNothing(v: View, lines: seq<string>, parse: string -> Option<StreamMessage>)
    requires forall k :: 0 <= k < |lines| ==> Ignored(lines[k], parse)
    ensures ApplyLines(v, lines, parse) == v
    decreases |lines|
  {
    if |lines| > 0 {
      IgnoredLinesChangeNothing(v, lines[..|lines| - 1], parse);
    }
  }

  /** After a final message the report holds its content, the side panel is open and the
      progress card is gone, whatever came before. */
  lemma FinalOpensReport(v: View, lines: seq<string>, content: string, parse: string -> Option<StreamMessage>)
    requires |lines| > 0 && !Blank(lines[|lines| - 1]) && parse(lines[|lines| - 1]) == Some(FinalMsg(content))
    ensures var w := ApplyLines(v, lines, parse);
            && w.report == content && w.sidePanel && w.progress.None?
            && w.messages[|w.messages| - 1] == ChatMessage(Ai, ReportLink, true)
  {
  }

  /** A progress message puts its stage and detail on the progress card and leaves the chat
      list, the error and the report as the lines before it left them. */
  lemma ProgressShowsStage(v: View, lines: seq<string>, stage: string, detail: string,
                           parse: string -> Option<StreamMessage>)
    requires |lines| > 0 && !Blank(lines[|lines| - 1]) && parse(lines[|lines| - 1]) == Some(ProgressMsg(stage, detail))
    ensures var before := ApplyLines(v, lines[..|lines| - 1], parse);
            var w := ApplyLines(v, lines, parse);
            && w.progress == Some(ProgressView(stage, detail))
            && w.messages == before.messages && w.error == before.error && w.report == before.report
  {
  }

  /** An error message sets the error, removes the progress card and adds exactly one error
      entry, with the message's content, to the chat list. */
  lemma ErrorShowsNote(v: View, lines: seq<string>, content: string, parse: string -> Option<StreamMessage>)
    requires |lines| > 0 && !Blank(lines[|lines| - 1]) && parse(lines[|lines| - 1]) == Some(ErrorMsg(content))
    ensures var before := ApplyLines(v, lines[..|lines| - 1], parse);
            var w := ApplyLines(v, lines, parse);
            && w.error == content && w.progress.None?
            && w.messages == before.messages + [ChatMessage(ErrorNote, content, false)]
            && w.report == before.report && w.sidePanel == before.sidePanel
  {
  }

  /** The view once a non-blank query has been sent: the query is a user entry of the
      chat list (replacing the greeting when that is the only thing there), the input is
      cleared and the progress card shows the first stage. */
  function Started(v: View, clockMatches: bool): View {
    var user := ChatMessage(User, v.query, false);
    var replaceGreeting := |v.messages| > 0 && v.messages[0] == InitialMessages()[0] && clockMatches;
    v.(messages := if replaceGreeting then [user] else v.messages + [user],
       loading := true, error := "", progress := Some(ProgressView(InitiatingStage, "")),
       query := "", sidePanel := false, report := "")
  }

  /** The view after the response has been handled, before the loading flag goes down. */
  function Ended(started: View, response: Response, parse: string -> Option<StreamMessage>): View {
    match response
    case Streamed(chunks) => ApplyLines(started, StreamLines(Concat(chunks)), parse)
    case Failed(message) =>
      var content := RequestFailedPrefix + message + RequestFailedSuffix;
      started.(error := content, progress := None,
               messages := started.messages + [ChatMessage(ErrorNote, content, false)])
  }

  /** The whole effect of `handleResearchSubmit`. `clockMatches` stands for the time-of-day
      part of the comparison of the first entry with the greeting. A blank query only sets
      the error; a real one always ends with the loading flag down, the input cleared and
      the query kept as a user entry of the chat list. */
  function Submitted(v: View, response: Response, parse: string -> Option<StreamMessage>, clockMatches: bool): (w: View)
    ensures Blank(v.query) ==> w == v.(error := EmptyQueryError)
    ensures !Blank(v.query) ==> !w.loading && w.query == "" && ChatMessage(User, v.query, false) in w.messages
  {
    if Blank(v.query) then v.(error := EmptyQueryError)
    else
      var started := Started(v, clockMatches);
      var ended := Ended(started, response, parse);
      assert ended.messages[|started.messages| - 1] == started.messages[|started.messages| - 1];
      ended.(loading := false)
  }

  // ---------------------------------------------------------------------------
  // The component

  class App {
    var query: string
    var messages: seq<ChatMessage>
    var currentProgress: Option<ProgressView>
    var isLoading: bool
    var error: string
    var showSidePanel: bool
    var finalReportContent: string

    function State(): View
      reads this
    {
      View(query, messages, currentProgress, isLoading, error, showSidePanel, finalReportContent)
    }

    /** The initial values of the state hooks. */
    constructor()
      ensures State() == InitialView()
    {
      query := "";
      messages := InitialMessages();
      currentProgress := None;
      isLoading := false;
      error := "";
      showSidePanel := false;
      finalReportContent := "";
    }

    /** `processStreamedLines`: the reducer over the given lines, in order. */
    method ProcessStreamedLines(lines: seq<string>, parse: string -> Option<StreamMessage>)
      modifies this
      ensures State() == ApplyLines(old(State()), lines, parse)
    {
      for k := 0 to |lines|
        invariant State() == ApplyLines(old(State()), lines[..k], parse)
      {
        assert lines[..k + 1][..k] == lines[..k];
        var line := lines[k];
        if JsTrim(line) == "" {
          continue;
        }
        match parse(line) {
          case None =>
          case Some(ProgressMsg(stage, detail)) =>
            currentProgress := Some(ProgressView(stage, detail));
          case Some(FinalMsg(content)) =>
            messages := messages + [ChatMessage(Ai, ReportLink, true)];
            finalReportContent := content;
            currentProgress := None;
            showSidePanel := true;
          case Some(ErrorMsg(content)) =>
            error := content;
            currentProgress := None;
            messages := messages + [ChatMessage(ErrorNote, content, false)];
          case Some(Other) =>
        }
      }
      assert lines[..|lines|] == lines;
    }

    /** The read loop: append each decoded chunk to the buffer, hand every complete line
        to the reducer and keep the unterminated rest; at the end, hand over a non-empty
        rest. Exactly the stream's lines are processed, once each and in order. */
    method ReadStream(chunks: seq<string>, parse: string -> Option<StreamMessage>)
      modifies this
      ensures State() == ApplyLines(old(State()), StreamLines(Concat(chunks)), parse)
    {
      var buffer := "";
      ghost var processed: seq<string> := [];
      for k := 0 to |chunks|
        invariant '\n' !in buffer
        invariant forall j :: 0 <= j < |processed| ==> '\n' !in processed[j]
        invariant Join(processed + [buffer], "\n") == Concat(chunks[..k])
        invariant State() == ApplyLines(old(State()), processed, parse)
      {
        ghost var before := buffer;
        buffer := buffer + chunks[k];
        var lines := Split(buffer);
        var complete := lines[..|lines| - 1];
        buffer := lines[|lines| - 1];
        ProcessStreamedLines(complete, parse);
        ApplyLinesAppend(old(State()), processed, complete, parse);
        BufferInvariant(processed, before, chunks[k]);
        assert chunks[..k + 1][..k] == chunks[..k];
        processed := processed + complete;
      }
      assert chunks[..|chunks|] == chunks;
      JoinSplit(processed + [buffer]);
      assert Split(Concat(chunks)) == processed + [buffer];
      if |buffer| > 0 {
        SplitPlain(buffer);
        ProcessStreamedLines(Split(buffer), parse);
        ApplyLinesAppend(old(State()), processed, [buffer], parse);
        assert StreamLines(Concat(chunks)) == processed + [buffer];
      } else {
        assert StreamLines(Concat(chunks)) == processed;
      }
    }

    /** `handleResearchSubmit`. */
    method HandleResearchSubmit(response: Response, parse: string -> Option<StreamMessage>, clockMatches: bool)
      modifies this
      ensures State() == Submitted(old(State()), response, parse, clockMatches)
    {
      if JsTrim(query) == "" {
        error := EmptyQueryError;
        return;
      }
      var userMessage := ChatMessage(User, query, false);
      if |messages| > 0 && messages[0] == InitialMessages()[0] && clockMatches {
        messages := [userMessage];
      } else {
        messages := messages + [userMessage];
      }
      isLoading := true;
      error := "";
      currentProgress := Some(ProgressView(InitiatingStage, ""));
      query := "";
      showSidePanel := false;
      finalReportContent := "";
      assert State() == Started(old(State()), clockMatches);
      match response {
        case Streamed(chunks) =>
          ReadStream(chunks, parse);
        case Failed(message) =>
          var content := RequestFailedPrefix + message + RequestFailedSuffix;
          error := content;
          currentProgress := None;
          messages := messages + [ChatMessage(ErrorNote, content, false)];
      }
      isLoading := false;
    }

    /** `handleClearChat`: every hook back to its initial value. */
    method HandleClearChat()
      modifies this
      ensures State() == InitialView()
    {
      messages := InitialMessages();
      error := "";
      currentProgress := None;
      isLoading := false;
      query := "";
      showSidePanel := false;
      finalReportContent := "";
    }

    /** `toggleSidePanel`: only the side-panel flag changes, to its negation. */
    method ToggleSidePanel()
      modifies this
      ensures State() == old(State()).(sidePanel := !old(showSidePanel))
    {
      showSidePanel := !showSidePanel;
    }
  }

  /** One step of the read loop keeps the framing invariant: the processed lines, each
      followed by a newline, then the carried rest, are all the text decoded so far. */
  lemma BufferInvariant(processed: seq<string>, buffer: string, chunk: string)
    ensures var lines := Split(buffer + chunk);
            Join(processed + lines[..|lines| - 1] + [lines[|lines| - 1]], "\n")
            == Join(processed + [buffer], "\n") + chunk
  {
    var lines := Split(buffer + chunk);
    SplitJoin(buffer + chunk);
    DropLastRegroup(processed, lines);
    JoinReplaceLast(processed, lines, buffer, chunk);
  }

  /** Putting the last element back after the prefix without it gives the sequence. */
  lemma DropLastRegroup(ps: seq<string>, qs: seq<string>)
    requires |qs| >= 1
    ensures ps + qs[..|qs| - 1] + [qs[|qs| - 1]] == ps + qs
  {
    assert qs[..|qs| - 1] + [qs[|qs| - 1]] == qs;
  }

  /** Lines that join to `buffer + chunk`, after `ps`, join to what `ps` then `buffer`
      joined to, followed by `chunk`. */
  lemma JoinReplaceLast(ps: seq<string>, qs: seq<string>, buffer: string, chunk: string)
    requires |qs| >= 1 && Join(qs, "\n") == buffer + chunk
    ensures Join(ps + qs, "\n") == Join(ps + [buffer], "\n") + chunk
  {
    if |ps| > 0 {
      JoinAppend(ps, qs, "\n");
      JoinAppend(ps, [buffer], "\n");
    } else {
      assert ps + qs == qs;
      assert ps + [buffer] == [buffer];
    }
  }
}
