/** `url_scrape`: what happens to the text of a fetched page. The HTTP request and the
    HTML-to-text extraction are opaque; their outcome is a `Fetch`. The text is split into
    lines, each stripped line is split at double spaces, the stripped non-empty phrases
    are joined by single spaces and the result is cut to 5000 characters. Any exception
    becomes a failure string that the research loop later recognises by its prefix. */
module Scrape {
  import opened Strings

  /** Largest number of characters a successful scrape returns. */
  const ScrapeCap: nat := 5000

  const FailurePrefix := "Failed to scrape content from "

  /** Outcome of the request plus `get_text`: the extracted text, or the message of the
      exception raised on the way (network error, bad status, parse error). */
  datatype Fetch = Extracted(text: string) | Raised(reason: string)

  /** Characters at which Python's `str.splitlines()` breaks a line. */
  predicate IsLineBoundary(c: char) {
    c in {'\n', '\r', '\U{0b}', '\U{0c}', '\U{1c}', '\U{1d}', '\U{1e}', '\U{85}', '\U{2028}', '\U{2029}'}
  }

  predicate NoLineBreak(s: string) {
    forall k :: 0 <= k < |s| ==> !IsLineBoundary(s[k])
  }

  /** Single-line text with no double space and no whitespace at either end: what a
      normalised scrape looks like. */
  predicate Clean(s: string) {
    && NoLineBreak(s)
    && NoDoubleSpace(s)
    && (|s| > 0 ==> !IsPySpace(s[0]) && !IsPySpace(s[|s| - 1]))
  }

  // ---------------------------------------------------------------------------
  // Splitting

  /** Index of the first line boundary in `s`, or |s| when there is none. */
  function LineEnd(s: string): (i: nat)
    ensures i <= |s|
    ensures NoLineBreak(s[..i])
    ensures i < |s| ==> IsLineBoundary(s[i])
    decreases |s|
  {
    if |s| == 0 || IsLineBoundary(s[0]) then 0
    else
      var j := LineEnd(s[1..]);
      assert s[..1 + j] == [s[0]] + s[1..][..j];
      1 + j
  }

  /** How many characters the boundary at `s[i]` takes: two for "\r\n", else one. */
  function BreakWidth(s: string, i: nat): (w: nat)
    requires i < |s|
    ensures 1 <= w <= |s| - i
  {
    if s[i] == '\r' && i + 1 < |s| && s[i + 1] == '\n' then 2 else 1
  }

  /** Python's `s.splitlines()`: the pieces between line boundaries, "\r\n" counting as
      one boundary, with no piece after a final boundary. */
  function SplitLines(s: string): (lines: seq<string>)
    ensures forall k :: 0 <= k < |lines| ==> NoLineBreak(lines[k])
    decreases |s|
  {
    if |s| == 0 then []
    else
      var i := LineEnd(s);
      if i == |s| then
        assert s[..i] == s;
        [s]
      else
        var width := BreakWidth(s, i);
        [s[..i]] + SplitLines(s[i + width..])
  }

  /** Index of the first occurrence of two adjacent spaces in `s`, or |s|. */
  function DoubleSpaceAt(s: string): (i: nat)
    ensures i <= |s|
    ensures i < |s| ==> i + 1 < |s| && s[i] == ' ' && s[i + 1] == ' '
    ensures NoDoubleSpace(s[..i])
    decreases |s|
  {
    if |s| < 2 then |s|
    else if s[0] == ' ' && s[1] == ' ' then 0
    else
      var j := DoubleSpaceAt(s[1..]);
      assert s[..1 + j] == [s[0]] + s[1..][..j];
      1 + j
  }

  /** Python's `s.split("  ")`: the pieces between leftmost non-overlapping double spaces. */
  function SplitOnDoubleSpace(s: string): (parts: seq<string>)
    ensures |parts| >= 1
    ensures forall k :: 0 <= k < |parts| ==> NoDoubleSpace(parts[k])
    ensures NoLineBreak(s) ==> forall k :: 0 <= k < |parts| ==> NoLineBreak(parts[k])
    decreases |s|
  {
    var i := DoubleSpaceAt(s);
    if i == |s| then
      assert s[..i] == s;
      [s]
    else
      [s[..i]] + SplitOnDoubleSpace(s[i + 2..])
  }

  // ---------------------------------------------------------------------------
  // The generator pipeline

  /** Each part stripped, in order. */
  function StripEach(parts: seq<string>): (r: seq<string>)
    ensures |r| == |parts| && forall k :: 0 <= k < |r| ==> r[k] == Strip(parts[k])
    decreases |parts|
  {
    if |parts| == 0 then [] else [Strip(parts[0])] + StripEach(parts[1..])
  }

  /** `phrase.strip() for line in lines for phrase in line.split("  ")`, where `lines`
      have already been stripped one by one. */
  function Chunks(lines: seq<string>): seq<string>
    decreases |lines|
  {
    if |lines| == 0 then []
    else StripEach(SplitOnDoubleSpace(Strip(lines[0]))) + Chunks(lines[1..])
  }

  /** `chunk for chunk in chunks if chunk`. */
  function NonEmpty(chunks: seq<string>): (r: seq<string>)
    ensures forall k :: 0 <= k < |r| ==> |r[k]| > 0
    decreases |chunks|
  {
    if |chunks| == 0 then []
    else if |chunks[0]| == 0 then NonEmpty(chunks[1..])
    else [chunks[0]] + NonEmpty(chunks[1..])
  }

  /** The text `url_scrape` builds from the page text before capping it. The result is
      one clean line, and normalisation changes only white space: every other character
      of the page text survives, in order, and nothing else is added. */
  function Normalize(text: string): (r: string)
    ensures Clean(r)
    ensures Squeeze(r) == Squeeze(text)
    ensures Words(r) == Words(text)
  {
    var lines := SplitLines(text);
    var chunks := Chunks(lines);
    NormalizeWords(text);
    ChunksClean(lines);
    NonEmptyKeeps(chunks);
    JoinClean(NonEmpty(chunks));
    SqueezeJoin(NonEmpty(chunks), " ");
    NonEmptyConcat(chunks);
    SqueezeChunks(lines);
    SplitLinesConcat(text);
    SqueezeUnbroken(text);
    Join(NonEmpty(chunks), " ")
  }

  /** `text[:5000] if len(text) > 5000 else text`. */
  function Truncate(text: string): (r: string)
    ensures |r| <= ScrapeCap && |r| <= |text| && r == text[..|r|]
    ensures |text| <= ScrapeCap ==> r == text
  {
    if |text| > ScrapeCap then text[..ScrapeCap] else text
  }

  /** `url_scrape(url)`, given what the request and extraction produced. A successful
      scrape is at most 5000 characters, a prefix of the normalised text, all of it when
      that fits, and keeps the normalised shape; a failed one is the failure message,
      which starts with the marker the research loop tests. */
  function UrlScrape(url: string, fetch: Fetch): (r: string)
    ensures fetch.Extracted? ==>
              var full := Normalize(fetch.text);
              && |r| <= ScrapeCap && |r| <= |full| && r == full[..|r|]
              && (|full| <= ScrapeCap ==> r == full)
              && NoLineBreak(r) && NoDoubleSpace(r)
    ensures fetch.Raised? ==>
              && r == "Failed to scrape content from " + url + ": " + fetch.reason
              && StartsWith(r, "Failed to scrape content")
  {
    match fetch
    case Extracted(text) =>
      var full := Normalize(text);
      SliceKeepsShape(full, 0, |Truncate(full)|);
      Truncate(full)
    case Raised(reason) =>
      var failure := FailurePrefix + url + ": " + reason;
      assert failure[..24] == "Failed to scrape content";
      failure
  }

  // ---------------------------------------------------------------------------
  // Properties

  lemma SliceKeepsShape(s: string, lo: nat, hi: nat)
    requires lo <= hi <= |s|
    ensures NoLineBreak(s) ==> NoLineBreak(s[lo..hi])
    ensures NoDoubleSpace(s) ==> NoDoubleSpace(s[lo..hi])
  {
    if NoDoubleSpace(s) {
      forall k | 0 < k < hi - lo ensures !(s[lo..hi][k - 1] == ' ' && s[lo..hi][k] == ' ') {
        assert s[lo..hi][k - 1] == s[lo + k - 1] && s[lo..hi][k] == s[lo + k];
      }
    }
  }

  lemma StripKeepsShape(s: string)
    ensures NoLineBreak(s) ==> NoLineBreak(Strip(s))
    ensures NoDoubleSpace(s) ==> NoDoubleSpace(Strip(s))
  {
    StripIsSlice(s);
    var lo := |s| - |StripLeft(s)|;
    SliceKeepsShape(s, lo, lo + |Strip(s)|);
  }

  /** Every chunk is single-line, free of double spaces and stripped at both ends. */
  lemma {:induction false} ChunksClean(lines: seq<string>)
    requires forall k :: 0 <= k < |lines| ==> NoLineBreak(lines[k])
    ensures forall k :: 0 <= k < |Chunks(lines)| ==> Clean(Chunks(lines)[k])
    decreases |lines|
  {
    if |lines| > 0 {
      ChunksClean(lines[1..]);
      var line := Strip(lines[0]);
      StripKeepsShape(lines[0]);
      var parts := SplitOnDoubleSpace(line);
      var head := StripEach(parts);
      forall k | 0 <= k < |head| ensures Clean(head[k]) {
        StripKeepsShape(parts[k]);
      }
    }
  }

  lemma {:induction false} NonEmptyKeeps(chunks: seq<string>)
    requires forall k :: 0 <= k < |chunks| ==> Clean(chunks[k])
    ensures forall k :: 0 <= k < |NonEmpty(chunks)| ==> Clean(NonEmpty(chunks)[k])
    decreases |chunks|
  {
    if |chunks| > 0 {
      NonEmptyKeeps(chunks[1..]);
    }
  }

  /** Gluing two clean non-empty pieces with one space gives a clean string. */
  lemma GlueClean(a: string, b: string)
    requires Clean(a) && Clean(b) && |a| > 0 && |b| > 0
    ensures Clean(a + " " + b)
  {
    var s := a + " " + b;
    forall k | 0 < k < |s| ensures !(s[k - 1] == ' ' && s[k] == ' ') {
      if k < |a| {
        assert s[k - 1] == a[k - 1] && s[k] == a[k];
      } else if k == |a| {
        assert s[k - 1] == a[|a| - 1];
      } else if k == |a| + 1 {
        assert s[k] == b[0];
      } else {
        assert s[k - 1] == b[k - 1 - |a| - 1] && s[k] == b[k - |a| - 1];
      }
    }
  }

  lemma {:induction false} JoinClean(parts: seq<string>)
    requires forall k :: 0 <= k < |parts| ==> |parts[k]| > 0 && Clean(parts[k])
    ensures Clean(Join(parts, " "))
    ensures |parts| > 0 ==> |Join(parts, " ")| > 0
    decreases |parts|
  {
    if |parts| > 1 {
      JoinClean(parts[1..]);
      GlueClean(parts[0], Join(parts[1..], " "));
    }
  }

  /** Normalising twice changes nothing: a normalised text is one line, one phrase,
      already stripped. */
  lemma NormalizeIdempotent(text: string)
    ensures Normalize(Normalize(text)) == Normalize(text)
  {
    var n := Normalize(text);
    if |n| > 0 {
      assert LineEnd(n) == |n|;
      assert SplitLines(n) == [n];
      StripClean(n);
      assert DoubleSpaceAt(n) == |n|;
      assert SplitOnDoubleSpace(n) == [n];
      assert StripEach([n]) == [n];
      assert Chunks([n]) == [n] + Chunks([]);
      assert NonEmpty([n]) == [n] + NonEmpty([]);
    }
  }

  // ---------------------------------------------------------------------------
  // What the pipeline keeps

  /** `s` without its line-boundary characters. */
  function Unbroken(s: string): (r: string)
    ensures |r| <= |s|
    decreases |s|
  {
    if |s| == 0 then ""
    else (if IsLineBoundary(s[0]) then "" else [s[0]]) + Unbroken(s[1..])
  }

  lemma {:induction false} UnbrokenAppend(a: string, b: string)
    ensures Unbroken(a + b) == Unbroken(a) + Unbroken(b)
    decreases |a|
  {
    if |a| > 0 {
      assert (a + b)[1..] == a[1..] + b;
      UnbrokenAppend(a[1..], b);
    } else {
      assert a + b == b;
    }
  }

  lemma {:induction false} UnbrokenPlain(s: string)
    requires NoLineBreak(s)
    ensures Unbroken(s) == s
    decreases |s|
  {
    if |s| > 0 {
      UnbrokenPlain(s[1..]);
    }
  }

  lemma {:induction false} UnbrokenGone(brk: string)
    requires forall k :: 0 <= k < |brk| ==> IsLineBoundary(brk[k])
    ensures Unbroken(brk) == ""
    decreases |brk|
  {
    if |brk| > 0 {
      UnbrokenGone(brk[1..]);
    }
  }

  lemma UnbrokenAcross(line: string, brk: string, rest: string)
    requires NoLineBreak(line)
    requires forall k :: 0 <= k < |brk| ==> IsLineBoundary(brk[k])
    ensures Unbroken(line + brk + rest) == line + Unbroken(rest)
  {
    var head := line + brk;
    UnbrokenAppend(head, rest);
    UnbrokenAppend(line, brk);
    UnbrokenPlain(line);
    UnbrokenGone(brk);
    assert Unbroken(head) == line;
  }

  /** The lines of `splitlines()`, put back together, are the text without its line
      breaks: no character other than a line boundary is lost, moved or added. */
  lemma {:induction false} SplitLinesConcat(s: string)
    ensures Concat(SplitLines(s)) == Unbroken(s)
    decreases |s|
  {
    if |s| > 0 {
      var i := LineEnd(s);
      if i == |s| {
        assert s[..i] == s;
        UnbrokenPlain(s);
        assert Concat([s]) == Concat([]) + s;
      } else {
        var width := BreakWidth(s, i);
        var rest := s[i + width..];
        var brk := s[i..i + width];
        assert forall k :: 0 <= k < |brk| ==> IsLineBoundary(brk[k]);
        assert s == s[..i] + brk + rest;
        UnbrokenAcross(s[..i], brk, rest);
        SplitLinesConcat(rest);
        ConcatCons(s[..i], SplitLines(rest));
      }
    }
  }

  /** `s.split("  ")` loses nothing: joining the pieces with a double space gives back `s`. */
  lemma {:induction false} SplitOnDoubleSpaceJoin(s: string)
    ensures Join(SplitOnDoubleSpace(s), "  ") == s
    decreases |s|
  {
    var i := DoubleSpaceAt(s);
    if i < |s| {
      var rest := s[i + 2..];
      SplitOnDoubleSpaceUnfold(s, i);
      SplitOnDoubleSpaceJoin(rest);
      ThreeSlices(s, i, i + 2);
      assert s[i..i + 2] == "  ";
    } else {
      assert s[..i] == s;
    }
  }

  /** One step of `SplitOnDoubleSpace` when the text holds a double space. */
  lemma SplitOnDoubleSpaceUnfold(s: string, i: nat)
    requires i == DoubleSpaceAt(s) < |s|
    ensures SplitOnDoubleSpace(s) == [s[..i]] + SplitOnDoubleSpace(s[i + 2..])
  {
  }

  /** A chunk is kept exactly when it is not empty. */
  lemma {:induction false} NonEmptyMembers(chunks: seq<string>, x: string)
    ensures x in NonEmpty(chunks) <==> x in chunks && |x| > 0
    decreases |chunks|
  {
    if |chunks| > 0 {
      NonEmptyMembers(chunks[1..], x);
      assert chunks == [chunks[0]] + chunks[1..];
    }
  }

  /** Dropping the empty chunks keeps their concatenation. */
  lemma {:induction false} NonEmptyConcat(chunks: seq<string>)
    ensures Concat(NonEmpty(chunks)) == Concat(chunks)
    decreases |chunks|
  {
    if |chunks| > 0 {
      NonEmptyConcat(chunks[1..]);
      ConcatHead(chunks);
      if |chunks[0]| > 0 {
        ConcatCons(chunks[0], NonEmpty(chunks[1..]));
      }
    }
  }

  lemma {:induction false} SqueezeUnbroken(s: string)
    ensures Squeeze(Unbroken(s)) == Squeeze(s)
    decreases |s|
  {
    if |s| > 0 {
      SqueezeUnbroken(s[1..]);
      SqueezeAppend(if IsLineBoundary(s[0]) then "" else [s[0]], Unbroken(s[1..]));
    }
  }

  lemma SqueezeGlue(first: string, rest: seq<string>)
    ensures Squeeze(Concat([first] + rest)) == Squeeze(first) + Squeeze(Concat(rest))
  {
    ConcatCons(first, rest);
    SqueezeAppend(first, Concat(rest));
  }

  lemma SqueezeHead(parts: seq<string>)
    requires |parts| > 0
    ensures Squeeze(Concat(parts)) == Squeeze(parts[0]) + Squeeze(Concat(parts[1..]))
  {
    ConcatHead(parts);
    SqueezeAppend(parts[0], Concat(parts[1..]));
  }

  /** Joining with a separator made of white space keeps the non-white text of the parts. */
  lemma {:induction false} SqueezeJoin(parts: seq<string>, sep: string)
    requires Squeeze(sep) == ""
    ensures Squeeze(Join(parts, sep)) == Squeeze(Concat(parts))
    decreases |parts|
  {
    if |parts| == 1 {
      assert parts[..0] == [];
      assert Concat(parts) == Concat(parts[..0]) + parts[0] == parts[0];
      assert Join(parts, sep) == parts[0];
    } else if |parts| > 1 {
      SqueezeJoin(parts[1..], sep);
      SqueezeHead(parts);
      SqueezeAppend(parts[0] + sep, Join(parts[1..], sep));
      SqueezeAppend(parts[0], sep);
    }
  }

  lemma {:induction false} SqueezeStripEach(parts: seq<string>)
    ensures Squeeze(Concat(StripEach(parts))) == Squeeze(Concat(parts))
    decreases |parts|
  {
    if |parts| > 0 {
      SqueezeStripEach(parts[1..]);
      SqueezeHead(parts);
      SqueezeGlue(Strip(parts[0]), StripEach(parts[1..]));
      SqueezeStrip(parts[0]);
    }
  }

  /** The phrase pipeline keeps the non-white text of the lines. */
  lemma {:induction false} SqueezeChunks(lines: seq<string>)
    ensures Squeeze(Concat(Chunks(lines))) == Squeeze(Concat(lines))
    decreases |lines|
  {
    if |lines| > 0 {
      var line := lines[0];
      var head := StripEach(SplitOnDoubleSpace(Strip(line)));
      SqueezeChunks(lines[1..]);
      ConcatAppend(head, Chunks(lines[1..]));
      SqueezeAppend(Concat(head), Concat(Chunks(lines[1..])));
      SqueezeLineChunks(line);
      SqueezeHead(lines);
    }
  }

  /** The phrases of one line keep its non-white text. */
  lemma SqueezeLineChunks(line: string)
    ensures Squeeze(Concat(StripEach(SplitOnDoubleSpace(Strip(line))))) == Squeeze(line)
  {
    var phrases := SplitOnDoubleSpace(Strip(line));
    SqueezeStripEach(phrases);
    SqueezeJoin(phrases, "  ");
    SplitOnDoubleSpaceJoin(Strip(line));
    SqueezeStrip(line);
  }

  // ---------------------------------------------------------------------------
  // Words

  /** The pieces of `s` between single white-space characters, empty pieces included. */
  function Fields(s: string): (r: seq<string>)
    ensures |r| >= 1
    decreases |s|
  {
    if |s| == 0 then [""]
    else if IsPySpace(s[0]) then [""] + Fields(s[1..])
    else
      var rest := Fields(s[1..]);
      [[s[0]] + rest[0]] + rest[1..]
  }

  /** Python's `s.split()`: the maximal runs of non-white characters, in order. */
  function Words(s: string): (r: seq<string>)
    ensures forall k :: 0 <= k < |r| ==> |r[k]| > 0
  {
    NonEmpty(Fields(s))
  }

  /** The words of each part, one list after the other. */
  function WordsAll(parts: seq<string>): seq<string>
    decreases |parts|
  {
    if |parts| == 0 then [] else Words(parts[0]) + WordsAll(parts[1..])
  }

  predicate AllSpace(s: string) {
    forall k :: 0 <= k < |s| ==> IsPySpace(s[k])
  }

  /** The two separators the pipeline uses are white space. */
  lemma SeparatorsAreSpace()
    ensures AllSpace(" ") && AllSpace("  ")
  {
    assert IsPySpace(' ');
    var one, two := " ", "  ";
    assert forall k :: 0 <= k < |one| ==> one[k] == ' ';
    assert forall k :: 0 <= k < |two| ==> two[k] == ' ';
  }

  lemma {:induction false} NonEmptyAppend(a: seq<string>, b: seq<string>)
    ensures NonEmpty(a + b) == NonEmpty(a) + NonEmpty(b)
    decreases |a|
  {
    if |a| > 0 {
      assert (a + b)[1..] == a[1..] + b;
      NonEmptyAppend(a[1..], b);
    } else {
      assert a + b == b;
    }
  }

  /** A white-space character starts a new field. */
  lemma FieldsConsSpace(x: char, rest: string)
    requires IsPySpace(x)
    ensures Fields([x] + rest) == [""] + Fields(rest)
  {
    assert ([x] + rest)[0] == x && ([x] + rest)[1..] == rest;
  }

  /** Any other character joins the first field of what follows it. */
  lemma FieldsConsWord(x: char, rest: string)
    requires !IsPySpace(x)
    ensures Fields([x] + rest) == [[x] + Fields(rest)[0]] + Fields(rest)[1..]
  {
    assert ([x] + rest)[0] == x && ([x] + rest)[1..] == rest;
  }

  /** A white-space character splits the fields of what surrounds it. */
  lemma {:induction false} FieldsGlue(a: string, c: char, b: string)
    requires IsPySpace(c)
    ensures Fields(a + [c] + b) == Fields(a) + Fields(b)
    decreases |a|
  {
    if |a| == 0 {
      assert a + [c] + b == [c] + b;
      FieldsConsSpace(c, b);
    } else {
      var x, rest := a[0], a[1..];
      var tail := rest + [c] + b;
      SplitFirst(a, c, b);
      FieldsGlue(rest, c, b);
      var fa, fb := Fields(rest), Fields(b);
      if IsPySpace(x) {
        FieldsConsSpace(x, tail);
        FieldsConsSpace(x, rest);
        AppendAssoc([""], fa, fb);
      } else {
        FieldsConsWord(x, tail);
        FieldsConsWord(x, rest);
        GlueHead(fa, fb);
        AppendAssoc([[x] + fa[0]], fa[1..], fb);
      }
    }
  }

  lemma SplitFirst(a: string, c: char, b: string)
    requires |a| > 0
    ensures a == [a[0]] + a[1..] && a + [c] + b == [a[0]] + (a[1..] + [c] + b)
  {
  }

  lemma GlueHead(fa: seq<string>, fb: seq<string>)
    requires |fa| > 0
    ensures (fa + fb)[0] == fa[0] && (fa + fb)[1..] == fa[1..] + fb
  {
  }

  lemma WordsGlue(a: string, c: char, b: string)
    requires IsPySpace(c)
    ensures Words(a + [c] + b) == Words(a) + Words(b)
  {
    FieldsGlue(a, c, b);
    NonEmptyAppend(Fields(a), Fields(b));
  }

  /** Leading white space does not change the words. */
  lemma {:induction false} WordsAfterSpace(p: string, x: string)
    requires AllSpace(p)
    ensures Words(p + x) == Words(x)
    decreases |p|
  {
    if |p| > 0 {
      var s := p + x;
      assert s[0] == p[0] && s[1..] == p[1..] + x;
      assert Fields(s) == [""] + Fields(s[1..]);
      WordsAfterSpace(p[1..], x);
    } else {
      assert p + x == x;
    }
  }

  /** Trailing white space does not change the words. */
  lemma WordsBeforeSpace(x: string, p: string)
    requires AllSpace(p)
    ensures Words(x + p) == Words(x)
  {
    if |p| > 0 {
      assert x + p == x + [p[0]] + p[1..];
      WordsGlue(x, p[0], p[1..]);
      WordsAfterSpace(p[1..], "");
      assert p[1..] + "" == p[1..];
      assert Words("") == [];
      assert Words(x) + [] == Words(x);
    } else {
      assert x + p == x;
    }
  }

  /** `str.strip()` does not change the words. */
  lemma WordsStrip(s: string)
    ensures Words(Strip(s)) == Words(s)
  {
    StripIsSlice(s);
    StripRemovesSpace(s);
    var lo := |s| - |StripLeft(s)|;
    var hi := lo + |Strip(s)|;
    ThreeSlices(s, lo, hi);
    assert AllSpace(s[..lo]) && AllSpace(s[hi..]);
    WordsOfPadded(s[..lo], Strip(s), s[hi..]);
  }

  lemma ThreeSlices(s: string, lo: nat, hi: nat)
    requires lo <= hi <= |s|
    ensures s == s[..lo] + s[lo..hi] + s[hi..]
  {
  }

  lemma WordsOfPadded(head: string, t: string, tail: string)
    requires AllSpace(head) && AllSpace(tail)
    ensures Words(head + t + tail) == Words(t)
  {
    assert head + t + tail == head + (t + tail);
    WordsAfterSpace(head, t + tail);
    WordsBeforeSpace(t, tail);
  }

  /** Joining with a non-empty white-space separator gives the words of the parts. */
  lemma {:induction false} WordsJoin(parts: seq<string>, sep: string)
    requires |sep| > 0 && AllSpace(sep)
    ensures Words(Join(parts, sep)) == WordsAll(parts)
    decreases |parts|
  {
    if |parts| == 0 {
      assert Words("") == [];
    } else if |parts| == 1 {
      assert WordsAll(parts) == Words(parts[0]) + WordsAll([]);
    } else {
      var rest := Join(parts[1..], sep);
      WordsJoin(parts[1..], sep);
      assert parts[0] + sep + rest == parts[0] + [sep[0]] + (sep[1..] + rest);
      WordsGlue(parts[0], sep[0], sep[1..] + rest);
      WordsAfterSpace(sep[1..], rest);
    }
  }

  lemma {:induction false} WordsAllAppend(a: seq<string>, b: seq<string>)
    ensures WordsAll(a + b) == WordsAll(a) + WordsAll(b)
    decreases |a|
  {
    if |a| > 0 {
      assert (a + b)[1..] == a[1..] + b;
      WordsAllAppend(a[1..], b);
    } else {
      assert a + b == b;
    }
  }

  lemma {:induction false} WordsAllStripEach(parts: seq<string>)
    ensures WordsAll(StripEach(parts)) == WordsAll(parts)
    decreases |parts|
  {
    if |parts| > 0 {
      WordsAllStripEach(parts[1..]);
      WordsStrip(parts[0]);
    }
  }

  lemma {:induction false} WordsAllNonEmpty(chunks: seq<string>)
    ensures WordsAll(NonEmpty(chunks)) == WordsAll(chunks)
    decreases |chunks|
  {
    if |chunks| > 0 {
      WordsAllNonEmpty(chunks[1..]);
      if |chunks[0]| == 0 {
        assert Fields(chunks[0]) == [""];
      }
    }
  }

  /** The phrases of one line have the words of the line. */
  lemma WordsLineChunks(line: string)
    ensures WordsAll(StripEach(SplitOnDoubleSpace(Strip(line)))) == Words(line)
  {
    var t := Strip(line);
    var phrases := SplitOnDoubleSpace(t);
    WordsAllStripEach(phrases);
    SeparatorsAreSpace();
    WordsJoin(phrases, "  ");
    SplitOnDoubleSpaceJoin(t);
    assert WordsAll(phrases) == Words(t);
    WordsStrip(line);
  }

  lemma {:induction false} WordsChunks(lines: seq<string>)
    ensures WordsAll(Chunks(lines)) == WordsAll(lines)
    decreases |lines|
  {
    if |lines| > 0 {
      WordsChunks(lines[1..]);
      WordsAllAppend(StripEach(SplitOnDoubleSpace(Strip(lines[0]))), Chunks(lines[1..]));
      WordsLineChunks(lines[0]);
    }
  }

  lemma WordsAcrossBreak(line: string, brk: string, rest: string)
    requires |brk| > 0 && forall k :: 0 <= k < |brk| ==> IsLineBoundary(brk[k])
    ensures Words(line + brk + rest) == Words(line) + Words(rest)
  {
    var more := brk[1..];
    assert line + brk + rest == line + [brk[0]] + (more + rest);
    assert AllSpace(more) by {
      forall k | 0 <= k < |more| ensures IsPySpace(more[k]) {
        BoundaryIsSpace(brk[k + 1]);
      }
    }
    BoundaryIsSpace(brk[0]);
    WordsGlue(line, brk[0], more + rest);
    WordsAfterSpace(more, rest);
  }

  lemma BoundaryIsSpace(c: char)
    requires IsLineBoundary(c)
    ensures IsPySpace(c)
  {
  }

  /** Line boundaries are white space, so `splitlines()` keeps the words. */
  lemma {:induction false} WordsSplitLines(s: string)
    ensures WordsAll(SplitLines(s)) == Words(s)
    decreases |s|
  {
    if |s| == 0 {
      assert Words("") == [];
    } else {
      var i := LineEnd(s);
      if i == |s| {
        assert s[..i] == s;
        assert WordsAll([s]) == Words(s) + WordsAll([]);
      } else {
        var width := BreakWidth(s, i);
        var rest := s[i + width..];
        var brk := s[i..i + width];
        assert forall k :: 0 <= k < |brk| ==> IsLineBoundary(brk[k]);
        assert s == s[..i] + brk + rest;
        WordsAcrossBreak(s[..i], brk, rest);
        WordsSplitLines(rest);
      }
    }
  }

  /** Normalisation keeps the words of the page text, in order. */
  lemma NormalizeWords(text: string)
    ensures var chunks := Chunks(SplitLines(text));
            Words(Join(NonEmpty(chunks), " ")) == Words(text)
  {
    var lines := SplitLines(text);
    var chunks := Chunks(lines);
    SeparatorsAreSpace();
    WordsJoin(NonEmpty(chunks), " ");
    WordsAllNonEmpty(chunks);
    WordsChunks(lines);
    WordsSplitLines(text);
  }

  // ---------------------------------------------------------------------------
  // Where `splitlines()` cuts

  /** One line boundary as `splitlines()` consumes it: "\r\n", or a single boundary
      character. */
  predicate IsBreak(b: string) {
    b == "\r\n" || (|b| == 1 && IsLineBoundary(b[0]))
  }

  /** The boundary that ends each line of `SplitLines(s)`: "" after a last line that
      runs to the end of the text. */
  function LineBreaks(s: string): seq<string>
    decreases |s|
  {
    if |s| == 0 then []
    else
      var i := LineEnd(s);
      if i == |s| then [""]
      else
        var width := BreakWidth(s, i);
        [s[i..i + width]] + LineBreaks(s[i + width..])
  }

  /** Each line followed by its boundary, all in order. */
  function Rejoin(lines: seq<string>, breaks: seq<string>): string
    decreases |lines|
  {
    if |lines| == 0 || |breaks| == 0 then "" else lines[0] + breaks[0] + Rejoin(lines[1..], breaks[1..])
  }

  /** There is one boundary per line. */
  lemma {:induction false} LineBreaksLength(s: string)
    ensures |LineBreaks(s)| == |SplitLines(s)|
    decreases |s|
  {
    if |s| > 0 && LineEnd(s) < |s| {
      var i := LineEnd(s);
      var w := BreakWidth(s, i);
      SplitLinesUnfold(s, i, w);
      LineBreaksUnfold(s, i, w);
      LineBreaksLength(s[i + w..]);
    }
  }

  /** One step of `SplitLines` when the text holds a boundary. */
  lemma SplitLinesUnfold(s: string, i: nat, w: nat)
    requires i == LineEnd(s) < |s| && w == BreakWidth(s, i)
    ensures SplitLines(s) == [s[..i]] + SplitLines(s[i + w..])
  {
  }

  /** One step of `LineBreaks` when the text holds a boundary. */
  lemma LineBreaksUnfold(s: string, i: nat, w: nat)
    requires i == LineEnd(s) < |s| && w == BreakWidth(s, i)
    ensures LineBreaks(s) == [s[i..i + w]] + LineBreaks(s[i + w..])
  {
  }

  /** The boundary `SplitLines` cuts at is one boundary, and a lone "\r" is not
      followed by "\n". */
  lemma BreakShape(s: string, i: nat, w: nat)
    requires i < |s| && IsLineBoundary(s[i]) && w == BreakWidth(s, i)
    ensures IsBreak(s[i..i + w])
    ensures s[i..i + w] == "\r" ==> i + 1 == |s| || s[i + 1] != '\n'
  {
    if w == 1 {
      assert s[i..i + 1] == [s[i]];
    } else {
      assert s[i..i + 2] == [s[i], s[i + 1]];
    }
  }

  lemma RejoinCons(line: string, brk: string, lines: seq<string>, breaks: seq<string>)
    ensures Rejoin([line] + lines, [brk] + breaks) == line + brk + Rejoin(lines, breaks)
  {
    assert ([line] + lines)[1..] == lines && ([brk] + breaks)[1..] == breaks;
  }

  /** `splitlines()` cuts exactly at the line boundaries: the lines, each followed by the
      boundary that ended it, are the text. */
  lemma {:induction false} SplitLinesRejoin(s: string)
    ensures Rejoin(SplitLines(s), LineBreaks(s)) == s
    decreases |s|
  {
    if |s| > 0 {
      var i := LineEnd(s);
      if i == |s| {
        assert s[..i] == s;
        RejoinCons(s, "", [], []);
      } else {
        var w := BreakWidth(s, i);
        var rest := s[i + w..];
        SplitLinesUnfold(s, i, w);
        LineBreaksUnfold(s, i, w);
        ThreeSlices(s, i, i + w);
        SplitLinesRejoin(rest);
        RejoinCons(s[..i], s[i..i + w], SplitLines(rest), LineBreaks(rest));
      }
    }
  }

  /** Every boundary but the last is one boundary ("\r\n" counting as one); the last is
      one too unless the last line runs to the end of the text, and that line is then
      not empty. */
  predicate BreaksShaped(lines: seq<string>, breaks: seq<string>)
    requires |lines| == |breaks|
  {
    && (forall k :: 0 <= k < |breaks| - 1 ==> IsBreak(breaks[k]))
    && (|breaks| > 0 ==> IsBreak(breaks[|breaks| - 1])
                         || (breaks[|breaks| - 1] == "" && |lines[|lines| - 1]| > 0))
  }

  /** `splitlines()` cuts at every boundary and only there: each line but the last ends
      at one boundary, and the last ends at one or at the end of the text. */
  lemma {:induction false} SplitLinesBreaks(s: string)
    ensures |LineBreaks(s)| == |SplitLines(s)|
    ensures BreaksShaped(SplitLines(s), LineBreaks(s))
    decreases |s|
  {
    LineBreaksLength(s);
    if |s| > 0 {
      var i := LineEnd(s);
      if i == |s| {
        assert s[..i] == s;
      } else {
        var w := BreakWidth(s, i);
        var rest := s[i + w..];
        SplitLinesUnfold(s, i, w);
        LineBreaksUnfold(s, i, w);
        BreakShape(s, i, w);
        SplitLinesBreaks(rest);
        BreaksCons(s[..i], s[i..i + w], SplitLines(rest), LineBreaks(rest));
      }
    }
  }

  lemma BreaksCons(line: string, brk: string, lines: seq<string>, breaks: seq<string>)
    requires |lines| == |breaks| && IsBreak(brk) && BreaksShaped(lines, breaks)
    ensures BreaksShaped([line] + lines, [brk] + breaks)
  {
    var ls, bs := [line] + lines, [brk] + breaks;
    forall k | 0 <= k < |bs| - 1 ensures IsBreak(bs[k]) {
      if k > 0 {
        assert bs[k] == breaks[k - 1];
      }
    }
    if |breaks| > 0 {
      assert bs[|bs| - 1] == breaks[|breaks| - 1] && ls[|ls| - 1] == lines[|lines| - 1];
    }
  }

  /** No lone "\r" boundary is followed by an empty line ended by a boundary that starts
      with "\n": such a "\r" would have been cut as "\r\n". */
  predicate NoSplitPair(lines: seq<string>, breaks: seq<string>)
    requires |lines| == |breaks|
  {
    forall k :: 0 <= k < |breaks| - 1 && breaks[k] == "\r" ==>
      !(|lines[k + 1]| == 0 && |breaks[k + 1]| > 0 && breaks[k + 1][0] == '\n')
  }

  /** A lone "\r" is a boundary only when no "\n" follows it. */
  lemma {:induction false} LoneReturn(s: string)
    ensures |LineBreaks(s)| == |SplitLines(s)|
    ensures NoSplitPair(SplitLines(s), LineBreaks(s))
    decreases |s|
  {
    LineBreaksLength(s);
    if |s| > 0 {
      var i := LineEnd(s);
      if i < |s| {
        var w := BreakWidth(s, i);
        var rest := s[i + w..];
        SplitLinesUnfold(s, i, w);
        LineBreaksUnfold(s, i, w);
        BreakShape(s, i, w);
        LoneReturn(rest);
        if |rest| > 0 && |SplitLines(rest)[0]| == 0 {
          NextBreak(rest);
        }
        LoneReturnCons(s[..i], s[i..i + w], SplitLines(rest), LineBreaks(rest),
                       if |rest| > 0 then rest[0] else 'x');
      }
    }
  }

  /** When the first line of a non-empty text is empty, its boundary starts with the
      text's first character. */
  lemma NextBreak(s: string)
    requires |s| > 0 && |SplitLines(s)[0]| == 0
    ensures |LineBreaks(s)[0]| > 0 && LineBreaks(s)[0][0] == s[0]
  {
    var i := LineEnd(s);
    var w := BreakWidth(s, i);
    SplitLinesUnfold(s, i, w);
    LineBreaksUnfold(s, i, w);
    assert s[..i] == SplitLines(s)[0];
  }

  lemma LoneReturnCons(line: string, brk: string, lines: seq<string>, breaks: seq<string>, first: char)
    requires |lines| == |breaks| && NoSplitPair(lines, breaks)
    requires brk == "\r" && |lines| > 0 && |lines[0]| == 0 && |breaks[0]| > 0 ==>
               breaks[0][0] == first && first != '\n'
    ensures NoSplitPair([line] + lines, [brk] + breaks)
  {
    var ls, bs := [line] + lines, [brk] + breaks;
    forall k | 0 <= k < |bs| - 1 && bs[k] == "\r"
      ensures !(|ls[k + 1]| == 0 && |bs[k + 1]| > 0 && bs[k + 1][0] == '\n')
    {
      assert ls[k + 1] == lines[k] && bs[k + 1] == breaks[k];
      if k > 0 {
        assert bs[k] == breaks[k - 1];
      }
    }
  }
}
