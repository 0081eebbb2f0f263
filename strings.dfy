/** String helpers shared by the model: prefix and substring search, joining,
    decimal rendering of counters, and Python's `str.strip()`. */
module Strings {
  import opened Wrappers

  /** Python's `s.startswith(prefix)`. */
  predicate StartsWith(s: string, prefix: string) {
    |prefix| <= |s| && s[..|prefix|] == prefix
  }

  /** Index of the first occurrence of `pattern` in `s` (Python's `s.find(pattern)`,
      with `None` for -1). */
  function Find(s: string, pattern: string): (r: Option<nat>)
    ensures r.Some? ==> r.value + |pattern| <= |s| && s[r.value..r.value + |pattern|] == pattern
    ensures r.Some? && r.value == 0 ==> StartsWith(s, pattern)
    ensures r.Some? ==> forall i :: 0 <= i < r.value ==> !StartsWith(s[i..], pattern)
    ensures r.None? ==> forall i :: 0 <= i <= |s| ==> !StartsWith(s[i..], pattern)
    decreases |s|
  {
    if |s| < |pattern| then None
    else if s[..|pattern|] == pattern then Some(0)
    else
      var rest := Find(s[1..], pattern);
      if rest.Some? then
        NoEarlierMatch(s, pattern, rest.value);
        Some(rest.value + 1)
      else
        NoEarlierMatch(s, pattern, |s|);
        None
  }

  /** No match at the head and none in the first `bound` positions of `s[1..]` means none
      in the first `bound + 1` positions of `s`. */
  lemma NoEarlierMatch(s: string, pattern: string, bound: nat)
    requires |s| > 0 && !StartsWith(s, pattern) && bound <= |s|
    requires forall i :: 0 <= i < bound ==> !StartsWith(s[1..][i..], pattern)
    ensures forall i :: 0 <= i < bound + 1 ==> !StartsWith(s[i..], pattern)
  {
    forall i | 0 < i < bound + 1 ensures !StartsWith(s[i..], pattern) {
      assert s[i..] == s[1..][i - 1..];
    }
  }

  /** Python's `sep.join(parts)`. */
  function Join(parts: seq<string>, sep: string): string
    decreases |parts|
  {
    if |parts| == 0 then ""
    else if |parts| == 1 then parts[0]
    else parts[0] + sep + Join(parts[1..], sep)
  }

  /** The concatenation of all parts, in order. */
  function Concat(parts: seq<string>): string
    decreases |parts|
  {
    if |parts| == 0 then "" else Concat(parts[..|parts| - 1]) + parts[|parts| - 1]
  }

  lemma ConcatSnoc(parts: seq<string>, last: string)
    ensures Concat(parts + [last]) == Concat(parts) + last
  {
    assert (parts + [last])[..|parts|] == parts;
  }

  lemma {:induction false} ConcatAppend(a: seq<string>, b: seq<string>)
    ensures Concat(a + b) == Concat(a) + Concat(b)
    decreases |b|
  {
    if |b| == 0 {
      assert a + b == a;
    } else {
      var init, last := b[..|b| - 1], b[|b| - 1];
      var ab := a + b;
      assert ab[..|ab| - 1] == a + init;
      assert ab[|ab| - 1] == last;
      ConcatAppend(a, init);
      calc {
        Concat(ab);
        Concat(a + init) + last;
        Concat(a) + Concat(init) + last;
      }
    }
  }

  /** Concatenation is associative. */
  lemma AppendAssoc<T>(a: seq<T>, b: seq<T>, c: seq<T>)
    ensures a + (b + c) == a + b + c
  {
  }

  lemma ConcatCons(first: string, rest: seq<string>)
    ensures Concat([first] + rest) == first + Concat(rest)
  {
    ConcatAppend([first], rest);
    assert Concat([first]) == Concat([]) + first;
  }

  lemma ConcatHead(parts: seq<string>)
    requires |parts| > 0
    ensures Concat(parts) == parts[0] + Concat(parts[1..])
  {
    assert parts == [parts[0]] + parts[1..];
    ConcatCons(parts[0], parts[1..]);
  }

  // ---------------------------------------------------------------------------
  // Decimal rendering, as an f-string or a template literal prints an integer.

  predicate IsDigit(c: char) { '0' <= c <= '9' }

  function DigitChar(d: nat): (c: char)
    requires d < 10
    ensures IsDigit(c) && c as int - '0' as int == d
  {
    ('0' as int + d) as char
  }

  function DigitValue(c: char): nat
    requires IsDigit(c)
  {
    c as int - '0' as int
  }

  function NatToString(n: nat): (r: string)
    ensures |r| > 0
    ensures forall k :: 0 <= k < |r| ==> IsDigit(r[k])
    decreases n
  {
    if n < 10 then [DigitChar(n)] else NatToString(n / 10) + [DigitChar(n % 10)]
  }

  /** The number a string of decimal digits denotes. */
  function DecimalValue(s: string): nat
    requires forall k :: 0 <= k < |s| ==> IsDigit(s[k])
    decreases |s|
  {
    if |s| == 0 then 0
    else 10 * DecimalValue(s[..|s| - 1]) + DigitValue(s[|s| - 1])
  }

  /** The rendered counter reads back as the counter: "Determined 3 research loops."
      and "2/3" carry the numbers they were built from. */
  lemma {:induction false} NatToStringRoundTrip(n: nat)
    ensures DecimalValue(NatToString(n)) == n
    decreases n
  {
    var r := NatToString(n);
    if n >= 10 {
      NatToStringRoundTrip(n / 10);
      assert r[..|r| - 1] == NatToString(n / 10);
    }
  }

  // ---------------------------------------------------------------------------
  // Python's `str.strip()` with no argument: the characters `str.isspace()` accepts.

  predicate IsPySpace(c: char) {
    || c in {' ', '\t', '\n', '\r', '\U{0b}', '\U{0c}', '\U{1c}', '\U{1d}', '\U{1e}', '\U{1f}'}
    || c in {'\U{85}', '\U{a0}', '\U{1680}', '\U{2028}', '\U{2029}', '\U{202f}', '\U{205f}', '\U{3000}'}
    || ('\U{2000}' <= c <= '\U{200a}')
  }

  function StripLeft(s: string): (r: string)
    ensures |r| <= |s| && r == s[|s| - |r|..]
    ensures |r| > 0 ==> !IsPySpace(r[0])
    ensures |s| > 0 && !IsPySpace(s[0]) ==> r == s
    decreases |s|
  {
    if |s| > 0 && IsPySpace(s[0]) then StripLeft(s[1..]) else s
  }

  function StripRight(s: string): (r: string)
    ensures |r| <= |s| && r == s[..|r|]
    ensures |r| > 0 ==> !IsPySpace(r[|r| - 1])
    ensures |s| > 0 && !IsPySpace(s[|s| - 1]) ==> r == s
    decreases |s|
  {
    if |s| > 0 && IsPySpace(s[|s| - 1]) then StripRight(s[..|s| - 1]) else s
  }

  /** Python's `s.strip()`: `s` without its leading and trailing whitespace. */
  function Strip(s: string): (r: string)
    ensures |r| > 0 ==> !IsPySpace(r[0]) && !IsPySpace(r[|r| - 1])
  {
    StripRight(StripLeft(s))
  }

  /** What `Strip` returns is a contiguous piece of its argument. */
  lemma StripIsSlice(s: string)
    ensures var lo := |s| - |StripLeft(s)|; lo + |Strip(s)| <= |s| && Strip(s) == s[lo..lo + |Strip(s)|]
  {
    var l := StripLeft(s);
    assert Strip(s) == l[..|Strip(s)|];
  }

  /** `lstrip` cuts off white space only. */
  lemma {:induction false} StripLeftCut(s: string)
    ensures forall k :: 0 <= k < |s| - |StripLeft(s)| ==> IsPySpace(s[k])
    decreases |s|
  {
    if |s| > 0 && IsPySpace(s[0]) {
      StripLeftCut(s[1..]);
      forall k | 1 <= k < |s| - |StripLeft(s)| ensures IsPySpace(s[k]) {
        assert s[k] == s[1..][k - 1];
      }
    }
  }

  /** `rstrip` cuts off white space only. */
  lemma {:induction false} StripRightCut(s: string)
    ensures forall k :: |StripRight(s)| <= k < |s| ==> IsPySpace(s[k])
    decreases |s|
  {
    if |s| > 0 && IsPySpace(s[|s| - 1]) {
      StripRightCut(s[..|s| - 1]);
    }
  }

  /** What `Strip` removes, at either end, is white space. */
  lemma StripRemovesSpace(s: string)
    ensures var lo := |s| - |StripLeft(s)|;
            && (forall k :: 0 <= k < lo ==> IsPySpace(s[k]))
            && (forall k :: lo + |Strip(s)| <= k < |s| ==> IsPySpace(s[k]))
  {
    var l := StripLeft(s);
    var lo := |s| - |l|;
    StripLeftCut(s);
    StripRightCut(l);
    forall k | lo + |Strip(s)| <= k < |s| ensures IsPySpace(s[k]) {
      assert s[k] == l[k - lo];
    }
  }

  /** A string with no whitespace at either end is its own strip. */
  lemma StripClean(s: string)
    requires |s| > 0 ==> !IsPySpace(s[0]) && !IsPySpace(s[|s| - 1])
    ensures Strip(s) == s
  {
  }

  /** No two adjacent spaces anywhere in `s`. */
  predicate NoDoubleSpace(s: string) {
    forall k :: 0 < k < |s| ==> !(s[k - 1] == ' ' && s[k] == ' ')
  }

  // ---------------------------------------------------------------------------
  // The text without its white space, to say what an operation on white space keeps.

  /** `s` with every character `str.isspace()` accepts removed. */
  function Squeeze(s: string): (r: string)
    ensures |r| <= |s|
    decreases |s|
  {
    if |s| == 0 then ""
    else (if IsPySpace(s[0]) then "" else [s[0]]) + Squeeze(s[1..])
  }

  lemma {:induction false} SqueezeAppend(a: string, b: string)
    ensures Squeeze(a + b) == Squeeze(a) + Squeeze(b)
    decreases |a|
  {
    if |a| > 0 {
      assert (a + b)[1..] == a[1..] + b;
      SqueezeAppend(a[1..], b);
    } else {
      assert a + b == b;
    }
  }

  lemma {:induction false} SqueezeStripLeft(s: string)
    ensures Squeeze(StripLeft(s)) == Squeeze(s)
    decreases |s|
  {
    if |s| > 0 && IsPySpace(s[0]) {
      SqueezeStripLeft(s[1..]);
    }
  }

  lemma {:induction false} SqueezeStripRight(s: string)
    ensures Squeeze(StripRight(s)) == Squeeze(s)
    decreases |s|
  {
    if |s| > 0 && IsPySpace(s[|s| - 1]) {
      var init := s[..|s| - 1];
      SqueezeStripRight(init);
      assert s == init + [s[|s| - 1]];
      SqueezeAppend(init, [s[|s| - 1]]);
    }
  }

  /** Stripping only removes white space. */
  lemma SqueezeStrip(s: string)
    ensures Squeeze(Strip(s)) == Squeeze(s)
  {
    SqueezeStripLeft(s);
    SqueezeStripRight(StripLeft(s));
  }
}
