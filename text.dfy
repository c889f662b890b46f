/**
 * Character classes and the three Python string primitives the company-name
 * extractor relies on: `str.strip()`, `str.split()` with no argument, and
 * `' '.join(...)`.
 *
 * Whitespace is Python's `str.isspace` set, which is also what `\s` means in
 * a `str` pattern and what `strip()` and `split()` remove. Letters are the
 * characters that `[A-Z]` / `[a-zA-Z]` accept under `re.IGNORECASE`: the
 * ASCII letters and the four non-ASCII letters whose simple case mapping
 * lands on an ASCII letter.
 */
module Text {

  /**
   * Python's `str.isspace()` for one character: tab to carriage return,
   * U+001C to space, U+0085, U+00A0, U+1680, U+2000 to U+200A, U+2028,
   * U+2029, U+202F, U+205F and U+3000.
   */
  predicate IsSpace(c: char)
  {
    ('\U{9}' <= c <= '\U{D}') || ('\U{1C}' <= c <= '\U{20}')
    || c == '\U{85}' || c == '\U{A0}' || c == '\U{1680}'
    || ('\U{2000}' <= c <= '\U{200A}') || c == '\U{2028}' || c == '\U{2029}'
    || c == '\U{202F}' || c == '\U{205F}' || c == '\U{3000}'
  }

  /**
   * The characters `[A-Z]` and `[a-zA-Z]` match case-insensitively: ASCII
   * letters, U+0130 (dotted capital I), U+0131 (dotless small i),
   * U+017F (long s) and U+212A (Kelvin sign).
   */
  predicate IsPatternLetter(c: char)
  {
    ('A' <= c <= 'Z') || ('a' <= c <= 'z')
    || c == '\U{130}' || c == '\U{131}' || c == '\U{17F}' || c == '\U{212A}'
  }

  /** The class `[a-zA-Z\s&\-'\.]` of the extractor's capture group, under `re.IGNORECASE`. */
  predicate IsNameChar(c: char)
  {
    IsPatternLetter(c) || IsSpace(c) || c == '&' || c == '-' || c == '\'' || c == '.'
  }

  /**
   * Input character `d` matches the pattern character `c` (written in lower
   * case, as all keywords of the extractor are) under `re.IGNORECASE`.
   */
  predicate FoldsTo(d: char, c: char)
  {
    d == c
    || ('a' <= c <= 'z' && d as int == c as int - 32)
    || (c == 'i' && (d == '\U{130}' || d == '\U{131}'))
    || (c == 's' && d == '\U{17F}')
    || (c == 'k' && d == '\U{212A}')
  }

  /** `s` holds `word` at position `p`, compared case-insensitively. */
  predicate MatchesAt(s: string, p: nat, word: string)
  {
    p + |word| <= |s| && forall i :: 0 <= i < |word| ==> FoldsTo(s[p + i], word[i])
  }

  /** `s` neither starts nor ends with whitespace. */
  predicate NoEdgeSpace(s: string)
  {
    |s| > 0 ==> !IsSpace(s[0]) && !IsSpace(s[|s| - 1])
  }

  /** The first position at or after `i` that is not whitespace, or `|s|`. */
  function SkipSpaces(s: string, i: nat): (a: nat)
    requires i <= |s|
    ensures i <= a <= |s|
    ensures forall j :: i <= j < a ==> IsSpace(s[j])
    ensures a < |s| ==> !IsSpace(s[a])
    decreases |s| - i
  {
    if i < |s| && IsSpace(s[i]) then SkipSpaces(s, i + 1) else i
  }

  /** The position just after the last non-whitespace character at or after `i`, or `i`. */
  function TrailingStart(s: string, i: nat): (b: nat)
    requires i <= |s|
    ensures i <= b <= |s|
    ensures forall j :: b <= j < |s| ==> IsSpace(s[j])
    ensures b > i ==> !IsSpace(s[b - 1])
    decreases |s| - i
  {
    if i == |s| then i
    else if IsSpace(s[|s| - 1]) then TrailingStart(s[..|s| - 1], i)
    else |s|
  }

  /** `r` is `s` with whitespace removed only at its two ends, and none left there. */
  ghost predicate IsStripOf(r: string, s: string)
  {
    NoEdgeSpace(r)
    && exists a, b :: 0 <= a <= b <= |s| && s[a..b] == r
         && (forall j :: 0 <= j < a ==> IsSpace(s[j]))
         && (forall j :: b <= j < |s| ==> IsSpace(s[j]))
  }

  /** Python's `str.strip()` with no argument. */
  function Strip(s: string): (r: string)
    ensures IsStripOf(r, s)
  {
    var a := SkipSpaces(s, 0);
    var b := TrailingStart(s, a);
    assert b > a ==> !IsSpace(s[a..b][0]);
    s[a..b]
  }

  /** Stripping twice strips nothing more. */
  lemma StripIdempotent(s: string)
    ensures Strip(Strip(s)) == Strip(s)
  {
    var r := Strip(s);
    if |r| > 0 {
      assert SkipSpaces(r, 0) == 0;
      assert TrailingStart(r, 0) == |r|;
    }
  }

  /** Text with no whitespace at either end is its own strip. */
  lemma StripNoEdgeSpace(s: string)
    requires NoEdgeSpace(s)
    ensures Strip(s) == s
  {
    if |s| > 0 {
      assert SkipSpaces(s, 0) == 0;
      assert TrailingStart(s, 0) == |s|;
    }
  }

  /** Text that starts with a non-space keeps its first character through `strip()`. */
  lemma StripKeepsStart(s: string)
    requires |s| > 0 && !IsSpace(s[0])
    ensures |Strip(s)| > 0 && Strip(s) == s[..|Strip(s)|]
  {
    assert SkipSpaces(s, 0) == 0;
  }

  /** A token `split()` can produce: non-empty and free of whitespace. */
  predicate IsWord(w: string)
  {
    |w| > 0 && forall i :: 0 <= i < |w| ==> !IsSpace(w[i])
  }

  /** Length of the leading run of non-whitespace characters. */
  function WordLength(s: string): (n: nat)
    ensures n <= |s|
    ensures forall i :: 0 <= i < n ==> !IsSpace(s[i])
    ensures n < |s| ==> IsSpace(s[n])
  {
    if |s| > 0 && !IsSpace(s[0]) then 1 + WordLength(s[1..]) else 0
  }

  /** Python's `str.split()` with no argument: the maximal runs of non-whitespace. */
  function Split(s: string): (words: seq<string>)
    ensures forall k :: 0 <= k < |words| ==> IsWord(words[k])
  {
    if |s| == 0 then []
    else if IsSpace(s[0]) then Split(s[1..])
    else
      var n := WordLength(s);
      [s[..n]] + Split(s[n..])
  }

  /** `split()` finds no token exactly when the text is all whitespace. */
  lemma {:induction false} SplitEmptyIffBlank(s: string)
    ensures |Split(s)| == 0 <==> forall j :: 0 <= j < |s| ==> IsSpace(s[j])
  {
    if |s| > 0 && IsSpace(s[0]) {
      SplitEmptyIffBlank(s[1..]);
      assert forall j :: 1 <= j < |s| ==> s[j] == s[1..][j - 1];
    }
  }

  /** The total number of characters of `words`. */
  function TotalLength(words: seq<string>): nat
  {
    if |words| == 0 then 0 else |words[0]| + TotalLength(words[1..])
  }

  /** `' '.join(words)`: the words in order with exactly one space between neighbours. */
  function JoinSpaces(words: seq<string>): (r: string)
    ensures |words| > 0 ==> |r| >= |words[0]| && r[..|words[0]|] == words[0]
    ensures |words| > 0 ==> |r| == TotalLength(words) + |words| - 1
  {
    if |words| == 0 then ""
    else if |words| == 1 then words[0]
    else words[0] + " " + JoinSpaces(words[1..])
  }

  /** Splitting text made by joining words with single spaces gives the words back. */
  lemma {:induction false} SplitJoinSpaces(words: seq<string>)
    requires forall k :: 0 <= k < |words| ==> IsWord(words[k])
    ensures Split(JoinSpaces(words)) == words
  {
    if |words| > 0 {
      var w, s := words[0], JoinSpaces(words);
      var rest := if |words| == 1 then "" else " " + JoinSpaces(words[1..]);
      assert s == w + rest;
      WordLengthOfWord(w, rest);
      assert s[..|w|] == w && s[|w|..] == rest;
      if |words| > 1 {
        assert rest[1..] == JoinSpaces(words[1..]);
        SplitJoinSpaces(words[1..]);
        assert [w] + words[1..] == words;
      }
    }
  }

  /** A word followed by whitespace or by nothing is the leading run of its text. */
  lemma {:induction false} WordLengthOfWord(w: string, rest: string)
    requires IsWord(w)
    requires |rest| > 0 ==> IsSpace(rest[0])
    ensures WordLength(w + rest) == |w|
    decreases |w|
  {
    assert (w + rest)[0] == w[0];
    if |w| > 1 {
      assert (w + rest)[1..] == w[1..] + rest;
      WordLengthOfWord(w[1..], rest);
    } else {
      assert (w + rest)[1..] == rest;
    }
  }
}
