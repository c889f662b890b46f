/**
 * The fallback of the company-name extractor, used when no rule yields a
 * name: runs of capitalised tokens of `str.split()`, the longest of which
 * wins.
 *
 * A run starts at a token of more than two characters whose first character
 * is upper case. It goes on over at most three more tokens, each upper-case
 * initial and, lower-cased, not a stop word, and ends at the first token that
 * is not. Its tokens are joined with single spaces.
 */
module Fallback {
  import opened Wrappers
  import opened Text
  import opened Ranking

  /**
   * `str.isupper()` on one character, for the ASCII and Latin-1 upper-case
   * letters.
   */
  predicate IsUpper(c: char)
  {
    ('A' <= c <= 'Z') || ('\U{C0}' <= c <= '\U{D6}') || ('\U{D8}' <= c <= '\U{DE}')
  }

  /**
   * `str.lower()` on one character: ASCII and Latin-1 upper-case letters and
   * the Kelvin sign (which lower-cases to `k`); every other character is kept.
   */
  function LowerChar(c: char): (d: char)
    ensures IsUpper(c) ==> d as int == c as int + 32
    ensures !IsUpper(c) && c != '\U{212A}' ==> d == c
  {
    if IsUpper(c) then (c as int + 32) as char
    else if c == '\U{212A}' then 'k'
    else c
  }

  /** An upper-case character has a different lower case, which is not upper-case. */
  lemma UpperHasLowerCase(c: char)
    ensures IsUpper(c) ==> LowerChar(c) != c && !IsUpper(LowerChar(c))
    ensures IsUpper(c) ==> 'A' <= c <= 'Z' || '\U{C0}' <= c <= '\U{DE}'
  {
  }

  /** `str.lower()`, character by character. */
  function Lower(w: string): (l: string)
    ensures |l| == |w| && forall i :: 0 <= i < |w| ==> l[i] == LowerChar(w[i])
  {
    if |w| == 0 then "" else [LowerChar(w[0])] + Lower(w[1..])
  }

  /** The words that do not continue a run, in lower case. */
  const StopWords: seq<string> :=
    ["the", "and", "or", "for", "with", "of", "in", "on", "at", "to", "from", "by", "about",
     "like", "as", "is", "was", "are", "were", "be", "been", "being", "have", "has", "had",
     "do", "does", "did", "will", "would", "could", "should", "may", "might", "can", "must",
     "shall"]

  /** `w` is one of `list`, compared from the front. */
  predicate Among(w: string, list: seq<string>)
  {
    |list| > 0 && (w == list[0] || Among(w, list[1..]))
  }

  /** `Among` is membership. */
  lemma {:induction false} AmongIsIn(w: string, list: seq<string>)
    ensures Among(w, list) <==> w in list
  {
    if |list| > 0 {
      AmongIsIn(w, list[1..]);
      assert list == [list[0]] + list[1..];
    }
  }

  /** A token that can start a run: upper-case initial and longer than two characters. */
  predicate StartsName(w: string)
  {
    |w| > 0 && IsUpper(w[0]) && |w| > 2
  }

  /** A token that can continue a run: upper-case initial and not a stop word. */
  predicate ContinuesName(w: string)
  {
    |w| > 0 && IsUpper(w[0]) && !Among(Lower(w), StopWords)
  }

  /** The first position from `j` on, below `limit`, whose token does not continue the run, or `limit`. */
  function ExtendFrom(words: seq<string>, j: nat, limit: nat): (e: nat)
    requires j <= limit <= |words|
    ensures j <= e <= limit
    ensures forall k :: j <= k < e ==> ContinuesName(words[k])
    ensures e < limit ==> !ContinuesName(words[e])
    decreases limit - j
  {
    if j < limit && ContinuesName(words[j]) then ExtendFrom(words, j + 1, limit) else j
  }

  /** One step of the extension: a token that continues the name is passed over, any other stops it. */
  lemma ExtendFromStep(words: seq<string>, j: nat, limit: nat)
    requires j < limit <= |words| && |words[j]| > 0
    ensures IsUpper(words[j][0]) && !Among(Lower(words[j]), StopWords) ==>
      ExtendFrom(words, j, limit) == ExtendFrom(words, j + 1, limit)
    ensures !(IsUpper(words[j][0]) && !Among(Lower(words[j]), StopWords)) ==> ExtendFrom(words, j, limit) == j
  {
  }

  function Min(a: nat, b: nat): nat
  {
    if a <= b then a else b
  }

  /** The end of the run that starts at `i`: at most three tokens are added. */
  function RunEnd(words: seq<string>, i: nat): (e: nat)
    requires i < |words|
    ensures i < e <= |words| && e <= i + 4
  {
    ExtendFrom(words, i + 1, Min(i + 4, |words|))
  }

  /** The candidate built from the run that starts at `i`. */
  function RunAt(words: seq<string>, i: nat): string
    requires i < |words|
  {
    JoinSpaces(words[i..RunEnd(words, i)])
  }

  /** The candidates of the first `n` tokens, in token order. */
  function CandidatesUpTo(words: seq<string>, n: nat): seq<string>
    requires n <= |words|
  {
    if n == 0 then []
    else CandidatesUpTo(words, n - 1) + (if StartsName(words[n - 1]) then [RunAt(words, n - 1)] else [])
  }

  /** The candidates of a token list, one per token that starts a run. */
  function Candidates(words: seq<string>): seq<string>
  {
    CandidatesUpTo(words, |words|)
  }

  /** The lengths of the candidates, as the keys of `max(..., key=len)`. */
  function Lengths(cs: seq<string>): (keys: seq<real>)
    ensures |keys| == |cs| && forall k :: 0 <= k < |cs| ==> keys[k] == |cs[k]| as real
  {
    if |cs| == 0 then [] else [|cs[0]| as real] + Lengths(cs[1..])
  }

  /** `max(cs, key=len)`: the first of the longest candidates. */
  function Longest(cs: seq<string>): (w: string)
    requires |cs| > 0
    ensures w in cs && forall c :: c in cs ==> |c| <= |w|
  {
    var keys := Lengths(cs);
    var b := FirstMaxIndex(keys);
    assert forall c :: c in cs ==> |c| <= |cs[b]| by {
      forall c | c in cs ensures |c| <= |cs[b]| {
        var k :| 0 <= k < |cs| && cs[k] == c;
        assert keys[k] <= keys[b];
      }
    }
    cs[b]
  }

  /** The fallback result for a text: the longest candidate, or None when there is none. */
  function FallbackName(s: string): (r: Option<string>)
    ensures r.None? <==> |Candidates(Split(s))| == 0
    ensures r.Some? ==> r.value in Candidates(Split(s)) && |r.value| >= 3
    ensures r.Some? ==> forall c :: c in Candidates(Split(s)) ==> |c| <= |r.value|
  {
    var cs := Candidates(Split(s));
    CandidatesAreLong(Split(s));
    if |cs| == 0 then None else Some(Longest(cs))
  }

  /**
   * A run is its start token and the tokens after it up to the first one
   * that does not continue a name, three of them at most.
   */
  lemma RunEndMeaning(words: seq<string>, i: nat)
    requires i < |words|
    ensures var e := RunEnd(words, i);
      (forall k :: i < k < e ==> ContinuesName(words[k]))
      && (e == |words| || e == i + 4 || !ContinuesName(words[e]))
  {
  }

  /** The candidates are exactly the runs at the tokens that can start one. */
  lemma {:induction false} CandidatesAreRuns(words: seq<string>, n: nat)
    requires n <= |words|
    ensures forall c :: c in CandidatesUpTo(words, n) <==>
      exists i :: 0 <= i < n && StartsName(words[i]) && c == RunAt(words, i)
  {
    if n > 0 {
      CandidatesAreRuns(words, n - 1);
    }
  }

  /** A candidate begins with its start token, so it has more than two characters. */
  lemma RunAtStartsWithToken(words: seq<string>, i: nat)
    requires i < |words|
    ensures |RunAt(words, i)| >= |words[i]|
    ensures RunAt(words, i)[..|words[i]|] == words[i]
  {
    assert words[i..RunEnd(words, i)][0] == words[i];
  }

  /** Among the longest candidates, `Longest` is the first: every earlier candidate is strictly shorter. */
  lemma LongestIsFirstLongest(cs: seq<string>)
    requires |cs| > 0
    ensures exists b :: 0 <= b < |cs| && cs[b] == Longest(cs) && forall k :: 0 <= k < b ==> |cs[k]| < |cs[b]|
  {
    var keys := Lengths(cs);
    var b := FirstMaxIndex(keys);
    assert forall k :: 0 <= k < b ==> keys[k] < keys[b];
  }

  /** Every candidate has at least three characters: it begins with its start token. */
  lemma CandidatesAreLong(words: seq<string>)
    ensures forall c :: c in Candidates(words) ==> |c| >= 3
  {
    CandidatesAreRuns(words, |words|);
    forall c | c in Candidates(words) ensures |c| >= 3 {
      var i :| 0 <= i < |words| && StartsName(words[i]) && c == RunAt(words, i);
      RunAtStartsWithToken(words, i);
    }
  }

  /** There are no candidates exactly when no token can start a run. */
  lemma {:induction false} NoCandidatesIffNoStart(words: seq<string>, n: nat)
    requires n <= |words|
    ensures |CandidatesUpTo(words, n)| == 0 <==> forall i :: 0 <= i < n ==> !StartsName(words[i])
  {
    if n > 0 {
      NoCandidatesIffNoStart(words, n - 1);
    }
  }

  /** The fallback finds a name exactly when some token can start a run. */
  lemma FallbackNoneIffNoStart(s: string)
    ensures FallbackName(s).None? <==> forall i :: 0 <= i < |Split(s)| ==> !StartsName(Split(s)[i])
  {
    var words := Split(s);
    NoCandidatesIffNoStart(words, |words|);
    assert FallbackName(s).None? <==> |CandidatesUpTo(words, |words|)| == 0;
    assert |CandidatesUpTo(words, |words|)| == 0 <==> forall i :: 0 <= i < |words| ==> !StartsName(words[i]);
  }

  /** Text that is empty or all whitespace has no fallback name. */
  lemma BlankHasNoFallback(s: string)
    requires forall j :: 0 <= j < |s| ==> IsSpace(s[j])
    ensures FallbackName(s) == None
  {
    SplitEmptyIffBlank(s);
    FallbackNoneIffNoStart(s);
  }
}
