/**
 * The eight regular expressions of the company-name extractor, written out
 * as data and run by a small matcher that follows Python's `re.search` with
 * `re.IGNORECASE`: the leftmost start position wins, and at one start the
 * alternatives are tried in backtracking order.
 *
 * Every rule has the shape `<before> ([A-Z][a-zA-Z\s&\-'\.]+?) <after>`: a
 * prefix, a capture group that is a letter followed lazily by one or more
 * characters of the name class, and a suffix. The prefix yields the possible
 * group starts in the order the regex engine tries them; the lazy group then
 * takes the shortest extension after which the suffix matches.
 *
 * `\s+` is run greedily to the end of the whitespace run and never shortened:
 * in all eight rules the element that follows a `\s+` (a keyword, an optional
 * keyword or the capture group) must begin with a letter, so a shorter run
 * could never lead to a match.
 */
module Patterns {
  import opened Wrappers
  import opened Text

  /** One element of a rule outside the capture group. */
  datatype Step =
    | Keyword(alternatives: seq<string>)  // `(?:a|b|...)`, tried in order
    | Spaces                              // `\s+`
    | Optional(word: string)              // `(?:word\s+)?`, greedy
    | Terminator                          // `(?:\?|$|\s|,)`

  /** A rule: the steps before the group, and the alternatives of the suffix after it. */
  datatype Rule = Rule(before: seq<Step>, after: seq<seq<Step>>)

  /** The three positions of one match: where the search started, and the group's bounds. */
  datatype Span = Span(start: nat, groupStart: nat, groupEnd: nat)

  /** End positions of the alternatives that match at `p`, in order. */
  function KeywordEnds(alternatives: seq<string>, s: string, p: nat): (ends: seq<nat>)
  {
    if |alternatives| == 0 then []
    else
      (if MatchesAt(s, p, alternatives[0]) then [p + |alternatives[0]|] else [])
      + KeywordEnds(alternatives[1..], s, p)
  }

  /** End positions of `step` started at `p`, in the order the regex engine tries them. */
  function StepEnds(step: Step, s: string, p: nat): (ends: seq<nat>)
  {
    match step
    case Keyword(alternatives) => KeywordEnds(alternatives, s, p)
    case Spaces => if p < |s| && IsSpace(s[p]) then [SkipSpaces(s, p)] else []
    case Optional(word) =>
      var q := p + |word|;
      (if MatchesAt(s, p, word) && q < |s| && IsSpace(s[q]) then [SkipSpaces(s, q)] else []) + [p]
    case Terminator =>
      if p == |s| then [p]
      else if p < |s| && (s[p] == '?' || s[p] == ',' || IsSpace(s[p])) then [p + 1]
      else []
  }

  /** End positions of the step sequence started at `p`, in backtracking order. */
  function RunSteps(steps: seq<Step>, s: string, p: nat): (ends: seq<nat>)
    decreases |steps|, 0
  {
    if |steps| == 0 then [p] else RunEach(steps[1..], s, StepEnds(steps[0], s, p))
  }

  /** `RunSteps` from each of `starts` in turn, concatenated. */
  function RunEach(steps: seq<Step>, s: string, starts: seq<nat>): (ends: seq<nat>)
    decreases |steps|, 1, |starts|
  {
    if |starts| == 0 then []
    else RunSteps(steps, s, starts[0]) + RunEach(steps, s, starts[1..])
  }

  /** Some alternative of the suffix matches at `e`. */
  predicate SuffixAt(after: seq<seq<Step>>, s: string, e: nat)
  {
    |after| > 0 && (|RunSteps(after[0], s, e)| > 0 || SuffixAt(after[1..], s, e))
  }

  /**
   * `s[g..e]` is what the group captures when it starts at `g`: a letter, then
   * name characters, ending at the first position after which the suffix
   * matches.
   */
  ghost predicate IsCapture(r: Rule, s: string, g: nat, e: nat)
  {
    g + 2 <= e <= |s| && IsPatternLetter(s[g])
    && (forall j :: g < j < e ==> IsNameChar(s[j]))
    && SuffixAt(r.after, s, e)
    && forall m :: g + 2 <= m < e ==> !SuffixAt(r.after, s, m)
  }

  /** The positions at which the rule's suffix matches. */
  function SuffixOf(r: Rule, s: string): nat -> bool
  {
    (e: nat) => SuffixAt(r.after, s, e)
  }

  /**
   * The lazy `+?` loop: the characters before `j` are already taken, one more
   * name character is taken at `j`, then `suffix` is tried.
   */
  function LazyEnd(suffix: nat -> bool, s: string, j: nat): (e: Option<nat>)
    requires j <= |s|
    ensures e.Some? ==> j < e.value <= |s|
    decreases |s| - j
  {
    if j < |s| && IsNameChar(s[j]) then
      if suffix(j + 1) then Some(j + 1) else LazyEnd(suffix, s, j + 1)
    else None
  }

  /**
   * The lazy loop stops at the first position after `j` where the suffix
   * matches, provided name characters reach it, and fails when no such
   * position exists.
   */
  lemma {:induction false} LazyEndMeaning(suffix: nat -> bool, s: string, j: nat)
    requires j <= |s|
    ensures LazyEnd(suffix, s, j).Some? ==>
      var e := LazyEnd(suffix, s, j).value;
      suffix(e)
      && (forall k :: j <= k < e ==> IsNameChar(s[k]))
      && forall m :: j < m < e ==> !suffix(m)
    ensures LazyEnd(suffix, s, j).None? ==>
      forall m :: j < m <= |s| && (forall k :: j <= k < m ==> IsNameChar(s[k])) ==> !suffix(m)
    decreases |s| - j
  {
    if j < |s| && IsNameChar(s[j]) {
      if !suffix(j + 1) {
        LazyEndMeaning(suffix, s, j + 1);
        assert LazyEnd(suffix, s, j) == LazyEnd(suffix, s, j + 1);
      } else {
        assert LazyEnd(suffix, s, j) == Some(j + 1);
      }
    } else {
      assert LazyEnd(suffix, s, j) == None;
    }
  }

  /** The end of the capture when the group starts at `g`, if any. */
  function CaptureAt(r: Rule, s: string, g: nat): (e: Option<nat>)
    ensures e.Some? ==> g + 2 <= e.value <= |s|
  {
    if g < |s| && IsPatternLetter(s[g]) then LazyEnd(SuffixOf(r, s), s, g + 1) else None
  }

  /** `CaptureAt` finds exactly the capture that `IsCapture` describes. */
  lemma CaptureAtMeaning(r: Rule, s: string, g: nat)
    ensures CaptureAt(r, s, g).Some? ==> IsCapture(r, s, g, CaptureAt(r, s, g).value)
    ensures CaptureAt(r, s, g).None? ==> forall m :: !IsCapture(r, s, g, m)
  {
    if g < |s| && IsPatternLetter(s[g]) {
      var suffix := SuffixOf(r, s);
      LazyEndMeaning(suffix, s, g + 1);
      assert forall m :: suffix(m) == SuffixAt(r.after, s, m);
    }
  }

  /** The capture function of a rule on a text. */
  function Captures(r: Rule, s: string): nat -> Option<nat>
  {
    (g: nat) => CaptureAt(r, s, g)
  }

  /** The group starts of a rule on a text, for each search start. */
  function GroupStarts(r: Rule, s: string): nat -> seq<nat>
  {
    (p: nat) => RunSteps(r.before, s, p)
  }

  // Leftmost search, stated once for any group-start and capture functions.

  /** `capture` fails at every start of the list. */
  predicate NoneAmong(capture: nat -> Option<nat>, starts: seq<nat>)
  {
    forall k :: 0 <= k < |starts| ==> capture(starts[k]).None?
  }

  /** `g` is the first start of the list at which `capture` succeeds, and it ends at `e`. */
  predicate IsFirstSome(capture: nat -> Option<nat>, starts: seq<nat>, g: nat, e: nat)
  {
    capture(g) == Some(e)
    && exists k :: 0 <= k < |starts| && starts[k] == g && NoneAmong(capture, starts[..k])
  }

  /** The first start of the list at which `capture` succeeds, with the end it gives. */
  function FirstSome(capture: nat -> Option<nat>, starts: seq<nat>): (c: Option<(nat, nat)>)
    ensures c.Some? ==> IsFirstSome(capture, starts, c.value.0, c.value.1)
    ensures c.None? ==> NoneAmong(capture, starts)
  {
    if |starts| == 0 then None
    else
      match capture(starts[0])
      case Some(e) =>
        assert starts[..0] == [];
        Some((starts[0], e))
      case None =>
        var c := FirstSome(capture, starts[1..]);
        assert c.Some? ==> forall k :: 0 <= k < |starts| - 1 ==> starts[1..][..k] == starts[1..k + 1];
        c
  }

  /** Search started at `p`: the first start at or after `p`, up to `n`, with a capture. */
  function Leftmost(starts: nat -> seq<nat>, capture: nat -> Option<nat>, n: nat, p: nat): Option<Span>
    requires p <= n
    decreases n - p
  {
    match FirstSome(capture, starts(p))
    case Some((g, e)) => Some(Span(p, g, e))
    case None => if p == n then None else Leftmost(starts, capture, n, p + 1)
  }

  /** The search finds nothing exactly when no start from `p` to `n` has a capture. */
  lemma {:induction false} LeftmostNone(starts: nat -> seq<nat>, capture: nat -> Option<nat>, n: nat, p: nat)
    requires p <= n
    ensures Leftmost(starts, capture, n, p).None? <==> forall q :: p <= q <= n ==> NoneAmong(capture, starts(q))
    decreases n - p
  {
    var c := FirstSome(capture, starts(p));
    if c.Some? {
      var k :| 0 <= k < |starts(p)| && starts(p)[k] == c.value.0 && NoneAmong(capture, starts(p)[..k]);
      assert capture(starts(p)[k]).Some?;
      assert !NoneAmong(capture, starts(p));
      assert Leftmost(starts, capture, n, p) == Some(Span(p, c.value.0, c.value.1));
    } else if p < n {
      LeftmostNone(starts, capture, n, p + 1);
      assert Leftmost(starts, capture, n, p) == Leftmost(starts, capture, n, p + 1);
      if Leftmost(starts, capture, n, p + 1).None? {
        forall q | p <= q <= n ensures NoneAmong(capture, starts(q)) {
          if q > p {
            assert p + 1 <= q <= n;
          }
        }
      }
    } else {
      assert Leftmost(starts, capture, n, p) == None;
    }
  }

  /**
   * A match found from `p` is at the leftmost start with a capture, and takes
   * the first group start of that position that has one.
   */
  lemma {:induction false} LeftmostFirst(starts: nat -> seq<nat>, capture: nat -> Option<nat>, n: nat, p: nat)
    requires p <= n && Leftmost(starts, capture, n, p).Some?
    ensures var m := Leftmost(starts, capture, n, p).value;
      p <= m.start <= n
      && IsFirstSome(capture, starts(m.start), m.groupStart, m.groupEnd)
      && forall q :: p <= q < m.start ==> NoneAmong(capture, starts(q))
    decreases n - p
  {
    var c := FirstSome(capture, starts(p));
    if c.None? {
      assert p < n && Leftmost(starts, capture, n, p) == Leftmost(starts, capture, n, p + 1);
      LeftmostFirst(starts, capture, n, p + 1);
      var m := Leftmost(starts, capture, n, p + 1).value;
      forall q | p <= q < m.start ensures NoneAmong(capture, starts(q)) {
        if q > p {
          assert p + 1 <= q < m.start;
        }
      }
    } else {
      assert Leftmost(starts, capture, n, p) == Some(Span(p, c.value.0, c.value.1));
    }
  }

  /** Search starts without any group start are skipped. */
  lemma {:induction false} LeftmostSkips(starts: nat -> seq<nat>, capture: nat -> Option<nat>, n: nat, p: nat, q: nat)
    requires p <= q <= n
    requires forall t :: p <= t < q ==> starts(t) == []
    ensures Leftmost(starts, capture, n, p) == Leftmost(starts, capture, n, q)
    decreases q - p
  {
    if p < q {
      assert starts(p) == [];
      assert FirstSome(capture, []) == None;
      assert Leftmost(starts, capture, n, p) == Leftmost(starts, capture, n, p + 1);
      LeftmostSkips(starts, capture, n, p + 1, q);
    }
  }

  // The search of one rule.

  /** The regex matches with its search started at `p`: some group start there has a capture. */
  predicate MatchesFrom(r: Rule, s: string, p: nat)
  {
    p <= |s| && !NoneAmong(Captures(r, s), GroupStarts(r, s)(p))
  }

  /** `re.search` from position `p` on. */
  function SearchFrom(r: Rule, s: string, p: nat): Option<Span>
    requires p <= |s|
  {
    Leftmost(GroupStarts(r, s), Captures(r, s), |s|, p)
  }

  /** The search from `p` finds nothing exactly when the regex matches from no start at or after `p`. */
  lemma SearchFromNone(r: Rule, s: string, p: nat)
    requires p <= |s|
    ensures SearchFrom(r, s, p).None? <==> forall q :: p <= q <= |s| ==> !MatchesFrom(r, s, q)
  {
    var starts, capture := GroupStarts(r, s), Captures(r, s);
    LeftmostNone(starts, capture, |s|, p);
    assert SearchFrom(r, s, p) == Leftmost(starts, capture, |s|, p);
    forall q | p <= q <= |s| ensures MatchesFrom(r, s, q) <==> !NoneAmong(capture, starts(q)) {}
  }

  /**
   * A match found from `p` is at the leftmost start from which the regex
   * matches, and takes the first group start, in backtracking order, that has
   * a capture.
   */
  lemma SearchFromLeftmost(r: Rule, s: string, p: nat)
    requires p <= |s| && SearchFrom(r, s, p).Some?
    ensures var m := SearchFrom(r, s, p).value;
      p <= m.start <= |s|
      && IsFirstSome(Captures(r, s), RunSteps(r.before, s, m.start), m.groupStart, m.groupEnd)
      && CaptureAt(r, s, m.groupStart) == Some(m.groupEnd)
      && forall q :: p <= q < m.start ==> !MatchesFrom(r, s, q)
  {
    var starts := GroupStarts(r, s);
    LeftmostFirst(starts, Captures(r, s), |s|, p);
    assert forall q :: starts(q) == RunSteps(r.before, s, q);
  }

  /** Search starts where the prefix cannot match are skipped. */
  lemma SearchSkipsDeadStarts(r: Rule, s: string, p: nat, q: nat)
    requires p <= q <= |s|
    requires forall t :: p <= t < q ==> RunSteps(r.before, s, t) == []
    ensures SearchFrom(r, s, p) == SearchFrom(r, s, q)
  {
    var starts := GroupStarts(r, s);
    assert forall t :: starts(t) == RunSteps(r.before, s, t);
    LeftmostSkips(starts, Captures(r, s), |s|, p, q);
  }

  /** `re.search(pattern, s, re.IGNORECASE).group(1)`, or None when nothing matches. */
  function Search(r: Rule, s: string): (c: Option<string>)
    ensures c.Some? ==> |c.value| >= 2 && IsPatternLetter(c.value[0])
    ensures c.Some? ==> forall i :: 0 <= i < |c.value| ==> IsNameChar(c.value[i])
  {
    match SearchFrom(r, s, 0)
    case Some(m) =>
      FoundSpanShape(r, s);
      Some(s[m.groupStart..m.groupEnd])
    case None => None
  }

  /** The group of the leftmost match is a letter followed by at least one name character. */
  lemma FoundSpanShape(r: Rule, s: string)
    requires SearchFrom(r, s, 0).Some?
    ensures var m := SearchFrom(r, s, 0).value;
      m.groupStart + 2 <= m.groupEnd <= |s| && IsPatternLetter(s[m.groupStart])
      && forall j :: m.groupStart <= j < m.groupEnd ==> IsNameChar(s[j])
  {
    var m := SearchFrom(r, s, 0).value;
    SearchFromLeftmost(r, s, 0);
    CaptureAtMeaning(r, s, m.groupStart);
  }

  /** `re.search` finds nothing exactly when the regex matches from no start position. */
  lemma SearchNoneIffNoMatch(r: Rule, s: string)
    ensures Search(r, s).None? <==> forall q :: 0 <= q <= |s| ==> !MatchesFrom(r, s, q)
  {
    SearchFromNone(r, s, 0);
  }

  /** A rule captures something only in text that has a letter. */
  lemma SearchNeedsLetter(r: Rule, s: string)
    ensures Search(r, s).Some? ==> exists j :: 0 <= j < |s| && IsPatternLetter(s[j])
  {
    if SearchFrom(r, s, 0).Some? {
      SearchFromLeftmost(r, s, 0);
      var g := SearchFrom(r, s, 0).value.groupStart;
      assert g < |s| && IsPatternLetter(s[g]);
    }
  }

  // The eight rules, in the order the extractor tries them.

  /** `of\s+(group)(?:\?|$|\s|,)` */
  const OfRule: Rule := Rule([Keyword(["of"]), Spaces], [[Terminator]])

  /** `with\s+(group)(?:\?|$|\s|,)` */
  const WithRule: Rule := Rule([Keyword(["with"]), Spaces], [[Terminator]])

  /** `for\s+(group)(?:\?|$|\s|,)` */
  const ForRule: Rule := Rule([Keyword(["for"]), Spaces], [[Terminator]])

  /** `(group)'s` */
  const PossessiveRule: Rule := Rule([], [[Keyword(["'s"])]])

  /** `(group)\s+(?:status|funding|contact)` */
  const TopicRule: Rule := Rule([], [[Spaces, Keyword(["status", "funding", "contact"])]])

  /** `(?:what|when|how|show|tell)\s+(?:is|was|did|does)\s+(?:the\s+)?(?:status|funding|contact)\s+(?:of\s+)?(group)(?:\?|$|\s|,)` */
  const QuestionRule: Rule :=
    Rule([Keyword(["what", "when", "how", "show", "tell"]), Spaces,
          Keyword(["is", "was", "did", "does"]), Spaces,
          Optional("the"), Keyword(["status", "funding", "contact"]), Spaces,
          Optional("of")],
         [[Terminator]])

  /** The suffix `\s+(?:last|most\s+recent)`. */
  const RecencySuffix: seq<seq<Step>> :=
    [[Spaces, Keyword(["last"])], [Spaces, Keyword(["most"]), Spaces, Keyword(["recent"])]]

  /** `(?:when\s+)?(?:did|was)\s+(group)\s+(?:last|most\s+recent)` */
  const AuxiliaryRule: Rule := Rule([Optional("when"), Keyword(["did", "was"]), Spaces], RecencySuffix)

  /** `(group)\s+(?:last|most\s+recent)` */
  const RecencyRule: Rule := Rule([], RecencySuffix)

  const Rules: seq<Rule> :=
    [OfRule, WithRule, ForRule, PossessiveRule, TopicRule, QuestionRule, AuxiliaryRule, RecencyRule]

  /** Eight rules; those ending in the terminator are the `of`, `with`, `for` and question rules. */
  lemma RuleList()
    ensures |Rules| == 8
    ensures forall k :: 0 <= k < |Rules| ==> (EndsWithTerminator(Rules[k]) <==> k == 0 || k == 1 || k == 2 || k == 5)
    ensures forall k :: 0 <= k < |Rules| ==> |Rules[k].after| > 0
  {
  }

  /** The rule's suffix is the one-character terminator alone. */
  predicate EndsWithTerminator(r: Rule)
  {
    r.after == [[Terminator]]
  }

  /**
   * A character `\w` matches. Python's `\w` is every Unicode letter and digit
   * and `_`; here the letters are those of `IsPatternLetter` and the digits
   * ASCII. Only characters of captures are ever tested, and all of those are
   * kept either way (see `CleanCapture`).
   */
  predicate IsWordChar(c: char)
  {
    IsPatternLetter(c) || ('0' <= c <= '9') || c == '_'
  }

  /** A character the clean-up `re.sub(r"[^\w\s&\-'\.]", '', ...)` keeps. */
  predicate IsKept(c: char)
  {
    IsWordChar(c) || IsSpace(c) || c == '&' || c == '-' || c == '\'' || c == '.'
  }

  /** The clean-up substitution: drops every character that is not kept. */
  function RemoveUnkept(s: string): (r: string)
    ensures |r| <= |s|
    ensures forall i :: 0 <= i < |r| ==> IsKept(r[i])
    ensures (forall i :: 0 <= i < |s| ==> IsKept(s[i])) ==> r == s
  {
    if |s| == 0 then ""
    else (if IsKept(s[0]) then [s[0]] else []) + RemoveUnkept(s[1..])
  }

  /** `strip()`, the substitution, then `strip()` again, as applied to `match.group(1)`. */
  function Clean(c: string): (n: string)
    ensures |n| <= |c| && NoEdgeSpace(n)
    ensures forall i :: 0 <= i < |n| ==> IsKept(n[i])
  {
    Strip(RemoveUnkept(Strip(c)))
  }

  /** On a capture the clean-up only strips trailing whitespace, keeping the leading letter. */
  lemma CleanCapture(c: string)
    requires |c| >= 2 && IsPatternLetter(c[0])
    requires forall i :: 0 <= i < |c| ==> IsNameChar(c[i])
    ensures Clean(c) == Strip(c) && 1 <= |Clean(c)| && Clean(c) == c[..|Clean(c)|]
  {
    StripKeepsStart(c);
    var t := Strip(c);
    assert forall i :: 0 <= i < |t| ==> t[i] == c[i];
    StripIdempotent(c);
  }

  /** What one rule yields: its cleaned leftmost capture, when longer than two characters. */
  function Apply(r: Rule, s: string): (n: Option<string>)
    ensures n.Some? ==> Search(r, s).Some? && n.value == Strip(Search(r, s).value) && |n.value| >= 3
    ensures n.None? ==> Search(r, s).None? || |Strip(Search(r, s).value)| <= 2
  {
    match Search(r, s)
    case Some(c) =>
      CleanCapture(c);
      var n := Clean(c); if |n| > 2 then Some(n) else None
    case None => None
  }

  /** A rule's result is a letter-led run of name characters, stripped, of length at least 3. */
  lemma ApplyShape(r: Rule, s: string)
    ensures Apply(r, s).Some? ==>
      var n := Apply(r, s).value;
      |n| >= 3 && NoEdgeSpace(n) && IsPatternLetter(n[0])
      && forall i :: 0 <= i < |n| ==> IsNameChar(n[i])
  {
    if Search(r, s).Some? {
      CleanCapture(Search(r, s).value);
    }
  }

  /** The first result of `f` over `xs` that is not None, trying them in order. */
  function FirstOf<T>(xs: seq<T>, f: T -> Option<string>): Option<string>
  {
    if |xs| == 0 then None
    else if f(xs[0]).Some? then f(xs[0])
    else FirstOf(xs[1..], f)
  }

  /** `FirstOf` is the result at the first element that yields one, and None when none does. */
  lemma {:induction false} FirstOfIsFirst<T>(xs: seq<T>, f: T -> Option<string>)
    ensures FirstOf(xs, f).Some? ==>
      exists k :: 0 <= k < |xs| && f(xs[k]) == FirstOf(xs, f) && forall j :: 0 <= j < k ==> f(xs[j]).None?
    ensures FirstOf(xs, f).None? ==> forall k :: 0 <= k < |xs| ==> f(xs[k]).None?
  {
    if |xs| > 0 && f(xs[0]).None? {
      var tail := xs[1..];
      FirstOfIsFirst(tail, f);
      if FirstOf(tail, f).Some? {
        var k :| 0 <= k < |tail| && f(tail[k]) == FirstOf(tail, f) && forall j :: 0 <= j < k ==> f(tail[j]).None?;
        assert tail[k] == xs[k + 1];
        forall j | 0 <= j < k + 1 ensures f(xs[j]).None? {
          if j > 0 { assert xs[j] == tail[j - 1]; }
        }
      } else {
        forall k | 0 <= k < |xs| ensures f(xs[k]).None? {
          if k > 0 { assert xs[k] == tail[k - 1]; }
        }
      }
    }
  }

  /** One rule applied to a fixed text. */
  function ApplyTo(s: string): Rule -> Option<string>
  {
    (r: Rule) => Apply(r, s)
  }

  /** The rules are tried in order and the first one that yields a name wins. */
  function FirstApplied(rules: seq<Rule>, s: string): (n: Option<string>)
    ensures n.Some? ==> |n.value| >= 3
  {
    FirstOfIsFirst(rules, ApplyTo(s));
    FirstOf(rules, ApplyTo(s))
  }

  /** `FirstApplied` is the result of the first rule that yields one, and None when none does. */
  lemma FirstAppliedIsFirst(rules: seq<Rule>, s: string)
    ensures FirstApplied(rules, s).Some? ==>
      exists k :: 0 <= k < |rules| && Apply(rules[k], s) == FirstApplied(rules, s)
        && forall j :: 0 <= j < k ==> Apply(rules[j], s).None?
    ensures FirstApplied(rules, s).None? ==> forall k :: 0 <= k < |rules| ==> Apply(rules[k], s).None?
  {
    FirstOfIsFirst(rules, ApplyTo(s));
    assert forall r :: ApplyTo(s)(r) == Apply(r, s);
  }

  /** Trying the rules from the `k`-th on: the `k`-th decides if it yields a name, else the rest do. */
  lemma FirstAppliedStep(rules: seq<Rule>, s: string, k: nat)
    requires k < |rules|
    ensures FirstApplied(rules[k..], s) ==
      if Apply(rules[k], s).Some? then Apply(rules[k], s) else FirstApplied(rules[k + 1..], s)
  {
    assert rules[k..][0] == rules[k];
    assert rules[k..][1..] == rules[k + 1..];
    assert FirstOf(rules[k..], ApplyTo(s)) ==
      if ApplyTo(s)(rules[k]).Some? then ApplyTo(s)(rules[k]) else FirstOf(rules[k + 1..], ApplyTo(s));
  }

  /** A terminator suffix matches wherever there is whitespace. */
  lemma TerminatorAtSpace(s: string, j: nat)
    requires j < |s| && IsSpace(s[j])
    ensures SuffixAt([[Terminator]], s, j)
  {
    assert StepEnds(Terminator, s, j) == [j + 1];
    assert RunSteps([], s, j + 1) == [j + 1];
    assert RunEach([], s, [j + 1]) == [j + 1];
    assert RunSteps([Terminator], s, j) == [j + 1];
    assert [[Terminator]][0] == [Terminator];
  }

  /**
   * With a terminator suffix the lazy group stops at the first whitespace it
   * may stop at: none is left inside the capture after its first two characters.
   */
  lemma TerminatorStopsAtSpace(r: Rule, s: string)
    requires EndsWithTerminator(r)
    ensures Search(r, s).Some? ==>
      var c := Search(r, s).value;
      forall j :: 2 <= j < |c| ==> !IsSpace(c[j])
  {
    var m := SearchFrom(r, s, 0);
    if m.Some? {
      SearchFromLeftmost(r, s, 0);
      var g, e := m.value.groupStart, m.value.groupEnd;
      CaptureAtMeaning(r, s, g);
      assert IsCapture(r, s, g, e);
      forall j | g + 2 <= j < e ensures !IsSpace(s[j]) {
        if IsSpace(s[j]) {
          TerminatorAtSpace(s, j);
        }
      }
    }
  }

  /** A terminator suffix never matches in front of a letter. */
  lemma TerminatorNotAtLetter(s: string, j: nat)
    requires j < |s| && IsPatternLetter(s[j])
    ensures !SuffixAt([[Terminator]], s, j)
  {
    assert !IsSpace(s[j]);
    assert StepEnds(Terminator, s, j) == [];
    assert RunSteps([Terminator], s, j) == [];
    assert [[Terminator]][0] == [Terminator];
  }

  /** With a terminator suffix the lazy group runs through letters up to the first place the suffix matches. */
  lemma {:induction false} LazyEndThroughLetters(r: Rule, s: string, j: nat, e: nat)
    requires EndsWithTerminator(r)
    requires j < e <= |s| && SuffixAt(r.after, s, e)
    requires forall k :: j <= k < e ==> IsPatternLetter(s[k])
    ensures LazyEnd(SuffixOf(r, s), s, j) == Some(e)
    decreases e - j
  {
    assert IsNameChar(s[j]);
    if j + 1 < e {
      TerminatorNotAtLetter(s, j + 1);
      assert !SuffixAt(r.after, s, j + 1);
      LazyEndThroughLetters(r, s, j + 1, e);
    }
  }

  /** The `of` rule's prefix cannot start at a character other than `o`/`O`. */
  lemma OfRuleDeadAt(s: string, t: nat)
    requires t < |s| && s[t] != 'o' && s[t] != 'O'
    ensures RunSteps(OfRule.before, s, t) == []
  {
    assert !FoldsTo(s[t + 0], "of"[0]);
    assert !MatchesAt(s, t, "of");
    assert KeywordEnds(["of"], s, t) == [];
  }

  /** `of`, one whitespace character and a letter at `p`: the group can only start at that letter. */
  lemma OfRulePrefixAt(s: string, p: nat)
    requires p + 3 < |s| && s[p] == 'o' && s[p + 1] == 'f' && IsSpace(s[p + 2]) && IsPatternLetter(s[p + 3])
    ensures RunSteps(OfRule.before, s, p) == [p + 3]
  {
    assert MatchesAt(s, p, "of");
    assert KeywordEnds(["of"], s, p) == [p + 2];
    assert !IsSpace(s[p + 3]);
    assert SkipSpaces(s, p + 2) == p + 3;
    assert RunSteps([Spaces], s, p + 2) == [p + 3];
  }

  /** With a terminator suffix, a run of letters followed by whitespace is captured whole. */
  lemma TerminatorCaptureAt(r: Rule, s: string, g: nat, e: nat)
    requires EndsWithTerminator(r)
    requires g + 1 < e < |s| && IsSpace(s[e])
    requires forall k :: g <= k < e ==> IsPatternLetter(s[k])
    ensures CaptureAt(r, s, g) == Some(e)
  {
    TerminatorAtSpace(s, e);
    LazyEndThroughLetters(r, s, g + 1, e);
  }

  /** `of`, whitespace, then letters up to whitespace at `e`: the search from `p` captures those letters. */
  lemma OfRuleMatchesAt(s: string, p: nat, e: nat)
    requires p + 4 < e < |s| && s[p] == 'o' && s[p + 1] == 'f' && IsSpace(s[p + 2]) && IsSpace(s[e])
    requires forall k :: p + 3 <= k < e ==> IsPatternLetter(s[k])
    ensures SearchFrom(OfRule, s, p) == Some(Span(p, p + 3, e))
  {
    var starts, capture := GroupStarts(OfRule, s), Captures(OfRule, s);
    OfRulePrefixAt(s, p);
    assert starts(p) == [p + 3];
    TerminatorCaptureAt(OfRule, s, p + 3, e);
    assert capture(p + 3) == Some(e);
    assert FirstSome(capture, [p + 3]) == Some((p + 3, e));
    assert Leftmost(starts, capture, |s|, p) == Some(Span(p, p + 3, e));
  }

  /**
   * In text with no earlier `o`, the `of` rule captures exactly the word of
   * letters after `of ` up to the next whitespace, even when the name goes on.
   */
  lemma OfRuleFindsFirstWord(pre: string, w: string, rest: string)
    requires 'o' !in pre && 'O' !in pre
    requires |w| >= 2 && forall k :: 0 <= k < |w| ==> IsPatternLetter(w[k])
    requires |rest| > 0 && IsSpace(rest[0])
    ensures Search(OfRule, pre + "of " + w + rest) == Some(w)
  {
    var s := pre + "of " + w + rest;
    var p := |pre|;
    var e := p + 3 + |w|;
    forall t | 0 <= t < p ensures RunSteps(OfRule.before, s, t) == [] {
      assert s[t] == pre[t];
      OfRuleDeadAt(s, t);
    }
    SearchSkipsDeadStarts(OfRule, s, 0, p);
    assert s[p..p + 3] == "of ";
    assert forall k :: 0 <= k < |w| ==> s[p + 3 + k] == w[k];
    assert s[e] == rest[0];
    OfRuleMatchesAt(s, p, e);
    assert s[p + 3..e] == w;
  }
}
