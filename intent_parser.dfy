/**
 * The intent parser: a company-name extractor (eight ordered rules, then the
 * capitalised-run fallback) and a template matcher that takes the first
 * template of highest similarity and accepts it at or above a threshold.
 *
 * The sentence-embedding model is a function from text to an embedding,
 * fixed when the parser is built; cosine similarity is a parameter of the
 * matcher. Scores are reals.
 */
module IntentParser {
  import opened Wrappers
  import opened Text
  import opened Ranking
  import opened TemplateMapper
  import opened Patterns
  import opened Fallback

  /** What `extract_company_name` returns: the first rule's name, else the fallback's. */
  function ExtractSpec(s: string): (name: Option<string>)
    ensures name.Some? ==> |name.value| >= 3
  {
    match FirstApplied(Rules, s)
    case Some(n) => Some(n)
    case None => FallbackName(s)
  }

  /**
   * The rules are tried in order and the first that yields a name decides;
   * the fallback is reached only when none of the eight does.
   */
  lemma ExtractRulesFirst(s: string)
    ensures
      || (exists k :: 0 <= k < |Rules| && Apply(Rules[k], s) == ExtractSpec(s) && ExtractSpec(s).Some?
            && forall j :: 0 <= j < k ==> Apply(Rules[j], s).None?)
      || ((forall k :: 0 <= k < |Rules| ==> Apply(Rules[k], s).None?) && ExtractSpec(s) == FallbackName(s))
  {
    FirstAppliedIsFirst(Rules, s);
  }

  /** A name found by a rule is a stripped, letter-led run of name characters. */
  lemma RuleNameShape(s: string)
    ensures FirstApplied(Rules, s).Some? ==>
      var n := FirstApplied(Rules, s).value;
      |n| >= 3 && NoEdgeSpace(n) && IsPatternLetter(n[0]) && forall i :: 0 <= i < |n| ==> IsNameChar(n[i])
  {
    FirstAppliedIsFirst(Rules, s);
    if FirstApplied(Rules, s).Some? {
      var k :| 0 <= k < |Rules| && Apply(Rules[k], s) == FirstApplied(Rules, s)
        && forall j :: 0 <= j < k ==> Apply(Rules[j], s).None?;
      ApplyShape(Rules[k], s);
    }
  }

  /** Empty or all-whitespace input yields no name. */
  lemma BlankInputHasNoName(s: string)
    requires forall j :: 0 <= j < |s| ==> IsSpace(s[j])
    ensures ExtractSpec(s) == None
  {
    forall k | 0 <= k < |Rules| ensures Apply(Rules[k], s).None? {
      SearchNeedsLetter(Rules[k], s);
      assert forall j :: 0 <= j < |s| ==> !IsPatternLetter(s[j]);
    }
    FirstAppliedIsFirst(Rules, s);
    BlankHasNoFallback(s);
  }

  /** When the first rule yields a name, that name is the result. */
  lemma OfRuleDecides(s: string)
    requires Apply(OfRule, s).Some?
    ensures ExtractSpec(s) == Apply(OfRule, s)
  {
    FirstAppliedStep(Rules, s, 0);
    assert Rules[0..] == Rules;
  }

  /**
   * The `of` rule stops at the first whitespace: in text with no earlier `o`,
   * a word of three or more letters after `of ` is the whole result, whatever
   * follows it.
   */
  lemma OfNameIsOneWord(pre: string, w: string, rest: string)
    requires 'o' !in pre && 'O' !in pre
    requires |w| >= 3 && forall k :: 0 <= k < |w| ==> IsPatternLetter(w[k])
    requires |rest| > 0 && IsSpace(rest[0])
    ensures ExtractSpec(pre + "of " + w + rest) == Some(w)
  {
    var s := pre + "of " + w + rest;
    OfRuleFindsFirstWord(pre, w, rest);
    CleanCapture(w);
    StripNoEdgeSpace(w);
    assert Apply(OfRule, s) == Some(w);
    OfRuleDecides(s);
  }

  /** "What is the status of Acme Corp?" yields "Acme", not "Acme Corp". */
  lemma AcmeCorpYieldsAcme(s: string)
    requires s == "What is the status of Acme Corp?"
    ensures ExtractSpec(s) == Some("Acme")
  {
    assert s == "What is the status " + "of " + "Acme" + " Corp?";
    OfNameIsOneWord("What is the status ", "Acme", " Corp?");
  }

  /** A sentence embedding. */
  type Embedding = seq<real>

  /** The threshold `find_best_match` uses by default; a score equal to it is accepted. */
  const DefaultThreshold: real := 0.3

  /** What `find_best_match` returns: the template and its intent when accepted, and the best score always. */
  datatype Match = Match(template: Option<string>, score: real, intent: Option<Intent>)

  /** The dictionary `parse_intent` returns. */
  datatype Descriptor = Descriptor(intent: Option<Intent>, company: Option<string>, confidence: real, matchedTemplate: Option<string>)

  /** The parser's fixed state: the embedding model, the template bank and one embedding per template. */
  class Parser {
    const model: string -> Embedding
    const templates: seq<string>
    const templateEmbeddings: seq<Embedding>

    /** The templates are the flattened bank and the embeddings are the model's, index by index. */
    ghost predicate Valid()
    {
      && templates == AllTemplates()
      && |templateEmbeddings| == |templates|
      && forall i :: 0 <= i < |templates| ==> templateEmbeddings[i] == model(templates[i])
    }

    /** Loads the bank and encodes every template once. */
    constructor (model: string -> Embedding)
      ensures this.model == model && Valid()
    {
      this.model := model;
      var all := GetAllTemplates();
      templates := all;
      templateEmbeddings := seq(|all|, i requires 0 <= i < |all| => model(all[i]));
    }

    /** The similarity of the input to each template, in bank order. */
    function Similarities(userInput: string, similarity: (Embedding, Embedding) -> real): (scores: seq<real>)
      ensures |scores| == |templateEmbeddings|
      ensures forall i :: 0 <= i < |scores| ==> scores[i] == similarity(model(userInput), templateEmbeddings[i])
    {
      seq(|templateEmbeddings|, i requires 0 <= i < |templateEmbeddings| =>
        similarity(model(userInput), templateEmbeddings[i]))
    }

    /**
     * `find_best_match`: the first template of highest similarity, accepted
     * when its score reaches the threshold. The score is reported either way.
     */
    function FindBestMatch(userInput: string, similarity: (Embedding, Embedding) -> real, threshold: real): (m: Match)
      requires Valid()
      ensures exists b: nat :: (
        && IsFirstMax(Similarities(userInput, similarity), b)
        && m.score == Similarities(userInput, similarity)[b]
        && (m.template.Some? ==> m.template.value == templates[b] && m.intent == Some(BlockIntent(b))))
      ensures m.template.Some? <==> m.score >= threshold
      ensures m.intent.Some? <==> m.template.Some?
    {
      AllTemplatesInTableOrder();
      var scores := Similarities(userInput, similarity);
      var best := FirstMaxIndex(scores);
      ReverseLookupGivesBlock(best);
      if scores[best] >= threshold then Match(Some(templates[best]), scores[best], IntentFor(templates[best]))
      else Match(None, scores[best], None)
    }

    /** `extract_company_name`: the rules in order, then the capitalised-run fallback. */
    method ExtractCompanyName(userInput: string) returns (name: Option<string>)
      ensures name == ExtractSpec(userInput)
    {
      var k := 0;
      while k < |Rules|
        invariant 0 <= k <= |Rules|
        invariant FirstApplied(Rules[k..], userInput) == FirstApplied(Rules, userInput)
      {
        FirstAppliedStep(Rules, userInput, k);
        var found := Search(Rules[k], userInput);
        if found.Some? {
          var companyName := Strip(found.value);
          companyName := Strip(RemoveUnkept(companyName));
          assert companyName == Clean(found.value);
          if |companyName| > 2 {
            assert Apply(Rules[k], userInput) == Some(companyName);
            return Some(companyName);
          }
        }
        assert Apply(Rules[k], userInput).None?;
        k := k + 1;
      }
      assert FirstApplied(Rules, userInput).None?;
      var potential := CollectCandidates(Split(userInput));
      if |potential| > 0 {
        return Some(Longest(potential));
      }
      return None;
    }

    /** The fallback's scan of the tokens, collecting the run at every token that can start one. */
    method CollectCandidates(words: seq<string>) returns (potential: seq<string>)
      requires forall k :: 0 <= k < |words| ==> IsWord(words[k])
      ensures potential == Candidates(words)
    {
      potential := [];
      var i := 0;
      while i < |words|
        invariant 0 <= i <= |words|
        invariant potential == CandidatesUpTo(words, i)
      {
        var word := words[i];
        if IsUpper(word[0]) && |word| > 2 {
          var parts := TakeRun(words, i);
          potential := potential + [JoinSpaces(parts)];
          assert potential == CandidatesUpTo(words, i + 1);
        } else {
          assert !StartsName(words[i]);
          assert potential == CandidatesUpTo(words, i + 1);
        }
        i := i + 1;
      }
    }

    /** The run that starts at token `i`: the token and up to three more that continue a name. */
    method TakeRun(words: seq<string>, i: nat) returns (parts: seq<string>)
      requires i < |words|
      requires forall k :: 0 <= k < |words| ==> IsWord(words[k])
      ensures parts == words[i..RunEnd(words, i)]
    {
      parts := [words[i]];
      var limit := Min(i + 4, |words|);
      var j := i + 1;
      while j < limit
        invariant i + 1 <= j <= limit
        invariant parts == words[i..j]
        invariant ExtendFrom(words, j, limit) == RunEnd(words, i)
      {
        var w := words[j];
        ExtendFromStep(words, j, limit);
        if IsUpper(w[0]) && !Among(Lower(w), StopWords) {
          assert words[i..j + 1] == words[i..j] + [w];
          parts := parts + [w];
          j := j + 1;
        } else {
          break;
        }
      }
      assert j == RunEnd(words, i);
    }

    /**
     * `parse_intent`: the extracted company next to the matcher's result;
     * the intent is missing exactly when no template was accepted.
     */
    method ParseIntent(userInput: string, similarity: (Embedding, Embedding) -> real) returns (d: Descriptor)
      requires Valid()
      ensures d.company == ExtractSpec(userInput)
      ensures var m := FindBestMatch(userInput, similarity, DefaultThreshold);
        d.confidence == m.score && d.matchedTemplate == m.template && d.intent == m.intent
      ensures d.intent.None? <==> d.matchedTemplate.None?
    {
      var companyName := ExtractCompanyName(userInput);
      var m := FindBestMatch(userInput, similarity, DefaultThreshold);
      d := Descriptor(m.intent, companyName, m.score, m.template);
    }
  }
}
