# CRM assistant: question-to-lookup pipeline in Dafny

This project models the part of the CRM chat assistant that turns a typed
question into a CRM lookup. It has three pieces:

- **Template bank** (`template_mapper.dfy`, `template_placeholders.dfy`).
  - The fixed table from intent (`check_status`, `last_funding`,
    `last_contact`) to example phrasings.
  - Its flattening into one list, built by a loop as the source does.
  - The reverse lookup from a phrasing to its intent.
  - Data invariants, proved from the literal table:
    - no phrasing is listed under two intents;
    - the bank repeats two phrasings, each inside one intent;
    - every phrasing holds `[company]` exactly once.
- **Intent parser** (`text.dfy`, `patterns.dfy`, `fallback.dfy`,
  `intent_parser.dfy`, `ranking.dfy`).
  - `Parser` is a class whose fields (the embedding model, the templates and
    one embedding per template) are fixed by its constructor.
  - The company-name extractor is a method with the source's loops. It is
    proved equal to `ExtractSpec`.
  - `ExtractSpec` has two parts:
    - The eight regular expressions, written out as data and run by a matcher
      that follows `re.search` with `re.IGNORECASE`. The leftmost start wins,
      and the lazy group takes the shortest extension after which the suffix
      matches.
    - The capitalised-run fallback over `str.split()` tokens.
  - The template matcher takes the first index of the highest similarity and
    accepts it at or above the threshold.
  - `parse_intent` packages the extractor's and the matcher's results.
- **Query engine** (`query_engine.dfy`).
  - The fuzzy resolver takes the first company of highest score and accepts
    it only above 70.
  - The three lookups are filters over record sequences, plus an argmax by
    date and a count.

The matcher does not shorten a `\s+` run. This changes no result: in all
eight rules, what follows a `\s+` must begin with a letter.

One might expect "What is the status of Acme Corp?" to yield "Acme Corp".
The `of` rule's lazy group stops at the first whitespace, which its
terminator alternative accepts (llm_engine/intent_parser.py:37), so the code
yields "Acme" (`IntentParser.AcmeCorpYieldsAcme`, and
`IntentParser.OfNameIsOneWord` for the general case).

## Model

| member | source | states |
|---|---|---|
| TemplateMapper.GetAllTemplates | llm_engine/template_mapper.py:100-110 | the list built by extending an empty list entry by entry is the check_status, last_funding and last_contact phrasings concatenated in that order, 89 in all, and the same value on every call |
| TemplateMapper.AllTemplatesInTableOrder | llm_engine/template_mapper.py:107-110 | the flattened bank is the three phrasing lists in table order and has 30 + 29 + 30 entries |
| TemplateMapper.NamesIdentifyIntents | llm_engine/template_mapper.py:3-66 | the three table keys are distinct, so comparing a key with `check_status` identifies the intent, as ui/chat_cli.py does when routing |
| TemplateMapper.IntentFor | llm_engine/template_mapper.py:112-125 | the reverse lookup is None exactly when the phrasing is not in the flattened bank; otherwise it names an entry whose list holds the phrasing |
| TemplateMapper.ListedIffInBank | llm_engine/template_mapper.py:107-125 | a phrasing is in the flattened bank exactly when some entry of the table lists it |
| TemplateMapper.LookupIntentIsFirstMatch | llm_engine/template_mapper.py:122-125 | the reverse lookup answers the intent of the first entry whose list contains the phrasing, and None exactly when no list contains it |
| TemplateMapper.IntentForByList | llm_engine/template_mapper.py:112-125 | on the bank, the reverse lookup is check_status if the phrasing is in that list, else last_funding if in that list, else last_contact if in that list, else None |
| TemplateMapper.CheckStatusApartFromLastFunding | llm_engine/template_mapper.py:3-65 | no check_status phrasing is a last_funding phrasing |
| TemplateMapper.CheckStatusApartFromLastContact | llm_engine/template_mapper.py:3-97 | no check_status phrasing is a last_contact phrasing |
| TemplateMapper.LastFundingApartFromLastContact | llm_engine/template_mapper.py:35-97 | no last_funding phrasing is a last_contact phrasing |
| TemplateMapper.ReverseLookupGivesBlock | llm_engine/template_mapper.py:112-125 | for every position of the flattened bank, the reverse lookup of the phrasing there is the intent of the list that position comes from |
| TemplateMapper.EveryTemplateHasIntent | llm_engine/template_mapper.py:100-125 | every phrasing the flattening returns has an intent |
| TemplateMapper.RepeatsStayInOneIntent | llm_engine/template_mapper.py:2-98 | two positions of the bank holding the same phrasing belong to the same intent |
| TemplateMapper.BankRepeats | llm_engine/template_mapper.py:8-74 | the bank does repeat phrasings: "How is [company] doing?" twice under check_status and "When was [company] last contacted?" twice under last_contact |
| TemplatePlaceholders.CutGivesOnePlaceholder | llm_engine/template_mapper.py:4-96 | a phrasing that is text, the placeholder, then text, with no '[' outside the placeholder, holds the placeholder at exactly one position |
| TemplatePlaceholders.CheckStatusHasOnePlaceholder | llm_engine/template_mapper.py:4-33 | every check_status phrasing holds `[company]` exactly once |
| TemplatePlaceholders.LastFundingHasOnePlaceholder | llm_engine/template_mapper.py:36-64 | every last_funding phrasing holds `[company]` exactly once |
| TemplatePlaceholders.LastContactHasOnePlaceholder | llm_engine/template_mapper.py:67-96 | every last_contact phrasing holds `[company]` exactly once |
| TemplatePlaceholders.EveryTemplateHasOnePlaceholder | llm_engine/template_mapper.py:4-96 | every phrasing of the flattened bank holds `[company]` exactly once |
| Ranking.FirstMaxIndex | llm_engine/intent_parser.py:95 | the index chosen is of a maximal key, and every earlier key is strictly smaller (the first maximum, as `np.argmax`, `max(key=len)` and `extractOne` choose it) |
| Text.Strip | llm_engine/intent_parser.py:50 | `strip()` yields a slice of the text with only whitespace cut before and after it and no whitespace left at either end |
| Text.StripIdempotent | llm_engine/intent_parser.py:52 | stripping a stripped text changes nothing |
| Text.StripNoEdgeSpace | llm_engine/intent_parser.py:52 | text with no whitespace at either end is its own strip |
| Text.StripKeepsStart | llm_engine/intent_parser.py:50 | text that starts with a non-space keeps its start through `strip()` |
| Text.Split | llm_engine/intent_parser.py:57 | every token of `split()` is non-empty and holds no whitespace |
| Text.SplitEmptyIffBlank | llm_engine/intent_parser.py:57 | `split()` returns no token exactly when the text is empty or all whitespace |
| Text.JoinSpaces | llm_engine/intent_parser.py:69 | the joined text begins with the first token, and its length is the tokens' total length plus one space between each pair of neighbours |
| Text.SplitJoinSpaces | llm_engine/intent_parser.py:69 | splitting tokens joined with single spaces gives the tokens back |
| Patterns.LazyEndMeaning | llm_engine/intent_parser.py:37 | the lazy `+?` stops at the first position where the suffix matches and name characters reach it, and fails when there is none |
| Patterns.CaptureAtMeaning | llm_engine/intent_parser.py:37-44 | the capture at a group start is a letter then name characters, ending at the first position after the second character where the suffix matches; none exists when it fails |
| Patterns.FirstSome | llm_engine/intent_parser.py:48 | the result is the first group start, in backtracking order, at which the group captures, or None when it captures at none |
| Patterns.LeftmostNone | llm_engine/intent_parser.py:48 | a search finds nothing exactly when no search start in range has a group start that captures |
| Patterns.LeftmostFirst | llm_engine/intent_parser.py:48 | a match found is at the leftmost search start that has a capturing group start, and uses that start's first capturing group start |
| Patterns.LeftmostSkips | llm_engine/intent_parser.py:48 | search starts where the prefix yields no group start do not change the result |
| Patterns.SearchFromNone | llm_engine/intent_parser.py:48 | `re.search` from a position finds nothing exactly when the rule matches from no later start |
| Patterns.SearchFromLeftmost | llm_engine/intent_parser.py:48 | a match is at the leftmost start from which the rule matches, with the first capturing group start there |
| Patterns.SearchSkipsDeadStarts | llm_engine/intent_parser.py:48 | starts at which the rule's prefix cannot match are skipped |
| Patterns.Search | llm_engine/intent_parser.py:48-50 | `group(1)` is at least two characters, starts with a letter and holds only name characters |
| Patterns.FoundSpanShape | llm_engine/intent_parser.py:48-50 | the group of the leftmost match is a letter followed by at least one name character, inside the text |
| Patterns.SearchNoneIffNoMatch | llm_engine/intent_parser.py:48-49 | `re.search` returns None exactly when the rule matches at no position |
| Patterns.SearchNeedsLetter | llm_engine/intent_parser.py:37-44 | a rule captures only in text holding a letter |
| Patterns.RemoveUnkept | llm_engine/intent_parser.py:52 | the substitution keeps only word characters, whitespace, `&`, `-`, `'` and `.`, and leaves a text of such characters unchanged |
| Patterns.RuleList | llm_engine/intent_parser.py:36-45 | there are eight rules, each with a non-empty suffix, and exactly the `of`, `with`, `for` and question rules end in the terminator |
| Patterns.Clean | llm_engine/intent_parser.py:50-52 | the clean-up never lengthens the capture, leaves no whitespace at either end, and keeps only word characters, whitespace, `&`, `-`, `'` and `.` |
| Patterns.CleanCapture | llm_engine/intent_parser.py:50-52 | on a capture the clean-up only strips trailing whitespace: the result is a non-empty prefix of the capture |
| Patterns.Apply | llm_engine/intent_parser.py:48-54 | a rule yields a name only when it matches, and the name is the stripped capture, at least three characters; it yields none when it does not match or the cleaned capture has two characters or fewer |
| Patterns.ApplyShape | llm_engine/intent_parser.py:48-54 | a rule's result has at least three characters, no edge whitespace, a leading letter, and only name characters |
| Patterns.FirstOfIsFirst | llm_engine/intent_parser.py:47-54 | trying items in order gives the result of the first item that yields one, every earlier item yielding none, and None only when all yield none |
| Patterns.FirstApplied | llm_engine/intent_parser.py:47-54 | a name from the rule loop has at least three characters |
| Patterns.FirstAppliedStep | llm_engine/intent_parser.py:47-54 | one loop step: the current rule decides when it yields a name, otherwise the rules after it do |
| Patterns.FirstAppliedIsFirst | llm_engine/intent_parser.py:47-54 | the rules' result is that of the first rule yielding a name, every earlier one yielding none; None only when every rule yields none |
| Patterns.TerminatorAtSpace | llm_engine/intent_parser.py:37 | the terminator `(?:\?|$|\s|,)` matches before any whitespace |
| Patterns.TerminatorStopsAtSpace | llm_engine/intent_parser.py:37-42 | for the rules ending in the terminator (`of`, `with`, `for` and the question rule), a capture holds no whitespace after its first two characters |
| Patterns.TerminatorNotAtLetter | llm_engine/intent_parser.py:37 | the terminator never matches before a letter |
| Patterns.LazyEndThroughLetters | llm_engine/intent_parser.py:37 | with a terminator suffix, the lazy group runs through letters up to the first position where the terminator matches |
| Patterns.OfRuleDeadAt | llm_engine/intent_parser.py:37 | the `of` rule's prefix cannot start at a character other than `o` or `O` |
| Patterns.OfRulePrefixAt | llm_engine/intent_parser.py:37 | after `of` and one whitespace character the group can only start at the letter that follows |
| Patterns.TerminatorCaptureAt | llm_engine/intent_parser.py:37-42 | with a terminator suffix, a run of letters followed by whitespace is captured whole |
| Patterns.OfRuleMatchesAt | llm_engine/intent_parser.py:37 | `of`, whitespace, then letters up to whitespace: the search from that `o` captures exactly those letters |
| Patterns.OfRuleFindsFirstWord | llm_engine/intent_parser.py:37 | in text with no earlier `o`, the `of` rule captures the letters after `of ` up to the next whitespace, even when the name goes on |
| Fallback.UpperHasLowerCase | llm_engine/intent_parser.py:60-64 | a character counted as upper-case (ASCII or Latin-1) has a different lower case, which is not upper-case |
| Fallback.LowerChar | llm_engine/intent_parser.py:64 | upper-case letters map to their lower case, the Kelvin sign to `k`, and other characters to themselves |
| Fallback.Lower | llm_engine/intent_parser.py:64 | `lower()` maps each character and keeps the length |
| Fallback.AmongIsIn | llm_engine/intent_parser.py:64 | the stop-list test is list membership |
| Fallback.ExtendFrom | llm_engine/intent_parser.py:63-67 | a run extends over tokens that continue a name and stops at the first that does not, or at the limit |
| Fallback.ExtendFromStep | llm_engine/intent_parser.py:63-67 | one step of the inner loop: a token that is upper-case initial and not a stop word is passed over, and any other token ends the run there |
| Fallback.RunEnd | llm_engine/intent_parser.py:63 | a run covers its start token and at most three more, within the token list |
| Fallback.RunEndMeaning | llm_engine/intent_parser.py:62-67 | the tokens after the start are upper-case initial and not stop words, and the run ends at the list's end, after three added tokens, or at the first token that does not continue it |
| Fallback.CandidatesAreRuns | llm_engine/intent_parser.py:59-69 | the candidates are exactly the joined runs at the tokens that are upper-case initial and longer than two characters |
| Fallback.RunAtStartsWithToken | llm_engine/intent_parser.py:60-69 | a candidate begins with its start token |
| Fallback.Lengths | llm_engine/intent_parser.py:73 | the keys of `max(..., key=len)` are the candidates' lengths |
| Fallback.Longest | llm_engine/intent_parser.py:71-75 | the chosen candidate is among the candidates and no candidate is longer |
| Fallback.LongestIsFirstLongest | llm_engine/intent_parser.py:73 | every candidate before the chosen one is strictly shorter: `max(key=len)` keeps the first longest |
| Fallback.CandidatesAreLong | llm_engine/intent_parser.py:59-69 | every candidate has at least three characters, since it begins with a start token longer than two |
| Fallback.FallbackName | llm_engine/intent_parser.py:57-75 | the fallback is None exactly when there is no candidate; otherwise it is a candidate of at least three characters and no candidate is longer |
| Fallback.NoCandidatesIffNoStart | llm_engine/intent_parser.py:59-72 | there are no candidates exactly when no token can start a run |
| Fallback.FallbackNoneIffNoStart | llm_engine/intent_parser.py:57-75 | the fallback returns None exactly when no token of `split()` can start a run |
| Fallback.BlankHasNoFallback | llm_engine/intent_parser.py:57-75 | empty or all-whitespace input has no fallback name |
| IntentParser.ExtractRulesFirst | llm_engine/intent_parser.py:47-57 | either the first rule that yields a name decides, all earlier rules yielding none, or no rule yields one and the result is the fallback's |
| IntentParser.ExtractSpec | llm_engine/intent_parser.py:25-75 | every extracted name has at least three characters |
| IntentParser.RuleNameShape | llm_engine/intent_parser.py:50-54 | a name found by a rule has no edge whitespace, starts with a letter and holds only letters, whitespace, `&`, `-`, `'` and `.` |
| IntentParser.BlankInputHasNoName | llm_engine/intent_parser.py:25-75 | empty or all-whitespace input yields None |
| IntentParser.OfRuleDecides | llm_engine/intent_parser.py:47-54 | when the `of` rule yields a name, that name is the result |
| IntentParser.OfNameIsOneWord | llm_engine/intent_parser.py:37 | in text with no earlier `o`, a word of three or more letters after `of ` and before whitespace is the whole result |
| IntentParser.AcmeCorpYieldsAcme | llm_engine/intent_parser.py:37 | "What is the status of Acme Corp?" yields "Acme" |
| IntentParser.Parser.constructor | llm_engine/intent_parser.py:12-23 | the templates are the flattened bank and each embedding is the model's encoding of the template at the same index |
| IntentParser.Parser.Similarities | llm_engine/intent_parser.py:89-92 | one similarity per template embedding, the i-th being the similarity of the encoded input and the i-th embedding |
| IntentParser.Parser.FindBestMatch | llm_engine/intent_parser.py:77-108 | the score is the first maximal similarity; the template is accepted exactly when that score reaches the threshold, and then its intent is the intent of its list; the intent is present exactly when the template is |
| IntentParser.Parser.ExtractCompanyName | llm_engine/intent_parser.py:25-75 | the rule loop and the token scan return exactly the extractor's result: the first rule's cleaned name longer than two characters, else the longest run, else None |
| IntentParser.Parser.CollectCandidates | llm_engine/intent_parser.py:57-69 | the scan collects exactly the runs at the tokens that can start one, in token order |
| IntentParser.Parser.TakeRun | llm_engine/intent_parser.py:62-67 | the inner loop collects exactly the tokens of the run |
| IntentParser.Parser.ParseIntent | llm_engine/intent_parser.py:110-133 | the company is the extractor's result, and confidence, template and intent are the matcher's at threshold 0.3; the intent is missing exactly when the template is |
| QueryEngine.NameScores | engine/query_engine.py:16-17 | one score per company, the i-th being the scorer's score of the query against the i-th company's name |
| QueryEngine.BestCompanyMatch | engine/query_engine.py:5-18 | the result is the name of the first company of highest score when that score is above 70, and None otherwise |
| QueryEngine.BestCompanyMatchAccepts | engine/query_engine.py:16-18 | a name is accepted exactly when some company scores above 70, and then no company outscores it |
| QueryEngine.NotFoundMessage | engine/query_engine.py:36 | the error text quotes the query as typed |
| QueryEngine.NotFoundMessageInjective | engine/query_engine.py:36 | different queries give different error texts |
| QueryEngine.FirstNamed | engine/query_engine.py:40 | the row chosen carries the name and no earlier row does |
| QueryEngine.MatchedCompany | engine/query_engine.py:32-40 | the resolved company is the first row carrying the resolved name, and is missing exactly when resolution fails |
| QueryEngine.CheckStatus | engine/query_engine.py:20-50 | the error when resolution fails; otherwise the resolved name and six fields of the first row carrying it; never the no-records shape |
| QueryEngine.ClosedWon | engine/query_engine.py:76-79 | the filter keeps exactly the company's rows at stage `Closed Won`, each as many times as it occurs |
| QueryEngine.ContactsOf | engine/query_engine.py:123 | the filter keeps exactly the company's contacts, each as many times as it occurs |
| QueryEngine.LatestClosed | engine/query_engine.py:88-89 | the chosen round is among the rows and none closed later |
| QueryEngine.LatestMeeting | engine/query_engine.py:132-133 | the chosen contact is among the rows and none met later |
| QueryEngine.FundingOf | engine/query_engine.py:76-97 | for a resolved company: the message exactly when it has no `Closed Won` round; otherwise the type, amount and date of one such round, no round of it later, and the round count, at least 1 |
| QueryEngine.ContactOf | engine/query_engine.py:120-141 | for a resolved company: the message exactly when it has no contact; otherwise the name, role and date of one of its contacts, no contact of it met later, and the contact count, at least 1 |
| QueryEngine.LastFundingEvent | engine/query_engine.py:52-97 | the error when resolution fails; the message exactly when the company has no `Closed Won` round; otherwise the type, amount and date of one such round, no round of it later, and the round count, at least 1 |
| QueryEngine.LastContact | engine/query_engine.py:99-141 | the error when resolution fails; the message exactly when the company has no contact; otherwise the name, role and date of one of its contacts, no contact of it met later, and the contact count, at least 1 |
| QueryEngine.UnresolvedSameError | engine/query_engine.py:32-117 | the three lookups fail together, with the same error text |
| QueryEngine.LookupsAgreeOnCompany | engine/query_engine.py:40-136 | every lookup that succeeds reports the resolver's name |

## Left out

- The sentence-embedding model and cosine similarity are parameters of the model: the model is a function fixed at construction, and the similarity is passed to the matcher. Scores are reals. The claim that every phrasing matches itself above the threshold depends on their numerics and is not stated.
- The rapidfuzz scorer (WRatio with its preprocessing) is a parameter scoring 0 to 100. `extractOne` is taken to return the first name of highest score.
- QueryEngine.BestCompanyMatch: requires a non-empty company table. With none, `extractOne` returns no triple and the unpacking raises an exception.
- `pd.to_datetime` and `strftime` are not modelled. Dates are integers that order like the dates, and the reports carry that integer rather than a formatted string.
- QueryEngine.LastFundingEvent: among rounds with the same latest date, `sort_values` does not fix which one comes first. The model takes the first in table order, and its contract states only that no round closed later.
- QueryEngine.LastContact: among contacts with the same latest meeting date, the same holds. The contract states only that no contact met later.
- Pandas-specific behaviour is not modelled: missing values, column dtypes, and the copy warning at the two date-column assignments.
- The tables are immutable values, so the lookups cannot modify them.
- Fallback.IsUpper: `str.isupper()` on a token's first character is modelled for the ASCII and Latin-1 upper-case letters only. A token starting with another upper-case letter (Greek, Cyrillic, ...) is not a run start or continuation in the model.
- Fallback.LowerChar: `str.lower()` is modelled for those letters and the Kelvin sign. These are the only characters whose lower case can turn a token into an ASCII stop word.
- Patterns.IsWordChar: `\w` is approximated by the rule letters, ASCII digits and `_`. `Patterns.CleanCapture` shows this makes no difference, since the clean-up never removes a character of a capture.
- The letters of `[A-Z]` and `[a-zA-Z]` under `re.IGNORECASE` are the ASCII letters plus the four non-ASCII characters that case-fold into them (U+0130, U+0131, U+017F, U+212A).
- The debug `print` calls in the parser are left out.
- The CSV loading in engine/data_loader.py, the start-up in main.py and the chat and web interfaces under ui/ are not part of this model.
