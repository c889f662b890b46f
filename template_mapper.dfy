/**
 * The template bank: a fixed table from intent to example phrasings, each
 * phrasing holding the placeholder `[company]` once. The table keeps the
 * insertion order of the source dictionary (check_status, last_funding,
 * last_contact), which is the order both lookups below scan it in.
 */
module TemplateMapper {
  import opened Wrappers

  /** The closed set of intents. */
  datatype Intent = CheckStatus | LastFunding | LastContact
  {
    /** The intent's key in the table. */
    function Name(): string
    {
      match this
      case CheckStatus => "check_status"
      case LastFunding => "last_funding"
      case LastContact => "last_contact"
    }
  }

  /** The keys are distinct, so a caller comparing a key against `check_status` identifies the intent. */
  lemma NamesIdentifyIntents()
    ensures forall a: Intent, b: Intent :: a.Name() == b.Name() ==> a == b
    ensures CheckStatus.Name() == "check_status"
  {
  }

  const Placeholder: string := "[company]"

  /** The `check_status` phrasings, in the order of llm_engine/template_mapper.py:3-34. */
  const CheckStatusPhrasings: seq<string> := [
    "What is the status of [company]?",
    "Show me the status of [company]",
    "What's the current status of [company]?",
    "Tell me about [company] status",
    "How is [company] doing?",
    "What stage is [company] in?",
    "What program is [company] in?",
    "Show me status of [company]",
    "What is [company] status?",
    "Status of [company]",
    "How is [company] doing?",
    "What's [company] status?",
    "Tell me about [company]",
    "Show me [company] information",
    "What's going on with [company]?",
    "Current status of [company]?",
    "Tell me the status of [company]",
    "What's happening with [company]?",
    "Give me [company] status",
    "Show [company] status",
    "What's the deal with [company]?",
    "How's [company] doing?",
    "What's up with [company]?",
    "Tell me about [company]'s status",
    "What's [company]'s current status?",
    "Status update for [company]",
    "What's the latest on [company]?",
    "How is [company] performing?",
    "What's [company]'s situation?",
    "Give me an update on [company]"
  ]

  /** The `last_funding` phrasings, in the order of llm_engine/template_mapper.py:35-65. */
  const LastFundingPhrasings: seq<string> := [
    "When did [company] last raise funding?",
    "What was [company]'s last funding round?",
    "When was [company]'s most recent funding?",
    "Show me [company]'s last funding event",
    "What's the latest funding for [company]?",
    "When did [company] last get funding?",
    "Tell me about [company]'s funding history",
    "When did [company] last raise money?",
    "What's [company]'s latest funding?",
    "Show me [company] funding",
    "When was [company]'s last funding?",
    "Funding for [company]",
    "Last funding round for [company]",
    "When did [company] last get investment?",
    "What's [company]'s most recent funding?",
    "Show me [company]'s funding rounds",
    "When was [company]'s latest funding?",
    "Tell me about [company]'s funding",
    "What funding did [company] get?",
    "When did [company] raise money last?",
    "Show [company] funding history",
    "What's the latest funding round for [company]?",
    "When was [company]'s most recent investment?",
    "Tell me about [company]'s investments",
    "What's [company]'s funding status?",
    "Show me [company]'s investment history",
    "When did [company] last receive funding?",
    "What's [company]'s funding timeline?",
    "Tell me about [company]'s capital raises"
  ]

  /** The `last_contact` phrasings, in the order of llm_engine/template_mapper.py:66-97. */
  const LastContactPhrasings: seq<string> := [
    "When was [company] last contacted?",
    "When did we last meet with [company]?",
    "What's the last contact date for [company]?",
    "When was the last meeting with [company]?",
    "Show me last contact with [company]",
    "When did we last talk to [company]?",
    "What's the most recent contact with [company]?",
    "When was [company] last contacted?",
    "Last contact with [company]",
    "When did we last contact [company]?",
    "Show me contact history for [company]",
    "Last meeting with [company]",
    "Contact date for [company]",
    "When did we last speak with [company]?",
    "What's the latest contact with [company]?",
    "Show me [company] contact history",
    "When was our last interaction with [company]?",
    "Tell me about [company] contact",
    "What's the last communication with [company]?",
    "When did we last reach out to [company]?",
    "Show me [company] interactions",
    "What's the most recent meeting with [company]?",
    "When was [company] last reached out to?",
    "Tell me about [company] communications",
    "What's the latest interaction with [company]?",
    "Show me [company] communication history",
    "When did we last connect with [company]?",
    "What's [company]'s contact timeline?",
    "Tell me about [company]'s recent contacts",
    "When was [company] last touched base with?"
  ]
  /** `TEMPLATES`: the three (intent, phrasings) entries in dictionary order. */
  const Templates: seq<(Intent, seq<string>)> :=
    [(CheckStatus, CheckStatusPhrasings), (LastFunding, LastFundingPhrasings), (LastContact, LastContactPhrasings)]

  /** The phrasing lists of `entries` concatenated in order. */
  function Flatten(entries: seq<(Intent, seq<string>)>): (all: seq<string>)
  {
    if entries == [] then [] else Flatten(entries[..|entries| - 1]) + entries[|entries| - 1].1
  }

  /** The flattened bank, the value `get_all_templates` returns. */
  function AllTemplates(): (all: seq<string>)
  {
    Flatten(Templates)
  }

  /** The flattened bank is the three lists in table order: check_status, last_funding, last_contact. */
  lemma AllTemplatesInTableOrder()
    ensures AllTemplates() == CheckStatusPhrasings + LastFundingPhrasings + LastContactPhrasings
    ensures |AllTemplates()| == 30 + 29 + 30
  {
    var e := Templates;
    assert e[..2][..1][..0] == [];
    assert Flatten(e[..2][..1]) == CheckStatusPhrasings;
    assert Flatten(e[..2]) == CheckStatusPhrasings + LastFundingPhrasings;
  }

  /** `get_all_templates`: extends an empty list by each entry's phrasings in table order. */
  method GetAllTemplates() returns (all: seq<string>)
    ensures all == AllTemplates()
    ensures all == CheckStatusPhrasings + LastFundingPhrasings + LastContactPhrasings
    ensures |all| == 30 + 29 + 30
  {
    all := [];
    var k := 0;
    while k < |Templates|
      invariant 0 <= k <= |Templates|
      invariant all == Flatten(Templates[..k])
    {
      assert Templates[..k + 1][..k] == Templates[..k];
      all := all + Templates[k].1;
      k := k + 1;
    }
    assert Templates[..k] == Templates;
    AllTemplatesInTableOrder();
  }

  /** The first entry of `entries` whose phrasings contain `t`. */
  function LookupIntent(entries: seq<(Intent, seq<string>)>, t: string): (r: Option<Intent>)
  {
    if entries == [] then None
    else if t in entries[0].1 then Some(entries[0].0)
    else LookupIntent(entries[1..], t)
  }

  /** `get_intent_for_template`: the first intent, in table order, listing `t`; None for an unknown phrasing. */
  function IntentFor(t: string): (r: Option<Intent>)
    ensures r.None? <==> t !in AllTemplates()
    ensures r.Some? ==> exists k :: 0 <= k < |Templates| && Templates[k].0 == r.value && t in Templates[k].1
  {
    LookupIntentIsFirstMatch(Templates, t);
    ListedIffInBank(t);
    LookupIntent(Templates, t)
  }

  /** A phrasing is in the flattened bank exactly when some entry lists it. */
  lemma ListedIffInBank(t: string)
    ensures t in AllTemplates() <==> exists k :: 0 <= k < |Templates| && t in Templates[k].1
  {
    AllTemplatesInTableOrder();
    assert Templates[0].1 == CheckStatusPhrasings && Templates[1].1 == LastFundingPhrasings
      && Templates[2].1 == LastContactPhrasings;
  }

  /** The lookup answers the first entry listing `t`, and None exactly when no entry lists it. */
  lemma {:induction false} LookupIntentIsFirstMatch(entries: seq<(Intent, seq<string>)>, t: string)
    ensures LookupIntent(entries, t).None? <==> forall k :: 0 <= k < |entries| ==> t !in entries[k].1
    ensures LookupIntent(entries, t).Some? ==>
      exists k :: 0 <= k < |entries| && t in entries[k].1 && LookupIntent(entries, t) == Some(entries[k].0)
        && forall j :: 0 <= j < k ==> t !in entries[j].1
  {
    if entries != [] && t !in entries[0].1 {
      LookupIntentIsFirstMatch(entries[1..], t);
      if LookupIntent(entries, t).Some? {
        var k :| 0 <= k < |entries[1..]| && t in entries[1..][k].1 && LookupIntent(entries[1..], t) == Some(entries[1..][k].0)
          && forall j :: 0 <= j < k ==> t !in entries[1..][j].1;
        assert forall j :: 0 <= j < k + 1 ==> t !in entries[j].1 by {
          forall j | 0 <= j < k + 1 ensures t !in entries[j].1 {
            if j > 0 { assert entries[j] == entries[1..][j - 1]; }
          }
        }
      }
      assert forall k :: 1 <= k < |entries| ==> entries[k] == entries[1..][k - 1];
    }
  }

  /** Reading the table: the lookup in terms of the three phrasing lists. */
  lemma IntentForByList(t: string)
    ensures IntentFor(t) ==
      if t in CheckStatusPhrasings then Some(CheckStatus)
      else if t in LastFundingPhrasings then Some(LastFunding)
      else if t in LastContactPhrasings then Some(LastContact)
      else None
  {
    var e := Templates;
    assert e[1..][1..][1..] == [];
    assert LookupIntent(e[1..][1..], t) == if t in LastContactPhrasings then Some(LastContact) else None;
    assert LookupIntent(e[1..], t) ==
      if t in LastFundingPhrasings then Some(LastFunding) else LookupIntent(e[1..][1..], t);
  }

  /** No check_status phrasing is a last_funding phrasing (checked in two halves of the check_status list). */
  lemma CheckStatusApartFromLastFunding()
    ensures forall i, j :: 0 <= i < |CheckStatusPhrasings| && 0 <= j < |LastFundingPhrasings| ==> CheckStatusPhrasings[i] != LastFundingPhrasings[j]
  {
    CheckStatusApartFromLastFundingLow();
    CheckStatusApartFromLastFundingHigh();
  }

  lemma CheckStatusApartFromLastFundingLow()
    ensures forall i, j :: 0 <= i < 15 && 0 <= j < |LastFundingPhrasings| ==> CheckStatusPhrasings[i] != LastFundingPhrasings[j]
  {
  }

  lemma CheckStatusApartFromLastFundingHigh()
    ensures forall i, j :: 15 <= i < |CheckStatusPhrasings| && 0 <= j < |LastFundingPhrasings| ==> CheckStatusPhrasings[i] != LastFundingPhrasings[j]
  {
  }

  /** No check_status phrasing is a last_contact phrasing (checked in two halves of the check_status list). */
  lemma CheckStatusApartFromLastContact()
    ensures forall i, j :: 0 <= i < |CheckStatusPhrasings| && 0 <= j < |LastContactPhrasings| ==> CheckStatusPhrasings[i] != LastContactPhrasings[j]
  {
    CheckStatusApartFromLastContactLow();
    CheckStatusApartFromLastContactHigh();
  }

  lemma CheckStatusApartFromLastContactLow()
    ensures forall i, j :: 0 <= i < 15 && 0 <= j < |LastContactPhrasings| ==> CheckStatusPhrasings[i] != LastContactPhrasings[j]
  {
  }

  lemma CheckStatusApartFromLastContactHigh()
    ensures forall i, j :: 15 <= i < |CheckStatusPhrasings| && 0 <= j < |LastContactPhrasings| ==> CheckStatusPhrasings[i] != LastContactPhrasings[j]
  {
  }

  /** No last_funding phrasing is a last_contact phrasing (checked in two halves of the last_funding list). */
  lemma LastFundingApartFromLastContact()
    ensures forall i, j :: 0 <= i < |LastFundingPhrasings| && 0 <= j < |LastContactPhrasings| ==> LastFundingPhrasings[i] != LastContactPhrasings[j]
  {
    LastFundingApartFromLastContactLow();
    LastFundingApartFromLastContactHigh();
  }

  lemma LastFundingApartFromLastContactLow()
    ensures forall i, j :: 0 <= i < 15 && 0 <= j < |LastContactPhrasings| ==> LastFundingPhrasings[i] != LastContactPhrasings[j]
  {
  }

  lemma LastFundingApartFromLastContactHigh()
    ensures forall i, j :: 15 <= i < |LastFundingPhrasings| && 0 <= j < |LastContactPhrasings| ==> LastFundingPhrasings[i] != LastContactPhrasings[j]
  {
  }

  /** The intent whose list position `i` of the flattened bank comes from. */
  function BlockIntent(i: nat): Intent
  {
    if i < 30 then CheckStatus else if i < 30 + 29 then LastFunding else LastContact
  }

  /** The reverse lookup of a bank phrasing gives the intent of the list it sits in. */
  lemma ReverseLookupGivesBlock(i: nat)
    requires i < |AllTemplates()|
    ensures IntentFor(AllTemplates()[i]) == Some(BlockIntent(i))
  {
    AllTemplatesInTableOrder();
    IntentForByList(AllTemplates()[i]);
    CheckStatusApartFromLastFunding();
    CheckStatusApartFromLastContact();
    LastFundingApartFromLastContact();
    if i < 30 {
      assert AllTemplates()[i] == CheckStatusPhrasings[i];
    } else if i < 59 {
      assert AllTemplates()[i] == LastFundingPhrasings[i - 30];
    } else {
      assert AllTemplates()[i] == LastContactPhrasings[i - 59];
    }
  }

  /** Every phrasing `get_all_templates` returns has an intent. */
  lemma EveryTemplateHasIntent()
    ensures forall t :: t in AllTemplates() ==> IntentFor(t).Some?
  {
    forall t | t in AllTemplates() ensures IntentFor(t).Some? {
      var i :| 0 <= i < |AllTemplates()| && AllTemplates()[i] == t;
      ReverseLookupGivesBlock(i);
    }
  }

  /** A phrasing repeated in the bank is repeated inside one intent's list. */
  lemma RepeatsStayInOneIntent(i: nat, j: nat)
    requires i < |AllTemplates()| && j < |AllTemplates()|
    requires AllTemplates()[i] == AllTemplates()[j]
    ensures BlockIntent(i) == BlockIntent(j)
  {
    ReverseLookupGivesBlock(i);
    ReverseLookupGivesBlock(j);
  }

  /** The bank does repeat two phrasings: one in check_status, one in last_contact. */
  lemma BankRepeats()
    ensures CheckStatusPhrasings[4] == CheckStatusPhrasings[10] == "How is [company] doing?"
    ensures LastContactPhrasings[0] == LastContactPhrasings[7] == "When was [company] last contacted?"
  {
  }
}
