/**
 * The query engine: a fuzzy resolver from a typed company name to a row of
 * the companies table, and the three lookups built on it (status, last
 * closed funding round, last contact).
 *
 * Tables are sequences of records. The fuzzy scorer is a parameter that maps
 * a query and a candidate name to a score from 0 to 100. Dates are integers
 * that order like the dates they stand for.
 */
module QueryEngine {
  import opened Wrappers
  import opened Ranking

  /** A fuzzy-match score. */
  type Score = r: real | 0.0 <= r <= 100.0

  /** A row of the companies table. */
  datatype Company = Company(
    companyId: string, name: string, stage: string, program: string,
    lastContacted: string, industry: string, totalFunding: string, location: string)

  /** A row of the opportunities table. */
  datatype Opportunity = Opportunity(companyId: string, stage: string, kind: string, amount: string, dateClosed: int)

  /** A row of the contacts table. */
  datatype Contact = Contact(companyId: string, name: string, role: string, lastMeeting: int)

  /** What `check_status` reports on success. */
  datatype Status = Status(
    companyName: string, stage: string, program: string, lastContacted: string,
    industry: string, totalFunding: string, location: string)

  /** What `last_funding_event` reports on success. */
  datatype FundingEvent = FundingEvent(companyName: string, fundingType: string, amount: string, dateClosed: int, totalClosedRounds: nat)

  /** What `last_contact` reports on success. */
  datatype ContactEvent = ContactEvent(companyName: string, lastContactDate: int, contactName: string, contactRole: string, totalContacts: nat)

  /**
   * The three shapes of a lookup's dictionary: the `error` one when the name
   * is not resolved, the `message` one when the company has no matching
   * records, and the full report.
   */
  datatype Answer<T> = NotFound(error: string) | NoRecords(companyName: string, message: string) | Found(report: T)

  /** The score above which a fuzzy match is accepted; a score of exactly 70 is rejected. */
  const AcceptAbove: real := 70.0

  /** The scores of the company names against the query, in table order. */
  function NameScores(query: string, companies: seq<Company>, scorer: (string, string) -> Score): (scores: seq<real>)
    ensures |scores| == |companies|
    ensures forall i :: 0 <= i < |companies| ==> scores[i] == scorer(query, companies[i].name) as real
  {
    seq(|companies|, i requires 0 <= i < |companies| => scorer(query, companies[i].name) as real)
  }

  /**
   * `get_best_company_match`: the name of the first company of highest
   * score, when that score is above 70.
   */
  function BestCompanyMatch(query: string, companies: seq<Company>, scorer: (string, string) -> Score): (m: Option<string>)
    requires |companies| > 0
    ensures exists b: nat :: (
      && IsFirstMax(NameScores(query, companies, scorer), b)
      && (m.Some? <==> NameScores(query, companies, scorer)[b] > AcceptAbove)
      && (m.Some? ==> m.value == companies[b].name))
  {
    var scores := NameScores(query, companies, scorer);
    var b := FirstMaxIndex(scores);
    if scores[b] > AcceptAbove then Some(companies[b].name) else None
  }

  /** The resolver accepts a name exactly when some company scores above 70, and then one that no company outscores. */
  lemma BestCompanyMatchAccepts(query: string, companies: seq<Company>, scorer: (string, string) -> Score)
    requires |companies| > 0
    ensures BestCompanyMatch(query, companies, scorer).Some? <==>
      exists k :: 0 <= k < |companies| && scorer(query, companies[k].name) as real > AcceptAbove
    ensures BestCompanyMatch(query, companies, scorer).Some? ==>
      exists k :: 0 <= k < |companies| && companies[k].name == BestCompanyMatch(query, companies, scorer).value
        && forall j :: 0 <= j < |companies| ==> scorer(query, companies[j].name) <= scorer(query, companies[k].name)
  {
    var scores := NameScores(query, companies, scorer);
    var b := FirstMaxIndex(scores);
    assert forall j :: 0 <= j < |companies| ==> scores[j] == scorer(query, companies[j].name) as real;
    if exists k :: 0 <= k < |companies| && scorer(query, companies[k].name) as real > AcceptAbove {
      var k :| 0 <= k < |companies| && scorer(query, companies[k].name) as real > AcceptAbove;
      assert scores[k] <= scores[b];
    }
  }

  /** The error text of a name that does not resolve; it quotes the query as typed. */
  function NotFoundMessage(query: string): (msg: string)
    ensures |msg| > 9 + |query| && msg[9..9 + |query|] == query
  {
    "Company '" + query + "' not found in the database. Try searching for a company from the list."
  }

  /** Different queries give different error texts. */
  lemma NotFoundMessageInjective(a: string, b: string)
    requires NotFoundMessage(a) == NotFoundMessage(b)
    ensures a == b
  {
    assert |a| == |b|;
  }

  /** The position of the first company named `name`. */
  function FirstNamed(companies: seq<Company>, name: string): (i: nat)
    requires exists k :: 0 <= k < |companies| && companies[k].name == name
    ensures i < |companies| && companies[i].name == name
    ensures forall k :: 0 <= k < i ==> companies[k].name != name
  {
    if companies[0].name == name then 0 else 1 + FirstNamed(companies[1..], name)
  }

  /** The resolved company's row: the first row carrying the matched name. */
  function MatchedCompany(query: string, companies: seq<Company>, scorer: (string, string) -> Score): (c: Option<Company>)
    requires |companies| > 0
    ensures c.None? <==> BestCompanyMatch(query, companies, scorer).None?
    ensures c.Some? ==> c.value in companies && c.value.name == BestCompanyMatch(query, companies, scorer).value
    ensures c.Some? ==> exists i :: (
      && 0 <= i < |companies| && companies[i] == c.value
      && forall k :: 0 <= k < i ==> companies[k].name != c.value.name)
  {
    match BestCompanyMatch(query, companies, scorer)
    case None => None
    case Some(name) => Some(companies[FirstNamed(companies, name)])
  }

  /** `check_status`: the status fields of the resolved company. */
  function CheckStatus(companies: seq<Company>, query: string, scorer: (string, string) -> Score): (a: Answer<Status>)
    requires |companies| > 0
    ensures a.NotFound? <==> BestCompanyMatch(query, companies, scorer).None?
    ensures a.NotFound? ==> a.error == NotFoundMessage(query)
    ensures !a.NoRecords?
    ensures a.Found? ==>
      var c := MatchedCompany(query, companies, scorer).value;
      a.report.companyName == BestCompanyMatch(query, companies, scorer).value
      && a.report == Status(c.name, c.stage, c.program, c.lastContacted, c.industry, c.totalFunding, c.location)
  {
    match MatchedCompany(query, companies, scorer)
    case None => NotFound(NotFoundMessage(query))
    case Some(c) => Found(Status(c.name, c.stage, c.program, c.lastContacted, c.industry, c.totalFunding, c.location))
  }

  /** The opportunities of company `id` at stage `Closed Won`, in table order. */
  function ClosedWon(opps: seq<Opportunity>, id: string): (r: seq<Opportunity>)
    ensures |r| <= |opps|
    ensures forall o :: o in r <==> o in opps && o.companyId == id && o.stage == "Closed Won"
    ensures forall o :: multiset(r)[o] == if o.companyId == id && o.stage == "Closed Won" then multiset(opps)[o] else 0
  {
    if |opps| == 0 then []
    else
      assert opps == [opps[0]] + opps[1..];
      (if opps[0].companyId == id && opps[0].stage == "Closed Won" then [opps[0]] else [])
      + ClosedWon(opps[1..], id)
  }

  /** The contacts of company `id`, in table order. */
  function ContactsOf(contacts: seq<Contact>, id: string): (r: seq<Contact>)
    ensures |r| <= |contacts|
    ensures forall c :: c in r <==> c in contacts && c.companyId == id
    ensures forall c :: multiset(r)[c] == if c.companyId == id then multiset(contacts)[c] else 0
  {
    if |contacts| == 0 then []
    else
      assert contacts == [contacts[0]] + contacts[1..];
      (if contacts[0].companyId == id then [contacts[0]] else []) + ContactsOf(contacts[1..], id)
  }

  /** The latest closing, first in table order among equal dates. */
  function LatestClosed(opps: seq<Opportunity>): (o: Opportunity)
    requires |opps| > 0
    ensures o in opps && forall p :: p in opps ==> p.dateClosed <= o.dateClosed
  {
    var keys := seq(|opps|, i requires 0 <= i < |opps| => opps[i].dateClosed as real);
    var b := FirstMaxIndex(keys);
    assert forall p :: p in opps ==> p.dateClosed <= opps[b].dateClosed by {
      forall p | p in opps ensures p.dateClosed <= opps[b].dateClosed {
        var i :| 0 <= i < |opps| && opps[i] == p;
        assert keys[i] <= keys[b];
      }
    }
    opps[b]
  }

  /** The latest meeting, first in table order among equal dates. */
  function LatestMeeting(contacts: seq<Contact>): (c: Contact)
    requires |contacts| > 0
    ensures c in contacts && forall d :: d in contacts ==> d.lastMeeting <= c.lastMeeting
  {
    var keys := seq(|contacts|, i requires 0 <= i < |contacts| => contacts[i].lastMeeting as real);
    var b := FirstMaxIndex(keys);
    assert forall d :: d in contacts ==> d.lastMeeting <= contacts[b].lastMeeting by {
      forall d | d in contacts ensures d.lastMeeting <= contacts[b].lastMeeting {
        var i :| 0 <= i < |contacts| && contacts[i] == d;
        assert keys[i] <= keys[b];
      }
    }
    contacts[b]
  }

  /** The funding part of `last_funding_event` for a resolved company `c`. */
  function FundingOf(opps: seq<Opportunity>, c: Company): (a: Answer<FundingEvent>)
    ensures !a.NotFound?
    ensures a.NoRecords? <==> forall o :: o in opps ==> !(o.companyId == c.companyId && o.stage == "Closed Won")
    ensures a.NoRecords? ==> a.companyName == c.name
    ensures a.Found? ==>
      && a.report.companyName == c.name
      && a.report.totalClosedRounds == |ClosedWon(opps, c.companyId)| >= 1
      && (exists o :: o in opps && o.companyId == c.companyId && o.stage == "Closed Won"
            && a.report.dateClosed == o.dateClosed && a.report.fundingType == o.kind && a.report.amount == o.amount)
      && forall o :: o in opps && o.companyId == c.companyId && o.stage == "Closed Won" ==> o.dateClosed <= a.report.dateClosed
  {
    var won := ClosedWon(opps, c.companyId);
    if |won| == 0 then NoRecords(c.name, "No closed funding rounds found for this company.")
    else
      assert won[0] in won;
      var latest := LatestClosed(won);
      Found(FundingEvent(c.name, latest.kind, latest.amount, latest.dateClosed, |won|))
  }

  /**
   * `last_funding_event`: the latest `Closed Won` round of the resolved
   * company, and how many such rounds it has.
   */
  function LastFundingEvent(opps: seq<Opportunity>, companies: seq<Company>, query: string, scorer: (string, string) -> Score): (a: Answer<FundingEvent>)
    requires |companies| > 0
    ensures a.NotFound? <==> BestCompanyMatch(query, companies, scorer).None?
    ensures a.NotFound? ==> a.error == NotFoundMessage(query)
    ensures !a.NotFound? ==>
      var c := MatchedCompany(query, companies, scorer).value;
      && (a.NoRecords? <==> forall o :: o in opps ==> !(o.companyId == c.companyId && o.stage == "Closed Won"))
      && (a.NoRecords? ==> a.companyName == c.name)
      && (a.Found? ==>
            && a.report.companyName == c.name
            && a.report.totalClosedRounds == |ClosedWon(opps, c.companyId)| >= 1
            && (exists o :: o in opps && o.companyId == c.companyId && o.stage == "Closed Won"
                  && a.report.dateClosed == o.dateClosed && a.report.fundingType == o.kind && a.report.amount == o.amount)
            && forall o :: o in opps && o.companyId == c.companyId && o.stage == "Closed Won" ==> o.dateClosed <= a.report.dateClosed)
  {
    match MatchedCompany(query, companies, scorer)
    case None => NotFound(NotFoundMessage(query))
    case Some(c) => FundingOf(opps, c)
  }

  /** The contact part of `last_contact` for a resolved company `c`. */
  function ContactOf(contacts: seq<Contact>, c: Company): (a: Answer<ContactEvent>)
    ensures !a.NotFound?
    ensures a.NoRecords? <==> forall d :: d in contacts ==> d.companyId != c.companyId
    ensures a.NoRecords? ==> a.companyName == c.name
    ensures a.Found? ==>
      && a.report.companyName == c.name
      && a.report.totalContacts == |ContactsOf(contacts, c.companyId)| >= 1
      && (exists d :: d in contacts && d.companyId == c.companyId
            && a.report.lastContactDate == d.lastMeeting && a.report.contactName == d.name && a.report.contactRole == d.role)
      && forall d :: d in contacts && d.companyId == c.companyId ==> d.lastMeeting <= a.report.lastContactDate
  {
    var mine := ContactsOf(contacts, c.companyId);
    if |mine| == 0 then NoRecords(c.name, "No contacts found for this company.")
    else
      assert mine[0] in mine;
      var latest := LatestMeeting(mine);
      Found(ContactEvent(c.name, latest.lastMeeting, latest.name, latest.role, |mine|))
  }

  /**
   * `last_contact`: the latest meeting with any contact of the resolved
   * company, and how many contacts it has.
   */
  function LastContact(contacts: seq<Contact>, query: string, companies: seq<Company>, scorer: (string, string) -> Score): (a: Answer<ContactEvent>)
    requires |companies| > 0
    ensures a.NotFound? <==> BestCompanyMatch(query, companies, scorer).None?
    ensures a.NotFound? ==> a.error == NotFoundMessage(query)
    ensures !a.NotFound? ==>
      var c := MatchedCompany(query, companies, scorer).value;
      && (a.NoRecords? <==> forall d :: d in contacts ==> d.companyId != c.companyId)
      && (a.NoRecords? ==> a.companyName == c.name)
      && (a.Found? ==>
            && a.report.companyName == c.name
            && a.report.totalContacts == |ContactsOf(contacts, c.companyId)| >= 1
            && (exists d :: d in contacts && d.companyId == c.companyId
                  && a.report.lastContactDate == d.lastMeeting && a.report.contactName == d.name && a.report.contactRole == d.role)
            && forall d :: d in contacts && d.companyId == c.companyId ==> d.lastMeeting <= a.report.lastContactDate)
  {
    match MatchedCompany(query, companies, scorer)
    case None => NotFound(NotFoundMessage(query))
    case Some(c) => ContactOf(contacts, c)
  }

  /** An unresolved name gets the same error from all three lookups. */
  lemma UnresolvedSameError(
    companies: seq<Company>, opps: seq<Opportunity>, contacts: seq<Contact>,
    query: string, scorer: (string, string) -> Score)
    requires |companies| > 0
    ensures CheckStatus(companies, query, scorer).NotFound?
      <==> LastFundingEvent(opps, companies, query, scorer).NotFound?
    ensures CheckStatus(companies, query, scorer).NotFound?
      <==> LastContact(contacts, query, companies, scorer).NotFound?
    ensures CheckStatus(companies, query, scorer).NotFound? ==>
      var e := CheckStatus(companies, query, scorer).error;
      e == LastFundingEvent(opps, companies, query, scorer).error
      && e == LastContact(contacts, query, companies, scorer).error
  {
  }

  /** The three lookups report the same company, the resolver's. */
  lemma LookupsAgreeOnCompany(
    companies: seq<Company>, opps: seq<Opportunity>, contacts: seq<Contact>,
    query: string, scorer: (string, string) -> Score)
    requires |companies| > 0
    requires BestCompanyMatch(query, companies, scorer).Some?
    ensures var name := BestCompanyMatch(query, companies, scorer).value;
      && CheckStatus(companies, query, scorer).report.companyName == name
      && (LastFundingEvent(opps, companies, query, scorer).NoRecords? ==>
            LastFundingEvent(opps, companies, query, scorer).companyName == name)
      && (LastFundingEvent(opps, companies, query, scorer).Found? ==>
            LastFundingEvent(opps, companies, query, scorer).report.companyName == name)
      && (LastContact(contacts, query, companies, scorer).NoRecords? ==>
            LastContact(contacts, query, companies, scorer).companyName == name)
      && (LastContact(contacts, query, companies, scorer).Found? ==>
            LastContact(contacts, query, companies, scorer).report.companyName == name)
  {
  }
}
