/**
 Over whole runs: every row of every reachable request was put there by somebody
 entitled to, and the call that did so is in the run.
 */
module Provenance {
  import opened Wrappers
  import opened Tenders
  import opened TenderSafety
  import opened QuoteTotals
  import opened Causes
  import Money
  import QuoteLaws

  /** What was not there at the start and is there at the end appeared at one of the calls. */
  lemma {:induction false} Appeared(m: Market, es: seq<Event>, has: Market -> bool) returns (k: nat)
    requires !has(m) && has(Run(m, es))
    ensures k < |es| && !has(Run(m, es[..k])) && has(Step(Run(m, es[..k]), es[k]))
    decreases |es|
  {
    var n := |es| - 1;
    if has(Run(m, es[..n])) {
      k := Appeared(m, es[..n], has);
      assert es[..n][..k] == es[..k];
    } else {
      k := n;
    }
  }

  /** The request as it was before call number k of the run, and the call. */
  ghost predicate CalledOn(m: Market, es: seq<Event>, k: nat, id: Id, before: Tender, a: Act) {
    k < |es| && es[k] == On(id, a) && id in Run(m, es[..k]) && Run(m, es[..k])[id] == before
  }

  /** The request after call number k. */
  lemma AfterCall(m: Market, es: seq<Event>, k: nat)
    requires Initial(m) && k < |es|
    ensures Run(m, es[..k + 1]) == Step(Run(m, es[..k]), es[k])
    ensures MarketAdvances(Step(Run(m, es[..k]), es[k]), Run(m, es))
  {
    assert es[..k + 1][..k] == es[..k] && es[..k + 1][k] == es[k];
    EveryRunAdvances(m, es, k + 1);
  }

  /** A row that appears in a request appears at a call on it, or with the request. */
  lemma AppearsInRequest(n: Market, e: Event, id: Id)
    requires id in Step(n, e) && (id in n ==> n[id] != Step(n, e)[id])
    ensures id in n ==> e.On? && e.id == id && Step(n, e)[id] == Perform(n[id], e.act).0
    ensures id !in n ==> e.NewRequest? && e.id == id
                         && Step(n, e)[id] == Opened(id, e.company, e.user, e.compare, e.target)
  {
  }

  /** A row that a request has at the end, and not when it opens, was added by a call on it. */
  lemma AddedByCall(m: Market, es: seq<Event>, id: Id, has: Tender -> bool) returns (k: nat, before: Tender, a: Act)
    requires Initial(m) && id in Run(m, es) && has(Run(m, es)[id])
    requires forall t: Tender :: t.quotes == map[] && t.orders == map[] ==> !has(t)
    ensures CalledOn(m, es, k, id, before, a) && !has(before) && has(Perform(before, a).0)
    ensures Advances(Perform(before, a).0, Run(m, es)[id]) && Advances(before, Run(m, es)[id])
    ensures Run(m, es)[id].company == before.company
  {
    var inMarket := (n: Market) => id in n && has(n[id]);
    k := Appeared(m, es, inMarket);
    var n, e := Run(m, es[..k]), es[k];
    AppearsInRequest(n, e, id);
    assert id in n;
    before, a := n[id], e.act;
    AfterCall(m, es, k);
    EveryRunAdvances(m, es, k);
    EveryRequestKeepsItsCompany(m, es, k, id);
    hide Perform, Step, Advances;
  }

  // --- The request -----------------------------------------------------------------------

  /** A request belongs to the company and the user who opened it, from start to end. */
  lemma {:induction false} EveryRequestIsItsClients(m: Market, es: seq<Event>, id: Id)
    requires Initial(m) && id in Run(m, es)
    ensures var t := Run(m, es)[id];
            || (id in m && t.company == m[id].company && t.user == m[id].user)
            || exists k :: 0 <= k < |es| && es[k].NewRequest? && es[k].id == id
                           && t.company == es[k].company && t.user == es[k].user
    decreases |es|
  {
    if es != [] {
      var front, e := es[..|es| - 1], es[|es| - 1];
      if id in Run(m, front) {
        EveryRequestIsItsClients(m, front, id);
        StepKeepsClient(Run(m, front), e, id);
        if !(id in m && Run(m, front)[id].company == m[id].company && Run(m, front)[id].user == m[id].user) {
          var k :| 0 <= k < |front| && front[k].NewRequest? && front[k].id == id
                   && Run(m, front)[id].company == front[k].company && Run(m, front)[id].user == front[k].user;
          assert es[k] == front[k];
        }
      } else {
        AppearsInRequest(Run(m, front), e, id);
      }
    }
  }

  lemma StepKeepsClient(n: Market, e: Event, id: Id)
    requires id in n
    ensures id in Step(n, e) && Step(n, e)[id].company == n[id].company && Step(n, e)[id].user == n[id].user
  {
    hide Perform;
    if e.On? && e.id == id {
      PerformKeepsIdentity(n[id], e.act);
    }
  }

  // --- Orders ------------------------------------------------------------------------------

  /**
   Whatever a run accepts was accepted by the company of the request, while the
   quote was on the table, on a day it was still valid, the last day included;
   and its order is for that quote and that user.
   */
  lemma EveryOrderWasInTime(m: Market, es: seq<Event>, id: Id, o: Id) returns (k: nat, before: Tender, a: Act)
    requires Initial(m) && id in Run(m, es) && o in Run(m, es)[id].orders
    ensures CalledOn(m, es, k, id, before, a) && a.Accept? && a.newOrder == o
    ensures before.status == SentToCaterers && a.quote in before.quotes && before.quotes[a.quote].status == QuoteSent
    ensures var end := Run(m, es)[id];
            && a.company == end.company && end.orders[o] == Tenders.Order(a.quote, a.user)
            && a.quote in end.quotes && ValidOn(end.quotes[a.quote].body.validUntil, a.today)
  {
    hide Perform, Step, CalledOn;
    k, before, a := AddedByCall(m, es, id, (t: Tender) => o in t.orders);
    OrderIsAddedIff(before, a, o);
  }

  lemma {:induction false} EveryRequestKeepsItsCompany(m: Market, es: seq<Event>, k: nat, id: Id)
    requires k <= |es| && id in Run(m, es[..k])
    ensures id in Run(m, es) && Run(m, es)[id].company == Run(m, es[..k])[id].company
    decreases |es|
  {
    if k == |es| {
      assert es[..k] == es;
    } else {
      var front := es[..|es| - 1];
      assert front[..k] == es[..k];
      EveryRequestKeepsItsCompany(m, front, k, id);
      StepKeepsClient(Run(m, front), es[|es| - 1], id);
    }
  }

  // --- Quotes ------------------------------------------------------------------------------

  /** Every quote was drafted by its caterer, invited at the time, with a form within the rules. */
  lemma EveryQuoteWasDrafted(m: Market, es: seq<Event>, id: Id, q: Id) returns (k: nat, before: Tender, a: Act)
    requires Initial(m) && id in Run(m, es) && q in Run(m, es)[id].quotes
    ensures CalledOn(m, es, k, id, before, a) && a.CreateQuote? && a.newQuote == q
    ensures Invited(before, a.caterer) && InRules(a.form) && Run(m, es)[id].quotes[q].caterer == a.caterer
  {
    hide Perform, Step, CalledOn;
    k, before, a := AddedByCall(m, es, id, (t: Tender) => q in t.quotes);
    QuoteIsAddedIff(before, a, q);
  }

  /** Every quote a client sees was sent by its caterer, while the request took quotes and three had not answered. */
  lemma EverySentQuoteWasAnswered(m: Market, es: seq<Event>, id: Id, q: Id)
    returns (k: nat, before: Tender, a: Act)
    requires Initial(m) && id in Run(m, es) && q in Run(m, es)[id].quotes
    requires Run(m, es)[id].quotes[q].status == QuoteSent
    ensures CalledOn(m, es, k, id, before, a) && a.Submit? && a.quote == q
    ensures before.status == SentToCaterers && |Transmitted(before.links)| < 3
    ensures a.caterer == Run(m, es)[id].quotes[q].caterer && Invited(before, a.caterer)
  {
    hide Perform, Step, CalledOn;
    k, before, a := AddedByCall(m, es, id, (t: Tender) => q in t.quotes && t.quotes[q].status == QuoteSent);
    QuoteIsSentIff(before, a, q);
    var i :| Answer(before, a, i);
    assert i in LinksOf(before.links, a.caterer);
    QuoteIsAddedIff(before, a, q);
  }

  // --- Links -------------------------------------------------------------------------------

  /** Every link was drawn by an approval, for the caterer it names, or by the client's own targeted request. */
  lemma EveryLinkWasInvited(m: Market, es: seq<Event>, id: Id, i: Id) returns (k: nat)
    requires Initial(m) && id in Run(m, es) && i in Run(m, es)[id].links
    ensures k < |es| && es[k].id == id
    ensures var caterer := Run(m, es)[id].links[i].caterer;
            match es[k]
            case On(_, a) => a.Approve? && i in a.fan && a.fan[i] == caterer
            case NewRequest(_, _, _, _, target) => target == Some(Target(i, caterer))
  {
    var has := (n: Market) => id in n && i in n[id].links;
    k := Appeared(m, es, has);
    var n, e := Run(m, es[..k]), es[k];
    AppearsInRequest(n, e, id);
    if id in n {
      LinkIsAddedIff(n[id], e.act, i);
    }
    AfterCall(m, es, k);
    hide Perform;
  }

  // --- Stored lines --------------------------------------------------------------------------

  /** A line as the rules leave it: one of the five rates, printed as itself, and bounded numbers. */
  predicate LegalLine(l: Money.Line) {
    && l.rate in {0.0, 2.1, 5.5, 10.0, 20.0}
    && l.rateKey == StoredRateKey(l.rate)
    && 0.0 <= l.quantity <= 10000.0 && 0.0 <= l.unitPrice <= 100000.0
    && 0 < |l.section| <= 50
  }

  ghost predicate LinesLegal(t: Tender) {
    forall q, l :: q in t.quotes && l in t.quotes[q].body.lines ==> LegalLine(l)
  }

  lemma FormLinesLegal(form: Form)
    requires InRules(form)
    ensures forall l :: l in StoredLines(form.raws) ==> LegalLine(l)
  {
    forall l | l in StoredLines(form.raws) ensures LegalLine(l) {
      var i :| 0 <= i < |form.raws| && StoredLines(form.raws)[i] == l;
      QuoteLaws.StoredRow(form.raws[i]);
    }
  }

  lemma PerformKeepsLinesLegal(t: Tender, a: Act)
    requires LinesLegal(t)
    ensures LinesLegal(Perform(t, a).0)
  {
    var after := Perform(t, a).0;
    if (a.CreateQuote? || a.UpdateQuote?) && InRules(a.form) {
      FormLinesLegal(a.form);
    }
    hide Perform, LegalLine;
    forall q, l | q in after.quotes && l in after.quotes[q].body.lines ensures LegalLine(l) {
      QuoteIsAddedIff(t, a, q);
      if q in t.quotes {
        BodyIsWrittenIff(t, a, q);
      }
    }
  }

  /** Every stored line of every quote of every reachable request is within the rules. */
  lemma {:induction false} EveryStoredLineIsLegal(m: Market, es: seq<Event>)
    requires Initial(m)
    ensures forall id :: id in Run(m, es) ==> LinesLegal(Run(m, es)[id])
    decreases |es|
  {
    if es != [] {
      EveryStoredLineIsLegal(m, es[..|es| - 1]);
      var n, e := Run(m, es[..|es| - 1]), es[|es| - 1];
      if e.On? && e.id in n {
        PerformKeepsLinesLegal(n[e.id], e.act);
      }
    }
    hide Perform, LegalLine;
  }
}
