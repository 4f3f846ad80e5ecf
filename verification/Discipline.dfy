/**
 Runs in which approval is only applied to the qualification queue, as
 blueprints/admin.py lists it.
 */
module Discipline {
  import opened Wrappers
  import opened Tenders
  import opened TenderSafety

  ghost predicate OneLinkEach(t: Tender) {
    forall i, j :: i in t.links && j in t.links && t.links[i].caterer == t.links[j].caterer ==> i == j
  }

  /** The third answer shuts out everyone still invited. */
  ghost predicate FullMeansClosed(t: Tender) {
    |Transmitted(t.links)| == 3 ==> forall i :: i in t.links ==> t.links[i].status != Selected
  }

  /** The award: one accepted quote, its order, and every other caterer shut out. */
  ghost predicate AwardedTo(t: Tender, q: Id) {
    && q in t.quotes && t.quotes[q].status == QuoteAccepted
    && (forall p :: p in t.quotes && t.quotes[p].status == QuoteAccepted ==> p == q)
    && (exists o :: o in t.orders && t.orders[o].quote == q)
    && (forall i :: i in t.links && t.links[i].caterer != t.quotes[q].caterer ==>
          t.links[i].status == Closed || t.links[i].status == Rejected)
  }

  ghost predicate CompletedIsAwarded(t: Tender) {
    t.status == Completed ==> exists q :: AwardedTo(t, q)
  }

  ghost predicate Orderly(t: Tender) {
    Sound(t) && OrderedForGood(t) && OneLinkEach(t) && FullMeansClosed(t) && CompletedIsAwarded(t)
  }

  lemma SubmitKeepsOrderly(t: Tender, q: Id, caterer: Id, hint: Id)
    requires Orderly(t)
    ensures FullMeansClosed(SubmitTender(t, q, caterer, hint).0)
    ensures OneLinkEach(SubmitTender(t, q, caterer, hint).0)
  {
    hide OrdersMatchQuotes, ClosedHasNoSent, OneDraftEach, KnownStatus;
    var after := SubmitTender(t, q, caterer, hint).0;
    var picked := Pick(LinksOf(t.links, caterer), hint);
    if after.links != t.links {
      TransmittedGrowsByOne(t.links, after.links, picked.value);
      SameCaterersOneLinkEach(t, after);
    }
    hide OneLinkEach;
  }

  lemma SameCaterersOneLinkEach(t: Tender, after: Tender)
    requires OneLinkEach(t) && after.links.Keys == t.links.Keys
    requires forall i :: i in t.links ==> after.links[i].caterer == t.links[i].caterer
    ensures OneLinkEach(after)
  {
    forall i, j | i in after.links && j in after.links && after.links[i].caterer == after.links[j].caterer
      ensures i == j
    {
      assert t.links[i].caterer == t.links[j].caterer;
    }
  }

  lemma AcceptKeepsOrderly(t: Tender, company: Id, q: Id, order: Id, user: Id, today: Day)
    requires Orderly(t)
    ensures var after := AcceptTender(t, company, q, order, user, today).0;
            FullMeansClosed(after) && OneLinkEach(after) && CompletedIsAwarded(after)
  {
    var (after, reply) := AcceptTender(t, company, q, order, user, today);
    if reply == Done {
      SubsetCard(Transmitted(after.links), Transmitted(t.links));
      assert t.orders == map[];
      assert after.orders[order].quote == q;
      assert AwardedTo(after, q);
    }
  }

  lemma DeclineKeepsOrderly(t: Tender, caterer: Id, link: Id, hint: Id)
    requires Orderly(t)
    ensures var after := DeclineTender(t, caterer, link, hint).0;
            FullMeansClosed(after) && OneLinkEach(after) && CompletedIsAwarded(after)
  {
    var (after, reply) := DeclineTender(t, caterer, link, hint);
    if reply == Done {
      SubsetCard(Transmitted(after.links), Transmitted(t.links));
      if t.status == Completed {
        var q :| AwardedTo(t, q);
        assert AwardedTo(after, q);
      }
    }
  }

  lemma ApproveKeepsOrderly(t: Tender, fan: map<Id, Id>)
    requires Orderly(t) && t.status == PendingReview && OnePerCaterer(fan)
    ensures var after := ApproveTender(t, fan).0;
            FullMeansClosed(after) && OneLinkEach(after) && CompletedIsAwarded(after)
  {
    var after := ApproveTender(t, fan).0;
    FannedOutRows(t.links, fan, t.id);
    assert Transmitted(after.links) == {};
  }

  lemma RefuseKeepsOrderly(t: Tender, company: Id, q: Id)
    requires Orderly(t)
    ensures CompletedIsAwarded(RefuseTender(t, company, q).0)
  {
    var (after, reply) := RefuseTender(t, company, q);
    if reply == Done {
      assert SentQuotes(after.quotes) <= SentQuotes(t.quotes);
      assert after.status != Completed;
    }
  }

  lemma DraftingKeepsOrderly(t: Tender, q: Id, caterer: Id, form: Form)
    requires Orderly(t)
    ensures CompletedIsAwarded(CreateTenderQuote(t, q, caterer, form).0)
    ensures CompletedIsAwarded(UpdateTenderQuote(t, q, caterer, form).0)
  {
    if t.status == Completed {
      var a :| AwardedTo(t, a);
      assert AwardedTo(CreateTenderQuote(t, q, caterer, form).0, a);
      assert AwardedTo(UpdateTenderQuote(t, q, caterer, form).0, a);
    }
  }

  /** The part of `Orderly` that discipline adds. */
  ghost predicate Settled(t: Tender) {
    OneLinkEach(t) && FullMeansClosed(t) && CompletedIsAwarded(t)
  }

  lemma AnswersKeepSettled(t: Tender, a: Act)
    requires Orderly(t) && (a.Submit? || a.Decline?)
    ensures Settled(Perform(t, a).0)
  {
    hide Sound, OrderedForGood, AwardedTo, BodyOf, OneLinkEach, FullMeansClosed;
    if a.Submit? {
      SubmitKeepsOrderly(t, a.quote, a.caterer, a.link);
    } else {
      DeclineKeepsOrderly(t, a.caterer, a.link, a.hint);
    }
  }

  /** The handlers that touch no link. */
  lemma OthersKeepSettled(t: Tender, a: Act)
    requires Orderly(t) && !a.Submit? && !a.Decline? && !a.Approve? && !a.Accept?
    ensures Settled(Perform(t, a).0)
  {
    hide Sound, OrderedForGood, AwardedTo, BodyOf;
    match a
    case Edit(_, _, _) =>
    case AdminReject =>
    case CreateQuote(q, caterer, form) => DraftingKeepsOrderly(t, q, caterer, form);
    case UpdateQuote(q, caterer, form) => DraftingKeepsOrderly(t, q, caterer, form);
    case Refuse(company, q) => RefuseKeepsOrderly(t, company, q);
  }

  lemma PerformKeepsSettled(t: Tender, a: Act)
    requires Orderly(t) && Disciplined(t, a)
    ensures Settled(Perform(t, a).0)
  {
    if a.Approve? {
      ApproveKeepsOrderly(t, a.fan);
    } else if a.Accept? {
      AcceptKeepsOrderly(t, a.company, a.quote, a.newOrder, a.user, a.today);
    } else if a.Submit? || a.Decline? {
      AnswersKeepSettled(t, a);
    } else {
      OthersKeepSettled(t, a);
    }
    hide ApproveTender, AcceptTender, OneLinkEach, FullMeansClosed, CompletedIsAwarded, Sound, OrderedForGood;
  }

  lemma PerformKeepsOrderly(t: Tender, a: Act)
    requires Orderly(t) && Disciplined(t, a)
    ensures Orderly(Perform(t, a).0)
  {
    PerformKeepsSound(t, a);
    assert NotAfterOrder(t, a);
    PerformKeepsOrderedForGood(t, a);
    PerformKeepsSettled(t, a);
  }

  ghost predicate MarketOrderly(m: Market) {
    forall id :: id in m ==> m[id].id == id && Orderly(m[id])
  }

  lemma DisciplinedFront(m: Market, es: seq<Event>)
    requires DisciplinedRun(m, es) && es != []
    ensures DisciplinedRun(m, es[..|es| - 1])
  {
    var front := es[..|es| - 1];
    forall k | 0 <= k < |front| ensures front[..k] == es[..k] && front[k] == es[k] {
    }
  }

  lemma OpenedIsOrderly(id: Id, company: Id, user: Id, compare: bool, target: Option<Target>)
    ensures Orderly(Opened(id, company, user, compare, target))
  {
    var t := Opened(id, company, user, compare, target);
    assert Transmitted(t.links) == {};
  }

  /**
   Disciplined runs: on top of soundness, one link per caterer, a full house
   leaves nobody invited, at most one order per request, and a completed
   request has exactly one accepted quote, its order, and no open rival.
   */
  lemma {:induction false} DisciplinedRunsAreOrderly(m: Market, es: seq<Event>)
    requires Initial(m) && DisciplinedRun(m, es)
    ensures MarketOrderly(Run(m, es))
    decreases |es|
  {
    if es == [] {
      forall id | id in m ensures Orderly(m[id]) {
        assert Transmitted(m[id].links) == {};
      }
    } else {
      var front, e := es[..|es| - 1], es[|es| - 1];
      DisciplinedFront(m, es);
      DisciplinedRunsAreOrderly(m, front);
      assert front == es[..|front|] && e == es[|front|];
      StepKeepsOrderly(Run(m, front), e);
    }
  }

  lemma OrderlyWith(m: Market, id: Id, t: Tender)
    requires MarketOrderly(m) && t.id == id && Orderly(t)
    ensures MarketOrderly(m[id := t])
  {
  }

  lemma StepKeepsOrderly(m: Market, e: Event)
    requires MarketOrderly(m) && (e.On? && e.id in m ==> Disciplined(m[e.id], e.act))
    ensures MarketOrderly(Step(m, e))
  {
    match e
    case NewRequest(id, company, user, compare, target) =>
      OpenedIsOrderly(id, company, user, compare, target);
      OrderlyWith(m, id, Opened(id, company, user, compare, target));
    case On(id, act) =>
      if id in m {
        PerformKeepsOrderly(m[id], act);
        PerformKeepsIdentity(m[id], act);
        OrderlyWith(m, id, Perform(m[id], act).0);
      }
  }

  /** The unordered link lookup has one answer: which row it returns never matters. */
  lemma LinkLookupIsDeterministic(t: Tender, caterer: Id, hint: Id, other: Id)
    requires Orderly(t)
    ensures Pick(LinksOf(t.links, caterer), hint) == Pick(LinksOf(t.links, caterer), other)
  {
  }

  /** A completed request keeps its label under a refusal if and only if the refusal finds no request or no quote. */
  lemma RefusalKeepsCompletedIff(t: Tender, company: Id, q: Id)
    requires Sound(t) && t.status == Completed
    ensures RefuseTender(t, company, q).0.status == Completed <==> t.company != company || q !in t.quotes
  {
    assert SentQuotes(RefuseTender(t, company, q).0.quotes) <= SentQuotes(t.quotes);
  }

  /**
   `refuse_quote` looks at no status: on a completed request it always relabels
   the request `quotes_refused`, and the order stays.
   */
  lemma RefusingAfterAwardRelabels(t: Tender, q: Id)
    requires Orderly(t) && t.status == Completed && q in t.quotes
    ensures var (after, reply) := RefuseTender(t, t.company, q);
            reply == Done && after.status == QuotesRefused && after.orders == t.orders && |after.orders| == 1
  {
    var after := RefuseTender(t, t.company, q).0;
    assert SentQuotes(after.quotes) <= SentQuotes(t.quotes);
    var a :| AwardedTo(t, a);
    var o :| o in t.orders && t.orders[o].quote == a;
    assert t.orders.Keys == {o};
    assert |t.orders| == |t.orders.Keys|;
  }
}
