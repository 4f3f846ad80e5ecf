/**
 What every run of the handlers keeps on every request, and what it keeps when
 approval is only used on the qualification queue.
 */
module TenderSafety {
  import opened Wrappers
  import opened QuoteTotals
  import opened Tenders

  // --- Events ---------------------------------------------------------------

  /** The fan-out draws one new row per validated caterer. */
  ghost predicate OnePerCaterer(fan: map<Id, Id>) {
    forall i, j :: i in fan && j in fan && fan[i] == fan[j] ==> i == j
  }

  /** Approval is applied to the qualification queue only. */
  ghost predicate Disciplined(t: Tender, a: Act) {
    a.Approve? ==> t.status == PendingReview && OnePerCaterer(a.fan)
  }

  ghost predicate DisciplinedRun(m: Market, es: seq<Event>) {
    forall k :: 0 <= k < |es| ==>
      es[k].On? && es[k].id in Run(m, es[..k]) ==> Disciplined(Run(m, es[..k])[es[k].id], es[k].act)
  }

  /** Requests that only their client has touched. */
  ghost predicate Initial(m: Market) {
    forall id :: id in m ==>
      && m[id].id == id
      && (m[id].status == Draft || m[id].status == PendingReview)
      && m[id].links == map[] && m[id].quotes == map[] && m[id].orders == map[]
  }

  // --- Invariants of every run ----------------------------------------------

  predicate RowsBelong(t: Tender) {
    && (forall i :: i in t.links ==> t.links[i].request == t.id)
    && (forall q :: q in t.quotes ==> t.quotes[q].request == t.id)
  }

  ghost predicate ThreeResponders(t: Tender) {
    |Transmitted(t.links)| <= 3
  }

  ghost predicate Unopened(t: Tender) {
    t.status == Draft || t.status == PendingReview ==> t.links == map[] && t.quotes == map[]
  }

  /** Orders and accepted quotes: every order was made of an accepted quote, and no quote has two. */
  ghost predicate OrdersMatchQuotes(t: Tender) {
    && (forall o :: o in t.orders ==> t.orders[o].quote in t.quotes)
    && (forall o :: o in t.orders ==>
          var status := t.quotes[t.orders[o].quote].status;
          status == QuoteAccepted || status == QuoteRefused)
    && (forall o, p :: o in t.orders && p in t.orders && t.orders[o].quote == t.orders[p].quote ==> o == p)
    && (forall q :: q in t.quotes && t.quotes[q].status == QuoteAccepted ==>
          exists o :: o in t.orders && t.orders[o].quote == q)
  }

  /** A completed or refused request has no quote left on the table. */
  ghost predicate ClosedHasNoSent(t: Tender) {
    t.status == Completed || t.status == QuotesRefused ==> SentQuotes(t.quotes) == {}
  }

  ghost predicate OneDraftEach(t: Tender) {
    forall q, p :: (q in t.quotes && p in t.quotes
                    && t.quotes[q].caterer == t.quotes[p].caterer
                    && t.quotes[q].status == QuoteDraft && t.quotes[p].status == QuoteDraft) ==> q == p
  }

  ghost predicate KnownStatus(t: Tender) {
    t.status != Approved && forall q :: q in t.quotes ==> t.quotes[q].status != QuoteExpired
  }

  ghost predicate Sound(t: Tender) {
    && RowsBelong(t) && ThreeResponders(t) && Unopened(t) && OrdersMatchQuotes(t)
    && ClosedHasNoSent(t) && OneDraftEach(t) && KnownStatus(t)
  }

  lemma TransmittedGrowsByOne(before: map<Id, Link>, after: map<Id, Link>, i: Id)
    requires forall j :: j in after && after[j].status == TransmittedToClient ==>
               j == i || (j in before && before[j].status == TransmittedToClient)
    ensures |Transmitted(after)| <= |Transmitted(before)| + 1
    ensures i !in Transmitted(after) ==> |Transmitted(after)| <= |Transmitted(before)|
  {
    SubsetCard(Transmitted(after), Transmitted(before) + {i});
    if i !in Transmitted(after) {
      SubsetCard(Transmitted(after), Transmitted(before));
    }
  }

  lemma {:induction false} SubsetCard(a: set<Id>, b: set<Id>)
    requires a <= b
    ensures |a| <= |b|
  {
    if a != {} {
      var x :| x in a;
      SubsetCard(a - {x}, b - {x});
    }
  }

  /** What a transmitted answer does to the rows, for a link not transmitted before. */
  lemma SubmitShape(t: Tender, q: Id, c: Id, hint: Id)
    requires SubmitTender(t, q, c, hint).1 == Done
    ensures var after := SubmitTender(t, q, c, hint).0;
            var link := Pick(LinksOf(t.links, c), hint);
            && link.Some? && link.value in t.links && t.links[link.value].caterer == c
            && var i := link.value;
            && t.status == SentToCaterers && |Transmitted(t.links)| < 3
            && q in t.quotes && t.quotes[q].caterer == c && t.quotes[q].status == QuoteDraft
            && after == t.(links := after.links, quotes := t.quotes[q := t.quotes[q].(status := QuoteSent)])
            && after.links.Keys == t.links.Keys
            && after.links[i] == t.links[i].(status := TransmittedToClient, rank := Some(|Transmitted(t.links)| + 1))
            && (forall j :: j in t.links && j != i ==>
                  after.links[j] == t.links[j]
                  || (t.links[j].status == Selected && after.links[j] == t.links[j].(status := Closed)))
            && Transmitted(after.links) == Transmitted(t.links) + {i}
            && SentQuotes(after.quotes) == SentQuotes(t.quotes) + {q}
  {
  }

  /** An answer that does not go through writes no quote, and closes a link at most. */
  lemma LateSubmitShape(t: Tender, q: Id, caterer: Id, hint: Id)
    requires SubmitTender(t, q, caterer, hint).1 != Done
    ensures var after := SubmitTender(t, q, caterer, hint).0;
            && after == t.(links := after.links) && after.links.Keys == t.links.Keys
            && (forall j :: j in t.links ==>
                  after.links[j] == t.links[j] || after.links[j] == t.links[j].(status := Closed))
  {
  }

  lemma SubmitKeepsSound(t: Tender, q: Id, caterer: Id, hint: Id)
    requires Sound(t)
    ensures Sound(SubmitTender(t, q, caterer, hint).0)
  {
    var (after, reply) := SubmitTender(t, q, caterer, hint);
    if reply == Done {
      SubmitShape(t, q, caterer, hint);
      SentKeepsSound(t, q, Pick(LinksOf(t.links, caterer), hint).value, after);
    } else {
      LateSubmitShape(t, q, caterer, hint);
      ClosingKeepsSound(t, after);
    }
  }

  lemma ClosingKeepsSound(t: Tender, after: Tender)
    requires Sound(t) && after == t.(links := after.links) && after.links.Keys == t.links.Keys
    requires forall j :: j in t.links ==>
        after.links[j] == t.links[j] || after.links[j] == t.links[j].(status := Closed)
    ensures Sound(after)
  {
    SubsetCard(Transmitted(after.links), Transmitted(t.links));
  }

  lemma SentKeepsSound(t: Tender, q: Id, i: Id, after: Tender)
    requires Sound(t) && t.status == SentToCaterers && |Transmitted(t.links)| < 3
    requires q in t.quotes && t.quotes[q].status == QuoteDraft && i in t.links
    requires after == t.(links := after.links, quotes := t.quotes[q := t.quotes[q].(status := QuoteSent)])
    requires after.links.Keys == t.links.Keys && after.links[i].request == t.links[i].request
    requires forall j :: j in t.links && j != i ==>
               after.links[j] == t.links[j] || after.links[j] == t.links[j].(status := Closed)
    requires Transmitted(after.links) == Transmitted(t.links) + {i}
    ensures Sound(after)
  {
    hide OrdersMatchQuotes;
    SubsetCard(Transmitted(after.links), Transmitted(t.links) + {i});
    SentOrdersMatch(t, q, after);
  }

  lemma SentOrdersMatch(t: Tender, q: Id, after: Tender)
    requires OrdersMatchQuotes(t) && q in t.quotes && t.quotes[q].status == QuoteDraft && after.orders == t.orders
    requires after.quotes == t.quotes[q := t.quotes[q].(status := QuoteSent)]
    ensures OrdersMatchQuotes(after)
  {
  }

  /** What an acceptance does to statuses and orders. */
  lemma AcceptShape(t: Tender, company: Id, q: Id, order: Id, user: Id, today: Day)
    requires AcceptTender(t, company, q, order, user, today).1 == Done
    ensures var after := AcceptTender(t, company, q, order, user, today).0;
            && q in t.quotes && t.quotes[q].status == QuoteSent && order !in t.orders
            && after == t.(links := after.links, quotes := after.quotes, orders := after.orders, status := Completed)
            && after.orders == t.orders[order := Order(q, user)]
            && after.links.Keys == t.links.Keys && after.quotes.Keys == t.quotes.Keys
            && (forall i :: i in t.links ==>
                  after.links[i] == t.links[i] || after.links[i] == t.links[i].(status := Closed))
            && (forall p :: p in t.quotes ==>
                  after.quotes[p] == t.quotes[p].(status := if p == q then QuoteAccepted
                                                            else if t.quotes[p].status == QuoteSent then QuoteRefused
                                                            else t.quotes[p].status))
  {
  }

  lemma AcceptKeepsSound(t: Tender, company: Id, q: Id, order: Id, user: Id, today: Day)
    requires Sound(t)
    ensures Sound(AcceptTender(t, company, q, order, user, today).0)
  {
    var (after, reply) := AcceptTender(t, company, q, order, user, today);
    if reply == Done {
      AcceptShape(t, company, q, order, user, today);
      hide AcceptTender;
      AwardedKeepsSound(t, q, order, user, after);
    }
  }

  lemma AwardedKeepsSound(t: Tender, q: Id, order: Id, user: Id, after: Tender)
    requires Sound(t) && q in t.quotes && t.quotes[q].status == QuoteSent && order !in t.orders
    requires after == t.(links := after.links, quotes := after.quotes, orders := after.orders, status := Completed)
    requires after.orders == t.orders[order := Order(q, user)]
    requires after.links.Keys == t.links.Keys && after.quotes.Keys == t.quotes.Keys
    requires forall i :: i in t.links ==>
        after.links[i] == t.links[i] || after.links[i] == t.links[i].(status := Closed)
    requires forall p :: p in t.quotes ==>
               after.quotes[p] == t.quotes[p].(status := if p == q then QuoteAccepted
                                                         else if t.quotes[p].status == QuoteSent then QuoteRefused
                                                         else t.quotes[p].status)
    ensures Sound(after)
  {
    hide OrdersMatchQuotes, OneDraftEach, RowsBelong, ThreeResponders;
    SameRowsBelong(t, after);
    AwardedOrdersMatch(t, q, order, user, after);
    SameDraftsKeepOneEach(t, after);
    assert forall p :: p in after.quotes ==> after.quotes[p].status != QuoteSent;
  }

  lemma SameRowsBelong(t: Tender, after: Tender)
    requires RowsBelong(t) && ThreeResponders(t) && after.id == t.id
    requires after.links.Keys == t.links.Keys && after.quotes.Keys == t.quotes.Keys
    requires forall i :: i in t.links ==>
        after.links[i] == t.links[i] || after.links[i] == t.links[i].(status := Closed)
    requires forall p :: p in t.quotes ==> after.quotes[p].request == t.quotes[p].request
    ensures RowsBelong(after) && ThreeResponders(after)
  {
    SubsetCard(Transmitted(after.links), Transmitted(t.links));
  }

  lemma SameDraftsKeepOneEach(t: Tender, after: Tender)
    requires OneDraftEach(t) && after.quotes.Keys == t.quotes.Keys
    requires forall p :: p in t.quotes ==>
               after.quotes[p].caterer == t.quotes[p].caterer
               && (after.quotes[p].status == QuoteDraft ==> t.quotes[p].status == QuoteDraft)
    ensures OneDraftEach(after)
  {
  }

  /** The new order goes with the quote just accepted, the others stay where they were. */
  lemma AwardedOrdersMatch(t: Tender, q: Id, order: Id, user: Id, after: Tender)
    requires OrdersMatchQuotes(t) && q in t.quotes && t.quotes[q].status == QuoteSent && order !in t.orders
    requires after.orders == t.orders[order := Order(q, user)] && after.quotes.Keys == t.quotes.Keys
    requires forall p :: p in t.quotes ==>
               after.quotes[p].status == if p == q then QuoteAccepted
                                         else if t.quotes[p].status == QuoteSent then QuoteRefused
                                         else t.quotes[p].status
    ensures OrdersMatchQuotes(after)
  {
    forall p | p in after.quotes && after.quotes[p].status == QuoteAccepted
      ensures exists o :: o in after.orders && after.orders[o].quote == p
    {
      assert p == q || t.quotes[p].status == QuoteAccepted;
      AwardedHasOrder(t, q, order, user, after, p);
    }
  }

  lemma AwardedHasOrder(t: Tender, q: Id, order: Id, user: Id, after: Tender, p: Id)
    requires OrdersMatchQuotes(t) && order !in t.orders && after.orders == t.orders[order := Order(q, user)]
    requires p == q || (p in t.quotes && t.quotes[p].status == QuoteAccepted)
    ensures exists o :: o in after.orders && after.orders[o].quote == p
  {
    if p == q {
      assert after.orders[order].quote == q;
    } else {
      var o :| o in t.orders && t.orders[o].quote == p;
      assert after.orders[o].quote == p;
    }
  }

  lemma RefuseShape(t: Tender, company: Id, q: Id)
    requires RefuseTender(t, company, q).1 == Done
    ensures var after := RefuseTender(t, company, q).0;
            && q in t.quotes && after == t.(quotes := after.quotes, status := after.status)
            && after.quotes == RefuseQuotes(t.quotes, {q}) && after.quotes.Keys == t.quotes.Keys
            && (forall p :: p in t.quotes ==>
                  after.quotes[p].caterer == t.quotes[p].caterer
                  && after.quotes[p].status == if p == q then QuoteRefused else t.quotes[p].status)
            && SentQuotes(after.quotes) == SentQuotes(t.quotes) - {q}
            && after.status == if SentQuotes(t.quotes) - {q} == {} then QuotesRefused else t.status
  {
    var after := RefuseTender(t, company, q).0;
    assert SentQuotes(after.quotes) == SentQuotes(t.quotes) - {q};
  }

  lemma RefuseKeepsSound(t: Tender, company: Id, q: Id)
    requires Sound(t)
    ensures Sound(RefuseTender(t, company, q).0)
  {
    if RefuseTender(t, company, q).1 == Done {
      RefuseShape(t, company, q);
      RefusedKeepsSound(t, q, RefuseTender(t, company, q).0);
    }
    hide Sound;
  }

  lemma RefusedKeepsSound(t: Tender, q: Id, after: Tender)
    requires Sound(t) && q in t.quotes && after == t.(quotes := after.quotes, status := after.status)
    requires after.quotes == RefuseQuotes(t.quotes, {q})
    requires SentQuotes(after.quotes) == SentQuotes(t.quotes) - {q}
    requires after.status == if SentQuotes(t.quotes) - {q} == {} then QuotesRefused else t.status
    ensures Sound(after)
  {
    hide OrdersMatchQuotes;
    RefusedOrdersMatch(t, q, after);
  }

  lemma RefusedOrdersMatch(t: Tender, q: Id, after: Tender)
    requires OrdersMatchQuotes(t) && after.orders == t.orders && after.quotes == RefuseQuotes(t.quotes, {q})
    ensures OrdersMatchQuotes(after)
  {
  }

  lemma ApproveKeepsSound(t: Tender, fan: map<Id, Id>)
    requires Sound(t)
    ensures Sound(ApproveTender(t, fan).0)
  {
    if fan != map[] {
      FannedOutRows(t.links, fan, t.id);
      SentOutIsSound(t, FannedOut(t.links, fan, t.id));
    }
  }

  lemma SentOutIsSound(t: Tender, links: map<Id, Link>)
    requires Sound(t)
    requires forall i :: i in links ==>
               links[i].request == t.id
               && (links[i].status == TransmittedToClient ==> i in t.links && links[i] == t.links[i])
    ensures Sound(t.(links := links, status := SentToCaterers))
  {
    SubsetCard(Transmitted(links), Transmitted(t.links));
  }

  lemma FannedOutRows(links: map<Id, Link>, fan: map<Id, Id>, request: Id)
    ensures var after := FannedOut(links, fan, request);
            && after.Keys == links.Keys + fan.Keys
            && (forall i :: i in fan ==> after[i] == Link(request, fan[i], Selected, None))
            && (forall i :: i in links && i !in fan ==> after[i] == links[i])
  {
  }

  lemma DeclineKeepsSound(t: Tender, caterer: Id, link: Id, hint: Id)
    requires Sound(t)
    ensures Sound(DeclineTender(t, caterer, link, hint).0)
  {
    var after := DeclineTender(t, caterer, link, hint).0;
    SubsetCard(Transmitted(after.links), Transmitted(t.links));
  }

  /** A draft written where there was none of this caterer, or over its only one. */
  lemma DraftKeepsSound(t: Tender, q: Id, row: Quote)
    requires Sound(t) && row.request == t.id && row.status == QuoteDraft
    requires t.status != Draft && t.status != PendingReview
    requires if q in t.quotes then t.quotes[q].status == QuoteDraft && t.quotes[q].caterer == row.caterer
             else !HasDraft(t.quotes, row.caterer)
    ensures Sound(t.(quotes := t.quotes[q := row]))
  {
    var after := t.(quotes := t.quotes[q := row]);
    assert SentQuotes(after.quotes) == SentQuotes(t.quotes);
    DraftOrdersMatch(t, q, row);
    hide OrdersMatchQuotes;
  }

  lemma DraftOrdersMatch(t: Tender, q: Id, row: Quote)
    requires OrdersMatchQuotes(t) && row.status == QuoteDraft && (q in t.quotes ==> t.quotes[q].status == QuoteDraft)
    ensures OrdersMatchQuotes(t.(quotes := t.quotes[q := row]))
  {
    forall o | o in t.orders ensures t.orders[o].quote != q || q !in t.quotes {
    }
  }

  lemma DraftingKeepsSound(t: Tender, q: Id, caterer: Id, form: Form)
    requires Sound(t)
    ensures Sound(CreateTenderQuote(t, q, caterer, form).0)
    ensures Sound(UpdateTenderQuote(t, q, caterer, form).0)
  {
    if CreateTenderQuote(t, q, caterer, form).1 == Done {
      DraftKeepsSound(t, q, Quote(t.id, caterer, QuoteDraft, BodyOf(form)));
    }
    var (updated, reply) := UpdateTenderQuote(t, q, caterer, form);
    if reply == Done {
      DraftKeepsSound(t, q, updated.quotes[q]);
    }
  }

  /** Only the status of the request moves, between statuses that ask nothing of its quotes. */
  lemma StatusKeepsSound(t: Tender, status: RequestStatus)
    requires Sound(t) && (status == SentToCaterers || status == Cancelled
                          || (status == PendingReview && Unopened(t.(status := status))))
    ensures Sound(t.(status := status))
  {
  }

  lemma EditKeepsSound(t: Tender, company: Id, only: Option<Id>, compare: bool)
    requires Sound(t)
    ensures Sound(EditTender(t, company, only, compare).0)
  {
    var (after, reply) := EditTender(t, company, only, compare);
    if reply == Done {
      StatusKeepsSound(t, after.status);
    }
  }

  lemma PerformKeepsSound(t: Tender, a: Act)
    requires Sound(t)
    ensures Sound(Perform(t, a).0)
  {
    hide Sound, SubmitTender, AcceptTender, ApproveTender, DeclineTender, RefuseTender;
    hide CreateTenderQuote, UpdateTenderQuote, EditTender;
    match a
    case Edit(company, only, compare) => EditKeepsSound(t, company, only, compare);
    case Approve(fan) => ApproveKeepsSound(t, fan);
    case AdminReject => StatusKeepsSound(t, Cancelled);
    case CreateQuote(q, caterer, form) => DraftingKeepsSound(t, q, caterer, form);
    case UpdateQuote(q, caterer, form) => DraftingKeepsSound(t, q, caterer, form);
    case Submit(q, caterer, link) => SubmitKeepsSound(t, q, caterer, link);
    case Decline(caterer, link, hint) => DeclineKeepsSound(t, caterer, link, hint);
    case Accept(company, q, order, user, today) => AcceptKeepsSound(t, company, q, order, user, today);
    case Refuse(company, q) => RefuseKeepsSound(t, company, q);
  }

  ghost predicate MarketSound(m: Market) {
    forall id :: id in m ==> m[id].id == id && Sound(m[id])
  }

  lemma PerformKeepsIdentity(t: Tender, a: Act)
    ensures var after := Perform(t, a).0;
            after.id == t.id && after.company == t.company && after.user == t.user
  {
  }

  lemma SoundWith(m: Market, id: Id, t: Tender)
    requires MarketSound(m) && t.id == id && Sound(t)
    ensures MarketSound(m[id := t])
  {
  }

  lemma OpenedIsSound(id: Id, company: Id, user: Id, compare: bool, target: Option<Target>)
    ensures Sound(Opened(id, company, user, compare, target))
  {
    assert Transmitted(Opened(id, company, user, compare, target).links) == {};
  }

  lemma StepKeepsSound(m: Market, e: Event)
    requires MarketSound(m)
    ensures MarketSound(Step(m, e))
  {
    hide Sound, Perform;
    match e
    case NewRequest(id, company, user, compare, target) =>
      OpenedIsSound(id, company, user, compare, target);
      SoundWith(m, id, Opened(id, company, user, compare, target));
    case On(id, act) =>
      if id in m {
        PerformKeepsSound(m[id], act);
        PerformKeepsIdentity(m[id], act);
        SoundWith(m, id, Perform(m[id], act).0);
      }
  }

  /**
   Every state reachable by any sequence of handler calls is sound: at most
   three transmitted responders, orders and accepted quotes in step, no sent
   quote on a closed request, one draft per caterer.
   */
  lemma {:induction false} EveryRunIsSound(m: Market, es: seq<Event>)
    requires Initial(m)
    ensures MarketSound(Run(m, es))
    decreases |es|
  {
    if es == [] {
      forall id | id in m ensures Sound(m[id]) {
        assert Transmitted(m[id].links) == {};
      }
    } else {
      EveryRunIsSound(m, es[..|es| - 1]);
      StepKeepsSound(Run(m, es[..|es| - 1]), es[|es| - 1]);
    }
  }

  /** UNIQUE(orders.quote_id) is never what stops a second order: no order carries a quote still on the table. */
  lemma NoOrderYetForASentQuote(t: Tender, q: Id)
    requires Sound(t) && q in t.quotes && t.quotes[q].status == QuoteSent
    ensures forall o :: o in t.orders ==> t.orders[o].quote != q
  {
  }

  // --- Quotes only move forward ---------------------------------------------

  function Stage(s: QuoteStatus): nat {
    match s
    case QuoteDraft => 0
    case QuoteSent => 1
    case QuoteAccepted => 2
    case QuoteRefused => 3
    case QuoteExpired => 4
  }

  /** A quote keeps its owner, never goes back, and says the same thing for ever once it left draft. */
  predicate Progress(before: Quote, after: Quote) {
    && after.request == before.request && after.caterer == before.caterer
    && Stage(before.status) <= Stage(after.status)
    && (before.status != QuoteDraft ==> after.body == before.body)
  }

  ghost predicate Advances(before: Tender, after: Tender) {
    && (forall q :: q in before.quotes ==> q in after.quotes && Progress(before.quotes[q], after.quotes[q]))
    && (forall o :: o in before.orders ==> o in after.orders && after.orders[o] == before.orders[o])
    && (forall i :: i in before.links ==> i in after.links && after.links[i].caterer == before.links[i].caterer)
  }

  lemma StatusAdvances(t: Tender, status: RequestStatus)
    ensures Advances(t, t.(status := status))
  {
  }

  lemma PerformAdvances(t: Tender, a: Act)
    requires KnownStatus(t)
    ensures Advances(t, Perform(t, a).0)
  {
    hide Advances, SubmitTender, AcceptTender, ApproveTender, DeclineTender, RefuseTender;
    hide CreateTenderQuote, UpdateTenderQuote;
    match a
    case Edit(company, only, compare) => StatusAdvances(t, EditTender(t, company, only, compare).0.status);
    case Approve(fan) => ApproveAdvances(t, fan);
    case AdminReject => StatusAdvances(t, Cancelled);
    case CreateQuote(q, caterer, form) => DraftingAdvances(t, q, caterer, form);
    case UpdateQuote(q, caterer, form) => DraftingAdvances(t, q, caterer, form);
    case Submit(q, caterer, link) => SubmitAdvances(t, q, caterer, link);
    case Decline(caterer, link, hint) => DeclineAdvances(t, caterer, link, hint);
    case Accept(company, q, order, user, today) => AcceptAdvances(t, company, q, order, user, today);
    case Refuse(company, q) => RefuseAdvances(t, company, q);
  }

  lemma DraftingAdvances(t: Tender, q: Id, caterer: Id, form: Form)
    ensures Advances(t, CreateTenderQuote(t, q, caterer, form).0)
    ensures Advances(t, UpdateTenderQuote(t, q, caterer, form).0)
  {
    hide BodyOf, Acceptable;
  }

  lemma DeclineAdvances(t: Tender, caterer: Id, link: Id, hint: Id)
    ensures Advances(t, DeclineTender(t, caterer, link, hint).0)
  {
  }

  lemma RefuseAdvances(t: Tender, company: Id, q: Id)
    requires KnownStatus(t)
    ensures Advances(t, RefuseTender(t, company, q).0)
  {
  }

  lemma ApproveAdvances(t: Tender, fan: map<Id, Id>)
    ensures Advances(t, ApproveTender(t, fan).0)
  {
    FannedOutRows(t.links, fan, t.id);
    assert forall i :: i in fan && i in t.links ==> i in fan.Keys * t.links.Keys;
  }

  lemma SubmitAdvances(t: Tender, q: Id, caterer: Id, hint: Id)
    ensures Advances(t, SubmitTender(t, q, caterer, hint).0)
  {
  }

  lemma AcceptAdvances(t: Tender, company: Id, q: Id, order: Id, user: Id, today: Day)
    requires KnownStatus(t)
    ensures Advances(t, AcceptTender(t, company, q, order, user, today).0)
  {
    if AcceptTender(t, company, q, order, user, today).1 == Done {
      AcceptShape(t, company, q, order, user, today);
    } else {
      assert AcceptTender(t, company, q, order, user, today).0 == t;
    }
    hide AcceptTender;
  }

  lemma AdvancesTransitive(a: Tender, b: Tender, c: Tender)
    requires Advances(a, b) && Advances(b, c)
    ensures Advances(a, c)
  {
  }

  ghost predicate MarketAdvances(before: Market, after: Market) {
    forall id :: id in before ==> id in after && Advances(before[id], after[id])
  }

  lemma AdvancesWith(m: Market, id: Id, t: Tender)
    requires id in m ==> Advances(m[id], t)
    ensures MarketAdvances(m, m[id := t])
  {
    forall other | other in m && other != id ensures Advances(m[other], m[other]) {
    }
  }

  lemma SameAdvances(m: Market)
    ensures MarketAdvances(m, m)
  {
  }

  lemma StepAdvances(m: Market, e: Event)
    requires MarketSound(m)
    ensures MarketAdvances(m, Step(m, e))
  {
    if (e.id in m) == e.NewRequest? {
      assert Step(m, e) == m;
      SameAdvances(m);
    } else if e.On? {
      PerformAdvances(m[e.id], e.act);
      AdvancesWith(m, e.id, Perform(m[e.id], e.act).0);
    } else {
      AdvancesWith(m, e.id, Opened(e.id, e.company, e.user, e.compare, e.target));
    }
  }

  lemma MarketAdvancesTransitive(a: Market, b: Market, c: Market)
    requires MarketAdvances(a, b) && MarketAdvances(b, c)
    ensures MarketAdvances(a, c)
  {
    forall id | id in a ensures id in c && Advances(a[id], c[id]) {
      AdvancesTransitive(a[id], b[id], c[id]);
    }
  }

  /** Price freeze and monotone life cycle between any two moments of any run. */
  lemma {:induction false} EveryRunAdvances(m: Market, es: seq<Event>, k: nat)
    requires Initial(m) && k <= |es|
    ensures MarketAdvances(Run(m, es[..k]), Run(m, es))
    decreases |es|
  {
    if k == |es| {
      assert es[..k] == es;
    } else {
      var front, e := es[..|es| - 1], es[|es| - 1];
      assert front[..k] == es[..k];
      EveryRunAdvances(m, front, k);
      EveryRunIsSound(m, front);
      StepAdvances(Run(m, front), e);
      MarketAdvancesTransitive(Run(m, es[..k]), Run(m, front), Run(m, es));
    }
  }

  /** An accepted quote has exactly one order, in every reachable state. */
  lemma AcceptedHasExactlyOneOrder(m: Market, es: seq<Event>, id: Id, q: Id)
    requires Initial(m) && id in Run(m, es)
    requires var t := Run(m, es)[id]; q in t.quotes && t.quotes[q].status == QuoteAccepted
    ensures var t := Run(m, es)[id];
            exists o :: o in t.orders && t.orders[o].quote == q
                     && forall p :: p in t.orders && t.orders[p].quote == q ==> p == o
  {
    EveryRunIsSound(m, es);
    var t := Run(m, es)[id];
    var o :| o in t.orders && t.orders[o].quote == q;
  }

  // --- One order per request ------------------------------------------------

  ghost predicate Reopened(t: Tender) {
    t.status == Draft || t.status == PendingReview || t.status == SentToCaterers
  }

  /** A request with an order is out of reach of every other award. */
  ghost predicate OrderedForGood(t: Tender) {
    && (t.orders != map[] ==> !Reopened(t))
    && (forall o, p :: o in t.orders && p in t.orders ==> o == p)
  }

  /** Approval is never applied to a request that already has an order. */
  ghost predicate NotAfterOrder(t: Tender, a: Act) {
    a.Approve? && a.fan != map[] ==> t.orders == map[]
  }

  lemma PerformKeepsOrderedForGood(t: Tender, a: Act)
    requires Sound(t) && OrderedForGood(t) && NotAfterOrder(t, a)
    ensures OrderedForGood(Perform(t, a).0)
  {
  }

  ghost predicate NoApprovalAfterOrder(m: Market, es: seq<Event>) {
    forall k :: 0 <= k < |es| ==>
      var e := es[k];
      e.On? && e.id in Run(m, es[..k]) ==> NotAfterOrder(Run(m, es[..k])[e.id], e.act)
  }

  /**
   At most one order per request, and an ordered request never takes quotes
   again, whatever refuse, reject and edit calls follow.
   */
  lemma {:induction false} EveryRunOrdersOnce(m: Market, es: seq<Event>)
    requires Initial(m) && NoApprovalAfterOrder(m, es)
    ensures forall id :: id in Run(m, es) ==> OrderedForGood(Run(m, es)[id])
    decreases |es|
  {
    if es != [] {
      var front, e := es[..|es| - 1], es[|es| - 1];
      forall k | 0 <= k < |front| ensures front[..k] == es[..k] && front[k] == es[k] {
      }
      EveryRunOrdersOnce(m, front);
      EveryRunIsSound(m, front);
      StepOrdersOnce(Run(m, front), e);
    }
    hide Step, Sound, OrderedForGood;
  }

  lemma StepOrdersOnce(m: Market, e: Event)
    requires forall id :: id in m ==> Sound(m[id]) && OrderedForGood(m[id])
    requires e.On? && e.id in m ==> NotAfterOrder(m[e.id], e.act)
    ensures forall id :: id in Step(m, e) ==> OrderedForGood(Step(m, e)[id])
  {
    hide Sound, Perform;
    if e.On? && e.id in m {
      PerformKeepsOrderedForGood(m[e.id], e.act);
    }
  }

  /**
   `approve_quote_request` has no guard of its own. An approval keeps an
   ordered request closed exactly when there is no order yet or nobody to send to.
   */
  lemma ApprovalKeepsOrderIff(t: Tender, fan: map<Id, Id>)
    requires Sound(t) && OrderedForGood(t) && fan.Keys !! t.links.Keys
    ensures OrderedForGood(ApproveTender(t, fan).0) <==> t.orders == map[] || fan == map[]
  {
    assert fan.Keys * t.links.Keys == {};
  }

  /** The counterexample, first half: one caterer is asked, answers and is accepted. */
  ghost function FirstAnswer(form: Form): Tender {
    var t := Opened(1, 1, 1, false, Some(Target(10, 7)));
    Perform(Perform(t, CreateQuote(20, 7, form)).0, Submit(20, 7, 10)).0
  }

  ghost function FirstAward(form: Form): Tender {
    Perform(FirstAnswer(form), Accept(1, 20, 30, 1, 0)).0
  }

  /** Second half: the completed request is approved again and another caterer answers. */
  ghost function SecondDraft(form: Form): Tender {
    Perform(Perform(FirstAward(form), Approve(map[11 := 8])).0, CreateQuote(21, 8, form)).0
  }

  ghost function SecondAward(form: Form): Tender {
    Perform(Perform(SecondDraft(form), Submit(21, 8, 11)).0, Accept(1, 21, 31, 1, 0)).0
  }

  lemma DraftingAddsDraft(t: Tender, q: Id, caterer: Id, i: Id, form: Form)
    requires i in t.links && t.links[i].caterer == caterer
    requires !HasDraft(t.quotes, caterer) && Acceptable(form.raws) && q !in t.quotes
    ensures CreateTenderQuote(t, q, caterer, form).0
         == t.(quotes := t.quotes[q := Quote(t.id, caterer, QuoteDraft, BodyOf(form))])
  {
    assert i in LinksOf(t.links, caterer);
  }

  lemma EarlyAnswerIsSent(t: Tender, q: Id, caterer: Id, i: Id)
    requires t.status == SentToCaterers
    requires q in t.quotes && t.quotes[q].caterer == caterer && t.quotes[q].status == QuoteDraft
    requires i in t.links && t.links[i].caterer == caterer && t.links[i].status != Closed
    requires |Transmitted(t.links)| < 2
    ensures SubmitTender(t, q, caterer, i).0
         == t.(quotes := t.quotes[q := t.quotes[q].(status := QuoteSent)],
               links := t.links[i := t.links[i].(status := TransmittedToClient,
                                                 rank := Some(|Transmitted(t.links)| + 1))])
  {
    assert i in LinksOf(t.links, caterer);
  }

  lemma FirstAnswerState(form: Form)
    requires Acceptable(form.raws)
    ensures FirstAnswer(form) == Tender(1, 1, 1, SentToCaterers,
                                        map[10 := Link(1, 7, TransmittedToClient, Some(1))],
                                        map[20 := Quote(1, 7, QuoteSent, BodyOf(form))], map[])
  {
    hide BodyOf, CreateTenderQuote;
    var t := Opened(1, 1, 1, false, Some(Target(10, 7)));
    DraftingAddsDraft(t, 20, 7, 10, form);
    var t1 := Perform(t, CreateQuote(20, 7, form)).0;
    assert Transmitted(t1.links) == {};
    EarlyAnswerIsSent(t1, 20, 7, 10);
  }

  lemma FirstAwardState(form: Form)
    requires Acceptable(form.raws) && form.validUntil == None
    ensures FirstAward(form) == Tender(1, 1, 1, Completed,
                                       map[10 := Link(1, 7, TransmittedToClient, Some(1))],
                                       map[20 := Quote(1, 7, QuoteAccepted, BodyOf(form))],
                                       map[30 := Order(20, 1)])
  {
    FirstAnswerState(form);
    LoneQuoteIsAwarded(Quote(1, 7, QuoteSent, BodyOf(form)));
  }

  /** The acceptance of the only quote of a request. */
  lemma LoneQuoteIsAwarded(quote: Quote)
    requires quote.status == QuoteSent && quote.caterer == 7 && quote.body.validUntil == None
    ensures AcceptTender(Tender(1, 1, 1, SentToCaterers, map[10 := Link(1, 7, TransmittedToClient, Some(1))],
                                map[20 := quote], map[]), 1, 20, 30, 1, 0).0
         == Tender(1, 1, 1, Completed, map[10 := Link(1, 7, TransmittedToClient, Some(1))],
                   map[20 := quote.(status := QuoteAccepted)], map[30 := Order(20, 1)])
  {
    var links := map[10 := Link(1, 7, TransmittedToClient, Some(1))];
    assert SentQuotes(map[20 := quote]) == {20} && Losers(links, 7) == {};
    assert CloseLinks(links, {}) == links;
    var accepted := map[20 := quote.(status := QuoteAccepted)];
    assert RefuseQuotes(accepted, {}) == accepted;
    assert map[20 := quote][20 := quote.(status := QuoteAccepted)] == accepted;
  }

  lemma SecondDraftState(form: Form)
    requires Acceptable(form.raws) && form.validUntil == None
    ensures SecondDraft(form)
         == Tender(1, 1, 1, SentToCaterers,
                   map[10 := Link(1, 7, TransmittedToClient, Some(1)), 11 := Link(1, 8, Selected, None)],
                   map[20 := Quote(1, 7, QuoteAccepted, BodyOf(form)), 21 := Quote(1, 8, QuoteDraft, BodyOf(form))],
                   map[30 := Order(20, 1)])
  {
    FirstAwardState(form);
    CompletedIsApproved(form);
    DraftingAddsDraft(ApproveTender(FirstAward(form), map[11 := 8]).0, 21, 8, 11, form);
    hide FirstAward, ApproveTender, CreateTenderQuote, BodyOf;
  }

  lemma CompletedIsApproved(form: Form)
    requires Acceptable(form.raws) && form.validUntil == None
    ensures ApproveTender(FirstAward(form), map[11 := 8]).0
         == Tender(1, 1, 1, SentToCaterers,
                   map[10 := Link(1, 7, TransmittedToClient, Some(1)), 11 := Link(1, 8, Selected, None)],
                   map[20 := Quote(1, 7, QuoteAccepted, BodyOf(form))], map[30 := Order(20, 1)])
  {
    FirstAwardState(form);
    OneMoreIsInvited(map[20 := Quote(1, 7, QuoteAccepted, BodyOf(form))], map[30 := Order(20, 1)]);
    hide FirstAward, BodyOf, ApproveTender;
  }

  lemma OneMoreIsInvited(quotes: map<Id, Quote>, orders: map<Id, Order>)
    ensures ApproveTender(Tender(1, 1, 1, Completed, map[10 := Link(1, 7, TransmittedToClient, Some(1))],
                                 quotes, orders),
                          map[11 := 8]).0
         == Tender(1, 1, 1, SentToCaterers,
                   map[10 := Link(1, 7, TransmittedToClient, Some(1)), 11 := Link(1, 8, Selected, None)],
                   quotes, orders)
  {
    var links := map[10 := Link(1, 7, TransmittedToClient, Some(1))];
    assert map[11 := 8].Keys * links.Keys == {};
    assert FannedOut(links, map[11 := 8], 1)
        == map[10 := Link(1, 7, TransmittedToClient, Some(1)), 11 := Link(1, 8, Selected, None)];
  }

  /** Approving a completed request once more leads to a second order for it. */
  lemma UndisciplinedApprovalOrdersTwice(form: Form)
    requires Acceptable(form.raws) && form.validUntil == None
    ensures SecondAward(form).orders.Keys == {30, 31}
  {
    hide SubmitTender;
    var t5 := SecondDraft(form);
    SecondAnswerIsSent(form);
    AwardAddsOrder(SubmitTender(t5, 21, 8, 11).0, 1, 21, 31, 1, 0);
  }

  lemma SecondAnswerIsSent(form: Form)
    requires Acceptable(form.raws) && form.validUntil == None
    ensures var t6 := SubmitTender(SecondDraft(form), 21, 8, 11).0;
            && t6.company == 1 && t6.status == SentToCaterers && t6.orders.Keys == {30}
            && 21 in t6.quotes && t6.quotes[21].status == QuoteSent && t6.quotes[21].body == BodyOf(form)
  {
    SecondDraftState(form);
    var t5 := SecondDraft(form);
    assert Transmitted(t5.links) == {10};
    EarlyAnswerIsSent(t5, 21, 8, 11);
  }

  lemma AwardAddsOrder(t: Tender, company: Id, q: Id, order: Id, user: Id, today: Day)
    requires t.company == company && t.status == SentToCaterers
    requires q in t.quotes && t.quotes[q].status == QuoteSent && !Expired(t.quotes[q].body, today)
    ensures var after := AcceptTender(t, company, q, order, user, today).0;
            after.orders.Keys == t.orders.Keys + {order}
  {
  }
}
