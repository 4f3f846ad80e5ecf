/**
 Market and billing together: an acceptance places the order that is then
 delivered, billed and paid.
 */
module JointRuns {
  import opened Wrappers
  import Money
  import opened Tenders
  import opened TenderSafety
  import opened Prices
  import L = Ledger
  import LedgerSafety
  import BillingRows

  datatype State = State(market: Market, ledger: L.World)

  /** What billing reads besides the quote's body: its reference, the request's guests, the caterer's rate. */
  datatype Terms = Terms(reference: string, guests: Option<int>, rate: real)

  datatype JointEvent = InMarket(event: Event, terms: Terms) | InLedger(billing: L.Event)

  function SaleOf(t: Tender, q: Id, terms: Terms): L.Sale
    requires q in t.quotes
  {
    var quote := t.quotes[q];
    L.Sale(quote.caterer, t.company, t.user, terms.reference, quote.body.lines, terms.guests, terms.rate,
           quote.body.totalHt)
  }

  ghost predicate Awards(m: Market, e: Event) {
    e.On? && e.act.Accept? && e.id in m && Perform(m[e.id], e.act).1 == Done
  }

  /** `orders` is one table: the order an acceptance adds is the order billing works on. */
  ghost function JointStep(s: State, e: JointEvent): State {
    match e
    case InMarket(event, terms) =>
      if !Awards(s.market, event) then s.(market := Step(s.market, event))
      else if event.act.newOrder in s.ledger.books.orders then s
      else State(Step(s.market, event),
                 L.Step(s.ledger, L.Place(event.act.newOrder, SaleOf(s.market[event.id], event.act.quote, terms))))
    case InLedger(billing) =>
      if billing.Place? then s else s.(ledger := L.Step(s.ledger, billing))
  }

  ghost function JointRun(s: State, es: seq<JointEvent>): State
    decreases |es|
  {
    if es == [] then s else JointStep(JointRun(s, es[..|es| - 1]), es[|es| - 1])
  }

  ghost predicate JointInitial(s: State) {
    Initial(s.market) && LedgerSafety.Initial(s.ledger) && s.ledger.books.orders == map[]
  }

  // --- Orders and sales -----------------------------------------------------------

  /** Order `o` was made of a quote of `t` that left draft, and `sale` says what that quote says. */
  ghost predicate SoldFrom(t: Tender, o: Id, sale: L.Sale) {
    && o in t.orders && t.orders[o].quote in t.quotes
    && var quote := t.quotes[t.orders[o].quote];
    && quote.status != QuoteDraft
    && sale.lines == quote.body.lines && sale.totalHt == quote.body.totalHt && sale.caterer == quote.caterer
    && sale.company == t.company && sale.requester == t.user
  }

  ghost predicate SoldIn(m: Market, o: Id, sale: L.Sale) {
    exists id :: id in m && SoldFrom(m[id], o, sale)
  }

  /** One table of orders: those billing knows are those the market made. */
  ghost predicate Linked(s: State) {
    && (forall o :: o in s.ledger.books.orders ==> SoldIn(s.market, o, s.ledger.books.orders[o].sale))
    && (forall id, o :: id in s.market && o in s.market[id].orders ==> o in s.ledger.books.orders)
  }

  lemma SoldStays(before: Tender, after: Tender, o: Id, sale: L.Sale)
    requires SoldFrom(before, o, sale) && Advances(before, after)
    requires after.company == before.company && after.user == before.user
    ensures SoldFrom(after, o, sale)
  {
  }

  lemma StepKeepsOwners(m: Market, e: Event, id: Id)
    requires id in m
    ensures id in Step(m, e) && Step(m, e)[id].company == m[id].company && Step(m, e)[id].user == m[id].user
  {
    if e.On? {
      PerformKeepsIdentity(m[id], e.act);
    }
  }

  lemma SoldInStays(m: Market, e: Event, o: Id, sale: L.Sale)
    requires MarketSound(m) && SoldIn(m, o, sale)
    ensures SoldIn(Step(m, e), o, sale)
  {
    hide Step, SoldFrom;
    var id :| id in m && SoldFrom(m[id], o, sale);
    StepAdvances(m, e);
    StepKeepsOwners(m, e, id);
    SoldStays(m[id], Step(m, e)[id], o, sale);
  }

  /** Only an award adds an order, and it adds the one it names. */
  lemma OrdersOnlyByAward(t: Tender, a: Act, o: Id)
    requires o in Perform(t, a).0.orders && o !in t.orders
    ensures a.Accept? && Perform(t, a).1 == Done && o == a.newOrder
  {
  }

  lemma NewOrderIsAward(m: Market, e: Event, id: Id, o: Id)
    requires id in Step(m, e) && o in Step(m, e)[id].orders
    requires id !in m || o !in m[id].orders
    ensures Awards(m, e) && e.id == id && o == e.act.newOrder
  {
    hide Perform;
    if e.On? && id in m {
      OrdersOnlyByAward(m[id], e.act, o);
    }
  }

  lemma AwardSells(t: Tender, a: Act, terms: Terms)
    requires a.Accept? && Perform(t, a).1 == Done
    ensures a.quote in t.quotes && SoldFrom(Perform(t, a).0, a.newOrder, SaleOf(t, a.quote, terms))
  {
  }

  ghost predicate SameSales(b: L.Books, c: L.Books) {
    c.orders.Keys == b.orders.Keys && forall o :: o in b.orders ==> c.orders[o].sale == b.orders[o].sale
  }

  lemma EventKeepsSales(b: L.Books, e: L.StripeEvent)
    ensures SameSales(b, L.ApplyEvent(b, e))
  {
  }

  lemma AdminKeepsSales(b: L.Books, o: L.Id, a: L.AdminAction)
    ensures SameSales(b, L.AdminMove(b, o, a))
  {
  }

  lemma WebhookKeepsSales(b: L.Books, d: L.Delivery)
    ensures SameSales(b, L.Receive(b, d).0)
  {
    EventKeepsSales(b, d.event);
    hide L.ApplyEvent;
  }

  lemma WorkerKeepsSales(w: L.World, j: L.Id)
    ensures SameSales(w.books, L.FinishJob(w, j).books)
  {
    hide L.BillOf;
  }

  /** Billing steps keep the table of orders and what each was made of. */
  lemma BillingKeepsSales(w: L.World, e: L.Event)
    requires !e.Place?
    ensures SameSales(w.books, L.Step(w, e).books)
  {
    hide L.BillOf, L.FinishJob, L.Receive, L.AdminMove, L.InviteToReview;
    if e.Webhook? {
      WebhookKeepsSales(w.books, e.delivery);
    } else if e.Admin? {
      AdminKeepsSales(w.books, e.order, e.action);
    } else if e.Finish? {
      WorkerKeepsSales(w, e.job);
    }
  }

  lemma PlaceAddsOrder(w: L.World, o: Id, sale: L.Sale)
    requires o !in w.books.orders
    ensures L.Step(w, L.Place(o, sale)).books.orders == w.books.orders[o := L.Order(sale, L.Confirmed, 0, None)]
  {
    hide L.BillOf;
  }

  lemma PlainStepKeepsLinked(s: State, e: Event)
    requires Linked(s) && MarketSound(s.market) && !Awards(s.market, e)
    ensures Linked(s.(market := Step(s.market, e)))
  {
    hide Step, SoldIn, Awards;
    var m := Step(s.market, e);
    forall o | o in s.ledger.books.orders ensures SoldIn(m, o, s.ledger.books.orders[o].sale) {
      SoldInStays(s.market, e, o, s.ledger.books.orders[o].sale);
    }
    forall id, o | id in m && o in m[id].orders ensures o in s.ledger.books.orders {
      if id !in s.market || o !in s.market[id].orders {
        NewOrderIsAward(s.market, e, id, o);
      }
    }
  }

  lemma AwardedIsSold(m: Market, e: Event, terms: Terms)
    requires Awards(m, e) && e.act.quote in m[e.id].quotes
    ensures SoldIn(Step(m, e), e.act.newOrder, SaleOf(m[e.id], e.act.quote, terms))
  {
    AwardSells(m[e.id], e.act, terms);
    hide Perform, SoldFrom, SaleOf;
    assert SoldFrom(Step(m, e)[e.id], e.act.newOrder, SaleOf(m[e.id], e.act.quote, terms));
  }

  lemma AwardKeepsLinked(s: State, e: Event, terms: Terms)
    requires Linked(s) && MarketSound(s.market) && e.On? && e.act.Accept? && e.id in s.market && Awards(s.market, e)
    requires e.act.newOrder !in s.ledger.books.orders && e.act.quote in s.market[e.id].quotes
    ensures Linked(State(Step(s.market, e),
                         L.Step(s.ledger, L.Place(e.act.newOrder, SaleOf(s.market[e.id], e.act.quote, terms)))))
  {
    hide Step, SoldIn, SoldFrom, SaleOf, L.Step, Awards, Perform, MarketSound;
    var sale := SaleOf(s.market[e.id], e.act.quote, terms);
    var m, books := Step(s.market, e), L.Step(s.ledger, L.Place(e.act.newOrder, sale)).books;
    AwardedIsSold(s.market, e, terms);
    PlaceAddsOrder(s.ledger, e.act.newOrder, sale);
    forall o | o in books.orders ensures SoldIn(m, o, books.orders[o].sale) {
      if o != e.act.newOrder {
        SoldInStays(s.market, e, o, s.ledger.books.orders[o].sale);
      }
    }
    forall id, o | id in m && o in m[id].orders ensures o in books.orders {
      if id !in s.market || o !in s.market[id].orders {
        NewOrderIsAward(s.market, e, id, o);
      }
    }
  }

  // --- The invariant ----------------------------------------------------------------

  ghost predicate MarketPriced(m: Market) {
    forall id :: id in m ==> PricesStand(m[id])
  }

  ghost predicate JointOk(s: State) {
    && MarketSound(s.market) && MarketPriced(s.market)
    && LedgerSafety.BillingOk(s.ledger) && BillingRows.RowsStated(s.ledger)
    && Linked(s)
  }

  predicate EventFits(e: JointEvent) {
    e.InMarket? && e.event.On? ==>
      && (e.event.act.CreateQuote? ==> FormFits(e.event.act.form))
      && (e.event.act.UpdateQuote? ==> FormFits(e.event.act.form))
  }

  lemma MarketStepKeepsPriced(m: Market, e: Event, terms: Terms)
    requires MarketPriced(m) && EventFits(InMarket(e, terms))
    ensures MarketPriced(Step(m, e))
  {
    if e.On? && e.id in m {
      PerformKeepsPrices(m[e.id], e.act);
    }
  }

  lemma LedgerStepKeepsOk(w: L.World, e: L.Event)
    requires LedgerSafety.BillingOk(w) && BillingRows.RowsStated(w)
    ensures LedgerSafety.BillingOk(L.Step(w, e)) && BillingRows.RowsStated(L.Step(w, e))
  {
    LedgerSafety.StepKeepsBillingOk(w, e);
    BillingRows.StepKeepsRows(w, e);
  }

  lemma MarketEventKeepsJointOk(s: State, e: Event, terms: Terms)
    requires JointOk(s) && EventFits(InMarket(e, terms))
    ensures JointOk(JointStep(s, InMarket(e, terms)))
  {
    StepKeepsSound(s.market, e);
    MarketStepKeepsPriced(s.market, e, terms);
    if !Awards(s.market, e) {
      PlainStepKeepsLinked(s, e);
    } else if e.act.newOrder !in s.ledger.books.orders {
      AwardSells(s.market[e.id], e.act, terms);
      AwardKeepsLinked(s, e, terms);
      LedgerStepKeepsOk(s.ledger, L.Place(e.act.newOrder, SaleOf(s.market[e.id], e.act.quote, terms)));
    }
  }

  lemma LedgerEventKeepsJointOk(s: State, e: L.Event)
    requires JointOk(s) && !e.Place?
    ensures JointOk(JointStep(s, InLedger(e)))
  {
    LedgerStepKeepsOk(s.ledger, e);
    BillingKeepsSales(s.ledger, e);
  }

  lemma {:induction false} EveryJointRunIsOk(s: State, es: seq<JointEvent>)
    requires JointInitial(s) && forall k :: 0 <= k < |es| ==> EventFits(es[k])
    ensures JointOk(JointRun(s, es))
    decreases |es|
  {
    if es == [] {
      EveryRunIsSound(s.market, []);
    } else {
      var front, e := es[..|es| - 1], es[|es| - 1];
      EveryJointRunIsOk(s, front);
      match e
      case InMarket(event, terms) => MarketEventKeepsJointOk(JointRun(s, front), event, terms);
      case InLedger(billing) =>
        if !billing.Place? {
          LedgerEventKeepsJointOk(JointRun(s, front), billing);
        }
    }
  }

  /** The quote an invoice is for: the one its order was made of. */
  ghost predicate InvoiceOf(t: Tender, row: L.Invoice) {
    && row.order in t.orders && t.orders[row.order].quote in t.quotes
    && var quote := t.quotes[t.orders[row.order].quote];
    && quote.status != QuoteDraft && row.caterer == quote.caterer && row.ht == quote.body.totalHt
  }

  /**
   From draft to invoice: in every joint run of forms that fit the columns, each
   invoice is for the quote its order was made of, at the HT total that quote
   was sent and accepted with.
   */
  lemma InvoicedAsAccepted(s: State, es: seq<JointEvent>, i: nat)
    requires JointInitial(s) && forall k :: 0 <= k < |es| ==> EventFits(es[k])
    requires i < |JointRun(s, es).ledger.books.invoices|
    ensures exists id :: id in JointRun(s, es).market
                      && InvoiceOf(JointRun(s, es).market[id], JointRun(s, es).ledger.books.invoices[i])
  {
    EveryJointRunIsOk(s, es);
    InvoiceIsForItsQuote(JointRun(s, es), i);
  }

  lemma InvoiceIsForItsQuote(s: State, i: nat)
    requires JointOk(s) && i < |s.ledger.books.invoices|
    ensures exists id :: id in s.market && InvoiceOf(s.market[id], s.ledger.books.invoices[i])
  {
    var row := s.ledger.books.invoices[i];
    assert BillingRows.StatesSale(s.ledger, row);
    var sale := s.ledger.books.orders[row.order].sale;
    var id :| id in s.market && SoldFrom(s.market[id], row.order, sale);
    HtOfBill(sale);
    assert PriceStands(s.market[id].quotes[s.market[id].orders[row.order].quote].body);
    assert InvoiceOf(s.market[id], row);
  }

  lemma HtOfBill(sale: L.Sale)
    ensures L.BillOf(sale).ht == Money.Cents(Money.TotalHt(sale.lines))
  {
  }

  // --- What an order is billed on -----------------------------------------------------

  /** The sale says what the accepted quote said, for the request's company and author, on the given terms. */
  ghost predicate AgreedOn(sale: L.Sale, t: Tender, q: Id, terms: Terms) {
    && q in t.quotes && t.quotes[q].status == QuoteSent
    && sale.lines == t.quotes[q].body.lines && sale.totalHt == t.quotes[q].body.totalHt
    && sale.caterer == t.quotes[q].caterer && sale.company == t.company && sale.requester == t.user
    && sale.reference == terms.reference && sale.guests == terms.guests && sale.rate == terms.rate
  }

  /** Event number k accepted a quote, and made `sale` of it. */
  ghost predicate SoldAt(s: State, es: seq<JointEvent>, k: nat, o: Id, sale: L.Sale) {
    && k < |es| && es[k].InMarket? && es[k].event.On? && es[k].event.act.Accept? && es[k].event.act.newOrder == o
    && es[k].event.id in JointRun(s, es[..k]).market
    && AgreedOn(sale, JointRun(s, es[..k]).market[es[k].event.id], es[k].event.act.quote, es[k].terms)
  }

  /** Every order is billed on what its acceptance was made on, whatever happened since to anything. */
  lemma {:induction false} EverySaleIsAsAgreed(s: State, es: seq<JointEvent>, o: Id) returns (k: nat)
    requires JointInitial(s) && o in JointRun(s, es).ledger.books.orders
    ensures SoldAt(s, es, k, o, JointRun(s, es).ledger.books.orders[o].sale)
    decreases |es|
  {
    var front, e := es[..|es| - 1], es[|es| - 1];
    var before := JointRun(s, front);
    if o in before.ledger.books.orders {
      StepKeepsSale(before, e, o);
      k := EverySaleIsAsAgreed(s, front, o);
      assert front[..k] == es[..k];
    } else {
      NewSaleIsAgreed(before, e, o);
      k := |front|;
    }
    hide JointStep, AgreedOn;
  }

  lemma StepKeepsSale(s: State, e: JointEvent, o: Id)
    requires o in s.ledger.books.orders
    ensures o in JointStep(s, e).ledger.books.orders
    ensures JointStep(s, e).ledger.books.orders[o].sale == s.ledger.books.orders[o].sale
  {
    if e.InLedger? && !e.billing.Place? {
      BillingKeepsSales(s.ledger, e.billing);
    } else if e.InMarket? && Awards(s.market, e.event) && e.event.act.newOrder !in s.ledger.books.orders {
      PlaceAddsOrder(s.ledger, e.event.act.newOrder, SaleOf(s.market[e.event.id], e.event.act.quote, e.terms));
    }
    hide Step, L.Step, Awards, SaleOf;
  }

  lemma NewSaleIsAgreed(s: State, e: JointEvent, o: Id)
    requires o !in s.ledger.books.orders && o in JointStep(s, e).ledger.books.orders
    ensures e.InMarket? && e.event.On? && e.event.act.Accept? && e.event.act.newOrder == o
    ensures e.event.id in s.market
    ensures AgreedOn(JointStep(s, e).ledger.books.orders[o].sale, s.market[e.event.id], e.event.act.quote, e.terms)
  {
    if e.InLedger? {
      if !e.billing.Place? {
        BillingKeepsSales(s.ledger, e.billing);
      }
    } else if Awards(s.market, e.event) {
      var t, a := s.market[e.event.id], e.event.act;
      AcceptShape(t, a.company, a.quote, a.newOrder, a.user, a.today);
      PlaceAddsOrder(s.ledger, a.newOrder, SaleOf(t, a.quote, e.terms));
    }
    hide L.Step, AcceptTender;
  }
}
