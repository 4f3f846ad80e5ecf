/**
 The database tables and the handlers that update their rows in place. Each
 handler is proved to do to the tables what its function in `Tenders` does to
 the one request it names, and nothing to any other request.
 */
module MarketTables {
  import opened Wrappers
  import opened QuoteTotals
  import opened Tenders

  datatype Request = Request(company: Id, user: Id, status: RequestStatus)

  // --- One request's share of the tables --------------------------------------

  ghost function LinksAt(links: map<Id, Link>, id: Id): map<Id, Link> {
    map i | i in links && links[i].request == id :: links[i]
  }

  ghost function QuotesAt(quotes: map<Id, Quote>, id: Id): map<Id, Quote> {
    map q | q in quotes && quotes[q].request == id :: quotes[q]
  }

  ghost function OrdersAt(orders: map<Id, Order>, quotes: map<Id, Quote>, id: Id): map<Id, Order> {
    map o | o in orders && orders[o].quote in quotes && quotes[orders[o].quote].request == id :: orders[o]
  }

  /** The four tables as one value. */
  datatype Tables = Tables(requests: map<Id, Request>, links: map<Id, Link>,
                           quotes: map<Id, Quote>, orders: map<Id, Order>)

  ghost function TenderAt(d: Tables, id: Id): Tender
    requires id in d.requests
  {
    Tender(id, d.requests[id].company, d.requests[id].user, d.requests[id].status,
           LinksAt(d.links, id), QuotesAt(d.quotes, id), OrdersAt(d.orders, d.quotes, id))
  }

  ghost function MarketOf(d: Tables): Market {
    map id | id in d.requests :: TenderAt(d, id)
  }

  /** Foreign keys. */
  ghost predicate KeysHold(d: Tables) {
    && (forall i :: i in d.links ==> d.links[i].request in d.requests)
    && (forall q :: q in d.quotes ==> d.quotes[q].request in d.requests)
    && (forall o :: o in d.orders ==> d.orders[o].quote in d.quotes)
  }

  /** `after` differs from `before` in the rows of request `id` only. */
  ghost predicate OnlyTouches(before: Tables, after: Tables, id: Id) {
    && (forall r :: r != id ==> (r in after.requests <==> r in before.requests))
    && (forall r :: r in before.requests && r != id ==> after.requests[r] == before.requests[r])
    && (forall i :: i in before.links && before.links[i].request != id ==>
        i in after.links && after.links[i] == before.links[i])
    && (forall i :: i in after.links && after.links[i].request != id ==>
        i in before.links && before.links[i].request != id)
    && (forall q :: q in before.quotes && before.quotes[q].request != id ==>
        q in after.quotes && after.quotes[q] == before.quotes[q])
    && (forall q :: q in after.quotes && after.quotes[q].request != id ==>
        q in before.quotes && before.quotes[q].request != id)
    && (forall o :: o in before.orders ==> o in after.orders && after.orders[o] == before.orders[o])
    && (forall o :: o in after.orders && o !in before.orders ==>
          after.orders[o].quote in after.quotes && after.quotes[after.orders[o].quote].request == id)
  }

  lemma OthersUntouched(before: Tables, after: Tables, id: Id, other: Id)
    requires KeysHold(before) && OnlyTouches(before, after, id)
    requires other in before.requests && other != id
    ensures TenderAt(after, other) == TenderAt(before, other)
  {
    hide KeysHold;
    assert LinksAt(after.links, other) == LinksAt(before.links, other);
    assert QuotesAt(after.quotes, other) == QuotesAt(before.quotes, other);
    var a, b := OrdersAt(after.orders, after.quotes, other), OrdersAt(before.orders, before.quotes, other);
    forall o ensures o in a <==> o in b {
    }
    assert a == b;
  }

  /** Locality: a handler that only touches one request's rows changes one tender of the market. */
  lemma MarketChangesAt(before: Tables, after: Tables, id: Id, t: Tender)
    requires KeysHold(before) && OnlyTouches(before, after, id)
    requires id in after.requests && TenderAt(after, id) == t
    ensures MarketOf(after) == MarketOf(before)[id := t]
  {
    forall other | other in before.requests && other != id
      ensures TenderAt(after, other) == TenderAt(before, other)
    {
      OthersUntouched(before, after, id, other);
    }
  }

  // --- submit_quote on the tables -----------------------------------------------

  function InvitedTo(links: map<Id, Link>, request: Id, caterer: Id): set<Id> {
    set i | i in links && links[i].request == request && links[i].caterer == caterer
  }

  function AnsweredTo(links: map<Id, Link>, request: Id): set<Id> {
    set i | i in links && links[i].request == request && links[i].status == TransmittedToClient
  }

  function RemainingOf(links: map<Id, Link>, request: Id, caterer: Id): set<Id> {
    set i | i in links && links[i].request == request && links[i].status == Selected && links[i].caterer != caterer
  }

  lemma QueriesAgree(d: Tables, request: Id, caterer: Id)
    requires request in d.requests
    ensures var t := TenderAt(d, request);
            && InvitedTo(d.links, request, caterer) == LinksOf(t.links, caterer)
            && AnsweredTo(d.links, request) == Transmitted(t.links)
            && RemainingOf(d.links, request, caterer) == StillSelected(t.links, caterer)
  {
  }

  lemma ClosingAt(links: map<Id, Link>, request: Id, ids: set<Id>)
    requires forall i :: i in ids ==> i in links && links[i].request == request
    ensures LinksAt(CloseLinks(links, ids), request) == CloseLinks(LinksAt(links, request), ids)
  {
  }

  /** The late answer that closes its own link. */
  lemma SelfHealOnTables(d: Tables, request: Id, caterer: Id, i: Id)
    requires KeysHold(d) && request in d.requests
    requires i in InvitedTo(d.links, request, caterer)
    ensures var after := d.(links := CloseLinks(d.links, {i}));
            && KeysHold(after)
            && MarketOf(after)
               == MarketOf(d)[request := TenderAt(d, request).(links := CloseLinks(TenderAt(d, request).links, {i}))]
  {
    var after := d.(links := CloseLinks(d.links, {i}));
    ClosingAt(d.links, request, {i});
    MarketChangesAt(d, after, request, TenderAt(d, request).(links := CloseLinks(TenderAt(d, request).links, {i})));
  }

  ghost function Transmit(links: map<Id, Link>, i: Id, rank: nat): map<Id, Link>
    requires i in links
  {
    links[i := links[i].(status := TransmittedToClient, rank := Some(rank))]
  }

  lemma NoneClosed(links: map<Id, Link>)
    ensures CloseLinks(links, {}) == links
  {
  }

  lemma MarkedAt(links: map<Id, Link>, request: Id, i: Id, rank: nat)
    requires i in links && links[i].request == request
    ensures i in LinksAt(links, request)
    ensures LinksAt(Transmit(links, i, rank), request) == Transmit(LinksAt(links, request), i, rank)
  {
  }

  ghost function TransmittedTables(d: Tables, quote: Id, i: Id, rank: nat, closed: set<Id>): Tables
    requires quote in d.quotes && i in d.links
  {
    d.(links := CloseLinks(Transmit(d.links, i, rank), closed),
       quotes := d.quotes[quote := d.quotes[quote].(status := QuoteSent)])
  }

  ghost function TransmittedTender(t: Tender, quote: Id, i: Id, rank: nat, closed: set<Id>): Tender
    requires quote in t.quotes && i in t.links
  {
    t.(links := CloseLinks(Transmit(t.links, i, rank), closed),
       quotes := t.quotes[quote := t.quotes[quote].(status := QuoteSent)])
  }

  lemma TransmitAt(d: Tables, request: Id, quote: Id, i: Id, rank: nat, closed: set<Id>)
    requires KeysHold(d) && request in d.requests
    requires i in d.links && d.links[i].request == request
    requires quote in d.quotes && d.quotes[quote].request == request
    requires forall j :: j in closed ==> j in d.links && d.links[j].request == request
    ensures TenderAt(TransmittedTables(d, quote, i, rank, closed), request)
         == TransmittedTender(TenderAt(d, request), quote, i, rank, closed)
  {
    hide CloseLinks, KeysHold;
    var t, after := TenderAt(d, request), TransmittedTables(d, quote, i, rank, closed);
    ClosingAt(Transmit(d.links, i, rank), request, closed);
    assert LinksAt(Transmit(d.links, i, rank), request) == Transmit(t.links, i, rank);
    assert QuotesAt(after.quotes, request) == t.quotes[quote := t.quotes[quote].(status := QuoteSent)];
    assert OrdersAt(after.orders, after.quotes, request) == t.orders;
  }

  lemma TransmitTouches(d: Tables, request: Id, quote: Id, i: Id, rank: nat, closed: set<Id>)
    requires KeysHold(d) && request in d.requests
    requires i in d.links && d.links[i].request == request
    requires quote in d.quotes && d.quotes[quote].request == request
    requires forall j :: j in closed ==> j in d.links && d.links[j].request == request
    ensures var after := TransmittedTables(d, quote, i, rank, closed);
            KeysHold(after) && OnlyTouches(d, after, request) && request in after.requests
  {
  }

  lemma TransmitOnTables(d: Tables, request: Id, quote: Id, i: Id, rank: nat, closed: set<Id>)
    requires KeysHold(d) && request in d.requests
    requires i in d.links && d.links[i].request == request && i in TenderAt(d, request).links
    requires quote in d.quotes && d.quotes[quote].request == request && quote in TenderAt(d, request).quotes
    requires forall j :: j in closed ==> j in d.links && d.links[j].request == request
    ensures var after := TransmittedTables(d, quote, i, rank, closed);
            && KeysHold(after)
            && MarketOf(after)
               == MarketOf(d)[request := TransmittedTender(TenderAt(d, request), quote, i, rank, closed)]
  {
    hide KeysHold, OnlyTouches, MarketOf, TransmittedTender, TenderAt;
    var after := TransmittedTables(d, quote, i, rank, closed);
    TransmitAt(d, request, quote, i, rank, closed);
    TransmitTouches(d, request, quote, i, rank, closed);
    hide TransmittedTables;
    MarketChangesAt(d, after, request, TenderAt(after, request));
  }

  // --- The other handlers on the tables -----------------------------------------

  lemma StatusOnTables(d: Tables, request: Id, status: RequestStatus)
    requires KeysHold(d) && request in d.requests
    ensures var after := d.(requests := d.requests[request := d.requests[request].(status := status)]);
            && KeysHold(after)
            && MarketOf(after) == MarketOf(d)[request := TenderAt(d, request).(status := status)]
  {
    var after := d.(requests := d.requests[request := d.requests[request].(status := status)]);
    MarketChangesAt(d, after, request, TenderAt(d, request).(status := status));
  }

  function SentTo(quotes: map<Id, Quote>, request: Id): set<Id> {
    set q | q in quotes && quotes[q].request == request && quotes[q].status == QuoteSent
  }

  function LosersOf(links: map<Id, Link>, request: Id, winner: Id): set<Id> {
    set i | i in links && links[i].request == request && links[i].caterer != winner
            && links[i].status != Rejected && links[i].status != Closed
  }

  lemma MoreQueriesAgree(d: Tables, request: Id, winner: Id)
    requires request in d.requests
    ensures var t := TenderAt(d, request);
            && SentTo(d.quotes, request) == SentQuotes(t.quotes)
            && LosersOf(d.links, request, winner) == Losers(t.links, winner)
  {
  }

  lemma RefusingAt(quotes: map<Id, Quote>, request: Id, ids: set<Id>)
    requires forall q :: q in ids ==> q in quotes && quotes[q].request == request
    ensures QuotesAt(RefuseQuotes(quotes, ids), request) == RefuseQuotes(QuotesAt(quotes, request), ids)
  {
  }

  ghost function AwardedTables(d: Tables, request: Id, quote: Id, rivals: set<Id>, order: Id, user: Id,
                               closed: set<Id>): Tables
    requires request in d.requests && quote in d.quotes
  {
    Tables(d.requests[request := d.requests[request].(status := Completed)],
           CloseLinks(d.links, closed),
           RefuseQuotes(d.quotes[quote := d.quotes[quote].(status := QuoteAccepted)], rivals),
           d.orders[order := Order(quote, user)])
  }

  ghost function AwardedTender(t: Tender, quote: Id, rivals: set<Id>, order: Id, user: Id, closed: set<Id>): Tender
    requires quote in t.quotes
  {
    t.(quotes := RefuseQuotes(t.quotes[quote := t.quotes[quote].(status := QuoteAccepted)], rivals),
       orders := t.orders[order := Order(quote, user)],
       links := CloseLinks(t.links, closed),
       status := Completed)
  }

  lemma AwardAt(d: Tables, request: Id, quote: Id, rivals: set<Id>, order: Id, user: Id, closed: set<Id>)
    requires KeysHold(d) && request in d.requests
    requires quote in d.quotes && d.quotes[quote].request == request && order !in d.orders
    requires forall q :: q in rivals ==> q in d.quotes && d.quotes[q].request == request
    requires forall i :: i in closed ==> i in d.links && d.links[i].request == request
    ensures TenderAt(AwardedTables(d, request, quote, rivals, order, user, closed), request)
         == AwardedTender(TenderAt(d, request), quote, rivals, order, user, closed)
  {
    hide KeysHold;
    var t, after := TenderAt(d, request), AwardedTables(d, request, quote, rivals, order, user, closed);
    var accepted := d.quotes[quote := d.quotes[quote].(status := QuoteAccepted)];
    ClosingAt(d.links, request, closed);
    RefusingAt(accepted, request, rivals);
    assert QuotesAt(accepted, request) == t.quotes[quote := t.quotes[quote].(status := QuoteAccepted)];
    OneMoreOrderAt(d.orders, d.quotes, after.quotes, request, quote, order, user);
    hide OrdersAt, RefuseQuotes, CloseLinks;
  }

  lemma OneMoreOrderAt(orders: map<Id, Order>, quotes: map<Id, Quote>, after: map<Id, Quote>, request: Id,
                       quote: Id, order: Id, user: Id)
    requires quote in quotes && quotes[quote].request == request
    requires after.Keys == quotes.Keys && forall q :: q in quotes ==> after[q].request == quotes[q].request
    ensures OrdersAt(orders[order := Order(quote, user)], after, request)
         == OrdersAt(orders, quotes, request)[order := Order(quote, user)]
  {
  }

  /** The accepted quote, its refused rivals, the new order and the closed links, together. */
  lemma AwardTouches(d: Tables, request: Id, quote: Id, rivals: set<Id>, order: Id, user: Id, closed: set<Id>)
    requires KeysHold(d) && request in d.requests
    requires quote in d.quotes && d.quotes[quote].request == request && order !in d.orders
    requires forall q :: q in rivals ==> q in d.quotes && d.quotes[q].request == request
    requires forall i :: i in closed ==> i in d.links && d.links[i].request == request
    ensures var after := AwardedTables(d, request, quote, rivals, order, user, closed);
            KeysHold(after) && OnlyTouches(d, after, request) && request in after.requests
  {
  }

  lemma AwardOnTables(d: Tables, request: Id, quote: Id, rivals: set<Id>, order: Id, user: Id, closed: set<Id>)
    requires KeysHold(d) && request in d.requests
    requires quote in d.quotes && d.quotes[quote].request == request && order !in d.orders
    requires forall q :: q in rivals ==> q in d.quotes && d.quotes[q].request == request
    requires forall i :: i in closed ==> i in d.links && d.links[i].request == request
    ensures var after := AwardedTables(d, request, quote, rivals, order, user, closed);
            && KeysHold(after)
            && MarketOf(after)
               == MarketOf(d)[request := AwardedTender(TenderAt(d, request), quote, rivals, order, user, closed)]
  {
    hide KeysHold, OnlyTouches, MarketOf, TenderAt, AwardedTender;
    var after := AwardedTables(d, request, quote, rivals, order, user, closed);
    AwardAt(d, request, quote, rivals, order, user, closed);
    AwardTouches(d, request, quote, rivals, order, user, closed);
    hide AwardedTables;
    MarketChangesAt(d, after, request, TenderAt(after, request));
  }

  function RefusedTables(d: Tables, request: Id, quote: Id, status: RequestStatus): Tables
    requires request in d.requests
  {
    d.(requests := d.requests[request := d.requests[request].(status := status)],
       quotes := RefuseQuotes(d.quotes, {quote}))
  }

  lemma RefusalTouches(d: Tables, request: Id, quote: Id, status: RequestStatus)
    requires KeysHold(d) && request in d.requests
    requires quote in d.quotes && d.quotes[quote].request == request
    ensures var after := RefusedTables(d, request, quote, status);
            KeysHold(after) && OnlyTouches(d, after, request) && request in after.requests
  {
  }

  lemma RefusalAt(d: Tables, request: Id, quote: Id, status: RequestStatus)
    requires KeysHold(d) && request in d.requests
    requires quote in d.quotes && d.quotes[quote].request == request
    ensures var t, after := TenderAt(d, request), RefusedTables(d, request, quote, status);
            TenderAt(after, request) == t.(quotes := RefuseQuotes(t.quotes, {quote}), status := status)
  {
    var after := RefusedTables(d, request, quote, status);
    RefusingAt(d.quotes, request, {quote});
    assert OrdersAt(after.orders, after.quotes, request) == OrdersAt(d.orders, d.quotes, request);
  }

  lemma RefusalOnTables(d: Tables, request: Id, quote: Id, status: RequestStatus)
    requires KeysHold(d) && request in d.requests
    requires quote in d.quotes && d.quotes[quote].request == request
    ensures var t := TenderAt(d, request);
            var after := RefusedTables(d, request, quote, status);
            && KeysHold(after)
            && MarketOf(after)
               == MarketOf(d)[request := t.(quotes := RefuseQuotes(t.quotes, {quote}), status := status)]
  {
    hide KeysHold, OnlyTouches, MarketOf, TenderAt, RefuseQuotes;
    RefusalTouches(d, request, quote, status);
    RefusalAt(d, request, quote, status);
    hide RefusedTables;
    var after := RefusedTables(d, request, quote, status);
    MarketChangesAt(d, after, request, TenderAt(after, request));
  }

  lemma QuoteTouches(d: Tables, request: Id, quote: Id, row: Quote)
    requires KeysHold(d) && request in d.requests && row.request == request
    requires quote in d.quotes ==> d.quotes[quote].request == request
    ensures var after := d.(quotes := d.quotes[quote := row]);
            KeysHold(after) && OnlyTouches(d, after, request)
  {
  }

  lemma QuoteAt(d: Tables, request: Id, quote: Id, row: Quote)
    requires KeysHold(d) && request in d.requests && row.request == request
    requires quote in d.quotes ==> d.quotes[quote].request == request
    ensures var t, after := TenderAt(d, request), d.(quotes := d.quotes[quote := row]);
            TenderAt(after, request) == t.(quotes := t.quotes[quote := row])
  {
    var t, after := TenderAt(d, request), d.(quotes := d.quotes[quote := row]);
    assert QuotesAt(after.quotes, request) == t.quotes[quote := row];
    assert OrdersAt(after.orders, after.quotes, request) == t.orders;
  }

  lemma QuoteOnTables(d: Tables, request: Id, quote: Id, row: Quote)
    requires KeysHold(d) && request in d.requests && row.request == request
    requires quote in d.quotes ==> d.quotes[quote].request == request
    ensures var t := TenderAt(d, request);
            var after := d.(quotes := d.quotes[quote := row]);
            KeysHold(after) && MarketOf(after) == MarketOf(d)[request := t.(quotes := t.quotes[quote := row])]
  {
    hide KeysHold, OnlyTouches, MarketOf, TenderAt;
    QuoteTouches(d, request, quote, row);
    QuoteAt(d, request, quote, row);
    MarketChangesAt(d, d.(quotes := d.quotes[quote := row]), request,
                    TenderAt(d.(quotes := d.quotes[quote := row]), request));
  }

  lemma LinkOnTables(d: Tables, request: Id, i: Id, row: Link)
    requires KeysHold(d) && request in d.requests && row.request == request
    requires i in d.links && d.links[i].request == request
    ensures var t := TenderAt(d, request);
            var after := d.(links := d.links[i := row]);
            KeysHold(after) && MarketOf(after) == MarketOf(d)[request := t.(links := t.links[i := row])]
  {
    var t := TenderAt(d, request);
    var after := d.(links := d.links[i := row]);
    assert LinksAt(after.links, request) == t.links[i := row];
    MarketChangesAt(d, after, request, t.(links := t.links[i := row]));
  }

  lemma OneMoreTarget(links: map<Id, Link>, done: map<Id, Id>, request: Id, i: Id, caterer: Id)
    requires i !in done
    ensures FannedOut(links, done[i := caterer], request)
         == FannedOut(links, done, request)[i := Link(request, caterer, Selected, None)]
  {
  }

  lemma FanOutAt(links: map<Id, Link>, request: Id, fan: map<Id, Id>)
    requires forall i :: i in fan ==> i !in links
    ensures LinksAt(FannedOut(links, fan, request), request) == FannedOut(LinksAt(links, request), fan, request)
    ensures forall i :: i in FannedOut(links, fan, request) ==>
              if i in fan then FannedOut(links, fan, request)[i].request == request
              else i in links && FannedOut(links, fan, request)[i] == links[i]
    ensures forall i :: i in links ==> i in FannedOut(links, fan, request)
  {
  }

  lemma FanOutOnTables(d: Tables, request: Id, fan: map<Id, Id>)
    requires KeysHold(d) && request in d.requests
    requires forall i :: i in fan ==> i !in d.links
    ensures var t := TenderAt(d, request);
            var after := d.(requests := d.requests[request := d.requests[request].(status := SentToCaterers)],
                            links := FannedOut(d.links, fan, request));
            && KeysHold(after)
            && MarketOf(after)
               == MarketOf(d)[request := t.(links := FannedOut(t.links, fan, request), status := SentToCaterers)]
  {
    FanOutAt(d.links, request, fan);
    SentOutOnTables(d, request, FannedOut(d.links, fan, request));
  }

  /** New rows of one request in the links table, with its status. */
  lemma SentOutOnTables(d: Tables, request: Id, links: map<Id, Link>)
    requires KeysHold(d) && request in d.requests
    requires forall i :: i in d.links ==> i in links
    requires forall i :: i in links ==> if i in d.links then links[i] == d.links[i] else links[i].request == request
    ensures var t := TenderAt(d, request);
            var after := d.(requests := d.requests[request := d.requests[request].(status := SentToCaterers)],
                            links := links);
            && KeysHold(after)
            && MarketOf(after) == MarketOf(d)[request := t.(links := LinksAt(links, request), status := SentToCaterers)]
  {
    var t := TenderAt(d, request);
    var after := d.(requests := d.requests[request := d.requests[request].(status := SentToCaterers)], links := links);
    assert OnlyTouches(d, after, request);
    MarketChangesAt(d, after, request, t.(links := LinksAt(links, request), status := SentToCaterers));
  }

  lemma OpeningTouches(d: Tables, id: Id, row: Request, invited: map<Id, Link>)
    requires KeysHold(d) && id !in d.requests
    requires forall i :: i in invited ==> i !in d.links && invited[i].request == id
    ensures var after := d.(requests := d.requests[id := row], links := d.links + invited);
            KeysHold(after) && OnlyTouches(d, after, id)
  {
  }

  lemma OpeningAt(d: Tables, id: Id, row: Request, invited: map<Id, Link>)
    requires KeysHold(d) && id !in d.requests
    requires forall i :: i in invited ==> i !in d.links && invited[i].request == id
    ensures var after := d.(requests := d.requests[id := row], links := d.links + invited);
            TenderAt(after, id) == Tender(id, row.company, row.user, row.status, invited, map[], map[])
  {
    assert LinksAt(d.links + invited, id) == invited;
    assert QuotesAt(d.quotes, id) == map[] && OrdersAt(d.orders, d.quotes, id) == map[];
  }

  lemma OpeningOnTables(d: Tables, id: Id, row: Request, invited: map<Id, Link>)
    requires KeysHold(d) && id !in d.requests
    requires forall i :: i in invited ==> i !in d.links && invited[i].request == id
    ensures var after := d.(requests := d.requests[id := row], links := d.links + invited);
            && KeysHold(after)
            && MarketOf(after)
               == MarketOf(d)[id := Tender(id, row.company, row.user, row.status, invited, map[], map[])]
  {
    hide KeysHold, OnlyTouches, MarketOf, TenderAt;
    var after := d.(requests := d.requests[id := row], links := d.links + invited);
    OpeningTouches(d, id, row, invited);
    OpeningAt(d, id, row, invited);
    MarketChangesAt(d, after, id, TenderAt(after, id));
  }

  /** What is left of `SubmitTender` when its guards hold and the lookup returned link `i`. */
  /** The guards of an acceptance on the tables, and what they lead to. */
  lemma AcceptOutcome(d: Tables, request: Id, company: Id, quote: Id, user: Id, today: Day, newOrder: Id)
    requires request in d.requests && newOrder !in d.orders && KeysHold(d)
    ensures var t := TenderAt(d, request);
            && AcceptTender(t, company, quote, newOrder, user, today)
               == (if d.requests[request].company != company then (t, RequestNotFound)
                   else if d.requests[request].status != SentToCaterers then (t, NotAvailable)
                   else if quote !in d.quotes || d.quotes[quote].request != request
                           || d.quotes[quote].status != QuoteSent
                   then (t, NotAvailable)
                   else if Expired(d.quotes[quote].body, today) then (t, OutOfDate)
                   else (AwardedTender(t, quote, SentQuotes(t.quotes) - {quote}, newOrder, user,
                                       Losers(t.links, t.quotes[quote].caterer)), Done))
  {
  }

  lemma TenderOf(d: Tables, request: Id)
    requires request in d.requests
    ensures request in MarketOf(d) && MarketOf(d)[request] == TenderAt(d, request)
  {
  }

  lemma QuoteOf(d: Tables, request: Id, quote: Id)
    requires request in d.requests && quote in d.quotes && d.quotes[quote].request == request
    ensures quote in TenderAt(d, request).quotes && TenderAt(d, request).quotes[quote] == d.quotes[quote]
  {
  }

  lemma StepOn(d: Tables, request: Id, a: Act)
    ensures var m := MarketOf(d);
            && (request in m <==> request in d.requests)
            && Step(m, On(request, a))
               == (if request in d.requests then m[request := Perform(TenderAt(d, request), a).0] else m)
  {
  }

  lemma GuardsPassed(t: Tender, q: Id, caterer: Id, i: Id)
    requires t.status == SentToCaterers && i in LinksOf(t.links, caterer)
    requires q in t.quotes && t.quotes[q].caterer == caterer && t.quotes[q].status == QuoteDraft
    ensures var n := |Transmitted(t.links)|;
            var marked := Transmit(t.links, i, n + 1);
            SubmitTender(t, q, caterer, i)
            == if t.links[i].status == Closed then (t, RequestClosed)
               else if n >= 3 then (t.(links := CloseLinks(t.links, {i})), RequestClosed)
               else (t.(quotes := t.quotes[q := t.quotes[q].(status := QuoteSent)],
                        links := if n + 1 == 3 then CloseLinks(marked, StillSelected(marked, caterer))
                                 else marked), Done)
  {
  }

  /** New rows have new ids, so an approval never clashes with the links there are. */
  lemma ApprovalOf(d: Tables, request: Id, fan: map<Id, Id>)
    requires request in d.requests && forall i :: i in fan ==> i !in d.links
    ensures var t := TenderAt(d, request);
            ApproveTender(t, fan)
            == (if fan == map[] then t else t.(links := FannedOut(t.links, fan, request), status := SentToCaterers),
                Done)
  {
    assert fan.Keys * TenderAt(d, request).links.Keys == {};
  }

  lemma NobodyFannedOut(links: map<Id, Link>, request: Id)
    ensures FannedOut(links, map[], request) == links
  {
  }

  class MarketDb {
    var requests: map<Id, Request>
    var links: map<Id, Link>
    var quotes: map<Id, Quote>
    var orders: map<Id, Order>

    ghost function Data(): Tables
      reads this
    {
      Tables(requests, links, quotes, orders)
    }

    ghost predicate Valid()
      reads this
    {
      KeysHold(Data())
    }

    ghost function Contents(): Market
      reads this
    {
      MarketOf(Data())
    }

    /** submit_quote */
    method SubmitQuote(request: Id, quote: Id, caterer: Id) returns (reply: Reply, ghost hint: Id)
      requires Valid()
      modifies this
      ensures Valid()
      ensures Contents() == Step(old(Contents()), On(request, Submit(quote, caterer, hint)))
      ensures request in old(requests) ==> reply == SubmitTender(old(Contents())[request], quote, caterer, hint).1
      ensures request !in old(requests) ==> reply == QuoteNotFound
    {
      hint := 0;
      if request !in requests {
        return QuoteNotFound, hint;
      }
      if requests[request].status != SentToCaterers {
        return RequestNotOpen, hint;
      }
      if quote !in quotes || quotes[quote].request != request
         || quotes[quote].caterer != caterer || quotes[quote].status != QuoteDraft
      {
        return QuoteNotFound, hint;
      }
      QueriesAgree(Data(), request, caterer);
      var mine := InvitedTo(links, request, caterer);
      if mine == {} {
        return QuoteNotFound, hint;
      }
      var i :| i in mine;
      hint := i;
      reply := AnswerThrough(request, quote, caterer, i);
    }

    /** `submit_quote` once it holds the quote and its link. */
    method AnswerThrough(request: Id, quote: Id, caterer: Id, i: Id) returns (reply: Reply)
      requires Valid() && request in requests && requests[request].status == SentToCaterers
      requires i in InvitedTo(links, request, caterer)
      requires quote in quotes && quotes[quote].request == request
      requires quotes[quote].caterer == caterer && quotes[quote].status == QuoteDraft
      modifies this
      ensures Valid()
      ensures var (after, answer) := SubmitTender(old(Contents())[request], quote, caterer, i);
              Contents() == old(Contents())[request := after] && reply == answer
    {
      hide KeysHold, OrdersAt, SubmitTender;
      QueriesAgree(Data(), request, caterer);
      GuardsPassed(TenderAt(Data(), request), quote, caterer, i);
      if links[i].status == Closed {
        return RequestClosed;
      }
      var transmitted := |AnsweredTo(links, request)|;
      if transmitted >= 3 {
        SelfHealOnTables(Data(), request, caterer, i);
        CloseAll(request, {i});
        return RequestClosed;
      }
      TransmitTo(request, quote, caterer, i, transmitted);
      reply := Done;
    }

    /** The part of `submit_quote` past its guards. */
    method TransmitTo(request: Id, quote: Id, caterer: Id, i: Id, transmitted: nat)
      requires Valid() && request in requests
      requires i in InvitedTo(links, request, caterer)
      requires quote in quotes && quotes[quote].request == request
      requires transmitted < 3
      modifies this
      ensures Valid()
      ensures var t := old(Contents())[request];
              var marked := Transmit(t.links, i, transmitted + 1);
              Contents() == old(Contents())[request :=
                t.(quotes := t.quotes[quote := t.quotes[quote].(status := QuoteSent)],
                   links := if transmitted + 1 == 3 then CloseLinks(marked, StillSelected(marked, caterer))
                            else marked)]
    {
      ghost var d := Data();
      ghost var t := TenderAt(d, request);
      quotes := quotes[quote := quotes[quote].(status := QuoteSent)];
      links := links[i := links[i].(status := TransmittedToClient, rank := Some(transmitted + 1))];
      ghost var closed := {};
      if transmitted + 1 == 3 {
        var remaining := RemainingOf(links, request, caterer);
        QueriesAgree(Data(), request, caterer);
        closed := remaining;
        CloseAll(request, remaining);
      } else {
        NoneClosed(links);
        NoneClosed(Transmit(t.links, i, transmitted + 1));
      }
      TransmitOnTables(d, request, quote, i, transmitted + 1, closed);
      MarkedAt(d.links, request, i, transmitted + 1);
    }

    /** The loops over `remaining` and `losing_qrcs`: close each link of the result set. */
    method CloseAll(ghost request: Id, ids: set<Id>)
      requires forall i :: i in ids ==> i in links && links[i].request == request
      modifies this`links
      ensures links == CloseLinks(old(links), ids)
    {
      var todo := ids;
      while todo != {}
        invariant todo <= ids
        invariant links == CloseLinks(old(links), ids - todo)
      {
        var r :| r in todo;
        links := links[r := links[r].(status := Closed)];
        todo := todo - {r};
      }
    }

    /** The request is open to this company's choice, and the quote is one of those sent for it. */
    predicate OnTheTable(request: Id, company: Id, quote: Id)
      reads this
    {
      && request in requests && requests[request].company == company && requests[request].status == SentToCaterers
      && quote in quotes && quotes[quote].request == request && quotes[quote].status == QuoteSent
    }

    /** accept_quote */
    method AcceptQuote(request: Id, company: Id, quote: Id, user: Id, today: Day, newOrder: Id) returns (reply: Reply)
      requires Valid() && newOrder !in orders
      modifies this
      ensures Valid()
      ensures Contents() == Step(old(Contents()), On(request, Accept(company, quote, newOrder, user, today)))
      ensures request in old(requests) ==>
                reply == AcceptTender(old(Contents())[request], company, quote, newOrder, user, today).1
      ensures request !in old(requests) ==> reply == RequestNotFound
      ensures reply == Done || reply == OutOfDate <==> old(OnTheTable(request, company, quote))
      ensures old(OnTheTable(request, company, quote)) ==>
                var until := old(quotes)[quote].body.validUntil;
                && (reply == Done <==> until == None || today <= until.value)
                && (reply == OutOfDate <==> until.Some? && until.value < today)
      ensures reply == Done ==>
                && newOrder in orders && orders[newOrder] == Order(quote, user)
                && quote in quotes && quotes[quote] == old(quotes)[quote].(status := QuoteAccepted)
                && request in requests && requests[request].status == Completed
    {
      StepOn(Data(), request, Accept(company, quote, newOrder, user, today));
      if request in requests {
        AcceptOutcome(Data(), request, company, quote, user, today, newOrder);
      }
      hide Step, AcceptTender, KeysHold, AwardedTender;
      if request !in requests || requests[request].company != company {
        return RequestNotFound;
      }
      if requests[request].status != SentToCaterers {
        return NotAvailable;
      }
      if quote !in quotes || quotes[quote].request != request || quotes[quote].status != QuoteSent {
        return NotAvailable;
      }
      if Expired(quotes[quote].body, today) {
        return OutOfDate;
      }
      Award(request, quote, user, newOrder);
      reply := Done;
    }

    /** The part of `accept_quote` past its guards. */
    method Award(request: Id, quote: Id, user: Id, newOrder: Id)
      requires Valid() && request in requests && newOrder !in orders
      requires quote in quotes && quotes[quote].request == request && quotes[quote].status == QuoteSent
      modifies this
      ensures Valid()
      ensures var t := old(Contents())[request];
              Contents() == old(Contents())[request :=
                AwardedTender(t, quote, SentQuotes(t.quotes) - {quote}, newOrder, user,
                              Losers(t.links, t.quotes[quote].caterer))]
      ensures orders == old(orders)[newOrder := Order(quote, user)]
      ensures quote in quotes && quotes[quote] == old(quotes)[quote].(status := QuoteAccepted)
      ensures requests == old(requests)[request := old(requests)[request].(status := Completed)]
    {
      hide KeysHold, MarketOf, TenderAt, AwardedTender;
      ghost var d := Data();
      ghost var t := TenderAt(d, request);
      TenderOf(d, request);
      QuoteOf(d, request, quote);
      var winner := quotes[quote].caterer;
      MoreQueriesAgree(d, request, winner);
      quotes := quotes[quote := quotes[quote].(status := QuoteAccepted)];
      var others := SentTo(quotes, request) - {quote};
      assert others == SentTo(d.quotes, request) - {quote};
      RefuseAll(request, others);
      orders := orders[newOrder := Order(quote, user)];
      requests := requests[request := requests[request].(status := Completed)];
      var losing := LosersOf(links, request, winner);
      CloseAll(request, losing);
      AwardOnTables(d, request, quote, others, newOrder, user, losing);
      assert Data() == AwardedTables(d, request, quote, others, newOrder, user, losing);
      hide AwardedTables;
    }

    /** The loop over `others`. */
    method RefuseAll(ghost request: Id, ids: set<Id>)
      requires forall q :: q in ids ==> q in quotes && quotes[q].request == request
      modifies this`quotes
      ensures quotes == RefuseQuotes(old(quotes), ids)
    {
      var todo := ids;
      while todo != {}
        invariant todo <= ids
        invariant quotes == RefuseQuotes(old(quotes), ids - todo)
      {
        var q :| q in todo;
        quotes := quotes[q := quotes[q].(status := QuoteRefused)];
        todo := todo - {q};
      }
    }

    /** refuse_quote */
    method RefuseQuote(request: Id, company: Id, quote: Id) returns (reply: Reply)
      requires Valid()
      modifies this
      ensures Valid()
      ensures Contents() == Step(old(Contents()), On(request, Refuse(company, quote)))
      ensures request in old(requests) ==> reply == RefuseTender(old(Contents())[request], company, quote).1
      ensures request !in old(requests) ==> reply == RequestNotFound
    {
      hide KeysHold;
      if request !in requests || requests[request].company != company {
        return RequestNotFound;
      }
      if quote !in quotes || quotes[quote].request != request {
        return QuoteNotFound;
      }
      ghost var d := Data();
      quotes := quotes[quote := quotes[quote].(status := QuoteRefused)];
      assert quotes == RefuseQuotes(d.quotes, {quote});
      RefusalOnTables(d, request, quote, d.requests[request].status);
      MoreQueriesAgree(Data(), request, 0);
      RefusingAt(d.quotes, request, {quote});
      assert requests == requests[request := requests[request].(status := requests[request].status)];
      var remaining := |SentTo(quotes, request)|;
      if remaining == 0 {
        requests := requests[request := requests[request].(status := QuotesRefused)];
        RefusalOnTables(d, request, quote, QuotesRefused);
      }
      reply := Done;
    }

    /** approve_quote_request: one new `selected` link per validated caterer. */
    method ApproveQuoteRequest(request: Id, fan: map<Id, Id>) returns (reply: Reply)
      requires Valid()
      requires forall i :: i in fan ==> i !in links
      modifies this
      ensures Valid()
      ensures Contents() == Step(old(Contents()), On(request, Approve(fan)))
      ensures reply == if request in old(requests) then Done else RequestNotFound
    {
      hide Step, ApproveTender, FannedOut, KeysHold, MarketOf, TenderAt;
      ghost var d := Data();
      StepOn(d, request, Approve(fan));
      if request !in requests {
        return RequestNotFound;
      }
      TenderOf(d, request);
      ApprovalOf(d, request, fan);
      FanOut(request, fan);
      if fan != map[] {
        requests := requests[request := requests[request].(status := SentToCaterers)];
        FanOutOnTables(d, request, fan);
      } else {
        NobodyFannedOut(d.links, request);
        assert Data() == d;
      }
      reply := Done;
    }

    /** The loop over `targets`. */
    method FanOut(request: Id, fan: map<Id, Id>)
      modifies this`links
      ensures links == FannedOut(old(links), fan, request)
    {
      var todo := fan.Keys;
      ghost var done: map<Id, Id> := map[];
      while todo != {}
        invariant todo <= fan.Keys && done.Keys == fan.Keys - todo
        invariant forall i :: i in done ==> done[i] == fan[i]
        invariant links == FannedOut(old(links), done, request)
      {
        var i :| i in todo;
        OneMoreTarget(old(links), done, request, i, fan[i]);
        links := links[i := Link(request, fan[i], Selected, None)];
        todo := todo - {i};
        done := done[i := fan[i]];
      }
      assert done == fan;
    }

    /** reject_quote_request */
    method RejectQuoteRequest(request: Id) returns (reply: Reply)
      requires Valid()
      modifies this
      ensures Valid()
      ensures Contents() == Step(old(Contents()), On(request, AdminReject))
      ensures reply == if request in old(requests) then Done else RequestNotFound
    {
      if request !in requests {
        return RequestNotFound;
      }
      StatusOnTables(Data(), request, Cancelled);
      requests := requests[request := requests[request].(status := Cancelled)];
      reply := Done;
    }

    /** requests_new_post */
    method NewRequest(id: Id, company: Id, user: Id, compare: bool, target: Option<Target>)
      requires Valid() && id !in requests
      requires target.Some? ==> target.value.link !in links
      modifies this
      ensures Valid()
      ensures Contents() == Step(old(Contents()), Event.NewRequest(id, company, user, compare, target))
    {
      var status := if target.Some? || !compare then SentToCaterers else PendingReview;
      var invited: map<Id, Link> := map[];
      if target.Some? {
        invited := map[target.value.link := Link(id, target.value.caterer, Selected, None)];
      }
      OpeningOnTables(Data(), id, Request(company, user, status), invited);
      assert Opened(id, company, user, compare, target) == Tender(id, company, user, status, invited, map[], map[]);
      requests := requests[id := Request(company, user, status)];
      links := links + invited;
    }

    /** request_edit_post */
    method EditRequest(request: Id, company: Id, only: Option<Id>, compare: bool) returns (reply: Reply)
      requires Valid()
      modifies this
      ensures Valid()
      ensures Contents() == Step(old(Contents()), On(request, Edit(company, only, compare)))
      ensures request in old(requests) ==> reply == EditTender(old(Contents())[request], company, only, compare).1
      ensures request !in old(requests) ==> reply == RequestNotFound
    {
      if request !in requests || requests[request].company != company
         || (only.Some? && only.value != requests[request].user)
      {
        return RequestNotFound;
      }
      if requests[request].status != Draft && requests[request].status != PendingReview {
        return NotEditable;
      }
      var status := if requests[request].status == PendingReview then PendingReview
                    else if compare then PendingReview else SentToCaterers;
      StatusOnTables(Data(), request, status);
      requests := requests[request := requests[request].(status := status)];
      reply := Done;
    }

    /** quote_create, up to its first commit. */
    method CreateQuote(request: Id, caterer: Id, form: Form, newQuote: Id) returns (reply: Reply)
      requires Valid() && newQuote !in quotes
      modifies this
      ensures Valid()
      ensures Contents() == Step(old(Contents()), On(request, Act.CreateQuote(newQuote, caterer, form)))
      ensures request in old(requests) ==>
          reply == CreateTenderQuote(old(Contents())[request], newQuote, caterer, form).1
      ensures request !in old(requests) ==> reply == RequestNotFound
    {
      hide KeysHold, OrdersAt;
      StepOn(Data(), request, Act.CreateQuote(newQuote, caterer, form));
      hide Step;
      if request !in requests {
        return RequestNotFound;
      }
      QueriesAgree(Data(), request, caterer);
      ghost var t := TenderAt(Data(), request);
      if InvitedTo(links, request, caterer) == {} {
        return RequestNotFound;
      }
      var drafts := set q | q in quotes && quotes[q].request == request
                           && quotes[q].caterer == caterer && quotes[q].status == QuoteDraft;
      assert HasDraft(t.quotes, caterer) <==> drafts != {} by {
        if drafts != {} {
          var q :| q in drafts;
          assert q in t.quotes;
        }
        if HasDraft(t.quotes, caterer) {
          var q :| q in t.quotes && t.quotes[q].caterer == caterer && t.quotes[q].status == QuoteDraft;
          assert q in drafts;
        }
      }
      if drafts != {} {
        return DraftExists;
      }
      var lines := LinesFromDicts(form.raws);
      if lines.Err? {
        return BadForm;
      }
      var totals := CalculateQuoteTotals(ParsedLines(form.raws), None, None);
      var row := Quote(request, caterer, QuoteDraft, Body(lines.value, totals.ht, form.validUntil));
      QuoteOnTables(Data(), request, newQuote, row);
      quotes := quotes[newQuote := row];
      reply := Done;
    }

    /** quote_update, up to its first commit. */
    method UpdateQuote(request: Id, quote: Id, caterer: Id, form: Form) returns (reply: Reply)
      requires Valid()
      modifies this
      ensures Valid()
      ensures Contents() == Step(old(Contents()), On(request, Act.UpdateQuote(quote, caterer, form)))
      ensures request in old(requests) ==> reply == UpdateTenderQuote(old(Contents())[request], quote, caterer, form).1
      ensures request !in old(requests) ==> reply == QuoteNotFound
    {
      hide KeysHold, OrdersAt;
      StepOn(Data(), request, Act.UpdateQuote(quote, caterer, form));
      hide Step;
      if request !in requests {
        return QuoteNotFound;
      }
      if quote !in quotes || quotes[quote].request != request || quotes[quote].caterer != caterer {
        return QuoteNotFound;
      }
      if quotes[quote].status != QuoteDraft {
        return NotEditable;
      }
      QueriesAgree(Data(), request, caterer);
      if InvitedTo(links, request, caterer) == {} {
        return RequestNotFound;
      }
      var lines := LinesFromDicts(form.raws);
      if lines.Err? {
        return BadForm;
      }
      var totals := CalculateQuoteTotals(ParsedLines(form.raws), None, None);
      var until := if form.validUntil.Some? then form.validUntil else quotes[quote].body.validUntil;
      var row := quotes[quote].(body := Body(lines.value, totals.ht, until));
      QuoteOnTables(Data(), request, quote, row);
      quotes := quotes[quote := row];
      reply := Done;
    }

    /** request_reject: the caterer declines before it answered. */
    method DeclineRequest(request: Id, caterer: Id) returns (reply: Reply, ghost link: Id, ghost hint: Id)
      requires Valid()
      modifies this
      ensures Valid()
      ensures Contents() == Step(old(Contents()), On(request, Decline(caterer, link, hint)))
      ensures request in old(requests) ==> reply == DeclineTender(old(Contents())[request], caterer, link, hint).1
      ensures request !in old(requests) ==> reply == RequestNotFound
    {
      hide KeysHold, Step;
      link, hint := 0, 0;
      forall i, q {
        StepOn(Data(), request, Decline(caterer, i, q));
      }
      if request !in requests {
        return RequestNotFound, link, hint;
      }
      QueriesAgree(Data(), request, caterer);
      var mine := InvitedTo(links, request, caterer);
      if mine == {} {
        return RequestNotFound, link, hint;
      }
      var i :| i in mine;
      link := i;
      var own := set q | q in quotes && quotes[q].request == request && quotes[q].caterer == caterer;
      assert own == QuotesOf(TenderAt(Data(), request).quotes, caterer);
      if own != {} {
        var q :| q in own;
        hint := q;
        if quotes[q].status != QuoteDraft {
          return AlreadyAnswered, link, hint;
        }
      }
      LinkOnTables(Data(), request, i, links[i].(status := Rejected));
      links := links[i := links[i].(status := Rejected)];
      reply := Done;
    }
  }
}
