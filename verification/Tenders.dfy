/**
 One quote request with everything that hangs on it: the status machine of
 services/workflow.py and of the handlers that feed it.

 A `Tender` holds the rows of one request: its QuoteRequestCaterer links, its
 quotes and the orders made of those quotes. Every handler is a function from
 a tender to the tender it commits, with the reply it gives.
 */
module Tenders {
  import opened Wrappers
  import opened Money
  import opened QuoteTotals

  /** A row identifier, drawn by the caller (`uuid4`). */
  type Id = nat
  type Day = int

  datatype RequestStatus = Draft | PendingReview | Approved | SentToCaterers | Completed | Cancelled | QuotesRefused

  datatype LinkStatus = Selected | Responded | TransmittedToClient | Rejected | Closed

  datatype QuoteStatus = QuoteDraft | QuoteSent | QuoteAccepted | QuoteRefused | QuoteExpired

  /** A QuoteRequestCaterer row. */
  datatype Link = Link(request: Id, caterer: Id, status: LinkStatus, rank: Option<nat>)

  /** What a quote says: its stored lines, its stored HT total in cents, its validity. */
  datatype Body = Body(lines: seq<Line>, totalHt: int, validUntil: Option<Day>)

  datatype Quote = Quote(request: Id, caterer: Id, status: QuoteStatus, body: Body)

  datatype Order = Order(quote: Id, clientAdmin: Id)

  datatype Tender = Tender(id: Id, company: Id, user: Id, status: RequestStatus,
                           links: map<Id, Link>, quotes: map<Id, Quote>, orders: map<Id, Order>)

  /** The submitted quote form. */
  datatype Form = Form(raws: seq<RawLine>, validUntil: Option<Day>)

  datatype Reply =
    | Done
    | RequestNotFound | QuoteNotFound | NotAvailable | OutOfDate
    | RequestClosed | RequestNotOpen
    | NotEditable | DraftExists | BadForm | AlreadyAnswered | RowClash

  /**
   One handler call on one request. `fan` gives the new row id of each
   validated caterer; `link` and `quote` hints say which row an unordered
   query returns when several match.
   */
  datatype Act =
    | Edit(company: Id, only: Option<Id>, compare: bool)
    | Approve(fan: map<Id, Id>)
    | AdminReject
    | CreateQuote(newQuote: Id, caterer: Id, form: Form)
    | UpdateQuote(quote: Id, caterer: Id, form: Form)
    | Submit(quote: Id, caterer: Id, link: Id)
    | Decline(caterer: Id, link: Id, hint: Id)
    | Accept(company: Id, quote: Id, newOrder: Id, user: Id, today: Day)
    | Refuse(company: Id, quote: Id)

  // --- Queries --------------------------------------------------------------

  function Transmitted(links: map<Id, Link>): set<Id> {
    set i | i in links && links[i].status == TransmittedToClient
  }

  function StillSelected(links: map<Id, Link>, but: Id): set<Id> {
    set i | i in links && links[i].status == Selected && links[i].caterer != but
  }

  function LinksOf(links: map<Id, Link>, caterer: Id): set<Id> {
    set i | i in links && links[i].caterer == caterer
  }

  function QuotesOf(quotes: map<Id, Quote>, caterer: Id): set<Id> {
    set q | q in quotes && quotes[q].caterer == caterer
  }

  function SentQuotes(quotes: map<Id, Quote>): set<Id> {
    set q | q in quotes && quotes[q].status == QuoteSent
  }

  predicate HasDraft(quotes: map<Id, Quote>, caterer: Id) {
    exists q :: q in quotes && quotes[q].caterer == caterer && quotes[q].status == QuoteDraft
  }

  /** The row an unordered query over `rows` returns: any of them. */
  ghost function Pick(rows: set<Id>, hint: Id): (row: Option<Id>)
    ensures row.Some? <==> rows != {}
    ensures row.Some? ==> row.value in rows
    ensures hint in rows ==> row == Some(hint)
  {
    if hint in rows then Some(hint)
    else if rows == {} then None
    else var i :| i in rows; Some(i)
  }

  // --- Bulk updates ---------------------------------------------------------

  function CloseLinks(links: map<Id, Link>, ids: set<Id>): map<Id, Link> {
    map i | i in links :: if i in ids then links[i].(status := Closed) else links[i]
  }

  function RefuseQuotes(quotes: map<Id, Quote>, ids: set<Id>): map<Id, Quote> {
    map q | q in quotes :: if q in ids then quotes[q].(status := QuoteRefused) else quotes[q]
  }

  function Losers(links: map<Id, Link>, winner: Id): set<Id> {
    set i | i in links && links[i].caterer != winner && links[i].status != Rejected && links[i].status != Closed
  }

  function FannedOut(links: map<Id, Link>, fan: map<Id, Id>, request: Id): map<Id, Link> {
    links + map i | i in fan :: Link(request, fan[i], Selected, None)
  }

  /** The body stored from a form: totals are computed on the form's numbers, lines go through the columns. */
  function BodyOf(form: Form): Body {
    Body(StoredLines(form.raws), Cents(TotalHt(ParsedLines(form.raws))), form.validUntil)
  }

  // --- Handlers -------------------------------------------------------------

  /** `only` is the author a client_user is limited to. */
  function EditTender(t: Tender, company: Id, only: Option<Id>, compare: bool): (Tender, Reply) {
    if t.company != company || (only.Some? && only.value != t.user) then (t, RequestNotFound)
    else if t.status != Draft && t.status != PendingReview then (t, NotEditable)
    else if t.status == PendingReview || compare then (t.(status := PendingReview), Done)
    else (t.(status := SentToCaterers), Done)
  }

  /** No status guard: whatever the request, links are added and it is sent out again. */
  function ApproveTender(t: Tender, fan: map<Id, Id>): (Tender, Reply) {
    if fan.Keys * t.links.Keys != {} then (t, RowClash)
    else if fan == map[] then (t, Done)
    else (t.(links := FannedOut(t.links, fan, t.id), status := SentToCaterers), Done)
  }

  function RejectTender(t: Tender): (Tender, Reply) {
    (t.(status := Cancelled), Done)
  }

  function CreateTenderQuote(t: Tender, q: Id, caterer: Id, form: Form): (Tender, Reply) {
    if LinksOf(t.links, caterer) == {} then (t, RequestNotFound)
    else if HasDraft(t.quotes, caterer) then (t, DraftExists)
    else if !Acceptable(form.raws) then (t, BadForm)
    else if q in t.quotes then (t, RowClash)
    else (t.(quotes := t.quotes[q := Quote(t.id, caterer, QuoteDraft, BodyOf(form))]), Done)
  }

  function UpdateTenderQuote(t: Tender, q: Id, caterer: Id, form: Form): (Tender, Reply) {
    if q !in t.quotes || t.quotes[q].caterer != caterer then (t, QuoteNotFound)
    else if t.quotes[q].status != QuoteDraft then (t, NotEditable)
    else if LinksOf(t.links, caterer) == {} then (t, RequestNotFound)
    else if !Acceptable(form.raws) then (t, BadForm)
    else
      var until := if form.validUntil.Some? then form.validUntil else t.quotes[q].body.validUntil;
      (t.(quotes := t.quotes[q := t.quotes[q].(body := BodyOf(form).(validUntil := until))]), Done)
  }

  /** The first-three-responders rule. */
  ghost function SubmitTender(t: Tender, q: Id, caterer: Id, hint: Id): (Tender, Reply) {
    if t.status != SentToCaterers then (t, RequestNotOpen)
    else if q !in t.quotes || t.quotes[q].caterer != caterer || t.quotes[q].status != QuoteDraft then (t, QuoteNotFound)
    else
      var picked := Pick(LinksOf(t.links, caterer), hint);
      if picked.None? then (t, QuoteNotFound)
      else
        var i, n := picked.value, |Transmitted(t.links)|;
        if t.links[i].status == Closed then (t, RequestClosed)
        else if n >= 3 then (t.(links := CloseLinks(t.links, {i})), RequestClosed)
        else
          var links := t.links[i := t.links[i].(status := TransmittedToClient, rank := Some(n + 1))];
          (t.(quotes := t.quotes[q := t.quotes[q].(status := QuoteSent)],
              links := if n + 1 == 3 then CloseLinks(links, StillSelected(links, caterer)) else links), Done)
  }

  ghost function DeclineTender(t: Tender, caterer: Id, link: Id, hint: Id): (Tender, Reply) {
    var i := Pick(LinksOf(t.links, caterer), link);
    var q := Pick(QuotesOf(t.quotes, caterer), hint);
    if i.None? then (t, RequestNotFound)
    else if q.Some? && t.quotes[q.value].status != QuoteDraft then (t, AlreadyAnswered)
    else (t.(links := t.links[i.value := t.links[i.value].(status := Rejected)]), Done)
  }

  predicate Expired(body: Body, today: Day) {
    body.validUntil.Some? && body.validUntil.value < today
  }

  function AcceptTender(t: Tender, company: Id, q: Id, order: Id, user: Id, today: Day): (Tender, Reply) {
    if t.company != company then (t, RequestNotFound)
    else if t.status != SentToCaterers then (t, NotAvailable)
    else if q !in t.quotes || t.quotes[q].status != QuoteSent then (t, NotAvailable)
    else if Expired(t.quotes[q].body, today) then (t, OutOfDate)
    else if order in t.orders then (t, RowClash)
    else
      var others := SentQuotes(t.quotes) - {q};
      var quotes := t.quotes[q := t.quotes[q].(status := QuoteAccepted)];
      (t.(quotes := RefuseQuotes(quotes, others),
          orders := t.orders[order := Order(q, user)],
          links := CloseLinks(t.links, Losers(t.links, t.quotes[q].caterer)),
          status := Completed), Done)
  }

  /** No quote-status guard: a draft or an accepted quote can be refused too. */
  function RefuseTender(t: Tender, company: Id, q: Id): (Tender, Reply) {
    if t.company != company then (t, RequestNotFound)
    else if q !in t.quotes then (t, QuoteNotFound)
    else
      var quotes := RefuseQuotes(t.quotes, {q});
      (t.(quotes := quotes, status := if SentQuotes(quotes) == {} then QuotesRefused else t.status), Done)
  }

  ghost function Perform(t: Tender, a: Act): (Tender, Reply) {
    match a
    case Edit(company, only, compare) => EditTender(t, company, only, compare)
    case Approve(fan) => ApproveTender(t, fan)
    case AdminReject => RejectTender(t)
    case CreateQuote(q, caterer, form) => CreateTenderQuote(t, q, caterer, form)
    case UpdateQuote(q, caterer, form) => UpdateTenderQuote(t, q, caterer, form)
    case Submit(q, caterer, link) => SubmitTender(t, q, caterer, link)
    case Decline(caterer, link, hint) => DeclineTender(t, caterer, link, hint)
    case Accept(company, q, order, user, today) => AcceptTender(t, company, q, order, user, today)
    case Refuse(company, q) => RefuseTender(t, company, q)
  }

  // --- The marketplace ------------------------------------------------------

  /** Every request with its rows. */
  type Market = map<Id, Tender>

  datatype Target = Target(link: Id, caterer: Id)

  datatype Event =
    | NewRequest(id: Id, company: Id, user: Id, compare: bool, target: Option<Target>)
    | On(id: Id, act: Act)

  /** `requests_new_post`: a targeted demand skips the review, a comparison goes through it. */
  function Opened(id: Id, company: Id, user: Id, compare: bool, target: Option<Target>): Tender {
    if target.Some? then
      Tender(id, company, user, SentToCaterers,
             map[target.value.link := Link(id, target.value.caterer, Selected, None)], map[], map[])
    else
      Tender(id, company, user, if compare then PendingReview else SentToCaterers, map[], map[], map[])
  }

  ghost function Step(m: Market, e: Event): Market {
    match e
    case NewRequest(id, company, user, compare, target) =>
      if id in m then m else m[id := Opened(id, company, user, compare, target)]
    case On(id, act) =>
      if id in m then m[id := Perform(m[id], act).0] else m
  }

  ghost function Run(m: Market, es: seq<Event>): Market
    decreases |es|
  {
    if es == [] then m else Step(Run(m, es[..|es| - 1]), es[|es| - 1])
  }
}
