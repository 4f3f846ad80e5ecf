/**
 Orders after the award: delivery, the billing worker, Stripe webhooks, manual
 admin moves and reviews (blueprints/caterer/orders.py, services/billing_tasks.py,
 services/stripe_service.py, blueprints/api.py, blueprints/admin.py,
 services/reviews.py).

 `Books` is the database. `Stripe` is the outside: it remembers what it was
 asked even when the database transaction that asked is rolled back.
 */
module Ledger {
  import opened Wrappers
  import opened Money
  import opened QuoteTotals
  import References

  type Id = nat

  datatype OrderStatus = Confirmed | Delivered | Invoicing | Invoiced | Paid | Disputed

  datatype PaymentStatus = Pending | Processing | Succeeded | Failed | Refunded | Canceled

  /** What an order was made of: the accepted quote with its caterer, and the request's company and author. */
  datatype Sale = Sale(caterer: Id, company: Id, requester: Id, reference: string, lines: seq<Line>,
                       guests: Option<int>, rate: real, totalHt: int)

  datatype Order = Order(sale: Sale, status: OrderStatus, attempt: nat, invoice: Option<nat>)

  datatype Payment = Payment(order: Id, caterer: Id, status: PaymentStatus, charge: Option<Id>,
                             total: int, fee: int, toCaterer: int)

  datatype Invoice = Invoice(order: Id, caterer: Id, reference: string, ht: int, ttc: int)

  datatype Party = ForClient | ForCaterer

  datatype Commission = Commission(order: Id, party: Party, ht: int, ttc: int)

  /** A `review_invite` notification. */
  datatype Invite = Invite(order: Id, user: Id)

  datatype Review = Review(order: Id, caterer: Id, author: Id, rating: int)

  datatype Flags = Flags(charges: bool, payouts: bool)

  /** Payments are keyed by `stripe_invoice_id`, which is UNIQUE and always set. */
  datatype Books = Books(orders: map<Id, Order>, payments: map<nat, Payment>,
                         invoices: seq<Invoice>, commissions: seq<Commission>,
                         events: set<Id>, accounts: map<Id, Flags>,
                         invites: seq<Invite>, reviews: seq<Review>)

  // --- Amounts ----------------------------------------------------------------

  /** Every amount the billing of a sale writes or sends, in cents. */
  datatype Bill = Bill(amounts: InvoiceAmounts, feeSent: int, ht: int, ttc: int, feeHt: int, feeTtc: int)

  function BillOf(sale: Sale): Bill {
    var t := TotalsOf(sale.lines, sale.guests, Some(sale.rate));
    Bill(SplitInvoiceAmounts(Euros(t.ttc), Euros(t.feeHt), Euros(t.feeTva)),
         ApplicationFee(Euros(t.feeHt), Euros(t.feeTva)),
         t.ht, t.ttc, t.feeHt, t.feeHt + t.feeTva)
  }

  // --- Orders -----------------------------------------------------------------

  /** mark_delivered and order_deliver, one transaction. */
  function Deliver(b: Books, o: Id, caterer: Id, billing: bool): Books {
    if o !in b.orders || b.orders[o].sale.caterer != caterer || b.orders[o].status != Confirmed then b
    else b.(orders := b.orders[o := b.orders[o].(status := if billing then Invoicing else Delivered)])
  }

  datatype AdminAction = AdminInvoice | AdminPay

  function Expected(a: AdminAction): OrderStatus {
    if a.AdminInvoice? then Delivered else Invoiced
  }

  function TargetOf(a: AdminAction): OrderStatus {
    if a.AdminInvoice? then Invoiced else Paid
  }

  /** order_transition */
  function AdminMove(b: Books, o: Id, a: AdminAction): Books {
    if o !in b.orders || b.orders[o].status != Expected(a) then b
    else
      var moved := b.(orders := b.orders[o := b.orders[o].(status := TargetOf(a))]);
      if TargetOf(a) == Paid then InviteToReview(moved, o) else moved
  }

  // --- Reviews ----------------------------------------------------------------

  predicate Reviewed(b: Books, o: Id) {
    exists r :: r in b.reviews && r.order == o
  }

  /** notify_review_invite */
  function InviteToReview(b: Books, o: Id): Books {
    if o !in b.orders || b.orders[o].status != Paid || Reviewed(b, o) then b
    else
      var invite := Invite(o, b.orders[o].sale.requester);
      if invite in b.invites then b else b.(invites := b.invites + [invite])
  }

  predicate Reviewable(b: Books, o: Id, viewer: Id) {
    o in b.orders && b.orders[o].status == Paid && b.orders[o].sale.requester == viewer && !Reviewed(b, o)
  }

  /** submit_review, with the rating after `_coerce_rating` parsed an integer. */
  function PostReview(b: Books, o: Id, viewer: Id, rating: int): Books {
    if rating < 1 || rating > 5 || !Reviewable(b, o, viewer) then b
    else b.(reviews := b.reviews + [Review(o, b.orders[o].sale.caterer, viewer, rating)])
  }

  // --- Webhook ----------------------------------------------------------------

  datatype StripeEvent =
    | InvoicePaid(invoice: nat, charge: Option<Id>)
    | PaymentFailed(invoice: nat)
    | AccountUpdated(account: Id, flags: Flags)
    | OtherEvent

  predicate TerminalPaid(s: PaymentStatus) {
    s == Succeeded || s == Refunded
  }

  /** The business part of `stripe_webhook`. */
  function ApplyEvent(b: Books, e: StripeEvent): Books {
    match e
    case InvoicePaid(invoice, charge) =>
      if invoice !in b.payments then b
      else
        var payment := b.payments[invoice];
        var paid := b.(payments := b.payments[invoice := payment.(status := Succeeded, charge := charge)]);
        if payment.order !in b.orders then paid
        else InviteToReview(paid.(orders := paid.orders[payment.order := paid.orders[payment.order].(status := Paid)]),
                            payment.order)
    case PaymentFailed(invoice) =>
      if invoice !in b.payments || TerminalPaid(b.payments[invoice].status) then b
      else b.(payments := b.payments[invoice := b.payments[invoice].(status := Failed)])
    case AccountUpdated(account, flags) =>
      if account !in b.accounts then b else b.(accounts := b.accounts[account := flags])
    case OtherEvent => b
  }

  lemma InvitationsIgnoreEvents(b: Books, o: Id, events: set<Id>)
    ensures InviteToReview(b.(events := events), o) == InviteToReview(b, o).(events := events)
    ensures InviteToReview(b, o).events == b.events
  {
    assert Reviewed(b.(events := events), o) <==> Reviewed(b, o);
  }

  /** The dedup rows and the business rows do not look at each other. */
  lemma EventsAreNotBusiness(b: Books, e: StripeEvent, events: set<Id>)
    ensures ApplyEvent(b.(events := events), e) == ApplyEvent(b, e).(events := events)
    ensures ApplyEvent(b, e).events == b.events
  {
    if e.InvoicePaid? && e.invoice in b.payments && b.payments[e.invoice].order in b.orders {
      var o := b.payments[e.invoice].order;
      var row := b.payments[e.invoice].(status := Succeeded, charge := e.charge);
      var paid := b.(payments := b.payments[e.invoice := row],
                     orders := b.orders[o := b.orders[o].(status := Paid)]);
      InvitationsIgnoreEvents(paid, o, events);
    }
    hide InviteToReview;
  }

  /** One delivery by Stripe; `fails` when the handler or its commit raises. */
  datatype Delivery = Delivery(id: Id, event: StripeEvent, fails: bool)

  datatype Answer = Processed | Duplicate | ServerError

  /** stripe_webhook: dedup row and business changes share one transaction. */
  function Receive(b: Books, d: Delivery): (Books, Answer) {
    if d.id in b.events then (b, Duplicate)
    else if d.fails then (b, ServerError)
    else (ApplyEvent(b, d.event).(events := b.events + {d.id}), Processed)
  }

  function ReceiveAll(b: Books, log: seq<Delivery>): Books {
    if log == [] then b else Receive(ReceiveAll(b, log[..|log| - 1]), log[|log| - 1]).0
  }

  // --- Stripe and the billing worker ----------------------------------------------

  /** `invoice-order-<order>-v<attempt>` */
  datatype Key = Key(order: Id, attempt: nat)

  datatype StripeInvoice = StripeInvoice(order: Id, fee: int)

  /** An idempotency key always gets the invoice it got first. */
  datatype Stripe = Stripe(keys: map<Key, nat>, invoices: seq<StripeInvoice>)

  function CreateInvoice(s: Stripe, key: Key, fee: int): (Stripe, nat) {
    if key in s.keys then (s, s.keys[key])
    else (Stripe(s.keys[key := |s.invoices|], s.invoices + [StripeInvoice(key.order, fee)]), |s.invoices|)
  }

  /** A worker transaction under way: what it read of the order, and Stripe's answer. */
  datatype Job = Job(order: Id, attempt: nat, invoice: Option<nat>)

  /** `queue` holds the orders a message was sent for: the broker may deliver it any number of times, or lose it. */
  datatype World = World(books: Books, stripe: Stripe, queue: set<Id>, jobs: map<Id, Job>)

  /** order_deliver sends its message once the order is committed as `invoicing`. */
  function DeliverAndSend(w: World, o: Id, caterer: Id, billing: bool): World {
    var books := Deliver(w.books, o, caterer, billing);
    w.(books := books, queue := if books != w.books && billing then w.queue + {o} else w.queue)
  }

  /** The status gate of `send_invoice_for_order`. */
  predicate Billable(s: OrderStatus) {
    s == Invoicing || s == Delivered
  }

  function StartJob(w: World, j: Id, o: Id): World {
    if j in w.jobs || o !in w.queue || o !in w.books.orders || !Billable(w.books.orders[o].status) then w
    else w.(jobs := w.jobs[j := Job(o, w.books.orders[o].attempt, None)])
  }

  /** `Invoice.create` with the incremented attempt of this transaction. */
  function CallStripe(w: World, j: Id): World {
    if j !in w.jobs || w.jobs[j].order !in w.books.orders then w
    else
      var job := w.jobs[j];
      var (stripe, invoice) :=
        CreateInvoice(w.stripe, Key(job.order, job.attempt + 1), BillOf(w.books.orders[job.order].sale).feeSent);
      w.(stripe := stripe, jobs := w.jobs[j := job.(invoice := Some(invoice))])
  }

  /** The rows `create_invoice_for_order` writes. */
  function Billed(b: Books, o: Id, attempt: nat, invoice: nat, bill: Bill): Books
    requires o in b.orders
  {
    var sale, a := b.orders[o].sale, bill.amounts;
    b.(orders := b.orders[o := Order(sale, Invoiced, attempt, Some(invoice))],
       payments := b.payments[invoice := Payment(o, sale.caterer, Pending, None, a.total, a.fee, a.toCaterer)],
       invoices := b.invoices + [Invoice(o, sale.caterer, References.InvoiceReference(sale.reference),
                                         bill.ht, bill.ttc)],
       commissions := b.commissions + [Commission(o, ForClient, bill.feeHt, bill.feeTtc),
                                       Commission(o, ForCaterer, bill.feeHt, bill.feeTtc)])
  }

  /** Commit: UNIQUE on the payment's Stripe invoice rolls a second copy back. */
  function FinishJob(w: World, j: Id): World {
    if j !in w.jobs || w.jobs[j].invoice.None? then w
    else
      var job, rest := w.jobs[j], w.jobs - {j};
      if job.order !in w.books.orders || job.invoice.value in w.books.payments then w.(jobs := rest)
      else w.(books := Billed(w.books, job.order, job.attempt + 1, job.invoice.value,
                              BillOf(w.books.orders[job.order].sale)),
              jobs := rest)
  }

  /** Any error before the commit: the transaction is discarded, Stripe keeps what it has. */
  function DropJob(w: World, j: Id): World {
    w.(jobs := w.jobs - {j})
  }

  // --- Runs -------------------------------------------------------------------

  datatype Event =
    | Place(order: Id, sale: Sale)
    | DeliverOrder(order: Id, caterer: Id, billing: bool)
    | Start(job: Id, order: Id)
    | Call(job: Id)
    | Finish(job: Id)
    | Drop(job: Id)
    | Admin(order: Id, action: AdminAction)
    | Webhook(delivery: Delivery)
    | Write(order: Id, viewer: Id, rating: int)

  function Step(w: World, e: Event): World {
    match e
    case Place(o, sale) =>
      if o in w.books.orders then w
      else w.(books := w.books.(orders := w.books.orders[o := Order(sale, Confirmed, 0, None)]))
    case DeliverOrder(o, caterer, billing) => DeliverAndSend(w, o, caterer, billing)
    case Start(j, o) => StartJob(w, j, o)
    case Call(j) => CallStripe(w, j)
    case Finish(j) => FinishJob(w, j)
    case Drop(j) => DropJob(w, j)
    case Admin(o, action) => w.(books := AdminMove(w.books, o, action))
    case Webhook(d) => w.(books := Receive(w.books, d).0)
    case Write(o, viewer, rating) => w.(books := PostReview(w.books, o, viewer, rating))
  }

  function Run(w: World, es: seq<Event>): World {
    if es == [] then w else Step(Run(w, es[..|es| - 1]), es[|es| - 1])
  }
}
