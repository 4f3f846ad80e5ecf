/**
 What every interleaving of worker transactions, webhooks, admin moves and
 reviews keeps.
 */
module LedgerSafety {
  import opened Wrappers
  import opened QuoteTotals
  import opened Ledger

  // --- Billing ----------------------------------------------------------------

  function InvoicesOf(rows: seq<Invoice>, o: Id): nat {
    if rows == [] then 0
    else InvoicesOf(rows[..|rows| - 1], o) + if rows[|rows| - 1].order == o then 1 else 0
  }

  function CommissionsOf(rows: seq<Commission>, o: Id, party: Party): nat {
    if rows == [] then 0
    else
      CommissionsOf(rows[..|rows| - 1], o, party)
      + if rows[|rows| - 1].order == o && rows[|rows| - 1].party == party then 1 else 0
  }

  ghost predicate IsBilled(b: Books, o: Id) {
    exists n :: n in b.payments && b.payments[n].order == o
  }

  /** The key of every attempt an order can make: a discarded transaction discards its attempt too. */
  function OnlyKey(o: Id): Key {
    Key(o, 1)
  }

  /** One Stripe invoice per order, whatever was retried. */
  ghost predicate StripeOk(w: World) {
    && (forall k :: k in w.stripe.keys ==>
          k.attempt == 1 && w.stripe.keys[k] < |w.stripe.invoices|
              && w.stripe.invoices[w.stripe.keys[k]].order == k.order)
    && (forall n :: 0 <= n < |w.stripe.invoices| ==>
          var i := w.stripe.invoices[n];
          && OnlyKey(i.order) in w.stripe.keys && w.stripe.keys[OnlyKey(i.order)] == n
          && i.order in w.books.orders && i.fee == BillOf(w.books.orders[i.order].sale).feeSent)
  }

  ghost predicate JobsOk(w: World) {
    forall j :: j in w.jobs ==>
      && w.jobs[j].order in w.books.orders && w.jobs[j].attempt == 0
      && (w.jobs[j].invoice.Some? ==>
            OnlyKey(w.jobs[j].order) in w.stripe.keys
                && w.stripe.keys[OnlyKey(w.jobs[j].order)] == w.jobs[j].invoice.value)
  }

  ghost predicate OrdersOk(b: Books) {
    forall o :: o in b.orders ==>
      && b.orders[o].status != Disputed
      && (b.orders[o].attempt != 0 ==> b.orders[o].status == Invoiced || b.orders[o].status == Paid)
  }

  /** A payment is the order's only one, carries its Stripe invoice and the amounts of its sale. */
  ghost predicate PaymentsOk(w: World) {
    forall n :: n in w.books.payments ==>
      var p := w.books.payments[n];
      && p.order in w.books.orders
      && OnlyKey(p.order) in w.stripe.keys && w.stripe.keys[OnlyKey(p.order)] == n
      && (w.books.orders[p.order].status == Invoiced || w.books.orders[p.order].status == Paid)
      && var sale := w.books.orders[p.order].sale;
      && p.caterer == sale.caterer
      && BillOf(sale).amounts == InvoiceAmounts(p.total, p.fee, p.toCaterer)
  }

  /** All or nothing: an order has its payment, its invoice and both commission invoices, or none of them. */
  ghost predicate RowsOk(b: Books) {
    forall o: Id ::
      var n := if IsBilled(b, o) then 1 else 0;
      && InvoicesOf(b.invoices, o) == n
      && CommissionsOf(b.commissions, o, ForClient) == n
      && CommissionsOf(b.commissions, o, ForCaterer) == n
  }

  ghost predicate BillingOk(w: World) {
    StripeOk(w) && JobsOk(w) && OrdersOk(w.books) && PaymentsOk(w) && RowsOk(w.books)
  }

  /** Orders keep their sale, and the moves that are not billing write no billing row. */
  ghost predicate SameBills(b: Books, c: Books) {
    && c.orders.Keys == b.orders.Keys && c.payments.Keys == b.payments.Keys
    && c.invoices == b.invoices && c.commissions == b.commissions
    && (forall o :: o in b.orders ==>
          && c.orders[o].sale == b.orders[o].sale && c.orders[o].attempt == b.orders[o].attempt
          && (c.orders[o].status == Disputed ==> b.orders[o].status == Disputed))
    && (forall n :: n in b.payments ==>
          c.payments[n].(status := b.payments[n].status, charge := b.payments[n].charge) == b.payments[n])
    && (forall o :: o in b.orders && (b.orders[o].status == Invoiced || b.orders[o].status == Paid) ==>
          c.orders[o].status == Invoiced || c.orders[o].status == Paid)
  }

  /** Stripe's side and the jobs only look at the sales of orders. */
  lemma SalesKeepStripe(w: World, w': World)
    requires StripeOk(w) && JobsOk(w) && w'.stripe == w.stripe
    requires forall j :: j in w'.jobs ==> j in w.jobs && w'.jobs[j] == w.jobs[j]
    requires forall o :: o in w.books.orders ==>
               o in w'.books.orders && w'.books.orders[o].sale == w.books.orders[o].sale
    ensures StripeOk(w') && JobsOk(w')
  {
    hide BillOf;
  }

  lemma SameBillsKeepsRowsOk(b: Books, c: Books)
    requires RowsOk(b) && SameBills(b, c)
    ensures RowsOk(c)
  {
    forall o: Id ensures IsBilled(c, o) <==> IsBilled(b, o) {
      if IsBilled(c, o) {
        var n :| n in c.payments && c.payments[n].order == o;
        assert n in b.payments && b.payments[n].order == o;
      }
      if IsBilled(b, o) {
        var n :| n in b.payments && b.payments[n].order == o;
        assert n in c.payments && c.payments[n].order == o;
      }
    }
  }

  lemma SameBillsKeepsPayments(w: World, c: Books)
    requires PaymentsOk(w) && SameBills(w.books, c)
    ensures PaymentsOk(w.(books := c))
  {
    hide BillOf;
  }

  /** The same rows, whoever else moved. */
  lemma SamePayments(b: Books, c: Books)
    requires RowsOk(b) && c.payments == b.payments && c.invoices == b.invoices && c.commissions == b.commissions
    ensures RowsOk(c)
  {
    forall o: Id ensures IsBilled(c, o) <==> IsBilled(b, o) {
    }
  }

  lemma SameBillsKeepsBillingOk(w: World, c: Books)
    requires BillingOk(w) && SameBills(w.books, c)
    ensures BillingOk(w.(books := c))
  {
    SalesKeepStripe(w, w.(books := c));
    SameBillsKeepsRowsOk(w.books, c);
    SameBillsKeepsPayments(w, c);
    hide StripeOk, JobsOk, PaymentsOk, RowsOk;
  }

  lemma InviteKeepsBills(b: Books, c: Books, o: Id)
    requires SameBills(b, c)
    ensures SameBills(b, InviteToReview(c, o))
  {
  }

  lemma PaidKeepsBills(w: World, invoice: nat, charge: Option<Id>)
    requires PaymentsOk(w)
    ensures SameBills(w.books, ApplyEvent(w.books, InvoicePaid(invoice, charge)))
  {
    var b := w.books;
    if invoice in b.payments {
      MarkingPaidKeepsBills(w, invoice, charge);
      InviteKeepsBills(b, MarkedPaid(b, invoice, charge), b.payments[invoice].order);
    }
    hide PaymentsOk, InviteToReview;
  }

  /** The two rows a paid delivery writes, before its invitation. */
  function MarkedPaid(b: Books, invoice: nat, charge: Option<Id>): Books
    requires invoice in b.payments && b.payments[invoice].order in b.orders
  {
    var p := b.payments[invoice];
    b.(payments := b.payments[invoice := p.(status := Succeeded, charge := charge)],
       orders := b.orders[p.order := b.orders[p.order].(status := Paid)])
  }

  lemma MarkingPaidKeepsBills(w: World, invoice: nat, charge: Option<Id>)
    requires PaymentsOk(w) && invoice in w.books.payments
    ensures w.books.payments[invoice].order in w.books.orders
    ensures SameBills(w.books, MarkedPaid(w.books, invoice, charge))
  {
    hide BillOf;
  }

  lemma WebhookKeepsBills(w: World, d: Delivery)
    requires PaymentsOk(w)
    ensures SameBills(w.books, Receive(w.books, d).0)
  {
    hide ApplyEvent, PaymentsOk;
    EventKeepsBills(w, d.event);
    var applied := ApplyEvent(w.books, d.event);
    assert SameBills(w.books, applied) ==> SameBills(w.books, applied.(events := w.books.events + {d.id}));
  }

  lemma EventKeepsBills(w: World, e: StripeEvent)
    requires PaymentsOk(w)
    ensures SameBills(w.books, ApplyEvent(w.books, e))
  {
    if e.InvoicePaid? {
      PaidKeepsBills(w, e.invoice, e.charge);
    } else {
      OtherEventsKeepBills(w.books, e);
    }
  }

  lemma OtherEventsKeepBills(b: Books, e: StripeEvent)
    requires !e.InvoicePaid?
    ensures SameBills(b, ApplyEvent(b, e))
  {
  }

  lemma AdminKeepsBills(b: Books, o: Id, action: AdminAction)
    ensures SameBills(b, AdminMove(b, o, action))
  {
    if o in b.orders && b.orders[o].status == Expected(action) {
      var moved := b.(orders := b.orders[o := b.orders[o].(status := TargetOf(action))]);
      assert SameBills(b, moved);
      InviteKeepsBills(b, moved, o);
    }
  }

  lemma PlaceKeepsBillingOk(w: World, o: Id, sale: Sale)
    requires BillingOk(w)
    ensures BillingOk(Step(w, Place(o, sale)))
  {
    hide BillOf, StripeOk, JobsOk, RowsOk;
    var w' := Step(w, Place(o, sale));
    SalesKeepStripe(w, w');
    SamePayments(w.books, w'.books);
  }

  /** Asking Stripe again for an order gets the invoice it has; asking first makes one. */
  lemma CreateKeepsStripe(w: World, o: Id, jobs: map<Id, Job>)
    requires StripeOk(w) && o in w.books.orders
    ensures var (stripe, n) := CreateInvoice(w.stripe, OnlyKey(o), BillOf(w.books.orders[o].sale).feeSent);
            && StripeOk(w.(stripe := stripe, jobs := jobs))
            && OnlyKey(o) in stripe.keys && stripe.keys[OnlyKey(o)] == n
            && (forall k :: k in w.stripe.keys ==> k in stripe.keys && stripe.keys[k] == w.stripe.keys[k])
  {
    hide BillOf;
  }

  lemma MoreKeysKeepPayments(w: World, w': World)
    requires PaymentsOk(w) && w'.books == w.books
    requires forall k :: k in w.stripe.keys ==> k in w'.stripe.keys && w'.stripe.keys[k] == w.stripe.keys[k]
    ensures PaymentsOk(w')
  {
    hide BillOf;
  }

  lemma CallKeepsBillingOk(w: World, j: Id)
    requires BillingOk(w)
    ensures BillingOk(CallStripe(w, j))
  {
    hide BillOf, RowsOk, OrdersOk, PaymentsOk, StripeOk, CreateInvoice;
    if j in w.jobs {
      CreateKeepsStripe(w, w.jobs[j].order, CallStripe(w, j).jobs);
      MoreKeysKeepPayments(w, CallStripe(w, j));
    }
  }

  lemma AppendRows(rows: seq<Commission>, a: Commission, b: Commission, o: Id, party: Party)
    ensures CommissionsOf(rows + [a, b], o, party)
         == CommissionsOf(rows, o, party)
            + (if a.order == o && a.party == party then 1 else 0) + (if b.order == o && b.party == party then 1 else 0)
  {
    assert (rows + [a, b])[..|rows| + 1] == rows + [a];
    assert (rows + [a])[..|rows|] == rows;
  }

  /** The commit of a billing transaction bills an order that had no billing row at all. */
  lemma BillingRows(w: World, o: Id, invoice: nat, attempt: nat, bill: Bill)
    requires BillingOk(w) && o in w.books.orders && invoice !in w.books.payments
    requires OnlyKey(o) in w.stripe.keys && w.stripe.keys[OnlyKey(o)] == invoice
    ensures RowsOk(Billed(w.books, o, attempt, invoice, bill))
  {
    hide BillOf;
    var b, c := w.books, Billed(w.books, o, attempt, invoice, bill);
    forall x: Id
      ensures IsBilled(c, x) <==> x == o || IsBilled(b, x)
    {
      if x == o {
        assert c.payments[invoice].order == o;
      } else if IsBilled(b, x) {
        var n :| n in b.payments && b.payments[n].order == x;
        assert n in c.payments && c.payments[n].order == x;
      }
    }
    assert !IsBilled(b, o);
    assert c.invoices[..|b.invoices|] == b.invoices;
    forall x: Id, party: Party
      ensures CommissionsOf(c.commissions, x, party)
           == CommissionsOf(b.commissions, x, party) + if x == o then 1 else 0
    {
      AppendRows(b.commissions, c.commissions[|b.commissions|], c.commissions[|b.commissions| + 1], x, party);
    }
  }

  lemma FinishKeepsBillingOk(w: World, j: Id)
    requires BillingOk(w)
    ensures BillingOk(FinishJob(w, j))
  {
    hide StripeOk, OrdersOk, PaymentsOk, RowsOk, Billed;
    if j in w.jobs && w.jobs[j].invoice.Some? {
      var o, invoice, rest := w.jobs[j].order, w.jobs[j].invoice.value, w.jobs - {j};
      if invoice in w.books.payments {
        assert FinishJob(w, j) == w.(jobs := rest);
        DroppingKeepsBillingOk(w, rest);
      } else {
        var billed := Billed(w.books, o, 1, invoice, BillOf(w.books.orders[o].sale));
        assert FinishJob(w, j) == w.(books := billed, jobs := rest);
        CommitKeepsBillingOk(w, o, invoice, billed, rest);
      }
    }
  }

  lemma DroppingKeepsBillingOk(w: World, jobs: map<Id, Job>)
    requires BillingOk(w)
    requires forall j :: j in jobs ==> j in w.jobs && jobs[j] == w.jobs[j]
    ensures BillingOk(w.(jobs := jobs))
  {
    forall x: Id ensures IsBilled(w.(jobs := jobs).books, x) <==> IsBilled(w.books, x) {
    }
  }

  lemma CommitKeepsBillingOk(w: World, o: Id, invoice: nat, c: Books, jobs: map<Id, Job>)
    requires BillingOk(w) && o in w.books.orders && invoice !in w.books.payments
    requires OnlyKey(o) in w.stripe.keys && w.stripe.keys[OnlyKey(o)] == invoice
    requires c == Billed(w.books, o, 1, invoice, BillOf(w.books.orders[o].sale))
    requires forall j :: j in jobs ==> j in w.jobs && jobs[j] == w.jobs[j]
    ensures BillingOk(w.(books := c, jobs := jobs))
  {
    hide BillOf, Billed, RowsOk, StripeOk, JobsOk;
    BillingRows(w, o, invoice, 1, BillOf(w.books.orders[o].sale));
    BilledShape(w.books, o, 1, invoice, BillOf(w.books.orders[o].sale));
    NewPaymentOk(w, o, invoice, c);
    SalesKeepStripe(w, w.(books := c, jobs := jobs));
  }

  lemma BilledShape(b: Books, o: Id, attempt: nat, invoice: nat, bill: Bill)
    requires o in b.orders
    ensures var c, sale := Billed(b, o, attempt, invoice, bill), b.orders[o].sale;
            && c.orders == b.orders[o := Order(sale, Invoiced, attempt, Some(invoice))]
            && c.payments.Keys == b.payments.Keys + {invoice}
            && (forall n :: n in b.payments && n != invoice ==> c.payments[n] == b.payments[n])
            && c.payments[invoice].order == o && c.payments[invoice].caterer == sale.caterer
            && bill.amounts == InvoiceAmounts(c.payments[invoice].total, c.payments[invoice].fee,
                                              c.payments[invoice].toCaterer)
  {
  }

  lemma NewPaymentOk(w: World, o: Id, invoice: nat, c: Books)
    requires PaymentsOk(w) && o in w.books.orders && invoice !in w.books.payments
    requires OnlyKey(o) in w.stripe.keys && w.stripe.keys[OnlyKey(o)] == invoice
    requires c.orders == w.books.orders[o := Order(w.books.orders[o].sale, Invoiced, 1, Some(invoice))]
    requires c.payments.Keys == w.books.payments.Keys + {invoice}
    requires forall n :: n in w.books.payments ==> c.payments[n] == w.books.payments[n]
    requires c.payments[invoice].order == o && c.payments[invoice].caterer == w.books.orders[o].sale.caterer
    requires BillOf(w.books.orders[o].sale).amounts
          == InvoiceAmounts(c.payments[invoice].total, c.payments[invoice].fee, c.payments[invoice].toCaterer)
    ensures PaymentsOk(w.(books := c))
  {
    hide BillOf;
  }

  lemma StartKeepsBillingOk(w: World, j: Id, o: Id)
    requires BillingOk(w)
    ensures BillingOk(StartJob(w, j, o))
  {
    hide BillOf;
    assert StartJob(w, j, o).books == w.books;
  }

  lemma QueueIsNotBilling(w: World, w': World)
    requires BillingOk(w) && w' == w.(queue := w'.queue)
    ensures BillingOk(w')
  {
  }

  /** One step of anything keeps billing straight. */
  lemma WorkerKeepsBillingOk(w: World, e: Event)
    requires BillingOk(w) && (e.Start? || e.Call? || e.Finish? || e.Drop?)
    ensures BillingOk(Step(w, e))
  {
    hide BillingOk, StartJob, CallStripe, FinishJob;
    match e
    case Start(j, o) => StartKeepsBillingOk(w, j, o);
    case Call(j) => CallKeepsBillingOk(w, j);
    case Finish(j) => FinishKeepsBillingOk(w, j);
    case Drop(j) => DroppingKeepsBillingOk(w, w.jobs - {j});
  }

  lemma StepKeepsBillingOk(w: World, e: Event)
    requires BillingOk(w)
    ensures BillingOk(Step(w, e))
  {
    assert PaymentsOk(w);
    hide BillOf, BillingOk, AdminMove, Receive, StartJob, CallStripe, FinishJob, PaymentsOk;
    match e
    case Place(o, sale) => PlaceKeepsBillingOk(w, o, sale);
    case DeliverOrder(o, caterer, billing) => DeliverKeepsBillingOk(w, o, caterer, billing);
    case Admin(o, action) =>
      AdminKeepsBills(w.books, o, action);
      SameBillsKeepsBillingOk(w, AdminMove(w.books, o, action));
    case Webhook(d) =>
      WebhookKeepsBills(w, d);
      SameBillsKeepsBillingOk(w, Receive(w.books, d).0);
    case Write(o, viewer, rating) =>
      SameBillsKeepsBillingOk(w, PostReview(w.books, o, viewer, rating));
    case _ => WorkerKeepsBillingOk(w, e);
  }

  lemma DeliverKeepsBillingOk(w: World, o: Id, caterer: Id, billing: bool)
    requires BillingOk(w)
    ensures BillingOk(DeliverAndSend(w, o, caterer, billing))
  {
    hide BillingOk;
    SameBillsKeepsBillingOk(w, Deliver(w.books, o, caterer, billing));
    QueueIsNotBilling(w.(books := Deliver(w.books, o, caterer, billing)), DeliverAndSend(w, o, caterer, billing));
  }

  ghost predicate Initial(w: World) {
    && w.stripe == Stripe(map[], []) && w.queue == {} && w.jobs == map[]
    && w.books.payments == map[] && w.books.invoices == [] && w.books.commissions == []
    && w.books.invites == [] && w.books.reviews == []
    && (forall o :: o in w.books.orders ==> w.books.orders[o].status == Confirmed && w.books.orders[o].attempt == 0)
  }

  /**
   Exactly-once billing: any interleaving of any number of failing, retried and
   overlapping worker transactions with everything else leaves one Stripe
   invoice per order at most, and all of an order's billing rows or none.
   */
  lemma {:induction false} EveryRunBillsOnce(w: World, es: seq<Event>)
    requires Initial(w)
    ensures BillingOk(Run(w, es))
    decreases |es|
  {
    if es != [] {
      EveryRunBillsOnce(w, es[..|es| - 1]);
      StepKeepsBillingOk(Run(w, es[..|es| - 1]), es[|es| - 1]);
    }
  }

  lemma OneStripeInvoicePerOrder(w: World, es: seq<Event>, i: nat, j: nat)
    requires Initial(w)
    requires var invoices := Run(w, es).stripe.invoices;
             i < |invoices| && j < |invoices| && invoices[i].order == invoices[j].order
    ensures i == j
  {
    EveryRunBillsOnce(w, es);
  }

  /** The ledger of every payment: nothing lost in the split, and the fee is the one Stripe was told to keep. */
  lemma EveryPaymentBalances(w: World, es: seq<Event>, n: nat)
    requires Initial(w) && n in Run(w, es).books.payments
    ensures var end := Run(w, es);
            var p := end.books.payments[n];
            && p.toCaterer + p.fee == p.total
            && p.order in end.books.orders
            && var totals := TotalsFor(end.books.orders[p.order].sale);
            && p.toCaterer == totals.ttc && p.fee == totals.feeTtc
            && n < |end.stripe.invoices| && p.fee == end.stripe.invoices[n].fee
  {
    EveryRunBillsOnce(w, es);
    var end := Run(w, es);
    PaymentAmounts(end.books.orders[end.books.payments[n].order].sale);
  }

  function TotalsFor(sale: Sale): Totals {
    TotalsOf(sale.lines, sale.guests, Some(sale.rate))
  }

  lemma PaymentAmounts(sale: Sale)
    ensures var a := BillOf(sale).amounts;
            && a.toCaterer + a.fee == a.total && a.toCaterer == TotalsFor(sale).ttc
            && a.fee == BillOf(sale).feeSent == TotalsFor(sale).feeTtc
  {
    var t := TotalsFor(sale);
    Money.CentsOfEuros(t.ttc);
    FeeSentIsFeeBooked(Money.Euros(t.ttc), t.feeHt, t.feeTva);
  }

  // --- Order status -------------------------------------------------------------

  function Rank(s: OrderStatus): nat {
    match s
    case Confirmed => 0
    case Delivered => 1
    case Invoicing => 2
    case Invoiced => 3
    case Paid => 4
    case Disputed => 5
  }

  ghost predicate Forward(b: Books, c: Books) {
    forall o :: o in b.orders ==> o in c.orders && Rank(b.orders[o].status) <= Rank(c.orders[o].status)
  }

  lemma WebhookMovesForward(w: World, d: Delivery)
    requires OrdersOk(w.books)
    ensures Forward(w.books, Receive(w.books, d).0)
  {
  }

  lemma AdminMovesForward(b: Books, o: Id, action: AdminAction)
    ensures Forward(b, AdminMove(b, o, action))
  {
  }

  /**
   `create_invoice_for_order` sets `invoiced` without looking again at the
   status: a commit moves an order back if and only if the order is paid and
   its Stripe invoice has no payment yet.
   */
  lemma CommitMovesForwardIff(w: World, j: Id)
    requires BillingOk(w) && j in w.jobs && w.jobs[j].invoice.Some?
    ensures Forward(w.books, FinishJob(w, j).books) <==>
              w.books.orders[w.jobs[j].order].status != Paid || w.jobs[j].invoice.value in w.books.payments
  {
    hide BillOf, StripeOk, PaymentsOk, RowsOk;
    var o := w.jobs[j].order;
    if w.books.orders[o].status == Paid && w.jobs[j].invoice.value !in w.books.payments {
      assert FinishJob(w, j).books.orders[o].status == Invoiced;
    }
  }

  // --- The queue ----------------------------------------------------------------

  /** A message goes out once its order is `invoicing`; from there only its own billing takes the order on. */
  ghost predicate Queued(b: Books, o: Id) {
    o in b.orders && (b.orders[o].status == Invoicing || IsBilled(b, o))
  }

  ghost predicate QueueOk(w: World) {
    && (forall o :: o in w.queue ==> Queued(w.books, o))
    && (forall j :: j in w.jobs ==> w.jobs[j].order in w.queue)
  }

  /** Moves that write no billing row leave an order `invoicing` where it is. */
  lemma SameBillsKeepsQueued(w: World, c: Books, o: Id)
    requires BillingOk(w) && SameBills(w.books, c) && Queued(w.books, o)
    requires w.books.orders[o].status == Invoicing && !IsBilled(w.books, o) ==> c.orders[o].status == Invoicing
    ensures Queued(c, o)
  {
    hide PaymentsOk, StripeOk, JobsOk, OrdersOk, RowsOk;
    if IsBilled(w.books, o) {
      var n :| n in w.books.payments && w.books.payments[n].order == o;
      assert n in c.payments && c.payments[n].order == o;
    }
  }

  lemma WebhookKeepsQueued(w: World, d: Delivery, o: Id)
    requires BillingOk(w) && Queued(w.books, o)
    ensures Queued(Receive(w.books, d).0, o)
  {
    hide BillOf, SameBills, StripeOk, JobsOk, RowsOk;
    WebhookKeepsBills(w, d);
    SameBillsKeepsQueued(w, Receive(w.books, d).0, o);
  }

  lemma AdminKeepsQueued(w: World, moved: Id, action: AdminAction, o: Id)
    requires BillingOk(w) && Queued(w.books, o)
    ensures Queued(AdminMove(w.books, moved, action), o)
  {
    hide StripeOk, JobsOk, RowsOk, PaymentsOk, OrdersOk;
    AdminKeepsBills(w.books, moved, action);
    SameBillsKeepsQueued(w, AdminMove(w.books, moved, action), o);
  }

  lemma CommitKeepsQueued(w: World, j: Id, o: Id)
    requires BillingOk(w) && Queued(w.books, o)
    ensures Queued(FinishJob(w, j).books, o)
  {
    hide BillOf, StripeOk, RowsOk, OrdersOk;
    var c := FinishJob(w, j).books;
    if IsBilled(w.books, o) {
      var n :| n in w.books.payments && w.books.payments[n].order == o;
      assert n in c.payments && c.payments[n].order == o;
    } else if c != w.books && w.jobs[j].order == o {
      assert c.payments[w.jobs[j].invoice.value].order == o;
    }
  }

  lemma OthersKeepQueued(w: World, e: Event, o: Id)
    requires BillingOk(w) && Queued(w.books, o) && !e.Webhook? && !e.Admin? && !e.Finish?
    ensures Queued(Step(w, e).books, o)
  {
    hide BillOf, StripeOk, JobsOk, OrdersOk, PaymentsOk, RowsOk;
    var c := Step(w, e).books;
    assert c.payments == w.books.payments && o in c.orders;
    assert w.books.orders[o].status == Invoicing ==> c.orders[o].status == Invoicing;
    if IsBilled(w.books, o) {
      var n :| n in w.books.payments && w.books.payments[n].order == o;
      assert n in c.payments && c.payments[n].order == o;
    }
  }

  lemma StepKeepsQueued(w: World, e: Event, o: Id)
    requires BillingOk(w) && Queued(w.books, o)
    ensures Queued(Step(w, e).books, o)
  {
    hide BillingOk, Queued;
    match e
    case Webhook(d) => WebhookKeepsQueued(w, d, o);
    case Admin(moved, action) => AdminKeepsQueued(w, moved, action, o);
    case Finish(j) => CommitKeepsQueued(w, j, o);
    case _ => OthersKeepQueued(w, e, o);
  }

  lemma StepKeepsQueueOk(w: World, e: Event)
    requires BillingOk(w) && QueueOk(w)
    ensures QueueOk(Step(w, e))
  {
    hide BillingOk;
    var w' := Step(w, e);
    forall o | o in w'.queue ensures Queued(w'.books, o) {
      if o in w.queue {
        StepKeepsQueued(w, e, o);
      }
    }
  }

  /** So no commit meets an order paid meanwhile: every step moves every order forward. */
  lemma StepMovesForward(w: World, e: Event)
    requires BillingOk(w) && QueueOk(w)
    ensures Forward(w.books, Step(w, e).books)
  {
    assert OrdersOk(w.books);
    hide BillOf, BillingOk, QueueOk;
    match e
    case Finish(j) => FinishMovesForward(w, j);
    case Webhook(d) => WebhookMovesForward(w, d);
    case Admin(o, action) => AdminMovesForward(w.books, o, action);
    case Place(_, _) =>
    case DeliverOrder(_, _, _) =>
    case Start(_, _) =>
    case Call(_) =>
    case Drop(_) =>
    case Write(_, _, _) =>
  }

  lemma FinishMovesForward(w: World, j: Id)
    requires BillingOk(w) && QueueOk(w)
    ensures Forward(w.books, FinishJob(w, j).books)
  {
    if j in w.jobs && w.jobs[j].invoice.Some? {
      QueuedIsNotPaidBefore(w, j);
      CommitMovesForwardIff(w, j);
      hide Billed, StripeOk, PaymentsOk, RowsOk, OrdersOk;
    }
  }

  /** The order of a worker is paid only through the payment that worker's invoice already has. */
  lemma QueuedIsNotPaidBefore(w: World, j: Id)
    requires BillingOk(w) && QueueOk(w) && j in w.jobs && w.jobs[j].invoice.Some?
    ensures w.books.orders[w.jobs[j].order].status != Paid || w.jobs[j].invoice.value in w.books.payments
  {
    var o := w.jobs[j].order;
    assert Queued(w.books, o);
    if w.books.orders[o].status == Paid {
      var n :| n in w.books.payments && w.books.payments[n].order == o;
      assert n == w.jobs[j].invoice.value;
    }
  }

  lemma {:induction false} EveryRunQueues(w: World, es: seq<Event>)
    requires Initial(w)
    ensures QueueOk(Run(w, es))
    decreases |es|
  {
    if es != [] {
      EveryRunQueues(w, es[..|es| - 1]);
      EveryRunBillsOnce(w, es[..|es| - 1]);
      StepKeepsQueueOk(Run(w, es[..|es| - 1]), es[|es| - 1]);
    }
  }

  /** Between any two moments of any run, order statuses only move forward. */
  lemma {:induction false} EveryRunMovesForward(w: World, es: seq<Event>, k: nat)
    requires Initial(w) && k <= |es|
    ensures Forward(Run(w, es[..k]).books, Run(w, es).books)
    decreases |es|
  {
    if k == |es| {
      assert es[..k] == es;
    } else {
      var front, e := es[..|es| - 1], es[|es| - 1];
      assert front[..k] == es[..k];
      EveryRunMovesForward(w, front, k);
      EveryRunBillsOnce(w, front);
      EveryRunQueues(w, front);
      StepMovesForward(Run(w, front), e);
    }
  }

  /** Stripe hears of an order from a worker, and a worker runs on a message. */
  lemma StepBillsQueued(w: World, e: Event)
    requires QueueOk(w)
    requires forall n :: 0 <= n < |w.stripe.invoices| ==> w.stripe.invoices[n].order in w.queue
    ensures var w' := Step(w, e);
            forall n :: 0 <= n < |w'.stripe.invoices| ==> w'.stripe.invoices[n].order in w'.queue
  {
    hide BillOf, Billed, AdminMove, Receive, PostReview;
  }

  /** Stripe hears only of orders a message was sent for: what an administrator settles by hand is not billed again. */
  lemma {:induction false} OnlyQueuedAreBilled(w: World, es: seq<Event>)
    requires Initial(w)
    ensures forall n :: 0 <= n < |Run(w, es).stripe.invoices| ==>
        Run(w, es).stripe.invoices[n].order in Run(w, es).queue
    decreases |es|
  {
    if es != [] {
      OnlyQueuedAreBilled(w, es[..|es| - 1]);
      EveryRunQueues(w, es[..|es| - 1]);
      StepBillsQueued(Run(w, es[..|es| - 1]), es[|es| - 1]);
    }
    hide Step;
  }
}
