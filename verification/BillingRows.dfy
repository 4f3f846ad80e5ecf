/** What the billing rows say: every invoice and commission invoice states the bill of its order's sale. */
module BillingRows {
  import opened Wrappers
  import opened Ledger
  import opened LedgerSafety
  import References
  import Money
  import QuoteTotals
  import QuoteLaws

  ghost predicate StatesSale(w: World, row: Invoice) {
    && row.order in w.books.orders
    && var sale := w.books.orders[row.order].sale;
    && row.caterer == sale.caterer && row.reference == References.InvoiceReference(sale.reference)
    && row.ht == BillOf(sale).ht && row.ttc == BillOf(sale).ttc
  }

  ghost predicate StatesFee(w: World, row: Commission) {
    && row.order in w.books.orders
    && var sale := w.books.orders[row.order].sale;
    && row.ht == BillOf(sale).feeHt && row.ttc == BillOf(sale).feeTtc
  }

  ghost predicate RowsStated(w: World) {
    && (forall i :: 0 <= i < |w.books.invoices| ==> StatesSale(w, w.books.invoices[i]))
    && (forall i :: 0 <= i < |w.books.commissions| ==> StatesFee(w, w.books.commissions[i]))
  }

  /** Rows stay, and sales do not change under them. */
  lemma SameBillsKeepsRows(w: World, c: Books)
    requires RowsStated(w) && SameBills(w.books, c)
    ensures RowsStated(w.(books := c))
  {
    hide BillOf;
    forall i | 0 <= i < |c.invoices| ensures StatesSale(w.(books := c), c.invoices[i]) {
      assert StatesSale(w, w.books.invoices[i]);
    }
    forall i | 0 <= i < |c.commissions| ensures StatesFee(w.(books := c), c.commissions[i]) {
      assert StatesFee(w, w.books.commissions[i]);
    }
  }

  lemma BilledKeepsRows(w: World, o: Id, invoice: nat)
    requires RowsStated(w) && o in w.books.orders
    ensures RowsStated(w.(books := Billed(w.books, o, 1, invoice, BillOf(w.books.orders[o].sale))))
  {
    hide BillOf;
    var sale := w.books.orders[o].sale;
    var c := Billed(w.books, o, 1, invoice, BillOf(sale));
    var w' := w.(books := c);
    forall i | 0 <= i < |c.invoices| ensures StatesSale(w', c.invoices[i]) {
      assert i < |w.books.invoices| ==> StatesSale(w, w.books.invoices[i]);
    }
    forall i | 0 <= i < |c.commissions| ensures StatesFee(w', c.commissions[i]) {
      assert i < |w.books.commissions| ==> StatesFee(w, w.books.commissions[i]);
    }
  }

  lemma PlaceKeepsRows(w: World, o: Id, sale: Sale)
    requires RowsStated(w)
    ensures RowsStated(Step(w, Place(o, sale)))
  {
    hide BillOf;
    var w' := Step(w, Place(o, sale));
    forall i | 0 <= i < |w'.books.invoices| ensures StatesSale(w', w'.books.invoices[i]) {
      assert StatesSale(w, w.books.invoices[i]);
    }
    forall i | 0 <= i < |w'.books.commissions| ensures StatesFee(w', w'.books.commissions[i]) {
      assert StatesFee(w, w.books.commissions[i]);
    }
  }

  lemma FinishKeepsRows(w: World, j: Id)
    requires BillingOk(w) && RowsStated(w)
    ensures RowsStated(FinishJob(w, j))
  {
    hide BillOf;
    var w' := FinishJob(w, j);
    if w'.books == w.books {
      RowsOfBooks(w, w');
    } else {
      var o, invoice := w.jobs[j].order, w.jobs[j].invoice.value;
      BilledKeepsRows(w, o, invoice);
      RowsOfBooks(w.(books := Billed(w.books, o, 1, invoice, BillOf(w.books.orders[o].sale))), w');
    }
  }

  lemma DeliverKeepsRows(w: World, o: Id, caterer: Id, billing: bool)
    requires RowsStated(w)
    ensures RowsStated(DeliverAndSend(w, o, caterer, billing))
  {
    hide RowsStated;
    var delivered := w.(books := Deliver(w.books, o, caterer, billing));
    SameBillsKeepsRows(w, delivered.books);
    RowsOfBooks(delivered, DeliverAndSend(w, o, caterer, billing));
  }

  lemma WorkerKeepsRows(w: World, e: Event)
    requires BillingOk(w) && RowsStated(w) && (e.Start? || e.Call? || e.Drop? || e.Finish?)
    ensures RowsStated(Step(w, e))
  {
    hide BillOf, BillingOk, RowsStated, FinishJob;
    match e
    case Start(_, _) => RowsOfBooks(w, Step(w, e));
    case Call(_) => RowsOfBooks(w, Step(w, e));
    case Drop(_) => RowsOfBooks(w, Step(w, e));
    case Finish(j) => FinishKeepsRows(w, j);
  }

  lemma StepKeepsRows(w: World, e: Event)
    requires BillingOk(w) && RowsStated(w)
    ensures RowsStated(Step(w, e))
  {
    assert PaymentsOk(w);
    hide RowsStated, BillingOk, BillOf, PaymentsOk, AdminMove, Receive, StartJob, CallStripe, FinishJob;
    match e
    case Place(o, sale) => PlaceKeepsRows(w, o, sale);
    case DeliverOrder(o, caterer, billing) => DeliverKeepsRows(w, o, caterer, billing);
    case Admin(o, action) =>
      AdminKeepsBills(w.books, o, action);
      SameBillsKeepsRows(w, AdminMove(w.books, o, action));
    case Webhook(d) =>
      WebhookKeepsBills(w, d);
      SameBillsKeepsRows(w, Receive(w.books, d).0);
    case Write(o, viewer, rating) => SameBillsKeepsRows(w, PostReview(w.books, o, viewer, rating));
    case _ => WorkerKeepsRows(w, e);
  }

  lemma RowsOfBooks(w: World, w': World)
    requires RowsStated(w) && w'.books == w.books
    ensures RowsStated(w')
  {
    forall i | 0 <= i < |w'.books.invoices| ensures StatesSale(w', w'.books.invoices[i]) {
      assert StatesSale(w, w.books.invoices[i]);
    }
    forall i | 0 <= i < |w'.books.commissions| ensures StatesFee(w', w'.books.commissions[i]) {
      assert StatesFee(w, w.books.commissions[i]);
    }
  }

  lemma {:induction false} EveryRunStatesRows(w: World, es: seq<Event>)
    requires Initial(w)
    ensures RowsStated(Run(w, es))
    decreases |es|
  {
    if es != [] {
      EveryRunStatesRows(w, es[..|es| - 1]);
      EveryRunBillsOnce(w, es[..|es| - 1]);
      StepKeepsRows(Run(w, es[..|es| - 1]), es[|es| - 1]);
    }
  }

  /** In every reachable state an invoice carries the totals and the derived reference of its order's quote. */
  lemma EveryInvoiceStatesItsQuote(w: World, es: seq<Event>, i: nat)
    requires Initial(w) && i < |Run(w, es).books.invoices|
    ensures var b := Run(w, es).books;
            var row := b.invoices[i];
            && row.order in b.orders
            && row.reference == References.InvoiceReference(b.orders[row.order].sale.reference)
            && row.ht == TotalsFor(b.orders[row.order].sale).ht && row.ttc == TotalsFor(b.orders[row.order].sale).ttc
  {
    EveryRunStatesRows(w, es);
    var end := Run(w, es);
    assert StatesSale(end, end.books.invoices[i]);
    BillTotals(end.books.orders[end.books.invoices[i].order].sale);
  }

  lemma BillTotals(sale: Sale)
    ensures BillOf(sale).ht == TotalsFor(sale).ht && BillOf(sale).ttc == TotalsFor(sale).ttc
    ensures BillOf(sale).feeHt == TotalsFor(sale).feeHt
        && BillOf(sale).feeTtc == TotalsFor(sale).feeHt + TotalsFor(sale).feeTva
  {
  }

  /** Both commission invoices of an order state the fee of its quote, at the amount the payment keeps back. */
  lemma EveryCommissionIsTheFee(w: World, es: seq<Event>, i: nat)
    requires Initial(w) && i < |Run(w, es).books.commissions|
    ensures var b := Run(w, es).books;
            var row := b.commissions[i];
            && row.order in b.orders && row.ht == TotalsFor(b.orders[row.order].sale).feeHt
            && (forall n :: n in b.payments && b.payments[n].order == row.order ==> b.payments[n].fee == row.ttc)
  {
    EveryRunStatesRows(w, es);
    EveryRunBillsOnce(w, es);
    var end := Run(w, es);
    var row := end.books.commissions[i];
    assert StatesFee(end, row);
    BillTotals(end.books.orders[row.order].sale);
    PaymentAmounts(end.books.orders[row.order].sale);
    FeeTtcIsTheSum(end.books.orders[row.order].sale);
  }

  lemma FeeTtcIsTheSum(sale: Sale)
    ensures TotalsFor(sale).feeTtc == TotalsFor(sale).feeHt + TotalsFor(sale).feeTva
  {
  }

  /** What a sale comes to on its lines, in cents before rounding: with TVA, without, and the platform's rate of it. */
  function WithTva(sale: Sale): real {
    100.0 * (Money.TotalHt(sale.lines) + Money.TotalTva(sale.lines))
  }

  function WithoutTva(sale: Sale): real {
    100.0 * Money.TotalHt(sale.lines)
  }

  function PlatformShare(sale: Sale): real {
    100.0 * (Money.TotalHt(sale.lines) * sale.rate)
  }

  predicate Rounds(cents: int, exact: real) {
    -0.5 <= cents as real - exact <= 0.5
  }

  /**
   Every payment on the lines of its sale: the caterer gets their total with
   TVA, the platform the sale's rate of their total without, each to the
   rounding; the invoices state those totals, the commission invoices that fee.
   */
  lemma EveryPaymentIsFairlyBilled(w: World, es: seq<Event>, n: nat)
    requires Initial(w) && n in Run(w, es).books.payments
    ensures var b := Run(w, es).books;
            var p := b.payments[n];
            && p.order in b.orders
            && var sale := b.orders[p.order].sale;
            && Rounds(p.toCaterer, WithTva(sale)) && Rounds(p.fee, PlatformShare(sale))
            && p.total == p.toCaterer + p.fee
    ensures var b := Run(w, es).books;
            var p := b.payments[n];
            && (forall i :: 0 <= i < |b.invoices| && b.invoices[i].order == p.order ==>
                  Rounds(b.invoices[i].ht, WithoutTva(b.orders[p.order].sale)) && b.invoices[i].ttc == p.toCaterer)
            && (forall i :: 0 <= i < |b.commissions| && b.commissions[i].order == p.order ==>
                  b.commissions[i].ht == b.commissions[i].ttc == p.fee)
  {
    EveryPaymentBalances(w, es, n);
    var b := Run(w, es).books;
    var p := b.payments[n];
    SaleAmounts(b.orders[p.order].sale);
    hide Run, TotalsFor, WithTva, WithoutTva, PlatformShare, Rounds;
    forall i | 0 <= i < |b.invoices| && b.invoices[i].order == p.order
      ensures Rounds(b.invoices[i].ht, WithoutTva(b.orders[p.order].sale)) && b.invoices[i].ttc == p.toCaterer
    {
      EveryInvoiceStatesItsQuote(w, es, i);
    }
    forall i | 0 <= i < |b.commissions| && b.commissions[i].order == p.order
      ensures b.commissions[i].ht == b.commissions[i].ttc == p.fee
    {
      EveryCommissionIsTheFee(w, es, i);
    }
  }

  lemma SaleAmounts(sale: Sale)
    ensures var t := TotalsFor(sale);
            && Rounds(t.ttc, WithTva(sale)) && Rounds(t.ht, WithoutTva(sale)) && Rounds(t.feeHt, PlatformShare(sale))
            && t.feeTtc == t.feeHt
  {
    QuoteLaws.PrintedAmounts(sale.lines, sale.guests, Some(sale.rate));
    QuoteLaws.FeeExactly(sale.lines, sale.guests, Some(sale.rate));
    QuoteLaws.FeeIsRounded(Money.TotalHt(sale.lines), sale.rate);
    QuoteLaws.FeeCarriesNoVat(sale.lines, sale.guests, Some(sale.rate));
    hide QuoteTotals.TotalsOf, Money.TotalHt, Money.TotalTva, QuoteLaws.Fee;
  }
}
