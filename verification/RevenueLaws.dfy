/**
 When the revenue figures move: with the delivery that takes a payment to
 `succeeded`, by the amounts of that payment, and at no other time.
 */
module RevenueLaws {
  import opened Sums
  import opened Ledger
  import opened LedgerSafety
  import opened LedgerCauses
  import opened Revenue

  /** The delivery takes a payment to `succeeded`. */
  predicate Succeeds(w: World, e: Event, n: nat) {
    n in w.books.payments && Pays(w, e, n) && w.books.payments[n].status != Succeeded
  }

  /** The payment x keeps its amounts and its order's caterer, and unless it is n, whether it succeeded. */
  ghost predicate SamePayment(b: Books, c: Books, n: nat, x: nat) {
    && (x in b.payments ==>
          && x in c.payments
          && c.payments[x] == b.payments[x].(status := c.payments[x].status, charge := c.payments[x].charge)
          && b.payments[x].order in b.orders && b.payments[x].order in c.orders
          && c.orders[b.payments[x].order].sale == b.orders[b.payments[x].order].sale)
    && (x != n ==> (x in PaidInvoices(c) <==> x in PaidInvoices(b)))
  }

  lemma StepKeepsPayment(w: World, e: Event, n: nat, x: nat)
    requires BillingOk(w) && (x != n ==> !Succeeds(w, e, x))
    ensures SamePayment(w.books, Step(w, e).books, n, x)
  {
    hide Step;
    if x in w.books.payments {
      OldPaymentStays(w, e, n, x);
    } else {
      PaymentIsRecordedIff(w, e, x);
    }
  }

  lemma OldPaymentStays(w: World, e: Event, n: nat, x: nat)
    requires BillingOk(w) && x in w.books.payments && (x != n ==> !Succeeds(w, e, x))
    ensures SamePayment(w.books, Step(w, e).books, n, x)
  {
    assert PaymentsOk(w);
    assert w.books.payments[x].order in w.books.orders;
    hide BillingOk, PaymentsOk, Step, PaidInvoices;
    PaymentMovesIff(w, e, x);
    OrderIsPlacedIff(w, e, w.books.payments[x].order);
    PaidRow(w.books, x);
    PaidRow(Step(w, e).books, x);
  }

  lemma PaidRow(b: Books, x: nat)
    ensures x in PaidInvoices(b) <==> x in b.payments && b.payments[x].status == Succeeded
  {
  }

  // --- The sums -------------------------------------------------------------------------------

  /** The rows are those before, with `n` if it is `added`. */
  lemma SumRises(rows: set<nat>, more: set<nat>, n: nat, added: bool, f: nat -> int, g: nat -> int)
    requires n !in rows && more == if added then rows + {n} else rows
    requires forall x :: x in more ==> g(x) == f(x)
    ensures SumOver(more, g) == SumOver(rows, f) + if added then f(n) else 0
  {
    SumOverAgrees(more, g, f);
    if added {
      SumOverTake(more, f, n);
      assert more - {n} == rows;
    }
  }

  ghost predicate SamePayments(b: Books, c: Books, n: nat) {
    forall x :: SamePayment(b, c, n, x)
  }

  lemma PaidRowsRise(b: Books, c: Books, n: nat, added: bool)
    requires SamePayments(b, c, n) && n !in PaidInvoices(b) && (n in PaidInvoices(c) <==> added)
    ensures PaidInvoices(c) == if added then PaidInvoices(b) + {n} else PaidInvoices(b)
  {
    forall x | x != n ensures x in PaidInvoices(c) <==> x in PaidInvoices(b) {
      assert SamePayment(b, c, n, x);
    }
  }

  lemma SameAmounts(b: Books, c: Books, n: nat, x: nat)
    requires SamePayments(b, c, n) && x in b.payments
    ensures Totals(c)(x) == Totals(b)(x) && Fees(c)(x) == Fees(b)(x) && Shares(c)(x) == Shares(b)(x)
  {
    assert SamePayment(b, c, n, x);
  }

  /** The platform's two figures, when payment n succeeds or nothing does. */
  lemma FiguresRise(b: Books, c: Books, n: nat, added: bool)
    requires SamePayments(b, c, n) && n in b.payments && n !in PaidInvoices(b) && (n in PaidInvoices(c) <==> added)
    ensures var p := b.payments[n];
            && TotalRevenue(c) == TotalRevenue(b) + (if added then p.total else 0)
            && TotalCommission(c) == TotalCommission(b) + (if added then p.fee else 0)
  {
    PaidRowsRise(b, c, n, added);
    forall x | x in PaidInvoices(c) ensures Totals(c)(x) == Totals(b)(x) && Fees(c)(x) == Fees(b)(x) {
      SameAmounts(b, c, n, x);
    }
    SumRises(PaidInvoices(b), PaidInvoices(c), n, added, Totals(b), Totals(c));
    SumRises(PaidInvoices(b), PaidInvoices(c), n, added, Fees(b), Fees(c));
    hide SamePayments, PaidInvoices;
  }

  lemma PaidToRises(b: Books, c: Books, n: nat, added: bool, caterer: Id)
    requires SamePayments(b, c, n) && n in b.payments && n !in PaidInvoices(b) && (n in PaidInvoices(c) <==> added)
    ensures b.payments[n].order in b.orders
    ensures PaidTo(c, caterer)
         == if added && b.orders[b.payments[n].order].sale.caterer == caterer then PaidTo(b, caterer) + {n}
            else PaidTo(b, caterer)
  {
    assert SamePayment(b, c, n, n);
    forall x | x in b.payments
      ensures x in c.payments && c.payments[x].order == b.payments[x].order && b.payments[x].order in b.orders
              && b.payments[x].order in c.orders
              && c.orders[b.payments[x].order].sale == b.orders[b.payments[x].order].sale
    {
      assert SamePayment(b, c, n, x);
    }
    PaidRowsRise(b, c, n, added);
    assert forall x :: x in PaidInvoices(c) ==> x in b.payments;
    hide SamePayments;
  }

  lemma DashboardRises(b: Books, c: Books, n: nat, added: bool, caterer: Id)
    requires SamePayments(b, c, n) && n in b.payments && n !in PaidInvoices(b) && (n in PaidInvoices(c) <==> added)
    ensures b.payments[n].order in b.orders
    ensures CatererRevenue(c, caterer)
         == CatererRevenue(b, caterer)
            + if added && b.orders[b.payments[n].order].sale.caterer == caterer then b.payments[n].toCaterer else 0
  {
    PaidToRises(b, c, n, added, caterer);
    forall x | x in PaidTo(b, caterer) + {n} ensures Shares(c)(x) == Shares(b)(x) {
      SameAmounts(b, c, n, x);
    }
    SumRises(PaidTo(b, caterer), PaidTo(c, caterer), n,
             added && b.orders[b.payments[n].order].sale.caterer == caterer, Shares(b), Shares(c));
    hide SamePayments;
  }

  // --- One step -------------------------------------------------------------------------------

  /** A payment that succeeds raises the platform's figures by its total and its fee, and its caterer's by the rest. */
  lemma SuccessRaisesRevenue(w: World, e: Event, n: nat, caterer: Id)
    requires BillingOk(w) && Succeeds(w, e, n)
    ensures var b, c, p := w.books, Step(w, e).books, w.books.payments[n];
            && p.order in b.orders
            && TotalRevenue(c) == TotalRevenue(b) + p.total
            && TotalCommission(c) == TotalCommission(b) + p.fee
            && CatererRevenue(c, caterer)
               == CatererRevenue(b, caterer) + if b.orders[p.order].sale.caterer == caterer then p.toCaterer else 0
  {
    PaymentMovesIff(w, e, n);
    var b, c := w.books, Step(w, e).books;
    assert n in PaidInvoices(c) && n !in PaidInvoices(b);
    hide Step, SamePayment, PaidInvoices;
    forall x ensures SamePayment(b, c, n, x) {
      StepKeepsPayment(w, e, n, x);
    }
    FiguresRise(b, c, n, true);
    DashboardRises(b, c, n, true, caterer);
  }

  /** A step in which no payment succeeds moves no figure. */
  lemma OtherwiseRevenueStays(w: World, e: Event, caterer: Id)
    requires BillingOk(w) && forall n :: !Succeeds(w, e, n)
    ensures var b, c := w.books, Step(w, e).books;
            && TotalRevenue(c) == TotalRevenue(b) && TotalCommission(c) == TotalCommission(b)
            && CatererRevenue(c, caterer) == CatererRevenue(b, caterer)
  {
    var b, c := w.books, Step(w, e).books;
    hide Step;
    forall n, x ensures SamePayment(b, c, n, x) {
      StepKeepsPayment(w, e, n, x);
    }
    NothingRises(b, c, caterer);
  }

  lemma NothingRises(b: Books, c: Books, caterer: Id)
    requires forall n, x :: SamePayment(b, c, n, x)
    ensures TotalRevenue(c) == TotalRevenue(b) && TotalCommission(c) == TotalCommission(b)
    ensures CatererRevenue(c, caterer) == CatererRevenue(b, caterer)
  {
    forall x: nat ensures x in PaidInvoices(c) <==> x in PaidInvoices(b) {
      assert SamePayment(b, c, x + 1, x);
    }
    assert PaidInvoices(c) == PaidInvoices(b);
    forall x | x in PaidInvoices(b)
      ensures Totals(c)(x) == Totals(b)(x) && Fees(c)(x) == Fees(b)(x) && Shares(c)(x) == Shares(b)(x)
      ensures x in PaidTo(c, caterer) <==> x in PaidTo(b, caterer)
    {
      assert SamePayment(b, c, x + 1, x);
    }
    assert PaidTo(c, caterer) == PaidTo(b, caterer);
    SumOverAgrees(PaidInvoices(b), Totals(c), Totals(b));
    SumOverAgrees(PaidInvoices(b), Fees(c), Fees(b));
    SumOverAgrees(PaidTo(b, caterer), Shares(c), Shares(b));
    hide PaidInvoices;
  }
}
