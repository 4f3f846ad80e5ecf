/** Terminal payment states: `_TERMINAL_PAID_STATES` of blueprints/api.py, over whole runs. */
module PaymentSafety {
  import opened Ledger
  import opened LedgerSafety

  ghost predicate Has(b: Books, n: nat, s: PaymentStatus) {
    n in b.payments && b.payments[n].status == s
  }

  /**
   The failed branch looks at the terminal states, the paid branch does not: an
   event moves a payment out of a terminal state if and only if it is a paid
   event for a refunded payment.
   */
  lemma TerminalIsKeptIff(b: Books, e: StripeEvent, n: nat)
    requires n in b.payments && TerminalPaid(b.payments[n].status)
    ensures Has(ApplyEvent(b, e), n, b.payments[n].status)
       <==> !(e.InvoicePaid? && e.invoice == n && b.payments[n].status == Refunded)
  {
  }

  /** Nothing refunds a payment. */
  ghost predicate NoneRefunded(b: Books) {
    forall n :: n in b.payments ==> b.payments[n].status != Refunded
  }

  lemma StepRefundsNothing(w: World, e: Event)
    requires NoneRefunded(w.books)
    ensures NoneRefunded(Step(w, e).books)
  {
    hide Receive, FinishJob, AdminMove;
    match e
    case Webhook(d) => WebhookRefundsNothing(w.books, d);
    case Finish(j) => BillingRefundsNothing(w, j);
    case Admin(o, action) => AdminRefundsNothing(w.books, o, action);
    case _ =>
  }

  lemma WebhookRefundsNothing(b: Books, d: Delivery)
    requires NoneRefunded(b)
    ensures NoneRefunded(Receive(b, d).0)
  {
  }

  lemma BillingRefundsNothing(w: World, j: Id)
    requires NoneRefunded(w.books)
    ensures NoneRefunded(FinishJob(w, j).books)
  {
    hide BillOf;
  }

  lemma AdminRefundsNothing(b: Books, o: Id, action: AdminAction)
    requires NoneRefunded(b)
    ensures NoneRefunded(AdminMove(b, o, action))
  {
  }

  lemma {:induction false} EveryRunRefundsNothing(w: World, es: seq<Event>)
    requires Initial(w)
    ensures NoneRefunded(Run(w, es).books)
    decreases |es|
  {
    if es != [] {
      EveryRunRefundsNothing(w, es[..|es| - 1]);
      StepRefundsNothing(Run(w, es[..|es| - 1]), es[|es| - 1]);
    }
  }

  /** No step of the system takes a payment out of `succeeded`. */
  lemma StepKeepsSucceeded(w: World, e: Event, n: nat)
    requires Has(w.books, n, Succeeded)
    ensures Has(Step(w, e).books, n, Succeeded)
  {
    hide BillOf;
  }

  /** Terminal states are never downgraded: between any two moments of any run a terminal payment keeps its status. */
  lemma {:induction false} EveryRunKeepsTerminal(w: World, es: seq<Event>, k: nat, n: nat)
    requires Initial(w) && k <= |es|
    requires n in Run(w, es[..k]).books.payments && TerminalPaid(Run(w, es[..k]).books.payments[n].status)
    ensures Has(Run(w, es).books, n, Run(w, es[..k]).books.payments[n].status)
    decreases |es|
  {
    EveryRunRefundsNothing(w, es[..k]);
    if k == |es| {
      assert es[..k] == es;
    } else {
      var front := es[..|es| - 1];
      assert front[..k] == es[..k];
      EveryRunKeepsTerminal(w, front, k, n);
      StepKeepsSucceeded(Run(w, front), es[|es| - 1], n);
    }
  }

  /** The order of a payment that succeeded is paid. */
  ghost predicate SettledArePaid(b: Books) {
    forall n :: Has(b, n, Succeeded) ==>
      b.payments[n].order in b.orders && b.orders[b.payments[n].order].status == Paid
  }

  /** Every payment that succeeds, succeeds with its order. */
  lemma NewlySucceededIsPaid(w: World, e: Event, n: nat)
    requires PaymentsOk(w) && !Has(w.books, n, Succeeded) && Has(Step(w, e).books, n, Succeeded)
    ensures var c := Step(w, e).books;
            c.payments[n].order in c.orders && c.orders[c.payments[n].order].status == Paid
  {
    hide BillOf;
    assert e.Webhook? && e.delivery.event.InvoicePaid? && e.delivery.event.invoice == n;
  }

  lemma EventKeepsOrderOf(b: Books, e: StripeEvent, n: nat)
    requires n in b.payments
    ensures n in ApplyEvent(b, e).payments && ApplyEvent(b, e).payments[n].order == b.payments[n].order
  {
  }

  lemma PaymentKeepsOrder(w: World, e: Event, n: nat)
    requires n in w.books.payments
    ensures n in Step(w, e).books.payments && Step(w, e).books.payments[n].order == w.books.payments[n].order
  {
    hide BillOf;
    if e.Webhook? {
      EventKeepsOrderOf(w.books, e.delivery.event, n);
    }
  }

  /** A paid order stays paid, so what was settled stays settled. */
  lemma SettledStays(w: World, e: Event, n: nat)
    requires SettledArePaid(w.books) && Has(w.books, n, Succeeded)
    requires Forward(w.books, Step(w, e).books) && OrdersOk(Step(w, e).books)
    ensures var c := Step(w, e).books;
            n in c.payments && c.payments[n].order in c.orders && c.orders[c.payments[n].order].status == Paid
  {
    PaymentKeepsOrder(w, e, n);
    hide Step;
    PaidStaysPaid(w.books, Step(w, e).books, w.books.payments[n].order);
    hide Forward, OrdersOk;
  }

  lemma PaidStaysPaid(b: Books, c: Books, o: Id)
    requires Forward(b, c) && OrdersOk(c) && o in b.orders && b.orders[o].status == Paid
    ensures o in c.orders && c.orders[o].status == Paid
  {
    assert Rank(b.orders[o].status) <= Rank(c.orders[o].status);
  }

  lemma StepSettles(w: World, e: Event)
    requires BillingOk(w) && QueueOk(w) && SettledArePaid(w.books)
    ensures SettledArePaid(Step(w, e).books)
  {
    StepMovesForward(w, e);
    StepKeepsBillingOk(w, e);
    hide Step;
    forall n | Has(Step(w, e).books, n, Succeeded)
      ensures var c := Step(w, e).books;
              c.payments[n].order in c.orders && c.orders[c.payments[n].order].status == Paid
    {
      if Has(w.books, n, Succeeded) {
        SettledStays(w, e, n);
      } else {
        NewlySucceededIsPaid(w, e, n);
      }
    }
  }

  /** In every reachable state a succeeded payment goes with a paid order. */
  lemma {:induction false} EveryRunSettles(w: World, es: seq<Event>)
    requires Initial(w)
    ensures SettledArePaid(Run(w, es).books)
    decreases |es|
  {
    if es != [] {
      EveryRunSettles(w, es[..|es| - 1]);
      EveryRunBillsOnce(w, es[..|es| - 1]);
      EveryRunQueues(w, es[..|es| - 1]);
      StepSettles(Run(w, es[..|es| - 1]), es[|es| - 1]);
    }
  }
}
