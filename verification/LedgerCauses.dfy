/**
 Read from the rows: for every change the ledger can make, exactly the steps
 that make it; and, over whole runs, who is behind messages, invitations,
 reviews and paid payments.
 */
module LedgerCauses {
  import opened Wrappers
  import opened Ledger
  import opened LedgerSafety
  import ReviewSafety

  // --- Conditions a caller could check --------------------------------------------------

  /** A caterer delivers its own confirmed order. */
  predicate Delivers(w: World, e: Event, o: Id) {
    && e.DeliverOrder? && e.order == o && o in w.books.orders
    && w.books.orders[o].sale.caterer == e.caterer && w.books.orders[o].status == Confirmed
  }

  /** An administrator moves a delivered order to `invoiced`, or an invoiced one to `paid`. */
  predicate Invoices(w: World, e: Event, o: Id) {
    e == Admin(o, AdminInvoice) && o in w.books.orders && w.books.orders[o].status == Delivered
  }

  predicate Settles(w: World, e: Event, o: Id) {
    e == Admin(o, AdminPay) && o in w.books.orders && w.books.orders[o].status == Invoiced
  }

  /** A worker commits the bill of an order, under an invoice that has no payment yet. */
  predicate Bills(w: World, e: Event, o: Id) {
    && e.Finish? && e.job in w.jobs && w.jobs[e.job].order == o && o in w.books.orders
    && w.jobs[e.job].invoice.Some? && w.jobs[e.job].invoice.value !in w.books.payments
  }

  /** A delivery Stripe has not got through before, and that does. */
  predicate GetsThrough(w: World, e: Event) {
    e.Webhook? && e.delivery.id !in w.books.events && !e.delivery.fails
  }

  predicate Pays(w: World, e: Event, n: nat) {
    && GetsThrough(w, e) && e.delivery.event.InvoicePaid? && e.delivery.event.invoice == n && n in w.books.payments
  }

  predicate PaysFor(w: World, e: Event, o: Id) {
    && GetsThrough(w, e) && e.delivery.event.InvoicePaid? && e.delivery.event.invoice in w.books.payments
    && w.books.payments[e.delivery.event.invoice].order == o && o in w.books.orders
  }

  predicate Fails(w: World, e: Event, n: nat) {
    && GetsThrough(w, e) && e.delivery.event == PaymentFailed(n) && n in w.books.payments
    && w.books.payments[n].status != Succeeded && w.books.payments[n].status != Refunded
  }

  /** The requester of a paid order not yet reviewed gives it one to five. */
  predicate Writes(w: World, e: Event) {
    && e.Write? && 1 <= e.rating <= 5 && e.order in w.books.orders
    && w.books.orders[e.order].status == Paid && w.books.orders[e.order].sale.requester == e.viewer
    && forall i :: 0 <= i < |w.books.reviews| ==> w.books.reviews[i].order != e.order
  }

  // --- Orders --------------------------------------------------------------------------------

  lemma OrderIsPlacedIff(w: World, e: Event, o: Id)
    ensures var c := Step(w, e).books;
            && (o in c.orders && o !in w.books.orders <==> e.Place? && e.order == o && o !in w.books.orders)
            && (o in w.books.orders ==> o in c.orders && c.orders[o].sale == w.books.orders[o].sale)
            && (e.Place? && e.order !in w.books.orders ==> c.orders[e.order] == Order(e.sale, Confirmed, 0, None))
  {
    hide BillOf;
  }

  ghost predicate Becomes(w: World, w': World, o: Id, status: OrderStatus)
    requires o in w.books.orders
  {
    o in w'.books.orders && w'.books.orders[o].status == status && w.books.orders[o].status != status
  }

  /** Delivery decides: to `invoicing` when billing is on, to `delivered` when it is not; nothing else leads there. */
  lemma DeliveredIff(w: World, e: Event, o: Id)
    requires o in w.books.orders
    ensures Becomes(w, Step(w, e), o, Delivered) <==> Delivers(w, e, o) && !e.billing
    ensures Becomes(w, Step(w, e), o, Invoicing) <==> Delivers(w, e, o) && e.billing
    ensures !Becomes(w, Step(w, e), o, Confirmed) && !Becomes(w, Step(w, e), o, Disputed)
  {
    StatusOf(w, e, o);
    hide Receive, FinishJob, AdminMove;
  }

  lemma InvoicedIff(w: World, e: Event, o: Id)
    requires o in w.books.orders
    ensures Becomes(w, Step(w, e), o, Invoiced) <==>
              w.books.orders[o].status != Invoiced && (Invoices(w, e, o) || Bills(w, e, o))
  {
    StatusOf(w, e, o);
    hide Receive, FinishJob, AdminMove;
  }

  lemma PaidIff(w: World, e: Event, o: Id)
    requires o in w.books.orders
    ensures Becomes(w, Step(w, e), o, Paid) <==>
              w.books.orders[o].status != Paid && (Settles(w, e, o) || PaysFor(w, e, o))
  {
    StatusOf(w, e, o);
    hide Receive, FinishJob, AdminMove;
  }

  lemma StatusOf(w: World, e: Event, o: Id)
    requires o in w.books.orders
    ensures e.Webhook? ==> && o in Receive(w.books, e.delivery).0.orders
                           && Receive(w.books, e.delivery).0.orders[o].status
                              == if PaysFor(w, e, o) then Paid else w.books.orders[o].status
    ensures e.Finish? ==> && o in FinishJob(w, e.job).books.orders
                          && FinishJob(w, e.job).books.orders[o].status
                             == if Bills(w, e, o) then Invoiced else w.books.orders[o].status
    ensures e.Admin? ==> && o in AdminMove(w.books, e.order, e.action).orders
                         && AdminMove(w.books, e.order, e.action).orders[o].status
                            == if Settles(w, e, o) then Paid else if Invoices(w, e, o) then Invoiced
                               else w.books.orders[o].status
  {
    hide BillOf;
  }

  // --- Messages and workers ------------------------------------------------------------------

  /** A message goes out with a delivery under billing, and only then. */
  lemma MessageIsSentIff(w: World, e: Event, o: Id)
    ensures o in Step(w, e).queue <==> o in w.queue || (Delivers(w, e, o) && e.billing)
  {
    hide BillOf;
  }

  /** A worker starts on a message for an order `invoicing` or `delivered`. */
  lemma WorkerStartsIff(w: World, e: Event, j: Id)
    requires j !in w.jobs
    ensures j in Step(w, e).jobs <==>
              && e.Start? && e.job == j && e.order in w.queue && e.order in w.books.orders
              && (w.books.orders[e.order].status == Invoicing || w.books.orders[e.order].status == Delivered)
  {
    hide BillOf;
  }

  /** Stripe makes an invoice when a worker calls with a key it has not seen: the order's next attempt. */
  lemma StripeHearsIff(w: World, e: Event)
    ensures var w' := Step(w, e);
            && w.stripe.invoices <= w'.stripe.invoices
            && (|w'.stripe.invoices| > |w.stripe.invoices| <==>
                  && e.Call? && e.job in w.jobs && w.jobs[e.job].order in w.books.orders
                  && Key(w.jobs[e.job].order, w.jobs[e.job].attempt + 1) !in w.stripe.keys)
            && (|w'.stripe.invoices| > |w.stripe.invoices| ==>
                  w'.stripe.invoices[|w.stripe.invoices|].order == w.jobs[e.job].order)
  {
    hide BillOf;
  }

  // --- Payments ------------------------------------------------------------------------------

  lemma PaymentMovesIff(w: World, e: Event, n: nat)
    requires n in w.books.payments
    ensures var p, c := w.books.payments[n], Step(w, e).books;
            && n in c.payments
            && c.payments[n]
               == if Pays(w, e, n) then p.(status := Succeeded, charge := e.delivery.event.charge)
                  else if Fails(w, e, n) then p.(status := Failed)
                  else p
  {
    hide BillOf, ApplyEvent, FinishJob, AdminMove;
    match e
    case Webhook(d) => EventMovesPayment(w.books, d.event, n);
    case Finish(j) => WorkerKeepsPayment(w, j, n);
    case Admin(o, action) => AdminKeepsPayments(w.books, o, action);
    case _ =>
  }

  lemma EventMovesPayment(b: Books, event: StripeEvent, n: nat)
    requires n in b.payments
    ensures var p, c := b.payments[n], ApplyEvent(b, event);
            && n in c.payments
            && c.payments[n]
               == if event.InvoicePaid? && event.invoice == n then p.(status := Succeeded, charge := event.charge)
                  else if event == PaymentFailed(n) && p.status != Succeeded && p.status != Refunded
                  then p.(status := Failed)
                  else p
  {
  }

  lemma WorkerKeepsPayment(w: World, j: Id, n: nat)
    requires n in w.books.payments
    ensures n in FinishJob(w, j).books.payments && FinishJob(w, j).books.payments[n] == w.books.payments[n]
  {
    hide BillOf;
  }

  lemma AdminKeepsPayments(b: Books, o: Id, action: AdminAction)
    ensures AdminMove(b, o, action).payments == b.payments
  {
  }

  /** A payment is recorded by the worker that bills its order, as pending, with the invoice its order keeps. */
  lemma PaymentIsRecordedIff(w: World, e: Event, n: nat)
    requires n !in w.books.payments
    ensures var c := Step(w, e).books;
            && (n in c.payments <==>
                  exists o :: Bills(w, e, o) && w.jobs[e.job].invoice == Some(n))
            && (n in c.payments ==>
                  var o := w.jobs[e.job].order;
                  && c.payments[n].order == o && c.payments[n].status == Pending && c.payments[n].charge == None
                  && c.payments[n].caterer == w.books.orders[o].sale.caterer
                  && c.orders[o].invoice == Some(n) && c.orders[o].attempt == w.jobs[e.job].attempt + 1)
  {
    hide BillOf;
    if e.Finish? && e.job in w.jobs {
      assert Bills(w, e, w.jobs[e.job].order) <==> exists o :: Bills(w, e, o);
    }
  }

  // --- Accounts ------------------------------------------------------------------------------

  /** The two flags of a connected account are those Stripe sent last. */
  lemma AccountMovesIff(w: World, e: Event, account: Id)
    requires account in w.books.accounts
    ensures var c := Step(w, e).books;
            && account in c.accounts
            && c.accounts[account]
               == if GetsThrough(w, e) && e.delivery.event.AccountUpdated? && e.delivery.event.account == account
                  then Flags(e.delivery.event.flags.charges, e.delivery.event.flags.payouts)
                  else w.books.accounts[account]
  {
    hide BillOf;
  }

  // --- Reviews -------------------------------------------------------------------------------

  /** A review is stored as its author wrote it, about the order's caterer; nothing else adds or loses one. */
  lemma ReviewIsAddedIff(w: World, e: Event)
    ensures Step(w, e).books.reviews
         == w.books.reviews
            + if Writes(w, e)
              then [Review(e.order, w.books.orders[e.order].sale.caterer, e.viewer, e.rating)]
              else []
  {
    hide BillOf;
    if e.Write? {
      ReviewedAt(w.books, e.order);
    }
  }

  lemma ReviewedAt(b: Books, o: Id)
    ensures Reviewed(b, o) <==> exists i :: 0 <= i < |b.reviews| && b.reviews[i].order == o
  {
    if Reviewed(b, o) {
      var r :| r in b.reviews && r.order == o;
      var i :| 0 <= i < |b.reviews| && b.reviews[i] == r;
    }
  }

  /** The requester is invited when the order gets paid, unless invited or reviewed before. */
  lemma InviteIsAddedIff(w: World, e: Event, o: Id)
    requires o in w.books.orders
    ensures var invite := Invite(o, w.books.orders[o].sale.requester);
            invite in Step(w, e).books.invites <==>
              || invite in w.books.invites
              || ((Settles(w, e, o) || PaysFor(w, e, o))
                  && forall i :: 0 <= i < |w.books.reviews| ==> w.books.reviews[i].order != o)
  {
    hide BillOf, ApplyEvent, AdminMove, InviteToReview;
    ReviewedAt(w.books, o);
    if e.Admin? {
      MoveInvites(w.books, e.order, e.action, o);
    } else if e.Webhook? {
      EventInvites(w.books, e.delivery.event, o);
    }
  }

  lemma MoveInvites(b: Books, moved: Id, action: AdminAction, o: Id)
    requires o in b.orders
    ensures var invite := Invite(o, b.orders[o].sale.requester);
            invite in AdminMove(b, moved, action).invites <==>
              || invite in b.invites
              || (moved == o && action.AdminPay? && b.orders[o].status == Invoiced && !Reviewed(b, o))
  {
    if moved in b.orders && b.orders[moved].status == Expected(action) {
      InvitesAt(b.(orders := b.orders[moved := b.orders[moved].(status := TargetOf(action))]), moved, b, o);
    }
    hide InviteToReview, Reviewed;
  }

  lemma EventInvites(b: Books, event: StripeEvent, o: Id)
    requires o in b.orders
    ensures var invite := Invite(o, b.orders[o].sale.requester);
            invite in ApplyEvent(b, event).invites <==>
              || invite in b.invites
              || (event.InvoicePaid? && event.invoice in b.payments && b.payments[event.invoice].order == o
                  && !Reviewed(b, o))
  {
    if event.InvoicePaid? && event.invoice in b.payments && b.payments[event.invoice].order in b.orders {
      InvitesAt(MarkedPaid(b, event.invoice, event.charge), b.payments[event.invoice].order, b, o);
    }
    hide InviteToReview, Reviewed;
  }

  /** Whom `notify_review_invite` for the order `moved` invites for the order o. */
  lemma InvitesAt(c: Books, moved: Id, b: Books, o: Id)
    requires moved in c.orders && o in b.orders && c.reviews == b.reviews && c.invites == b.invites
    requires o in c.orders && c.orders[o].sale == b.orders[o].sale
    ensures var invite := Invite(o, b.orders[o].sale.requester);
            invite in InviteToReview(c, moved).invites <==>
              invite in b.invites || (moved == o && c.orders[o].status == Paid && !Reviewed(b, o))
  {
    assert Reviewed(c, o) <==> Reviewed(b, o);
  }

  // --- Over whole runs -------------------------------------------------------------------------

  /** An order waiting to be billed has its message: none is left `invoicing` that no worker will hear of. */
  ghost predicate InvoicingIsQueued(w: World) {
    forall o :: o in w.books.orders && w.books.orders[o].status == Invoicing ==> o in w.queue
  }

  lemma {:induction false} EveryInvoicingIsQueued(w: World, es: seq<Event>)
    requires Initial(w)
    ensures InvoicingIsQueued(Run(w, es))
    decreases |es|
  {
    if es != [] {
      var v, e := Run(w, es[..|es| - 1]), es[|es| - 1];
      EveryInvoicingIsQueued(w, es[..|es| - 1]);
      forall o | o in Step(v, e).books.orders && Step(v, e).books.orders[o].status == Invoicing
        ensures o in Step(v, e).queue
      {
        OrderIsPlacedIff(v, e, o);
        MessageIsSentIff(v, e, o);
        if o in v.books.orders {
          DeliveredIff(v, e, o);
        }
      }
    }
    hide Step;
  }

  /** Whoever asked for the quotes of a paid order has been invited to review it. */
  ghost predicate PaidIsInvited(b: Books) {
    forall o :: o in b.orders && b.orders[o].status == Paid ==> Invite(o, b.orders[o].sale.requester) in b.invites
  }

  lemma StepKeepsPaidInvited(w: World, e: Event)
    requires PaidIsInvited(w.books) && ReviewSafety.ReviewedArePaid(w.books)
    ensures PaidIsInvited(Step(w, e).books)
  {
    var c := Step(w, e).books;
    forall o | o in c.orders && c.orders[o].status == Paid ensures Invite(o, c.orders[o].sale.requester) in c.invites {
      OrderIsPlacedIff(w, e, o);
      if o in w.books.orders {
        PaidIff(w, e, o);
        InviteIsAddedIff(w, e, o);
      }
    }
    hide Step;
  }

  lemma {:induction false} EveryPaidOrderIsInvited(w: World, es: seq<Event>)
    requires Initial(w)
    ensures PaidIsInvited(Run(w, es).books)
    decreases |es|
  {
    if es != [] {
      EveryPaidOrderIsInvited(w, es[..|es| - 1]);
      ReviewSafety.EveryRunReviewsPaidOrders(w, es[..|es| - 1]);
      StepKeepsPaidInvited(Run(w, es[..|es| - 1]), es[|es| - 1]);
    }
    hide Step;
  }

  /** Every review stands as its author wrote it. */
  lemma {:induction false} EveryReviewWasWritten(w: World, es: seq<Event>, i: nat) returns (k: nat)
    requires Initial(w) && i < |Run(w, es).books.reviews|
    ensures k < |es| && Writes(Run(w, es[..k]), es[k])
    ensures var r := Run(w, es).books.reviews[i];
            r.order == es[k].order && r.author == es[k].viewer && r.rating == es[k].rating
    decreases |es|
  {
    var front, e := es[..|es| - 1], es[|es| - 1];
    ReviewIsAddedIff(Run(w, front), e);
    if i < |Run(w, front).books.reviews| {
      k := EveryReviewWasWritten(w, front, i);
      assert front[..k] == es[..k];
    } else {
      k := |front|;
    }
    hide Step, Writes;
  }

  /** A payment that succeeded was paid by a delivery that got through, and keeps the charge of one. */
  lemma {:induction false} EverySuccessWasPaid(w: World, es: seq<Event>, n: nat) returns (k: nat)
    requires Initial(w) && n in Run(w, es).books.payments && Run(w, es).books.payments[n].status == Succeeded
    ensures k < |es| && Pays(Run(w, es[..k]), es[k], n)
    ensures Run(w, es).books.payments[n].charge == es[k].delivery.event.charge
    decreases |es|
  {
    var front, e := es[..|es| - 1], es[|es| - 1];
    var v := Run(w, front);
    if n in v.books.payments {
      PaymentMovesIff(v, e, n);
    } else {
      PaymentIsRecordedIff(v, e, n);
    }
    hide Step;
    if Pays(v, e, n) {
      k := |front|;
    } else {
      k := EverySuccessWasPaid(w, front, n);
      assert front[..k] == es[..k];
    }
  }
}
