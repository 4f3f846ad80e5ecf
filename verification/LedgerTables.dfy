/**
 The billing tables and the handlers that update them in place, proved against
 the transitions of `Ledger`.
 */
module LedgerTables {
  import opened Wrappers
  import opened QuoteTotals
  import opened Ledger
  import References

  /** Where a webhook transaction may raise. */
  datatype Fault = AtFlush | AtPayment | AtOrder | AtInvite | AtCommit

  /** Where a worker run may raise: before Stripe hears of it, after, or at its commit. */
  datatype WorkerFault = BeforeStripe | AfterStripe | AtWorkerCommit

  class LedgerDb {
    var orders: map<Id, Order>
    var payments: map<nat, Payment>
    var invoices: seq<Invoice>
    var commissions: seq<Commission>
    var events: set<Id>
    var accounts: map<Id, Flags>
    var invites: seq<Invite>
    var reviews: seq<Review>

    /** Messages sent to the broker, after a commit. */
    var queue: set<Id>

    /** The other side of the API, not part of any transaction. */
    var stripeKeys: map<Key, nat>
    var stripeInvoices: seq<StripeInvoice>

    ghost function Contents(): Books
      reads this
    {
      Books(orders, payments, invoices, commissions, events, accounts, invites, reviews)
    }

    ghost function Remote(): Stripe
      reads this
    {
      Stripe(stripeKeys, stripeInvoices)
    }

    ghost function State(): World
      reads this
    {
      World(Contents(), Remote(), queue, map[])
    }

    /** order_deliver */
    method OrderDeliver(o: Id, caterer: Id, billing: bool) returns (found: bool)
      modifies this`orders, this`queue
      ensures State() == DeliverAndSend(old(State()), o, caterer, billing)
      ensures found
         <==> o in old(orders) && old(orders)[o].sale.caterer == caterer && old(orders)[o].status == Confirmed
      ensures found ==>
                && o in orders && orders[o] == old(orders)[o].(status := if billing then Invoicing else Delivered)
                && queue == (if billing then old(queue) + {o} else old(queue))
      ensures !found ==> orders == old(orders) && queue == old(queue)
    {
      if o !in orders || orders[o].sale.caterer != caterer || orders[o].status != Confirmed {
        return false;
      }
      orders := orders[o := orders[o].(status := Delivered)];
      if billing {
        orders := orders[o := orders[o].(status := Invoicing)];
        queue := queue + {o};
      }
      found := true;
      assert orders[o].status != old(orders)[o].status;
    }

    /** order_transition */
    method OrderTransition(o: Id, action: AdminAction) returns (moved: bool)
      modifies this`orders, this`invites
      ensures Contents() == AdminMove(old(Contents()), o, action)
      ensures moved <==> o in old(orders) && old(orders)[o].status == Expected(action)
      ensures moved ==>
                o in orders && orders[o] == old(orders)[o].(status := if action.AdminPay? then Paid else Invoiced)
      ensures moved && action.AdminPay? && (forall i :: 0 <= i < |reviews| ==> reviews[i].order != o) ==>
                Invite(o, orders[o].sale.requester) in invites
    {
      if o !in orders || orders[o].status != Expected(action) {
        return false;
      }
      orders := orders[o := orders[o].(status := TargetOf(action))];
      if TargetOf(action) == Paid {
        NotifyReviewInvite(o);
      }
      moved := true;
    }

    /** notify_review_invite */
    method NotifyReviewInvite(o: Id)
      requires o in orders
      modifies this`invites
      ensures Contents() == InviteToReview(old(Contents()), o)
    {
      if orders[o].status != Paid {
        return;
      }
      var reviewed := exists i :: 0 <= i < |reviews| && reviews[i].order == o;
      assert reviewed <==> Reviewed(Contents(), o) by {
        if reviewed {
          var i :| 0 <= i < |reviews| && reviews[i].order == o;
          assert reviews[i] in reviews;
        }
      }
      var invite := Invite(o, orders[o].sale.requester);
      if reviewed || invite in invites {
        return;
      }
      invites := invites + [invite];
    }

    /** submit_review */
    method SubmitReview(o: Id, viewer: Id, rating: int) returns (posted: bool)
      modifies this`reviews
      ensures Contents() == PostReview(old(Contents()), o, viewer, rating)
      ensures posted
         <==> && 1 <= rating <= 5 && o in orders && orders[o].status == Paid && orders[o].sale.requester == viewer
              && forall i :: 0 <= i < |old(reviews)| ==> old(reviews)[i].order != o
      ensures posted ==> reviews == old(reviews) + [Review(o, orders[o].sale.caterer, viewer, rating)]
      ensures !posted ==> reviews == old(reviews)
    {
      if rating < 1 || rating > 5 {
        return false;
      }
      if o !in orders || orders[o].status != Paid || orders[o].sale.requester != viewer {
        return false;
      }
      var reviewed := exists i :: 0 <= i < |reviews| && reviews[i].order == o;
      assert reviewed <==> Reviewed(Contents(), o) by {
        if reviewed {
          var i :| 0 <= i < |reviews| && reviews[i].order == o;
          assert reviews[i] in reviews;
        }
      }
      if reviewed {
        return false;
      }
      reviews := reviews + [Review(o, orders[o].sale.caterer, viewer, rating)];
      posted := true;
    }

    /**
     stripe_webhook: the dedup row first, then the business rows, in place; any
     exception puts back every table the transaction has written.
     */
    method StripeWebhook(id: Id, event: StripeEvent, fault: Option<Fault>) returns (answer: Answer)
      modifies this`orders, this`payments, this`events, this`accounts, this`invites
      ensures (Contents(), answer) == Receive(old(Contents()), Delivery(id, event, fault.Some?))
      ensures answer == Duplicate <==> id in old(events)
      ensures answer == Processed <==> id !in old(events) && fault == None
      ensures answer != Processed ==> Contents() == old(Contents())
      ensures answer == Processed ==> events == old(events) + {id}
    {
      if id in events {
        return Duplicate;
      }
      var savedOrders, savedPayments, savedEvents := orders, payments, events;
      var savedAccounts, savedInvites := accounts, invites;
      events := events + {id};
      var raised := fault == Some(AtFlush);
      if !raised {
        raised := Dispatch(event, fault);
        EventsAreNotBusiness(old(Contents()), event, old(events) + {id});
      }
      hide ApplyEvent;
      if raised || fault.Some? {
        orders, payments, events := savedOrders, savedPayments, savedEvents;
        accounts, invites := savedAccounts, savedInvites;
        return ServerError;
      }
      answer := Processed;
    }

    /** The business part; it stops half-way when it raises. */
    method Dispatch(event: StripeEvent, fault: Option<Fault>) returns (raised: bool)
      modifies this`orders, this`payments, this`accounts, this`invites
      ensures fault == None ==> !raised && Contents() == ApplyEvent(old(Contents()), event)
    {
      match event
      case InvoicePaid(invoice, charge) =>
        if invoice in payments {
          payments := payments[invoice := payments[invoice].(status := Succeeded, charge := charge)];
          if fault == Some(AtPayment) {
            return true;
          }
          var o := payments[invoice].order;
          if o in orders {
            orders := orders[o := orders[o].(status := Paid)];
            if fault == Some(AtOrder) {
              return true;
            }
            NotifyReviewInvite(o);
            if fault == Some(AtInvite) {
              return true;
            }
          }
        }
        raised := false;
      case PaymentFailed(invoice) =>
        if invoice in payments && !TerminalPaid(payments[invoice].status) {
          payments := payments[invoice := payments[invoice].(status := Failed)];
        }
        raised := fault == Some(AtPayment);
      case AccountUpdated(account, flags) =>
        if account in accounts {
          accounts := accounts[account := flags];
        }
        raised := false;
      case OtherEvent =>
        raised := false;
    }

    /** `stripe.Invoice.create` with an idempotency key. */
    method CreateStripeInvoice(key: Key, fee: int) returns (invoice: nat)
      modifies this`stripeKeys, this`stripeInvoices
      ensures (Remote(), invoice) == CreateInvoice(old(Remote()), key, fee)
    {
      if key in stripeKeys {
        return stripeKeys[key];
      }
      invoice := |stripeInvoices|;
      stripeKeys := stripeKeys[key := invoice];
      stripeInvoices := stripeInvoices + [StripeInvoice(key.order, fee)];
    }

    /**
     One run of the worker `send_invoice_for_order`, alone in its transaction; the
     broker keeps the message of a run that raises.
     */
    method SendInvoiceForOrder(o: Id, fault: Option<WorkerFault>) returns (raised: bool)
      modifies this`orders, this`payments, this`invoices, this`commissions, this`stripeKeys, this`stripeInvoices
      ensures State() == WorkerOutcome(old(State()), o, fault)
      ensures raised ==> Contents() == old(Contents())
      ensures !raised && o in old(orders) && Billable(old(orders)[o].status) ==> orders[o].status == Invoiced
    {
      if o !in orders || !Billable(orders[o].status) {
        return false;
      }
      var bill := ComputeBill(orders[o].sale);
      raised := CreateInvoiceForOrder(o, bill, fault);
    }

    /** create_invoice_for_order, with the rollback of the session around it. */
    method CreateInvoiceForOrder(o: Id, bill: Bill, fault: Option<WorkerFault>) returns (raised: bool)
      requires o in orders
      modifies this`orders, this`payments, this`invoices, this`commissions, this`stripeKeys, this`stripeInvoices
      ensures (Contents(), Remote()) == BillingOutcome(old(Contents()), old(Remote()), o, bill, fault)
      ensures raised ==> Contents() == old(Contents())
      ensures !raised ==> orders[o].status == Invoiced
    {
      var savedOrders, savedPayments, savedInvoices, savedCommissions := orders, payments, invoices, commissions;
      raised := BillOnce(o, bill, fault);
      if raised {
        orders, payments, invoices, commissions := savedOrders, savedPayments, savedInvoices, savedCommissions;
      }
    }

    /** The body of `create_invoice_for_order`; it stops half-way when it raises. */
    method BillOnce(o: Id, bill: Bill, fault: Option<WorkerFault>) returns (raised: bool)
      requires o in orders
      modifies this`orders, this`payments, this`invoices, this`commissions, this`stripeKeys, this`stripeInvoices
      ensures var (stripe, invoice) := CreateInvoice(old(Remote()), NextKey(old(orders), o), bill.feeSent);
              && Remote() == (if fault == Some(BeforeStripe) then old(Remote()) else stripe)
              && (raised <==> fault.Some? || invoice in old(payments))
              && (!raised ==> Contents() == Billed(old(Contents()), o, old(orders)[o].attempt + 1, invoice, bill))
    {
      hide Billed, CreateInvoice;
      var attempt := orders[o].attempt + 1;
      orders := orders[o := orders[o].(attempt := attempt)];
      if fault == Some(BeforeStripe) {
        return true;
      }
      var invoice := CreateStripeInvoice(Key(o, attempt), bill.feeSent);
      if fault == Some(AfterStripe) {
        return true;
      }
      BilledOver(old(Contents()), o, attempt, invoice, bill);
      raised := WriteBilling(o, invoice, bill);
      raised := raised || fault == Some(AtWorkerCommit);
      FaultsAreThree(fault);
    }

    /** The writes after Stripe answered; UNIQUE on the payment's Stripe invoice is checked when they are flushed. */
    method WriteBilling(o: Id, invoice: nat, bill: Bill) returns (clash: bool)
      requires o in orders
      modifies this`orders, this`payments, this`invoices, this`commissions
      ensures Contents() == Billed(old(Contents()), o, old(orders)[o].attempt, invoice, bill)
      ensures clash <==> invoice in old(payments)
    {
      orders := orders[o := orders[o].(invoice := Some(invoice), status := Invoiced)];
      clash := invoice in payments;
      AddRows(o, invoice, bill);
    }

    method ComputeBill(sale: Sale) returns (bill: Bill)
      ensures bill == BillOf(sale)
    {
      var t := CalculateQuoteTotals(sale.lines, sale.guests, Some(sale.rate));
      bill := Bill(SplitInvoiceAmounts(Money.Euros(t.ttc), Money.Euros(t.feeHt), Money.Euros(t.feeTva)),
                   ApplicationFee(Money.Euros(t.feeHt), Money.Euros(t.feeTva)),
                   t.ht, t.ttc, t.feeHt, t.feeHt + t.feeTva);
    }

    /** The rows added at the end of `create_invoice_for_order`. */
    method AddRows(o: Id, invoice: nat, bill: Bill)
      requires o in orders
      modifies this`payments, this`invoices, this`commissions
      ensures var sale, a := orders[o].sale, bill.amounts;
              && payments == old(payments)[invoice :=
                                           Payment(o, sale.caterer, Pending, None, a.total, a.fee, a.toCaterer)]
              && invoices == old(invoices) + [Invoice(o, sale.caterer, References.InvoiceReference(sale.reference),
                                                      bill.ht, bill.ttc)]
              && commissions == old(commissions) + [Commission(o, ForClient, bill.feeHt, bill.feeTtc),
                                                    Commission(o, ForCaterer, bill.feeHt, bill.feeTtc)]
    {
      var sale, a := orders[o].sale, bill.amounts;
      payments := payments[invoice := Payment(o, sale.caterer, Pending, None, a.total, a.fee, a.toCaterer)];
      invoices := invoices + [Invoice(o, sale.caterer, References.InvoiceReference(sale.reference), bill.ht, bill.ttc)];
      commissions := commissions + [Commission(o, ForClient, bill.feeHt, bill.feeTtc)];
      commissions := commissions + [Commission(o, ForCaterer, bill.feeHt, bill.feeTtc)];
    }
  }

  lemma FaultsAreThree(fault: Option<WorkerFault>)
    ensures fault.Some? ==> fault.value == BeforeStripe || fault.value == AfterStripe || fault.value == AtWorkerCommit
  {
  }

  /** The attempt written first is the one billing commits. */
  lemma BilledOver(b: Books, o: Id, attempt: nat, invoice: nat, bill: Bill)
    requires o in b.orders
    ensures Billed(b.(orders := b.orders[o := b.orders[o].(attempt := attempt)]), o, attempt, invoice, bill)
         == Billed(b, o, attempt, invoice, bill)
  {
    var over := b.orders[o := b.orders[o].(attempt := attempt)];
    var row := Order(b.orders[o].sale, Invoiced, attempt, Some(invoice));
    assert over[o := row] == b.orders[o := row];
  }

  function NextKey(orders: map<Id, Order>, o: Id): Key
    requires o in orders
  {
    Key(o, orders[o].attempt + 1)
  }

  /** What billing one order leaves: Stripe may know of it, the books have all of its bill or nothing. */
  function BillingOutcome(b: Books, stripe: Stripe, o: Id, bill: Bill, fault: Option<WorkerFault>): (Books, Stripe)
    requires o in b.orders
  {
    if fault == Some(BeforeStripe) then (b, stripe)
    else
      var attempt := b.orders[o].attempt + 1;
      var (stripe', invoice) := CreateInvoice(stripe, Key(o, attempt), bill.feeSent);
      if fault.Some? || invoice in b.payments then (b, stripe')
      else (Billed(b, o, attempt, invoice, bill), stripe')
  }

  function WorkerOutcome(w: World, o: Id, fault: Option<WorkerFault>): World {
    if o !in w.books.orders || !Billable(w.books.orders[o].status) then w
    else
      var (books, stripe) := BillingOutcome(w.books, w.stripe, o, BillOf(w.books.orders[o].sale), fault);
      w.(books := books, stripe := stripe)
  }

  /** The same run as steps of the ledger: read, call Stripe, then commit or be dropped on the way. */
  function WorkerSteps(w: World, o: Id, fault: Option<WorkerFault>): World {
    var started := Step(w, Start(0, o));
    if fault == Some(BeforeStripe) then Step(started, Drop(0))
    else
      var called := Step(started, Call(0));
      if fault.Some? then Step(called, Drop(0)) else Step(called, Finish(0))
  }

  lemma WorkerRunIsSteps(w: World, o: Id, fault: Option<WorkerFault>)
    requires w.jobs == map[] && o in w.queue
    ensures WorkerOutcome(w, o, fault) == WorkerSteps(w, o, fault)
  {
    hide BillOf;
    var started := Step(w, Start(0, o));
    assert started.jobs - {0} == map[];
    var called := Step(started, Call(0));
    assert called.jobs - {0} == map[];
  }
}
