/**
 `stripe_webhook` over whole delivery logs: duplicates, redeliveries, failures
 and any order of arrival.
 */
module Webhooks {
  import opened Wrappers
  import opened Ledger

  // --- Exactly once -------------------------------------------------------------

  function ApplyAll(b: Books, ds: seq<Delivery>): Books {
    if ds == [] then b else ApplyEvent(ApplyAll(b, ds[..|ds| - 1]), ds[|ds| - 1].event)
  }

  function IdsOf(ds: seq<Delivery>): set<Id> {
    set d | d in ds :: d.id
  }

  /** The first successful delivery of each event not seen before. */
  function Firsts(seen: set<Id>, log: seq<Delivery>): seq<Delivery> {
    if log == [] then []
    else
      var front, d := Firsts(seen, log[..|log| - 1]), log[|log| - 1];
      if d.fails || d.id in seen || d.id in IdsOf(front) then front else front + [d]
  }

  /**
   What the log leaves is each distinct event applied once, at its first
   successful delivery; a failed delivery leaves nothing, not even its dedup row.
   */
  lemma {:induction false} ExactlyOnce(b: Books, log: seq<Delivery>)
    ensures var firsts := Firsts(b.events, log);
            ReceiveAll(b, log) == ApplyAll(b, firsts).(events := b.events + IdsOf(firsts))
    decreases |log|
  {
    if log == [] {
      assert b.events + IdsOf([]) == b.events;
    } else {
      var front, d := log[..|log| - 1], log[|log| - 1];
      ExactlyOnce(b, front);
      var firsts := Firsts(b.events, front);
      if Firsts(b.events, log) != firsts {
        var longer := firsts + [d];
        assert longer[..|firsts|] == firsts;
        assert IdsOf(longer) == IdsOf(firsts) + {d.id};
        EventsAreNotBusiness(ApplyAll(b, firsts), d.event, b.events + IdsOf(firsts));
        assert b.events + IdsOf(longer) == b.events + IdsOf(firsts) + {d.id};
      }
    }
  }

  /** `Firsts` is what its name says, stated on positions of the log. */
  ghost predicate FirstSuccess(seen: set<Id>, log: seq<Delivery>, k: int) {
    && 0 <= k < |log| && !log[k].fails && log[k].id !in seen
    && forall j :: 0 <= j < k && log[j].id == log[k].id ==> log[j].fails
  }

  lemma {:induction false} FirstsAreFirstSuccesses(seen: set<Id>, log: seq<Delivery>)
    ensures forall k :: FirstSuccess(seen, log, k) ==> log[k] in Firsts(seen, log)
    ensures forall d :: d in Firsts(seen, log) ==> exists k :: FirstSuccess(seen, log, k) && log[k] == d
    ensures forall i, j :: 0 <= i < j < |Firsts(seen, log)| ==> Firsts(seen, log)[i].id != Firsts(seen, log)[j].id
    decreases |log|
  {
    if log != [] {
      var n := |log| - 1;
      var front, d := log[..n], log[n];
      var before, after := Firsts(seen, front), Firsts(seen, log);
      FirstsAreFirstSuccesses(seen, front);
      forall k | 0 <= k < n ensures FirstSuccess(seen, log, k) <==> FirstSuccess(seen, front, k) {
        assert front[k] == log[k];
      }
      SuccessesAreSeen(seen, front);
      if after == before {
        assert !FirstSuccess(seen, log, n) by {
          if d.id in IdsOf(before) {
            var x :| x in before && x.id == d.id;
            var k :| FirstSuccess(seen, front, k) && front[k] == x;
            assert log[k].id == d.id && !log[k].fails;
          }
        }
      } else {
        assert FirstSuccess(seen, log, n);
      }
      forall x | x in after ensures exists k :: FirstSuccess(seen, log, k) && log[k] == x {
        if x in before {
          var k :| FirstSuccess(seen, front, k) && front[k] == x;
          assert FirstSuccess(seen, log, k) && log[k] == x;
        } else {
          assert FirstSuccess(seen, log, n) && log[n] == x;
        }
      }
    }
  }

  /** `at` gives the positions in the log of the deliveries in `ds`, each the first success of its id, in order. */
  ghost predicate Located(seen: set<Id>, log: seq<Delivery>, ds: seq<Delivery>, at: seq<nat>) {
    && |at| == |ds|
    && (forall i :: 0 <= i < |at| ==> FirstSuccess(seen, log, at[i]) && log[at[i]] == ds[i])
    && (forall i, j :: 0 <= i < j < |at| ==> at[i] < at[j])
  }

  /** And in the order of the log. */
  lemma {:induction false} FirstsKeepOrder(seen: set<Id>, log: seq<Delivery>) returns (at: seq<nat>)
    ensures Located(seen, log, Firsts(seen, log), at)
    decreases |log|
  {
    if log == [] {
      return [];
    }
    var n: nat := |log| - 1;
    at := FirstsKeepOrder(seen, log[..n]);
    StillLocated(seen, log, Firsts(seen, log[..n]), at);
    if Firsts(seen, log) != Firsts(seen, log[..n]) {
      NewFirstIsFirst(seen, log);
      OneMoreLocated(seen, log, Firsts(seen, log[..n]), at);
      at := at + [n];
    }
    hide Located;
  }

  lemma StillLocated(seen: set<Id>, log: seq<Delivery>, ds: seq<Delivery>, at: seq<nat>)
    requires log != [] && Located(seen, log[..|log| - 1], ds, at)
    ensures Located(seen, log, ds, at) && forall i :: 0 <= i < |at| ==> at[i] < |log| - 1
  {
    forall i | 0 <= i < |at|
      ensures at[i] < |log| - 1 && FirstSuccess(seen, log, at[i]) && log[at[i]] == ds[i]
    {
      StillFirst(seen, log, at[i]);
    }
    hide FirstSuccess;
  }

  lemma OneMoreLocated(seen: set<Id>, log: seq<Delivery>, ds: seq<Delivery>, at: seq<nat>)
    requires Located(seen, log, ds, at) && FirstSuccess(seen, log, |log| - 1)
    requires forall i :: 0 <= i < |at| ==> at[i] < |log| - 1
    ensures Located(seen, log, ds + [log[|log| - 1]], at + [|log| - 1])
  {
    hide FirstSuccess;
  }

  lemma StillFirst(seen: set<Id>, log: seq<Delivery>, k: nat)
    requires log != [] && FirstSuccess(seen, log[..|log| - 1], k)
    ensures FirstSuccess(seen, log, k) && log[..|log| - 1][k] == log[k] && k < |log| - 1
  {
    assert forall j :: 0 <= j < |log| - 1 ==> log[..|log| - 1][j] == log[j];
  }

  /** A delivery that lengthens `Firsts` is the first success of its id. */
  lemma NewFirstIsFirst(seen: set<Id>, log: seq<Delivery>)
    requires log != [] && Firsts(seen, log) != Firsts(seen, log[..|log| - 1])
    ensures FirstSuccess(seen, log, |log| - 1)
  {
    SuccessesAreSeen(seen, log[..|log| - 1]);
    assert forall j :: 0 <= j < |log| - 1 ==> log[..|log| - 1][j] == log[j];
  }

  lemma {:induction false} SuccessesAreSeen(seen: set<Id>, log: seq<Delivery>)
    ensures forall k :: 0 <= k < |log| && !log[k].fails ==> log[k].id in seen || log[k].id in IdsOf(Firsts(seen, log))
    decreases |log|
  {
    if log != [] {
      var n := |log| - 1;
      SuccessesAreSeen(seen, log[..n]);
      forall k | 0 <= k < |log| && !log[k].fails
        ensures log[k].id in seen || log[k].id in IdsOf(Firsts(seen, log))
      {
        if k < n {
          assert log[..n][k] == log[k];
        }
      }
    }
  }

  // --- Confluence ---------------------------------------------------------------

  predicate PaysIn(ds: seq<Delivery>, invoice: nat) {
    exists d :: d in ds && d.event.InvoicePaid? && d.event.invoice == invoice
  }

  predicate FailsIn(ds: seq<Delivery>, invoice: nat) {
    exists d :: d in ds && d.event.PaymentFailed? && d.event.invoice == invoice
  }

  /** Where a payment ends: paid wins, whatever arrives later; a failure only counts before that. */
  function FinalPayment(start: PaymentStatus, ds: seq<Delivery>, invoice: nat): PaymentStatus {
    if PaysIn(ds, invoice) then Succeeded
    else if FailsIn(ds, invoice) && !TerminalPaid(start) then Failed
    else start
  }

  predicate PaysOrder(b: Books, ds: seq<Delivery>, o: Id) {
    exists n :: n in b.payments && b.payments[n].order == o && PaysIn(ds, n)
  }

  function FinalOrder(b: Books, ds: seq<Delivery>, o: Id): OrderStatus
    requires o in b.orders
  {
    if PaysOrder(b, ds, o) then Paid else b.orders[o].status
  }

  ghost predicate Ends(b: Books, ds: seq<Delivery>, end: Books) {
    && end.payments.Keys == b.payments.Keys && end.orders.Keys == b.orders.Keys
    && (forall n :: n in b.payments ==>
          end.payments[n].status == FinalPayment(b.payments[n].status, ds, n)
              && end.payments[n].order == b.payments[n].order)
    && (forall o :: o in b.orders ==> end.orders[o].status == FinalOrder(b, ds, o))
  }

  lemma OneMoreDelivery(ds: seq<Delivery>, d: Delivery, n: nat)
    ensures PaysIn(ds + [d], n) <==> PaysIn(ds, n) || (d.event.InvoicePaid? && d.event.invoice == n)
    ensures FailsIn(ds + [d], n) <==> FailsIn(ds, n) || (d.event.PaymentFailed? && d.event.invoice == n)
  {
    var all := ds + [d];
    assert forall x :: x in all <==> x in ds || x == d;
    assert d in all;
  }

  lemma OneMoreForOrder(b: Books, ds: seq<Delivery>, d: Delivery, o: Id)
    ensures PaysOrder(b, ds + [d], o) <==>
              PaysOrder(b, ds, o)
              || (d.event.InvoicePaid? && d.event.invoice in b.payments && b.payments[d.event.invoice].order == o)
  {
    forall n ensures PaysIn(ds + [d], n) <==> PaysIn(ds, n) || (d.event.InvoicePaid? && d.event.invoice == n) {
      OneMoreDelivery(ds, d, n);
    }
    if d.event.InvoicePaid? && d.event.invoice in b.payments && b.payments[d.event.invoice].order == o {
      assert PaysIn(ds + [d], d.event.invoice);
    }
    if PaysOrder(b, ds, o) {
      var n :| n in b.payments && b.payments[n].order == o && PaysIn(ds, n);
      assert PaysIn(ds + [d], n);
    }
    if PaysOrder(b, ds + [d], o) {
      var n :| n in b.payments && b.payments[n].order == o && PaysIn(ds + [d], n);
    }
  }

  /** One event on the payment and order statuses. */
  ghost predicate Moves(b: Books, e: StripeEvent, c: Books) {
    && c.payments.Keys == b.payments.Keys && c.orders.Keys == b.orders.Keys
    && (forall n :: n in b.payments ==>
          && c.payments[n].order == b.payments[n].order
          && c.payments[n].status ==
               if e.InvoicePaid? && e.invoice == n then Succeeded
               else if e.PaymentFailed? && e.invoice == n && !TerminalPaid(b.payments[n].status) then Failed
               else b.payments[n].status)
    && (forall o :: o in b.orders ==>
          c.orders[o].status ==
            if e.InvoicePaid? && e.invoice in b.payments && b.payments[e.invoice].order == o then Paid
            else b.orders[o].status)
  }

  lemma EventMoves(b: Books, e: StripeEvent)
    ensures Moves(b, e, ApplyEvent(b, e))
  {
  }

  lemma EventEnds(b: Books, ds: seq<Delivery>, mid: Books, d: Delivery, end: Books)
    requires Ends(b, ds, mid) && Moves(mid, d.event, end)
    ensures Ends(b, ds + [d], end)
  {
    forall n | n in b.payments
      ensures end.payments[n].status == FinalPayment(b.payments[n].status, ds + [d], n)
    {
      OneMoreDelivery(ds, d, n);
    }
    forall o | o in b.orders ensures end.orders[o].status == FinalOrder(b, ds + [d], o) {
      OneMoreForOrder(b, ds, d, o);
    }
  }

  lemma {:induction false} ApplyAllEnds(b: Books, ds: seq<Delivery>)
    ensures Ends(b, ds, ApplyAll(b, ds))
    decreases |ds|
  {
    if ds != [] {
      var front, d := ds[..|ds| - 1], ds[|ds| - 1];
      ApplyAllEnds(b, front);
      EventMoves(ApplyAll(b, front), d.event);
      EventEnds(b, front, ApplyAll(b, front), d, ApplyAll(b, ds));
      assert front + [d] == ds;
    }
  }

  /** An event id names one event. */
  ghost predicate Consistent(log: seq<Delivery>) {
    forall i, j :: 0 <= i < |log| && 0 <= j < |log| && log[i].id == log[j].id ==> log[i].event == log[j].event
  }

  ghost predicate Delivered(seen: set<Id>, log: seq<Delivery>, id: Id, e: StripeEvent) {
    exists k :: 0 <= k < |log| && !log[k].fails && log[k].id == id && id !in seen && log[k].event == e
  }

  ghost predicate SameDeliveries(seen: set<Id>, log: seq<Delivery>, log': seq<Delivery>) {
    forall id, e :: Delivered(seen, log, id, e) <==> Delivered(seen, log', id, e)
  }

  /** `Firsts` applies exactly the events that got through. */
  lemma FirstsAreDelivered(seen: set<Id>, log: seq<Delivery>)
    requires Consistent(log)
    ensures forall d :: d in Firsts(seen, log) ==> Delivered(seen, log, d.id, d.event)
    ensures forall id, e :: Delivered(seen, log, id, e) ==> Applied(Firsts(seen, log), e)
  {
    var firsts := Firsts(seen, log);
    FirstsAreFirstSuccesses(seen, log);
    SuccessesAreSeen(seen, log);
    hide Firsts;
    forall d | d in firsts ensures Delivered(seen, log, d.id, d.event) {
      var k :| FirstSuccess(seen, log, k) && log[k] == d;
    }
    forall id, e | Delivered(seen, log, id, e) ensures Applied(firsts, e) {
      var k :| 0 <= k < |log| && !log[k].fails && log[k].id == id && id !in seen && log[k].event == e;
      var d :| d in firsts && d.id == id;
      var j :| FirstSuccess(seen, log, j) && log[j] == d;
    }
  }

  predicate Applied(ds: seq<Delivery>, e: StripeEvent) {
    exists d :: d in ds && d.event == e
  }

  lemma FirstsDeliver(seen: set<Id>, log: seq<Delivery>, n: nat)
    requires Consistent(log)
    ensures PaysIn(Firsts(seen, log), n) <==>
              exists id, charge :: Delivered(seen, log, id, InvoicePaid(n, charge))
    ensures FailsIn(Firsts(seen, log), n) <==>
              exists id :: Delivered(seen, log, id, PaymentFailed(n))
  {
    var firsts := Firsts(seen, log);
    FirstsAreDelivered(seen, log);
    hide Firsts, Delivered, Consistent;
    if PaysIn(firsts, n) {
      var d :| d in firsts && d.event.InvoicePaid? && d.event.invoice == n;
      assert Delivered(seen, log, d.id, InvoicePaid(n, d.event.charge));
    }
    if FailsIn(firsts, n) {
      var d :| d in firsts && d.event.PaymentFailed? && d.event.invoice == n;
      assert Delivered(seen, log, d.id, PaymentFailed(n));
    }
  }

  /**
   Confluence: two logs that get the same events through, in any order, with any
   duplicates and failures, leave the same payment and order statuses.
   */
  lemma Confluence(b: Books, log: seq<Delivery>, log': seq<Delivery>)
    requires Consistent(log) && Consistent(log') && SameDeliveries(b.events, log, log')
    ensures var end, end' := ReceiveAll(b, log), ReceiveAll(b, log');
            && end.payments.Keys == end'.payments.Keys && end.orders.Keys == end'.orders.Keys
            && (forall n :: n in end.payments ==> end.payments[n].status == end'.payments[n].status)
            && (forall o :: o in end.orders ==> end.orders[o].status == end'.orders[o].status)
  {
    hide Firsts, ReceiveAll, PaysIn, FailsIn;
    var ds, ds' := Firsts(b.events, log), Firsts(b.events, log');
    ExactlyOnce(b, log);
    ExactlyOnce(b, log');
    ApplyAllEnds(b, ds);
    ApplyAllEnds(b, ds');
    forall n: nat ensures (PaysIn(ds, n) <==> PaysIn(ds', n)) && (FailsIn(ds, n) <==> FailsIn(ds', n)) {
      FirstsDeliver(b.events, log, n);
      FirstsDeliver(b.events, log', n);
    }
  }

  /** Once a paid event got through, the payment is `succeeded` and its order `paid`, whatever else arrives. */
  lemma PaidWins(b: Books, log: seq<Delivery>, k: nat)
    requires Consistent(log) && k < |log| && !log[k].fails && log[k].id !in b.events && log[k].event.InvoicePaid?
    requires log[k].event.invoice in b.payments && b.payments[log[k].event.invoice].order in b.orders
    ensures var end := ReceiveAll(b, log);
            && log[k].event.invoice in end.payments && end.payments[log[k].event.invoice].status == Succeeded
            && var o := b.payments[log[k].event.invoice].order;
            && o in end.orders && end.orders[o].status == Paid
  {
    var n := log[k].event.invoice;
    assert Delivered(b.events, log, log[k].id, InvoicePaid(n, log[k].event.charge));
    FirstsDeliver(b.events, log, n);
    ExactlyOnce(b, log);
    ApplyAllEnds(b, Firsts(b.events, log));
    assert PaysOrder(b, Firsts(b.events, log), b.payments[n].order);
  }

  // --- Last writers ---------------------------------------------------------------

  /** What the deliveries say last of a connected account. */
  function LastFlags(start: Flags, ds: seq<Delivery>, account: Id): Flags {
    if ds == [] then start
    else
      var e := ds[|ds| - 1].event;
      if e.AccountUpdated? && e.account == account then e.flags else LastFlags(start, ds[..|ds| - 1], account)
  }

  /** The charge of the last paid event of an invoice. */
  function LastCharge(start: Option<Id>, ds: seq<Delivery>, invoice: nat): Option<Id> {
    if ds == [] then start
    else
      var e := ds[|ds| - 1].event;
      if e.InvoicePaid? && e.invoice == invoice then e.charge else LastCharge(start, ds[..|ds| - 1], invoice)
  }

  ghost predicate LastWord(b: Books, ds: seq<Delivery>, end: Books) {
    && end.accounts.Keys == b.accounts.Keys && end.payments.Keys == b.payments.Keys
    && (forall a :: a in b.accounts ==> end.accounts[a] == LastFlags(b.accounts[a], ds, a))
    && (forall n :: n in b.payments ==> end.payments[n].charge == LastCharge(b.payments[n].charge, ds, n))
  }

  lemma {:induction false} ApplyAllLastWord(b: Books, ds: seq<Delivery>)
    ensures LastWord(b, ds, ApplyAll(b, ds))
  {
    if ds != [] {
      ApplyAllLastWord(b, ds[..|ds| - 1]);
      EventLastWord(ApplyAll(b, ds[..|ds| - 1]), ds[|ds| - 1].event);
      hide ApplyEvent;
    }
  }

  lemma EventLastWord(b: Books, e: StripeEvent)
    ensures var c := ApplyEvent(b, e);
            && c.accounts.Keys == b.accounts.Keys && c.payments.Keys == b.payments.Keys
            && (forall a :: a in b.accounts ==>
                  c.accounts[a] == if e.AccountUpdated? && e.account == a then e.flags else b.accounts[a])
            && (forall n :: n in b.payments ==>
                  c.payments[n].charge
                  == if e.InvoicePaid? && e.invoice == n then e.charge else b.payments[n].charge)
  {
  }

  /** After any log the flags of an account and the charge of a payment are those of the last event that got through. */
  lemma LastWordStands(b: Books, log: seq<Delivery>)
    ensures LastWord(b, Firsts(b.events, log), ReceiveAll(b, log))
  {
    ExactlyOnce(b, log);
    ApplyAllLastWord(b, Firsts(b.events, log));
    hide ApplyAll, ReceiveAll, Firsts, LastFlags, LastCharge;
  }
}
