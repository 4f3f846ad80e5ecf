/**
 Deliveries about one payment handled at the same time: `stripe_webhook` reads
 the payment without a lock, and commits what that reading led to.

 Each delivery reads, then writes and commits. What it writes is decided on the
 status it read, and a status equal to that one is no change to write. Writers
 of the payment's row wait for each other, so a write and its commit are one
 step. The events are distinct: a second delivery of one waits on the dedup row
 and is answered as a duplicate.
 */
module WebhookRace {
  import opened Ledger
  import opened PaymentSafety

  datatype Stage = NotRead | HasRead(seen: PaymentStatus) | Answered

  datatype Race = Race(books: Books, at: seq<Stage>)

  predicate About(e: StripeEvent, n: nat) {
    (e.InvoicePaid? || e.PaymentFailed?) && e.invoice == n
  }

  /** A paid delivery that found the payment succeeded writes its other columns. */
  function StatusKept(b: Books, e: StripeEvent): Books
    requires e.InvoicePaid?
  {
    var c, n := ApplyEvent(b, e), e.invoice;
    if n !in b.payments || n !in c.payments then c
    else c.(payments := c.payments[n := c.payments[n].(status := b.payments[n].status)])
  }

  /** What a delivery commits when the payment it read had status `seen`. */
  function WriteAs(b: Books, e: StripeEvent, seen: PaymentStatus): Books {
    if e.InvoicePaid? && seen == Succeeded then StatusKept(b, e)
    else if !e.PaymentFailed? then ApplyEvent(b, e)
    else if e.invoice !in b.payments || TerminalPaid(seen) || seen == Failed then b
    else b.(payments := b.payments[e.invoice := b.payments[e.invoice].(status := Failed)])
  }

  /** Alone, a delivery does what it does in the runs of `Ledger`. */
  lemma AloneIsApplied(b: Books, e: StripeEvent, n: nat)
    requires About(e, n) && n in b.payments
    ensures WriteAs(b, e, b.payments[n].status) == ApplyEvent(b, e)
  {
    var c := ApplyEvent(b, e);
    assert n in c.payments && c.payments == c.payments[n := c.payments[n]];
  }

  /** The payment and its order are there; the deliveries are about that payment. */
  ghost predicate Overlap(b: Books, n: nat, es: seq<StripeEvent>) {
    && n in b.payments && b.payments[n].order in b.orders
    && forall k :: 0 <= k < |es| ==> About(es[k], n)
  }

  function StepOf(s: Race, n: nat, es: seq<StripeEvent>, k: nat): Race {
    if k >= |s.at| || k >= |es| || n !in s.books.payments then s
    else match s.at[k]
      case NotRead => s.(at := s.at[k := HasRead(s.books.payments[n].status)])
      case HasRead(seen) => Race(WriteAs(s.books, es[k], seen), s.at[k := Answered])
      case Answered => s
  }

  /** A schedule says which delivery moves next. */
  function After(b: Books, n: nat, es: seq<StripeEvent>, schedule: seq<nat>): Race {
    if schedule == [] then Race(b, seq(|es|, _ => NotRead))
    else StepOf(After(b, n, es, schedule[..|schedule| - 1]), n, es, schedule[|schedule| - 1])
  }

  predicate AllAnswered(s: Race) {
    forall k :: 0 <= k < |s.at| ==> s.at[k] == Answered
  }

  // --- What every schedule keeps --------------------------------------------------

  /** The payment keeps its order, and a paid delivery leaves that order paid for good. */
  ghost predicate Kept(b: Books, n: nat, es: seq<StripeEvent>, s: Race)
    requires n in b.payments
  {
    && |s.at| == |es| && Overlap(s.books, n, es) && s.books.payments[n].order == b.payments[n].order
    && forall k :: 0 <= k < |es| && es[k].InvoicePaid? && s.at[k] == Answered ==>
         s.books.orders[b.payments[n].order].status == Paid
  }

  lemma WriteKeeps(b: Books, n: nat, e: StripeEvent, seen: PaymentStatus)
    requires n in b.payments && b.payments[n].order in b.orders && About(e, n)
    ensures var c := WriteAs(b, e, seen);
            n in c.payments && c.payments[n].order == b.payments[n].order && c.orders.Keys == b.orders.Keys
    ensures WriteAs(b, e, seen).payments[n].status
         == if seen == (if e.InvoicePaid? then Succeeded else Failed) then b.payments[n].status
            else if e.InvoicePaid? then Succeeded
            else if TerminalPaid(seen) then b.payments[n].status
            else Failed
    ensures var o := b.payments[n].order;
            WriteAs(b, e, seen).orders[o].status == if e.InvoicePaid? then Paid else b.orders[o].status
  {
  }

  lemma StepKeeps(b: Books, n: nat, es: seq<StripeEvent>, s: Race, k: nat)
    requires Overlap(b, n, es) && Kept(b, n, es, s)
    ensures Kept(b, n, es, StepOf(s, n, es, k))
  {
    if k < |es| && s.at[k].HasRead? {
      WriteKeeps(s.books, n, es[k], s.at[k].seen);
    }
    hide WriteAs;
  }

  lemma {:induction false} EveryScheduleKeeps(b: Books, n: nat, es: seq<StripeEvent>, schedule: seq<nat>)
    requires Overlap(b, n, es)
    ensures Kept(b, n, es, After(b, n, es, schedule))
  {
    if schedule != [] {
      EveryScheduleKeeps(b, n, es, schedule[..|schedule| - 1]);
      StepKeeps(b, n, es, After(b, n, es, schedule[..|schedule| - 1]), schedule[|schedule| - 1]);
    }
  }

  // --- When paid wins ---------------------------------------------------------------

  predicate NoFailure(es: seq<StripeEvent>) {
    forall k :: 0 <= k < |es| ==> !es[k].PaymentFailed?
  }

  predicate SomePaid(es: seq<StripeEvent>) {
    exists k :: 0 <= k < |es| && es[k].InvoicePaid?
  }

  /** A failure that reads one of these has nothing to write. */
  predicate PastFailing(s: PaymentStatus) {
    TerminalPaid(s) || s == Failed
  }

  /** Past failing, no failure writes, and an answered paid delivery has won. */
  ghost predicate PaidAhead(n: nat, es: seq<StripeEvent>, s: Race) {
    && |s.at| == |es| && n in s.books.payments
    && (NoFailure(es) || PastFailing(s.books.payments[n].status))
    && (forall k :: 0 <= k < |es| && s.at[k].HasRead? && es[k].PaymentFailed? ==> PastFailing(s.at[k].seen))
    && (forall k :: 0 <= k < |es| && s.at[k].HasRead? && s.at[k].seen == Succeeded ==>
          s.books.payments[n].status == Succeeded)
    && (forall k :: 0 <= k < |es| && s.at[k] == Answered && es[k].InvoicePaid? ==>
          s.books.payments[n].status == Succeeded)
  }

  lemma StepKeepsPaidAhead(b: Books, n: nat, es: seq<StripeEvent>, s: Race, k: nat)
    requires Overlap(b, n, es) && Kept(b, n, es, s) && PaidAhead(n, es, s)
    ensures PaidAhead(n, es, StepOf(s, n, es, k))
  {
    if k < |es| && s.at[k].HasRead? {
      WriteKeeps(s.books, n, es[k], s.at[k].seen);
    }
    hide WriteAs;
  }

  lemma {:induction false} EveryScheduleKeepsPaidAhead(b: Books, n: nat, es: seq<StripeEvent>, schedule: seq<nat>)
    requires Overlap(b, n, es) && (NoFailure(es) || PastFailing(b.payments[n].status))
    ensures PaidAhead(n, es, After(b, n, es, schedule))
  {
    if schedule != [] {
      var front := schedule[..|schedule| - 1];
      EveryScheduleKeepsPaidAhead(b, n, es, front);
      EveryScheduleKeeps(b, n, es, front);
      StepKeepsPaidAhead(b, n, es, After(b, n, es, front), schedule[|schedule| - 1]);
    }
  }

  // --- The stale failure ------------------------------------------------------------

  /** Every delivery before number m, except f, from its reading to its answer. */
  function Others(m: nat, f: nat): seq<nat> {
    if m == 0 then [] else if m - 1 == f then Others(m - 1, f) else Others(m - 1, f) + [m - 1] + [m - 1]
  }

  /** The failed delivery f reads first and writes last. */
  function Stale(es: seq<StripeEvent>, f: nat): seq<nat> {
    [f] + Others(|es|, f) + [f]
  }

  lemma OneMoreStep(b: Books, n: nat, es: seq<StripeEvent>, schedule: seq<nat>, k: nat)
    ensures After(b, n, es, schedule + [k]) == StepOf(After(b, n, es, schedule), n, es, k)
  {
    assert (schedule + [k])[..|schedule|] == schedule;
  }

  lemma TwoSteps(b: Books, n: nat, es: seq<StripeEvent>, schedule: seq<nat>, k: nat)
    requires Overlap(b, n, es) && k < |es|
    ensures var before, after := After(b, n, es, schedule), After(b, n, es, schedule + [k] + [k]);
            |before.at| == |after.at| == |es|
            && (before.at[k] == NotRead ==> after.at == before.at[k := Answered])
  {
    EveryScheduleKeeps(b, n, es, schedule);
    EveryScheduleKeeps(b, n, es, schedule + [k]);
    OneMoreStep(b, n, es, schedule, k);
    OneMoreStep(b, n, es, schedule + [k], k);
    hide After;
  }

  /** f has read, those before number m are answered, the rest has not started. */
  ghost predicate Waits(at: seq<Stage>, f: nat, m: nat, seen: PaymentStatus) {
    && f < |at| && at[f] == HasRead(seen)
    && forall k :: 0 <= k < |at| && k != f ==> at[k] == if k < m then Answered else NotRead
  }

  lemma FirstReading(b: Books, n: nat, es: seq<StripeEvent>, f: nat)
    requires Overlap(b, n, es) && f < |es|
    ensures var at := After(b, n, es, [f]).at;
            |at| == |es| && Waits(at, f, 0, b.payments[n].status)
  {
    assert [f][..0] == [];
  }

  lemma OneMoreAnswered(b: Books, n: nat, es: seq<StripeEvent>, schedule: seq<nat>, f: nat, m: nat, seen: PaymentStatus)
    requires Overlap(b, n, es) && m < |es| && m != f
    requires |After(b, n, es, schedule).at| == |es| && Waits(After(b, n, es, schedule).at, f, m, seen)
    ensures var at := After(b, n, es, schedule + [m] + [m]).at;
            |at| == |es| && Waits(at, f, m + 1, seen)
  {
    TwoSteps(b, n, es, schedule, m);
    hide After;
  }

  lemma {:induction false} OthersAreAnswered(b: Books, n: nat, es: seq<StripeEvent>, f: nat, m: nat)
    requires Overlap(b, n, es) && f < |es| && m <= |es|
    ensures var at := After(b, n, es, [f] + Others(m, f)).at;
            |at| == |es| && Waits(at, f, m, b.payments[n].status)
    decreases m
  {
    hide After, Waits;
    if m == 0 {
      FirstReading(b, n, es, f);
      assert [f] + Others(0, f) == [f];
    } else {
      OthersAreAnswered(b, n, es, f, m - 1);
      if m - 1 == f {
        SkippingIsWaiting(After(b, n, es, [f] + Others(m, f)).at, f, b.payments[n].status);
      } else {
        OneMoreAnswered(b, n, es, [f] + Others(m - 1, f), f, m - 1, b.payments[n].status);
        OthersOneMore(m, f);
      }
    }
  }

  lemma SkippingIsWaiting(at: seq<Stage>, f: nat, seen: PaymentStatus)
    requires Waits(at, f, f, seen)
    ensures Waits(at, f, f + 1, seen)
  {
  }

  lemma OthersOneMore(m: nat, f: nat)
    requires m > 0 && m - 1 != f
    ensures [f] + Others(m, f) == [f] + Others(m - 1, f) + [m - 1] + [m - 1]
  {
  }

  /** Then the payment ends failed, after every paid delivery was answered, and its order ends paid. */
  lemma StaleFailureWins(b: Books, n: nat, es: seq<StripeEvent>, f: nat)
    requires Overlap(b, n, es) && SomePaid(es) && !PastFailing(b.payments[n].status)
    requires f < |es| && es[f].PaymentFailed?
    ensures var end := After(b, n, es, Stale(es, f));
            && AllAnswered(end) && Has(end.books, n, Failed)
            && b.payments[n].order in end.books.orders && end.books.orders[b.payments[n].order].status == Paid
  {
    StaleIsWritten(b, n, es, f);
    EveryScheduleKeeps(b, n, es, Stale(es, f));
    hide After;
    var p :| 0 <= p < |es| && es[p].InvoicePaid?;
    assert After(b, n, es, Stale(es, f)).at[p] == Answered;
  }

  lemma StaleIsWritten(b: Books, n: nat, es: seq<StripeEvent>, f: nat)
    requires Overlap(b, n, es) && !PastFailing(b.payments[n].status) && f < |es| && es[f].PaymentFailed?
    ensures var end := After(b, n, es, Stale(es, f));
            AllAnswered(end) && |end.at| == |es| && Has(end.books, n, Failed)
  {
    var early := [f] + Others(|es|, f);
    var before := After(b, n, es, early);
    OthersAreAnswered(b, n, es, f, |es|);
    EveryScheduleKeeps(b, n, es, early);
    OneMoreStep(b, n, es, early, f);
    WriteKeeps(before.books, n, es[f], b.payments[n].status);
    hide WriteAs, After;
  }

  ghost predicate PaidWins(b: Books, n: nat, es: seq<StripeEvent>, schedule: seq<nat>) {
    AllAnswered(After(b, n, es, schedule)) ==> Has(After(b, n, es, schedule).books, n, Succeeded)
  }

  /**
   Any number of overlapping deliveries about one payment, one of them paid: on
   every schedule that answers them all the payment ends `succeeded`, if and
   only if none of them is a failure or it was in a terminal state, or failed, before.
   */
  lemma PaidWinsIff(b: Books, n: nat, es: seq<StripeEvent>)
    requires Overlap(b, n, es) && SomePaid(es)
    ensures (forall schedule :: PaidWins(b, n, es, schedule)) <==> PastFailing(b.payments[n].status) || NoFailure(es)
  {
    if PastFailing(b.payments[n].status) || NoFailure(es) {
      var p :| 0 <= p < |es| && es[p].InvoicePaid?;
      forall schedule ensures PaidWins(b, n, es, schedule) {
        EveryScheduleKeepsPaidAhead(b, n, es, schedule);
      }
    } else {
      var f :| 0 <= f < |es| && es[f].PaymentFailed?;
      StaleFailureWins(b, n, es, f);
      assert !PaidWins(b, n, es, Stale(es, f));
    }
  }
}
