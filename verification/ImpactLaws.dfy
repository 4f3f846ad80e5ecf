/**
 What the social impact block counts, told by the life of the orders: a company's
 figures move when one of its orders gets paid, by that order's amount, and at
 no other time.
 */
module ImpactLaws {
  import opened Wrappers
  import opened Sums
  import opened Ledger
  import opened LedgerSafety
  import opened LedgerCauses
  import opened Impact
  import PaymentSafety

  /** The paid orders of one company, and nothing else. */
  function OnlyPaidBy(b: Books, company: Id): Books {
    b.(orders := map o | o in b.orders && b.orders[o].status == Paid && b.orders[o].sale.company == company
                       :: b.orders[o])
  }

  /** The figures of a company are those of its paid orders. */
  lemma FiguresSeeOnlyPaidOrders(b: Books, company: Id, requester: Option<Id>, kind: Id -> Structure)
    ensures ImpactOf(b, company, requester, kind) == ImpactOf(OnlyPaidBy(b, company), company, requester, kind)
  {
    var c := OnlyPaidBy(b, company);
    var rows := Purchases(b, company, requester);
    assert Purchases(c, company, requester) == rows;
    assert Covered(c, rows, kind, SIAE_STRUCTURE_TYPES) == Covered(b, rows, kind, SIAE_STRUCTURE_TYPES);
    assert Covered(c, rows, kind, STPA_STRUCTURE_TYPES) == Covered(b, rows, kind, STPA_STRUCTURE_TYPES);
    SumOverAgrees(rows, AmountOf(c), AmountOf(b));
    SumOverAgrees(Covered(b, rows, kind, SIAE_STRUCTURE_TYPES), AmountOf(c), AmountOf(b));
    SumOverAgrees(Covered(b, rows, kind, STPA_STRUCTURE_TYPES), AmountOf(c), AmountOf(b));
  }

  /** Whether a sale is one of this company, and of this requester if one is given. */
  predicate ConcernsSale(sale: Sale, company: Id, requester: Option<Id>) {
    sale.company == company && (requester.None? || sale.requester == requester.value)
  }

  // --- One step ----------------------------------------------------------------------------

  lemma PaidStays(w: World, e: Event, x: Id)
    requires BillingOk(w) && QueueOk(w) && x in w.books.orders && w.books.orders[x].status == Paid
    ensures x in Step(w, e).books.orders && Step(w, e).books.orders[x].status == Paid
  {
    StepMovesForward(w, e);
    StepKeepsBillingOk(w, e);
    PaymentSafety.PaidStaysPaid(w.books, Step(w, e).books, x);
    hide Step;
  }

  /** The order x keeps its sale from `b` to `c`, and stays paid or unpaid unless it is o. */
  ghost predicate AsBefore(b: Books, c: Books, o: Id, x: Id) {
    && (x in b.orders ==> x in c.orders && c.orders[x].sale == b.orders[x].sale)
    && (x != o ==> ((x in c.orders && c.orders[x].status == Paid) <==> (x in b.orders && b.orders[x].status == Paid)))
  }

  lemma AllAsBefore(b: Books, c: Books, o: Id)
    requires forall x :: AsBefore(b, c, o, x)
    requires o in b.orders && b.orders[o].status != Paid && o in c.orders && c.orders[o].status == Paid
    ensures OnlyPays(b, c, o)
  {
    forall x | x in b.orders ensures x in c.orders && c.orders[x].sale == b.orders[x].sale {
      assert AsBefore(b, c, o, x);
    }
    forall x | x != o
      ensures (x in c.orders && c.orders[x].status == Paid) <==> (x in b.orders && b.orders[x].status == Paid)
    {
      assert AsBefore(b, c, o, x);
    }
  }

  /** A step pays one order at most. */
  lemma OnePaidOrder(w: World, e: Event, o: Id)
    requires BillingOk(w) && QueueOk(w)
    requires o in w.books.orders && Becomes(w, Step(w, e), o, Paid)
    ensures OnlyPays(w.books, Step(w, e).books, o)
  {
    PaidIff(w, e, o);
    hide Step, BillingOk, QueueOk, AsBefore, OnlyPays, Settles, PaysFor;
    forall x ensures AsBefore(w.books, Step(w, e).books, o, x) {
      OtherPaidOrder(w, e, o, x);
    }
    AllAsBefore(w.books, Step(w, e).books, o);
  }

  lemma OtherPaidOrder(w: World, e: Event, o: Id, x: Id)
    requires BillingOk(w) && QueueOk(w) && (Settles(w, e, o) || PaysFor(w, e, o))
    ensures AsBefore(w.books, Step(w, e).books, o, x)
  {
    OrderIsPlacedIff(w, e, x);
    if x in w.books.orders {
      PaidIff(w, e, x);
      if w.books.orders[x].status == Paid {
        PaidStays(w, e, x);
      }
    }
    hide Step, BillingOk, QueueOk;
  }

  /** The order x keeps its sale, and stays paid or unpaid. */
  ghost predicate Unmoved(b: Books, c: Books, x: Id) {
    && (x in b.orders ==> x in c.orders && c.orders[x].sale == b.orders[x].sale)
    && ((x in c.orders && c.orders[x].status == Paid) <==> (x in b.orders && b.orders[x].status == Paid))
  }

  lemma NoPaidOrder(w: World, e: Event, x: Id)
    requires BillingOk(w) && QueueOk(w)
    requires forall o :: o in w.books.orders ==> !Becomes(w, Step(w, e), o, Paid)
    ensures Unmoved(w.books, Step(w, e).books, x)
  {
    OrderIsPlacedIff(w, e, x);
    if x in w.books.orders {
      assert !Becomes(w, Step(w, e), x, Paid);
      if w.books.orders[x].status == Paid {
        PaidStays(w, e, x);
      }
    }
    hide Step, BillingOk, QueueOk;
  }

  /** From `b` to `c` the order o gets paid, and that is all that happens to paid orders and to sales. */
  ghost predicate OnlyPays(b: Books, c: Books, o: Id) {
    && o in b.orders && b.orders[o].status != Paid && o in c.orders && c.orders[o].status == Paid
    && (forall x :: x in b.orders ==> x in c.orders && c.orders[x].sale == b.orders[x].sale)
    && (forall x :: x != o ==>
          ((x in c.orders && c.orders[x].status == Paid) <==> (x in b.orders && b.orders[x].status == Paid)))
  }

  lemma OneMorePurchase(b: Books, c: Books, o: Id, company: Id, requester: Option<Id>)
    requires OnlyPays(b, c, o)
    ensures Purchases(c, company, requester)
         == if ConcernsSale(b.orders[o].sale, company, requester) then Purchases(b, company, requester) + {o}
            else Purchases(b, company, requester)
    ensures o !in Purchases(b, company, requester)
  {
  }

  lemma OneMoreCovered(b: Books, c: Books, o: Id, company: Id, requester: Option<Id>, kind: Id -> Structure,
                       done: set<Structure>)
    requires OnlyPays(b, c, o)
    ensures var before, after := Purchases(b, company, requester), Purchases(c, company, requester);
            var sale := b.orders[o].sale;
            Covered(c, after, kind, done)
            == if ConcernsSale(sale, company, requester) && kind(sale.caterer) in done
               then Covered(b, before, kind, done) + {o} else Covered(b, before, kind, done)
  {
    OneMorePurchase(b, c, o, company, requester);
    hide Purchases;
  }

  lemma SameAmounts(b: Books, c: Books, o: Id, rows: set<Id>)
    requires OnlyPays(b, c, o) && forall x :: x in rows ==> x in b.orders
    ensures SumOver(rows, AmountOf(c)) == SumOver(rows, AmountOf(b))
  {
    SumOverAgrees(rows, AmountOf(c), AmountOf(b));
  }

  lemma OneMoreAmount(b: Books, c: Books, o: Id, rows: set<Id>)
    requires OnlyPays(b, c, o) && o !in rows && forall x :: x in rows ==> x in b.orders
    ensures SumOver(rows + {o}, AmountOf(c)) == SumOver(rows, AmountOf(b)) + b.orders[o].sale.totalHt
  {
    SameAmounts(b, c, o, rows);
    SumOverTake(rows + {o}, AmountOf(c), o);
    assert rows + {o} - {o} == rows;
    assert AmountOf(c)(o) == b.orders[o].sale.totalHt;
  }

  lemma TotalRises(b: Books, c: Books, o: Id, company: Id, requester: Option<Id>)
    requires OnlyPays(b, c, o)
    ensures SumOver(Purchases(c, company, requester), AmountOf(c))
         == SumOver(Purchases(b, company, requester), AmountOf(b))
            + if ConcernsSale(b.orders[o].sale, company, requester) then b.orders[o].sale.totalHt else 0
  {
    var rows := Purchases(b, company, requester);
    OneMorePurchase(b, c, o, company, requester);
    SameAmounts(b, c, o, rows);
    OneMoreAmount(b, c, o, rows);
    hide Purchases, AmountOf, OnlyPays;
  }

  lemma SectorRises(b: Books, c: Books, o: Id, company: Id, requester: Option<Id>, kind: Id -> Structure,
                    done: set<Structure>)
    requires OnlyPays(b, c, o)
    ensures SumWhere(c, Purchases(c, company, requester), kind, done)
         == SumWhere(b, Purchases(b, company, requester), kind, done)
            + if ConcernsSale(b.orders[o].sale, company, requester) && kind(b.orders[o].sale.caterer) in done
              then b.orders[o].sale.totalHt else 0
  {
    var rows := Covered(b, Purchases(b, company, requester), kind, done);
    OneMoreCovered(b, c, o, company, requester, kind, done);
    SameAmounts(b, c, o, rows);
    OneMoreAmount(b, c, o, rows);
    hide Purchases, AmountOf, OnlyPays, Covered;
  }

  /** The two sectors, by name. */
  predicate Siae(s: Structure) {
    s == EI || s == ACI
  }

  predicate Stpa(s: Structure) {
    s == ESAT || s == EA
  }

  /** What one more paid order does to the figures. */
  ghost predicate FiguresRise(before: SocialImpact, after: SocialImpact, amount: int, sector: Structure) {
    && after.totalHt == before.totalHt + amount
    && after.siaeHt == before.siaeHt + (if Siae(sector) then amount else 0)
    && after.stpaHt == before.stpaHt + (if Stpa(sector) then amount else 0)
  }

  lemma OneMoreCounts(b: Books, c: Books, o: Id, company: Id, requester: Option<Id>, kind: Id -> Structure)
    requires OnlyPays(b, c, o)
    ensures var sale := b.orders[o].sale;
            FiguresRise(ImpactOf(b, company, requester, kind), ImpactOf(c, company, requester, kind),
                        if ConcernsSale(sale, company, requester) then sale.totalHt else 0, kind(sale.caterer))
  {
    hide SumWhere, Purchases, AmountOf, Hours, SumOver, ConcernsSale, OnlyPays;
    hide SIAE_STRUCTURE_TYPES, STPA_STRUCTURE_TYPES;
    assert o in b.orders by { OnlyOneOrder(b, c, o); }
    TotalRises(b, c, o, company, requester);
    SectorRises(b, c, o, company, requester, kind, SIAE_STRUCTURE_TYPES);
    SectorRises(b, c, o, company, requester, kind, STPA_STRUCTURE_TYPES);
    SectorsByName(kind(b.orders[o].sale.caterer));
  }

  lemma OnlyOneOrder(b: Books, c: Books, o: Id)
    requires OnlyPays(b, c, o)
    ensures o in b.orders
  {
  }

  lemma SectorsByName(s: Structure)
    ensures s in SIAE_STRUCTURE_TYPES <==> Siae(s)
    ensures s in STPA_STRUCTURE_TYPES <==> Stpa(s)
  {
  }

  /**
   The step that takes an order to `paid` raises its company's figures, and its
   requester's, by exactly that sale's amount, in the sector of its caterer, and
   nobody else's.
   */
  lemma PayingRaisesTheFigures(w: World, e: Event, o: Id, company: Id, requester: Option<Id>, kind: Id -> Structure)
    requires BillingOk(w) && QueueOk(w)
    requires o in w.books.orders && Becomes(w, Step(w, e), o, Paid)
    ensures var sale := w.books.orders[o].sale;
            var before := ImpactOf(w.books, company, requester, kind);
            var after := ImpactOf(Step(w, e).books, company, requester, kind);
            var amount := if ConcernsSale(sale, company, requester) then sale.totalHt else 0;
            && after.totalHt == before.totalHt + amount
            && after.siaeHt == before.siaeHt + (if Siae(kind(sale.caterer)) then amount else 0)
            && after.stpaHt == before.stpaHt + (if Stpa(kind(sale.caterer)) then amount else 0)
  {
    OnePaidOrder(w, e, o);
    hide Step, BillingOk, QueueOk, ImpactOf, OnlyPays, ConcernsSale;
    OneMoreCounts(w.books, Step(w, e).books, o, company, requester, kind);
  }

  /** A step that pays no order changes no figure of anybody. */
  lemma NotPayingKeepsTheFigures(w: World, e: Event, company: Id, requester: Option<Id>, kind: Id -> Structure)
    requires BillingOk(w) && QueueOk(w)
    requires forall o :: o in w.books.orders ==> !Becomes(w, Step(w, e), o, Paid)
    ensures ImpactOf(Step(w, e).books, company, requester, kind) == ImpactOf(w.books, company, requester, kind)
  {
    hide Step, BillingOk, QueueOk, Unmoved, ImpactOf;
    forall x ensures Unmoved(w.books, Step(w, e).books, x) {
      NoPaidOrder(w, e, x);
    }
    SamePurchases(w.books, Step(w, e).books, company, requester, kind);
  }

  lemma SamePurchases(b: Books, c: Books, company: Id, requester: Option<Id>, kind: Id -> Structure)
    requires forall x :: Unmoved(b, c, x)
    ensures ImpactOf(c, company, requester, kind) == ImpactOf(b, company, requester, kind)
  {
    var rows := Purchases(b, company, requester);
    forall x ensures x in Purchases(c, company, requester) <==> x in rows {
      assert Unmoved(b, c, x);
    }
    assert Purchases(c, company, requester) == rows;
    forall x | x in rows ensures x in c.orders && c.orders[x].sale == b.orders[x].sale {
      assert Unmoved(b, c, x);
    }
    hide Purchases;
    assert Covered(c, rows, kind, SIAE_STRUCTURE_TYPES) == Covered(b, rows, kind, SIAE_STRUCTURE_TYPES);
    assert Covered(c, rows, kind, STPA_STRUCTURE_TYPES) == Covered(b, rows, kind, STPA_STRUCTURE_TYPES);
    SumOverAgrees(rows, AmountOf(c), AmountOf(b));
    SumOverAgrees(Covered(b, rows, kind, SIAE_STRUCTURE_TYPES), AmountOf(c), AmountOf(b));
    SumOverAgrees(Covered(b, rows, kind, STPA_STRUCTURE_TYPES), AmountOf(c), AmountOf(b));
  }

  // --- Whole runs ----------------------------------------------------------------------------

  ghost predicate PaysSomething(w: World, e: Event, o: Id) {
    o in w.books.orders && Becomes(w, Step(w, e), o, Paid)
  }

  /** What a step pays of the orders of this company and this requester. */
  ghost function PaidBy(w: World, e: Event, company: Id, requester: Option<Id>): int {
    if exists o :: PaysSomething(w, e, o) then
      var o :| PaysSomething(w, e, o);
      if ConcernsSale(w.books.orders[o].sale, company, requester) then w.books.orders[o].sale.totalHt else 0
    else 0
  }

  ghost function PaidDuring(w: World, es: seq<Event>, company: Id, requester: Option<Id>): int {
    if es == [] then 0
    else PaidDuring(w, es[..|es| - 1], company, requester)
         + PaidBy(Run(w, es[..|es| - 1]), es[|es| - 1], company, requester)
  }

  /** From the first order on, a company's total is what was paid of its orders, step by step, over the run. */
  lemma {:induction false} EveryRunCountsWhatIsPaid(w: World, es: seq<Event>, company: Id, requester: Option<Id>,
                                                   kind: Id -> Structure)
    requires Initial(w)
    ensures ImpactOf(Run(w, es).books, company, requester, kind).totalHt == PaidDuring(w, es, company, requester)
    decreases |es|
  {
    if es == [] {
      assert Purchases(w.books, company, requester) == {};
    } else {
      var front, e := es[..|es| - 1], es[|es| - 1];
      var v := Run(w, front);
      EveryRunCountsWhatIsPaid(w, front, company, requester, kind);
      EveryRunBillsOnce(w, front);
      EveryRunQueues(w, front);
      StepCountsWhatIsPaid(v, e, company, requester, kind);
      hide ImpactOf, Step, PaidBy;
    }
  }

  lemma StepCountsWhatIsPaid(w: World, e: Event, company: Id, requester: Option<Id>, kind: Id -> Structure)
    requires BillingOk(w) && QueueOk(w)
    ensures ImpactOf(Step(w, e).books, company, requester, kind).totalHt
         == ImpactOf(w.books, company, requester, kind).totalHt + PaidBy(w, e, company, requester)
  {
    hide BillingOk, QueueOk, Step, ImpactOf;
    if exists o :: PaysSomething(w, e, o) {
      var o := WhatIsPaid(w, e, company, requester);
      PayingRaisesTheFigures(w, e, o, company, requester, kind);
    } else {
      forall o | o in w.books.orders ensures !Becomes(w, Step(w, e), o, Paid) {
        assert !PaysSomething(w, e, o);
      }
      NotPayingKeepsTheFigures(w, e, company, requester, kind);
    }
  }

  lemma WhatIsPaid(w: World, e: Event, company: Id, requester: Option<Id>) returns (o: Id)
    requires exists o :: PaysSomething(w, e, o)
    ensures PaysSomething(w, e, o)
    ensures PaidBy(w, e, company, requester)
         == if ConcernsSale(w.books.orders[o].sale, company, requester) then w.books.orders[o].sale.totalHt else 0
  {
    hide Step, Becomes, ConcernsSale;
    o :| PaysSomething(w, e, o)
         && PaidBy(w, e, company, requester)
            == if ConcernsSale(w.books.orders[o].sale, company, requester) then w.books.orders[o].sale.totalHt else 0;
  }
}
