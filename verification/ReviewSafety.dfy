/** Review invitations and reviews over every mix of admin moves, webhooks and worker runs. */
module ReviewSafety {
  import opened Wrappers
  import opened Ledger
  import opened LedgerSafety

  predicate Invited(b: Books, o: Id) {
    exists i :: i in b.invites && i.order == o
  }

  /** One invitation per order, to the user who asked for the quotes. */
  ghost predicate InvitesOk(b: Books) {
    && (forall i, j :: 0 <= i < j < |b.invites| ==> b.invites[i].order != b.invites[j].order)
    && (forall i :: 0 <= i < |b.invites| ==>
          b.invites[i].order in b.orders && b.invites[i].user == b.orders[b.invites[i].order].sale.requester)
  }

  /** One review per order, by that same user, about the caterer of the order. */
  ghost predicate ReviewsOk(b: Books) {
    && (forall i, j :: 0 <= i < j < |b.reviews| ==> b.reviews[i].order != b.reviews[j].order)
    && (forall i :: 0 <= i < |b.reviews| ==>
          var r := b.reviews[i];
          && r.order in b.orders && 1 <= r.rating <= 5
          && r.author == b.orders[r.order].sale.requester && r.caterer == b.orders[r.order].sale.caterer)
  }

  ghost predicate SalesKept(b: Books, c: Books) {
    forall o :: o in b.orders ==> o in c.orders && c.orders[o].sale == b.orders[o].sale
  }

  /** From `b` to `c` reviews and invitations stay unique, reviews stay, and nobody reviewed is invited anew. */
  ghost predicate ReviewsKept(b: Books, c: Books) {
    && InvitesOk(c) && ReviewsOk(c) && SalesKept(b, c) && b.reviews <= c.reviews
    && forall o :: Reviewed(b, o) && Invited(c, o) ==> Invited(b, o)
  }

  /** Orders may move, invitations and reviews do not. */
  lemma OnlyOrdersMove(b: Books, c: Books)
    requires InvitesOk(b) && ReviewsOk(b) && SalesKept(b, c) && c.invites == b.invites && c.reviews == b.reviews
    ensures ReviewsKept(b, c)
  {
  }

  lemma InvitingOnce(b: Books, o: Id)
    requires InvitesOk(b) && ReviewsOk(b)
    ensures var c := InviteToReview(b, o);
            InvitesOk(c) && ReviewsOk(c) && c == b.(invites := c.invites) && (Reviewed(b, o) ==> c == b)
  {
    var c := InviteToReview(b, o);
    if c != b {
      var invite := Invite(o, b.orders[o].sale.requester);
      forall i | 0 <= i < |b.invites| ensures b.invites[i].order != o {
        assert b.invites[i] in b.invites;
      }
    }
  }

  lemma ReviewingOnce(b: Books, o: Id, viewer: Id, rating: int)
    requires InvitesOk(b) && ReviewsOk(b)
    ensures ReviewsKept(b, PostReview(b, o, viewer, rating))
  {
    if Reviewable(b, o, viewer) {
      forall i | 0 <= i < |b.reviews| ensures b.reviews[i].order != o {
        assert b.reviews[i] in b.reviews;
      }
    }
  }

  lemma EventKeepsReviews(b: Books, e: StripeEvent)
    requires InvitesOk(b) && ReviewsOk(b)
    ensures ReviewsKept(b, ApplyEvent(b, e))
  {
    if e.InvoicePaid? && e.invoice in b.payments && b.payments[e.invoice].order in b.orders {
      var marked, o := MarkedPaid(b, e.invoice, e.charge), b.payments[e.invoice].order;
      OnlyOrdersMove(b, marked);
      InvitingOnce(marked, o);
      assert ApplyEvent(b, e) == InviteToReview(marked, o);
      InvitationIsFor(marked, o);
    } else {
      OnlyOrdersMove(b, ApplyEvent(b, e));
    }
  }

  lemma ReceiveKeepsReviews(b: Books, d: Delivery)
    requires InvitesOk(b) && ReviewsOk(b)
    ensures ReviewsKept(b, Receive(b, d).0)
  {
    EventKeepsReviews(b, d.event);
    hide ApplyEvent;
  }

  lemma InvitationIsFor(b: Books, o: Id)
    ensures forall p :: p != o && Invited(InviteToReview(b, o), p) ==> Invited(b, p)
  {
  }

  lemma AdminKeepsReviews(b: Books, o: Id, action: AdminAction)
    requires InvitesOk(b) && ReviewsOk(b)
    ensures ReviewsKept(b, AdminMove(b, o, action))
  {
    if o in b.orders && b.orders[o].status == Expected(action) {
      var moved := b.(orders := b.orders[o := b.orders[o].(status := TargetOf(action))]);
      OnlyOrdersMove(b, moved);
      InvitingOnce(moved, o);
      InvitationIsFor(moved, o);
    }
  }

  lemma StepMovesReviews(w: World, e: Event)
    requires InvitesOk(w.books) && ReviewsOk(w.books)
    ensures ReviewsKept(w.books, Step(w, e).books)
  {
    hide BillOf, AdminMove, Receive, InviteToReview, ReviewsKept, PostReview, InvitesOk, ReviewsOk;
    var b := w.books;
    match e
    case Webhook(d) => ReceiveKeepsReviews(b, d);
    case Admin(o, action) => AdminKeepsReviews(b, o, action);
    case Write(o, viewer, rating) => ReviewingOnce(b, o, viewer, rating);
    case Place(_, _) => OnlyOrdersMove(b, Step(w, e).books);
    case DeliverOrder(_, _, _) => OnlyOrdersMove(b, Step(w, e).books);
    case Finish(_) => OnlyOrdersMove(b, Step(w, e).books);
    case Start(_, _) => OnlyOrdersMove(b, b);
    case Call(_) => OnlyOrdersMove(b, b);
    case Drop(_) => OnlyOrdersMove(b, b);
  }

  /** Any step: invitations and reviews stay unique, reviews stay, and nobody reviewed is invited anew. */
  lemma StepKeepsReviews(w: World, e: Event)
    requires InvitesOk(w.books) && ReviewsOk(w.books)
    ensures var b, c := w.books, Step(w, e).books;
            && InvitesOk(c) && ReviewsOk(c) && SalesKept(b, c) && b.reviews <= c.reviews
            && forall o :: Reviewed(b, o) && Invited(c, o) ==> Invited(b, o)
  {
    StepMovesReviews(w, e);
    hide Step;
  }

  lemma {:induction false} EveryRunReviewsOnce(w: World, es: seq<Event>)
    requires Initial(w)
    ensures InvitesOk(Run(w, es).books) && ReviewsOk(Run(w, es).books)
    decreases |es|
  {
    if es != [] {
      EveryRunReviewsOnce(w, es[..|es| - 1]);
      StepKeepsReviews(Run(w, es[..|es| - 1]), es[|es| - 1]);
    }
  }

  ghost predicate ReviewedArePaid(b: Books) {
    forall r :: r in b.reviews ==> r.order in b.orders && b.orders[r.order].status == Paid
  }

  /** Every reviewed order is paid, in every reachable state: it stays paid once reviewed. */
  lemma {:induction false} EveryRunReviewsPaidOrders(w: World, es: seq<Event>)
    requires Initial(w)
    ensures ReviewedArePaid(Run(w, es).books)
    decreases |es|
  {
    if es != [] {
      var mid, e := Run(w, es[..|es| - 1]), es[|es| - 1];
      EveryRunReviewsPaidOrders(w, es[..|es| - 1]);
      EveryRunBillsOnce(w, es[..|es| - 1]);
      EveryRunQueues(w, es[..|es| - 1]);
      EveryRunReviewsOnce(w, es[..|es| - 1]);
      StepMovesForward(mid, e);
      EveryRunBillsOnce(w, es);
      StepKeepsPaidReviews(mid, e);
    }
  }

  lemma EventsDoNotReview(b: Books, e: StripeEvent)
    ensures ApplyEvent(b, e).reviews == b.reviews
  {
  }

  lemma AdminMovesDoNotReview(b: Books, o: Id, action: AdminAction)
    ensures AdminMove(b, o, action).reviews == b.reviews
  {
  }

  lemma OnlyWritersReview(w: World, e: Event)
    requires !e.Write?
    ensures Step(w, e).books.reviews == w.books.reviews
  {
    hide BillOf, ApplyEvent, AdminMove;
    if e.Webhook? {
      EventsDoNotReview(w.books, e.delivery.event);
    } else if e.Admin? {
      AdminMovesDoNotReview(w.books, e.order, e.action);
    }
  }

  lemma WritingKeepsPaidReviews(b: Books, o: Id, viewer: Id, rating: int)
    requires ReviewedArePaid(b)
    ensures ReviewedArePaid(PostReview(b, o, viewer, rating))
  {
  }

  lemma StepKeepsPaidReviews(w: World, e: Event)
    requires ReviewedArePaid(w.books) && InvitesOk(w.books) && ReviewsOk(w.books)
    requires Forward(w.books, Step(w, e).books) && OrdersOk(Step(w, e).books)
    ensures ReviewedArePaid(Step(w, e).books)
  {
    if e.Write? {
      WritingKeepsPaidReviews(w.books, e.order, e.viewer, e.rating);
      assert Step(w, e).books == PostReview(w.books, e.order, e.viewer, e.rating) by { hide PostReview; }
    } else {
      OnlyWritersReview(w, e);
    }
    hide Step, PostReview;
  }
}
