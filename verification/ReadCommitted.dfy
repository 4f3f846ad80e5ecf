/**
 All the handlers of one request at once, at the isolation the database gives
 them. Each call reads, prepares and commits; only answers, acceptances and
 edits lock the request row. A commit writes the columns the call changed, over
 whatever has been committed since it read.
 */
module ReadCommitted {
  import opened Wrappers
  import opened Tenders
  import opened TenderSafety

  datatype Stage = Waiting | Reading(seen: Tender) | Returned

  /** `Start` takes the lock, if the call takes one, and reads; `Look` reads the part the call reads last again. */
  datatype Move = Start(call: nat) | Look(call: nat) | Commit(call: nat)

  datatype System = System(db: Tender, at: seq<Stage>, lock: Option<nat>)

  predicate Locks(a: Act) {
    a.Submit? || a.Accept? || a.Edit?
  }

  /** The others read their links last. */
  predicate QuotesLast(a: Act) {
    a.CreateQuote? || a.Decline? || a.Refuse?
  }

  // --- A commit -------------------------------------------------------------------

  function MergedLink(db: Link, before: Link, after: Link): Link {
    db.(status := if after.status != before.status then after.status else db.status,
        rank := if after.rank != before.rank then after.rank else db.rank)
  }

  function MergedQuote(db: Quote, before: Quote, after: Quote): Quote {
    db.(status := if after.status != before.status then after.status else db.status,
        body := if after.body != before.body then after.body else db.body)
  }

  function MergedLinks(db: map<Id, Link>, before: map<Id, Link>, after: map<Id, Link>): map<Id, Link> {
    map i | i in db.Keys + (after.Keys - before.Keys) ::
      if i !in db then after[i]
      else if i in before && i in after then MergedLink(db[i], before[i], after[i])
      else db[i]
  }

  function MergedQuotes(db: map<Id, Quote>, before: map<Id, Quote>, after: map<Id, Quote>): map<Id, Quote> {
    map q | q in db.Keys + (after.Keys - before.Keys) ::
      if q !in db then after[q]
      else if q in before && q in after then MergedQuote(db[q], before[q], after[q])
      else db[q]
  }

  /** New rows are inserted, changed columns written, the rest left as it is. */
  function Merged(db: Tender, before: Tender, after: Tender): Tender {
    db.(status := if after.status != before.status then after.status else db.status,
        links := MergedLinks(db.links, before.links, after.links),
        quotes := MergedQuotes(db.quotes, before.quotes, after.quotes),
        orders := after.orders + db.orders)
  }

  /** Alone, a call commits what its handler returns. */
  lemma AloneIsPerformed(t: Tender, a: Act)
    requires KnownStatus(t)
    ensures Merged(t, t, Perform(t, a).0) == Perform(t, a).0
  {
    var after := Perform(t, a).0;
    PerformAdvances(t, a);
    PerformKeepsIdentity(t, a);
    RequestsStay(t, a);
    hide Perform;
    MergedWithItself(t, after);
  }

  lemma MergedWithItself(t: Tender, after: Tender)
    requires Advances(t, after) && after.id == t.id && after.company == t.company && after.user == t.user
    requires forall i :: i in t.links && i in after.links ==> after.links[i].request == t.links[i].request
    ensures Merged(t, t, after) == after
  {
    assert MergedLinks(t.links, t.links, after.links) == after.links;
    assert MergedQuotes(t.quotes, t.quotes, after.quotes) == after.quotes;
    assert after.orders + t.orders == after.orders;
  }

  lemma RequestsStay(t: Tender, a: Act)
    ensures forall i :: i in t.links && i in Perform(t, a).0.links ==>
              Perform(t, a).0.links[i].request == t.links[i].request
  {
    if a.Approve? {
      assert forall i :: i in a.fan && i in t.links ==> i in a.fan.Keys * t.links.Keys;
    }
  }

  // --- Schedules --------------------------------------------------------------------

  ghost function StepOf(acts: seq<Act>, s: System, m: Move): System {
    var k := m.call;
    if k >= |acts| || k >= |s.at| then s
    else match m
      case Start(_) =>
        if !s.at[k].Waiting? || (Locks(acts[k]) && s.lock.Some?) then s
        else s.(at := s.at[k := Reading(s.db)], lock := if Locks(acts[k]) then Some(k) else s.lock)
      case Look(_) =>
        if !s.at[k].Reading? then s
        else if QuotesLast(acts[k]) then s.(at := s.at[k := Reading(s.at[k].seen.(quotes := s.db.quotes))])
        else s.(at := s.at[k := Reading(s.at[k].seen.(links := s.db.links))])
      case Commit(_) =>
        if !s.at[k].Reading? then s
        else System(Committed(s, acts[k], k), s.at[k := Returned], if Locks(acts[k]) then None else s.lock)
  }

  ghost function Committed(s: System, a: Act, k: nat): Tender
    requires k < |s.at| && s.at[k].Reading?
  {
    Merged(s.db, s.at[k].seen, Perform(s.at[k].seen, a).0)
  }

  ghost function After(t: Tender, acts: seq<Act>, schedule: seq<Move>): System {
    if schedule == [] then System(t, seq(|acts|, _ => Waiting), None)
    else StepOf(acts, After(t, acts, schedule[..|schedule| - 1]), schedule[|schedule| - 1])
  }

  // --- The lock -------------------------------------------------------------------

  ghost predicate LockHeld(acts: seq<Act>, s: System) {
    && |s.at| == |acts|
    && (forall k :: 0 <= k < |acts| && Locks(acts[k]) && s.at[k].Reading? ==> s.lock == Some(k))
  }

  lemma StepKeepsLock(acts: seq<Act>, s: System, m: Move)
    requires LockHeld(acts, s)
    ensures LockHeld(acts, StepOf(acts, s, m))
  {
    hide Merged, Perform;
  }

  // --- Three responders ---------------------------------------------------------------

  /** Links the call transmits: none, but for an answer. */
  ghost function NewlyTransmitted(before: map<Id, Link>, after: map<Id, Link>): set<Id> {
    set i | i in after && after[i].status == TransmittedToClient
            && (i in before ==> before[i].status != TransmittedToClient)
  }

  lemma OnlyAnswersTransmit(t: Tender, a: Act)
    requires !a.Submit?
    ensures NewlyTransmitted(t.links, Perform(t, a).0.links) == {}
  {
    if a.Approve? && Perform(t, a).1 == Done {
      FannedOutRows(t.links, a.fan, t.id);
    }
  }

  lemma AnswerTransmitsOne(t: Tender, a: Act)
    requires a.Submit?
    ensures |NewlyTransmitted(t.links, Perform(t, a).0.links)| <= 1
    ensures NewlyTransmitted(t.links, Perform(t, a).0.links) != {} ==> |Transmitted(t.links)| < 3
  {
    var after := Perform(t, a).0;
    var picked := Pick(LinksOf(t.links, a.caterer), a.link);
    if picked.Some? {
      SubsetCard(NewlyTransmitted(t.links, after.links), {picked.value});
    } else {
      assert NewlyTransmitted(t.links, after.links) == {};
    }
  }

  lemma MergedTransmitted(db: map<Id, Link>, before: map<Id, Link>, after: map<Id, Link>)
    ensures Transmitted(MergedLinks(db, before, after)) <= Transmitted(db) + NewlyTransmitted(before, after)
  {
  }

  /** Nobody transmits behind the back of whoever holds the lock. */
  ghost predicate SeenAll(acts: seq<Act>, s: System) {
    && |s.at| == |acts|
    && forall k :: 0 <= k < |acts| && Locks(acts[k]) && s.at[k].Reading? ==>
         Transmitted(s.db.links) <= Transmitted(s.at[k].seen.links)
  }

  ghost predicate ThreeAtMost(acts: seq<Act>, s: System) {
    LockHeld(acts, s) && SeenAll(acts, s) && |Transmitted(s.db.links)| <= 3
  }

  lemma CommitKeepsThree(acts: seq<Act>, s: System, k: nat)
    requires ThreeAtMost(acts, s) && k < |acts| && s.at[k].Reading?
    ensures |Transmitted(Committed(s, acts[k], k).links)| <= 3
    ensures !acts[k].Submit? ==> Transmitted(Committed(s, acts[k], k).links) <= Transmitted(s.db.links)
  {
    var seen := s.at[k].seen;
    var after := Perform(seen, acts[k]).0;
    MergedTransmitted(s.db.links, seen.links, after.links);
    if acts[k].Submit? {
      AnswerTransmitsOne(seen, acts[k]);
    } else {
      OnlyAnswersTransmit(seen, acts[k]);
    }
    hide Perform;
    BoundedUnion(Transmitted(s.db.links), NewlyTransmitted(seen.links, after.links), Transmitted(seen.links),
                 Transmitted(Committed(s, acts[k], k).links));
  }

  lemma BoundedUnion(old': set<Id>, added: set<Id>, seen: set<Id>, new': set<Id>)
    requires new' <= old' + added && |old'| <= 3 && |added| <= 1
    requires added != {} ==> old' <= seen && |seen| < 3
    ensures |new'| <= 3
  {
    SubsetCard(new', old' + added);
    if added == {} {
      assert old' + added == old';
    } else {
      SubsetCard(old', seen);
    }
  }

  lemma StepKeepsThree(acts: seq<Act>, s: System, m: Move)
    requires ThreeAtMost(acts, s)
    ensures ThreeAtMost(acts, StepOf(acts, s, m))
  {
    StepKeepsLock(acts, s, m);
    if m.Commit? && m.call < |acts| && s.at[m.call].Reading? {
      CommitKeepsThree(acts, s, m.call);
    }
    hide Committed, Perform;
  }

  /** The three-responder bound, over every interleaving of any number of calls of every handler. */
  lemma {:induction false} EveryScheduleKeepsThree(t: Tender, acts: seq<Act>, schedule: seq<Move>)
    requires |Transmitted(t.links)| <= 3
    ensures ThreeAtMost(acts, After(t, acts, schedule))
  {
    if schedule != [] {
      var front := schedule[..|schedule| - 1];
      EveryScheduleKeepsThree(t, acts, front);
      StepKeepsThree(acts, After(t, acts, front), schedule[|schedule| - 1]);
    }
  }

  // --- Orders -----------------------------------------------------------------------

  /** The orders of `orders` are of quotes that `quotes` shows accepted or refused. */
  ghost predicate Settled(orders: map<Id, Order>, quotes: map<Id, Quote>) {
    forall o :: o in orders ==>
      && orders[o].quote in quotes
      && (quotes[orders[o].quote].status == QuoteAccepted || quotes[orders[o].quote].status == QuoteRefused)
  }

  /** A lock holder has seen every order there is, and the quotes they settled. */
  ghost predicate SeenOrders(acts: seq<Act>, s: System) {
    && |s.at| == |acts|
    && forall k :: 0 <= k < |acts| && Locks(acts[k]) && s.at[k].Reading? ==>
         s.at[k].seen.orders == s.db.orders && Settled(s.at[k].seen.orders, s.at[k].seen.quotes)
  }

  /** What a call read of the quotes is older than the rows, which are never deleted. */
  ghost predicate SeenRows(acts: seq<Act>, s: System) {
    && |s.at| == |acts|
    && forall k :: 0 <= k < |acts| && s.at[k].Reading? ==>
         s.at[k].seen.quotes.Keys <= s.db.quotes.Keys && s.at[k].seen.orders.Keys <= s.db.orders.Keys
         && forall o :: o in s.at[k].seen.orders ==> s.at[k].seen.orders[o] == s.db.orders[o]
  }

  ghost predicate OrdersInStep(acts: seq<Act>, s: System) {
    LockHeld(acts, s) && SeenRows(acts, s) && SeenOrders(acts, s) && OrdersMatchQuotes(s.db)
  }

  lemma OnlyAcceptancesOrder(t: Tender, a: Act)
    requires !a.Accept?
    ensures Perform(t, a).0.orders == t.orders
  {
  }

  /** A status a call changes goes from draft to sent, or to refused; an acceptance also accepts one sent quote. */
  ghost predicate StatusMoves(before: map<Id, Quote>, after: map<Id, Quote>, a: Act) {
    && before.Keys <= after.Keys
    && (forall q :: q in before && after[q].status != before[q].status ==>
          || after[q].status == QuoteRefused
          || (a.Submit? && before[q].status == QuoteDraft && after[q].status == QuoteSent)
          || (a.Accept? && before[q].status == QuoteSent && after[q].status == QuoteAccepted && q == a.quote))
    && (forall q :: q in after && q !in before ==> after[q].status == QuoteDraft)
  }

  lemma AnswerMoves(t: Tender, a: Act)
    requires a.Submit?
    ensures StatusMoves(t.quotes, Perform(t, a).0.quotes, a)
  {
  }

  lemma AcceptanceMoves(t: Tender, a: Act)
    requires a.Accept?
    ensures StatusMoves(t.quotes, Perform(t, a).0.quotes, a)
  {
  }

  lemma StatusChanges(t: Tender, a: Act)
    ensures StatusMoves(t.quotes, Perform(t, a).0.quotes, a)
  {
    if a.Submit? {
      AnswerMoves(t, a);
    } else if a.Accept? {
      AcceptanceMoves(t, a);
    }
    hide SubmitTender, AcceptTender;
  }

  lemma AcceptanceOrders(t: Tender, a: Act)
    requires a.Accept? && Perform(t, a).0 != t
    ensures a.quote in t.quotes && t.quotes[a.quote].status == QuoteSent && a.newOrder !in t.orders
    ensures a.quote in Perform(t, a).0.quotes && Perform(t, a).0.quotes[a.quote].status == QuoteAccepted
    ensures Perform(t, a).0.orders == t.orders[a.newOrder := Order(a.quote, a.user)]
    ensures forall q :: q in Perform(t, a).0.quotes && q != a.quote
                        && Perform(t, a).0.quotes[q].status == QuoteAccepted ==>
              q in t.quotes && t.quotes[q].status == QuoteAccepted
  {
  }

  /** The committed quotes against those before: draft, sent and accepted only come where they may. */
  lemma MergedStatuses(s: System, acts: seq<Act>, k: nat, q: Id)
    requires OrdersInStep(acts, s) && k < |acts| && s.at[k].Reading?
    requires q in Committed(s, acts[k], k).quotes && q in s.db.quotes
    ensures var status := Committed(s, acts[k], k).quotes[q].status;
            || status == s.db.quotes[q].status
            || status == QuoteRefused
            || (status == QuoteSent && acts[k].Submit? && q in s.at[k].seen.quotes
                && s.at[k].seen.quotes[q].status == QuoteDraft)
            || (status == QuoteAccepted && acts[k].Accept? && q == acts[k].quote
                && q in s.at[k].seen.quotes && s.at[k].seen.quotes[q].status == QuoteSent)
  {
    StatusChanges(s.at[k].seen, acts[k]);
    hide Perform;
  }

  lemma CommitSettles(s: System, acts: seq<Act>, k: nat)
    requires OrdersInStep(acts, s) && k < |acts| && s.at[k].Reading?
    ensures s.db.quotes.Keys <= Committed(s, acts[k], k).quotes.Keys
    ensures Settled(s.db.orders, Committed(s, acts[k], k).quotes)
  {
    forall o | o in s.db.orders
      ensures Committed(s, acts[k], k).quotes[s.db.orders[o].quote].status == QuoteAccepted
              || Committed(s, acts[k], k).quotes[s.db.orders[o].quote].status == QuoteRefused
    {
      MergedStatuses(s, acts, k, s.db.orders[o].quote);
    }
  }

  lemma OtherCommitKeepsOrders(s: System, acts: seq<Act>, k: nat)
    requires OrdersInStep(acts, s) && k < |acts| && s.at[k].Reading?
    requires !acts[k].Accept? || Perform(s.at[k].seen, acts[k]).0 == s.at[k].seen
    ensures Committed(s, acts[k], k).orders == s.db.orders
    ensures OrdersMatchQuotes(Committed(s, acts[k], k))
  {
    var seen := s.at[k].seen;
    CommitSettles(s, acts, k);
    if !acts[k].Accept? {
      OnlyAcceptancesOrder(seen, acts[k]);
    }
    StatusChanges(seen, acts[k]);
    hide Perform;
    OtherWrite(s.db, seen, Perform(seen, acts[k]).0, acts[k]);
    hide Merged, StatusMoves;
    SameOrders(s.db, Committed(s, acts[k], k));
  }

  /** A commit without an order accepts nothing. */
  lemma OtherWrite(db: Tender, seen: Tender, after: Tender, a: Act)
    requires StatusMoves(seen.quotes, after.quotes, a) && seen.quotes.Keys <= db.quotes.Keys
    requires !a.Accept? || after == seen
    requires after.orders == seen.orders && seen.orders.Keys <= db.orders.Keys
    ensures var c := Merged(db, seen, after);
            && c.orders == db.orders
            && forall q :: q in c.quotes && c.quotes[q].status == QuoteAccepted ==>
                 q in db.quotes && db.quotes[q].status == QuoteAccepted
  {
  }

  lemma SameOrders(db: Tender, c: Tender)
    requires OrdersMatchQuotes(db) && c.orders == db.orders && Settled(db.orders, c.quotes)
    requires forall q :: q in c.quotes && c.quotes[q].status == QuoteAccepted ==>
               q in db.quotes && db.quotes[q].status == QuoteAccepted
    ensures OrdersMatchQuotes(c)
  {
    forall q | q in c.quotes && c.quotes[q].status == QuoteAccepted
      ensures exists o :: o in c.orders && c.orders[o].quote == q
    {
      var o :| o in db.orders && db.orders[o].quote == q;
      assert c.orders[o].quote == q;
    }
  }

  lemma AcceptanceKeepsOrders(s: System, acts: seq<Act>, k: nat)
    requires OrdersInStep(acts, s) && k < |acts| && s.at[k].Reading?
    requires acts[k].Accept? && Perform(s.at[k].seen, acts[k]).0 != s.at[k].seen
    ensures OrdersMatchQuotes(Committed(s, acts[k], k))
    ensures Committed(s, acts[k], k).orders == s.db.orders[acts[k].newOrder := Order(acts[k].quote, acts[k].user)]
  {
    var seen, a := s.at[k].seen, acts[k];
    CommitSettles(s, acts, k);
    AcceptanceOrders(seen, a);
    StatusChanges(seen, a);
    SeenAccepted(s, acts, k);
    hide Perform, OrdersInStep;
    AcceptedWrite(s.db, seen, Perform(seen, a).0, a);
    hide Merged, StatusMoves;
    OneMoreOrder(s.db, a.newOrder, a.quote, a.user, Committed(s, a, k));
  }

  /** Whoever holds the lock has seen every order, so the quote of none of them is a sent one. */
  lemma SeenAccepted(s: System, acts: seq<Act>, k: nat)
    requires OrdersInStep(acts, s) && k < |acts| && s.at[k].Reading? && acts[k].Accept?
    ensures var seen := s.at[k].seen;
            && seen.orders == s.db.orders && OrdersMatchQuotes(s.db) && seen.quotes.Keys <= s.db.quotes.Keys
            && forall o :: o in s.db.orders && s.db.orders[o].quote in seen.quotes ==>
                 seen.quotes[s.db.orders[o].quote].status != QuoteSent
  {
  }

  /** The commit of an acceptance adds its order and accepts its quote and no other. */
  lemma AcceptedWrite(db: Tender, seen: Tender, after: Tender, a: Act)
    requires a.Accept? && StatusMoves(seen.quotes, after.quotes, a)
    requires seen.orders == db.orders && a.newOrder !in db.orders
    requires after.orders == seen.orders[a.newOrder := Order(a.quote, a.user)]
    requires a.quote in db.quotes && a.quote in seen.quotes && seen.quotes[a.quote].status == QuoteSent
    requires a.quote in after.quotes && after.quotes[a.quote].status == QuoteAccepted
    ensures var c := Merged(db, seen, after);
            && c.orders == db.orders[a.newOrder := Order(a.quote, a.user)]
            && a.quote in c.quotes && c.quotes[a.quote].status == QuoteAccepted
            && forall q :: q in c.quotes && c.quotes[q].status == QuoteAccepted && q != a.quote ==>
                 q in db.quotes && db.quotes[q].status == QuoteAccepted
  {
  }

  /** A new order, of a quote that had none and is accepted now. */
  lemma OneMoreOrder(db: Tender, order: Id, quote: Id, user: Id, c: Tender)
    requires OrdersMatchQuotes(db) && Settled(db.orders, c.quotes) && order !in db.orders
    requires forall o :: o in db.orders ==> db.orders[o].quote != quote
    requires c.orders == db.orders[order := Order(quote, user)]
    requires quote in c.quotes && c.quotes[quote].status == QuoteAccepted
    requires forall q :: q in c.quotes && c.quotes[q].status == QuoteAccepted && q != quote ==>
               q in db.quotes && db.quotes[q].status == QuoteAccepted
    ensures OrdersMatchQuotes(c)
  {
    forall q | q in c.quotes && c.quotes[q].status == QuoteAccepted
      ensures exists o :: o in c.orders && c.orders[o].quote == q
    {
      if q == quote {
        assert c.orders[order].quote == q;
      } else {
        var o :| o in db.orders && db.orders[o].quote == q;
        assert c.orders[o].quote == q;
      }
    }
  }

  lemma CommitKeepsOrders(s: System, acts: seq<Act>, k: nat)
    requires OrdersInStep(acts, s) && k < |acts| && s.at[k].Reading?
    ensures var c := Committed(s, acts[k], k);
            && OrdersMatchQuotes(c) && s.db.quotes.Keys <= c.quotes.Keys && s.db.orders.Keys <= c.orders.Keys
            && (forall o :: o in s.db.orders ==> c.orders[o] == s.db.orders[o])
            && (!Locks(acts[k]) ==> c.orders == s.db.orders)
  {
    CommitSettles(s, acts, k);
    if acts[k].Accept? && Perform(s.at[k].seen, acts[k]).0 != s.at[k].seen {
      AcceptanceKeepsOrders(s, acts, k);
    } else {
      OtherCommitKeepsOrders(s, acts, k);
    }
  }

  lemma ReadingKeepsOrders(acts: seq<Act>, s: System, m: Move)
    requires OrdersInStep(acts, s) && !m.Commit?
    ensures OrdersInStep(acts, StepOf(acts, s, m))
  {
    StepKeepsLock(acts, s, m);
    hide LockHeld, Committed, QuotesLast;
  }

  /** Whoever else is reading has seen rows that are still there, and the lock holder every order. */
  lemma OthersHaveSeen(acts: seq<Act>, s: System, k: nat, after: System)
    requires LockHeld(acts, s) && SeenRows(acts, s) && SeenOrders(acts, s) && k < |acts| && s.at[k].Reading?
    requires after.at == s.at[k := Returned]
    requires s.db.quotes.Keys <= after.db.quotes.Keys && s.db.orders.Keys <= after.db.orders.Keys
    requires forall o :: o in s.db.orders ==> after.db.orders[o] == s.db.orders[o]
    requires !Locks(acts[k]) ==> after.db.orders == s.db.orders
    ensures SeenRows(acts, after) && SeenOrders(acts, after)
  {
    hide Settled;
  }

  lemma ReturningKeepsOrders(acts: seq<Act>, s: System, k: nat)
    requires OrdersInStep(acts, s) && k < |acts| && s.at[k].Reading?
    ensures OrdersInStep(acts, StepOf(acts, s, Commit(k)))
  {
    assert |s.at| == |acts|;
    hide Committed, OrdersMatchQuotes, LockHeld, SeenRows, SeenOrders;
    StepKeepsLock(acts, s, Commit(k));
    CommitKeepsOrders(s, acts, k);
    OthersHaveSeen(acts, s, k, StepOf(acts, s, Commit(k)));
  }

  lemma StepKeepsOrders(acts: seq<Act>, s: System, m: Move)
    requires OrdersInStep(acts, s)
    ensures OrdersInStep(acts, StepOf(acts, s, m))
  {
    if !m.Commit? {
      ReadingKeepsOrders(acts, s, m);
    } else if m.call < |acts| && s.at[m.call].Reading? {
      ReturningKeepsOrders(acts, s, m.call);
    }
    hide Committed, SeenOrders, SeenRows, OrdersMatchQuotes;
  }

  /**
   Orders and accepted quotes stay in step over every interleaving of any
   number of calls of every handler: each order is of a quote accepted or
   refused since, no quote has two, every accepted quote has one.
   */
  lemma {:induction false} EveryScheduleKeepsOrders(t: Tender, acts: seq<Act>, schedule: seq<Move>)
    requires OrdersMatchQuotes(t)
    ensures OrdersInStep(acts, After(t, acts, schedule))
  {
    if schedule != [] {
      var front := schedule[..|schedule| - 1];
      EveryScheduleKeepsOrders(t, acts, front);
      StepKeepsOrders(acts, After(t, acts, front), schedule[|schedule| - 1]);
    }
  }
}
