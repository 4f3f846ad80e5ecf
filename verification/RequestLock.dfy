/**
 `submit_quote` and `accept_quote` as concurrent transactions.

 Each call locks the request row (`SELECT ... FOR UPDATE`), reads quotes and
 links in separate statements, prepares its writes and commits, which releases
 the lock. Steps of any number of calls interleave freely; a statement sees
 what is committed when it runs.
 */
module RequestLock {
  import opened Tenders
  import opened TenderSafety

  /** One call to `submit_quote` or `accept_quote` on one request. */
  datatype Call = Call(request: Id, act: Act)

  predicate Locking(c: Call) {
    c.act.Submit? || c.act.Accept?
  }

  /** How far a call has gone, with what it has read so far. */
  datatype Progress =
    | Waiting
    | Locked(row: Tender)
    | ReadQuotes(row: Tender)
    | ReadLinks(row: Tender)
    | Prepared(row: Tender, reply: Reply)
    | Returned(reply: Reply)

  /** `committed` is the database, `locks` says which call holds a request, `order` who locked first. */
  datatype System = System(committed: Market, calls: seq<Call>, at: seq<Progress>, locks: map<Id, nat>, order: seq<nat>)

  predicate WellFormed(s: System) {
    && |s.at| == |s.calls|
    && (forall k :: 0 <= k < |s.calls| ==> s.calls[k].request in s.committed && Locking(s.calls[k]))
  }

  ghost predicate Begin(s: System) {
    && WellFormed(s) && s.locks == map[] && s.order == []
    && (forall k :: 0 <= k < |s.at| ==> s.at[k] == Waiting)
  }

  /** The request row alone: what the locking SELECT returns. */
  function RowOnly(t: Tender): Tender {
    t.(links := map[], quotes := map[], orders := map[])
  }

  /** The next step of call k, when it may take one. */
  ghost predicate CanStep(s: System, k: nat) {
    && k < |s.calls| && |s.at| == |s.calls| && s.calls[k].request in s.committed
    && !s.at[k].Returned?
    && (s.at[k].Waiting? ==> s.calls[k].request !in s.locks)
  }

  ghost function StepOf(s: System, k: nat): System
    requires CanStep(s, k)
  {
    var r := s.calls[k].request;
    var now := s.committed[r];
    match s.at[k]
    case Waiting =>
      s.(at := s.at[k := Locked(RowOnly(now))], locks := s.locks[r := k], order := s.order + [k])
    case Locked(row) =>
      s.(at := s.at[k := ReadQuotes(row.(quotes := now.quotes, orders := now.orders))])
    case ReadQuotes(row) =>
      s.(at := s.at[k := ReadLinks(row.(links := now.links))])
    case ReadLinks(row) =>
      var (written, reply) := Perform(row, s.calls[k].act);
      s.(at := s.at[k := Prepared(written, reply)])
    case Prepared(written, reply) =>
      s.(committed := s.committed[r := written], at := s.at[k := Returned(reply)], locks := s.locks - {r})
    case Returned(_) => s
  }

  /** A schedule says which call moves next. */
  ghost predicate Runs(s: System, schedule: seq<nat>) {
    if schedule == [] then true
    else Runs(s, schedule[..|schedule| - 1]) && CanStep(After(s, schedule[..|schedule| - 1]), schedule[|schedule| - 1])
  }

  ghost function After(s: System, schedule: seq<nat>): System {
    if schedule == [] then s
    else
      var mid := After(s, schedule[..|schedule| - 1]);
      var k := schedule[|schedule| - 1];
      if CanStep(mid, k) then StepOf(mid, k) else mid
  }

  // --- The serial run ---------------------------------------------------------

  /** The calls one after the other, each a single transaction. */
  ghost function Serial(m: Market, calls: seq<Call>, order: seq<nat>): Market {
    if order == [] then m
    else
      var mid := Serial(m, calls, order[..|order| - 1]);
      var k := order[|order| - 1];
      if k < |calls| then Step(mid, On(calls[k].request, calls[k].act)) else mid
  }

  lemma {:induction false} SerialKeepsRequests(m: Market, calls: seq<Call>, order: seq<nat>)
    ensures Serial(m, calls, order).Keys == m.Keys
  {
    if order != [] {
      SerialKeepsRequests(m, calls, order[..|order| - 1]);
    }
  }

  lemma SerialOneMore(m: Market, calls: seq<Call>, order: seq<nat>, k: nat)
    requires k < |calls|
    ensures Serial(m, calls, order + [k])
         == Step(Serial(m, calls, order), On(calls[k].request, calls[k].act))
  {
    assert (order + [k])[..|order|] == order;
  }

  // --- The invariant ----------------------------------------------------------

  predicate Working(at: Progress) {
    !at.Waiting? && !at.Returned?
  }

  /** Between its lock and its commit a call has read, and prepared, what one transaction on `t` would. */
  ghost predicate ReadsOf(t: Tender, act: Act, at: Progress) {
    match at
    case Waiting => false
    case Locked(row) => row == RowOnly(t)
    case ReadQuotes(row) => row == RowOnly(t).(quotes := t.quotes, orders := t.orders)
    case ReadLinks(row) => row == t
    case Prepared(written, reply) => (written, reply) == Perform(t, act)
    case Returned(_) => false
  }

  ghost predicate LocksOk(s: System) {
    && (forall r :: r in s.locks ==>
          && r in s.committed && s.locks[r] < |s.calls| && s.locks[r] < |s.at|
          && s.calls[s.locks[r]].request == r
          && ReadsOf(s.committed[r], s.calls[s.locks[r]].act, s.at[s.locks[r]]))
    && (forall k :: 0 <= k < |s.at| && k < |s.calls| && Working(s.at[k]) ==>
          s.calls[k].request in s.locks && s.locks[s.calls[k].request] == k)
  }

  /** The database as it will be once every lock holder has committed. */
  ghost function Settled(s: System): Market
    requires LocksOk(s)
  {
    map r | r in s.committed ::
      if r in s.locks then Perform(s.committed[r], s.calls[s.locks[r]].act).0 else s.committed[r]
  }

  /** The p-th call to lock saw, and answered from, the state the serial run gives it. */
  ghost predicate Served(m: Market, s: System, p: nat) {
    && p < |s.order| && s.order[p] < |s.calls| && s.order[p] < |s.at|
    && var k := s.order[p];
    && var before := Serial(m, s.calls, s.order[..p]);
    && s.calls[k].request in before && s.calls[k].request in s.committed
    && !s.at[k].Waiting?
    && (s.at[k].Returned? ==> s.at[k].reply == Perform(before[s.calls[k].request], s.calls[k].act).1)
    && (Working(s.at[k]) ==> s.committed[s.calls[k].request] == before[s.calls[k].request])
  }

  ghost predicate OrderOk(s: System) {
    && (forall p, q :: 0 <= p < q < |s.order| ==> s.order[p] != s.order[q])
    && (forall k :: 0 <= k < |s.at| ==> (k in s.order <==> !s.at[k].Waiting?))
  }

  ghost predicate Inv(m: Market, s: System) {
    && WellFormed(s) && OrderOk(s) && LocksOk(s)
    && Settled(s) == Serial(m, s.calls, s.order)
    && (forall p :: 0 <= p < |s.order| ==> Served(m, s, p))
  }

  lemma LockKeepsLocks(s: System, k: nat)
    requires WellFormed(s) && LocksOk(s) && CanStep(s, k) && s.at[k].Waiting?
    ensures LocksOk(StepOf(s, k))
  {
    hide RowOnly, Perform;
  }

  lemma LockSettles(s: System, k: nat)
    requires WellFormed(s) && LocksOk(s) && CanStep(s, k) && s.at[k].Waiting?
    ensures var s' := StepOf(s, k);
            LocksOk(s') && Settled(s') == Step(Settled(s), On(s.calls[k].request, s.calls[k].act))
  {
    var s', r := StepOf(s, k), s.calls[k].request;
    LockKeepsLocks(s, k);
    var after := Perform(s.committed[r], s.calls[k].act).0;
    hide LocksOk, RowOnly, Perform;
    assert Settled(s)[r] == s.committed[r];
    assert Settled(s') == Settled(s)[r := after];
  }

  lemma LockServes(m: Market, s: System, k: nat, p: nat)
    requires Inv(m, s) && CanStep(s, k) && s.at[k].Waiting? && p <= |s.order|
    ensures Served(m, StepOf(s, k), p)
  {
    var s' := StepOf(s, k);
    SerialKeepsRequests(m, s.calls, s.order);
    assert s'.order[..p] == s.order[..p];
    if p < |s.order| {
      assert Served(m, s, p);
    } else {
      assert s.order[..p] == s.order;
      assert Settled(s)[s.calls[k].request] == s.committed[s.calls[k].request];
    }
  }

  lemma LockKeepsInv(m: Market, s: System, k: nat)
    requires Inv(m, s) && CanStep(s, k) && s.at[k].Waiting?
    ensures Inv(m, StepOf(s, k))
  {
    hide LocksOk, Perform;
    LockSettles(s, k);
    SerialOneMore(m, s.calls, s.order, k);
    forall p | 0 <= p < |s.order| + 1 ensures Served(m, StepOf(s, k), p) {
      LockServes(m, s, k, p);
    }
  }

  predicate Reads(at: Progress) {
    at.Locked? || at.ReadQuotes? || at.ReadLinks?
  }

  lemma ReadSettles(s: System, k: nat)
    requires WellFormed(s) && LocksOk(s) && CanStep(s, k) && Reads(s.at[k])
    ensures LocksOk(StepOf(s, k)) && Settled(StepOf(s, k)) == Settled(s)
  {
    hide Perform;
    var s' := StepOf(s, k);
    assert s.locks[s.calls[k].request] == k;
    assert LocksOk(s');
  }

  lemma ReadServes(m: Market, s: System, k: nat, p: nat)
    requires Inv(m, s) && CanStep(s, k) && Reads(s.at[k]) && p < |s.order|
    ensures Served(m, StepOf(s, k), p)
  {
    assert Served(m, s, p);
  }

  /** Reading and preparing commit nothing. */
  lemma ReadKeepsInv(m: Market, s: System, k: nat)
    requires Inv(m, s) && CanStep(s, k) && Reads(s.at[k])
    ensures Inv(m, StepOf(s, k))
  {
    hide Perform, ReadsOf;
    var s' := StepOf(s, k);
    ReadSettles(s, k);
    assert s'.order == s.order && s'.calls == s.calls;
    forall p | 0 <= p < |s'.order| ensures Served(m, s', p) {
      ReadServes(m, s, k, p);
    }
  }

  lemma CommitSettles(s: System, k: nat)
    requires WellFormed(s) && LocksOk(s) && CanStep(s, k) && s.at[k].Prepared?
    ensures LocksOk(StepOf(s, k)) && Settled(StepOf(s, k)) == Settled(s)
  {
    hide Perform;
    var s', r := StepOf(s, k), s.calls[k].request;
    assert s.locks[r] == k;
    assert LocksOk(s');
  }

  lemma CommitServes(m: Market, s: System, k: nat, p: nat)
    requires Inv(m, s) && CanStep(s, k) && s.at[k].Prepared? && p < |s.order|
    ensures Served(m, StepOf(s, k), p)
  {
    hide Perform;
    assert Served(m, s, p);
    assert s.locks[s.calls[k].request] == k;
  }

  lemma CommitKeepsInv(m: Market, s: System, k: nat)
    requires Inv(m, s) && CanStep(s, k) && s.at[k].Prepared?
    ensures Inv(m, StepOf(s, k))
  {
    var s' := StepOf(s, k);
    CommitSettles(s, k);
    assert s'.order == s.order && s'.calls == s.calls;
    forall p | 0 <= p < |s'.order| ensures Served(m, s', p) {
      CommitServes(m, s, k, p);
    }
  }

  lemma StepKeepsInv(m: Market, s: System, k: nat)
    requires Inv(m, s) && CanStep(s, k)
    ensures Inv(m, StepOf(s, k)) && StepOf(s, k).calls == s.calls
  {
    hide Inv;
    match s.at[k]
    case Waiting => LockKeepsInv(m, s, k);
    case Locked(_) => ReadKeepsInv(m, s, k);
    case ReadQuotes(_) => ReadKeepsInv(m, s, k);
    case ReadLinks(_) => ReadKeepsInv(m, s, k);
    case Prepared(_, _) => CommitKeepsInv(m, s, k);
  }

  lemma BeginKeepsInv(s: System)
    requires Begin(s)
    ensures Inv(s.committed, s)
  {
    assert Settled(s) == s.committed;
  }

  lemma {:induction false} EveryScheduleKeepsInv(s: System, schedule: seq<nat>)
    requires Begin(s) && Runs(s, schedule)
    ensures Inv(s.committed, After(s, schedule)) && After(s, schedule).calls == s.calls
  {
    hide Inv, StepOf, CanStep;
    if schedule == [] {
      BeginKeepsInv(s);
    } else {
      var front, k := schedule[..|schedule| - 1], schedule[|schedule| - 1];
      EveryScheduleKeepsInv(s, front);
      StepKeepsInv(s.committed, After(s, front), k);
    }
  }

  ghost predicate AllReturned(s: System) {
    forall k :: 0 <= k < |s.at| ==> s.at[k].Returned?
  }

  /** Every call exactly once. */
  ghost predicate OnceEach(order: seq<nat>, n: nat) {
    && (forall p, q :: 0 <= p < q < |order| ==> order[p] != order[q])
    && (forall k :: 0 <= k < n ==> k in order)
    && (forall p :: 0 <= p < |order| ==> order[p] < n)
  }

  /**
   Serialisability: whatever the interleaving, the calls leave the database,
   and get the replies, of the serial run in the order they took their locks.
   */
  lemma Serialisability(s: System, schedule: seq<nat>)
    requires Begin(s) && Runs(s, schedule) && AllReturned(After(s, schedule))
    ensures var end := After(s, schedule);
            && OnceEach(end.order, |s.calls|)
            && end.committed == Serial(s.committed, s.calls, end.order)
            && forall p :: 0 <= p < |end.order| ==> Served(s.committed, end, p)
  {
    EveryScheduleKeepsInv(s, schedule);
    NobodyHolds(After(s, schedule));
    ServedOnceEach(s.committed, After(s, schedule));
  }

  /** When every call has returned no lock is held and nothing is left to commit. */
  lemma NobodyHolds(s: System)
    requires LocksOk(s) && AllReturned(s)
    ensures Settled(s) == s.committed
  {
    forall r ensures r !in s.locks {
    }
  }

  lemma ServedOnceEach(m: Market, s: System)
    requires Inv(m, s) && AllReturned(s)
    ensures OnceEach(s.order, |s.calls|)
  {
    forall p | 0 <= p < |s.order| ensures s.order[p] < |s.calls| {
      assert Served(m, s, p);
    }
  }

  /** No deadlock: as long as a call has not returned, some call can move. */
  lemma SomeoneCanMove(m: Market, s: System, k: nat)
    requires Inv(m, s) && k < |s.at| && !s.at[k].Returned?
    ensures exists j :: CanStep(s, j)
  {
    var r := s.calls[k].request;
    if s.at[k].Waiting? && r in s.locks {
      assert CanStep(s, s.locks[r]);
    } else {
      assert CanStep(s, k);
    }
  }

  lemma {:induction false} SerialKeepsSound(m: Market, calls: seq<Call>, order: seq<nat>)
    requires MarketSound(m)
    ensures MarketSound(Serial(m, calls, order))
  {
    if order != [] {
      var k := order[|order| - 1];
      SerialKeepsSound(m, calls, order[..|order| - 1]);
      if k < |calls| {
        StepKeepsSound(Serial(m, calls, order[..|order| - 1]), On(calls[k].request, calls[k].act));
      }
    }
  }

  /** So concurrent answers and acceptances cannot slip past the three-responder rule or order twice from a quote. */
  lemma ConcurrentCallsKeepSound(s: System, schedule: seq<nat>)
    requires Begin(s) && Runs(s, schedule) && AllReturned(After(s, schedule)) && MarketSound(s.committed)
    ensures MarketSound(After(s, schedule).committed)
  {
    Serialisability(s, schedule);
    SerialKeepsSound(s.committed, s.calls, After(s, schedule).order);
  }
}
