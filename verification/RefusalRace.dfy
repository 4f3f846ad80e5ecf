/**
 `refuse_quote` takes no lock: one refusal and one acceptance on a request, as
 two concurrent transactions.

 The refusal writes its quote row first, counts the quotes still sent, then
 commits, with the request row when none is left. The acceptance locks the
 request row and checks, then writes and commits. Uncommitted rows are locked
 and seen by nobody else; a writer of such a row waits. The acceptance's writes
 and its commit are one step, as nothing sees them in between.
 */
module RefusalRace {
  import opened Tenders

  datatype Calls = Calls(refuser: Id, refused: Id, accepter: Id, accepted: Id, order: Id, user: Id, today: Day)

  datatype RefuseAt = NotRead | RowWritten | Counted(none: bool) | RefuseReturned(reply: Reply)

  datatype AcceptAt = NotLocked | Checked | AcceptReturned(reply: Reply)

  datatype Race = Race(db: Tender, refuse: RefuseAt, accept: AcceptAt)

  function Refusal(t: Tender, c: Calls): (Tender, Reply) {
    RefuseTender(t, c.refuser, c.refused)
  }

  function Acceptance(t: Tender, c: Calls): (Tender, Reply) {
    AcceptTender(t, c.accepter, c.accepted, c.order, c.user, c.today)
  }

  /** The refusal holds a row it has not committed. */
  predicate Pending(at: RefuseAt) {
    at.RowWritten? || at.Counted?
  }

  /** What the refusal's count finds: its own row, and what is committed. */
  predicate NoneLeft(t: Tender, q: Id) {
    SentQuotes(t.quotes) - {q} == {}
  }

  /** The rows the refusal commits. */
  function RefusedRows(t: Tender, q: Id, none: bool): Tender {
    t.(quotes := RefuseQuotes(t.quotes, {q}), status := if none then QuotesRefused else t.status)
  }

  /** The rows the acceptance commits, whatever its check saw. */
  function AwardedRows(t: Tender, c: Calls): Tender
    requires c.accepted in t.quotes
  {
    var others := SentQuotes(t.quotes) - {c.accepted};
    t.(quotes := RefuseQuotes(t.quotes[c.accepted := t.quotes[c.accepted].(status := QuoteAccepted)], others),
       orders := t.orders[c.order := Order(c.accepted, c.user)],
       links := CloseLinks(t.links, Losers(t.links, t.quotes[c.accepted].caterer)),
       status := Completed)
  }

  lemma RowsAreTheHandlers(t: Tender, c: Calls)
    ensures Refusal(t, c).1 == Done ==> Refusal(t, c).0 == RefusedRows(t, c.refused, NoneLeft(t, c.refused))
    ensures Acceptance(t, c).1 == Done ==> c.accepted in t.quotes && Acceptance(t, c).0 == AwardedRows(t, c)
  {
    assert SentQuotes(RefuseQuotes(t.quotes, {c.refused})) == SentQuotes(t.quotes) - {c.refused};
  }

  /** The row of the refused quote is one the acceptance writes. */
  predicate SameRow(t: Tender, c: Calls) {
    c.refused == c.accepted || c.refused in SentQuotes(t.quotes)
  }

  function StepRefuse(s: Race, c: Calls): Race {
    match s.refuse
    case NotRead =>
      s.(refuse := if Refusal(s.db, c).1 == Done then RowWritten else RefuseReturned(Refusal(s.db, c).1))
    case RowWritten => s.(refuse := Counted(NoneLeft(s.db, c.refused)))
    case Counted(none) =>
      if none && s.accept.Checked? then s
      else s.(db := RefusedRows(s.db, c.refused, none), refuse := RefuseReturned(Done))
    case RefuseReturned(_) => s
  }

  function StepAccept(s: Race, c: Calls): Race {
    match s.accept
    case NotLocked =>
      s.(accept := if Acceptance(s.db, c).1 == Done then Checked else AcceptReturned(Acceptance(s.db, c).1))
    case Checked =>
      if c.accepted !in s.db.quotes || (Pending(s.refuse) && SameRow(s.db, c)) then s
      else s.(db := AwardedRows(s.db, c), accept := AcceptReturned(Done))
    case AcceptReturned(_) => s
  }

  datatype Who = Refuser | Accepter

  function StepOf(s: Race, c: Calls, who: Who): Race {
    if who.Refuser? then StepRefuse(s, c) else StepAccept(s, c)
  }

  function After(t: Tender, c: Calls, schedule: seq<Who>): Race {
    if schedule == [] then Race(t, NotRead, NotLocked)
    else StepOf(After(t, c, schedule[..|schedule| - 1]), c, schedule[|schedule| - 1])
  }

  // --- Serial outcomes ----------------------------------------------------------

  datatype Outcome = Outcome(db: Tender, refusal: Reply, acceptance: Reply)

  function RefuseFirst(t: Tender, c: Calls): Outcome {
    var (mid, refusal) := Refusal(t, c);
    var (end, acceptance) := Acceptance(mid, c);
    Outcome(end, refusal, acceptance)
  }

  function AcceptFirst(t: Tender, c: Calls): Outcome {
    var (mid, acceptance) := Acceptance(t, c);
    var (end, refusal) := Refusal(mid, c);
    Outcome(end, refusal, acceptance)
  }

  predicate BothReturned(s: Race) {
    s.refuse.RefuseReturned? && s.accept.AcceptReturned?
  }

  predicate SerialEnd(t: Tender, c: Calls, s: Race) {
    BothReturned(s) ==>
      var end := Outcome(s.db, s.refuse.reply, s.accept.reply);
      end == RefuseFirst(t, c) || end == AcceptFirst(t, c)
  }

  /** The two calls meet on one quote that is not the only one left. */
  predicate Clash(t: Tender, c: Calls) {
    && Refusal(t, c).1 == Done && Acceptance(t, c).1 == Done
    && c.refused == c.accepted && !NoneLeft(t, c.refused)
  }

  // --- The invariant --------------------------------------------------------------

  /** A refusal under way, against the committed rows `t` it has read. */
  ghost predicate RefusingOn(t: Tender, c: Calls, at: RefuseAt) {
    && (Pending(at) ==> Refusal(t, c).1 == Done)
    && (at.Counted? ==> at.none == NoneLeft(t, c.refused))
  }

  ghost predicate Inv(t: Tender, c: Calls, s: Race) {
    match s.accept
    case NotLocked =>
      if s.refuse.RefuseReturned? then (s.db, s.refuse.reply) == Refusal(t, c)
      else s.db == t && RefusingOn(t, c, s.refuse)
    case Checked =>
      if s.refuse.RefuseReturned? then (s.db, s.refuse.reply) == Refusal(t, c)
          && (Acceptance(s.db, c).1 == Done || Clash(t, c))
      else s.db == t && Acceptance(t, c).1 == Done && RefusingOn(t, c, s.refuse)
    case AcceptReturned(reply) =>
      if s.refuse.RefuseReturned? then SerialEnd(t, c, s) || Clash(t, c)
      else
        && (s.db, reply) == Acceptance(t, c)
        && (RefusingOn(s.db, c, s.refuse)
            || (Acceptance(t, c).1 == Done && c.refused != c.accepted && RefusingOn(t, c, s.refuse)))
  }

  /** On different quotes the acceptance passes its check before and after the refusal, and leaves the same rows. */
  lemma DifferentQuotesCommute(t: Tender, c: Calls)
    requires Refusal(t, c).1 == Done && Acceptance(t, c).1 == Done && c.refused != c.accepted
    ensures !NoneLeft(t, c.refused)
    ensures Acceptance(Refusal(t, c).0, c).1 == Done
    ensures RefusedRows(Acceptance(t, c).0, c.refused, false) == Acceptance(Refusal(t, c).0, c).0
  {
    RowsAreTheHandlers(t, c);
    assert c.accepted in SentQuotes(t.quotes) - {c.refused};
    RowsAreTheHandlers(Refusal(t, c).0, c);
    RowsCommute(t, c);
  }

  /** Row by row the two writes commute when they are about different quotes. */
  lemma RowsCommute(t: Tender, c: Calls)
    requires c.accepted in t.quotes && c.refused != c.accepted
    ensures c.accepted in RefusedRows(t, c.refused, false).quotes
    ensures RefusedRows(AwardedRows(t, c), c.refused, false) == AwardedRows(RefusedRows(t, c.refused, false), c)
  {
    var mid := RefusedRows(t, c.refused, false);
    assert SentQuotes(mid.quotes) == SentQuotes(t.quotes) - {c.refused};
    var a, b := RefusedRows(AwardedRows(t, c), c.refused, false), AwardedRows(mid, c);
    forall q | q in t.quotes ensures a.quotes[q] == b.quotes[q] {
    }
    assert a.quotes == b.quotes;
  }

  lemma RefuseKeepsInv(t: Tender, c: Calls, s: Race)
    requires Inv(t, c, s)
    ensures Inv(t, c, StepRefuse(s, c))
  {
    if s.refuse.Counted? && s.accept.AcceptReturned? {
      LateCommitIsSerial(t, c, s);
    } else if s.refuse.Counted? {
      CommitKeepsInv(t, c, s);
    } else {
      RowsAreTheHandlers(s.db, c);
    }
    hide Refusal, Acceptance, RefusedRows, AwardedRows;
  }

  /** The refusal commits before the acceptance does. */
  lemma CommitKeepsInv(t: Tender, c: Calls, s: Race)
    requires Inv(t, c, s) && s.refuse.Counted? && !s.accept.AcceptReturned?
    ensures Inv(t, c, StepRefuse(s, c))
  {
    RowsAreTheHandlers(t, c);
    if s.accept.Checked? && c.refused != c.accepted {
      DifferentQuotesCommute(t, c);
    }
    hide Refusal, Acceptance, RefusedRows, AwardedRows;
  }

  /** The refusal commits after the acceptance returned. */
  lemma LateCommitIsSerial(t: Tender, c: Calls, s: Race)
    requires Inv(t, c, s) && s.refuse.Counted? && s.accept.AcceptReturned?
    ensures SerialEnd(t, c, StepRefuse(s, c))
  {
    RowsAreTheHandlers(s.db, c);
    if RefusingOn(s.db, c, s.refuse) {
      assert StepRefuse(s, c).db == AcceptFirst(t, c).db;
    } else {
      DifferentQuotesCommute(t, c);
      assert StepRefuse(s, c).db == RefuseFirst(t, c).db;
    }
  }

  lemma AcceptKeepsInv(t: Tender, c: Calls, s: Race)
    requires Inv(t, c, s)
    ensures Inv(t, c, StepAccept(s, c))
  {
    RowsAreTheHandlers(s.db, c);
    if s.accept.Checked? && s.refuse.RefuseReturned? && Acceptance(s.db, c).1 == Done {
      assert StepAccept(s, c).db == RefuseFirst(t, c).db;
    }
  }

  lemma {:induction false} EveryScheduleKeepsInv(t: Tender, c: Calls, schedule: seq<Who>)
    ensures Inv(t, c, After(t, c, schedule))
  {
    if schedule != [] {
      var front := schedule[..|schedule| - 1];
      EveryScheduleKeepsInv(t, c, front);
      RefuseKeepsInv(t, c, After(t, c, front));
      AcceptKeepsInv(t, c, After(t, c, front));
    }
  }

  // --- The two results --------------------------------------------------------------

  lemma OneMoreStep(t: Tender, c: Calls, schedule: seq<Who>, who: Who)
    ensures After(t, c, schedule + [who]) == StepOf(After(t, c, schedule), c, who)
  {
    assert (schedule + [who])[..|schedule|] == schedule;
  }

  const CLASHING: seq<Who> := [Accepter, Refuser, Refuser, Refuser, Accepter]

  /** The acceptance has checked, the refusal has counted. */
  lemma ClashHalfWay(t: Tender, c: Calls)
    requires Clash(t, c)
    ensures After(t, c, [Accepter, Refuser, Refuser]) == Race(t, Counted(false), Checked)
  {
    hide Acceptance, Refusal;
    OneMoreStep(t, c, [], Accepter);
    OneMoreStep(t, c, [Accepter], Refuser);
    OneMoreStep(t, c, [Accepter, Refuser], Refuser);
    assert [] + [Accepter] == [Accepter];
    assert [Accepter] + [Refuser] == [Accepter, Refuser];
    assert [Accepter, Refuser] + [Refuser] == [Accepter, Refuser, Refuser];
  }

  /** The acceptance checks a quote, its refusal commits, and the acceptance writes over it. */
  lemma ClashEnds(t: Tender, c: Calls)
    requires Clash(t, c)
    ensures After(t, c, CLASHING)
         == Race(AwardedRows(RefusedRows(t, c.refused, false), c), RefuseReturned(Done), AcceptReturned(Done))
  {
    RefusedRowsKeepQuotes(t, c);
    hide Acceptance, Refusal, After, RefusedRows, AwardedRows;
    ClashHalfWay(t, c);
    OneMoreStep(t, c, [Accepter, Refuser, Refuser], Refuser);
    OneMoreStep(t, c, [Accepter, Refuser, Refuser, Refuser], Accepter);
    assert [Accepter, Refuser, Refuser] + [Refuser] == [Accepter, Refuser, Refuser, Refuser];
    assert [Accepter, Refuser, Refuser, Refuser] + [Accepter] == CLASHING;
  }

  lemma RefusedRowsKeepQuotes(t: Tender, c: Calls)
    requires Acceptance(t, c).1 == Done
    ensures c.accepted in t.quotes && c.accepted in RefusedRows(t, c.refused, false).quotes
  {
  }

  /** A refused quote is accepted and ordered, and both callers are told it went well: no serial run does that. */
  lemma ClashIsNotSerial(t: Tender, c: Calls)
    requires Clash(t, c)
    ensures var end := After(t, c, CLASHING);
            && BothReturned(end) && !SerialEnd(t, c, end)
            && c.accepted in end.db.quotes && end.db.quotes[c.accepted].status == QuoteAccepted
            && c.order in end.db.orders && end.db.orders[c.order].quote == c.accepted
  {
    ClashEnds(t, c);
    RowsAreTheHandlers(t, c);
    var end := After(t, c, CLASHING);
    assert end.db.quotes[c.accepted].status == QuoteAccepted;
    assert RefuseFirst(t, c).acceptance != Done;
    assert AcceptFirst(t, c).db.quotes[c.accepted].status == QuoteRefused;
  }

  /** Every schedule that ends, ends as one of the two serial runs, if and only if the calls do not clash. */
  lemma SerialisableIff(t: Tender, c: Calls)
    ensures (forall schedule :: SerialEnd(t, c, After(t, c, schedule))) <==> !Clash(t, c)
  {
    if Clash(t, c) {
      ClashIsNotSerial(t, c);
    } else {
      forall schedule ensures SerialEnd(t, c, After(t, c, schedule)) {
        EveryScheduleKeepsInv(t, c, schedule);
      }
    }
  }

  /** Neither call can go on and one has not returned: the database breaks such a wait by failing one of them. */
  predicate Stuck(s: Race, c: Calls) {
    !BothReturned(s) && StepRefuse(s, c) == s && StepAccept(s, c) == s
  }

  predicate LastQuote(t: Tender, c: Calls) {
    && Refusal(t, c).1 == Done && Acceptance(t, c).1 == Done
    && c.refused == c.accepted && NoneLeft(t, c.refused)
  }

  ghost predicate StuckAfter(t: Tender, c: Calls, schedule: seq<Who>) {
    Stuck(After(t, c, schedule), c)
  }

  /** The calls can wait for each other if and only if they meet on the last quote sent. */
  lemma StuckIff(t: Tender, c: Calls)
    ensures (exists schedule :: StuckAfter(t, c, schedule)) <==> LastQuote(t, c)
  {
    if LastQuote(t, c) {
      LastQuoteSticks(t, c);
      assert StuckAfter(t, c, [Refuser, Refuser, Accepter]);
    }
    forall schedule | StuckAfter(t, c, schedule) ensures LastQuote(t, c) {
      EveryScheduleKeepsInv(t, c, schedule);
      StuckOnLastQuote(t, c, After(t, c, schedule));
    }
  }

  lemma StuckOnLastQuote(t: Tender, c: Calls, s: Race)
    requires Inv(t, c, s) && Stuck(s, c)
    ensures LastQuote(t, c)
  {
    RowsAreTheHandlers(s.db, c);
    if s.refuse.RefuseReturned? {
      assert false;
    } else {
      assert s.refuse.Counted? && s.refuse.none && s.accept.Checked?;
      assert c.accepted in SentQuotes(t.quotes) && c.accepted !in SentQuotes(t.quotes) - {c.refused};
    }
  }

  lemma LastQuoteSticks(t: Tender, c: Calls)
    requires LastQuote(t, c)
    ensures Stuck(After(t, c, [Refuser, Refuser, Accepter]), c)
  {
    OneMoreStep(t, c, [], Refuser);
    OneMoreStep(t, c, [Refuser], Refuser);
    OneMoreStep(t, c, [Refuser, Refuser], Accepter);
    assert [] + [Refuser] == [Refuser];
    assert [Refuser] + [Refuser] == [Refuser, Refuser];
    assert [Refuser, Refuser] + [Accepter] == [Refuser, Refuser, Accepter];
  }
}
