/**
 Two calls of one caterer at the same time, in the system of `ReadCommitted`:
 `quote_update` or `request_reject`, which take no lock, against `submit_quote`.
 */
module LateWrites {
  import opened Wrappers
  import opened Tenders
  import opened TenderSafety
  import opened ReadCommitted

  lemma OneMoreMove(t: Tender, acts: seq<Act>, schedule: seq<Move>, m: Move)
    ensures After(t, acts, schedule + [m]) == StepOf(acts, After(t, acts, schedule), m)
  {
    assert (schedule + [m])[..|schedule|] == schedule;
  }

  /** Both read, the answer commits, then the other call. */
  const LATE: seq<Move> := [Start(0), Start(1), Commit(1), Commit(0)]

  /** The other call has read, the answer is committed. */
  const ANSWERED: seq<Move> := [Start(0), Start(1), Commit(1)]

  /** The rows after the answer, and after the late write over them. */
  ghost function AnsweredRows(t: Tender, acts: seq<Act>): Tender
    requires |acts| == 2
  {
    Merged(t, t, Perform(t, acts[1]).0)
  }

  ghost function LateRows(t: Tender, acts: seq<Act>): Tender
    requires |acts| == 2
  {
    Merged(AnsweredRows(t, acts), t, Perform(t, acts[0]).0)
  }

  lemma BothRead(t: Tender, acts: seq<Act>)
    requires |acts| == 2 && !Locks(acts[0]) && Locks(acts[1])
    ensures After(t, acts, [Start(0), Start(1)]) == System(t, [Reading(t), Reading(t)], Some(1))
  {
    OneMoreMove(t, acts, [], Start(0));
    OneMoreMove(t, acts, [Start(0)], Start(1));
    assert [] + [Start(0)] == [Start(0)];
    assert [Start(0)] + [Start(1)] == [Start(0), Start(1)];
  }

  lemma LateEnds(t: Tender, acts: seq<Act>)
    requires |acts| == 2 && !Locks(acts[0]) && Locks(acts[1])
    ensures After(t, acts, ANSWERED) == System(AnsweredRows(t, acts), [Reading(t), Returned], None)
    ensures After(t, acts, LATE) == System(LateRows(t, acts), [Returned, Returned], None)
  {
    hide Perform, Merged, After;
    BothRead(t, acts);
    OneMoreMove(t, acts, [Start(0), Start(1)], Commit(1));
    OneMoreMove(t, acts, ANSWERED, Commit(0));
    assert [Start(0), Start(1)] + [Commit(1)] == ANSWERED;
    assert ANSWERED + [Commit(0)] == LATE;
  }

  /** What an answer that goes through leaves of its own quote and link. */
  lemma AnswerShape(t: Tender, q: Id, caterer: Id, link: Id)
    requires SubmitTender(t, q, caterer, link).1 == Done
    ensures var after := SubmitTender(t, q, caterer, link).0;
            && q in t.quotes && t.quotes[q].status == QuoteDraft && t.quotes[q].caterer == caterer
            && after.quotes == t.quotes[q := t.quotes[q].(status := QuoteSent)] && after.status == t.status
            && after.links.Keys == t.links.Keys
            && (LinksOf(t.links, caterer) == {link} ==>
                  link in t.links && after.links[link].status == TransmittedToClient)
  {
    if LinksOf(t.links, caterer) == {link} {
      assert Pick(LinksOf(t.links, caterer), link) == Some(link);
    }
  }

  /** Whatever its reply, an answer keeps the owners of links and writes no other quote. */
  lemma AnswerKeeps(t: Tender, q: Id, caterer: Id, link: Id)
    ensures var after := SubmitTender(t, q, caterer, link).0;
            && after.links.Keys == t.links.Keys && after.quotes.Keys == t.quotes.Keys && after.status == t.status
            && (forall i :: i in t.links ==> after.links[i].caterer == t.links[i].caterer)
            && (forall p :: p in t.quotes ==>
                  || after.quotes[p] == t.quotes[p]
                  || (p == q && SubmitTender(t, q, caterer, link).1 == Done
                      && after.quotes[p] == t.quotes[p].(status := QuoteSent)))
  {
  }

  /** A merge keeps the owners of links and quotes. */
  lemma MergeKeepsOwners(db: Tender, before: Tender, after: Tender, caterer: Id)
    requires after.links.Keys == before.links.Keys && after.quotes.Keys == before.quotes.Keys
    ensures var c := Merged(db, before, after);
            && LinksOf(c.links, caterer) == LinksOf(db.links, caterer)
            && QuotesOf(c.quotes, caterer) == QuotesOf(db.quotes, caterer)
  {
  }

  lemma RowsOf(t: Tender, acts: seq<Act>, answered: Tender, other: Tender)
    requires |acts| == 2 && Perform(t, acts[1]).0 == answered && Perform(t, acts[0]).0 == other
    ensures AnsweredRows(t, acts) == Merged(t, t, answered)
    ensures LateRows(t, acts) == Merged(Merged(t, t, answered), t, other)
  {
    hide Perform, Merged;
  }

  /** The row of a quote after one call's write and then another's, both made of the same reading. */
  lemma TwoWrites(t: Tender, first: Tender, second: Tender, q: Id)
    requires q in t.quotes && q in first.quotes && q in second.quotes
    ensures q in Merged(t, t, first).quotes && q in Merged(Merged(t, t, first), t, second).quotes
    ensures Merged(t, t, first).quotes[q] == MergedQuote(t.quotes[q], t.quotes[q], first.quotes[q])
    ensures Merged(Merged(t, t, first), t, second).quotes[q]
         == MergedQuote(Merged(t, t, first).quotes[q], t.quotes[q], second.quotes[q])
  {
  }

  /** And the row of a link. */
  lemma TwoLinkWrites(t: Tender, first: Tender, second: Tender, i: Id)
    requires i in t.links && i in first.links && i in second.links
    ensures i in Merged(Merged(t, t, first), t, second).links
    ensures Merged(Merged(t, t, first), t, second).links[i]
         == MergedLink(MergedLink(t.links[i], t.links[i], first.links[i]), t.links[i], second.links[i])
  {
  }

  // --- An update against the sending of its draft ---------------------------------------

  function Update(q: Id, caterer: Id, form: Form, link: Id): seq<Act> {
    [UpdateQuote(q, caterer, form), Submit(q, caterer, link)]
  }

  /** Once it left draft, a quote says for ever what it said then. */
  ghost predicate Frozen(t: Tender, acts: seq<Act>, q: Id, schedule: seq<Move>, k: nat) {
    k <= |schedule| && q in After(t, acts, schedule[..k]).db.quotes
    && After(t, acts, schedule[..k]).db.quotes[q].status != QuoteDraft ==>
      && q in After(t, acts, schedule).db.quotes
      && After(t, acts, schedule).db.quotes[q].body == After(t, acts, schedule[..k]).db.quotes[q].body
  }

  /** The update passes its checks, the answer goes through, and the form says something else. */
  ghost predicate Repriced(t: Tender, q: Id, caterer: Id, form: Form, link: Id)
    requires q in t.quotes
  {
    && UpdateTenderQuote(t, q, caterer, form).1 == Done
    && SubmitTender(t, q, caterer, link).1 == Done
    && NewBody(t, q, form) != t.quotes[q].body
  }

  function NewBody(t: Tender, q: Id, form: Form): Body
    requires q in t.quotes
  {
    BodyOf(form).(validUntil := if form.validUntil.Some? then form.validUntil else t.quotes[q].body.validUntil)
  }

  /** What an update may have read: the quote as it was, sent at most if the answer goes through. */
  ghost predicate UpdateSees(t: Tender, q: Id, caterer: Id, link: Id, seen: Tender) {
    && q in t.quotes && q in seen.quotes
    && seen.quotes[q].body == t.quotes[q].body && seen.quotes[q].caterer == t.quotes[q].caterer
    && (seen.quotes[q].status != t.quotes[q].status ==> SubmitTender(t, q, caterer, link).1 == Done)
    && LinksOf(seen.links, caterer) == LinksOf(t.links, caterer)
  }

  /** What an answer may have read: everything as it was, but for the body. */
  ghost predicate AnswerSees(t: Tender, q: Id, seen: Tender) {
    && q in t.quotes && q in seen.quotes && seen.status == t.status && seen.links == t.links
    && seen.quotes[q].status == t.quotes[q].status && seen.quotes[q].caterer == t.quotes[q].caterer
  }

  ghost predicate UpdateInv(t: Tender, q: Id, caterer: Id, form: Form, link: Id, s: System) {
    && |s.at| == 2 && q in t.quotes && q in s.db.quotes
    && s.db.quotes[q].caterer == t.quotes[q].caterer
    && LinksOf(s.db.links, caterer) == LinksOf(t.links, caterer)
    && (s.db.quotes[q].status != t.quotes[q].status ==> SubmitTender(t, q, caterer, link).1 == Done)
    && (s.db.quotes[q].body != t.quotes[q].body ==>
          UpdateTenderQuote(t, q, caterer, form).1 == Done && s.db.quotes[q].body == NewBody(t, q, form))
    && (s.at[0] != Returned ==> s.db.quotes[q].body == t.quotes[q].body)
    && (s.at[1] != Returned ==> AnswerSees(t, q, s.db))
    && (s.at[0].Reading? ==> UpdateSees(t, q, caterer, link, s.at[0].seen))
    && (s.at[1].Reading? ==> AnswerSees(t, q, s.at[1].seen))
  }

  /** An answer decides on statuses and links only. */
  lemma AnswerIgnoresBodies(t: Tender, q: Id, caterer: Id, link: Id, seen: Tender)
    requires AnswerSees(t, q, seen)
    ensures SubmitTender(seen, q, caterer, link).1 == SubmitTender(t, q, caterer, link).1
  {
  }

  /** An update decided on what it read is the update of the rows as they were. */
  lemma UpdateSeen(t: Tender, q: Id, caterer: Id, form: Form, link: Id, seen: Tender)
    requires UpdateSees(t, q, caterer, link, seen)
    ensures var (after, reply) := UpdateTenderQuote(seen, q, caterer, form);
            if reply == Done
            then && UpdateTenderQuote(t, q, caterer, form).1 == Done
                 && after == seen.(quotes := seen.quotes[q := seen.quotes[q].(body := NewBody(t, q, form))])
            else after == seen
  {
  }

  /** A write of one body changes nothing else. */
  lemma BodyWrite(db: Tender, seen: Tender, after: Tender, q: Id)
    requires q in db.quotes && q in seen.quotes
    requires after == seen || exists body :: after == seen.(quotes := seen.quotes[q := seen.quotes[q].(body := body)])
    ensures var c := Merged(db, seen, after);
            && c.links == db.links && c.status == db.status && q in c.quotes && q in after.quotes
            && c.quotes[q].caterer == db.quotes[q].caterer && c.quotes[q].status == db.quotes[q].status
            && (c.quotes[q].body == db.quotes[q].body || c.quotes[q].body == after.quotes[q].body)
  {
    assert MergedLinks(db.links, seen.links, seen.links) == db.links;
  }

  lemma CommittedAnswer(s: System, q: Id, caterer: Id, link: Id)
    requires |s.at| == 2 && s.at[1].Reading?
    ensures Committed(s, Submit(q, caterer, link), 1)
         == Merged(s.db, s.at[1].seen, SubmitTender(s.at[1].seen, q, caterer, link).0)
  {
    hide Merged, SubmitTender;
  }

  lemma UpdateCommits(t: Tender, q: Id, caterer: Id, form: Form, link: Id, s: System)
    requires UpdateInv(t, q, caterer, form, link, s) && s.at[0].Reading?
    ensures var c := Committed(s, UpdateQuote(q, caterer, form), 0);
            && c.links == s.db.links && c.status == s.db.status
            && q in c.quotes && c.quotes[q].caterer == s.db.quotes[q].caterer
            && c.quotes[q].status == s.db.quotes[q].status
            && (c.quotes[q].body != t.quotes[q].body ==>
                  UpdateTenderQuote(t, q, caterer, form).1 == Done && c.quotes[q].body == NewBody(t, q, form))
  {
    hide Merged, SubmitTender;
    var db, seen := s.db, s.at[0].seen;
    var (after, reply) := UpdateTenderQuote(seen, q, caterer, form);
    UpdateSeen(t, q, caterer, form, link, seen);
    assert Committed(s, UpdateQuote(q, caterer, form), 0) == Merged(db, seen, after);
    hide UpdateTenderQuote, Committed, NewBody, UpdateSees, AnswerSees, SubmitTender;
    BodyWrite(db, seen, after, q);
  }

  lemma AnswerCommits(t: Tender, q: Id, caterer: Id, form: Form, link: Id, s: System)
    requires UpdateInv(t, q, caterer, form, link, s) && s.at[1].Reading?
    ensures var c := Committed(s, Submit(q, caterer, link), 1);
            && LinksOf(c.links, caterer) == LinksOf(s.db.links, caterer)
            && q in c.quotes && c.quotes[q].caterer == s.db.quotes[q].caterer && c.quotes[q].body == s.db.quotes[q].body
            && (c.quotes[q].status != t.quotes[q].status ==> SubmitTender(t, q, caterer, link).1 == Done)
  {
    var seen := s.at[1].seen;
    CommittedAnswer(s, q, caterer, link);
    AnswerIgnoresBodies(t, q, caterer, link, seen);
    AnswerKeeps(seen, q, caterer, link);
    MergeKeepsOwners(s.db, seen, SubmitTender(seen, q, caterer, link).0, caterer);
    hide SubmitTender, NewBody, UpdateTenderQuote, MergedLinks, Committed;
  }

  lemma StepKeepsUpdateInv(t: Tender, q: Id, caterer: Id, form: Form, link: Id, s: System, m: Move)
    requires UpdateInv(t, q, caterer, form, link, s)
    ensures UpdateInv(t, q, caterer, form, link, StepOf(Update(q, caterer, form, link), s, m))
  {
    hide Merged, Perform, Locks;
    if m.Commit? && m.call == 0 && s.at[0].Reading? {
      UpdateCommits(t, q, caterer, form, link, s);
    } else if m.Commit? && m.call == 1 && s.at[1].Reading? {
      AnswerCommits(t, q, caterer, form, link, s);
    }
    hide Committed, SubmitTender, UpdateTenderQuote, NewBody;
  }

  lemma {:induction false} EveryScheduleKeepsUpdateInv(t: Tender, q: Id, caterer: Id, form: Form, link: Id,
                                                      schedule: seq<Move>)
    requires q in t.quotes
    ensures UpdateInv(t, q, caterer, form, link, After(t, Update(q, caterer, form, link), schedule))
  {
    if schedule != [] {
      var front := schedule[..|schedule| - 1];
      EveryScheduleKeepsUpdateInv(t, q, caterer, form, link, front);
      StepKeepsUpdateInv(t, q, caterer, form, link, After(t, Update(q, caterer, form, link), front),
                         schedule[|schedule| - 1]);
    }
  }

  lemma FrozenUnlessRepriced(t: Tender, q: Id, caterer: Id, form: Form, link: Id, schedule: seq<Move>, k: nat)
    requires q in t.quotes && !Repriced(t, q, caterer, form, link)
    ensures Frozen(t, Update(q, caterer, form, link), q, schedule, k)
  {
    if k <= |schedule| {
      EveryScheduleKeepsUpdateInv(t, q, caterer, form, link, schedule[..k]);
      EveryScheduleKeepsUpdateInv(t, q, caterer, form, link, schedule);
    }
    hide After, SubmitTender;
  }

  /** The late update: the quote has been sent with one price, and ends with another. */
  lemma LateUpdateReprices(t: Tender, q: Id, caterer: Id, form: Form, link: Id)
    requires q in t.quotes && Repriced(t, q, caterer, form, link)
    ensures var acts := Update(q, caterer, form, link);
            && q in After(t, acts, ANSWERED).db.quotes && q in After(t, acts, LATE).db.quotes
            && After(t, acts, ANSWERED).db.quotes[q].status == QuoteSent
            && After(t, acts, LATE).db.quotes[q].status == QuoteSent
            && After(t, acts, ANSWERED).db.quotes[q].body == t.quotes[q].body
            && After(t, acts, LATE).db.quotes[q].body == NewBody(t, q, form) != t.quotes[q].body
  {
    LateUpdateRows(t, q, caterer, form, link);
    LateEnds(t, Update(q, caterer, form, link));
    hide After, AnsweredRows, LateRows, Repriced, NewBody;
  }

  lemma LateUpdateRows(t: Tender, q: Id, caterer: Id, form: Form, link: Id)
    requires q in t.quotes && Repriced(t, q, caterer, form, link)
    ensures var acts := Update(q, caterer, form, link);
            var first, last := AnsweredRows(t, acts), LateRows(t, acts);
            && q in first.quotes && first.quotes[q] == t.quotes[q].(status := QuoteSent)
            && q in last.quotes && last.quotes[q] == t.quotes[q].(status := QuoteSent, body := NewBody(t, q, form))
            && NewBody(t, q, form) != t.quotes[q].body
  {
    AnswerShape(t, q, caterer, link);
    UpdateShape(t, q, caterer, form);
    RowsOf(t, Update(q, caterer, form, link), SubmitTender(t, q, caterer, link).0,
           UpdateTenderQuote(t, q, caterer, form).0);
    hide SubmitTender, UpdateTenderQuote, NewBody, Merged;
    TwoWrites(t, SubmitTender(t, q, caterer, link).0, UpdateTenderQuote(t, q, caterer, form).0, q);
  }

  lemma UpdateShape(t: Tender, q: Id, caterer: Id, form: Form)
    requires q in t.quotes && UpdateTenderQuote(t, q, caterer, form).1 == Done
    ensures UpdateTenderQuote(t, q, caterer, form).0
         == t.(quotes := t.quotes[q := t.quotes[q].(body := NewBody(t, q, form))])
  {
  }

  /**
   The price freeze over every interleaving of the two calls: it holds if and
   only if the two do not both go through with a form that says something else.
   */
  lemma FreezeIff(t: Tender, q: Id, caterer: Id, form: Form, link: Id)
    requires q in t.quotes
    ensures (forall schedule, k: nat :: Frozen(t, Update(q, caterer, form, link), q, schedule, k))
       <==> !Repriced(t, q, caterer, form, link)
  {
    if Repriced(t, q, caterer, form, link) {
      LateUpdateReprices(t, q, caterer, form, link);
      assert LATE[..3] == ANSWERED;
      assert !Frozen(t, Update(q, caterer, form, link), q, LATE, 3);
    } else {
      forall schedule, k: nat ensures Frozen(t, Update(q, caterer, form, link), q, schedule, k) {
        FrozenUnlessRepriced(t, q, caterer, form, link, schedule, k);
      }
    }
  }

  // --- A caterer that declines while it answers ------------------------------------------

  function DeclineAndAnswer(q: Id, caterer: Id, link: Id): seq<Act> {
    [Decline(caterer, link, q), Submit(q, caterer, link)]
  }

  /** The caterer has one link and one quote on the request, a draft. */
  ghost predicate OneDraft(t: Tender, q: Id, caterer: Id, link: Id) {
    && LinksOf(t.links, caterer) == {link} && QuotesOf(t.quotes, caterer) == {q}
    && t.quotes[q].status == QuoteDraft
  }

  /** A sent quote is on a transmitted link, where the rule of three counts it. */
  ghost predicate Counted(db: Tender, q: Id, link: Id) {
    q in db.quotes && link in db.links
    && (db.quotes[q].status == QuoteSent ==> db.links[link].status == TransmittedToClient)
  }

  ghost predicate Uncounted(t: Tender, q: Id, caterer: Id, link: Id)
    requires link in t.links
  {
    SubmitTender(t, q, caterer, link).1 == Done && t.links[link].status != Rejected
  }

  function Declined(links: map<Id, Link>, link: Id): map<Id, Link>
    requires link in links
  {
    links[link := links[link].(status := Rejected)]
  }

  /** What either call may have read of the caterer's rows before the answer is in. */
  ghost predicate SeesDraft(t: Tender, q: Id, caterer: Id, link: Id, seen: Tender) {
    && OneDraft(seen, q, caterer, link) && seen.status == t.status
  }

  ghost predicate DeclineInv(t: Tender, q: Id, caterer: Id, link: Id, s: System) {
    && |s.at| == 2 && link in t.links && OneDraft(t, q, caterer, link)
    && LinksOf(s.db.links, caterer) == {link} && QuotesOf(s.db.quotes, caterer) == {q} && Counted(s.db, q, link)
    && (s.at[1] != Returned ==>
          && SeesDraft(t, q, caterer, link, s.db)
          && s.db.links == if s.at[0] == Returned then Declined(t.links, link) else t.links)
    && (s.at[1].Reading? ==>
          && SeesDraft(t, q, caterer, link, s.at[1].seen)
          && (s.at[1].seen.links == t.links || (s.at[0] == Returned && s.at[1].seen.links == Declined(t.links, link))))
    && (s.at[0].Reading? ==>
          && LinksOf(s.at[0].seen.links, caterer) == {link} && QuotesOf(s.at[0].seen.quotes, caterer) == {q}
          && (s.at[1] != Returned ==> s.at[0].seen.quotes[q].status == QuoteDraft && s.at[0].seen.links == t.links)
          && (s.at[0].seen.quotes[q].status == QuoteDraft && s.db.quotes[q].status == QuoteSent ==>
                s.at[0].seen.links[link].status == Rejected))
  }

  /** A caterer with one link declines, unless its one quote has left draft. */
  lemma DeclineShape(seen: Tender, q: Id, caterer: Id, link: Id)
    requires LinksOf(seen.links, caterer) == {link} && QuotesOf(seen.quotes, caterer) == {q}
    ensures link in seen.links && q in seen.quotes
    ensures DeclineTender(seen, caterer, link, q).0
         == if seen.quotes[q].status == QuoteDraft then seen.(links := Declined(seen.links, link)) else seen
  {
    assert link in LinksOf(seen.links, caterer) && q in QuotesOf(seen.quotes, caterer);
    assert Pick(LinksOf(seen.links, caterer), link) == Some(link);
    assert Pick(QuotesOf(seen.quotes, caterer), q) == Some(q);
  }

  /** Rows read and not changed are not written. */
  lemma SameRowsWrite(db: Tender, seen: Tender)
    ensures Merged(db, seen, seen).links == db.links && Merged(db, seen, seen).quotes == db.quotes
    ensures Merged(db, seen, seen).status == db.status
  {
  }

  /** The one write of a decline. */
  lemma DeclineWrite(db: Tender, seen: Tender, link: Id)
    requires link in db.links && link in seen.links
    ensures var c := Merged(db, seen, seen.(links := Declined(seen.links, link)));
            && c.quotes == db.quotes && c.status == db.status
            && c.links == if seen.links[link].status == Rejected then db.links else Declined(db.links, link)
  {
  }

  lemma CommittedDecline(s: System, q: Id, caterer: Id, link: Id)
    requires |s.at| == 2 && s.at[0].Reading?
    ensures Committed(s, Decline(caterer, link, q), 0)
         == Merged(s.db, s.at[0].seen, DeclineTender(s.at[0].seen, caterer, link, q).0)
  {
    hide Merged, DeclineTender;
  }

  lemma DeclineCommits(t: Tender, q: Id, caterer: Id, link: Id, s: System)
    requires DeclineInv(t, q, caterer, link, s) && s.at[0].Reading?
    ensures var c := Committed(s, Decline(caterer, link, q), 0);
            && c.quotes == s.db.quotes && c.status == s.db.status
            && LinksOf(c.links, caterer) == {link}
            && (s.db.quotes[q].status == QuoteSent ==> c.links == s.db.links)
            && (s.at[1] != Returned ==> c.links == Declined(t.links, link))
  {
    var db, seen := s.db, s.at[0].seen;
    assert link in LinksOf(db.links, caterer);
    CommittedDecline(s, q, caterer, link);
    DeclineShape(seen, q, caterer, link);
    hide DeclineTender, Committed;
    DeclineWrite(db, seen, link);
    SameRowsWrite(db, seen);
    hide Merged, OneDraft;
  }

  /** The row of a quote, and of a link, after a write over them. */
  lemma OneWrite(db: Tender, before: Tender, after: Tender, q: Id, i: Id)
    requires q in db.quotes && q in before.quotes && q in after.quotes
    requires i in db.links && i in before.links && i in after.links
    ensures var c := Merged(db, before, after);
            && q in c.quotes && c.quotes[q] == MergedQuote(db.quotes[q], before.quotes[q], after.quotes[q])
            && i in c.links && c.links[i] == MergedLink(db.links[i], before.links[i], after.links[i])
  {
  }

  lemma HasRows(t: Tender, q: Id, caterer: Id, link: Id)
    requires OneDraft(t, q, caterer, link)
    ensures q in t.quotes && link in t.links && t.quotes[q].status == QuoteDraft
  {
    assert link in LinksOf(t.links, caterer) && q in QuotesOf(t.quotes, caterer);
  }

  /** What the answer, decided on what it read, does to the one quote and the one link. */
  lemma CountedAnswerShape(t: Tender, q: Id, caterer: Id, link: Id, seen: Tender)
    requires SeesDraft(t, q, caterer, link, seen) && OneDraft(t, q, caterer, link)
    requires link in t.links && !Uncounted(t, q, caterer, link)
    ensures var (after, reply) := SubmitTender(seen, q, caterer, link);
            && q in seen.quotes && link in seen.links && q in after.quotes && link in after.links
            && (reply != Done ==> after.quotes[q].status == QuoteDraft)
            && (reply == Done ==> after.links[link].status == TransmittedToClient)
            && (reply == Done && seen.links == t.links ==> t.links[link].status == Rejected)
  {
    assert link in LinksOf(seen.links, caterer) && q in QuotesOf(seen.quotes, caterer);
    AnswerKeeps(seen, q, caterer, link);
    if SubmitTender(seen, q, caterer, link).1 == Done {
      AnswerShape(seen, q, caterer, link);
      if seen.links == t.links {
        assert q in QuotesOf(t.quotes, caterer);
        AnswerIgnoresBodies(t, q, caterer, link, seen);
      }
    }
    hide SubmitTender;
  }

  /** A quote the answer sends is on a link it transmits. */
  lemma CountedWrite(db: Tender, seen: Tender, after: Tender, q: Id, link: Id, sent: bool)
    requires q in db.quotes && q in seen.quotes && q in after.quotes
    requires link in db.links && link in seen.links && link in after.links
    requires db.quotes[q].status == seen.quotes[q].status == QuoteDraft
    requires !sent ==> after.quotes[q].status == QuoteDraft
    requires sent ==> after.links[link].status == TransmittedToClient && seen.links[link].status == Rejected
    ensures Counted(Merged(db, seen, after), q, link)
    ensures Merged(db, seen, after).quotes[q].status == QuoteSent ==> sent
  {
    OneWrite(db, seen, after, q, link);
    hide Merged;
  }

  lemma CountedAnswerCommits(t: Tender, q: Id, caterer: Id, link: Id, s: System)
    requires DeclineInv(t, q, caterer, link, s) && s.at[1].Reading? && !Uncounted(t, q, caterer, link)
    ensures var c := Committed(s, Submit(q, caterer, link), 1);
            && LinksOf(c.links, caterer) == {link} && QuotesOf(c.quotes, caterer) == {q} && Counted(c, q, link)
            && (c.quotes[q].status == QuoteSent && s.at[0] != Returned ==> t.links[link].status == Rejected)
  {
    var db, seen := s.db, s.at[1].seen;
    assert OneDraft(t, q, caterer, link) && link in t.links;
    assert SeesDraft(t, q, caterer, link, db) && SeesDraft(t, q, caterer, link, seen);
    assert seen.links == t.links || (s.at[0] == Returned && seen.links == Declined(t.links, link));
    hide DeclineInv;
    HasRows(db, q, caterer, link);
    HasRows(seen, q, caterer, link);
    var (after, reply) := SubmitTender(seen, q, caterer, link);
    CommittedAnswer(s, q, caterer, link);
    AnswerKeeps(seen, q, caterer, link);
    MergeKeepsOwners(db, seen, after, caterer);
    CountedAnswerShape(t, q, caterer, link, seen);
    hide SubmitTender, Merged, LinksOf, QuotesOf, Uncounted, Committed;
    CountedWrite(db, seen, after, q, link, reply == Done);
  }

  lemma StepKeepsDeclineInv(t: Tender, q: Id, caterer: Id, link: Id, s: System, m: Move)
    requires DeclineInv(t, q, caterer, link, s) && !Uncounted(t, q, caterer, link)
    ensures DeclineInv(t, q, caterer, link, StepOf(DeclineAndAnswer(q, caterer, link), s, m))
  {
    hide Uncounted, Merged, Perform;
    if m.Commit? && m.call == 0 && s.at[0].Reading? {
      DeclineCommits(t, q, caterer, link, s);
    } else if m.Commit? && m.call == 1 && s.at[1].Reading? {
      CountedAnswerCommits(t, q, caterer, link, s);
    }
    hide Committed, SubmitTender;
  }

  lemma {:induction false} EveryScheduleKeepsDeclineInv(t: Tender, q: Id, caterer: Id, link: Id, schedule: seq<Move>)
    requires OneDraft(t, q, caterer, link) && link in t.links && !Uncounted(t, q, caterer, link)
    ensures DeclineInv(t, q, caterer, link, After(t, DeclineAndAnswer(q, caterer, link), schedule))
  {
    if schedule != [] {
      var front := schedule[..|schedule| - 1];
      EveryScheduleKeepsDeclineInv(t, q, caterer, link, front);
      StepKeepsDeclineInv(t, q, caterer, link, After(t, DeclineAndAnswer(q, caterer, link), front),
                          schedule[|schedule| - 1]);
    }
  }

  /** The late decline: the quote is sent, its link is `rejected`, and the rule of three no longer counts it. */
  lemma LateDeclineUncounts(t: Tender, q: Id, caterer: Id, link: Id)
    requires OneDraft(t, q, caterer, link) && link in t.links && Uncounted(t, q, caterer, link)
    ensures var end := After(t, DeclineAndAnswer(q, caterer, link), LATE).db;
            && q in end.quotes && end.quotes[q].status == QuoteSent
            && link in end.links && end.links[link].status == Rejected
  {
    LateDeclineRows(t, q, caterer, link);
    LateEnds(t, DeclineAndAnswer(q, caterer, link));
    hide After, AnsweredRows, LateRows, Uncounted;
  }

  lemma LateDeclineRows(t: Tender, q: Id, caterer: Id, link: Id)
    requires OneDraft(t, q, caterer, link) && link in t.links && Uncounted(t, q, caterer, link)
    ensures var last := LateRows(t, DeclineAndAnswer(q, caterer, link));
            && q in last.quotes && last.quotes[q].status == QuoteSent
            && link in last.links && last.links[link].status == Rejected
  {
    AnswerShape(t, q, caterer, link);
    DeclineShape(t, q, caterer, link);
    RowsOf(t, DeclineAndAnswer(q, caterer, link), SubmitTender(t, q, caterer, link).0,
           DeclineTender(t, caterer, link, q).0);
    hide SubmitTender, DeclineTender, Merged;
    TwoWrites(t, SubmitTender(t, q, caterer, link).0, DeclineTender(t, caterer, link, q).0, q);
    TwoLinkWrites(t, SubmitTender(t, q, caterer, link).0, DeclineTender(t, caterer, link, q).0, link);
  }

  ghost predicate CountedAfter(t: Tender, q: Id, caterer: Id, link: Id, schedule: seq<Move>) {
    Counted(After(t, DeclineAndAnswer(q, caterer, link), schedule).db, q, link)
  }

  /**
   Every interleaving of the two calls leaves a sent quote on a transmitted
   link, if and only if the answer does not go through or the link was
   `rejected` before.
   */
  lemma CountedIff(t: Tender, q: Id, caterer: Id, link: Id)
    requires OneDraft(t, q, caterer, link) && link in t.links
    ensures (forall schedule :: CountedAfter(t, q, caterer, link, schedule)) <==> !Uncounted(t, q, caterer, link)
  {
    if Uncounted(t, q, caterer, link) {
      LateDeclineUncounts(t, q, caterer, link);
      assert !CountedAfter(t, q, caterer, link, LATE);
    } else {
      forall schedule ensures CountedAfter(t, q, caterer, link, schedule) {
        EveryScheduleKeepsDeclineInv(t, q, caterer, link, schedule);
      }
    }
  }
}
