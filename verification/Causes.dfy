/**
 Read from the rows: for every change a row of a request can make, exactly the
 calls that make it, among all the handlers.
 */
module Causes {
  import opened Wrappers
  import opened Tenders
  import opened TenderSafety
  import opened QuoteTotals

  // --- Conditions a caller could check -------------------------------------------------

  /** A quote is valid up to and including its last day; one without a date never runs out. */
  predicate ValidOn(until: Option<Day>, today: Day) {
    until.None? || today <= until.value
  }

  /** The client's company accepts a quote on the table, in time. */
  predicate Acceptance(t: Tender, a: Act) {
    && a.Accept? && a.company == t.company && t.status == SentToCaterers
    && a.quote in t.quotes && t.quotes[a.quote].status == QuoteSent
    && ValidOn(t.quotes[a.quote].body.validUntil, a.today) && a.newOrder !in t.orders
  }

  /** The client's company refuses a quote of the request, whatever its status. */
  predicate Refusal(t: Tender, a: Act) {
    a.Refuse? && a.company == t.company && a.quote in t.quotes
  }

  predicate Invited(t: Tender, caterer: Id) {
    exists i :: i in t.links && t.links[i].caterer == caterer
  }

  predicate InRules(form: Form) {
    forall i :: 0 <= i < |form.raws| ==> WithinRules(form.raws[i])
  }

  /** An invited caterer without a draft here drafts a quote within the rules. */
  predicate Drafting(t: Tender, a: Act) {
    && a.CreateQuote? && Invited(t, a.caterer) && InRules(a.form) && a.newQuote !in t.quotes
    && (forall q :: q in t.quotes && t.quotes[q].caterer == a.caterer ==> t.quotes[q].status != QuoteDraft)
  }

  /** A caterer rewrites its own draft within the rules. */
  predicate Redrafting(t: Tender, a: Act) {
    && a.UpdateQuote? && a.quote in t.quotes && t.quotes[a.quote].caterer == a.caterer
    && t.quotes[a.quote].status == QuoteDraft && Invited(t, a.caterer) && InRules(a.form)
  }

  /** A caterer sends its own draft while the request takes quotes; `i` is the link its lookup returns. */
  ghost predicate Answering(t: Tender, a: Act, i: Id) {
    && a.Submit? && t.status == SentToCaterers
    && a.quote in t.quotes && t.quotes[a.quote].caterer == a.caterer && t.quotes[a.quote].status == QuoteDraft
    && Pick(LinksOf(t.links, a.caterer), a.link) == Some(i)
    && t.links[i].status != Closed
  }

  ghost predicate Answer(t: Tender, a: Act, i: Id) {
    Answering(t, a, i) && |Transmitted(t.links)| < 3
  }

  /** A caterer declines on link `i`, and the quote of its own it finds, if any, is a draft. */
  ghost predicate Declining(t: Tender, a: Act, i: Id) {
    && a.Decline? && Pick(LinksOf(t.links, a.caterer), a.link) == Some(i)
    && var q := Pick(QuotesOf(t.quotes, a.caterer), a.hint);
       q.Some? ==> t.quotes[q.value].status == QuoteDraft
  }

  predicate FanningOut(t: Tender, a: Act) {
    a.Approve? && a.fan != map[] && a.fan.Keys !! t.links.Keys
  }

  /** The company edits a draft; a user who sees only their own must be its author. */
  predicate EditingDraft(t: Tender, a: Act) {
    && a.Edit? && a.company == t.company && (a.only.None? || a.only.value == t.user)
    && t.status == Draft
  }

  // --- Orders ------------------------------------------------------------------------------

  /** An order is added by an acceptance, for the quote it names and the user who accepts; orders stay. */
  lemma OrderIsAddedIff(t: Tender, a: Act, o: Id)
    ensures var after := Perform(t, a).0;
            && (o in after.orders && o !in t.orders <==> Acceptance(t, a) && o == a.newOrder)
            && (o in t.orders ==> o in after.orders && after.orders[o] == t.orders[o])
            && (Acceptance(t, a) ==> a.newOrder in after.orders && after.orders[a.newOrder] == Order(a.quote, a.user))
  {
  }

  // --- Quotes ------------------------------------------------------------------------------

  ghost predicate Becomes(t: Tender, after: Tender, q: Id, status: QuoteStatus) {
    q in after.quotes && after.quotes[q].status == status && (q in t.quotes ==> t.quotes[q].status != status)
  }

  lemma QuoteIsAcceptedIff(t: Tender, a: Act, q: Id)
    ensures Becomes(t, Perform(t, a).0, q, QuoteAccepted) <==> Acceptance(t, a) && q == a.quote
  {
  }

  lemma QuoteIsSentIff(t: Tender, a: Act, q: Id)
    ensures Becomes(t, Perform(t, a).0, q, QuoteSent) <==> (exists i :: Answer(t, a, i)) && q == a.quote
  {
    if a.Submit? {
      var picked := Pick(LinksOf(t.links, a.caterer), a.link);
      assert picked.Some? ==> (Answer(t, a, picked.value) <==> exists i :: Answer(t, a, i));
    }
  }

  /** Refused by the client, or on the table when another was accepted. */
  lemma QuoteIsRefusedIff(t: Tender, a: Act, q: Id)
    ensures Becomes(t, Perform(t, a).0, q, QuoteRefused) <==>
              && q in t.quotes && t.quotes[q].status != QuoteRefused
              && ((Refusal(t, a) && q == a.quote)
                  || (Acceptance(t, a) && q != a.quote && t.quotes[q].status == QuoteSent))
  {
  }

  /** A quote is added as a draft of the caterer who writes it, with the date of the form. */
  lemma QuoteIsAddedIff(t: Tender, a: Act, q: Id)
    ensures var after := Perform(t, a).0;
            && (q in after.quotes && q !in t.quotes <==> Drafting(t, a) && q == a.newQuote)
            && (q in t.quotes ==> q in after.quotes && after.quotes[q].caterer == t.quotes[q].caterer)
            && (Drafting(t, a) ==>
                  && a.newQuote in after.quotes && after.quotes[a.newQuote].caterer == a.caterer
                  && after.quotes[a.newQuote].status == QuoteDraft
                  && Says(after.quotes[a.newQuote].body, a.form, a.form.validUntil))
  {
    FormsAgree(t, a);
  }

  /** A body of the form's lines, their total and `until`. */
  predicate Says(body: Body, form: Form, until: Option<Day>) {
    && body.lines == StoredLines(form.raws) && body.validUntil == until
    && -0.5 <= body.totalHt as real - 100.0 * Money.TotalHt(ParsedLines(form.raws)) <= 0.5
  }

  lemma FormsAgree(t: Tender, a: Act)
    ensures a.CreateQuote? || a.UpdateQuote? ==> (Acceptable(a.form.raws) <==> InRules(a.form))
    ensures a.CreateQuote? || a.UpdateQuote? ==> (Invited(t, a.caterer) <==> LinksOf(t.links, a.caterer) != {})
  {
    if a.CreateQuote? || a.UpdateQuote? {
      forall i | 0 <= i < |a.form.raws| ensures Fault(a.form.raws[i]) == None <==> WithinRules(a.form.raws[i]) {
        FaultIsFirstBroken(a.form.raws[i]);
      }
      if Invited(t, a.caterer) {
        var i :| i in t.links && t.links[i].caterer == a.caterer;
        assert i in LinksOf(t.links, a.caterer);
      }
    }
  }

  /** What a quote says is written by its own caterer, over its own draft; a form without a date keeps the date. */
  lemma BodyIsWrittenIff(t: Tender, a: Act, q: Id)
    requires q in t.quotes
    ensures var after := Perform(t, a).0;
            && q in after.quotes
            && (if Redrafting(t, a) && q == a.quote
                then Says(after.quotes[q].body, a.form,
                          if a.form.validUntil.Some? then a.form.validUntil else t.quotes[q].body.validUntil)
                else after.quotes[q].body == t.quotes[q].body)
  {
    FormsAgree(t, a);
  }

  // --- Links -------------------------------------------------------------------------------

  /** Links are added by an approval, one `selected` link per target; links stay, with their caterer. */
  lemma LinkIsAddedIff(t: Tender, a: Act, i: Id)
    ensures var after := Perform(t, a).0;
            && (i in after.links && i !in t.links <==> FanningOut(t, a) && i in a.fan)
            && (i in t.links ==> i in after.links && after.links[i].caterer == t.links[i].caterer)
            && (FanningOut(t, a) && i in a.fan ==>
                  i in after.links && after.links[i] == Link(t.id, a.fan[i], Selected, None))
  {
    NewRowsAreApart(t, a);
    if a.Approve? && FanningOut(t, a) {
      FannedOutRows(t.links, a.fan, t.id);
    }
  }

  lemma NewRowsAreApart(t: Tender, a: Act)
    ensures a.Approve? ==> (a.fan.Keys * t.links.Keys == {} <==> a.fan.Keys !! t.links.Keys)
  {
    if a.Approve? {
      var both := a.fan.Keys * t.links.Keys;
      assert forall i :: i in both <==> i in a.fan.Keys && i in t.links.Keys;
      assert both == {} ==> forall i :: !(i in a.fan.Keys && i in t.links.Keys);
    }
  }

  ghost predicate Turns(t: Tender, after: Tender, i: Id, status: LinkStatus)
    requires i in t.links
  {
    i in after.links && after.links[i].status == status && t.links[i].status != status
  }

  /** A link is transmitted by its caterer's answer, and ranked by how many were before it. */
  lemma LinkIsTransmittedIff(t: Tender, a: Act, i: Id)
    requires i in t.links
    ensures var after := Perform(t, a).0;
            && (Turns(t, after, i, TransmittedToClient) <==>
                  Answer(t, a, i) && t.links[i].status != TransmittedToClient)
            && i in after.links
            && after.links[i].rank == (if Answer(t, a, i) then Some(|Transmitted(t.links)| + 1) else t.links[i].rank)
  {
    NewRowsAreApart(t, a);
  }

  lemma LinkIsRejectedIff(t: Tender, a: Act, i: Id)
    requires i in t.links
    ensures Turns(t, Perform(t, a).0, i, Rejected) <==> Declining(t, a, i) && t.links[i].status != Rejected
  {
  }

  /**
   Three ways to be shut out: answering fourth; being still invited when
   somebody else answers third; not being the winner.
   */
  lemma LinkIsClosedIff(t: Tender, a: Act, i: Id)
    requires i in t.links
    ensures Turns(t, Perform(t, a).0, i, Closed) <==>
              && t.links[i].status != Closed
              && (|| (Answering(t, a, i) && |Transmitted(t.links)| >= 3)
                  || (|Transmitted(t.links)| == 2 && t.links[i].status == Selected
                      && exists j :: Answer(t, a, j) && t.links[i].caterer != a.caterer)
                  || (Acceptance(t, a) && t.links[i].status != Rejected
                      && t.links[i].caterer != t.quotes[a.quote].caterer))
  {
    if a.Submit? {
      var picked := Pick(LinksOf(t.links, a.caterer), a.link);
      assert picked.Some? ==> (Answer(t, a, picked.value) <==> exists j :: Answer(t, a, j));
    }
  }

  // --- The request -------------------------------------------------------------------------

  ghost predicate Moves(t: Tender, after: Tender, status: RequestStatus) {
    after.status == status && t.status != status
  }

  /** A request goes out by an approval with somebody to send to, or when its draft is saved without comparison. */
  lemma RequestGoesOutIff(t: Tender, a: Act)
    ensures Moves(t, Perform(t, a).0, SentToCaterers) <==>
              t.status != SentToCaterers && (FanningOut(t, a) || (EditingDraft(t, a) && !a.compare))
  {
    NewRowsAreApart(t, a);
  }

  /** It waits for review when its draft is saved with comparison, and becomes a draft or `approved` by no call. */
  lemma RequestWaitsIff(t: Tender, a: Act)
    ensures Moves(t, Perform(t, a).0, PendingReview) <==> EditingDraft(t, a) && a.compare
    ensures !Moves(t, Perform(t, a).0, Draft) && !Moves(t, Perform(t, a).0, Approved)
  {
  }

  /** It ends by an acceptance, by the admin's rejection, or by the refusal of its last quote on the table. */
  lemma RequestEndsIff(t: Tender, a: Act)
    ensures Moves(t, Perform(t, a).0, Completed) <==> Acceptance(t, a)
    ensures Moves(t, Perform(t, a).0, Cancelled) <==> a.AdminReject? && t.status != Cancelled
    ensures Moves(t, Perform(t, a).0, QuotesRefused) <==>
              && Refusal(t, a) && t.status != QuotesRefused
              && forall q :: q in t.quotes && q != a.quote ==> t.quotes[q].status != QuoteSent
  {
    if a.Refuse? && a.company == t.company && a.quote in t.quotes {
      RefuseShape(t, a.company, a.quote);
      assert forall q :: q in SentQuotes(t.quotes) - {a.quote} <==>
                q in t.quotes && q != a.quote && t.quotes[q].status == QuoteSent;
    }
  }

  // --- Replies -------------------------------------------------------------------------------

  /** The company, and the author where only the author may, edit a request that is still a draft or under review. */
  predicate Editing(t: Tender, a: Act) {
    && a.Edit? && a.company == t.company && (a.only.None? || a.only.value == t.user)
    && (t.status == Draft || t.status == PendingReview)
  }

  ghost predicate GoesThrough(t: Tender, a: Act) {
    match a
    case Edit(_, _, _) => Editing(t, a)
    case Approve(fan) => fan.Keys !! t.links.Keys
    case AdminReject => true
    case CreateQuote(_, _, _) => Drafting(t, a)
    case UpdateQuote(_, _, _) => Redrafting(t, a)
    case Submit(_, _, _) => exists i :: Answer(t, a, i)
    case Decline(_, _, _) => exists i :: Declining(t, a, i)
    case Accept(_, _, _, _, _) => Acceptance(t, a)
    case Refuse(_, _) => Refusal(t, a)
  }

  /** A call is told it went through exactly when it did; told otherwise, it has written no order, quote or status. */
  lemma DoneIff(t: Tender, a: Act)
    ensures Perform(t, a).1 == Done <==> GoesThrough(t, a)
    ensures Perform(t, a).1 != Done ==> Perform(t, a).0 == t.(links := Perform(t, a).0.links)
  {
    FormsAgree(t, a);
    NewRowsAreApart(t, a);
    if a.Submit? {
      var picked := Pick(LinksOf(t.links, a.caterer), a.link);
      assert picked.Some? ==> (Answer(t, a, picked.value) <==> exists i :: Answer(t, a, i));
    } else if a.Decline? {
      var picked := Pick(LinksOf(t.links, a.caterer), a.link);
      assert picked.Some? ==> (Declining(t, a, picked.value) <==> exists i :: Declining(t, a, i));
    }
  }

  /** What the client is told: not yours, no longer open to a choice, or too late. */
  lemma ClientReplies(t: Tender, a: Act)
    requires a.Accept? || a.Refuse? || a.Edit?
    ensures var reply := Perform(t, a).1;
            && (reply == RequestNotFound <==>
                  a.company != t.company || (a.Edit? && a.only.Some? && a.only.value != t.user))
            && (reply == NotEditable <==>
                  a.Edit? && reply != RequestNotFound && t.status != Draft && t.status != PendingReview)
            && (reply == QuoteNotFound <==> a.Refuse? && a.company == t.company && a.quote !in t.quotes)
            && (reply == NotAvailable <==>
                  && a.Accept? && a.company == t.company
                  && !(t.status == SentToCaterers && a.quote in t.quotes && t.quotes[a.quote].status == QuoteSent))
            && (reply == OutOfDate <==>
                  && a.Accept? && a.company == t.company && t.status == SentToCaterers
                  && a.quote in t.quotes && t.quotes[a.quote].status == QuoteSent
                  && t.quotes[a.quote].body.validUntil.Some? && t.quotes[a.quote].body.validUntil.value < a.today)
  {
  }

  /** What a caterer who answers is told: not open, nothing of yours to send, or closed by the three before. */
  lemma AnswerReplies(t: Tender, a: Act)
    requires a.Submit?
    ensures var reply := Perform(t, a).1;
            && (reply == RequestNotOpen <==> t.status != SentToCaterers)
            && (reply == QuoteNotFound <==>
                  && t.status == SentToCaterers
                  && !(&& a.quote in t.quotes && t.quotes[a.quote].caterer == a.caterer
                       && t.quotes[a.quote].status == QuoteDraft && Invited(t, a.caterer)))
            && (reply == RequestClosed <==>
                  && t.status == SentToCaterers && a.quote in t.quotes && t.quotes[a.quote].caterer == a.caterer
                  && t.quotes[a.quote].status == QuoteDraft && Invited(t, a.caterer)
                  && !exists i :: Answer(t, a, i))
  {
    var picked := Pick(LinksOf(t.links, a.caterer), a.link);
    assert picked.Some? ==> (Answer(t, a, picked.value) <==> exists i :: Answer(t, a, i));
    if Invited(t, a.caterer) {
      var i :| i in t.links && t.links[i].caterer == a.caterer;
      assert i in LinksOf(t.links, a.caterer);
    }
  }

  /** What a caterer who drafts is told. */
  lemma DraftReplies(t: Tender, a: Act)
    requires a.CreateQuote? || a.UpdateQuote?
    ensures var reply := Perform(t, a).1;
            && (reply == QuoteNotFound <==>
                  a.UpdateQuote? && !(a.quote in t.quotes && t.quotes[a.quote].caterer == a.caterer))
            && (reply == NotEditable <==>
                  && a.UpdateQuote? && a.quote in t.quotes && t.quotes[a.quote].caterer == a.caterer
                  && t.quotes[a.quote].status != QuoteDraft)
            && (reply == RequestNotFound <==>
                  && !Invited(t, a.caterer) && reply != QuoteNotFound && reply != NotEditable)
            && (reply == DraftExists <==>
                  && a.CreateQuote? && Invited(t, a.caterer)
                  && exists q :: q in t.quotes && t.quotes[q].caterer == a.caterer && t.quotes[q].status == QuoteDraft)
            && (reply == BadForm <==>
                  && !InRules(a.form) && reply != QuoteNotFound && reply != NotEditable && reply != RequestNotFound
                  && reply != DraftExists)
  {
    FormsAgree(t, a);
  }

  /** What a caterer who declines is told. */
  lemma DeclineReplies(t: Tender, a: Act)
    requires a.Decline?
    ensures var reply := Perform(t, a).1;
            && (reply == RequestNotFound <==> !Invited(t, a.caterer))
            && (reply == AlreadyAnswered <==> Invited(t, a.caterer) && !exists i :: Declining(t, a, i))
  {
    var picked := Pick(LinksOf(t.links, a.caterer), a.link);
    assert picked.Some? ==> (Declining(t, a, picked.value) <==> exists i :: Declining(t, a, i));
    if Invited(t, a.caterer) {
      var i :| i in t.links && t.links[i].caterer == a.caterer;
      assert i in LinksOf(t.links, a.caterer);
    }
  }
}
