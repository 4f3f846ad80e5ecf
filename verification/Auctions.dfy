/**
 The tender as an auction: at most three bids in order of arrival, then an
 award, a failure or a cancellation. Every handler call is a step of this
 machine, or changes nothing in it.
 */
module Auctions {
  import opened Wrappers
  import QuoteTotals
  import opened Tenders
  import opened TenderSafety
  import opened Discipline

  const MAX_BIDS := 3

  datatype Phase = Dormant | Open | Awarded(quote: Id) | Failed | CalledOff

  /** Who bid, through which link, with which quote. */
  datatype Offer = Offer(caterer: Id, link: Id, quote: Id)

  /** `standing` are the quotes the client may still accept. */
  datatype Auction = Auction(phase: Phase, bids: seq<Offer>, standing: set<Id>)

  datatype Move = Publish | Bid(offer: Offer) | Award(quote: Id) | TurnDown(quote: Id) | CallOff | Stay

  predicate HasBid(a: Auction, caterer: Id) {
    exists k :: 0 <= k < |a.bids| && a.bids[k].caterer == caterer
  }

  predicate Enabled(a: Auction, m: Move) {
    match m
    case Publish => a == Auction(Dormant, [], {})
    case Bid(offer) => a.phase == Open && |a.bids| < MAX_BIDS && !HasBid(a, offer.caterer)
    case Award(q) => a.phase == Open && q in a.standing
    case TurnDown(_) => a.phase != Dormant
    case CallOff => true
    case Stay => true
  }

  function Next(a: Auction, m: Move): Auction {
    match m
    case Publish => Auction(Open, [], {})
    case Bid(offer) => Auction(Open, a.bids + [offer], a.standing + {offer.quote})
    case Award(q) => Auction(Awarded(q), a.bids, {})
    case TurnDown(q) =>
      var standing := a.standing - {q};
      Auction(if standing == {} then Failed else a.phase, a.bids, standing)
    case CallOff => Auction(CalledOff, a.bids, a.standing)
    case Stay => a
  }

  /** The auction's own invariant: three bids at most, one per caterer, and only bids stand or win. */
  ghost predicate AuctionOk(a: Auction) {
    && |a.bids| <= MAX_BIDS
    && (forall j, k :: 0 <= j < k < |a.bids| ==> a.bids[j].caterer != a.bids[k].caterer)
    && (forall q :: q in a.standing ==> BidWith(a, q))
    && (a.phase.Awarded? ==> BidWith(a, a.phase.quote) && a.standing == {})
    && (a.phase == Failed ==> a.standing == {})
  }

  ghost predicate BidWith(a: Auction, q: Id) {
    exists k :: 0 <= k < |a.bids| && a.bids[k].quote == q
  }

  lemma NextKeepsAuctionOk(a: Auction, m: Move)
    requires AuctionOk(a) && Enabled(a, m)
    ensures AuctionOk(Next(a, m))
    ensures a.bids <= Next(a, m).bids || m == Publish
  {
    var b := Next(a, m);
    if m.Bid? {
      forall q | q in b.standing ensures BidWith(b, q) {
        if q == m.offer.quote {
          assert b.bids[|a.bids|].quote == q;
        } else {
          var k :| 0 <= k < |a.bids| && a.bids[k].quote == q;
          assert b.bids[k].quote == q;
        }
      }
    } else if m != Publish {
      forall q | BidWith(a, q) ensures BidWith(b, q) {
        var k :| 0 <= k < |a.bids| && a.bids[k].quote == q;
        assert b.bids[k].quote == q;
      }
    }
  }

  // --- The relation ---------------------------------------------------------

  /** No caterer drafts again on a request once its offer was transmitted. */
  ghost predicate NoRedraft(t: Tender, act: Act) {
    act.CreateQuote? ==> Unranked(t, act.caterer)
  }

  ghost predicate Unranked(t: Tender, caterer: Id) {
    forall i :: i in t.links && t.links[i].caterer == caterer ==> t.links[i].rank == None
  }

  ghost predicate SamePhase(t: Tender, p: Phase) {
    match t.status
    case Draft => p == Dormant
    case PendingReview => p == Dormant
    case Approved => false
    case SentToCaterers => p == Open
    case Completed => p.Awarded? && p.quote in t.quotes && t.quotes[p.quote].status == QuoteAccepted
    case Cancelled => p == CalledOff
    case QuotesRefused => p == Failed
  }

  /** The bid number k is the link ranked k + 1 and a quote of that caterer that left draft. */
  ghost predicate BidsAreRanked(t: Tender, bids: seq<Offer>) {
    forall k :: 0 <= k < |bids| ==>
      && bids[k].link in t.links && bids[k].quote in t.quotes
      && t.links[bids[k].link].caterer == t.quotes[bids[k].quote].caterer == bids[k].caterer
      && t.links[bids[k].link].rank == Some(k + 1)
      && t.quotes[bids[k].quote].status != QuoteDraft
  }

  /** Conversely the stored ranks are exactly 1..k. */
  ghost predicate RanksAreBids(t: Tender, bids: seq<Offer>) {
    forall i :: i in t.links && t.links[i].rank.Some? ==>
      var r := t.links[i].rank.value;
      1 <= r <= |bids| && bids[r - 1].link == i
  }

  ghost predicate BiddersHaveNoDraft(t: Tender) {
    forall q :: q in t.quotes && t.quotes[q].status == QuoteDraft ==> Unranked(t, t.quotes[q].caterer)
  }

  /** While the auction is open the transmitted links are the ranked ones. */
  ghost predicate OpenLinks(t: Tender, bids: seq<Offer>) {
    t.status == SentToCaterers ==>
      && |Transmitted(t.links)| == |bids|
      && forall i :: i in t.links ==> (t.links[i].status == TransmittedToClient <==> t.links[i].rank.Some?)
  }

  ghost predicate Shows(t: Tender, a: Auction) {
    && SamePhase(t, a.phase)
    && BidsAreRanked(t, a.bids)
    && RanksAreBids(t, a.bids)
    && a.standing == SentQuotes(t.quotes)
    && BiddersHaveNoDraft(t)
    && OpenLinks(t, a.bids)
    && (a.phase == Dormant ==> a.bids == [])
  }

  // --- The move a call makes ------------------------------------------------

  /** Read off the tender before the call and the reply it gets. */
  ghost function MoveOf(t: Tender, act: Act): Move {
    if Perform(t, act).1 != Done then Stay
    else match act
      case Edit(_, _, compare) => if t.status == Draft && !compare then Publish else Stay
      case Approve(fan) => if fan == map[] then Stay else Publish
      case AdminReject => CallOff
      case CreateQuote(_, _, _) => Stay
      case UpdateQuote(_, _, _) => Stay
      case Submit(q, c, hint) =>
        var link := Pick(LinksOf(t.links, c), hint);
        if link.Some? then Bid(Offer(c, link.value, q)) else Stay
      case Decline(_, _, _) => Stay
      case Accept(_, q, _, _, _) => Award(q)
      case Refuse(_, q) => TurnDown(q)
  }

  ghost predicate Fair(t: Tender, act: Act) {
    Disciplined(t, act) && NoRedraft(t, act)
  }

  /** Link statuses other than the transmitted ones do not show. */
  lemma LinksMayChange(t: Tender, a: Auction, after: Tender)
    requires Shows(t, a)
    requires after == t.(links := after.links) && after.links.Keys == t.links.Keys
    requires forall i :: i in t.links ==>
               after.links[i].caterer == t.links[i].caterer && after.links[i].rank == t.links[i].rank
    requires Transmitted(after.links) == Transmitted(t.links)
    ensures Shows(after, a)
  {
    RowsMoveOn(t, a.bids, after);
    if t.status == SentToCaterers {
      forall i | i in after.links
        ensures after.links[i].status == TransmittedToClient <==> after.links[i].rank.Some?
      {
        assert i in Transmitted(after.links) <==> i in Transmitted(t.links);
      }
    }
  }

  lemma BidIsNew(t: Tender, a: Auction, i: Id)
    requires Orderly(t) && Shows(t, a) && i in t.links && t.links[i].rank == None
    ensures !HasBid(a, t.links[i].caterer)
  {
    forall k | 0 <= k < |a.bids| ensures a.bids[k].caterer != t.links[i].caterer {
      assert t.links[a.bids[k].link].rank.Some?;
    }
  }

  lemma SubmitIsBid(t: Tender, a: Auction, q: Id, c: Id, hint: Id, i: Id, after: Tender)
    requires Orderly(t) && Shows(t, a)
    requires SubmitTender(t, q, c, hint) == (after, Done)
    requires Pick(LinksOf(t.links, c), hint) == Some(i)
    ensures Enabled(a, Bid(Offer(c, i, q)))
    ensures Shows(after, Next(a, Bid(Offer(c, i, q))))
  {
    hide Sound;
    SubmitShape(t, q, c, hint);
    BidFits(t, a, q, c, i);
    BidShows(t, a, Offer(c, i, q), after);
  }

  lemma BidFits(t: Tender, a: Auction, q: Id, c: Id, i: Id)
    requires Orderly(t) && Shows(t, a) && t.status == SentToCaterers && |Transmitted(t.links)| < 3
    requires i in t.links && t.links[i].caterer == c
    requires q in t.quotes && t.quotes[q].caterer == c && t.quotes[q].status == QuoteDraft
    ensures t.links[i].rank == None && |Transmitted(t.links)| == |a.bids|
    ensures Enabled(a, Bid(Offer(c, i, q)))
  {
    assert Unranked(t, c);
    BidIsNew(t, a, i);
  }

  lemma BidShows(t: Tender, a: Auction, offer: Offer, after: Tender)
    requires Orderly(t) && Shows(t, a) && t.status == SentToCaterers && after.status == t.status
    requires offer.link in t.links && t.links[offer.link].caterer == offer.caterer
    requires t.links[offer.link].rank == None
    requires offer.quote in t.quotes && t.quotes[offer.quote].caterer == offer.caterer
    requires t.quotes[offer.quote].status == QuoteDraft
    requires after.quotes == t.quotes[offer.quote := t.quotes[offer.quote].(status := QuoteSent)]
    requires after.links.Keys == t.links.Keys
    requires after.links[offer.link] == t.links[offer.link].(status := TransmittedToClient, rank := Some(|a.bids| + 1))
    requires forall j :: j in t.links && j != offer.link ==>
               after.links[j].caterer == t.links[j].caterer && after.links[j].rank == t.links[j].rank
    requires Transmitted(after.links) == Transmitted(t.links) + {offer.link}
    requires SentQuotes(after.quotes) == SentQuotes(t.quotes) + {offer.quote}
    ensures Shows(after, Next(a, Bid(offer)))
  {
    BidRanks(t, a.bids, offer, after);
    BidDrafts(t, offer, after);
    BidOpens(t, a.bids, offer, after);
  }

  lemma BidRanks(t: Tender, bids: seq<Offer>, offer: Offer, after: Tender)
    requires BidsAreRanked(t, bids) && RanksAreBids(t, bids)
    requires offer.link in t.links && t.links[offer.link].caterer == offer.caterer
    requires t.links[offer.link].rank == None
    requires offer.quote in t.quotes && t.quotes[offer.quote].caterer == offer.caterer
    requires t.quotes[offer.quote].status == QuoteDraft
    requires after.quotes == t.quotes[offer.quote := t.quotes[offer.quote].(status := QuoteSent)]
    requires after.links.Keys == t.links.Keys
    requires after.links[offer.link].caterer == offer.caterer
    requires after.links[offer.link].rank == Some(|bids| + 1)
    requires forall j :: j in t.links && j != offer.link ==>
               after.links[j].caterer == t.links[j].caterer && after.links[j].rank == t.links[j].rank
    ensures BidsAreRanked(after, bids + [offer]) && RanksAreBids(after, bids + [offer])
  {
    var longer := bids + [offer];
    assert forall k :: 0 <= k < |bids| ==> longer[k] == bids[k];
    forall i | i in after.links && after.links[i].rank.Some?
      ensures 1 <= after.links[i].rank.value <= |longer| && longer[after.links[i].rank.value - 1].link == i
    {
      if i != offer.link {
        assert t.links[i].rank == after.links[i].rank;
      }
    }
    forall k | 0 <= k < |longer|
      ensures longer[k].link in after.links && longer[k].quote in after.quotes
      ensures after.links[longer[k].link].caterer == after.quotes[longer[k].quote].caterer == longer[k].caterer
      ensures after.links[longer[k].link].rank == Some(k + 1)
      ensures after.quotes[longer[k].quote].status != QuoteDraft
    {
      if k < |bids| {
        assert t.links[bids[k].link].rank == Some(k + 1);
      }
    }
  }

  lemma BidOpens(t: Tender, bids: seq<Offer>, offer: Offer, after: Tender)
    requires OpenLinks(t, bids) && t.status == SentToCaterers
    requires offer.link in t.links && t.links[offer.link].rank == None
    requires after.links.Keys == t.links.Keys && after.links[offer.link].rank.Some?
    requires forall j :: j in t.links && j != offer.link ==> after.links[j].rank == t.links[j].rank
    requires Transmitted(after.links) == Transmitted(t.links) + {offer.link}
    ensures OpenLinks(after, bids + [offer])
  {
    assert offer.link !in Transmitted(t.links);
    forall j | j in after.links
      ensures after.links[j].status == TransmittedToClient <==> after.links[j].rank.Some?
    {
      assert j in Transmitted(after.links) <==> j in Transmitted(t.links) || j == offer.link;
    }
  }

  /** The caterer that bids has no other draft left. */
  lemma BidDrafts(t: Tender, offer: Offer, after: Tender)
    requires OneDraftEach(t) && OneLinkEach(t) && BiddersHaveNoDraft(t)
    requires offer.link in t.links && t.links[offer.link].caterer == offer.caterer
    requires offer.quote in t.quotes && t.quotes[offer.quote].caterer == offer.caterer
    requires t.quotes[offer.quote].status == QuoteDraft
    requires after.quotes == t.quotes[offer.quote := t.quotes[offer.quote].(status := QuoteSent)]
    requires after.links.Keys == t.links.Keys
    requires forall j :: j in t.links ==> after.links[j].caterer == t.links[j].caterer
    requires forall j :: j in t.links && j != offer.link ==> after.links[j].rank == t.links[j].rank
    ensures BiddersHaveNoDraft(after)
  {
    forall q | q in after.quotes && after.quotes[q].status == QuoteDraft
      ensures Unranked(after, after.quotes[q].caterer)
    {
      assert q != offer.quote;
      assert t.quotes[q].caterer != offer.caterer;
      assert Unranked(t, t.quotes[q].caterer);
    }
  }

  /** A refused answer changes nothing that shows, even when it closes its own link. */
  lemma LateSubmitStays(t: Tender, a: Auction, q: Id, c: Id, hint: Id)
    requires Orderly(t) && Shows(t, a)
    requires SubmitTender(t, q, c, hint).1 != Done
    ensures Shows(SubmitTender(t, q, c, hint).0, a)
  {
    hide Sound, OrderedForGood, FullMeansClosed, CompletedIsAwarded;
    var after := SubmitTender(t, q, c, hint).0;
    if after.links != t.links {
      var i := Pick(LinksOf(t.links, c), hint).value;
      assert Unranked(t, c);
      assert i !in Transmitted(t.links);
      assert Transmitted(after.links) == Transmitted(t.links);
      LinksMayChange(t, a, after);
    }
  }

  lemma AcceptIsAward(t: Tender, a: Auction, company: Id, q: Id, order: Id, user: Id, today: Day)
    requires Orderly(t) && Shows(t, a)
    requires AcceptTender(t, company, q, order, user, today).1 == Done
    ensures Enabled(a, Award(q))
    ensures Shows(AcceptTender(t, company, q, order, user, today).0, Next(a, Award(q)))
  {
    hide Orderly;
    var after := AcceptTender(t, company, q, order, user, today).0;
    assert q in SentQuotes(t.quotes);
    assert SentQuotes(after.quotes) == {};
    RowsMoveOn(t, a.bids, after);
  }

  /** Ranks do not move, owners do not change and no quote goes back to draft. */
  lemma RowsMoveOn(t: Tender, bids: seq<Offer>, after: Tender)
    requires BidsAreRanked(t, bids) && RanksAreBids(t, bids) && BiddersHaveNoDraft(t)
    requires after.links.Keys == t.links.Keys && after.quotes.Keys == t.quotes.Keys
    requires forall i :: i in t.links ==>
               after.links[i].caterer == t.links[i].caterer && after.links[i].rank == t.links[i].rank
    requires forall q :: q in t.quotes ==>
               && after.quotes[q].caterer == t.quotes[q].caterer
               && (after.quotes[q].status == QuoteDraft ==> t.quotes[q].status == QuoteDraft)
    ensures BidsAreRanked(after, bids) && RanksAreBids(after, bids) && BiddersHaveNoDraft(after)
  {
    forall q | q in after.quotes && after.quotes[q].status == QuoteDraft
      ensures Unranked(after, after.quotes[q].caterer)
    {
      assert Unranked(t, t.quotes[q].caterer);
    }
  }

  lemma RefuseIsTurnDown(t: Tender, a: Auction, company: Id, q: Id)
    requires Orderly(t) && Shows(t, a)
    requires RefuseTender(t, company, q).1 == Done
    ensures Enabled(a, TurnDown(q))
    ensures Shows(RefuseTender(t, company, q).0, Next(a, TurnDown(q)))
  {
    RefuseShape(t, company, q);
    RefusedShows(t, a, q, RefuseTender(t, company, q).0);
  }

  lemma RefusedShows(t: Tender, a: Auction, q: Id, after: Tender)
    requires Orderly(t) && Shows(t, a) && q in t.quotes
    requires after.links == t.links && after.quotes.Keys == t.quotes.Keys
    requires forall p :: p in t.quotes ==>
               after.quotes[p].caterer == t.quotes[p].caterer
               && after.quotes[p].status == if p == q then QuoteRefused else t.quotes[p].status
    requires SentQuotes(after.quotes) == SentQuotes(t.quotes) - {q}
    requires after.status == if SentQuotes(t.quotes) - {q} == {} then QuotesRefused else t.status
    ensures Enabled(a, TurnDown(q)) && Shows(after, Next(a, TurnDown(q)))
  {
    RowsMoveOn(t, a.bids, after);
  }

  lemma BidderHasQuote(t: Tender, a: Auction, i: Id)
    requires Shows(t, a) && i in t.links && t.links[i].rank.Some?
    ensures exists q :: q in QuotesOf(t.quotes, t.links[i].caterer)
  {
    var offer := a.bids[t.links[i].rank.value - 1];
    assert offer.quote in QuotesOf(t.quotes, t.links[i].caterer);
  }

  /** A bidder cannot decline any more, so declining touches no ranked link. */
  lemma DeclineStays(t: Tender, a: Auction, c: Id, link: Id, hint: Id)
    requires Orderly(t) && Shows(t, a)
    ensures Shows(DeclineTender(t, c, link, hint).0, a)
  {
    hide Sound, OrderedForGood, FullMeansClosed, CompletedIsAwarded, OneLinkEach;
    var (after, reply) := DeclineTender(t, c, link, hint);
    if reply == Done {
      var i := Pick(LinksOf(t.links, c), link).value;
      if t.links[i].rank.Some? {
        BidderHasQuote(t, a, i);
        assert false;
      }
      if t.status == SentToCaterers {
        assert Transmitted(after.links) == Transmitted(t.links);
        LinksMayChange(t, a, after);
      }
    }
  }

  /** A draft written, new or over another draft, of a caterer that has not bid. */
  lemma DraftStays(t: Tender, a: Auction, q: Id, row: Quote, after: Tender)
    requires Orderly(t) && Shows(t, a) && after == t.(quotes := t.quotes[q := row])
    requires row.status == QuoteDraft && Unranked(t, row.caterer)
    requires q in t.quotes ==> t.quotes[q].status == QuoteDraft
    requires t.status != Draft && t.status != PendingReview
    ensures Shows(after, a)
  {
    hide Orderly, Unranked, BiddersHaveNoDraft, BidsAreRanked, RanksAreBids, OpenLinks, SamePhase, Transmitted;
    DraftOfNoBidder(t, q, row, after);
    DraftIsNoBid(t, a, q, row, after);
    SameLinksShow(t, a.bids, after);
    assert SentQuotes(after.quotes) == SentQuotes(t.quotes);
  }

  lemma SameLinksShow(t: Tender, bids: seq<Offer>, after: Tender)
    requires RanksAreBids(t, bids) && OpenLinks(t, bids) && after.links == t.links && after.status == t.status
    ensures RanksAreBids(after, bids) && OpenLinks(after, bids)
  {
  }

  lemma DraftIsNoBid(t: Tender, a: Auction, q: Id, row: Quote, after: Tender)
    requires BidsAreRanked(t, a.bids) && SamePhase(t, a.phase) && after == t.(quotes := t.quotes[q := row])
    requires q in t.quotes ==> t.quotes[q].status == QuoteDraft
    ensures BidsAreRanked(after, a.bids) && SamePhase(after, a.phase)
  {
  }

  lemma DraftOfNoBidder(t: Tender, q: Id, row: Quote, after: Tender)
    requires BiddersHaveNoDraft(t) && Unranked(t, row.caterer) && after == t.(quotes := t.quotes[q := row])
    ensures BiddersHaveNoDraft(after)
  {
    forall p | p in after.quotes && after.quotes[p].status == QuoteDraft
      ensures Unranked(after, after.quotes[p].caterer)
    {
      if p != q {
        assert Unranked(t, t.quotes[p].caterer);
      }
    }
  }

  lemma CreateStays(t: Tender, a: Auction, q: Id, c: Id, form: Form)
    requires Orderly(t) && Shows(t, a) && Unranked(t, c)
    ensures Shows(CreateTenderQuote(t, q, c, form).0, a)
  {
    var (after, reply) := CreateTenderQuote(t, q, c, form);
    if reply == Done {
      DraftStays(t, a, q, Quote(t.id, c, QuoteDraft, BodyOf(form)), after);
    }
  }

  lemma UpdateStays(t: Tender, a: Auction, q: Id, c: Id, form: Form)
    requires Orderly(t) && Shows(t, a)
    ensures Shows(UpdateTenderQuote(t, q, c, form).0, a)
  {
    var (after, reply) := UpdateTenderQuote(t, q, c, form);
    if reply == Done {
      assert Unranked(t, t.quotes[q].caterer);
      DraftStays(t, a, q, after.quotes[q], after);
    }
  }

  /** Before the request is sent out there is nothing to show. */
  lemma FirstShows(t: Tender, a: Auction, after: Tender)
    requires Orderly(t) && Shows(t, a) && (t.status == Draft || t.status == PendingReview)
    requires after.status == SentToCaterers && after.quotes == t.quotes
    requires forall i :: i in after.links ==> after.links[i].status == Selected && after.links[i].rank == None
    ensures Enabled(a, Publish) && Shows(after, Next(a, Publish))
  {
    assert SentQuotes(t.quotes) == {};
    assert Transmitted(after.links) == {};
  }

  lemma EditShows(t: Tender, a: Auction, company: Id, only: Option<Id>, compare: bool)
    requires Orderly(t) && Shows(t, a)
    ensures var act := Edit(company, only, compare);
            Enabled(a, MoveOf(t, act)) && Shows(EditTender(t, company, only, compare).0, Next(a, MoveOf(t, act)))
  {
    var (after, reply) := EditTender(t, company, only, compare);
    if reply == Done && t.status == Draft && !compare {
      FirstShows(t, a, after);
    }
  }

  lemma ApproveShows(t: Tender, a: Auction, fan: map<Id, Id>)
    requires Orderly(t) && Shows(t, a) && t.status == PendingReview
    ensures Enabled(a, MoveOf(t, Approve(fan))) && Shows(ApproveTender(t, fan).0, Next(a, MoveOf(t, Approve(fan))))
  {
    FannedOutRows(t.links, fan, t.id);
    if fan != map[] {
      FirstShows(t, a, ApproveTender(t, fan).0);
    }
  }

  lemma RejectShows(t: Tender, a: Auction)
    requires Orderly(t) && Shows(t, a)
    ensures Shows(RejectTender(t).0, Next(a, CallOff))
  {
    SameRowsShow(t, a.bids, RejectTender(t).0);
    hide BidsAreRanked, RanksAreBids, BiddersHaveNoDraft, Orderly;
  }

  lemma SameRowsShow(t: Tender, bids: seq<Offer>, after: Tender)
    requires BidsAreRanked(t, bids) && RanksAreBids(t, bids) && BiddersHaveNoDraft(t)
    requires after.links == t.links && after.quotes == t.quotes
    ensures BidsAreRanked(after, bids) && RanksAreBids(after, bids) && BiddersHaveNoDraft(after)
  {
    hide Unranked;
    forall q | q in after.quotes && after.quotes[q].status == QuoteDraft
      ensures Unranked(after, after.quotes[q].caterer)
    {
      SameLinksUnranked(t, after, t.quotes[q].caterer);
    }
  }

  lemma SameLinksUnranked(t: Tender, after: Tender, caterer: Id)
    requires Unranked(t, caterer) && after.links == t.links
    ensures Unranked(after, caterer)
  {
  }

  lemma SubmitShows(t: Tender, a: Auction, q: Id, c: Id, hint: Id)
    requires Orderly(t) && Shows(t, a)
    ensures var move := MoveOf(t, Submit(q, c, hint));
            Enabled(a, move) && Shows(SubmitTender(t, q, c, hint).0, Next(a, move))
  {
    hide Orderly, Shows;
    var (after, reply) := SubmitTender(t, q, c, hint);
    if reply == Done {
      SubmitIsBid(t, a, q, c, hint, Pick(LinksOf(t.links, c), hint).value, after);
    } else {
      LateSubmitStays(t, a, q, c, hint);
    }
  }

  /** One handler call is one step of the auction, or none. */
  lemma PerformIsMove(t: Tender, a: Auction, act: Act)
    requires Orderly(t) && Shows(t, a) && Fair(t, act)
    ensures Enabled(a, MoveOf(t, act)) && Shows(Perform(t, act).0, Next(a, MoveOf(t, act)))
  {
    hide Shows, Orderly;
    match act
    case Edit(company, only, compare) => EditShows(t, a, company, only, compare);
    case Approve(fan) => ApproveShows(t, a, fan);
    case AdminReject => RejectShows(t, a);
    case CreateQuote(q, c, form) => CreateStays(t, a, q, c, form);
    case UpdateQuote(q, c, form) => UpdateStays(t, a, q, c, form);
    case Submit(q, c, hint) =>
      SubmitShows(t, a, q, c, hint);
    case Decline(c, link, hint) => DeclineStays(t, a, c, link, hint);
    case Accept(company, q, order, user, today) =>
      if Perform(t, act).1 == Done {
        AcceptIsAward(t, a, company, q, order, user, today);
      }
    case Refuse(company, q) =>
      if Perform(t, act).1 == Done {
        RefuseIsTurnDown(t, a, company, q);
      }
  }

  // --- Whole runs -----------------------------------------------------------

  const START := Auction(Dormant, [], {})

  predicate Legal(a: Auction, moves: seq<Move>) {
    if moves == [] then true
    else Legal(a, moves[..|moves| - 1]) && Enabled(Play(a, moves[..|moves| - 1]), moves[|moves| - 1])
  }

  function Play(a: Auction, moves: seq<Move>): Auction {
    if moves == [] then a else Next(Play(a, moves[..|moves| - 1]), moves[|moves| - 1])
  }

  ghost predicate FairRun(m: Market, es: seq<Event>) {
    forall k :: 0 <= k < |es| ==>
      es[k].On? && es[k].id in Run(m, es[..k]) ==> Fair(Run(m, es[..k])[es[k].id], es[k].act)
  }

  /** The moves a run makes on one request. */
  ghost function MovesOf(m: Market, es: seq<Event>, id: Id): seq<Move> {
    if es == [] then []
    else
      var front, e := es[..|es| - 1], es[|es| - 1];
      var mid := Run(m, front);
      MovesOf(m, front, id) + MoveOfEvent(mid, e, id)
  }

  ghost function MoveOfEvent(m: Market, e: Event, id: Id): seq<Move> {
    if e.id != id then []
    else match e
      case NewRequest(_, _, _, compare, target) => if id in m || (compare && target.None?) then [] else [Publish]
      case On(_, act) => if id in m then [MoveOf(m[id], act)] else []
  }

  lemma OneMoreMove(a: Auction, moves: seq<Move>, last: Move)
    requires Legal(a, moves) && Enabled(Play(a, moves), last)
    ensures Legal(a, moves + [last]) && Play(a, moves + [last]) == Next(Play(a, moves), last)
  {
    assert (moves + [last])[..|moves|] == moves;
  }

  lemma FairFront(m: Market, es: seq<Event>)
    requires FairRun(m, es) && es != []
    ensures FairRun(m, es[..|es| - 1])
  {
    var front := es[..|es| - 1];
    forall k | 0 <= k < |front| ensures front[..k] == es[..k] && front[k] == es[k] {
    }
  }

  lemma FairIsDisciplined(m: Market, es: seq<Event>)
    requires FairRun(m, es)
    ensures DisciplinedRun(m, es)
  {
  }

  /** A request of `now` shows the auction `moves` lead to; a request still to come has made no move. */
  ghost predicate ShowsAt(now: Market, id: Id, moves: seq<Move>) {
    && Legal(START, moves) && AuctionOk(Play(START, moves))
    && (id in now ==> Shows(now[id], Play(START, moves)))
    && (id !in now ==> moves == [])
  }

  ghost predicate RunShows(m: Market, es: seq<Event>, id: Id) {
    ShowsAt(Run(m, es), id, MovesOf(m, es, id))
  }

  lemma NothingYetShows(m: Market, id: Id)
    requires Initial(m)
    ensures ShowsAt(m, id, [])
  {
    if id in m {
      assert SentQuotes(m[id].quotes) == {} && Transmitted(m[id].links) == {};
    }
  }

  lemma OpenedShows(id: Id, company: Id, user: Id, compare: bool, target: Option<Target>)
    ensures var t := Opened(id, company, user, compare, target);
            Shows(t, if compare && target.None? then START else Next(START, Publish))
  {
    var t := Opened(id, company, user, compare, target);
    assert Transmitted(t.links) == {} && SentQuotes(t.quotes) == {};
  }

  lemma OneMoreShows(now: Market, id: Id, moves: seq<Move>, after: Market, move: Move)
    requires ShowsAt(now, id, moves) && Enabled(Play(START, moves), move)
    requires id in after && Shows(after[id], Next(Play(START, moves), move))
    ensures ShowsAt(after, id, moves + [move])
  {
    OneMoreMove(START, moves, move);
    NextKeepsAuctionOk(Play(START, moves), move);
  }

  lemma ActShows(now: Market, id: Id, moves: seq<Move>, act: Act)
    requires ShowsAt(now, id, moves) && MarketOrderly(now) && id in now && Fair(now[id], act)
    ensures ShowsAt(Step(now, On(id, act)), id, moves + [MoveOf(now[id], act)])
  {
    PerformIsMove(now[id], Play(START, moves), act);
    OneMoreShows(now, id, moves, Step(now, On(id, act)), MoveOf(now[id], act));
  }

  lemma NewRequestShows(now: Market, e: Event, moves: seq<Move>)
    requires ShowsAt(now, e.id, moves) && e.NewRequest? && e.id !in now
    ensures ShowsAt(Step(now, e), e.id, moves + MoveOfEvent(now, e, e.id))
  {
    OpenedShows(e.id, e.company, e.user, e.compare, e.target);
    if e.compare && e.target.None? {
      assert moves + [] == moves;
    } else {
      OneMoreShows(now, e.id, moves, Step(now, e), Publish);
    }
  }

  lemma EventShows(now: Market, e: Event, id: Id, moves: seq<Move>)
    requires ShowsAt(now, id, moves) && MarketOrderly(now)
    requires e.On? && e.id in now ==> Fair(now[e.id], e.act)
    ensures ShowsAt(Step(now, e), id, moves + MoveOfEvent(now, e, id))
  {
    hide Shows, Perform, Opened, Orderly;
    if e.id == id && e.On? && id in now {
      ActShows(now, id, moves, e.act);
    } else if e.id == id && e.NewRequest? && id !in now {
      NewRequestShows(now, e, moves);
    } else {
      assert moves + [] == moves;
    }
  }

  /** Refinement: every fair run of the handlers is, request by request, a legal play of the auction. */
  lemma {:induction false} EveryFairRunIsAnAuction(m: Market, es: seq<Event>, id: Id)
    requires Initial(m) && FairRun(m, es)
    ensures RunShows(m, es, id)
    decreases |es|
  {
    if es == [] {
      NothingYetShows(m, id);
    } else {
      var front, e := es[..|es| - 1], es[|es| - 1];
      FairFront(m, es);
      EveryFairRunIsAnAuction(m, front, id);
      OrderlyBefore(m, es);
      EventShows(Run(m, front), e, id, MovesOf(m, front, id));
    }
  }

  /** The last event of a fair run meets orderly tenders, and is fair to its own. */
  lemma OrderlyBefore(m: Market, es: seq<Event>)
    requires Initial(m) && FairRun(m, es) && es != []
    ensures var mid, e := Run(m, es[..|es| - 1]), es[|es| - 1];
            MarketOrderly(mid) && (e.On? && e.id in mid ==> Fair(mid[e.id], e.act))
  {
    FairFront(m, es);
    FairIsDisciplined(m, es[..|es| - 1]);
    DisciplinedRunsAreOrderly(m, es[..|es| - 1]);
    assert es[|es| - 1] == es[|es[..|es| - 1]|];
  }

  ghost predicate SomeLinkRanked(links: map<Id, Link>, r: nat) {
    exists i :: i in links && links[i].rank == Some(r)
  }

  /** The ranks on file are 1..k, each on one link. */
  ghost predicate RanksExactly(links: map<Id, Link>, k: nat) {
    && (forall i :: i in links && links[i].rank.Some? ==> 1 <= links[i].rank.value <= k)
    && (forall r: nat :: 1 <= r <= k ==> SomeLinkRanked(links, r))
    && (forall i, j :: i in links && j in links && links[i].rank.Some? && links[i].rank == links[j].rank ==> i == j)
  }

  lemma RanksAreOneToK(m: Market, es: seq<Event>, id: Id)
    requires Initial(m) && FairRun(m, es) && id in Run(m, es)
    ensures exists k: nat :: k <= MAX_BIDS && RanksExactly(Run(m, es)[id].links, k)
  {
    EveryFairRunIsAnAuction(m, es, id);
    RankedAsBid(Run(m, es)[id], Play(START, MovesOf(m, es, id)).bids);
  }

  lemma RankedAsBid(t: Tender, bids: seq<Offer>)
    requires BidsAreRanked(t, bids) && RanksAreBids(t, bids)
    ensures RanksExactly(t.links, |bids|)
  {
    forall r: nat | 1 <= r <= |bids| ensures SomeLinkRanked(t.links, r) {
      var k: nat := r - 1;
      assert t.links[bids[k].link].rank == Some(k + 1);
    }
  }

  /**
   Why the assumption: the handlers let a caterer draft again after its answer.
   A transmitted answer keeps the ranks exact if and only if the link it uses
   had no rank yet.
   */
  lemma AnswerKeepsRanksIff(t: Tender, q: Id, c: Id, hint: Id, k: nat)
    requires RanksExactly(t.links, k) && |Transmitted(t.links)| == k
    requires SubmitTender(t, q, c, hint).1 == Done
    ensures var i := Pick(LinksOf(t.links, c), hint).value;
            (exists n: nat :: RanksExactly(SubmitTender(t, q, c, hint).0.links, n)) <==> t.links[i].rank == None
  {
    var links := SubmitTender(t, q, c, hint).0.links;
    var i := Pick(LinksOf(t.links, c), hint).value;
    assert links.Keys == t.links.Keys && links[i].rank == Some(k + 1);
    assert forall j :: j in links && j != i ==> links[j].rank == t.links[j].rank;
    if t.links[i].rank == None {
      NewRankIsNext(t.links, i, links, k);
    } else {
      forall n: nat ensures !RanksExactly(links, n) {
        if RanksExactly(links, n) {
          LostRank(t.links, i, links, k, n);
        }
      }
    }
  }

  lemma NewRankIsNext(before: map<Id, Link>, i: Id, after: map<Id, Link>, k: nat)
    requires RanksExactly(before, k) && after.Keys == before.Keys && i in before && before[i].rank == None
    requires after[i].rank == Some(k + 1)
    requires forall j :: j in before && j != i ==> after[j].rank == before[j].rank
    ensures RanksExactly(after, k + 1)
  {
    forall r: nat | 1 <= r <= k + 1 ensures SomeLinkRanked(after, r) {
      if r <= k {
        assert SomeLinkRanked(before, r);
        var j :| j in before && before[j].rank == Some(r);
        assert j in after && after[j].rank == Some(r);
      } else {
        assert i in after && after[i].rank == Some(r);
      }
    }
  }

  lemma LostRank(before: map<Id, Link>, i: Id, after: map<Id, Link>, k: nat, n: nat)
    requires RanksExactly(before, k) && after.Keys == before.Keys && i in before && before[i].rank.Some?
    requires after[i].rank == Some(k + 1)
    requires forall j :: j in before && j != i ==> after[j].rank == before[j].rank
    ensures !RanksExactly(after, n)
  {
    var r := before[i].rank.value;
    forall j | j in after ensures after[j].rank != Some(r) {
    }
    assert !SomeLinkRanked(after, r);
  }

  /** The same caterer drafts and answers again. */
  ghost function SecondAnswer(form: Form): (Tender, Reply) {
    Perform(Perform(FirstAnswer(form), CreateQuote(21, 7, form)).0, Submit(21, 7, 10))
  }

  lemma SecondDraftIsThere(form: Form)
    requires QuoteTotals.Acceptable(form.raws)
    ensures var drafted := Perform(FirstAnswer(form), CreateQuote(21, 7, form)).0;
            && drafted.status == SentToCaterers
            && drafted.links == map[10 := Link(1, 7, TransmittedToClient, Some(1))]
            && 21 in drafted.quotes && drafted.quotes[21].caterer == 7 && drafted.quotes[21].status == QuoteDraft
  {
    FirstAnswerState(form);
    DraftingAddsDraft(FirstAnswer(form), 21, 7, 10, form);
    hide FirstAnswer, BodyOf;
  }

  lemma OneLinkRanked(links: map<Id, Link>)
    requires links == map[10 := Link(1, 7, TransmittedToClient, Some(1))]
    ensures Transmitted(links) == {10} && LinksOf(links, 7) == {10} && RanksExactly(links, 1)
  {
    assert links[10].rank == Some(1);
    assert SomeLinkRanked(links, 1);
  }

  /** A run in which it happens: the second answer is transmitted, and no k has the ranks 1..k any more. */
  lemma SecondAnswerLosesRank(form: Form)
    requires QuoteTotals.Acceptable(form.raws)
    ensures SecondAnswer(form).1 == Done
    ensures forall n: nat :: !RanksExactly(SecondAnswer(form).0.links, n)
  {
    var drafted := Perform(FirstAnswer(form), CreateQuote(21, 7, form)).0;
    SecondDraftIsThere(form);
    OneLinkRanked(drafted.links);
    EarlyAnswerIsSent(drafted, 21, 7, 10);
    hide FirstAnswer, RanksExactly;
    AnswerKeepsRanksIff(drafted, 21, 7, 10, 1);
  }
}
