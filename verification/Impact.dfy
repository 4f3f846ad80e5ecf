/**
 services/impact.py: the social impact block of the client dashboard, computed
 from one grouped query.
 */
module Impact {
  import opened Wrappers
  import opened Sums
  import Money
  import opened Ledger

  /** `structure_type` is a text column: four values have a meaning, sign-up stores whatever it is sent. */
  datatype Structure = ESAT | EA | EI | ACI | Other(name: string)

  const SIAE_STRUCTURE_TYPES: set<Structure> := {EI, ACI}
  const STPA_STRUCTURE_TYPES: set<Structure> := {ESAT, EA}

  /** Amounts in cents, hours in whole hours. */
  datatype SocialImpact = SocialImpact(totalHt: int, siaeHt: int, stpaHt: int, hoursFinanced: int)

  const HOURS_FINANCED_DIVISOR_EUR := 26

  // --- The query --------------------------------------------------------------

  /** The paid orders of a company, of one requester if one is given. */
  function Purchases(b: Books, company: Id, requester: Option<Id>): set<Id> {
    set o | o in b.orders && b.orders[o].status == Paid && b.orders[o].sale.company == company
            && (requester.Some? ==> b.orders[o].sale.requester == requester.value)
  }

  function AmountOf(b: Books): nat -> int {
    (o: nat) => if o in b.orders then b.orders[o].sale.totalHt else 0
  }

  /** The GROUP BY: the orders of `rows` whose caterer has structure `s`. */
  function Group(b: Books, rows: set<Id>, kind: Id -> Structure, s: Structure): set<Id> {
    set o | o in rows && o in b.orders && kind(b.orders[o].sale.caterer) == s
  }

  function Groups(b: Books, rows: set<Id>, kind: Id -> Structure): set<Structure> {
    set o | o in rows && o in b.orders :: kind(b.orders[o].sale.caterer)
  }

  /** The orders the groups in `done` cover. */
  ghost function Covered(b: Books, rows: set<Id>, kind: Id -> Structure, done: set<Structure>): set<Id> {
    set o | o in rows && o in b.orders && kind(b.orders[o].sale.caterer) in done
  }

  // --- The same figures order by order ------------------------------------------

  ghost function SumWhere(b: Books, rows: set<Id>, kind: Id -> Structure, done: set<Structure>): int {
    SumOver(Covered(b, rows, kind, done), AmountOf(b))
  }

  function Hours(totalHt: int): int {
    if totalHt > 0 then Money.HalfEven(Money.Euros(totalHt) / 26.0) else 0
  }

  /** Sums over single orders, with no grouping. */
  ghost function ImpactOf(b: Books, company: Id, requester: Option<Id>, kind: Id -> Structure): SocialImpact {
    var rows := Purchases(b, company, requester);
    var total := SumOver(rows, AmountOf(b));
    SocialImpact(total, SumWhere(b, rows, kind, SIAE_STRUCTURE_TYPES),
                 SumWhere(b, rows, kind, STPA_STRUCTURE_TYPES), Hours(total))
  }

  // --- The computation ------------------------------------------------------------

  /** `sum(Quote.total_amount_ht)` over a set of rows, in any order. */
  method SumColumn(b: Books, rows: set<Id>) returns (total: int)
    ensures total == SumOver(rows, AmountOf(b))
  {
    total := 0;
    var todo := rows;
    while todo != {}
      invariant todo <= rows
      invariant total + SumOver(todo, AmountOf(b)) == SumOver(rows, AmountOf(b))
    {
      var o :| o in todo;
      SumOverTake(todo, AmountOf(b), o);
      total := total + AmountOf(b)(o);
      todo := todo - {o};
    }
  }

  lemma CoverOneMore(b: Books, rows: set<Id>, kind: Id -> Structure, done: set<Structure>, s: Structure)
    requires s !in done
    ensures SumWhere(b, rows, kind, done + {s})
         == SumWhere(b, rows, kind, done) + SumOver(Group(b, rows, kind, s), AmountOf(b))
  {
    assert Covered(b, rows, kind, done + {s}) == Covered(b, rows, kind, done) + Group(b, rows, kind, s);
    SumOverUnion(Covered(b, rows, kind, done), Group(b, rows, kind, s), AmountOf(b));
  }

  /** The three accumulators once the groups in `done` have been read. */
  ghost predicate Tallied(b: Books, rows: set<Id>, kind: Id -> Structure, done: set<Structure>,
                          totalHt: int, siaeHt: int, stpaHt: int) {
    && totalHt == SumWhere(b, rows, kind, done)
    && siaeHt == SumWhere(b, rows, kind, done * SIAE_STRUCTURE_TYPES)
    && stpaHt == SumWhere(b, rows, kind, done * STPA_STRUCTURE_TYPES)
  }

  lemma TallyOneMore(b: Books, rows: set<Id>, kind: Id -> Structure, done: set<Structure>, s: Structure,
                     totalHt: int, siaeHt: int, stpaHt: int, bucket: int)
    requires s !in done && Tallied(b, rows, kind, done, totalHt, siaeHt, stpaHt)
    requires bucket == SumOver(Group(b, rows, kind, s), AmountOf(b))
    ensures Tallied(b, rows, kind, done + {s}, totalHt + bucket,
                    if s in SIAE_STRUCTURE_TYPES then siaeHt + bucket else siaeHt,
                    if s in STPA_STRUCTURE_TYPES then stpaHt + bucket else stpaHt)
  {
    CoverOneMore(b, rows, kind, done, s);
    SectorOneMore(b, rows, kind, done, s, SIAE_STRUCTURE_TYPES);
    SectorOneMore(b, rows, kind, done, s, STPA_STRUCTURE_TYPES);
  }

  lemma SectorOneMore(b: Books, rows: set<Id>, kind: Id -> Structure, done: set<Structure>, s: Structure,
                      sector: set<Structure>)
    requires s !in done
    ensures SumWhere(b, rows, kind, (done + {s}) * sector)
         == SumWhere(b, rows, kind, done * sector)
            + if s in sector then SumOver(Group(b, rows, kind, s), AmountOf(b)) else 0
  {
    if s in sector {
      assert (done + {s}) * sector == done * sector + {s};
      CoverOneMore(b, rows, kind, done * sector, s);
    } else {
      assert (done + {s}) * sector == done * sector;
    }
  }

  /** compute_social_impact: the loop over the grouped rows, whichever order the database gives them in. */
  method ComputeSocialImpact(b: Books, company: Id, requester: Option<Id>, kind: Id -> Structure)
    returns (impact: SocialImpact)
    ensures impact == ImpactOf(b, company, requester, kind)
  {
    hide Group, Hours, SIAE_STRUCTURE_TYPES, STPA_STRUCTURE_TYPES;
    var rows := Purchases(b, company, requester);
    var groups := Groups(b, rows, kind);
    var totalHt, siaeHt, stpaHt := 0, 0, 0;
    var todo := groups;
    NothingTallied(b, rows, kind);
    assert groups - todo == {};
    hide SumWhere, Tallied, Purchases, Groups, ImpactOf;
    while todo != {}
      invariant todo <= groups
      invariant Tallied(b, rows, kind, groups - todo, totalHt, siaeHt, stpaHt)
    {
      var s :| s in todo;
      var bucket := SumColumn(b, Group(b, rows, kind, s));
      TallyOneMore(b, rows, kind, groups - todo, s, totalHt, siaeHt, stpaHt, bucket);
      OneGroupLess(groups, todo, s);
      totalHt := totalHt + bucket;
      if s in SIAE_STRUCTURE_TYPES {
        siaeHt := siaeHt + bucket;
      } else if s in STPA_STRUCTURE_TYPES {
        stpaHt := stpaHt + bucket;
      }
      todo := todo - {s};
    }
    assert groups - todo == groups;
    AllTallied(b, company, requester, kind, totalHt, siaeHt, stpaHt);
    impact := SocialImpact(totalHt, siaeHt, stpaHt, Hours(totalHt));
  }

  lemma OneGroupLess(groups: set<Structure>, todo: set<Structure>, s: Structure)
    requires todo <= groups && s in todo
    ensures groups - (todo - {s}) == groups - todo + {s} && s !in groups - todo
    ensures s in SIAE_STRUCTURE_TYPES ==> s !in STPA_STRUCTURE_TYPES
  {
  }

  /** Once every group has been read, the accumulators are the sums over single orders. */
  lemma AllTallied(b: Books, company: Id, requester: Option<Id>, kind: Id -> Structure,
                   totalHt: int, siaeHt: int, stpaHt: int)
    requires var rows := Purchases(b, company, requester);
             Tallied(b, rows, kind, Groups(b, rows, kind), totalHt, siaeHt, stpaHt)
    ensures ImpactOf(b, company, requester, kind) == SocialImpact(totalHt, siaeHt, stpaHt, Hours(totalHt))
  {
    AllCovered(b, Purchases(b, company, requester), kind);
  }

  lemma NothingTallied(b: Books, rows: set<Id>, kind: Id -> Structure)
    ensures Tallied(b, rows, kind, {}, 0, 0, 0)
  {
    assert Covered(b, rows, kind, {}) == {};
    assert {} * SIAE_STRUCTURE_TYPES == {} && {} * STPA_STRUCTURE_TYPES == {};
  }

  lemma AllCovered(b: Books, rows: set<Id>, kind: Id -> Structure)
    requires forall o :: o in rows ==> o in b.orders
    ensures var groups := Groups(b, rows, kind);
            && Covered(b, rows, kind, groups) == rows
            && Covered(b, rows, kind, groups * SIAE_STRUCTURE_TYPES) == Covered(b, rows, kind, SIAE_STRUCTURE_TYPES)
            && Covered(b, rows, kind, groups * STPA_STRUCTURE_TYPES) == Covered(b, rows, kind, STPA_STRUCTURE_TYPES)
  {
  }

  // --- What the figures promise ---------------------------------------------------

  /** The orders of caterers whose structure is none of the four. */
  ghost function Unclassified(b: Books, rows: set<Id>, kind: Id -> Structure): set<Id> {
    set o | o in rows && o in b.orders && kind(b.orders[o].sale.caterer).Other?
  }

  /** The loop adds those orders to the total and to neither sector. */
  lemma SectorsAndTheRest(b: Books, company: Id, requester: Option<Id>, kind: Id -> Structure)
    ensures var i := ImpactOf(b, company, requester, kind);
            i.siaeHt + i.stpaHt + SumOver(Unclassified(b, Purchases(b, company, requester), kind), AmountOf(b))
                == i.totalHt
  {
    hide Hours;
    var rows := Purchases(b, company, requester);
    var siae, stpa := Covered(b, rows, kind, SIAE_STRUCTURE_TYPES), Covered(b, rows, kind, STPA_STRUCTURE_TYPES);
    var rest := Unclassified(b, rows, kind);
    forall o | o in rows ensures o in siae || o in stpa || o in rest {
      var s := kind(b.orders[o].sale.caterer);
      assert s.ESAT? || s.EA? || s.EI? || s.ACI? || s.Other?;
    }
    assert siae + stpa + rest == rows;
    SumOverUnion(siae, stpa, AmountOf(b));
    SumOverUnion(siae + stpa, rest, AmountOf(b));
  }

  /** The two sectors add up to the total if and only if the orders of such caterers come to nothing. */
  lemma SectorsShareTheTotalIff(b: Books, company: Id, requester: Option<Id>, kind: Id -> Structure)
    ensures var i := ImpactOf(b, company, requester, kind);
            i.siaeHt + i.stpaHt == i.totalHt
            <==> SumOver(Unclassified(b, Purchases(b, company, requester), kind), AmountOf(b)) == 0
  {
    SectorsAndTheRest(b, company, requester, kind);
  }

  /** For caterers of the four structures they do: no paid order is left out or counted twice. */
  lemma SectorsShareTheTotal(b: Books, company: Id, requester: Option<Id>, kind: Id -> Structure)
    requires forall o :: o in Purchases(b, company, requester) ==> !kind(b.orders[o].sale.caterer).Other?
    ensures var i := ImpactOf(b, company, requester, kind);
            i.siaeHt + i.stpaHt == i.totalHt
  {
    SectorsAndTheRest(b, company, requester, kind);
    assert Unclassified(b, Purchases(b, company, requester), kind) == {};
  }

  /** One paid order of a caterer that signed up as a SCIC: it is in the total, and in no sector. */
  lemma UnknownStructureIsInNoSector(b: Books, sale: Sale, kind: Id -> Structure)
    requires sale.totalHt == 100000 && kind(sale.caterer) == Other("SCIC")
    requires b.orders == map[1 := Order(sale, Paid, 1, None)]
    ensures var i := ImpactOf(b, sale.company, None, kind);
            i.totalHt == 100000 && i.siaeHt == 0 && i.stpaHt == 0
  {
    var rows := Purchases(b, sale.company, None);
    assert rows == {1};
    SumOverTake(rows, AmountOf(b), 1);
    assert rows - {1} == {};
    assert Covered(b, rows, kind, SIAE_STRUCTURE_TYPES) == {} && Covered(b, rows, kind, STPA_STRUCTURE_TYPES) == {};
  }

  ghost function RequesterOf(b: Books): nat -> nat {
    (o: nat) => if o in b.orders then b.orders[o].sale.requester else 0
  }

  ghost function UserTotal(b: Books, company: Id, kind: Id -> Structure): nat -> int {
    (u: nat) => ImpactOf(b, company, Some(u), kind).totalHt
  }

  /** What the users of a company see on their own dashboards adds up to what its admin sees. */
  lemma UsersAddUpToCompany(b: Books, company: Id, kind: Id -> Structure, users: set<Id>)
    requires forall o :: o in Purchases(b, company, None) ==> b.orders[o].sale.requester in users
    ensures SumOver(users, UserTotal(b, company, kind)) == ImpactOf(b, company, None, kind).totalHt
  {
    var rows := Purchases(b, company, None);
    var part := PartOf(rows, RequesterOf(b), AmountOf(b));
    SumByOwnerConserves(users, rows, RequesterOf(b), AmountOf(b));
    forall u: nat ensures part(u) == UserTotal(b, company, kind)(u) {
      assert Owned(rows, RequesterOf(b), u) == Purchases(b, company, Some(u));
    }
    SumOverAgrees(users, part, UserTotal(b, company, kind));
  }

  /** 26 euros an hour: the hours shown are worth the total within 13 euros. */
  lemma HoursNearTheTotal(b: Books, company: Id, requester: Option<Id>, kind: Id -> Structure)
    requires forall o :: o in b.orders ==> b.orders[o].sale.totalHt >= 0
    ensures var i := ImpactOf(b, company, requester, kind);
            -1300 <= 100 * HOURS_FINANCED_DIVISOR_EUR * i.hoursFinanced - i.totalHt <= 1300
  {
    var total := ImpactOf(b, company, requester, kind).totalHt;
    SumOverNonNegative(Purchases(b, company, requester), AmountOf(b));
    HoursWithin(total);
  }

  lemma HoursWithin(totalHt: int)
    requires totalHt >= 0
    ensures -1300 <= 2600 * Hours(totalHt) - totalHt <= 1300
  {
    if totalHt > 0 {
      var hours := Money.Euros(totalHt) / 26.0;
      assert hours * 2600.0 == totalHt as real;
      assert -0.5 <= Hours(totalHt) as real - hours <= 0.5;
      assert -1300.0 <= 2600.0 * Hours(totalHt) as real - totalHt as real <= 1300.0;
    }
  }
}
