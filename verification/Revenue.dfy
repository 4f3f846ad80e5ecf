/** The revenue figures of the admin payments page and of the caterers' dashboards. */
module Revenue {
  import opened Sums
  import opened Ledger
  import opened LedgerSafety

  ghost function PaidInvoices(b: Books): set<nat> {
    set n | n in b.payments && b.payments[n].status == Succeeded
  }

  ghost function Totals(b: Books): nat -> int {
    (n: nat) => if n in b.payments then b.payments[n].total else 0
  }

  ghost function Fees(b: Books): nat -> int {
    (n: nat) => if n in b.payments then b.payments[n].fee else 0
  }

  ghost function Shares(b: Books): nat -> int {
    (n: nat) => if n in b.payments then b.payments[n].toCaterer else 0
  }

  /** `total_revenue` and `total_commission` of the admin page. */
  ghost function TotalRevenue(b: Books): int {
    SumOver(PaidInvoices(b), Totals(b))
  }

  ghost function TotalCommission(b: Books): int {
    SumOver(PaidInvoices(b), Fees(b))
  }

  /** `total_revenue` of one caterer's dashboard: payments joined to orders and quotes. */
  ghost function CatererRevenue(b: Books, caterer: Id): int {
    SumOver(PaidTo(b, caterer), Shares(b))
  }

  ghost function PaidTo(b: Books, caterer: Id): set<nat> {
    set n | n in PaidInvoices(b) && b.payments[n].order in b.orders
            && b.orders[b.payments[n].order].sale.caterer == caterer
  }

  ghost function RevenueOf(b: Books): nat -> int {
    (c: nat) => CatererRevenue(b, c)
  }

  /** Who the dashboard join gives a payment to. */
  ghost function OwnerOf(b: Books): nat -> nat {
    (n: nat) => if n in b.payments && b.payments[n].order in b.orders
                then b.orders[b.payments[n].order].sale.caterer else 0
  }

  ghost predicate Balanced(b: Books) {
    forall n :: n in b.payments ==>
      && b.payments[n].order in b.orders
      && b.payments[n].toCaterer + b.payments[n].fee == b.payments[n].total
  }

  lemma RevenueSplits(b: Books, caterers: set<Id>)
    requires Balanced(b)
    requires forall o :: o in b.orders ==> b.orders[o].sale.caterer in caterers
    ensures TotalRevenue(b) == TotalCommission(b) + SumOver(caterers, RevenueOf(b))
  {
    SumOverAdds(PaidInvoices(b), Fees(b), Shares(b), Totals(b));
    DashboardsShareIt(b, caterers);
  }

  lemma DashboardsShareIt(b: Books, caterers: set<Id>)
    requires Balanced(b)
    requires forall o :: o in b.orders ==> b.orders[o].sale.caterer in caterers
    ensures SumOver(caterers, RevenueOf(b)) == SumOver(PaidInvoices(b), Shares(b))
  {
    var paid, parts := PaidInvoices(b), PartOf(PaidInvoices(b), OwnerOf(b), Shares(b));
    SumByOwnerConserves(caterers, paid, OwnerOf(b), Shares(b));
    forall c: nat ensures parts(c) == RevenueOf(b)(c) {
      OneDashboard(b, c);
    }
    SumOverAgrees(caterers, parts, RevenueOf(b));
  }

  lemma OneDashboard(b: Books, c: Id)
    requires Balanced(b)
    ensures PartOf(PaidInvoices(b), OwnerOf(b), Shares(b))(c) == RevenueOf(b)(c)
  {
    assert Owned(PaidInvoices(b), OwnerOf(b), c) == PaidTo(b, c);
  }

  /**
   Conservation: in every reachable state the platform's revenue is its
   commission plus what all the caterers' dashboards show.
   */
  lemma RevenueIsConserved(w: World, es: seq<Event>, caterers: set<Id>)
    requires Initial(w)
    requires forall o :: o in Run(w, es).books.orders ==> Run(w, es).books.orders[o].sale.caterer in caterers
    ensures var b := Run(w, es).books;
            TotalRevenue(b) == TotalCommission(b) + SumOver(caterers, RevenueOf(b))
  {
    var b := Run(w, es).books;
    forall n | n in b.payments
      ensures b.payments[n].order in b.orders
      ensures b.payments[n].toCaterer + b.payments[n].fee == b.payments[n].total
    {
      EveryPaymentBalances(w, es, n);
    }
    RevenueSplits(b, caterers);
  }
}
