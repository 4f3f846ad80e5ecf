/** The price stored with a quote and the price its stored lines add up to. */
module Prices {
  import opened Money
  import opened QuoteTotals
  import opened Tenders
  import opened TenderSafety

  /** The total stored with a quote is the one its stored lines add up to. */
  predicate PriceStands(body: Body) {
    body.totalHt == Cents(TotalHt(body.lines))
  }

  ghost predicate PricesStand(t: Tender) {
    forall q :: q in t.quotes ==> PriceStands(t.quotes[q].body)
  }

  predicate FormFits(form: Form) {
    forall i :: 0 <= i < |form.raws| ==> FitsColumns(form.raws[i])
  }

  ghost predicate FormsFit(es: seq<Event>) {
    forall k :: 0 <= k < |es| && es[k].On? ==>
      && (es[k].act.CreateQuote? ==> FormFits(es[k].act.form))
      && (es[k].act.UpdateQuote? ==> FormFits(es[k].act.form))
  }

  lemma BodyStands(form: Form)
    requires FormFits(form)
    ensures PriceStands(BodyOf(form))
  {
    StoringKeepsTotalHt(form.raws);
  }

  lemma DraftingKeepsPrices(t: Tender, q: Id, caterer: Id, form: Form)
    requires PricesStand(t) && FormFits(form)
    ensures PricesStand(CreateTenderQuote(t, q, caterer, form).0)
    ensures PricesStand(UpdateTenderQuote(t, q, caterer, form).0)
  {
    BodyStands(form);
  }

  /** The other handlers write no body. */
  lemma SameBodies(t: Tender, a: Act)
    requires !a.CreateQuote? && !a.UpdateQuote?
    ensures var after := Perform(t, a).0;
            after.quotes.Keys == t.quotes.Keys && forall q :: q in t.quotes ==> after.quotes[q].body == t.quotes[q].body
  {
    if a.Accept? {
      AcceptanceKeepsBodies(t, a);
    } else if a.Submit? {
      AnswerKeepsBodies(t, a);
    }
    hide AcceptTender, SubmitTender;
  }

  lemma AcceptanceKeepsBodies(t: Tender, a: Act)
    requires a.Accept?
    ensures var after := Perform(t, a).0;
            after.quotes.Keys == t.quotes.Keys && forall q :: q in t.quotes ==> after.quotes[q].body == t.quotes[q].body
  {
  }

  lemma AnswerKeepsBodies(t: Tender, a: Act)
    requires a.Submit?
    ensures var after := Perform(t, a).0;
            after.quotes.Keys == t.quotes.Keys && forall q :: q in t.quotes ==> after.quotes[q].body == t.quotes[q].body
  {
  }

  lemma PerformKeepsPrices(t: Tender, a: Act)
    requires PricesStand(t)
    requires a.CreateQuote? || a.UpdateQuote? ==> FormFits(a.form)
    ensures PricesStand(Perform(t, a).0)
  {
    if a.CreateQuote? {
      DraftingKeepsPrices(t, a.newQuote, a.caterer, a.form);
    } else if a.UpdateQuote? {
      DraftingKeepsPrices(t, a.quote, a.caterer, a.form);
    } else {
      SameBodies(t, a);
    }
  }

  lemma {:induction false} EveryRunKeepsPrices(m: Market, es: seq<Event>)
    requires Initial(m) && FormsFit(es)
    ensures forall id :: id in Run(m, es) ==> PricesStand(Run(m, es)[id])
    decreases |es|
  {
    if es != [] {
      var front, e := es[..|es| - 1], es[|es| - 1];
      forall k | 0 <= k < |front| ensures front[k] == es[k] {
      }
      EveryRunKeepsPrices(m, front);
      var mid := Run(m, front);
      if e.On? && e.id in mid {
        assert es[|es| - 1].On?;
        PerformKeepsPrices(mid[e.id], e.act);
      }
    }
  }
}
