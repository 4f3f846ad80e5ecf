/**
 services/quotes.py: line validation and quote totals, and the amounts that
 services/stripe_service.py derives from them.
 */
module QuoteTotals {
  import opened Wrappers
  import opened Money
  import References

  // --- Validation: lines_from_dicts -----------------------------------------

  /** One number of a submitted line, as `_parse_finite_decimal` sees it. */
  datatype Field = Missing | NotANumber | NotFinite | Number(value: real)

  datatype RawLine = RawLine(section: Option<string>, description: Option<string>,
                             quantity: Field, unitPrice: Field, rate: Field, rateText: string)

  datatype Rule =
    | BadQuantity | BadPrice | BadRate
    | QuantityOutOfRange | PriceOutOfRange | LineTotalTooLarge | IllegalRate | DescriptionTooLong

  datatype LineError = LineError(index: nat, rule: Rule)

  const MAX_QUANTITY := 10000.0
  const MAX_UNIT_PRICE_HT := 100000.0
  const MAX_LINE_TOTAL_HT := 10000000.0
  const MAX_DESCRIPTION_LEN := 1000
  const MAX_SECTION_LEN := 50

  predicate Finite(f: Field) {
    f.Missing? || f.Number?
  }

  function ValueOr(f: Field, default: real): real {
    if f.Number? then f.value else default
  }

  predicate LegalRate(rate: real) {
    rate == 0.0 || rate == 2.1 || rate == 5.5 || rate == 10.0 || rate == 20.0
  }

  /** The first rule a submitted line breaks, in the order the checks are made. */
  function Fault(raw: RawLine): Option<Rule> {
    if !Finite(raw.quantity) then Some(BadQuantity)
    else if !Finite(raw.unitPrice) then Some(BadPrice)
    else if !Finite(raw.rate) then Some(BadRate)
    else
      var l := Parsed(raw);
      if l.quantity < 0.0 || l.quantity > MAX_QUANTITY then Some(QuantityOutOfRange)
      else if l.unitPrice < 0.0 || l.unitPrice > MAX_UNIT_PRICE_HT then Some(PriceOutOfRange)
      else if LineHt(l) > MAX_LINE_TOTAL_HT then Some(LineTotalTooLarge)
      else if !LegalRate(l.rate) then Some(IllegalRate)
      else if raw.description.Some? && |raw.description.value| > MAX_DESCRIPTION_LEN then Some(DescriptionTooLong)
      else None
  }

  function Product(raw: RawLine): real
    requires raw.quantity.Number? && raw.unitPrice.Number?
  {
    raw.quantity.value * raw.unitPrice.value
  }

  /** What a line may say, field by field: a missing field is fine. */
  predicate WithinRules(raw: RawLine) {
    && (raw.quantity.Missing? || (raw.quantity.Number? && 0.0 <= raw.quantity.value <= 10000.0))
    && (raw.unitPrice.Missing? || (raw.unitPrice.Number? && 0.0 <= raw.unitPrice.value <= 100000.0))
    && (raw.quantity.Number? && raw.unitPrice.Number? ==> Product(raw) <= 10000000.0)
    && (raw.rate.Missing? || (raw.rate.Number? && raw.rate.value in {0.0, 2.1, 5.5, 10.0, 20.0}))
    && (raw.description.Some? ==> |raw.description.value| <= 1000)
  }

  /** The rules in the order a line is held against them. */
  const CHECKS: seq<Rule> := [BadQuantity, BadPrice, BadRate, QuantityOutOfRange, PriceOutOfRange,
                              LineTotalTooLarge, IllegalRate, DescriptionTooLong]

  predicate Breaks(raw: RawLine, rule: Rule) {
    match rule
    case BadQuantity => raw.quantity.NotANumber? || raw.quantity.NotFinite?
    case BadPrice => raw.unitPrice.NotANumber? || raw.unitPrice.NotFinite?
    case BadRate => raw.rate.NotANumber? || raw.rate.NotFinite?
    case QuantityOutOfRange => raw.quantity.Number? && !(0.0 <= raw.quantity.value <= 10000.0)
    case PriceOutOfRange => raw.unitPrice.Number? && !(0.0 <= raw.unitPrice.value <= 100000.0)
    case LineTotalTooLarge =>
      raw.quantity.Number? && raw.unitPrice.Number? && Product(raw) > 10000000.0
    case IllegalRate => raw.rate.Number? && raw.rate.value !in {0.0, 2.1, 5.5, 10.0, 20.0}
    case DescriptionTooLong => raw.description.Some? && |raw.description.value| > 1000
  }

  /** `rule` is the first of the checks the line fails. */
  ghost predicate FirstBroken(raw: RawLine, rule: Rule) {
    exists k :: 0 <= k < |CHECKS| && CHECKS[k] == rule && Breaks(raw, rule)
                && forall j :: 0 <= j < k ==> !Breaks(raw, CHECKS[j])
  }

  lemma FaultIsFirstBroken(raw: RawLine)
    ensures Fault(raw) == None <==> WithinRules(raw)
    ensures Fault(raw).Some? ==> FirstBroken(raw, Fault(raw).value)
  {
    LineTotalOf(raw);
    hide LineHt, Product;
    if Fault(raw).Some? {
      var rule := Fault(raw).value;
      var k := PlaceOf(rule);
      assert Breaks(raw, rule) && forall j :: 0 <= j < k ==> !Breaks(raw, CHECKS[j]);
    }
  }

  /** A line without one of the two numbers comes to nothing. */
  lemma LineTotalOf(raw: RawLine)
    ensures raw.quantity.Number? && raw.unitPrice.Number? ==>
              LineHt(Parsed(raw)) == Product(raw)
    ensures !raw.quantity.Number? || !raw.unitPrice.Number? ==> LineHt(Parsed(raw)) == 0.0
  {
  }

  function PlaceOf(rule: Rule): (k: nat)
    ensures k < |CHECKS| && CHECKS[k] == rule
  {
    match rule
    case BadQuantity => 0
    case BadPrice => 1
    case BadRate => 2
    case QuantityOutOfRange => 3
    case PriceOutOfRange => 4
    case LineTotalTooLarge => 5
    case IllegalRate => 6
    case DescriptionTooLong => 7
  }

  predicate Acceptable(raws: seq<RawLine>) {
    forall i :: 0 <= i < |raws| ==> Fault(raws[i]) == None
  }

  /** The line as `calculate_quote_totals` reads it. */
  function Parsed(raw: RawLine): Line {
    Line(if raw.section.Some? then raw.section.value else "principal",
         ValueOr(raw.quantity, 0.0),
         ValueOr(raw.unitPrice, 0.0),
         ValueOr(raw.rate, 10.0),
         if raw.rate.Number? then raw.rateText else "10")
  }

  function ParsedLines(raws: seq<RawLine>): seq<Line> {
    seq(|raws|, i requires 0 <= i < |raws| => Parsed(raws[i]))
  }

  /** `str(ln.tva_rate)` of a stored rate, one of the five legal ones: the column keeps two decimals. */
  function StoredRateKey(rate: real): (key: string)
    ensures key in STORED_RATE_KEYS
  {
    if rate == 0.0 then "0.00"
    else if rate == 2.1 then "2.10"
    else if rate == 5.5 then "5.50"
    else if rate == 10.0 then "10.00"
    else "20.00"
  }

  /** The row the `quote_lines` columns keep: three decimals of quantity, two of price. */
  function Stored(raw: RawLine): Line {
    var l := Parsed(raw);
    var section := if l.section == "" then "principal" else l.section;
    Line(if |section| > MAX_SECTION_LEN then section[..MAX_SECTION_LEN] else section,
         HalfUp(l.quantity * 1000.0) as real / 1000.0,
         HalfUp(l.unitPrice * 100.0) as real / 100.0,
         l.rate,
         StoredRateKey(l.rate))
  }

  function StoredLines(raws: seq<RawLine>): seq<Line> {
    seq(|raws|, i requires 0 <= i < |raws| => Stored(raws[i]))
  }

  method LinesFromDicts(raws: seq<RawLine>) returns (r: Result<seq<Line>, LineError>)
    ensures r.Ok? <==> Acceptable(raws)
    ensures r.Ok? <==> forall i :: 0 <= i < |raws| ==> WithinRules(raws[i])
    ensures r.Ok? ==> r.value == StoredLines(raws)
    ensures r.Err? ==>
              && r.error.index < |raws|
              && FirstBroken(raws[r.error.index], r.error.rule)
              && forall i :: 0 <= i < r.error.index ==> WithinRules(raws[i])
  {
    var lines: seq<Line> := [];
    for i := 0 to |raws|
      invariant lines == StoredLines(raws[..i])
      invariant Acceptable(raws[..i])
      invariant forall j :: 0 <= j < i ==> WithinRules(raws[j])
    {
      FaultIsFirstBroken(raws[i]);
      var fault := Fault(raws[i]);
      if fault.Some? {
        return Err(LineError(i, fault.value));
      }
      lines := lines + [Stored(raws[i])];
    }
    assert raws[..|raws|] == raws;
    r := Ok(lines);
  }

  /** What fits the columns: at most three decimals of quantity and two of price. */
  predicate FitsColumns(raw: RawLine) {
    QuantityFits(raw) && PriceFits(raw)
  }

  predicate QuantityFits(raw: RawLine) {
    Whole(Parsed(raw).quantity * 1000.0)
  }

  predicate PriceFits(raw: RawLine) {
    Whole(Parsed(raw).unitPrice * 100.0)
  }

  predicate Whole(x: real) {
    x.Floor as real == x
  }

  /** The HT total computed from the form equals the one recomputed from the stored lines. */
  lemma StoringKeepsTotalHt(raws: seq<RawLine>)
    requires forall i :: 0 <= i < |raws| ==> FitsColumns(raws[i])
    ensures TotalHt(StoredLines(raws)) == TotalHt(ParsedLines(raws))
    ensures TotalTva(StoredLines(raws)) == TotalTva(ParsedLines(raws))
  {
    forall i | 0 <= i < |raws|
      ensures LineHt(Stored(raws[i])) == LineHt(Parsed(raws[i]))
      ensures LineTva(Stored(raws[i])) == LineTva(Parsed(raws[i]))
    {
      StoringKeepsLineIff(raws[i]);
    }
    SumOfAgrees(LineHt, StoredLines(raws), LineHt, ParsedLines(raws));
    SumOfAgrees(LineTva, StoredLines(raws), LineTva, ParsedLines(raws));
  }

  /** The columns keep the two numbers of a line if and only if they fit. */
  lemma StoringKeepsLineIff(raw: RawLine)
    ensures Stored(raw).quantity == Parsed(raw).quantity <==> QuantityFits(raw)
    ensures Stored(raw).unitPrice == Parsed(raw).unitPrice <==> PriceFits(raw)
    ensures Stored(raw).rate == Parsed(raw).rate
  {
    var l := Parsed(raw);
    HalfUpKeepsIff(l.quantity * 1000.0);
    HalfUpKeepsIff(l.unitPrice * 100.0);
    assert HalfUp(l.quantity * 1000.0) as real / 1000.0 == l.quantity
       <==> HalfUp(l.quantity * 1000.0) as real == l.quantity * 1000.0;
    assert HalfUp(l.unitPrice * 100.0) as real / 100.0 == l.unitPrice
       <==> HalfUp(l.unitPrice * 100.0) as real == l.unitPrice * 100.0;
  }

  lemma HalfUpKeepsIff(x: real)
    ensures HalfUp(x) as real == x <==> Whole(x)
  {
    if Whole(x) {
      HalfUpOfInt(x.Floor);
    } else {
      WholeOfInt(HalfUp(x));
    }
  }

  lemma HalfUpOfInt(n: int)
    ensures HalfUp(n as real) == n
  {
  }

  lemma WholeOfInt(n: int)
    ensures Whole(n as real)
  {
  }

  /** One of the two numbers fits, and is not zero: rounding the other shows in the amount. */
  predicate ShowsRounding(raw: RawLine) {
    || (QuantityFits(raw) && Parsed(raw).quantity != 0.0)
    || (PriceFits(raw) && Parsed(raw).unitPrice != 0.0)
  }

  lemma ProductKeptIff(q: real, p: real, q': real, p': real)
    requires (q' == q && q != 0.0) || (p' == p && p != 0.0)
    ensures q' * p' == q * p <==> q' == q && p' == p
  {
    if q' == q {
      assert q' * p' - q * p == q * (p' - p);
    } else {
      assert q' * p' - q * p == p * (q' - q);
    }
  }

  /** The amount of such a line goes through the columns if and only if the line fits. */
  lemma StoringKeepsAmountIff(raw: RawLine)
    requires ShowsRounding(raw)
    ensures LineHt(Stored(raw)) == LineHt(Parsed(raw)) <==> FitsColumns(raw)
  {
    StoringKeepsLineIff(raw);
    hide Stored, Parsed, QuantityFits, PriceFits;
    var p, s := Parsed(raw), Stored(raw);
    ProductKeptIff(p.quantity, p.unitPrice, s.quantity, s.unitPrice);
  }

  /**
   So does the exact HT total of a form in which one such line may not fit: the
   stored lines add up to what the form added up to if and only if that line fits.
   */
  lemma StoringKeepsTotalIff(left: seq<RawLine>, raw: RawLine, right: seq<RawLine>)
    requires forall i :: 0 <= i < |left| ==> FitsColumns(left[i])
    requires forall i :: 0 <= i < |right| ==> FitsColumns(right[i])
    requires ShowsRounding(raw)
    ensures TotalHt(StoredLines(left + [raw] + right)) == TotalHt(ParsedLines(left + [raw] + right))
        <==> FitsColumns(raw)
  {
    hide LineHt, SumOf;
    assert StoredLines(left + [raw] + right) == StoredLines(left) + [Stored(raw)] + StoredLines(right);
    assert ParsedLines(left + [raw] + right) == ParsedLines(left) + [Parsed(raw)] + ParsedLines(right);
    SumOfMoveToEnd(LineHt, StoredLines(left), Stored(raw), StoredLines(right));
    SumOfMoveToEnd(LineHt, ParsedLines(left), Parsed(raw), ParsedLines(right));
    SumOfConcat(LineHt, StoredLines(left), StoredLines(right));
    SumOfConcat(LineHt, ParsedLines(left), ParsedLines(right));
    StoringKeepsTotalHt(left);
    StoringKeepsTotalHt(right);
    StoringKeepsAmountIff(raw);
  }

  /** Without that condition the two totals part: 0.0005 units at 100 euros are 5 cents, stored as 10. */
  lemma StoringMayChangeTotal()
    ensures var raw := RawLine(None, None, Number(0.0005), Number(100.0), Missing, "");
            && Fault(raw) == None
            && !FitsColumns(raw)
            && Cents(TotalHt(ParsedLines([raw]))) == 5
            && Cents(TotalHt(StoredLines([raw]))) == 10
  {
    var raw := RawLine(None, None, Number(0.0005), Number(100.0), Missing, "");
    var p, s := Parsed(raw), Stored(raw);
    assert ParsedLines([raw]) == [p] && StoredLines([raw]) == [s];
    assert [p][..0] == [] && [s][..0] == [];
    assert p.quantity * 1000.0 == 0.5;
    assert HalfUp(0.5) == 1;
    assert s.quantity == 0.001;
    assert (p.unitPrice * 100.0) == 10000.0;
    assert HalfUp(10000.0) == 10000;
    assert s.unitPrice == 100.0;
    assert LineHt(p) == 0.05 && LineHt(s) == 0.1;
    HalfEvenIsTheOnlyOne(5.0, 5);
    HalfEvenIsTheOnlyOne(10.0, 10);
  }

  // --- Totals: calculate_quote_totals ---------------------------------------

  function SectionKey(l: Line): string {
    l.section
  }

  function RateKey(l: Line): string {
    l.rateKey
  }

  /** The amounts before the final rounding, in euros. */
  datatype ExactTotals = ExactTotals(sections: map<string, real>, ratesHt: map<string, real>,
                                     ratesTva: map<string, real>,
                                     ht: real, tva: real, perPerson: real, feeHt: real)

  /** The amounts returned, in cents. */
  datatype Totals = Totals(sections: map<string, int>, ratesHt: map<string, int>, ratesTva: map<string, int>,
                           ht: int, tva: int, ttc: int, perPerson: int,
                           feeHt: int, feeTva: int, feeTtc: int)

  const DEFAULT_COMMISSION_RATE := 0.05

  function Buckets(key: Line -> string, amount: Line -> real, lines: seq<Line>): map<string, real> {
    map k | k in Keys(key, lines) :: Bucket(key, k, amount, lines)
  }

  function PerPerson(ttc: real, guests: Option<int>): real {
    if guests.Some? && guests.value != 0 then ttc / guests.value as real else 0.0
  }

  /** The totals as sums over the lines, with no accumulator. */
  function ExactOf(lines: seq<Line>, guests: Option<int>, commission: Option<real>): ExactTotals {
    var ht, tva := TotalHt(lines), TotalTva(lines);
    var rate := if commission.Some? then commission.value else DEFAULT_COMMISSION_RATE;
    ExactTotals(Buckets(SectionKey, LineHt, lines), Buckets(RateKey, LineHt, lines), Buckets(RateKey, LineTva, lines),
                ht, tva, PerPerson(ht + tva, guests), ht * rate)
  }

  function RoundAll(m: map<string, real>): map<string, int> {
    map k | k in m :: Cents(m[k])
  }

  function Rounded(e: ExactTotals): Totals {
    Totals(RoundAll(e.sections), RoundAll(e.ratesHt), RoundAll(e.ratesTva),
           Cents(e.ht), Cents(e.tva), Cents(e.ht + e.tva), Cents(e.perPerson),
           Cents(e.feeHt), 0, Cents(e.feeHt))
  }

  function TotalsOf(lines: seq<Line>, guests: Option<int>, commission: Option<real>): Totals {
    Rounded(ExactOf(lines, guests, commission))
  }

  /** One entry of a grouping dict is created on first use, then incremented. */
  method AddTo(acc: map<string, real>, k: string, x: real,
               ghost key: Line -> string, ghost amount: Line -> real, ghost lines: seq<Line>, ghost l: Line)
    returns (acc': map<string, real>)
    requires acc == Buckets(key, amount, lines)
    requires k == key(l) && x == amount(l)
    ensures acc'.Keys == acc.Keys + {k}
    ensures acc' == Buckets(key, amount, lines + [l])
  {
    assert (lines + [l])[..|lines|] == lines;
    if k in acc {
      acc' := acc[k := acc[k] + x];
    } else {
      AbsentBucketIsZero(key, k, amount, lines);
      acc' := acc[k := 0.0 + x];
    }
  }

  lemma {:induction false} AbsentBucketIsZero(key: Line -> string, k: string, amount: Line -> real, lines: seq<Line>)
    requires k !in Keys(key, lines)
    ensures Bucket(key, k, amount, lines) == 0.0
  {
    if lines != [] {
      AbsentBucketIsZero(key, k, amount, lines[..|lines| - 1]);
    }
  }

  /** The accumulator loop of `calculate_quote_totals`. */
  method AccumulateLines(lines: seq<Line>)
    returns (totalHt: real, totalTva: real,
             sections: map<string, real>, baseHt: map<string, real>, tvaOf: map<string, real>)
    ensures totalHt == TotalHt(lines) && totalTva == TotalTva(lines)
    ensures sections == Buckets(SectionKey, LineHt, lines)
    ensures baseHt == Buckets(RateKey, LineHt, lines)
    ensures tvaOf == Buckets(RateKey, LineTva, lines)
  {
    totalHt, totalTva := 0.0, 0.0;
    sections, baseHt, tvaOf := map[], map[], map[];
    for i := 0 to |lines|
      invariant totalHt == TotalHt(lines[..i]) && totalTva == TotalTva(lines[..i])
      invariant sections == Buckets(SectionKey, LineHt, lines[..i])
      invariant baseHt == Buckets(RateKey, LineHt, lines[..i])
      invariant tvaOf == Buckets(RateKey, LineTva, lines[..i])
    {
      var line := lines[i];
      assert lines[..i + 1] == lines[..i] + [line];
      assert lines[..i + 1][..i] == lines[..i];
      var lineHt, lineTva := LineHt(line), LineTva(line);
      totalHt := totalHt + lineHt;
      totalTva := totalTva + lineTva;
      sections := AddTo(sections, line.section, lineHt, SectionKey, LineHt, lines[..i], line);
      baseHt := AddTo(baseHt, line.rateKey, lineHt, RateKey, LineHt, lines[..i], line);
      tvaOf := AddTo(tvaOf, line.rateKey, lineTva, RateKey, LineTva, lines[..i], line);
    }
    assert lines[..|lines|] == lines;
  }

  method ExactTotalsOf(lines: seq<Line>, guests: Option<int>, commission: Option<real>) returns (e: ExactTotals)
    ensures e == ExactOf(lines, guests, commission)
  {
    var rate := if commission.Some? then commission.value else DEFAULT_COMMISSION_RATE;
    var totalHt, totalTva, sections, baseHt, tvaOf := AccumulateLines(lines);
    e := ExactTotals(sections, baseHt, tvaOf, totalHt, totalTva,
                     PerPerson(totalHt + totalTva, guests), totalHt * rate);
  }

  method CalculateQuoteTotals(lines: seq<Line>, guests: Option<int>, commission: Option<real>) returns (t: Totals)
    ensures t == TotalsOf(lines, guests, commission)
  {
    var exact := ExactTotalsOf(lines, guests, commission);
    t := Rounded(exact);
  }

  /** The totals do not depend on the order of the lines. */
  lemma TotalsPermutation(a: seq<Line>, b: seq<Line>, guests: Option<int>, commission: Option<real>)
    requires multiset(a) == multiset(b)
    ensures TotalsOf(a, guests, commission) == TotalsOf(b, guests, commission)
  {
    ExactPermutation(a, b, guests, commission);
  }

  lemma ExactPermutation(a: seq<Line>, b: seq<Line>, guests: Option<int>, commission: Option<real>)
    requires multiset(a) == multiset(b)
    ensures ExactOf(a, guests, commission) == ExactOf(b, guests, commission)
  {
    SumOfPermutation(LineHt, a, b);
    SumOfPermutation(LineTva, a, b);
    BucketsPermutation(SectionKey, LineHt, a, b);
    BucketsPermutation(RateKey, LineHt, a, b);
    BucketsPermutation(RateKey, LineTva, a, b);
  }

  lemma BucketsPermutation(key: Line -> string, amount: Line -> real, a: seq<Line>, b: seq<Line>)
    requires multiset(a) == multiset(b)
    ensures Buckets(key, amount, a) == Buckets(key, amount, b)
  {
    KeysAreTheKeysMet(key, a);
    KeysAreTheKeysMet(key, b);
    forall l ensures l in a <==> l in b {
      assert l in a <==> l in multiset(a);
      assert l in b <==> l in multiset(b);
    }
    forall k ensures k in Keys(key, a) <==> k in Keys(key, b) {
    }
    forall k ensures Bucket(key, k, amount, a) == Bucket(key, k, amount, b) {
      SumOfPermutation(Share(key, k, amount), a, b);
    }
  }

  /** The amounts printed for `ks`, added up. */
  function SumAt(printed: map<string, int>, ks: seq<string>): int {
    if ks == [] then 0 else (if ks[0] in printed then printed[ks[0]] else 0) + SumAt(printed, ks[1..])
  }

  lemma {:induction false} SumAtIsSumRounded(key: Line -> string, amount: Line -> real, lines: seq<Line>,
                                             ks: seq<string>)
    requires forall k :: k in ks ==> k in Keys(key, lines)
    ensures SumAt(RoundAll(Buckets(key, amount, lines)), ks) == SumRoundedBuckets(key, ks, amount, lines)
  {
    if ks != [] {
      SumAtIsSumRounded(key, amount, lines, ks[1..]);
    }
  }

  /** n amounts rounded one by one against their rounded total. */
  predicate WithinDrift(sum: int, total: int, n: nat) {
    -(n + 1) <= 2 * (sum - total) <= n + 1
  }

  /** The printed sections and rates miss the printed totals by (n + 1) / 2 cents at most, for n of them. */
  lemma PrintedBucketsDrift(lines: seq<Line>, guests: Option<int>, commission: Option<real>)
    ensures var t := TotalsOf(lines, guests, commission);
            var sections, rates := Keys(SectionKey, lines), Keys(RateKey, lines);
            && WithinDrift(SumAt(t.sections, sections), t.ht, |sections|)
            && WithinDrift(SumAt(t.ratesHt, rates), t.ht, |rates|)
            && WithinDrift(SumAt(t.ratesTva, rates), t.tva, |rates|)
  {
    SumAtIsSumRounded(SectionKey, LineHt, lines, Keys(SectionKey, lines));
    SumAtIsSumRounded(RateKey, LineHt, lines, Keys(RateKey, lines));
    SumAtIsSumRounded(RateKey, LineTva, lines, Keys(RateKey, lines));
    RoundingDrift(SectionKey, LineHt, lines);
    RoundingDrift(RateKey, LineHt, lines);
    RoundingDrift(RateKey, LineTva, lines);
  }

  /** TTC is rounded on its own: it may miss the printed HT + TVA, by one cent at most. */
  lemma TtcWithinOneCent(lines: seq<Line>, guests: Option<int>, commission: Option<real>)
    ensures var t := TotalsOf(lines, guests, commission);
            -1 <= t.ttc - (t.ht + t.tva) <= 1
  {
    var ht, tva := TotalHt(lines), TotalTva(lines);
    assert (ht + tva) * 100.0 == ht * 100.0 + tva * 100.0;
    var gap := Cents(ht + tva) - (Cents(ht) + Cents(tva));
    assert -1.5 <= gap as real <= 1.5;
  }

  /** The printed price per person, times the guests, gives the printed TTC back within (guests + 1) / 2 cents. */
  lemma PerPersonNearTtc(lines: seq<Line>, guests: int, commission: Option<real>)
    requires guests > 0
    ensures var t := TotalsOf(lines, Some(guests), commission);
            -(guests + 1) <= 2 * (guests * t.perPerson - t.ttc) <= guests + 1
  {
    var ttc := TotalHt(lines) + TotalTva(lines);
    ShareTimesGuests(guests, ttc, Cents(ttc / guests as real), Cents(ttc));
  }

  lemma ShareTimesGuests(guests: int, ttc: real, share: int, total: int)
    requires guests > 0
    requires -0.5 <= share as real - ttc / guests as real * 100.0 <= 0.5
    requires -0.5 <= total as real - ttc * 100.0 <= 0.5
    ensures -(guests + 1) <= 2 * (guests * share - total) <= guests + 1
  {
    var spread := WholeShare(guests, ttc, share);
    WithinHalf(guests * share, total, guests, ttc * 100.0, spread);
  }

  /** All guests together pay the total, give or take their roundings. */
  lemma WholeShare(guests: int, ttc: real, share: int) returns (spread: real)
    requires guests > 0
    requires -0.5 <= share as real - ttc / guests as real * 100.0 <= 0.5
    ensures (guests * share) as real == ttc * 100.0 + spread
    ensures -0.5 * guests as real <= spread <= 0.5 * guests as real
  {
    var g, each := guests as real, ttc / guests as real * 100.0;
    spread := Scaled(share as real - each, g);
    Recovered(ttc, g);
    Distributes(each, share as real - each, g);
  }

  lemma Recovered(amount: real, g: real)
    requires g > 0.0
    ensures amount / g * 100.0 * g == amount * 100.0
  {
    assert amount / g * g == amount;
  }

  lemma Distributes(x: real, y: real, g: real)
    ensures (x + y) * g == x * g + y * g
  {
  }

  lemma Scaled(x: real, g: real) returns (y: real)
    requires g > 0.0 && -0.5 <= x <= 0.5
    ensures y == x * g && -0.5 * g <= y <= 0.5 * g
  {
    y := x * g;
    assert (x + 0.5) * g >= 0.0 && (0.5 - x) * g >= 0.0;
  }

  lemma WithinHalf(product: int, total: int, guests: int, exact: real, spread: real)
    requires product as real == exact + spread && -0.5 * guests as real <= spread <= 0.5 * guests as real
    requires -0.5 <= total as real - exact <= 0.5
    ensures -(guests + 1) <= 2 * (product - total) <= guests + 1
  {
    assert (product - total) as real == product as real - total as real;
  }

  // --- Stripe amounts -------------------------------------------------------

  datatype InvoiceItem = InvoiceItem(rateKey: string, cents: int)

  function ItemsOf(lines: seq<Line>): seq<InvoiceItem> {
    var ks := Keys(RateKey, lines);
    seq(|ks|, i requires 0 <= i < |ks| => InvoiceItem(ks[i], Cents(Bucket(RateKey, ks[i], LineHt, lines))))
  }

  function SumItems(items: seq<InvoiceItem>): int {
    if items == [] then 0 else items[0].cents + SumItems(items[1..])
  }

  /** The grouping loop of `create_invoice_for_order` and the items sent for it. */
  method InvoiceItems(lines: seq<Line>) returns (items: seq<InvoiceItem>)
    ensures items == ItemsOf(lines)
  {
    var grouped: map<string, real>, order: seq<string> := map[], [];
    for i := 0 to |lines|
      invariant grouped == Buckets(RateKey, LineHt, lines[..i])
      invariant order == Keys(RateKey, lines[..i])
    {
      var line := lines[i];
      assert lines[..i + 1] == lines[..i] + [line];
      assert lines[..i + 1][..i] == lines[..i];
      if line.rateKey !in grouped {
        order := order + [line.rateKey];
      }
      grouped := AddTo(grouped, line.rateKey, LineHt(line), RateKey, LineHt, lines[..i], line);
    }
    assert lines[..|lines|] == lines;
    items := [];
    for i := 0 to |order|
      invariant |items| == i
      invariant forall j :: 0 <= j < i ==> items[j] == ItemsOf(lines)[j]
    {
      items := items + [InvoiceItem(order[i], Cents(grouped[order[i]]))];
    }
  }

  lemma {:induction false} SumItemsIsSumRounded(lines: seq<Line>, ks: seq<string>, items: seq<InvoiceItem>)
    requires |items| == |ks|
    requires forall i :: 0 <= i < |ks| ==> items[i].cents == Cents(Bucket(RateKey, ks[i], LineHt, lines))
    ensures SumItems(items) == SumRoundedBuckets(RateKey, ks, LineHt, lines)
  {
    if ks != [] {
      SumItemsIsSumRounded(lines, ks[1..], items[1..]);
    }
  }

  const STORED_RATE_KEYS: set<string> := {"0.00", "2.10", "5.50", "10.00", "20.00"}

  lemma {:induction false} DistinctFitIn(ks: seq<string>, bag: set<string>)
    requires Distinct(ks)
    requires forall k :: k in ks ==> k in bag
    ensures |ks| <= |bag|
  {
    if ks != [] {
      forall k | k in ks[1..] ensures k in bag - {ks[0]} {
      }
      DistinctFitIn(ks[1..], bag - {ks[0]});
    }
  }

  /** The per-rate amounts billed by Stripe add up to the quote's HT total within three cents. */
  lemma ItemsWithinThreeCents(raws: seq<RawLine>, guests: Option<int>, commission: Option<real>)
    requires Acceptable(raws)
    ensures var lines := StoredLines(raws);
            -3 <= SumItems(ItemsOf(lines)) - TotalsOf(lines, guests, commission).ht <= 3
  {
    var lines := StoredLines(raws);
    var ks := Keys(RateKey, lines);
    KeysAreTheKeysMet(RateKey, lines);
    StoredRateKeysAreLegal(raws);
    DistinctFitIn(ks, STORED_RATE_KEYS);
    FiveStoredRateKeys();
    RoundingDrift(RateKey, LineHt, lines);
    SumItemsIsSumRounded(lines, ks, ItemsOf(lines));
  }

  lemma StoredRateKeysAreLegal(raws: seq<RawLine>)
    ensures forall k :: k in Keys(RateKey, StoredLines(raws)) ==> k in STORED_RATE_KEYS
  {
    var lines := StoredLines(raws);
    KeysAreTheKeysMet(RateKey, lines);
    forall k | k in Keys(RateKey, lines) ensures k in STORED_RATE_KEYS {
      var l :| l in lines && RateKey(l) == k;
      var i :| 0 <= i < |lines| && lines[i] == l;
      StoredKeyIsLegal(raws[i]);
    }
  }

  lemma StoredKeyIsLegal(raw: RawLine)
    ensures RateKey(Stored(raw)) in STORED_RATE_KEYS
  {
    assert RateKey(Stored(raw)) == StoredRateKey(Parsed(raw).rate);
  }

  lemma FiveStoredRateKeys()
    ensures |STORED_RATE_KEYS| <= 5
  {
    var four := {"0.00", "2.10", "5.50", "10.00"};
    assert STORED_RATE_KEYS == four + {"20.00"};
    assert |four| <= 4;
  }

  datatype InvoiceAmounts = InvoiceAmounts(total: int, fee: int, toCaterer: int)

  /** The ledger split: whatever the roundings, nothing is created or lost. */
  function SplitInvoiceAmounts(totalTtc: real, feeHt: real, feeTva: real): (a: InvoiceAmounts)
    ensures a.toCaterer + a.fee == a.total
    ensures a.toCaterer == Cents(totalTtc)
  {
    var fee := Cents(feeHt) + Cents(feeTva);
    var total := Cents(totalTtc) + fee;
    InvoiceAmounts(total, fee, total - fee)
  }

  /** `application_fee_amount` as sent to Stripe when the invoice is created. */
  function ApplicationFee(feeHt: real, feeTva: real): int {
    Cents(feeHt + feeTva)
  }

  /**
   Stripe is told the sum rounded once, the ledger books the parts rounded
   separately. On amounts that already are whole cents the two agree.
   */
  lemma FeeSentIsFeeBooked(totalTtc: real, feeHt: int, feeTva: int)
    ensures ApplicationFee(Euros(feeHt), Euros(feeTva))
         == SplitInvoiceAmounts(totalTtc, Euros(feeHt), Euros(feeTva)).fee
         == feeHt + feeTva
  {
    assert Euros(feeHt) + Euros(feeTva) == Euros(feeHt + feeTva);
    CentsOfEuros(feeHt);
    CentsOfEuros(feeTva);
    CentsOfEuros(feeHt + feeTva);
  }
}
