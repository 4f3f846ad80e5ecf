/**
 What the totals of services/quotes.py say on the numbers of the lines: amounts
 of one line and of lines put together, the platform's fee, the price per
 person, and the key lines are grouped by.
 */
module QuoteLaws {
  import opened Wrappers
  import opened Money
  import opened QuoteTotals
  import References

  // --- HT and TVA -------------------------------------------------------------------

  /** One line is worth quantity times price, and taxed its rate in percent of that. */
  lemma OneLine(l: Line)
    ensures TotalHt([l]) == l.quantity * l.unitPrice
    ensures 100.0 * TotalTva([l]) == l.quantity * l.unitPrice * l.rate
  {
    SumOfOne(LineHt, l);
    SumOfOne(LineTva, l);
  }

  lemma SumOfOne(f: Line -> real, l: Line)
    ensures SumOf(f, [l]) == f(l)
  {
    assert [l][..0] == [];
    assert SumOf(f, []) == 0.0;
  }

  /** Lines put together are worth, and taxed, what they are apart. */
  lemma LinesAddUp(a: seq<Line>, b: seq<Line>)
    ensures TotalHt(a + b) == TotalHt(a) + TotalHt(b)
    ensures TotalTva(a + b) == TotalTva(a) + TotalTva(b)
  {
    SumOfConcat(LineHt, a, b);
    SumOfConcat(LineTva, a, b);
  }

  /** The printed amounts are those sums in cents, each within half a cent. */
  lemma PrintedAmounts(lines: seq<Line>, guests: Option<int>, commission: Option<real>)
    ensures var t := TotalsOf(lines, guests, commission);
            && -0.5 <= t.ht as real - 100.0 * TotalHt(lines) <= 0.5
            && -0.5 <= t.tva as real - 100.0 * TotalTva(lines) <= 0.5
            && -0.5 <= t.ttc as real - 100.0 * (TotalHt(lines) + TotalTva(lines)) <= 0.5
  {
  }

  /** Ten at 50 euros at 10 percent and five at 10 euros at 20: 550 euros, taxed 60, for ten guests 61 each. */
  lemma MixedRates(commission: Option<real>)
    ensures var lines := [Line("principal", 10.0, 50.0, 10.0, "10"), Line("boissons", 5.0, 10.0, 20.0, "20")];
            var t := TotalsOf(lines, Some(10), commission);
            t.ht == 55000 && t.tva == 6000 && t.ttc == 61000 && t.perPerson == 6100
  {
    var lines := [Line("principal", 10.0, 50.0, 10.0, "10"), Line("boissons", 5.0, 10.0, 20.0, "20")];
    MixedSums();
    hide TotalHt, TotalTva, TotalsOf;
    PrintedAmounts(lines, Some(10), commission);
    ShareOf(lines, 10, commission, 61.0);
  }

  lemma MixedSums()
    ensures var lines := [Line("principal", 10.0, 50.0, 10.0, "10"), Line("boissons", 5.0, 10.0, 20.0, "20")];
            TotalHt(lines) == 550.0 && TotalTva(lines) == 60.0
  {
    var a, b := Line("principal", 10.0, 50.0, 10.0, "10"), Line("boissons", 5.0, 10.0, 20.0, "20");
    TenAtFifty("principal", "10");
    FiveAtTen("boissons", "20");
    hide LineHt, LineTva;
    SumOfPair(LineHt, a, b);
    SumOfPair(LineTva, a, b);
  }

  lemma TenAtFifty(section: string, key: string)
    ensures var l := Line(section, 10.0, 50.0, 10.0, key);
            LineHt(l) == 500.0 && LineTva(l) == 50.0
  {
  }

  lemma FiveAtTen(section: string, key: string)
    ensures var l := Line(section, 5.0, 10.0, 20.0, key);
            LineHt(l) == 50.0 && LineTva(l) == 10.0
  {
  }

  /** The price per person is the TTC over the guests, to the rounding. */
  lemma ShareOf(lines: seq<Line>, guests: int, commission: Option<real>, each: real)
    requires guests != 0 && each * guests as real == TotalHt(lines) + TotalTva(lines)
    ensures -0.5 <= TotalsOf(lines, Some(guests), commission).perPerson as real - 100.0 * each <= 0.5
  {
    Shared(TotalHt(lines) + TotalTva(lines), guests as real, each);
    hide TotalHt, TotalTva, Buckets, RoundAll;
    assert ExactOf(lines, Some(guests), commission).perPerson == each;
    assert Cents(each) == HalfEven(each * 100.0);
  }

  lemma Shared(whole: real, guests: real, each: real)
    requires guests != 0.0 && each * guests == whole
    ensures whole / guests == each
  {
  }

  // --- The platform's fee -------------------------------------------------------------

  /** VAT is not part of what the fee is taken on: the fee sees quantities and prices only. */
  lemma FeeIgnoresVat(a: seq<Line>, b: seq<Line>, guests: Option<int>, others: Option<int>, commission: Option<real>)
    requires |a| == |b|
    requires forall i :: 0 <= i < |a| ==> a[i].quantity == b[i].quantity && a[i].unitPrice == b[i].unitPrice
    ensures TotalsOf(a, guests, commission).feeHt == TotalsOf(b, others, commission).feeHt
  {
    SameNumbersSameHt(a, b);
    FeeExactly(a, guests, commission);
    FeeExactly(b, others, commission);
    hide TotalsOf, TotalHt, Fee, Cents;
  }

  /** The fee on an HT total, in euros: five percent when no rate is given. */
  function Fee(ht: real, commission: Option<real>): real {
    if commission.Some? then ht * commission.value else ht * 0.05
  }

  lemma FeeExactly(lines: seq<Line>, guests: Option<int>, commission: Option<real>)
    ensures TotalsOf(lines, guests, commission).feeHt == Cents(Fee(TotalHt(lines), commission))
  {
    ExactFee(lines, guests, commission);
    hide ExactOf, Fee, Cents, TotalHt, RoundAll;
  }

  lemma ExactFee(lines: seq<Line>, guests: Option<int>, commission: Option<real>)
    ensures ExactOf(lines, guests, commission).feeHt == Fee(TotalHt(lines), commission)
  {
    hide TotalTva, Buckets, PerPerson;
  }

  lemma SameNumbersSameHt(a: seq<Line>, b: seq<Line>)
    requires |a| == |b|
    requires forall i :: 0 <= i < |a| ==> a[i].quantity == b[i].quantity && a[i].unitPrice == b[i].unitPrice
    ensures TotalHt(a) == TotalHt(b)
  {
    forall i | 0 <= i < |a| ensures LineHt(a[i]) == LineHt(b[i]) {
    }
    SumOfAgrees(LineHt, a, LineHt, b);
  }

  /** The printed fee is the rate times the printed HT total, give or take the two roundings. */
  lemma FeeIsTheRateOfTheTotal(lines: seq<Line>, guests: Option<int>, rate: real)
    requires rate >= 0.0
    ensures var t := TotalsOf(lines, guests, Some(rate));
            -0.5 - 0.5 * rate <= t.feeHt as real - rate * t.ht as real <= 0.5 + 0.5 * rate
  {
    PrintedAmounts(lines, guests, Some(rate));
    FeeExactly(lines, guests, Some(rate));
    FeeIsRounded(TotalHt(lines), rate);
    hide TotalsOf, TotalHt, Fee, Cents;
    NearRate(rate, TotalHt(lines), TotalsOf(lines, guests, Some(rate)).ht, TotalsOf(lines, guests, Some(rate)).feeHt);
  }

  lemma FeeIsRounded(ht: real, rate: real)
    ensures -0.5 <= Cents(Fee(ht, Some(rate))) as real - 100.0 * (ht * rate) <= 0.5
  {
    var fee := Fee(ht, Some(rate));
    assert Cents(fee) == HalfEven(fee * 100.0);
  }

  lemma NearRate(rate: real, ht: real, printed: int, fee: int)
    requires rate >= 0.0
    requires -0.5 <= printed as real - 100.0 * ht <= 0.5
    requires -0.5 <= fee as real - 100.0 * (ht * rate) <= 0.5
    ensures -0.5 - 0.5 * rate <= fee as real - rate * printed as real <= 0.5 + 0.5 * rate
  {
    var gap := printed as real - 100.0 * ht;
    var spread := Scaled(rate, gap);
    Spread(rate, ht, gap);
  }

  lemma Scaled(rate: real, gap: real) returns (spread: real)
    requires rate >= 0.0 && -0.5 <= gap <= 0.5
    ensures spread == rate * gap && -0.5 * rate <= spread <= 0.5 * rate
  {
    spread := rate * gap;
    assert rate * (gap + 0.5) >= 0.0 && rate * (0.5 - gap) >= 0.0;
  }

  lemma Spread(rate: real, ht: real, gap: real)
    ensures rate * (100.0 * ht + gap) == 100.0 * (ht * rate) + rate * gap
  {
  }

  /** No rate given is five percent. */
  lemma FeeDefaultsToFivePercent(lines: seq<Line>, guests: Option<int>)
    ensures TotalsOf(lines, guests, None) == TotalsOf(lines, guests, Some(0.05))
  {
  }

  /** The platform collects no VAT on its fee. */
  lemma FeeCarriesNoVat(lines: seq<Line>, guests: Option<int>, commission: Option<real>)
    ensures var t := TotalsOf(lines, guests, commission);
            t.feeTva == 0 && t.feeTtc == t.feeHt
  {
  }

  // --- The price per person -----------------------------------------------------------

  /** No guests, or none counted, is no price per person; the guests change nothing else. */
  lemma GuestsOnlyShare(lines: seq<Line>, guests: Option<int>, commission: Option<real>)
    ensures guests == None || guests == Some(0) ==> TotalsOf(lines, guests, commission).perPerson == 0
    ensures TotalsOf(lines, guests, commission)
         == TotalsOf(lines, None, commission).(perPerson := TotalsOf(lines, guests, commission).perPerson)
  {
    ExactGuests(lines, guests, commission);
    ExactGuests(lines, None, commission);
    HalfEvenIsTheOnlyOne(0.0, 0);
    hide ExactOf, TotalHt, TotalTva, HalfEven;
  }

  lemma ExactGuests(lines: seq<Line>, guests: Option<int>, commission: Option<real>)
    ensures var e := ExactOf(lines, guests, commission);
            && e == ExactOf(lines, None, commission).(perPerson := e.perPerson)
            && (guests == None || guests == Some(0) ==> e.perPerson == 0.0)
  {
    hide TotalHt, TotalTva, Buckets;
  }

  // --- Sections and rates ---------------------------------------------------------------

  /** A bucket counts the lines of its key, and no other. */
  lemma BucketOfOne(key: Line -> string, k: string, amount: Line -> real, l: Line)
    ensures Bucket(key, k, amount, [l]) == if key(l) == k then amount(l) else 0.0
  {
    SumOfOne(Share(key, k, amount), l);
  }

  lemma BucketsAddUp(key: Line -> string, k: string, amount: Line -> real, a: seq<Line>, b: seq<Line>)
    ensures Bucket(key, k, amount, a + b) == Bucket(key, k, amount, a) + Bucket(key, k, amount, b)
  {
    SumOfConcat(Share(key, k, amount), a, b);
  }

  /** What is printed for a section or a rate: its lines' HT, and its lines' TVA, and for no other key. */
  lemma PrintedBuckets(lines: seq<Line>, guests: Option<int>, commission: Option<real>, k: string)
    ensures var t := TotalsOf(lines, guests, commission);
            && (k in t.sections <==> exists i :: 0 <= i < |lines| && lines[i].section == k)
            && (k in t.ratesHt <==> exists i :: 0 <= i < |lines| && lines[i].rateKey == k)
            && t.ratesTva.Keys == t.ratesHt.Keys
            && (k in t.sections ==> t.sections[k] == Cents(Bucket((l: Line) => l.section, k, LineHt, lines)))
            && (k in t.ratesHt ==> t.ratesHt[k] == Cents(Bucket((l: Line) => l.rateKey, k, LineHt, lines)))
            && (k in t.ratesHt ==> t.ratesTva[k] == Cents(Bucket((l: Line) => l.rateKey, k, LineTva, lines)))
  {
    KeyIsMet(SectionKey, lines, k);
    KeyIsMet(RateKey, lines, k);
    SameBucket((l: Line) => l.section, SectionKey, k, LineHt, lines);
    SameBucket((l: Line) => l.rateKey, RateKey, k, LineHt, lines);
    SameBucket((l: Line) => l.rateKey, RateKey, k, LineTva, lines);
  }

  lemma KeyIsMet(key: Line -> string, lines: seq<Line>, k: string)
    ensures k in Keys(key, lines) <==> exists i :: 0 <= i < |lines| && key(lines[i]) == k
  {
    KeysAreTheKeysMet(key, lines);
    if k in Keys(key, lines) {
      var l :| l in lines && key(l) == k;
      var i :| 0 <= i < |lines| && lines[i] == l;
    }
  }

  lemma SameBucket(key: Line -> string, other: Line -> string, k: string, amount: Line -> real, lines: seq<Line>)
    requires forall l :: key(l) == other(l)
    ensures Bucket(key, k, amount, lines) == Bucket(other, k, amount, lines)
  {
    SumOfAgrees(Share(key, k, amount), lines, Share(other, k, amount), lines);
  }

  // --- Rate keys -------------------------------------------------------------------------

  /** The number a key of two decimals reads as, in hundredths. */
  function Hundredths(key: string): int
    requires |key| >= 3
  {
    References.ValueOf(key[..|key| - 3] + key[|key| - 2..])
  }

  /** A stored rate prints as itself: the key reads back as the rate. */
  lemma RateKeyReadsBack(rate: real)
    requires rate in {0.0, 2.1, 5.5, 10.0, 20.0}
    ensures var key := StoredRateKey(rate);
            |key| >= 4 && key[|key| - 3] == '.' && Hundredths(key) as real == 100.0 * rate
  {
    var key := StoredRateKey(rate);
    if |key| == 4 {
      ThreeDigits(key);
    } else {
      FourDigits(key);
    }
  }

  function DigitOf(c: char): int {
    c as int - '0' as int
  }

  lemma OneMoreDigit(s: string, c: char)
    ensures References.ValueOf(s + [c]) == 10 * References.ValueOf(s) + DigitOf(c)
  {
    assert (s + [c])[..|s|] == s;
  }

  lemma ThreeDigits(key: string)
    requires |key| == 4
    ensures Hundredths(key) == 100 * DigitOf(key[0]) + 10 * DigitOf(key[2]) + DigitOf(key[3])
  {
    assert key[..1] + key[2..] == "" + [key[0]] + [key[2]] + [key[3]];
    OneMoreDigit("", key[0]);
    OneMoreDigit("" + [key[0]], key[2]);
    OneMoreDigit("" + [key[0]] + [key[2]], key[3]);
  }

  lemma FourDigits(key: string)
    requires |key| == 5
    ensures Hundredths(key)
         == 1000 * DigitOf(key[0]) + 100 * DigitOf(key[1]) + 10 * DigitOf(key[3]) + DigitOf(key[4])
  {
    assert key[..2] + key[3..] == "" + [key[0]] + [key[1]] + [key[3]] + [key[4]];
    OneMoreDigit("", key[0]);
    OneMoreDigit("" + [key[0]], key[1]);
    OneMoreDigit("" + [key[0]] + [key[1]], key[3]);
    OneMoreDigit("" + [key[0]] + [key[1]] + [key[3]], key[4]);
  }

  /** So grouping stored lines by key is grouping them by rate. */
  lemma RateKeysApart(rate: real, other: real)
    requires rate in {0.0, 2.1, 5.5, 10.0, 20.0} && other in {0.0, 2.1, 5.5, 10.0, 20.0}
    ensures StoredRateKey(rate) == StoredRateKey(other) <==> rate == other
  {
    RateKeyReadsBack(rate);
    RateKeyReadsBack(other);
  }

  // --- Stored lines ----------------------------------------------------------------------

  /** The line as the totals read it: what is missing is none, at ten percent, in the main section. */
  lemma ReadLine(raw: RawLine)
    requires WithinRules(raw)
    ensures var l := Parsed(raw);
            && l.quantity == (if raw.quantity.Number? then raw.quantity.value else 0.0)
            && l.unitPrice == (if raw.unitPrice.Number? then raw.unitPrice.value else 0.0)
            && l.rate == (if raw.rate.Number? then raw.rate.value else 10.0)
            && l.rateKey == (if raw.rate.Number? then raw.rateText else "10")
            && l.section == (if raw.section.Some? then raw.section.value else "principal")
  {
  }

  /** The row a submitted line leaves, on its fields. */
  lemma StoredRow(raw: RawLine)
    requires WithinRules(raw)
    ensures var l := Stored(raw);
            && l.rate == (if raw.rate.Missing? then 10.0 else raw.rate.value)
            && l.rate in {0.0, 2.1, 5.5, 10.0, 20.0}
            && l.rateKey == StoredRateKey(l.rate)
            && 0.0 <= l.quantity <= 10000.0 && 0.0 <= l.unitPrice <= 100000.0
            && (raw.quantity.Missing? ==> l.quantity == 0.0)
            && (raw.unitPrice.Missing? ==> l.unitPrice == 0.0)
            && (raw.quantity.Number? ==> -0.0005 <= l.quantity - raw.quantity.value <= 0.0005)
            && (raw.unitPrice.Number? ==> -0.005 <= l.unitPrice - raw.unitPrice.value <= 0.005)
            && l.section == StoredSection(raw.section)
  {
    Thousandths(Parsed(raw).quantity);
    InHundredths(Parsed(raw).unitPrice);
  }

  /** A section is kept up to fifty characters, and none is the main one. */
  function StoredSection(section: Option<string>): (s: string)
    ensures 0 < |s| <= 50
    ensures section.Some? && 0 < |section.value| <= 50 ==> s == section.value
    ensures section == None || section == Some("") ==> s == "principal"
    ensures section.Some? && |section.value| > 50 ==> s == section.value[..50]
  {
    if section == None || section.value == "" then "principal"
    else if |section.value| > 50 then section.value[..50]
    else section.value
  }

  lemma Thousandths(x: real)
    requires 0.0 <= x <= 10000.0
    ensures var y := HalfUp(x * 1000.0) as real / 1000.0;
            0.0 <= y <= 10000.0 && -0.0005 <= y - x <= 0.0005
  {
    var n := HalfUp(x * 1000.0);
    assert 0 <= n <= 10000000;
  }

  lemma InHundredths(x: real)
    requires 0.0 <= x <= 100000.0
    ensures var y := HalfUp(x * 100.0) as real / 100.0;
            0.0 <= y <= 100000.0 && -0.005 <= y - x <= 0.005
  {
    var n := HalfUp(x * 100.0);
    assert 0 <= n <= 10000000;
  }
}
