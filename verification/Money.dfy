/**
 Decimal money of services/quotes.py and services/stripe_service.py.

 A `Decimal` amount is an exact real number of euros, an amount that went
 through `quantize(CENT)` is an integer number of cents.
 */
module Money {

  // --- Rounding -------------------------------------------------------------

  /** `Decimal.quantize` with the default context: nearest integer, ties to even. */
  function HalfEven(x: real): (n: int)
    ensures -0.5 <= n as real - x <= 0.5
    ensures n as real - x == 0.5 || n as real - x == -0.5 ==> n % 2 == 0
  {
    var down := x.Floor;
    var rest := x - down as real;
    if rest < 0.5 then down
    else if rest > 0.5 then down + 1
    else if down % 2 == 0 then down
    else down + 1
  }

  /** The two clauses of `HalfEven` leave one answer: it is the rounding, not just a rounding. */
  lemma HalfEvenIsTheOnlyOne(x: real, n: int)
    requires -0.5 <= n as real - x <= 0.5
    requires n as real - x == 0.5 || n as real - x == -0.5 ==> n % 2 == 0
    ensures n == HalfEven(x)
  {
    assert -1.0 <= (n - HalfEven(x)) as real <= 1.0;
  }

  /** Postgres stores a non-negative value in a `Numeric` column rounding half up. */
  function HalfUp(x: real): (n: int)
    ensures -0.5 < n as real - x <= 0.5
  {
    (x + 0.5).Floor
  }

  function Cents(euros: real): int {
    HalfEven(euros * 100.0)
  }

  function Euros(cents: int): real {
    cents as real / 100.0
  }

  lemma CentsOfEuros(cents: int)
    ensures Cents(Euros(cents)) == cents
  {
    assert Euros(cents) * 100.0 == cents as real;
    HalfEvenIsTheOnlyOne(cents as real, cents);
  }

  // --- Quote lines ----------------------------------------------------------

  /** A line with its numbers parsed. `rateKey` is the text `str(tva_rate)` groups by. */
  datatype Line = Line(section: string, quantity: real, unitPrice: real, rate: real, rateKey: string)

  function LineHt(l: Line): real {
    l.quantity * l.unitPrice
  }

  function LineTva(l: Line): real {
    LineHt(l) * l.rate / 100.0
  }

  function SumOf(f: Line -> real, lines: seq<Line>): real {
    if lines == [] then 0.0 else SumOf(f, lines[..|lines| - 1]) + f(lines[|lines| - 1])
  }

  function TotalHt(lines: seq<Line>): real {
    SumOf(LineHt, lines)
  }

  function TotalTva(lines: seq<Line>): real {
    SumOf(LineTva, lines)
  }

  /** `amount` on the lines whose key is `k`, nothing on the others. */
  function Share(key: Line -> string, k: string, amount: Line -> real): Line -> real {
    (l: Line) => if key(l) == k then amount(l) else 0.0
  }

  /** The bucket a grouping loop builds for `k`. */
  function Bucket(key: Line -> string, k: string, amount: Line -> real, lines: seq<Line>): real {
    SumOf(Share(key, k, amount), lines)
  }

  /** The keys of a Python dict filled by the loop, in insertion order. */
  function Keys(key: Line -> string, lines: seq<Line>): seq<string> {
    if lines == [] then []
    else
      var before := Keys(key, lines[..|lines| - 1]);
      var k := key(lines[|lines| - 1]);
      if k in before then before else before + [k]
  }

  ghost predicate Distinct(ks: seq<string>) {
    forall i, j :: 0 <= i < j < |ks| ==> ks[i] != ks[j]
  }

  /** The dict has one key per value met, and no other. */
  lemma {:induction false} KeysAreTheKeysMet(key: Line -> string, lines: seq<Line>)
    ensures Distinct(Keys(key, lines))
    ensures forall l :: l in lines ==> key(l) in Keys(key, lines)
    ensures forall k :: k in Keys(key, lines) ==> exists l :: l in lines && key(l) == k
  {
    if lines != [] {
      var front, last := lines[..|lines| - 1], lines[|lines| - 1];
      KeysAreTheKeysMet(key, front);
      assert forall l :: l in lines ==> l in front || l == last;
      assert last in lines;
    }
  }

  // --- Sums -----------------------------------------------------------------

  lemma {:induction false} SumOfConcat(f: Line -> real, a: seq<Line>, b: seq<Line>)
    ensures SumOf(f, a + b) == SumOf(f, a) + SumOf(f, b)
    decreases |b|
  {
    if b == [] {
      assert a + b == a;
    } else {
      var n := |b| - 1;
      assert (a + b)[..|a + b| - 1] == a + b[..n];
      SumOfConcat(f, a, b[..n]);
    }
  }

  lemma SumOfMoveToEnd(f: Line -> real, left: seq<Line>, l: Line, right: seq<Line>)
    ensures SumOf(f, left + [l] + right) == SumOf(f, left + right) + f(l)
  {
    assert [l][..0] == [];
    assert SumOf(f, [l]) == f(l);
    SumOfConcat(f, left, right);
    SumOfConcat(f, left, [l]);
    SumOfConcat(f, left + [l], right);
  }

  lemma SameRest(front: seq<Line>, l: Line, left: seq<Line>, right: seq<Line>)
    requires multiset(front + [l]) == multiset(left + [l] + right)
    ensures multiset(front) == multiset(left + right)
  {
    assert multiset(front) == multiset(front + [l]) - multiset{l};
    assert multiset(left + right) == multiset(left + [l] + right) - multiset{l};
  }

  /** A sum over lines does not depend on their order. */
  lemma {:induction false} SumOfPermutation(f: Line -> real, a: seq<Line>, b: seq<Line>)
    requires multiset(a) == multiset(b)
    ensures SumOf(f, a) == SumOf(f, b)
    decreases |a|
  {
    if a == [] {
      assert |multiset(b)| == 0;
    } else {
      var front, l := a[..|a| - 1], a[|a| - 1];
      assert a == front + [l];
      assert l in multiset(b);
      var i :| 0 <= i < |b| && b[i] == l;
      var left, right := b[..i], b[i + 1..];
      assert b == left + [l] + right;
      SameRest(front, l, left, right);
      SumOfPermutation(f, front, left + right);
      SumOfMoveToEnd(f, left, l, right);
    }
  }

  lemma {:induction false} SumOfAgrees(f: Line -> real, a: seq<Line>, g: Line -> real, b: seq<Line>)
    requires |a| == |b|
    requires forall i :: 0 <= i < |a| ==> f(a[i]) == g(b[i])
    ensures SumOf(f, a) == SumOf(g, b)
  {
    if a != [] {
      SumOfAgrees(f, a[..|a| - 1], g, b[..|b| - 1]);
    }
  }

  function SumBuckets(key: Line -> string, ks: seq<string>, amount: Line -> real, lines: seq<Line>): real {
    if ks == [] then 0.0
    else Bucket(key, ks[0], amount, lines) + SumBuckets(key, ks[1..], amount, lines)
  }

  lemma {:induction false} SumBucketsNoLines(key: Line -> string, ks: seq<string>, amount: Line -> real)
    ensures SumBuckets(key, ks, amount, []) == 0.0
  {
    if ks != [] {
      SumBucketsNoLines(key, ks[1..], amount);
    }
  }

  /** Adding a line adds its amount once if its key is listed, and nothing if it is not. */
  lemma {:induction false} SumBucketsAddLine(key: Line -> string, ks: seq<string>, amount: Line -> real,
                                            lines: seq<Line>, l: Line)
    requires Distinct(ks)
    ensures SumBuckets(key, ks, amount, lines + [l])
         == SumBuckets(key, ks, amount, lines) + (if key(l) in ks then amount(l) else 0.0)
  {
    if ks != [] {
      SumBucketsAddLine(key, ks[1..], amount, lines, l);
      assert (lines + [l])[..|lines|] == lines;
      assert key(l) in ks <==> key(l) == ks[0] || key(l) in ks[1..];
    }
  }

  /** Conservation: the buckets of a grouping add up to the whole, exactly, before rounding. */
  lemma {:induction false} BucketsConserve(key: Line -> string, ks: seq<string>, amount: Line -> real, lines: seq<Line>)
    requires Distinct(ks)
    requires forall l :: l in lines ==> key(l) in ks
    ensures SumBuckets(key, ks, amount, lines) == SumOf(amount, lines)
  {
    if lines == [] {
      SumBucketsNoLines(key, ks, amount);
    } else {
      var front, last := lines[..|lines| - 1], lines[|lines| - 1];
      assert lines == front + [last];
      BucketsConserve(key, ks, amount, front);
      SumBucketsAddLine(key, ks, amount, front, last);
    }
  }

  function SumRoundedBuckets(key: Line -> string, ks: seq<string>, amount: Line -> real, lines: seq<Line>): int {
    if ks == [] then 0
    else Cents(Bucket(key, ks[0], amount, lines)) + SumRoundedBuckets(key, ks[1..], amount, lines)
  }

  lemma {:induction false} RoundedBucketsNear(key: Line -> string, ks: seq<string>, amount: Line -> real,
                                             lines: seq<Line>)
    ensures -0.5 * |ks| as real
         <= SumRoundedBuckets(key, ks, amount, lines) as real - 100.0 * SumBuckets(key, ks, amount, lines)
         <= 0.5 * |ks| as real
  {
    if ks != [] {
      RoundedBucketsNear(key, ks[1..], amount, lines);
    }
  }

  /**
   Rounding drift: n buckets rounded one by one differ from the rounded total
   by at most (n + 1) / 2 cents.
   */
  lemma RoundingDrift(key: Line -> string, amount: Line -> real, lines: seq<Line>)
    ensures var n := |Keys(key, lines)|;
            var drift := SumRoundedBuckets(key, Keys(key, lines), amount, lines) - Cents(SumOf(amount, lines));
            -(n + 1) <= 2 * drift <= n + 1
  {
    var ks := Keys(key, lines);
    KeysAreTheKeysMet(key, lines);
    BucketsConserve(key, ks, amount, lines);
    RoundedBucketsNear(key, ks, amount, lines);
  }

  /** The drift happens: two half-cent lines at two rates are billed nothing against a one-cent total. */
  lemma DriftHappens()
    ensures var lines := [Line("principal", 1.0, 0.005, 10.0, "10"), Line("principal", 1.0, 0.005, 20.0, "20")];
            var key := (l: Line) => l.rateKey;
            && Cents(TotalHt(lines)) == 1
            && SumRoundedBuckets(key, Keys(key, lines), LineHt, lines) == 0
  {
    var a, b := Line("principal", 1.0, 0.005, 10.0, "10"), Line("principal", 1.0, 0.005, 20.0, "20");
    var lines := [a, b];
    var key := (l: Line) => l.rateKey;
    var ks := ["10", "20"];
    assert a.rateKey == "10" && b.rateKey == "20" && "10"[0] != "20"[0];
    SumOfPair(LineHt, a, b);
    SumOfPair(Share(key, "10", LineHt), a, b);
    SumOfPair(Share(key, "20", LineHt), a, b);
    assert LineHt(a) == 0.005 && LineHt(b) == 0.005;
    HalfEvenIsTheOnlyOne(1.0, 1);
    HalfEvenIsTheOnlyOne(0.5, 0);
    assert lines[..1] == [a] && [a][..0] == [];
    assert Keys(key, [a]) == ["10"];
    assert Keys(key, lines) == ks;
    assert ks[1..] == ["20"] && ks[1..][1..] == [];
    assert SumRoundedBuckets(key, ks[1..], LineHt, lines) == Cents(Bucket(key, "20", LineHt, lines)) + 0;
  }

  lemma SumOfPair(f: Line -> real, a: Line, b: Line)
    ensures SumOf(f, [a, b]) == f(a) + f(b)
  {
    assert [a, b][..1] == [a] && [a][..0] == [];
    assert SumOf(f, [a]) == f(a);
  }
}
