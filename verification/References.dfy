/**
 Quote references and the invoice references derived from them
 (services/quotes.py).
 */
module References {
  import opened Wrappers

  // --- Printing ---------------------------------------------------------------

  function Digit(d: nat): char
    requires d < 10
  {
    '0' + d as char
  }

  /** `str(n)` */
  function Printed(n: nat): string {
    if n < 10 then [Digit(n)] else Printed(n / 10) + [Digit(n % 10)]
  }

  /** `f"{n:03d}"` */
  function Padded(n: nat): string {
    var s := Printed(n);
    if |s| == 1 then "00" + s else if |s| == 2 then "0" + s else s
  }

  /** `f"{caterer.invoice_prefix}"`: a prefix that was never set prints as the word None. */
  function PrintedPrefix(prefix: Option<string>): string {
    if prefix.Some? then prefix.value else "None"
  }

  function Stem(prefix: Option<string>, year: nat, number: nat): string {
    PrintedPrefix(prefix) + "-" + Printed(year) + "-" + Padded(number)
  }

  function Reference(prefix: Option<string>, year: nat, number: nat): string {
    "DEVIS-" + Stem(prefix, year, number)
  }

  // --- Reading it back --------------------------------------------------------

  predicate DashFree(s: string) {
    forall i :: 0 <= i < |s| ==> s[i] != '-'
  }

  function AfterLastDash(s: string): string {
    if s == "" || s[|s| - 1] == '-' then "" else AfterLastDash(s[..|s| - 1]) + [s[|s| - 1]]
  }

  function ValueOf(s: string): int {
    if s == "" then 0 else 10 * ValueOf(s[..|s| - 1]) + (s[|s| - 1] as int - '0' as int)
  }

  lemma {:induction false} PrintedReadsBack(n: nat)
    ensures ValueOf(Printed(n)) == n && DashFree(Printed(n)) && Printed(n) != ""
  {
    assert forall d: nat :: d < 10 ==> Digit(d) != '-' && Digit(d) as int - '0' as int == d;
    if n < 10 {
      assert Printed(n)[..0] == "";
    } else {
      PrintedReadsBack(n / 10);
      assert Printed(n)[..|Printed(n)| - 1] == Printed(n / 10);
    }
  }

  lemma LeadingZero(s: string)
    requires s != ""
    ensures ValueOf("0" + s) == ValueOf(s)
  {
    assert ("0" + s)[..|s|] == "0" + s[..|s| - 1];
    if |s| == 1 {
      assert "0" + s[..0] == "0" && "0"[..0] == "";
    } else {
      LeadingZero(s[..|s| - 1]);
    }
  }

  /** Padding loses nothing, past 999 included. */
  lemma PaddedReadsBack(n: nat)
    ensures ValueOf(Padded(n)) == n && DashFree(Padded(n))
    ensures if n < 1000 then |Padded(n)| == 3 else Padded(n) == Printed(n)
  {
    var s := Printed(n);
    PrintedReadsBack(n);
    LeadingZero(s);
    LeadingZero("0" + s);
    assert "00" + s == "0" + ("0" + s);
    DigitsOf(n);
  }

  lemma DigitsOf(n: nat)
    ensures |Printed(n)| == 1 <==> n < 10
    ensures |Printed(n)| == 2 <==> 10 <= n < 100
    ensures |Printed(n)| == 3 <==> 100 <= n < 1000
  {
    if n >= 10 {
      DigitsOf(n / 10);
    }
  }

  lemma {:induction false} LastPartOf(a: string, t: string)
    requires DashFree(t)
    ensures AfterLastDash(a + "-" + t) == t
    decreases |t|
  {
    var s := a + "-" + t;
    if t != "" {
      assert s[..|s| - 1] == a + "-" + t[..|t| - 1];
      LastPartOf(a, t[..|t| - 1]);
    }
  }

  /** A text splits at its last dash in one way. */
  lemma SplitIsUnique(a: string, t: string, b: string, u: string)
    requires DashFree(t) && DashFree(u) && a + "-" + t == b + "-" + u
    ensures a == b && t == u
  {
    LastPartOf(a, t);
    LastPartOf(b, u);
    assert a == (a + "-" + t)[..|a|] && b == (b + "-" + u)[..|b|];
  }

  lemma StemIsInjective(p: Option<string>, y: nat, n: nat, p': Option<string>, y': nat, n': nat)
    requires Stem(p, y, n) == Stem(p', y', n')
    ensures PrintedPrefix(p) == PrintedPrefix(p') && y == y' && n == n'
  {
    var head, head' := PrintedPrefix(p), PrintedPrefix(p');
    PaddedReadsBack(n);
    PaddedReadsBack(n');
    SplitIsUnique(head + "-" + Printed(y), Padded(n), head' + "-" + Printed(y'), Padded(n'));
    PrintedReadsBack(y);
    PrintedReadsBack(y');
    SplitIsUnique(head, Printed(y), head', Printed(y'));
  }

  lemma SameTail(a: string, b: string, c: string)
    requires a + b == a + c
    ensures b == c
  {
    assert b == (a + b)[|a|..] && c == (a + c)[|a|..];
  }

  /**
   A reference gives back its prefix, its year and its number, whatever the
   prefix contains: two references are equal only when all three are.
   */
  lemma ReferenceIsInjective(p: Option<string>, y: nat, n: nat, p': Option<string>, y': nat, n': nat)
    ensures Reference(p, y, n) == Reference(p', y', n')
       <==> PrintedPrefix(p) == PrintedPrefix(p') && y == y' && n == n'
  {
    if Reference(p, y, n) == Reference(p', y', n') {
      SameTail("DEVIS-", Stem(p, y, n), Stem(p', y', n'));
      StemIsInjective(p, y, n, p', y', n');
    }
  }

  // --- Runs of quote creations --------------------------------------------------

  type Id = nat

  datatype Row = Row(caterer: Id, year: nat, reference: string)

  function CountOf(rows: seq<Row>, caterer: Id, year: nat): nat {
    if rows == [] then 0
    else
      var last := rows[|rows| - 1];
      CountOf(rows[..|rows| - 1], caterer, year) + if last.caterer == caterer && last.year == year then 1 else 0
  }

  /** generate_quote_reference */
  function NextReference(rows: seq<Row>, prefix: Option<string>, caterer: Id, year: nat): string {
    Reference(prefix, year, CountOf(rows, caterer, year) + 1)
  }

  predicate Taken(rows: seq<Row>, reference: string) {
    exists i :: 0 <= i < |rows| && rows[i].reference == reference
  }

  /** A creation by a caterer of the table, in some year. */
  datatype Creation = Creation(caterer: Id, year: nat)

  /** The insert; UNIQUE on `quotes.reference` turns a clash into an error and no row. */
  function Create(prefixes: map<Id, Option<string>>, rows: seq<Row>, c: Creation): seq<Row> {
    if c.caterer !in prefixes then rows
    else
      var reference := NextReference(rows, prefixes[c.caterer], c.caterer, c.year);
      if Taken(rows, reference) then rows else rows + [Row(c.caterer, c.year, reference)]
  }

  function Created(prefixes: map<Id, Option<string>>, cs: seq<Creation>): seq<Row> {
    if cs == [] then [] else Create(prefixes, Created(prefixes, cs[..|cs| - 1]), cs[|cs| - 1])
  }

  /** Row number i carries the number of its caterer's quotes of that year up to it. */
  ghost predicate Numbered(prefixes: map<Id, Option<string>>, rows: seq<Row>) {
    forall i :: 0 <= i < |rows| ==>
      && rows[i].caterer in prefixes
      && rows[i].reference == NextReference(rows[..i], prefixes[rows[i].caterer], rows[i].caterer, rows[i].year)
  }

  lemma {:induction false} CreatedAreNumbered(prefixes: map<Id, Option<string>>, cs: seq<Creation>)
    ensures Numbered(prefixes, Created(prefixes, cs))
  {
    if cs != [] {
      var before := Created(prefixes, cs[..|cs| - 1]);
      CreatedAreNumbered(prefixes, cs[..|cs| - 1]);
      var after := Created(prefixes, cs);
      forall i | 0 <= i < |after|
        ensures after[i].caterer in prefixes
        ensures after[i].reference == NextReference(after[..i], prefixes[after[i].caterer], after[i].caterer,
                                                    after[i].year)
      {
        assert i < |before| ==> before[..i] == after[..i] && before[i] == after[i];
        assert i == |before| ==> after[..i] == before;
      }
    }
  }

  /** Counts grow: a row of the same caterer and year has been counted since. */
  lemma {:induction false} CountGrows(rows: seq<Row>, i: nat, caterer: Id, year: nat)
    requires i < |rows| && rows[i].caterer == caterer && rows[i].year == year
    ensures CountOf(rows[..i], caterer, year) < CountOf(rows, caterer, year)
    decreases |rows|
  {
    var front := rows[..|rows| - 1];
    if i < |front| {
      assert front[..i] == rows[..i] && front[i] == rows[i];
      CountGrows(front, i, caterer, year);
    }
  }

  /** The rows of one caterer and one year. */
  function OfYear(rows: seq<Row>, caterer: Id, year: nat): set<nat> {
    set i: nat | i < |rows| && rows[i].caterer == caterer && rows[i].year == year
  }

  lemma {:induction false} CountIsHowMany(rows: seq<Row>, caterer: Id, year: nat)
    ensures CountOf(rows, caterer, year) == |OfYear(rows, caterer, year)|
  {
    if rows != [] {
      var front, n := rows[..|rows| - 1], |rows| - 1;
      CountIsHowMany(front, caterer, year);
      if rows[n].caterer == caterer && rows[n].year == year {
        assert OfYear(rows, caterer, year) == OfYear(front, caterer, year) + {n};
      } else {
        assert OfYear(rows, caterer, year) == OfYear(front, caterer, year);
      }
    }
  }

  /** Numbers start at one with each caterer and each year, and grow by one with each of its quotes. */
  lemma EveryRowIsNumbered(prefixes: map<Id, Option<string>>, cs: seq<Creation>, i: nat)
    requires i < |Created(prefixes, cs)|
    ensures var rows := Created(prefixes, cs);
            && rows[i].caterer in prefixes
            && rows[i].reference == Reference(prefixes[rows[i].caterer], rows[i].year,
                                              1 + |OfYear(rows[..i], rows[i].caterer, rows[i].year)|)
  {
    var rows := Created(prefixes, cs);
    CreatedAreNumbered(prefixes, cs);
    CountIsHowMany(rows[..i], rows[i].caterer, rows[i].year);
  }

  /** The first quote of a caterer in a year, in letters. */
  lemma FirstOfTheYear(prefix: string)
    ensures Reference(Some(prefix), 2026, 1) == "DEVIS-" + (prefix + "-2026-001")
  {
    assert Printed(2) == "2" && Printed(20) == "20" && Printed(202) == "202" && Printed(2026) == "2026";
    assert Printed(1) == "1" && Padded(1) == "001";
    assert prefix + "-" + "2026" + "-" + "001" == prefix + "-2026-001";
  }

  /** And of its invoice. */
  lemma FirstInvoiceOfTheYear(prefix: string)
    ensures InvoiceReference(Reference(Some(prefix), 2026, 1)) == "FAC-" + (prefix + "-2026-001")
  {
    FirstOfTheYear(prefix);
    InvoiceReferenceOf(prefix + "-2026-001");
    hide Reference, InvoiceReference;
  }

  predicate DistinctPrefixes(prefixes: map<Id, Option<string>>) {
    forall a, b :: a in prefixes && b in prefixes && PrintedPrefix(prefixes[a]) == PrintedPrefix(prefixes[b]) ==> a == b
  }

  /** Where the number of a new row stands against the number of an old one. */
  lemma NumbersDiffer(prefixes: map<Id, Option<string>>, rows: seq<Row>, i: nat, caterer: Id, year: nat)
    requires DistinctPrefixes(prefixes) && i < |rows| && caterer in prefixes && rows[i].caterer in prefixes
    ensures PrintedPrefix(prefixes[rows[i].caterer]) != PrintedPrefix(prefixes[caterer]) || rows[i].year != year
            || CountOf(rows[..i], rows[i].caterer, rows[i].year) != CountOf(rows, caterer, year)
  {
    if rows[i].caterer == caterer && rows[i].year == year {
      CountGrows(rows, i, caterer, year);
    }
  }

  lemma RowIsNotNext(prefixes: map<Id, Option<string>>, rows: seq<Row>, i: nat, caterer: Id, year: nat)
    requires Numbered(prefixes, rows) && DistinctPrefixes(prefixes) && caterer in prefixes && i < |rows|
    ensures rows[i].reference != NextReference(rows, prefixes[caterer], caterer, year)
  {
    var r := rows[i];
    NumbersDiffer(prefixes, rows, i, caterer, year);
    ReferenceIsInjective(prefixes[r.caterer], r.year, CountOf(rows[..i], r.caterer, r.year) + 1,
                         prefixes[caterer], year, CountOf(rows, caterer, year) + 1);
  }

  lemma NextIsFree(prefixes: map<Id, Option<string>>, rows: seq<Row>, caterer: Id, year: nat)
    requires Numbered(prefixes, rows) && DistinctPrefixes(prefixes) && caterer in prefixes
    ensures !Taken(rows, NextReference(rows, prefixes[caterer], caterer, year))
  {
    var next := NextReference(rows, prefixes[caterer], caterer, year);
    forall i | 0 <= i < |rows| ensures rows[i].reference != next {
      RowIsNotNext(prefixes, rows, i, caterer, year);
    }
  }

  /** No draft is ever refused for its reference. */
  ghost predicate NeverClashes(prefixes: map<Id, Option<string>>) {
    forall cs: seq<Creation>, caterer: Id, year: nat :: caterer in prefixes ==> FreeAfter(prefixes, cs, caterer, year)
  }

  predicate FreeAfter(prefixes: map<Id, Option<string>>, cs: seq<Creation>, caterer: Id, year: nat)
    requires caterer in prefixes
  {
    !Taken(Created(prefixes, cs), NextReference(Created(prefixes, cs), prefixes[caterer], caterer, year))
  }

  /**
   Over every run of creations, across caterers, years and past 999 quotes, the
   next reference is free, if and only if the printed prefixes are distinct.
   */
  lemma ReferencesAreFreeIff(prefixes: map<Id, Option<string>>)
    ensures NeverClashes(prefixes) <==> DistinctPrefixes(prefixes)
  {
    if DistinctPrefixes(prefixes) {
      forall cs: seq<Creation>, caterer: Id, year: nat | caterer in prefixes
        ensures FreeAfter(prefixes, cs, caterer, year)
      {
        CreatedAreNumbered(prefixes, cs);
        NextIsFree(prefixes, Created(prefixes, cs), caterer, year);
      }
    } else {
      var a, b :| a in prefixes && b in prefixes && PrintedPrefix(prefixes[a]) == PrintedPrefix(prefixes[b]) && a != b;
      SamePrefixClashes(prefixes, a, b, 2026);
    }
  }

  lemma SamePrefixClashes(prefixes: map<Id, Option<string>>, a: Id, b: Id, year: nat)
    requires a in prefixes && b in prefixes && a != b && PrintedPrefix(prefixes[a]) == PrintedPrefix(prefixes[b])
    ensures !FreeAfter(prefixes, [Creation(a, year)], b, year)
  {
    var first := NextReference([], prefixes[a], a, year);
    var rows := [Row(a, year, first)];
    OnlyRow(prefixes, a, year);
    assert rows[..0] == [];
    assert CountOf(rows, b, year) == 0 == CountOf([], a, year);
    ReferenceIsInjective(prefixes[a], year, 1, prefixes[b], year, 1);
    assert rows[0].reference == NextReference(rows, prefixes[b], b, year);
  }

  lemma OnlyRow(prefixes: map<Id, Option<string>>, a: Id, year: nat)
    requires a in prefixes
    ensures Created(prefixes, [Creation(a, year)]) == [Row(a, year, NextReference([], prefixes[a], a, year))]
  {
    assert [Creation(a, year)][..0] == [];
    var reference := NextReference([], prefixes[a], a, year);
    assert !Taken([], reference);
    assert Create(prefixes, [], Creation(a, year)) == [] + [Row(a, year, reference)];
  }

  /**
   `caterers.invoice_prefix` is UNIQUE but nullable, and SQL lets NULLs repeat:
   the condition fails as soon as two caterers have no prefix.
   */
  lemma UniqueColumnIsNotEnough(prefixes: map<Id, Option<string>>)
    requires forall a, b :: a in prefixes && b in prefixes && prefixes[a].Some? && prefixes[a] == prefixes[b] ==> a == b
    ensures DistinctPrefixes(prefixes) <==>
              forall a, b :: a in prefixes && b in prefixes && prefixes[a] == None && a != b ==>
                prefixes[b] != None && prefixes[b] != Some("None")
  {
    if !DistinctPrefixes(prefixes) {
      var a, b :| a in prefixes && b in prefixes && PrintedPrefix(prefixes[a]) == PrintedPrefix(prefixes[b]) && a != b;
      if prefixes[a].Some? {
        assert prefixes[b] == None;
      }
    }
  }

  /** Sign-up gives every caterer a prefix nobody has: then no draft is ever refused for its reference. */
  lemma AssignedPrefixesNeverClash(prefixes: map<Id, Option<string>>)
    requires forall a :: a in prefixes ==> prefixes[a].Some?
    requires forall a, b :: a in prefixes && b in prefixes && prefixes[a] == prefixes[b] ==> a == b
    ensures NeverClashes(prefixes)
  {
    UniqueColumnIsNotEnough(prefixes);
    ReferencesAreFreeIff(prefixes);
  }

  // --- Invoice references -------------------------------------------------------

  /** `s.replace(old, new, 1)` */
  function ReplaceFirst(s: string, old': string, new': string): string {
    if old' <= s then new' + s[|old'|..]
    else if s == "" then ""
    else [s[0]] + ReplaceFirst(s[1..], old', new')
  }

  /** derive_invoice_reference */
  function InvoiceReference(quoteReference: string): string {
    ReplaceFirst(quoteReference, "DEVIS-", "FAC-")
  }

  lemma InvoiceReferenceOf(stem: string)
    ensures InvoiceReference("DEVIS-" + stem) == "FAC-" + stem
  {
    assert ("DEVIS-" + stem)[6..] == stem;
  }

  /** On quote references the derivation keeps apart what was apart. */
  lemma InvoiceReferenceKeepsApart(p: Option<string>, y: nat, n: nat, p': Option<string>, y': nat, n': nat)
    ensures InvoiceReference(Reference(p, y, n)) == InvoiceReference(Reference(p', y', n'))
       <==> Reference(p, y, n) == Reference(p', y', n')
  {
    var stem, stem' := Stem(p, y, n), Stem(p', y', n');
    InvoiceReferenceOf(stem);
    InvoiceReferenceOf(stem');
    if "FAC-" + stem == "FAC-" + stem' {
      SameTail("FAC-", stem, stem');
    }
  }

  /** No two quotes of a run are invoiced under one reference. */
  lemma InvoiceReferencesAreDistinct(prefixes: map<Id, Option<string>>, cs: seq<Creation>, i: nat, j: nat)
    requires i < j < |Created(prefixes, cs)|
    ensures var rows := Created(prefixes, cs);
            InvoiceReference(rows[i].reference) != InvoiceReference(rows[j].reference)
  {
    var rows := Created(prefixes, cs);
    CreatedAreNumbered(prefixes, cs);
    RowsAreUnique(prefixes, cs, i, j);
    InvoiceReferenceKeepsApart(prefixes[rows[i].caterer], rows[i].year,
                               CountOf(rows[..i], rows[i].caterer, rows[i].year) + 1,
                               prefixes[rows[j].caterer], rows[j].year,
                               CountOf(rows[..j], rows[j].caterer, rows[j].year) + 1);
  }

  lemma {:induction false} RowsAreUnique(prefixes: map<Id, Option<string>>, cs: seq<Creation>, i: nat, j: nat)
    requires i < j < |Created(prefixes, cs)|
    ensures Created(prefixes, cs)[i].reference != Created(prefixes, cs)[j].reference
    decreases |cs|
  {
    var before := Created(prefixes, cs[..|cs| - 1]);
    if j < |before| {
      RowsAreUnique(prefixes, cs[..|cs| - 1], i, j);
    }
  }
}
