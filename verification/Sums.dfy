/** Sums over the rows a query selects, in no particular order. */
module Sums {
  ghost function SumOver(keys: set<nat>, f: nat -> int): int {
    if keys == {} then 0
    else
      var k :| k in keys;
      f(k) + SumOver(keys - {k}, f)
  }

  /** Any row may be taken first. */
  lemma {:induction false} SumOverTake(keys: set<nat>, f: nat -> int, x: nat)
    requires x in keys
    ensures SumOver(keys, f) == f(x) + SumOver(keys - {x}, f)
  {
    var k :| k in keys && SumOver(keys, f) == f(k) + SumOver(keys - {k}, f);
    if k != x {
      SumOverTake(keys - {k}, f, x);
      SumOverTake(keys - {x}, f, k);
      assert keys - {k} - {x} == keys - {x} - {k};
    }
  }

  lemma {:induction false} SumOverAgrees(keys: set<nat>, f: nat -> int, g: nat -> int)
    requires forall k :: k in keys ==> f(k) == g(k)
    ensures SumOver(keys, f) == SumOver(keys, g)
  {
    if keys != {} {
      var k :| k in keys;
      SumOverTake(keys, f, k);
      SumOverTake(keys, g, k);
      SumOverAgrees(keys - {k}, f, g);
    }
  }

  lemma {:induction false} SumOverAdds(keys: set<nat>, f: nat -> int, g: nat -> int, h: nat -> int)
    requires forall k :: k in keys ==> h(k) == f(k) + g(k)
    ensures SumOver(keys, h) == SumOver(keys, f) + SumOver(keys, g)
  {
    if keys != {} {
      var k :| k in keys;
      SumOverTake(keys, f, k);
      SumOverTake(keys, g, k);
      SumOverTake(keys, h, k);
      SumOverAdds(keys - {k}, f, g, h);
    }
  }

  /** The rows whose owner is `c`. */
  ghost function Owned(keys: set<nat>, owner: nat -> nat, c: nat): set<nat> {
    set k | k in keys && owner(k) == c
  }

  ghost function PartOf(keys: set<nat>, owner: nat -> nat, f: nat -> int): nat -> int {
    (c: nat) => SumOver(Owned(keys, owner, c), f)
  }

  ghost function SumByOwner(owners: set<nat>, keys: set<nat>, owner: nat -> nat, f: nat -> int): int {
    SumOver(owners, PartOf(keys, owner, f))
  }

  /** Splitting rows by owner and adding the parts up again loses nothing. */
  lemma {:induction false} SumByOwnerConserves(owners: set<nat>, keys: set<nat>, owner: nat -> nat, f: nat -> int)
    requires forall k :: k in keys ==> owner(k) in owners
    ensures SumByOwner(owners, keys, owner, f) == SumOver(keys, f)
    decreases |keys|
  {
    if keys == {} {
      SumOfZeros(owners, PartOf(keys, owner, f));
    } else {
      var k :| k in keys;
      SumByOwnerConserves(owners, keys - {k}, owner, f);
      SumOverTake(keys, f, k);
      SumByOwnerTake(owners, keys, owner, f, k);
    }
  }

  lemma PartWithout(keys: set<nat>, owner: nat -> nat, f: nat -> int, k: nat, c: nat)
    requires k in keys
    ensures PartOf(keys, owner, f)(c) == PartOf(keys - {k}, owner, f)(c) + if c == owner(k) then f(k) else 0
  {
    if c == owner(k) {
      assert Owned(keys, owner, c) - {k} == Owned(keys - {k}, owner, c);
      SumOverTake(Owned(keys, owner, c), f, k);
    } else {
      assert Owned(keys, owner, c) == Owned(keys - {k}, owner, c);
    }
  }

  lemma SumByOwnerTake(owners: set<nat>, keys: set<nat>, owner: nat -> nat, f: nat -> int, k: nat)
    requires k in keys && owner(k) in owners
    ensures SumByOwner(owners, keys, owner, f) == f(k) + SumByOwner(owners, keys - {k}, owner, f)
  {
    var part, rest := PartOf(keys, owner, f), PartOf(keys - {k}, owner, f);
    forall c: nat ensures part(c) == rest(c) + if c == owner(k) then f(k) else 0 {
      PartWithout(keys, owner, f, k, c);
    }
    SumOverTake(owners, part, owner(k));
    SumOverTake(owners, rest, owner(k));
    SumOverAgrees(owners - {owner(k)}, part, rest);
  }

  lemma {:induction false} SumOfZeros(keys: set<nat>, f: nat -> int)
    requires forall k :: k in keys ==> f(k) == 0
    ensures SumOver(keys, f) == 0
  {
    if keys != {} {
      var k :| k in keys;
      SumOverTake(keys, f, k);
      SumOfZeros(keys - {k}, f);
    }
  }

  lemma {:induction false} SumOverUnion(a: set<nat>, b: set<nat>, f: nat -> int)
    requires a !! b
    ensures SumOver(a + b, f) == SumOver(a, f) + SumOver(b, f)
    decreases |b|
  {
    if b == {} {
      assert a + b == a;
    } else {
      var k :| k in b;
      SumOverTake(b, f, k);
      SumOverTake(a + b, f, k);
      SumOverUnion(a, b - {k}, f);
      assert a + b - {k} == a + (b - {k});
    }
  }

  lemma {:induction false} SumOverNonNegative(keys: set<nat>, f: nat -> int)
    requires forall k :: k in keys ==> f(k) >= 0
    ensures SumOver(keys, f) >= 0
  {
    if keys != {} {
      var k :| k in keys && SumOver(keys, f) == f(k) + SumOver(keys - {k}, f);
      SumOverNonNegative(keys - {k}, f);
    }
  }
}
