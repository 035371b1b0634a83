/** Finite sums of exact amounts held in maps. */
module Totals {

  ghost function Total<K(!new)>(m: map<K, real>): real
    decreases |m|
  {
    if m == map[] then 0.0
    else
      var k :| k in m;
      m[k] + Total(m - {k})
  }

  lemma {:induction false} TotalTakes<K(!new)>(m: map<K, real>, k: K)
    requires k in m
    ensures Total(m) == m[k] + Total(m - {k})
    decreases |m|
  {
    var x :| x in m && Total(m) == m[x] + Total(m - {x});
    if x != k {
      TotalTakes(m - {x}, k);
      TotalTakes(m - {k}, x);
      assert m - {x} - {k} == m - {k} - {x};
    }
  }

  function Get<K(==)>(m: map<K, real>, k: K): real {
    if k in m then m[k] else 0.0
  }

  predicate NonNegative<K(==)>(m: map<K, real>) {
    forall k :: k in m ==> m[k] >= 0.0
  }

  lemma {:induction false} TotalIsNonNegative<K(!new)>(m: map<K, real>)
    requires NonNegative(m)
    ensures Total(m) >= 0.0
    decreases |m|
  {
    if m != map[] {
      var k :| k in m;
      TotalTakes(m, k);
      TotalIsNonNegative(m - {k});
    }
  }

  function Part<K(==)>(m: map<K, real>, keys: set<K>): map<K, real> {
    map k | k in m && k in keys :: m[k]
  }

  /** Dropping keys of a nonnegative map lowers the total. */
  lemma {:induction false} TotalOfPart<K(!new)>(m: map<K, real>, keys: set<K>)
    requires NonNegative(m)
    ensures Total(Part(m, keys)) <= Total(m)
    decreases |m|
  {
    var part := Part(m, keys);
    if m != map[] {
      var k :| k in m;
      TotalTakes(m, k);
      TotalOfPart(m - {k}, keys);
      var rest := Part(m - {k}, keys);
      if k in keys {
        TotalTakes(part, k);
        assert part - {k} == rest;
      } else {
        assert part == rest;
      }
    } else {
      assert part == map[];
    }
  }

  lemma TotalAfterAdding<K(!new)>(m: map<K, real>, k: K, v: real)
    ensures Total(m[k := Get(m, k) + v]) == Total(m) + v
  {
    var u := m[k := Get(m, k) + v];
    TotalTakes(u, k);
    assert u - {k} == m - {k};
    if k in m {
      TotalTakes(m, k);
    } else {
      assert m - {k} == m;
    }
  }

  lemma TotalWithout<K(!new)>(m: map<K, real>, k: K)
    ensures Total(m) == Get(m, k) + Total(m - {k})
  {
    if k in m {
      TotalTakes(m, k);
    } else {
      assert m - {k} == m;
    }
  }

  function Summed<K(==)>(keys: set<K>, f: map<K, real>, h: map<K, real>): map<K, real> {
    map k | k in keys :: Get(f, k) + Get(h, k)
  }

  lemma {:induction false} TotalOfSum<K(!new)>(keys: set<K>, f: map<K, real>, h: map<K, real>)
    requires f.Keys <= keys && h.Keys <= keys
    ensures Total(Summed(keys, f, h)) == Total(f) + Total(h)
    decreases |keys|
  {
    if keys == {} {
      assert f == map[] && h == map[] && Summed(keys, f, h) == map[];
    } else {
      var k :| k in keys;
      TotalTakes(Summed(keys, f, h), k);
      assert Summed(keys, f, h) - {k} == Summed(keys - {k}, f - {k}, h - {k});
      TotalOfSum(keys - {k}, f - {k}, h - {k});
      TotalWithout(f, k);
      TotalWithout(h, k);
    }
  }

  function Product(a: real, x: real): real {
    a * x
  }

  function Scaled<K(==)>(a: real, f: map<K, real>): map<K, real> {
    map k | k in f :: Product(a, f[k])
  }

  lemma ProductOfSum(a: real, x: real, y: real)
    ensures Product(a, x + y) == Product(a, x) + Product(a, y)
  {
  }

  lemma {:induction false} TotalScales<K(!new)>(a: real, f: map<K, real>)
    ensures Total(Scaled(a, f)) == Product(a, Total(f))
    decreases |f|
  {
    if f != map[] {
      var k :| k in f;
      TotalTakes(Scaled(a, f), k);
      assert Scaled(a, f) - {k} == Scaled(a, f - {k});
      TotalScales(a, f - {k});
      TotalTakes(f, k);
      ProductOfSum(a, f[k], Total(f - {k}));
    } else {
      assert Scaled(a, f) == map[];
    }
  }

  /** Only the amounts matter, not whether a zero is stored. */
  lemma SameAmountsSameTotal<K(!new)>(m: map<K, real>, n: map<K, real>)
    requires forall k :: Get(m, k) == Get(n, k)
    ensures Total(m) == Total(n)
  {
    var keys := m.Keys + n.Keys;
    var none: map<K, real> := map[];
    TotalOfSum(keys, m, none);
    TotalOfSum(keys, n, none);
    assert Summed(keys, m, none) == Summed(keys, n, none);
  }

  lemma {:induction false} TotalIsMonotone<K(!new)>(m: map<K, real>, n: map<K, real>)
    requires m.Keys == n.Keys && forall k :: k in m ==> m[k] <= n[k]
    ensures Total(m) <= Total(n)
    decreases |m|
  {
    if m != map[] {
      var k :| k in m;
      TotalTakes(m, k);
      TotalTakes(n, k);
      TotalIsMonotone(m - {k}, n - {k});
    }
  }

  // ---- scattering ---------------------------------------------------------

  function TargetsOf<K(==), L>(out: map<K, seq<L>>, k: K): seq<L> {
    if k in out then out[k] else []
  }

  function Share(value: real, n: nat): real
    requires n > 0
  {
    value / (n as real)
  }

  /** An amount received `n` times. */
  function Times(n: nat, share: real): real {
    if n == 0 then 0.0 else Times(n - 1, share) + share
  }

  /** What `k` gives to `l`: an equal share for each time `l` is listed; nothing without a positive value. */
  function Give<K(==), L(==)>(mass: map<K, real>, out: map<K, seq<L>>, k: K, l: L): real {
    var targets := TargetsOf(out, k);
    if Get(mass, k) <= 0.0 || targets == [] then 0.0 else Times(multiset(targets)[l], Share(mass[k], |targets|))
  }

  function Gifts<K(==), L(==)>(mass: map<K, real>, out: map<K, seq<L>>, from: set<K>, l: L): map<K, real> {
    map k | k in from :: Give(mass, out, k, l)
  }

  ghost function GiftTotal<K(!new), L(!new)>(mass: map<K, real>, out: map<K, seq<L>>, from: set<K>, l: L): real {
    Total(Gifts(mass, out, from, l))
  }

  /** Everything `l` receives. */
  ghost function Inflow<K(!new), L(!new)>(mass: map<K, real>, out: map<K, seq<L>>, l: L): real {
    GiftTotal(mass, out, mass.Keys, l)
  }

  lemma {:induction false} TimesIsProduct(n: nat, share: real)
    ensures Times(n, share) == (n as real) * share
  {
    if n > 0 {
      TimesIsProduct(n - 1, share);
      assert (n as real) * share == ((n - 1) as real) * share + share;
    }
  }

  /** The equal shares of a value are together the value. */
  lemma SharesMakeWhole(value: real, n: nat)
    requires n > 0
    ensures Times(n, Share(value, n)) == value
  {
    TimesIsProduct(n, Share(value, n));
  }

  lemma {:induction false} TimesIsNonNegative(n: nat, share: real)
    requires share >= 0.0
    ensures Times(n, share) >= 0.0
  {
    if n > 0 {
      TimesIsNonNegative(n - 1, share);
    }
  }

  lemma CountOneMore<L>(targets: seq<L>, j: nat, l: L)
    requires j < |targets|
    ensures multiset(targets[..j + 1])[l] == multiset(targets[..j])[l] + if l == targets[j] then 1 else 0
  {
    assert targets[..j + 1] == targets[..j] + [targets[j]];
  }

  /** Hand one amount to each listed target, one after the other. */
  method Spread<L(==, !new)>(m: map<L, real>, targets: seq<L>, share: real) returns (u: map<L, real>)
    ensures forall l :: Get(u, l) == Get(m, l) + Times(multiset(targets)[l], share)
  {
    u := m;
    for j := 0 to |targets|
      invariant forall l :: Get(u, l) == Get(m, l) + Times(multiset(targets[..j])[l], share)
    {
      ghost var before := u;
      u := u[targets[j] := Get(u, targets[j]) + share];
      forall l ensures Get(u, l) == Get(m, l) + Times(multiset(targets[..j + 1])[l], share) {
        assert Get(before, l) == Get(m, l) + Times(multiset(targets[..j])[l], share);
        CountOneMore(targets, j, l);
      }
    }
    assert targets[..|targets|] == targets;
  }

  /** Every key passes its value on in equal shares; values at or below zero and keys without targets are skipped. */
  method Scatter<K(==, !new), L(==, !new)>(mass: map<K, real>, out: map<K, seq<L>>) returns (received: map<L, real>)
    ensures forall l :: Get(received, l) == Inflow(mass, out, l)
  {
    received := map[];
    var left := mass.Keys;
    while left != {}
      invariant left <= mass.Keys
      invariant forall l :: Get(received, l) == GiftTotal(mass, out, mass.Keys - left, l)
    {
      var k :| k in left;
      var before := received;
      var targets := TargetsOf(out, k);
      if mass[k] > 0.0 && targets != [] {
        received := Spread(received, targets, mass[k] / |targets| as real);
      }
      forall l ensures Get(received, l) == GiftTotal(mass, out, mass.Keys - (left - {k}), l) {
        assert Get(received, l) == Get(before, l) + Give(mass, out, k, l);
        assert mass.Keys - (left - {k}) == mass.Keys - left + {k};
        OneMoreGift(mass, out, mass.Keys - left, k, l);
      }
      left := left - {k};
    }
    assert mass.Keys - left == mass.Keys;
  }

  lemma OneMoreGift<K(!new), L(!new)>(mass: map<K, real>, out: map<K, seq<L>>, from: set<K>, k: K, l: L)
    requires k !in from
    ensures GiftTotal(mass, out, from + {k}, l) == GiftTotal(mass, out, from, l) + Give(mass, out, k, l)
  {
    TotalTakes(Gifts(mass, out, from + {k}, l), k);
    assert Gifts(mass, out, from + {k}, l) - {k} == Gifts(mass, out, from, l);
  }

  // ---- nothing is made or lost on the way ---------------------------------

  function Dealt<L(==)>(targets: seq<L>, share: real, universe: set<L>): map<L, real> {
    map l | l in universe :: Times(multiset(targets)[l], share)
  }

  lemma {:induction false} DealtAddsUp<L(!new)>(targets: seq<L>, share: real, universe: set<L>)
    requires forall l :: l in targets ==> l in universe
    ensures Total(Dealt(targets, share, universe)) == Times(|targets|, share)
  {
    var dealt := Dealt(targets, share, universe);
    if targets == [] {
      ZeroesAddUp(dealt);
    } else {
      var n := |targets| - 1;
      DealtAddsUp(targets[..n], share, universe);
      var fewer := Dealt(targets[..n], share, universe);
      TotalAfterAdding(fewer, targets[n], share);
      DealtOneMore(targets, share, universe);
    }
  }

  lemma DealtOneMore<L(!new)>(targets: seq<L>, share: real, universe: set<L>)
    requires targets != [] && targets[|targets| - 1] in universe
    ensures
      var n := |targets| - 1;
      var fewer := Dealt(targets[..n], share, universe);
      Dealt(targets, share, universe) == fewer[targets[n] := Get(fewer, targets[n]) + share]
  {
    var n := |targets| - 1;
    assert targets[..n + 1] == targets;
    forall l | l in universe
      ensures Times(multiset(targets)[l], share) == Times(multiset(targets[..n])[l], share) + if l == targets[n] then share else 0.0
    {
      CountOneMore(targets, n, l);
    }
  }

  lemma {:induction false} ZeroesAddUp<L(!new)>(m: map<L, real>)
    requires forall l :: l in m ==> m[l] == 0.0
    ensures Total(m) == 0.0
    decreases |m|
  {
    if m != map[] {
      var l :| l in m;
      TotalTakes(m, l);
      ZeroesAddUp(m - {l});
    }
  }

  /** What every member of the universe has received from the givers in `from`. */
  ghost function Received<K(!new), L(!new)>(mass: map<K, real>, out: map<K, seq<L>>, from: set<K>, universe: set<L>): map<L, real> {
    map l | l in universe :: GiftTotal(mass, out, from, l)
  }

  function Passed<K(==), L>(mass: map<K, real>, out: map<K, seq<L>>, from: set<K>): map<K, real> {
    map k | k in from :: if Get(mass, k) <= 0.0 || TargetsOf(out, k) == [] then 0.0 else mass[k]
  }

  function GiftsOf<K(==), L(==)>(mass: map<K, real>, out: map<K, seq<L>>, k: K, universe: set<L>): map<L, real> {
    map l | l in universe :: Give(mass, out, k, l)
  }

  lemma GiftOfOne<K(!new), L(!new)>(mass: map<K, real>, out: map<K, seq<L>>, k: K, universe: set<L>)
    requires k in mass && forall l :: l in TargetsOf(out, k) ==> l in universe
    ensures Total(GiftsOf(mass, out, k, universe)) == Passed(mass, out, {k})[k]
  {
    var targets := TargetsOf(out, k);
    var gift := GiftsOf(mass, out, k, universe);
    if mass[k] <= 0.0 || targets == [] {
      ZeroesAddUp(gift);
    } else {
      var share := Share(mass[k], |targets|);
      DealtAddsUp(targets, share, universe);
      assert gift == Dealt(targets, share, universe);
      SharesMakeWhole(mass[k], |targets|);
    }
  }

  lemma ReceivedAt<K(!new), L(!new)>(mass: map<K, real>, out: map<K, seq<L>>, from: set<K>, k: K, universe: set<L>, l: L)
    requires k !in from && l in universe
    ensures Received(mass, out, from + {k}, universe)[l] == Received(mass, out, from, universe)[l] + GiftsOf(mass, out, k, universe)[l]
  {
    OneMoreGift(mass, out, from, k, l);
  }

  lemma SummedPointwise<K(!new)>(keys: set<K>, sum: map<K, real>, f: map<K, real>, h: map<K, real>)
    requires sum.Keys == keys && f.Keys == keys && h.Keys == keys
    requires forall k :: k in keys ==> sum[k] == f[k] + h[k]
    ensures sum == Summed(keys, f, h)
  {
  }

  lemma ReceivedSplits<K(!new), L(!new)>(mass: map<K, real>, out: map<K, seq<L>>, from: set<K>, k: K, universe: set<L>)
    requires k !in from
    ensures Received(mass, out, from + {k}, universe)
         == Summed(universe, Received(mass, out, from, universe), GiftsOf(mass, out, k, universe))
  {
    var sum, others := Received(mass, out, from + {k}, universe), Received(mass, out, from, universe);
    var gifts := GiftsOf(mass, out, k, universe);
    forall l | l in universe ensures sum[l] == others[l] + gifts[l] {
      ReceivedAt(mass, out, from, k, universe, l);
    }
    SummedPointwise(universe, sum, others, gifts);
  }

  lemma OneMoreGiver<K(!new), L(!new)>(mass: map<K, real>, out: map<K, seq<L>>, from: set<K>, k: K, universe: set<L>)
    requires k in mass && k !in from && forall l :: l in TargetsOf(out, k) ==> l in universe
    ensures Total(Received(mass, out, from + {k}, universe)) == Total(Received(mass, out, from, universe)) + Passed(mass, out, {k})[k]
  {
    ReceivedSplits(mass, out, from, k, universe);
    TotalOfSum(universe, Received(mass, out, from, universe), GiftsOf(mass, out, k, universe));
    GiftOfOne(mass, out, k, universe);
  }

  lemma NoGiver<K(!new), L(!new)>(mass: map<K, real>, out: map<K, seq<L>>, universe: set<L>)
    ensures Total(Received(mass, out, {}, universe)) == 0.0
  {
    var received := Received(mass, out, {}, universe);
    forall l | l in universe ensures received[l] == 0.0 {
      assert Gifts(mass, out, {}, l) == map[];
    }
    ZeroesAddUp(received);
  }

  lemma PassedWithout<K(!new), L(!new)>(mass: map<K, real>, out: map<K, seq<L>>, from: set<K>, k: K)
    requires k in mass && k in from
    ensures Total(Passed(mass, out, from)) == Total(Passed(mass, out, from - {k})) + Passed(mass, out, {k})[k]
  {
    TotalTakes(Passed(mass, out, from), k);
    assert Passed(mass, out, from) - {k} == Passed(mass, out, from - {k});
  }

  /** Conservation: what is received is exactly what was passed on. */
  lemma {:induction false} ReceivedIsPassed<K(
      !new), L(!new)>(mass: map<K, real>, out: map<K, seq<L>>, from: set<K>, universe: set<L>)
    requires from <= mass.Keys
    requires forall k, l :: k in from && l in TargetsOf(out, k) ==> l in universe
    ensures Total(Received(mass, out, from, universe)) == Total(Passed(mass, out, from))
    decreases |from|
  {
    if from == {} {
      NoGiver(mass, out, universe);
      assert Passed(mass, out, from) == map[];
    } else {
      var k :| k in from;
      ReceivedIsPassed(mass, out, from - {k}, universe);
      OneMoreGiver(mass, out, from - {k}, k, universe);
      assert from - {k} + {k} == from;
      PassedWithout(mass, out, from, k);
    }
  }
}
