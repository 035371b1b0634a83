/**
 What the neighbourhood and one hop mean in terms of single links: paths from
 the seeds, and mass that moves exactly along shared entities.
 */
module DiffusionPaths {
  import opened Wrappers
  import opened Totals
  import opened Diffusion

  // ---- the neighbourhood is what paths reach ------------------------------

  /** One record's entities name an entity that lists the other record. */
  ghost predicate IsLinked(g: Graph, a: RecordId, b: RecordId) {
    exists e: EntityId :: LinksThrough(g, a, e, b)
  }

  predicate LinksThrough(g: Graph, a: RecordId, e: EntityId, b: RecordId) {
    a in g.entities && e in g.entities[a] && e in g.records && b in g.records[e]
  }

  /** A way from a seed over links, on which every record after the seed is permitted. */
  ghost predicate IsPath(g: Graph, allowed: Option<set<RecordId>>, seeds: set<RecordId>, path: seq<RecordId>) {
    && |path| > 0 && path[0] in seeds
    && forall i :: 0 < i < |path| ==> IsLinked(g, path[i - 1], path[i]) && (allowed.Some? ==> path[i] in allowed.value)
  }

  ghost predicate LeadsTo(
    g: Graph, allowed: Option<set<RecordId>>, seeds: set<RecordId>, path: seq<RecordId>, length: nat, r: RecordId)
  {
    IsPath(g, allowed, seeds, path) && |path| <= length + 1 && path[|path| - 1] == r
  }

  /** Some path of at most this many links ends in the record. */
  ghost predicate IsWithin(g: Graph, allowed: Option<set<RecordId>>, seeds: set<RecordId>, length: nat, r: RecordId) {
    exists path: seq<RecordId> :: LeadsTo(g, allowed, seeds, path, length, r)
  }

  lemma NeighbourIsLinked(g: Graph, allowed: Option<set<RecordId>>, from: set<RecordId>, r: RecordId)
    ensures r in Neighbours(g, allowed, from)
       <==> ((allowed.Some? ==> r in allowed.value) && exists a: RecordId :: a in from && IsLinked(g, a, r))
  {
    if MayVisit(allowed, r) && exists a: RecordId :: a in from && IsLinked(g, a, r) {
      var a: RecordId :| a in from && IsLinked(g, a, r);
      var e: EntityId :| LinksThrough(g, a, e, r);
      assert e in EntitiesOf(g, a);
      assert e in Touched(g, from) && r in RecordsOf(g, e);
    }
    if r in Neighbours(g, allowed, from) {
      var e: EntityId :| e in Touched(g, from) && r in RecordsOf(g, e) && MayVisit(allowed, r);
      var a: RecordId :| a in from && e in EntitiesOf(g, a);
      assert LinksThrough(g, a, e, r);
      assert IsLinked(g, a, r) && (allowed.Some? ==> r in allowed.value);
    }
  }

  lemma {:induction false} BallHasPath(
      g: Graph, allowed: Option<set<RecordId>>, seeds: set<RecordId>, balls: seq<set<RecordId>>, i: nat, r: RecordId)
    requires AreBalls(g, allowed, seeds, balls) && i < |balls| && r in balls[i]
    ensures IsWithin(g, allowed, seeds, i, r)
    decreases i
  {
    if i == 0 {
      assert LeadsTo(g, allowed, seeds, [r], 0, r);
    } else if r in balls[i - 1] {
      BallHasPath(g, allowed, seeds, balls, i - 1, r);
      var path: seq<RecordId> :| LeadsTo(g, allowed, seeds, path, i - 1, r);
      assert LeadsTo(g, allowed, seeds, path, i, r);
    } else {
      NeighbourIsLinked(g, allowed, balls[i - 1], r);
      var a: RecordId :| a in balls[i - 1] && IsLinked(g, a, r);
      BallHasPath(g, allowed, seeds, balls, i - 1, a);
      var path: seq<RecordId> :| LeadsTo(g, allowed, seeds, path, i - 1, a);
      assert LeadsTo(g, allowed, seeds, path + [r], i, r);
    }
  }

  lemma {:induction false} PathStaysInBall(
      g: Graph, allowed: Option<set<RecordId>>, seeds: set<RecordId>, balls: seq<set<RecordId>>, i: nat, path: seq<RecordId>)
    requires AreBalls(g, allowed, seeds, balls) && i < |balls| && IsPath(g, allowed, seeds, path) && |path| <= i + 1
    ensures path[|path| - 1] in balls[i]
    decreases i
  {
    var n := |path| - 1;
    if n < i {
      PathStaysInBall(g, allowed, seeds, balls, i - 1, path);
    } else if n > 0 {
      PathStaysInBall(g, allowed, seeds, balls, i - 1, path[..n]);
      NeighbourIsLinked(g, allowed, balls[i - 1], path[n]);
    }
  }

  lemma BallIsPaths(
      g: Graph, allowed: Option<set<RecordId>>, seeds: set<RecordId>, balls: seq<set<RecordId>>, i: nat, r: RecordId)
    requires AreBalls(g, allowed, seeds, balls) && i < |balls|
    ensures r in balls[i] <==> IsWithin(g, allowed, seeds, i, r)
  {
    if r in balls[i] {
      BallHasPath(g, allowed, seeds, balls, i, r);
    }
    if IsWithin(g, allowed, seeds, i, r) {
      var path: seq<RecordId> :| LeadsTo(g, allowed, seeds, path, i, r);
      PathStaysInBall(g, allowed, seeds, balls, i, path);
    }
  }

  /**
   Visited is exactly what a path of at most `hops` links reaches, and the
   entities that were read are exactly those of records within one link less.
   */
  lemma ReachIsPaths(
      g: Graph, allowed: Option<set<RecordId>>, seeds: set<RecordId>, hops: nat, visited: set<RecordId>, expanded: set<EntityId>)
    requires IsReach(g, allowed, seeds, hops, visited, expanded)
    ensures forall r :: r in visited <==> IsWithin(g, allowed, seeds, hops, r)
    ensures forall e :: e in expanded <==>
      hops > 0 && exists r: RecordId :: IsWithin(g, allowed, seeds, hops - 1, r) && r in g.entities && e in g.entities[r]
  {
    var balls: seq<set<RecordId>> :| AreBalls(g, allowed, seeds, balls) && ReachedBy(g, balls, hops, visited, expanded);
    forall r ensures r in visited <==> IsWithin(g, allowed, seeds, hops, r) {
      BallIsPaths(g, allowed, seeds, balls, hops, r);
    }
    if hops > 0 {
      var inner := balls[hops - 1];
      forall r: RecordId ensures IsWithin(g, allowed, seeds, hops - 1, r) <==> r in inner {
        BallIsPaths(g, allowed, seeds, balls, hops - 1, r);
      }
      forall e ensures e in expanded <==>
        exists r: RecordId :: IsWithin(g, allowed, seeds, hops - 1, r) && r in g.entities && e in g.entities[r]
      {
        ReadIsTouched(g, inner, e);
      }
    }
  }

  lemma ReadIsTouched(g: Graph, ball: set<RecordId>, e: EntityId)
    ensures e in Touched(g, ball) <==> exists r: RecordId :: r in ball && r in g.entities && e in g.entities[r]
  {
    if exists r: RecordId :: r in ball && r in g.entities && e in g.entities[r] {
      var r: RecordId :| r in ball && r in g.entities && e in g.entities[r];
      assert e in EntitiesOf(g, r);
    }
  }

  // ---- the teleport -------------------------------------------------------

  lemma RatiosAgree(a: real, x: real, y: real)
    ensures Product(Product(a, x), y) == Product(Product(a, y), x)
  {
  }

  lemma PersonalAt(seeds: map<RecordId, real>, q: RecordId)
    requires q in seeds && Total(Positives(seeds)) > 0.0
    ensures q in Personal(seeds) && Personal(seeds)[q] == Product(1.0 / Total(Positives(seeds)), Positive(seeds[q]))
  {
  }

  /** The two shares are in the ratio of the two scores. */
  lemma InRatio(seeds: map<RecordId, real>, r: RecordId, q: RecordId)
    requires r in seeds && q in seeds && seeds[r] > 0.0 && Total(Positives(seeds)) > 0.0
    ensures q in Personal(seeds) && r in Personal(seeds)
    ensures seeds[q] > 0.0 ==> Product(Personal(seeds)[q], seeds[r]) == Product(Personal(seeds)[r], seeds[q])
    ensures seeds[q] <= 0.0 ==> Personal(seeds)[q] == 0.0
  {
    PersonalAt(seeds, q);
    PersonalAt(seeds, r);
    var part := 1.0 / Total(Positives(seeds));
    RatiosAgree(part, seeds[q], seeds[r]);
    ProductWithZero(part);
  }

  /** Positive seeds share the whole mass in the ratio of their scores; the others have none. */
  lemma PersonalIsProportional(seeds: map<RecordId, real>, r: RecordId)
    requires r in seeds && seeds[r] > 0.0
    ensures Personal(seeds).Keys == seeds.Keys && Total(Personal(seeds)) == 1.0 && NonNegative(Personal(seeds))
    ensures forall q :: q in seeds && seeds[q] > 0.0 ==>
      Product(Personal(seeds)[q], seeds[r]) == Product(Personal(seeds)[r], seeds[q])
    ensures forall q :: q in seeds && seeds[q] <= 0.0 ==> Personal(seeds)[q] == 0.0
  {
    PositiveSeedCounts(seeds, r);
    ScaledToOne(Positives(seeds), Total(Positives(seeds)));
    forall q | q in seeds
      ensures seeds[q] > 0.0 ==> Product(Personal(seeds)[q], seeds[r]) == Product(Personal(seeds)[r], seeds[q])
      ensures seeds[q] <= 0.0 ==> Personal(seeds)[q] == 0.0
    {
      InRatio(seeds, r, q);
    }
  }

  lemma ProductIsPositive(a: real, x: real)
    requires a > 0.0
    ensures Product(a, x) > 0.0 <==> x > 0.0
  {
  }

  // ---- one hop ------------------------------------------------------------

  /** Something arrives exactly from givers with a positive value that list the receiver. */
  ghost predicate IsGiven<K(!new), L(!new)>(mass: map<K, real>, out: map<K, seq<L>>, l: L) {
    exists k :: k in mass && mass[k] > 0.0 && l in TargetsOf(out, k)
  }

  lemma GiveIsPositive<K(!new), L(!new)>(mass: map<K, real>, out: map<K, seq<L>>, k: K, l: L)
    requires k in mass && mass[k] > 0.0 && l in TargetsOf(out, k)
    ensures Give(mass, out, k, l) > 0.0
  {
    var targets := TargetsOf(out, k);
    var count := multiset(targets)[l];
    assert l in multiset(targets);
    TimesIsNonNegative(count - 1, Share(mass[k], |targets|));
  }

  lemma InflowIsGiven<K(!new), L(!new)>(mass: map<K, real>, out: map<K, seq<L>>, l: L)
    ensures Inflow(mass, out, l) >= 0.0
    ensures Inflow(mass, out, l) > 0.0 <==> IsGiven(mass, out, l)
  {
    var gifts := Gifts(mass, out, mass.Keys, l);
    forall k | k in gifts ensures gifts[k] >= 0.0 {
      GiveIsNonNegative(mass, out, k, l);
    }
    TotalIsNonNegative(gifts);
    if IsGiven(mass, out, l) {
      var k :| k in mass && mass[k] > 0.0 && l in TargetsOf(out, k);
      GiveIsPositive(mass, out, k, l);
      TotalTakes(gifts, k);
      TotalIsNonNegative(gifts - {k});
    } else {
      forall k | k in gifts ensures gifts[k] == 0.0 {
        NotListedGivesNothing(mass, out, k, l);
      }
      ZeroesAddUp(gifts);
    }
  }

  lemma NotListedGivesNothing<K(!new), L(!new)>(mass: map<K, real>, out: map<K, seq<L>>, k: K, l: L)
    requires k in mass && !(mass[k] > 0.0 && l in TargetsOf(out, k))
    ensures Give(mass, out, k, l) == 0.0
  {
    if l !in TargetsOf(out, k) {
      assert multiset(TargetsOf(out, k))[l] == 0;
    }
  }

  /** Some record with mass shares an entity that was read with the record. */
  ghost predicate IsFed(w: Walk, mass: map<RecordId, real>, q: RecordId) {
    exists r: RecordId, e: EntityId :: r in mass && mass[r] > 0.0 && e in w.expanded && LinksThrough(w.graph, r, e, q)
  }

  lemma BackIsFed(w: Walk, mass: map<RecordId, real>, entityMass: map<EntityId, real>, q: RecordId)
    requires q in w.visited && forall e :: Get(entityMass, e) == Inflow(mass, w.graph.entities, e)
    ensures Inflow(entityMass, Reach(w), q) >= 0.0
    ensures Inflow(entityMass, Reach(w), q) > 0.0 <==> IsFed(w, mass, q)
  {
    InflowIsGiven(entityMass, Reach(w), q);
    if IsGiven(entityMass, Reach(w), q) {
      var e :| e in entityMass && entityMass[e] > 0.0 && q in TargetsOf(Reach(w), e);
      assert Get(entityMass, e) == Inflow(mass, w.graph.entities, e);
      InflowIsGiven(mass, w.graph.entities, e);
      var r :| r in mass && mass[r] > 0.0 && e in TargetsOf(w.graph.entities, r);
      assert LinksThrough(w.graph, r, e, q);
    }
    if IsFed(w, mass, q) {
      var r: RecordId, e: EntityId :| r in mass && mass[r] > 0.0 && e in w.expanded && LinksThrough(w.graph, r, e, q);
      assert e in TargetsOf(w.graph.entities, r);
      InflowIsGiven(mass, w.graph.entities, e);
      assert Get(entityMass, e) > 0.0;
      assert q in TargetsOf(Reach(w), e);
    }
  }

  /**
   A hop leaves every visited record at least its teleport, and more exactly
   when a record with mass shares an entity with it that was read.
   */
  lemma FlowsExactlyAlongLinks(
      w: Walk, personal: map<RecordId, real>, mass: map<RecordId, real>, after: map<RecordId, real>, q: RecordId)
    requires IsHop(w, personal, mass, after) && w.damping > 0.0
    ensures q in after <==> q in w.visited
    ensures q in w.visited ==> after[q] >= Product(1.0 - w.damping, Get(personal, q))
    ensures q in w.visited ==> (after[q] > Product(1.0 - w.damping, Get(personal, q)) <==> IsFed(w, mass, q))
  {
    var entityMass: map<EntityId, real>, back: map<RecordId, real> :| IsHopThrough(w, personal, mass, entityMass, back, after);
    if q in w.visited {
      BackIsFed(w, mass, entityMass, q);
      ProductIsPositive(w.damping, back[q]);
      ProductIsMonotone(w.damping, 0.0, back[q]);
      ProductWithZero(1.0 - w.damping);
    }
  }

  lemma ProductWithZero(a: real)
    ensures Product(a, 0.0) == 0.0
  {
  }
}
