/**
 Bounded activation over the record-entity graph: a frontier walk that collects
 the neighbourhood of the seeds, and a damped diffusion of their scores over it.
 Arithmetic is exact.
 */
module Diffusion {
  import opened Wrappers
  import opened Totals

  type RecordId = nat
  type EntityId = nat

  /** The capped link lists; the same record may appear twice under one entity. */
  datatype Graph = Graph(entities: map<RecordId, seq<EntityId>>, records: map<EntityId, seq<RecordId>>)

  function EntitiesOf(g: Graph, r: RecordId): seq<EntityId> {
    TargetsOf(g.entities, r)
  }

  function RecordsOf(g: Graph, e: EntityId): seq<RecordId> {
    TargetsOf(g.records, e)
  }

  // ---- the neighbourhood --------------------------------------------------

  predicate MayVisit(allowed: Option<set<RecordId>>, r: RecordId) {
    allowed.Some? ==> r in allowed.value
  }

  /** The entities some record of the set is linked to. */
  function Touched(g: Graph, from: set<RecordId>): set<EntityId> {
    set r, e | r in from && e in EntitiesOf(g, r) :: e
  }

  /** The records some entity of the set lists and the caller may see. */
  function Listed(g: Graph, allowed: Option<set<RecordId>>, entities: set<EntityId>): set<RecordId> {
    set e, r | e in entities && r in RecordsOf(g, e) && MayVisit(allowed, r) :: r
  }

  function Neighbours(g: Graph, allowed: Option<set<RecordId>>, from: set<RecordId>): set<RecordId> {
    Listed(g, allowed, Touched(g, from))
  }

  /** The i-th ball is everything within i allowed steps of the seeds. */
  ghost predicate AreBalls(g: Graph, allowed: Option<set<RecordId>>, seeds: set<RecordId>, balls: seq<set<RecordId>>) {
    && |balls| > 0 && balls[0] == seeds
    && forall i :: 0 < i < |balls| ==> balls[i] == balls[i - 1] + Neighbours(g, allowed, balls[i - 1])
  }

  /**
   Everything within `hops` allowed steps is visited, and the entities whose
   record lists were read are those the last ball but one touches.
   */
  ghost predicate IsReach(
    g: Graph, allowed: Option<set<RecordId>>, seeds: set<RecordId>, hops: nat, visited: set<RecordId>, expanded: set<EntityId>)
  {
    exists balls: seq<set<RecordId>> :: AreBalls(g, allowed, seeds, balls) && ReachedBy(g, balls, hops, visited, expanded)
  }

  predicate ReachedBy(g: Graph, balls: seq<set<RecordId>>, hops: nat, visited: set<RecordId>, expanded: set<EntityId>) {
    |balls| == hops + 1 && visited == balls[hops] && expanded == if hops == 0 then {} else Touched(g, balls[hops - 1])
  }

  lemma {:induction false} SameBalls(
    g: Graph, allowed: Option<set<RecordId>>, seeds: set<RecordId>, balls: seq<set<RecordId>>, others: seq<set<RecordId>>, i: nat)
    requires AreBalls(g, allowed, seeds, balls) && AreBalls(g, allowed, seeds, others) && i < |balls| && i < |others|
    ensures balls[i] == others[i]
    decreases i
  {
    if i > 0 {
      SameBalls(g, allowed, seeds, balls, others, i - 1);
    }
  }

  /** There is one such neighbourhood. */
  lemma ReachIsUnique(
    g: Graph, allowed: Option<set<RecordId>>, seeds: set<RecordId>, hops: nat,
    visited: set<RecordId>, expanded: set<EntityId>, visited': set<RecordId>, expanded': set<EntityId>)
    requires IsReach(g, allowed, seeds, hops, visited, expanded) && IsReach(g, allowed, seeds, hops, visited', expanded')
    ensures visited == visited' && expanded == expanded'
  {
    var balls: seq<set<RecordId>> :| AreBalls(g, allowed, seeds, balls) && ReachedBy(g, balls, hops, visited, expanded);
    var others: seq<set<RecordId>> :| AreBalls(g, allowed, seeds, others) && ReachedBy(g, others, hops, visited', expanded');
    SameBalls(g, allowed, seeds, balls, others, hops);
    if hops > 0 {
      SameBalls(g, allowed, seeds, balls, others, hops - 1);
    }
  }

  lemma ReachIsAllowed(
      g: Graph, allowed: Option<set<RecordId>>, seeds: set<RecordId>, hops: nat, visited: set<RecordId>, expanded: set<EntityId>)
    requires IsReach(g, allowed, seeds, hops, visited, expanded)
    ensures seeds <= visited && forall r :: r in visited && r !in seeds ==> MayVisit(allowed, r)
  {
    var balls: seq<set<RecordId>> :| AreBalls(g, allowed, seeds, balls) && ReachedBy(g, balls, hops, visited, expanded);
    BallsAreAllowed(g, allowed, seeds, balls, hops);
  }

  lemma {:induction false} BallsAreAllowed(
      g: Graph, allowed: Option<set<RecordId>>, seeds: set<RecordId>, balls: seq<set<RecordId>>, i: nat)
    requires AreBalls(g, allowed, seeds, balls) && i < |balls|
    ensures seeds <= balls[i] && forall r :: r in balls[i] && r !in seeds ==> MayVisit(allowed, r)
    decreases i
  {
    if i > 0 {
      BallsAreAllowed(g, allowed, seeds, balls, i - 1);
    }
  }

  lemma TouchedByUnion(g: Graph, a: set<RecordId>, b: set<RecordId>)
    ensures Touched(g, a + b) == Touched(g, a) + Touched(g, b)
  {
  }

  lemma ListedByUnion(g: Graph, allowed: Option<set<RecordId>>, a: set<EntityId>, b: set<EntityId>)
    ensures Listed(g, allowed, a + b) == Listed(g, allowed, a) + Listed(g, allowed, b)
  {
  }

  /** Expanding the frontier alone finds every neighbour of what is visited. */
  lemma FrontierSuffices(
      g: Graph, allowed: Option<set<RecordId>>, inner: set<RecordId>, frontier: set<RecordId>, visited: set<RecordId>)
    requires visited == inner + frontier && Neighbours(g, allowed, inner) <= visited
    ensures visited + (Neighbours(g, allowed, frontier) - visited) == visited + Neighbours(g, allowed, visited)
    ensures Touched(g, visited) == Touched(g, inner) + Touched(g, frontier)
    ensures Neighbours(g, allowed, visited) <= visited + (Neighbours(g, allowed, frontier) - visited)
  {
    TouchedByUnion(g, inner, frontier);
    ListedByUnion(g, allowed, Touched(g, inner), Touched(g, frontier));
  }

  /**
   The frontier walk.  Only records found in the last round are expanded, and
   yet everything within the hop bound is visited.
   */
  method Expand(g: Graph, allowed: Option<set<RecordId>>, seeds: set<RecordId>, hops: nat)
    returns (visited: set<RecordId>, expanded: set<EntityId>)
    ensures IsReach(g, allowed, seeds, hops, visited, expanded)
  {
    visited, expanded := seeds, {};
    ghost var balls := [seeds];
    var frontier := seeds;
    ghost var inner: set<RecordId> := {};
    var k := 0;
    while k < hops && frontier != {}
      invariant k <= hops && AreBalls(g, allowed, seeds, balls) && |balls| == k + 1 && visited == balls[k]
      invariant visited == inner + frontier && Neighbours(g, allowed, inner) <= visited
      invariant inner == (if k == 0 then {} else balls[k - 1]) && expanded == Touched(g, inner)
    {
      FrontierSuffices(g, allowed, inner, frontier, visited);
      NextBall(g, allowed, seeds, balls);
      inner := visited;
      var entities := Touched(g, frontier);
      frontier := Listed(g, allowed, entities) - visited;
      visited, expanded := visited + frontier, expanded + entities;
      balls := balls + [visited];
      k := k + 1;
    }
    if k < hops {
      assert inner == visited;
      balls := Repeated(g, allowed, seeds, balls, hops);
    }
    assert ReachedBy(g, balls, hops, visited, expanded);
  }

  lemma NextBall(g: Graph, allowed: Option<set<RecordId>>, seeds: set<RecordId>, balls: seq<set<RecordId>>)
    requires AreBalls(g, allowed, seeds, balls)
    ensures
      var last := balls[|balls| - 1];
      AreBalls(g, allowed, seeds, balls + [last + Neighbours(g, allowed, last)])
  {
  }

  /** Once a ball has no neighbours left, every later one is the same. */
  lemma {:induction false} Repeated(
      g: Graph, allowed: Option<set<RecordId>>, seeds: set<RecordId>, balls: seq<set<RecordId>>, hops: nat)
    returns (more: seq<set<RecordId>>)
    requires AreBalls(g, allowed, seeds, balls) && |balls| <= hops + 1
    requires Neighbours(g, allowed, balls[|balls| - 1]) <= balls[|balls| - 1]
    ensures AreBalls(g, allowed, seeds, more) && |more| == hops + 1 && more[..|balls|] == balls
    ensures forall i :: |balls| - 1 <= i < |more| ==> more[i] == balls[|balls| - 1]
    decreases hops + 1 - |balls|
  {
    if |balls| == hops + 1 {
      more := balls;
    } else {
      more := Repeated(g, allowed, seeds, balls + [balls[|balls| - 1]], hops);
    }
  }

  // ---- the damped walk ----------------------------------------------------

  /** What the diffusion runs on: the visited records and the record lists that were read. */
  datatype Walk = Walk(graph: Graph, visited: set<RecordId>, expanded: set<EntityId>, damping: real)

  function Keep(rs: seq<RecordId>, visited: set<RecordId>): (kept: seq<RecordId>)
    ensures forall r :: multiset(kept)[r] == if r in visited then multiset(rs)[r] else 0
    ensures forall r :: r in kept <==> r in rs && r in visited
  {
    if rs == [] then []
    else
      assert rs == rs[..|rs| - 1] + [rs[|rs| - 1]];
      var before := Keep(rs[..|rs| - 1], visited);
      if rs[|rs| - 1] in visited then before + [rs[|rs| - 1]] else before
  }

  /** The visited records each read entity leads to. */
  function Reach(w: Walk): map<EntityId, seq<RecordId>> {
    map e | e in w.expanded :: Keep(RecordsOf(w.graph, e), w.visited)
  }

  function Positive(x: real): real {
    if x > 0.0 then x else 0.0
  }

  function Positives(seeds: map<RecordId, real>): map<RecordId, real> {
    map r | r in seeds :: Positive(seeds[r])
  }

  /** The seeds' share of the teleport; without a positive seed every share is zero. */
  ghost function Personal(seeds: map<RecordId, real>): map<RecordId, real> {
    var total := Total(Positives(seeds));
    Scaled(1.0 / (if total == 0.0 then 1.0 else total), Positives(seeds))
  }

  /** What a hop keeps of the returned amounts, plus the teleport. */
  function Damped(w: Walk, personal: map<RecordId, real>, back: map<RecordId, real>): map<RecordId, real> {
    Summed(w.visited, Scaled(1.0 - w.damping, personal), Scaled(w.damping, back))
  }

  /** One hop through given tables: out to the entities, back to the visited records, damped towards the seeds. */
  ghost predicate IsHopThrough(
    w: Walk, personal: map<RecordId, real>, mass: map<RecordId, real>,
    entityMass: map<EntityId, real>, back: map<RecordId, real>, after: map<RecordId, real>)
  {
    && (forall e :: Get(entityMass, e) == Inflow(mass, w.graph.entities, e))
    && back.Keys == w.visited && (forall r :: r in w.visited ==> back[r] == Inflow(entityMass, Reach(w), r))
    && after == Damped(w, personal, back)
  }

  ghost predicate IsHop(w: Walk, personal: map<RecordId, real>, mass: map<RecordId, real>, after: map<RecordId, real>) {
    exists entityMass: map<EntityId, real>, back: map<RecordId, real> :: IsHopThrough(w, personal, mass, entityMass, back, after)
  }

  /** The masses before the first hop and after each one. */
  ghost predicate IsWalk(w: Walk, personal: map<RecordId, real>, masses: seq<map<RecordId, real>>) {
    && |masses| > 0 && masses[0] == personal
    && forall i :: 0 < i < |masses| ==> IsHop(w, personal, masses[i - 1], masses[i])
  }

  predicate EndsWith(masses: seq<map<RecordId, real>>, hops: nat, mass: map<RecordId, real>) {
    |masses| == hops + 1 && masses[hops] == mass
  }

  /** The masses after `hops` hops. */
  ghost predicate IsDiffused(w: Walk, personal: map<RecordId, real>, hops: nat, mass: map<RecordId, real>) {
    exists masses: seq<map<RecordId, real>> :: IsWalk(w, personal, masses) && EndsWith(masses, hops, mass)
  }

  // ---- masses stay bounded ------------------------------------------------

  lemma GiftsAreNonNegative<K(!new), L(!new)>(mass: map<K, real>, out: map<K, seq<L>>, from: set<K>, universe: set<L>)
    requires from <= mass.Keys
    ensures NonNegative(Received(mass, out, from, universe))
  {
    forall l | l in universe ensures GiftTotal(mass, out, from, l) >= 0.0 {
      forall k | k in from ensures Give(mass, out, k, l) >= 0.0 {
        GiveIsNonNegative(mass, out, k, l);
      }
      TotalIsNonNegative(Gifts(mass, out, from, l));
    }
  }

  lemma GiveIsNonNegative<K(!new), L(!new)>(mass: map<K, real>, out: map<K, seq<L>>, k: K, l: L)
    ensures Give(mass, out, k, l) >= 0.0
  {
    var targets := TargetsOf(out, k);
    if Get(mass, k) > 0.0 && targets != [] {
      TimesIsNonNegative(multiset(targets)[l], Share(mass[k], |targets|));
    }
  }

  /** Whatever is received was passed on, and no more is passed on than there is. */
  lemma ReceivedIsBounded<K(!new), L(!new)>(mass: map<K, real>, out: map<K, seq<L>>, universe: set<L>)
    requires NonNegative(mass)
    requires forall k, l :: k in mass && l in TargetsOf(out, k) ==> l in universe
    ensures NonNegative(Received(mass, out, mass.Keys, universe))
    ensures 0.0 <= Total(Received(mass, out, mass.Keys, universe)) <= Total(mass)
  {
    GiftsAreNonNegative(mass, out, mass.Keys, universe);
    TotalIsNonNegative(Received(mass, out, mass.Keys, universe));
    ReceivedIsPassed(mass, out, mass.Keys, universe);
    TotalIsMonotone(Passed(mass, out, mass.Keys), mass);
  }

  /** A received table amounts to no more than what there was to give. */
  lemma TableIsBounded<K(!new), L(!new)>(mass: map<K, real>, out: map<K, seq<L>>, universe: set<L>, table: map<L, real>)
    requires NonNegative(mass)
    requires forall k, l :: k in mass && l in TargetsOf(out, k) ==> l in universe
    requires forall l :: Get(table, l) == (if l in universe then Inflow(mass, out, l) else 0.0)
    ensures NonNegative(table) && 0.0 <= Total(table) <= Total(mass)
  {
    var received := Received(mass, out, mass.Keys, universe);
    ReceivedIsBounded(mass, out, universe);
    forall l ensures Get(table, l) == Get(received, l) {}
    SameAmountsSameTotal(table, received);
    forall l | l in table ensures table[l] >= 0.0 {
      assert Get(table, l) == Get(received, l);
    }
  }

  /** Nothing flows to what no giver lists. */
  lemma UnlistedGetsNothing<K(!new), L(!new)>(m: map<K, real>, out: map<K, seq<L>>, l: L)
    requires forall k :: k in m ==> l !in TargetsOf(out, k)
    ensures Inflow(m, out, l) == 0.0
  {
    forall k | k in m ensures Give(m, out, k, l) == 0.0 {
      assert multiset(TargetsOf(out, k))[l] == 0;
    }
    ZeroesAddUp(Gifts(m, out, m.Keys, l));
  }

  lemma EntityTableIsBounded(w: Walk, mass: map<RecordId, real>, entityMass: map<EntityId, real>)
    requires NonNegative(mass) && forall e :: Get(entityMass, e) == Inflow(mass, w.graph.entities, e)
    ensures NonNegative(entityMass) && 0.0 <= Total(entityMass) <= Total(mass)
  {
    var universe := Touched(w.graph, mass.Keys);
    forall r, e | r in mass && e in TargetsOf(w.graph.entities, r) ensures e in universe {
      assert e in EntitiesOf(w.graph, r);
    }
    forall e | e !in universe ensures Get(entityMass, e) == 0.0 {
      forall r | r in mass ensures e !in TargetsOf(w.graph.entities, r) {
        assert e in TargetsOf(w.graph.entities, r) ==> e in universe;
      }
      UnlistedGetsNothing(mass, w.graph.entities, e);
    }
    TableIsBounded(mass, w.graph.entities, universe, entityMass);
  }

  lemma BackIsBounded(w: Walk, entityMass: map<EntityId, real>, back: map<RecordId, real>)
    requires NonNegative(entityMass) && back.Keys == w.visited
    requires forall r :: r in w.visited ==> back[r] == Inflow(entityMass, Reach(w), r)
    ensures NonNegative(back) && 0.0 <= Total(back) <= Total(entityMass)
  {
    TableIsBounded(entityMass, Reach(w), w.visited, back);
  }

  lemma ProductIsMonotone(a: real, x: real, y: real)
    requires 0.0 <= a && x <= y
    ensures Product(a, x) <= Product(a, y)
  {
  }

  predicate IsDamping(a: real) {
    0.0 <= a <= 1.0
  }

  lemma ScaledIsNonNegative<K(!new)>(a: real, m: map<K, real>)
    requires 0.0 <= a && NonNegative(m)
    ensures NonNegative(Scaled(a, m))
  {
    forall k | k in m ensures Product(a, m[k]) >= 0.0 {
      ProductIsMonotone(a, 0.0, m[k]);
    }
  }

  lemma InverseMakesOne(x: real)
    requires x > 0.0
    ensures 1.0 / x > 0.0 && Product(1.0 / x, x) == 1.0
  {
  }

  lemma ScaledToOne(m: map<RecordId, real>, total: real)
    requires NonNegative(m) && total == Total(m) && total > 0.0
    ensures NonNegative(Scaled(1.0 / total, m)) && Total(Scaled(1.0 / total, m)) == 1.0
  {
    InverseMakesOne(total);
    TotalScales(1.0 / total, m);
    ScaledIsNonNegative(1.0 / total, m);
  }

  lemma PositiveSeedCounts(seeds: map<RecordId, real>, r: RecordId)
    requires r in seeds && seeds[r] > 0.0
    ensures NonNegative(Positives(seeds)) && Total(Positives(seeds)) > 0.0
  {
    var positives := Positives(seeds);
    TotalTakes(positives, r);
    TotalIsNonNegative(positives - {r});
  }

  /** A distribution of the whole mass over visited records. */
  ghost predicate IsTeleport(w: Walk, personal: map<RecordId, real>) {
    personal.Keys <= w.visited && NonNegative(personal) && Total(personal) == 1.0
  }

  lemma PersonalIsTeleport(w: Walk, seeds: map<RecordId, real>, r: RecordId)
    requires seeds.Keys <= w.visited && r in seeds && seeds[r] > 0.0
    ensures IsTeleport(w, Personal(seeds)) && Personal(seeds).Keys == seeds.Keys
  {
    PositiveSeedCounts(seeds, r);
    ScaledToOne(Positives(seeds), Total(Positives(seeds)));
  }

  ghost predicate IsBounded(w: Walk, mass: map<RecordId, real>) {
    NonNegative(mass) && 1.0 - w.damping <= Total(mass) <= 1.0
  }

  lemma ConvexIsBounded(a: real, x: real)
    requires IsDamping(a) && 0.0 <= x <= 1.0
    ensures 1.0 - a <= Product(1.0 - a, 1.0) + Product(a, x) <= 1.0
  {
    ProductIsMonotone(a, 0.0, x);
    ProductIsMonotone(a, x, 1.0);
  }

  lemma DampedTotal(keys: set<RecordId>, a: real, personal: map<RecordId, real>, back: map<RecordId, real>)
    requires personal.Keys <= keys && back.Keys <= keys
    ensures Total(Summed(keys, Scaled(1.0 - a, personal), Scaled(a, back))) == Product(1.0 - a, Total(personal)) + Product(a, Total(back))
  {
    TotalOfSum(keys, Scaled(1.0 - a, personal), Scaled(a, back));
    TotalScales(1.0 - a, personal);
    TotalScales(a, back);
  }

  lemma DampedIsBounded(w: Walk, personal: map<RecordId, real>, back: map<RecordId, real>)
    requires IsDamping(w.damping) && IsTeleport(w, personal)
    requires back.Keys == w.visited && NonNegative(back) && 0.0 <= Total(back) <= 1.0
    ensures IsBounded(w, Damped(w, personal, back))
  {
    ScaledIsNonNegative(1.0 - w.damping, personal);
    ScaledIsNonNegative(w.damping, back);
    DampedTotal(w.visited, w.damping, personal, back);
    ConvexIsBounded(w.damping, Total(back));
  }

  lemma TeleportIsBounded(w: Walk, personal: map<RecordId, real>)
    requires IsDamping(w.damping) && IsTeleport(w, personal)
    ensures IsBounded(w, personal)
  {
  }

  function Outside(mass: map<RecordId, real>, seeds: set<RecordId>): map<RecordId, real> {
    Part(mass, mass.Keys - seeds)
  }

  lemma ReturnedIsBounded(w: Walk, back: map<RecordId, real>, seeds: set<RecordId>)
    requires IsDamping(w.damping) && NonNegative(back) && Total(back) <= 1.0
    ensures Total(Scaled(w.damping, Outside(back, seeds))) <= w.damping
  {
    TotalScales(w.damping, Outside(back, seeds));
    TotalOfPart(back, back.Keys - seeds);
    ProductIsMonotone(w.damping, Total(Outside(back, seeds)), 1.0);
  }

  /** Outside the seeds only returned mass counts. */
  lemma OutsideIsReturned(w: Walk, personal: map<RecordId, real>, back: map<RecordId, real>)
    requires back.Keys == w.visited
    ensures Outside(Damped(w, personal, back), personal.Keys) == Scaled(w.damping, Outside(back, personal.Keys))
  {
  }

  /** Bounded, and contained: what lies outside the seeds stays below the damping. */
  ghost predicate IsSound(w: Walk, personal: map<RecordId, real>, mass: map<RecordId, real>) {
    IsBounded(w, mass) && Total(Outside(mass, personal.Keys)) <= w.damping
  }

  lemma TeleportIsSound(w: Walk, personal: map<RecordId, real>)
    requires IsDamping(w.damping) && IsTeleport(w, personal)
    ensures IsSound(w, personal, personal)
  {
    TeleportIsBounded(w, personal);
    assert Outside(personal, personal.Keys) == map[];
  }

  lemma DampedIsSound(w: Walk, personal: map<RecordId, real>, back: map<RecordId, real>, after: map<RecordId, real>)
    requires IsDamping(w.damping) && IsTeleport(w, personal) && after == Damped(w, personal, back)
    requires back.Keys == w.visited && NonNegative(back) && 0.0 <= Total(back) <= 1.0
    ensures IsSound(w, personal, after)
  {
    DampedIsBounded(w, personal, back);
    OutsideIsReturned(w, personal, back);
    ReturnedIsBounded(w, back, personal.Keys);
  }

  lemma HopIsSound(w: Walk, personal: map<RecordId, real>, mass: map<RecordId, real>, after: map<RecordId, real>)
    requires IsDamping(w.damping) && IsTeleport(w, personal) && IsSound(w, personal, mass)
    requires IsHop(w, personal, mass, after)
    ensures IsSound(w, personal, after)
  {
    var entityMass: map<EntityId, real>, back: map<RecordId, real> :| IsHopThrough(w, personal, mass, entityMass, back, after);
    EntityTableIsBounded(w, mass, entityMass);
    BackIsBounded(w, entityMass, back);
    DampedIsSound(w, personal, back, after);
  }

  lemma {:induction false} WalkIsSound(w: Walk, personal: map<RecordId, real>, masses: seq<map<RecordId, real>>, i: nat)
    requires IsDamping(w.damping) && IsTeleport(w, personal) && IsWalk(w, personal, masses) && i < |masses|
    ensures IsSound(w, personal, masses[i])
    decreases i
  {
    if i == 0 {
      TeleportIsSound(w, personal);
    } else {
      WalkIsSound(w, personal, masses, i - 1);
      HopIsSound(w, personal, masses[i - 1], masses[i]);
    }
  }

  /**
   After any number of hops no mass is negative, the total lies between what
   the damping always returns to the seeds and one, and everything that reached
   other records than the seeds amounts to no more than the damping.
   */
  lemma DiffusionIsBounded(w: Walk, seeds: map<RecordId, real>, r: RecordId, hops: nat, mass: map<RecordId, real>)
    requires IsDamping(w.damping) && seeds.Keys <= w.visited && r in seeds && seeds[r] > 0.0
    requires IsDiffused(w, Personal(seeds), hops, mass)
    ensures NonNegative(mass) && 1.0 - w.damping <= Total(mass) <= 1.0
    ensures Total(Outside(mass, seeds.Keys)) <= w.damping
  {
    PersonalIsTeleport(w, seeds, r);
    var masses: seq<map<RecordId, real>> :| IsWalk(w, Personal(seeds), masses) && EndsWith(masses, hops, mass);
    WalkIsSound(w, Personal(seeds), masses, hops);
  }

  // ---- a walk is determined -----------------------------------------------

  /** Tables that agree on amounts scatter alike. */
  lemma SameGifts<K(!new), L(!new)>(m: map<K, real>, n: map<K, real>, out: map<K, seq<L>>, l: L)
    requires forall k :: Get(m, k) == Get(n, k)
    ensures Inflow(m, out, l) == Inflow(n, out, l)
  {
    var f, h := Gifts(m, out, m.Keys, l), Gifts(n, out, n.Keys, l);
    forall k ensures Get(f, k) == Get(h, k) {
      assert Get(m, k) == Get(n, k);
    }
    SameAmountsSameTotal(f, h);
  }

  /** There is one result for each hop. */
  lemma HopIsUnique(
      w: Walk, personal: map<RecordId, real>, mass: map<RecordId, real>, a: map<RecordId, real>, b: map<RecordId, real>)
    requires IsHop(w, personal, mass, a) && IsHop(w, personal, mass, b)
    ensures a == b
  {
    var entitiesA: map<EntityId, real>, backA: map<RecordId, real> :| IsHopThrough(w, personal, mass, entitiesA, backA, a);
    var entitiesB: map<EntityId, real>, backB: map<RecordId, real> :| IsHopThrough(w, personal, mass, entitiesB, backB, b);
    forall r | r in w.visited ensures backA[r] == backB[r] {
      SameGifts(entitiesA, entitiesB, Reach(w), r);
    }
    assert backA == backB;
  }

  lemma {:induction false} SameMasses(
      w: Walk, personal: map<RecordId, real>, masses: seq<map<RecordId, real>>, others: seq<map<RecordId, real>>, i: nat)
    requires IsWalk(w, personal, masses) && IsWalk(w, personal, others) && i < |masses| && i < |others|
    ensures masses[i] == others[i]
    decreases i
  {
    if i > 0 {
      SameMasses(w, personal, masses, others, i - 1);
      HopIsUnique(w, personal, masses[i - 1], masses[i], others[i]);
    }
  }

  /** The graph, the seeds and the damping determine every mass. */
  lemma DiffusionIsUnique(w: Walk, personal: map<RecordId, real>, hops: nat, mass: map<RecordId, real>, mass': map<RecordId, real>)
    requires IsDiffused(w, personal, hops, mass) && IsDiffused(w, personal, hops, mass')
    ensures mass == mass'
  {
    var masses: seq<map<RecordId, real>> :| IsWalk(w, personal, masses) && EndsWith(masses, hops, mass);
    var others: seq<map<RecordId, real>> :| IsWalk(w, personal, others) && EndsWith(others, hops, mass');
    SameMasses(w, personal, masses, others, hops);
  }
}
