/**
 The diffusion as it runs: loops over score tables, and the ranked leads it
 returns, proved equal to the walk of the Diffusion module.
 */
module Propagation {
  import opened Wrappers
  import opened Totals
  import opened Diffusion

  /** A record reached from the seeds, with the first entity and seed that explain it. */
  datatype Lead = Lead(record: RecordId, score: real, via: Option<(EntityId, RecordId)>)

  const THRESHOLD := 0.000000001

  // ---- one hop, as tables -------------------------------------------------

  /** Out to the entities, back to the records, and the teleport. */
  method Hop(w: Walk, personal: map<RecordId, real>, mass: map<RecordId, real>) returns (after: map<RecordId, real>)
    ensures IsHop(w, personal, mass, after)
  {
    var entityMass := Scatter(mass, w.graph.entities);
    var recordMass := Scatter(entityMass, Reach(w));
    var back := map r | r in w.visited :: Get(recordMass, r);
    after := Damped(w, personal, back);
    assert IsHopThrough(w, personal, mass, entityMass, back, after);
  }

  /** The scores of the seeds as a distribution; all zero when none is positive. */
  method Personalize(seeds: map<RecordId, real>) returns (personal: map<RecordId, real>)
    ensures personal == Personal(seeds)
  {
    var positives := Positives(seeds);
    var total := 0.0;
    var left := positives.Keys;
    while left != {}
      invariant left <= positives.Keys
      invariant total == Total(Part(positives, positives.Keys - left))
    {
      var r :| r in left;
      var more := Part(positives, positives.Keys - (left - {r}));
      TotalTakes(more, r);
      assert more - {r} == Part(positives, positives.Keys - left);
      total := total + positives[r];
      left := left - {r};
    }
    assert Part(positives, positives.Keys - left) == positives;
    personal := Scaled(1.0 / (if total == 0.0 then 1.0 else total), positives);
  }

  method Diffuse(w: Walk, seeds: map<RecordId, real>, hops: nat) returns (mass: map<RecordId, real>)
    ensures IsDiffused(w, Personal(seeds), hops, mass)
  {
    var personal := Personalize(seeds);
    mass := personal;
    ghost var masses := [personal];
    for k := 0 to hops
      invariant IsWalk(w, personal, masses) && EndsWith(masses, k, mass)
    {
      mass := Hop(w, personal, mass);
      masses := masses + [mass];
    }
  }

  // ---- leads --------------------------------------------------------------

  /** The first seed an entity's record list names. */
  method FirstSeed(rs: seq<RecordId>, seeds: set<RecordId>) returns (seed: Option<RecordId>)
    ensures seed.None? ==> forall r :: r in rs ==> r !in seeds
    ensures seed.Some? ==> IsFirstSeed(rs, seeds, seed.value)
  {
    for i := 0 to |rs|
      invariant forall j :: 0 <= j < i ==> rs[j] !in seeds
    {
      if rs[i] in seeds {
        return Some(rs[i]);
      }
    }
    return None;
  }

  function ListedBy(w: Walk, e: EntityId): seq<RecordId> {
    if e in w.expanded then RecordsOf(w.graph, e) else []
  }

  predicate IsFirstSeed(rs: seq<RecordId>, seeds: set<RecordId>, x: RecordId) {
    exists i :: 0 <= i < |rs| && rs[i] == x && x in seeds && forall j :: 0 <= j < i ==> rs[j] !in seeds
  }

  predicate ListsNoSeed(w: Walk, seeds: set<RecordId>, e: EntityId) {
    e in w.expanded && e in w.graph.records ==> forall x :: x in w.graph.records[e] ==> x !in seeds
  }

  predicate IsFirstLink(w: Walk, seeds: set<RecordId>, entities: seq<EntityId>, i: nat, via: (EntityId, RecordId)) {
    && i < |entities| && entities[i] == via.0 && IsFirstSeed(ListedBy(w, entities[i]), seeds, via.1)
    && forall j :: 0 <= j < i ==> ListsNoSeed(w, seeds, entities[j])
  }

  /** The first entity of the record that lists a seed, and the first seed it lists; none only if no entity does. */
  predicate Explains(w: Walk, seeds: set<RecordId>, r: RecordId, via: Option<(EntityId, RecordId)>) {
    var entities := EntitiesOf(w.graph, r);
    if via.Some? then exists i: nat :: i < |entities| && IsFirstLink(w, seeds, entities, i, via.value)
    else
      forall e :: e in entities ==> ListsNoSeed(w, seeds, e)
  }

  method Explain(w: Walk, seeds: set<RecordId>, r: RecordId) returns (via: Option<(EntityId, RecordId)>)
    ensures Explains(w, seeds, r, via)
  {
    var entities := EntitiesOf(w.graph, r);
    for i := 0 to |entities|
      invariant forall j :: 0 <= j < i ==> ListsNoSeed(w, seeds, entities[j])
    {
      var seed := FirstSeed(ListedBy(w, entities[i]), seeds);
      if seed.Some? {
        assert IsFirstLink(w, seeds, entities, i, (entities[i], seed.value));
        return Some((entities[i], seed.value));
      }
    }
    return None;
  }

  /** Best score first; equal scores by record. */
  predicate Before(a: Lead, b: Lead) {
    a.score > b.score || (a.score == b.score && a.record < b.record)
  }

  predicate Ranked(leads: seq<Lead>) {
    forall i, j :: 0 <= i < j < |leads| ==> Before(leads[i], leads[j])
  }

  method Insert(leads: seq<Lead>, lead: Lead) returns (more: seq<Lead>)
    requires Ranked(leads) && forall i :: 0 <= i < |leads| ==> leads[i].record != lead.record
    ensures Ranked(more)
    ensures forall x :: x in more <==> x in leads || x == lead
  {
    var i := 0;
    while i < |leads| && Before(leads[i], lead)
      invariant i <= |leads| && forall j :: 0 <= j < i ==> Before(leads[j], lead)
    {
      i := i + 1;
    }
    more := leads[..i] + [lead] + leads[i..];
    assert leads == leads[..i] + leads[i..];
    assert more[i] == lead;
  }

  /** What the walk makes of one record outside the seeds. */
  ghost predicate IsLead(w: Walk, seeds: set<RecordId>, mass: map<RecordId, real>, lead: Lead) {
    && lead.record in w.visited - seeds && lead.score == Get(mass, lead.record) && lead.score > THRESHOLD
    && Explains(w, seeds, lead.record, lead.via)
  }

  /** The leads are exactly the records outside the seeds with enough mass, best first. */
  ghost predicate AreLeads(w: Walk, seeds: set<RecordId>, mass: map<RecordId, real>, leads: seq<Lead>) {
    && Ranked(leads)
    && (forall x :: x in leads ==> IsLead(w, seeds, mass, x))
    && (forall r :: r in w.visited - seeds && Get(mass, r) > THRESHOLD ==> exists x :: x in leads && x.record == r)
  }

  /** Rank every record outside the seeds that carries enough mass. */
  method Collect(w: Walk, seeds: set<RecordId>, mass: map<RecordId, real>) returns (leads: seq<Lead>)
    ensures AreLeads(w, seeds, mass, leads)
  {
    leads := [];
    var left := w.visited;
    while left != {}
      invariant left <= w.visited
      invariant Ranked(leads) && forall x :: x in leads ==> IsLead(w, seeds, mass, x) && x.record !in left
      invariant forall r :: r in w.visited - seeds - left && Get(mass, r) > THRESHOLD ==> exists x :: x in leads && x.record == r
    {
      var r :| r in left;
      left := left - {r};
      if r in seeds || Get(mass, r) <= THRESHOLD {
        continue;
      }
      var via := Explain(w, seeds, r);
      var more := Insert(leads, Lead(r, Get(mass, r), via));
      forall x | x in w.visited - seeds - left && Get(mass, x) > THRESHOLD ensures exists y :: y in more && y.record == x {
        if x == r {
          assert Lead(r, Get(mass, r), via) in more;
        } else {
          var y :| y in leads && y.record == x;
          assert y in more;
        }
      }
      leads := more;
    }
  }

  /** Some neighbourhood and some masses as specified lead to this answer; both are unique. */
  ghost predicate IsPropagation(
    g: Graph, seeds: map<RecordId, real>, allowed: Option<set<RecordId>>, hops: nat, damping: real, leads: seq<Lead>)
  {
    exists w: Walk, mass: map<RecordId, real> ::
      && w.graph == g && w.damping == damping && IsReach(g, allowed, seeds.Keys, hops, w.visited, w.expanded)
      && IsDiffused(w, Personal(seeds), hops, mass) && AreLeads(w, seeds.Keys, mass, leads)
  }

  /** Walk, diffuse and rank. */
  method Propagate(g: Graph, seeds: map<RecordId, real>, allowed: Option<set<RecordId>>, hops: nat, damping: real)
    returns (leads: seq<Lead>)
    ensures IsPropagation(g, seeds, allowed, hops, damping, leads)
    ensures forall x :: x in leads ==> x.record !in seeds && (allowed.Some? ==> x.record in allowed.value) && x.score > 0.000000001
    ensures forall i, j :: 0 <= i < j < |leads| ==>
      leads[i].score > leads[j].score || (leads[i].score == leads[j].score && leads[i].record < leads[j].record)
  {
    var visited, expanded := Expand(g, allowed, seeds.Keys, hops);
    ReachIsAllowed(g, allowed, seeds.Keys, hops, visited, expanded);
    var w := Walk(g, visited, expanded, damping);
    var mass := Diffuse(w, seeds, hops);
    leads := Collect(w, seeds.Keys, mass);
    assert AreLeads(w, seeds.Keys, mass, leads);
  }

  // ---- the answer is determined -------------------------------------------

  predicate IsListed(leads: seq<Lead>, r: RecordId, score: real) {
    exists i :: 0 <= i < |leads| && leads[i].record == r && leads[i].score == score
  }

  /** Whatever neighbourhood and masses meet the description, the leads are their records outside the seeds above the threshold. */
  lemma LeadsCarryTheMass(
      g: Graph, seeds: map<RecordId, real>, allowed: Option<set<RecordId>>, hops: nat, damping: real, leads: seq<Lead>,
      w: Walk, mass: map<RecordId, real>)
    requires IsPropagation(g, seeds, allowed, hops, damping, leads)
    requires w.graph == g && w.damping == damping && IsReach(g, allowed, seeds.Keys, hops, w.visited, w.expanded)
    requires IsDiffused(w, Personal(seeds), hops, mass)
    ensures forall r: RecordId, score: real ::
      IsListed(leads, r, score) <==> r in w.visited && r !in seeds && r in mass && mass[r] == score && score > 0.000000001
    ensures AreLeads(w, seeds.Keys, mass, leads)
  {
    var v: Walk, other: map<RecordId, real> :|
      && v.graph == g && v.damping == damping && IsReach(g, allowed, seeds.Keys, hops, v.visited, v.expanded)
      && IsDiffused(v, Personal(seeds), hops, other) && AreLeads(v, seeds.Keys, other, leads);
    ReachIsUnique(g, allowed, seeds.Keys, hops, v.visited, v.expanded, w.visited, w.expanded);
    assert v == w;
    DiffusionIsUnique(w, Personal(seeds), hops, mass, other);
    forall r: RecordId, score: real
      ensures IsListed(leads, r, score)
        <==> r in w.visited && r !in seeds && r in mass && mass[r] == score && score > 0.000000001
    {
      LeadIsListed(w, seeds.Keys, mass, leads, r, score);
    }
  }

  lemma LeadIsListed(w: Walk, seeds: set<RecordId>, mass: map<RecordId, real>, leads: seq<Lead>, r: RecordId, score: real)
    requires AreLeads(w, seeds, mass, leads)
    ensures IsListed(leads, r, score)
       <==> r in w.visited && r !in seeds && r in mass && mass[r] == score && score > 0.000000001
  {
    if IsListed(leads, r, score) {
      var i :| 0 <= i < |leads| && leads[i].record == r && leads[i].score == score;
      assert IsLead(w, seeds, mass, leads[i]);
    }
    if r in w.visited && r !in seeds && r in mass && mass[r] == score && score > 0.000000001 {
      assert r in w.visited - seeds && Get(mass, r) > THRESHOLD;
      var x :| x in leads && x.record == r;
      assert IsLead(w, seeds, mass, x);
    }
  }

  lemma ExplanationIsUnique(
      w: Walk, seeds: set<RecordId>, r: RecordId, via: Option<(EntityId, RecordId)>, other: Option<(EntityId, RecordId)>)
    requires Explains(w, seeds, r, via) && Explains(w, seeds, r, other)
    ensures via == other
  {
    var entities := EntitiesOf(w.graph, r);
    if via.Some? && other.Some? {
      var i: nat :| IsFirstLink(w, seeds, entities, i, via.value);
      var j: nat :| IsFirstLink(w, seeds, entities, j, other.value);
      FirstLinkLists(w, seeds, entities, i, via.value);
      FirstLinkLists(w, seeds, entities, j, other.value);
      assert i == j;
      FirstSeedIsUnique(ListedBy(w, entities[i]), seeds, via.value.1, other.value.1);
    } else if via.Some? {
      var i: nat :| IsFirstLink(w, seeds, entities, i, via.value);
      FirstLinkLists(w, seeds, entities, i, via.value);
    } else if other.Some? {
      var j: nat :| IsFirstLink(w, seeds, entities, j, other.value);
      FirstLinkLists(w, seeds, entities, j, other.value);
    }
  }

  lemma FirstLinkLists(w: Walk, seeds: set<RecordId>, entities: seq<EntityId>, i: nat, via: (EntityId, RecordId))
    requires IsFirstLink(w, seeds, entities, i, via)
    ensures !ListsNoSeed(w, seeds, entities[i])
  {
    assert via.1 in ListedBy(w, entities[i]);
  }

  lemma FirstSeedIsUnique(rs: seq<RecordId>, seeds: set<RecordId>, x: RecordId, y: RecordId)
    requires IsFirstSeed(rs, seeds, x) && IsFirstSeed(rs, seeds, y)
    ensures x == y
  {
  }

  /** Two rankings of the same leads are the same list. */
  lemma {:induction false} RankingIsUnique(leads: seq<Lead>, others: seq<Lead>)
    requires Ranked(leads) && Ranked(others) && forall x :: x in leads <==> x in others
    ensures leads == others
    decreases |leads|
  {
    if leads == [] {
      assert forall i :: 0 <= i < |others| ==> others[i] in others;
    } else {
      assert leads[0] in others && others[0] in leads;
      assert leads[0] == others[0];
      forall x ensures x in leads[1..] <==> x in others[1..] {
        RestIsRanked(leads, x);
        RestIsRanked(others, x);
      }
      RankingIsUnique(leads[1..], others[1..]);
    }
  }

  lemma RestIsRanked(leads: seq<Lead>, x: Lead)
    requires Ranked(leads) && leads != []
    ensures Ranked(leads[1..])
    ensures x in leads[1..] <==> x in leads && x != leads[0]
  {
    if x in leads && x != leads[0] {
      var i :| 0 <= i < |leads| && leads[i] == x;
      assert leads[1..][i - 1] == x;
    }
  }

  /** The graph, the seeds, the permission and the two settings determine the answer, order and explanations included. */
  lemma AnswerIsUnique(
      g: Graph, seeds: map<RecordId, real>, allowed: Option<set<RecordId>>, hops: nat, damping: real,
      leads: seq<Lead>, others: seq<Lead>)
    requires IsPropagation(g, seeds, allowed, hops, damping, leads) && IsPropagation(g, seeds, allowed, hops, damping, others)
    ensures leads == others
  {
    var w: Walk, mass: map<RecordId, real> :|
      && w.graph == g && w.damping == damping && IsReach(g, allowed, seeds.Keys, hops, w.visited, w.expanded)
      && IsDiffused(w, Personal(seeds), hops, mass) && AreLeads(w, seeds.Keys, mass, leads);
    LeadsCarryTheMass(g, seeds, allowed, hops, damping, others, w, mass);
    SameLeads(w, seeds.Keys, mass, leads, others);
    SameLeads(w, seeds.Keys, mass, others, leads);
    RankingIsUnique(leads, others);
  }

  lemma SameLeads(w: Walk, seeds: set<RecordId>, mass: map<RecordId, real>, leads: seq<Lead>, others: seq<Lead>)
    requires AreLeads(w, seeds, mass, leads) && AreLeads(w, seeds, mass, others)
    ensures forall x :: x in leads ==> x in others
  {
    forall x | x in leads ensures x in others {
      assert IsLead(w, seeds, mass, x);
      var y :| y in others && y.record == x.record;
      assert IsLead(w, seeds, mass, y);
      ExplanationIsUnique(w, seeds, x.record, x.via, y.via);
    }
  }

  // ---- the damping a deployment configures --------------------------------

  /** The configured number is taken as it is; the bounds that are passed along play no part. */
  function BoundedFloat(value: Option<real>, default: real, low: real, high: real): real {
    if value.Some? then value.value else default
  }

  /** One seed that is linked to nothing. */
  function Alone(damping: real): Walk {
    Walk(Graph(map[], map[]), {1}, {}, damping)
  }

  lemma AloneIsPersonal()
    ensures Personal(map[1 := 1.0]) == map[1 := 1.0] && Total(map[1 := 1.0]) == 1.0
  {
    var seeds: map<RecordId, real> := map[1 := 1.0];
    assert Positives(seeds) == seeds;
    TotalTakes(seeds, 1);
    assert seeds - {1} == map[];
    assert Scaled(1.0, seeds) == seeds;
  }

  /** Nothing returns to it, so one hop leaves what the teleport gives. */
  lemma AloneKeepsTeleport(damping: real, after: map<RecordId, real>)
    requires after == map[1 := 1.0 - damping]
    ensures IsHop(Alone(damping), map[1 := 1.0], map[1 := 1.0], after)
  {
    var w := Alone(damping);
    var seeds: map<RecordId, real> := map[1 := 1.0];
    var nothing: map<EntityId, real> := map[];
    var back: map<RecordId, real> := map[1 := 0.0];
    forall e ensures Inflow(seeds, w.graph.entities, e) == 0.0 {
      UnlistedGetsNothing(seeds, w.graph.entities, e);
    }
    UnlistedGetsNothing(nothing, Reach(w), 1);
    ProductsWithUnit(damping);
    assert Damped(w, seeds, back) == after;
    assert IsHopThrough(w, seeds, seeds, nothing, back, after);
  }

  lemma ProductsWithUnit(a: real)
    ensures Product(1.0 - a, 1.0) == 1.0 - a && Product(a, 0.0) == 0.0
  {
  }

  predicate HasPositiveSeed(w: Walk, seeds: map<RecordId, real>, r: RecordId) {
    seeds.Keys <= w.visited && r in seeds && seeds[r] > 0.0
  }

  /** The masses of every diffusion with this damping are bounded. */
  ghost predicate KeepsBounded(damping: real) {
    forall w: Walk, seeds: map<RecordId, real>, r: RecordId, hops: nat, mass: map<RecordId, real> ::
      w.damping == damping && HasPositiveSeed(w, seeds, r) && IsDiffused(w, Personal(seeds), hops, mass) ==> IsBounded(w, mass)
  }

  /** Which dampings keep the masses of every diffusion bounded: exactly those between zero and one. */
  lemma DampingDecides(damping: real)
    ensures KeepsBounded(damping) <==> IsDamping(damping)
  {
    if IsDamping(damping) {
      forall w: Walk, seeds: map<RecordId, real>, r: RecordId, hops: nat, mass: map<RecordId, real> |
        w.damping == damping && HasPositiveSeed(w, seeds, r) && IsDiffused(w, Personal(seeds), hops, mass)
        ensures IsBounded(w, mass)
      {
        DiffusionIsBounded(w, seeds, r, hops, mass);
      }
    } else {
      AloneIsUnbounded(damping);
      assert HasPositiveSeed(Alone(damping), map[1 := 1.0], 1);
    }
  }

  /** Which configured values keep the masses bounded: with a number outside zero to one they are not. */
  lemma ConfiguredDampingDecides(value: Option<real>)
    ensures KeepsBounded(BoundedFloat(value, 0.6, 0.0, 0.95)) <==> (value.Some? ==> 0.0 <= value.value <= 1.0)
  {
    DampingDecides(BoundedFloat(value, 0.6, 0.0, 0.95));
  }

  lemma AloneIsUnbounded(damping: real)
    requires !IsDamping(damping)
    ensures IsDiffused(Alone(damping), Personal(map[1 := 1.0]), 1, map[1 := 1.0 - damping])
    ensures !IsBounded(Alone(damping), map[1 := 1.0 - damping])
  {
    var after: map<RecordId, real> := map[1 := 1.0 - damping];
    AloneIsPersonal();
    AloneKeepsTeleport(damping, after);
    TotalTakes(after, 1);
    assert after - {1} == map[];
    var masses := [map[1 := 1.0], after];
    assert IsWalk(Alone(damping), Personal(map[1 := 1.0]), masses) && EndsWith(masses, 1, after);
  }
}
