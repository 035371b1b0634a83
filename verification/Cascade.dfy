/**
 The retirement cascade: hiding or forgetting evidence invalidates everything
 that was concluded from it, in the same transaction.
 */
module Cascade {
  import opened Wrappers
  import opened Dependencies

  type RecordId = nat
  type ClaimId = nat
  type LinkId = nat
  type EntryId = nat
  type BatchId = nat
  type ObjectId = nat

  datatype ClaimStatus = Current | Superseded | Retired | Retracted
  /**
   `topic` is the subject and predicate the claim is about, `text` says whether
   its wording is still stored, and `supersedes` names the claim it corrects.
   */
  datatype Claim = Claim(record: RecordId, topic: nat, status: ClaimStatus, text: bool, supersedes: Option<ClaimId>)

  /** An account belongs to a person, on the evidence of one record. */
  datatype LinkStatus = Candidate | Confirmed | Revoked
  datatype Link = Link(record: RecordId, status: LinkStatus)

  /** A curated entry; `current` until some version retires it. */
  datatype Entry = Entry(evidence: set<RecordId>, current: bool)

  datatype ObjectState = Recorded | Pending | Active | Replaced | Invalidated | Withdrawn

  type Actor = nat

  /**
   What an artifact is about.  `content` stands for the digest of a lesson's
   payload; a suite evaluation also names the active lesson it was run against.
   */
  datatype Paper =
    | Note
    | Outcome
    | Lesson(actor: Actor, family: nat, revision: nat, content: nat)
    | Evaluation(actor: Actor, lesson: ObjectId, content: nat, passed: bool, baseline: Option<Option<ObjectId>>)

  /** The audited promotion of a lesson. */
  datatype Promotion = Promotion(evaluation: ObjectId, actor: Actor, previous: Option<ObjectId>)

  datatype Memory = Memory(
    records: set<RecordId>, deleted: set<RecordId>, hidden: set<RecordId>, deps: set<Edge<RecordId>>,
    claims: map<ClaimId, Claim>,
    links: map<LinkId, Link>,
    entries: map<EntryId, Entry>,
    refs: map<BatchId, set<RecordId>>, results: map<BatchId, set<RecordId>>,
    objects: map<ObjectId, ObjectState>, evidence: set<(ObjectId, RecordId)>, parents: set<Edge<ObjectId>>,
    papers: map<ObjectId, Paper>, promotions: map<ObjectId, Promotion>)

  predicate Live(m: Memory, r: RecordId) {
    r in m.records && r !in m.deleted && r !in m.hidden
  }

  predicate IsDead(state: ObjectState) {
    state == Invalidated || state == Withdrawn
  }

  // ---- what retiring a set of records does to each table ------------------

  function RetiredClaims(claims: map<ClaimId, Claim>, gone: set<RecordId>): map<ClaimId, Claim> {
    map c | c in claims :: if claims[c].record in gone && claims[c].status == Current then claims[c].(status := Retired) else claims[c]
  }

  /** Forgetting erases the wording and retracts whatever the status was. */
  function RetractedClaims(claims: map<ClaimId, Claim>, gone: set<RecordId>): map<ClaimId, Claim> {
    map c | c in claims :: if claims[c].record in gone then claims[c].(status := Retracted, text := false) else claims[c]
  }

  function RevokedLinks(links: map<LinkId, Link>, gone: set<RecordId>): map<LinkId, Link> {
    map l | l in links :: if links[l].record in gone then links[l].(status := Revoked) else links[l]
  }

  function RetiredEntries(entries: map<EntryId, Entry>, gone: set<RecordId>): map<EntryId, Entry> {
    map e | e in entries :: if entries[e].evidence !! gone then entries[e] else entries[e].(current := false)
  }

  /** Analyses of a batch go when any record the batch refers to goes, cited or not. */
  function PurgedResults(
      results: map<BatchId, set<RecordId>>, refs: map<BatchId, set<RecordId>>, gone: set<RecordId>): map<BatchId, set<RecordId>> {
    map b | b in results && !(b in refs && refs[b] * gone != {}) :: results[b]
  }

  function RestingOn(evidence: set<(ObjectId, RecordId)>, gone: set<RecordId>): set<ObjectId> {
    set e | e in evidence && e.1 in gone :: e.0
  }

  function Affected(m: Memory, gone: set<RecordId>): set<ObjectId> {
    Closure(m.parents, RestingOn(m.evidence, gone))
  }

  function Marked(objects: map<ObjectId, ObjectState>, affected: set<ObjectId>, state: ObjectState): map<ObjectId, ObjectState> {
    map o | o in objects :: if o in affected then state else objects[o]
  }

  /** Hiding `gone`: the cascade of a retirement. */
  function Hid(m: Memory, gone: set<RecordId>): Memory {
    m.(hidden := m.hidden + gone,
       claims := RetiredClaims(m.claims, gone),
       links := RevokedLinks(m.links, gone),
       entries := RetiredEntries(m.entries, gone),
       results := PurgedResults(m.results, m.refs, gone),
       objects := Marked(m.objects, Affected(m, gone), Invalidated))
  }

  /** Forgetting `gone`: the same cascade, and the claims lose their wording. */
  function Forgot(m: Memory, gone: set<RecordId>): Memory {
    m.(deleted := m.deleted + gone,
       claims := RetractedClaims(m.claims, gone),
       links := RevokedLinks(m.links, gone),
       entries := RetiredEntries(m.entries, gone),
       results := PurgedResults(m.results, m.refs, gone),
       objects := Marked(m.objects, Affected(m, gone), Invalidated))
  }

  /**
   What goes when `gone` goes, table by table, and that nothing else does: a
   claim that was current is retired and keeps its wording, or, when forgotten,
   any claim is retracted and loses it.
   */
  ghost predicate TakesWith(m: Memory, u: Memory, gone: set<RecordId>, forgotten: bool) {
    && u.records == m.records && u.deps == m.deps && u.refs == m.refs && u.papers == m.papers && u.promotions == m.promotions
    && u.evidence == m.evidence && u.parents == m.parents
    && u.hidden == m.hidden + (if forgotten then {} else gone) && u.deleted == m.deleted + (if forgotten then gone else {})
    && u.claims.Keys == m.claims.Keys && (forall c :: c in m.claims ==> ClaimGoes(m.claims[c], u.claims[c], gone, forgotten))
    && u.links.Keys == m.links.Keys
    && (forall l :: l in m.links ==>
          u.links[l] == if m.links[l].record in gone then Link(m.links[l].record, Revoked) else m.links[l])
    && u.entries.Keys == m.entries.Keys
    && (forall e :: e in m.entries ==>
          && u.entries[e].evidence == m.entries[e].evidence
          && (u.entries[e].current <==> m.entries[e].current && forall r :: r in gone ==> r !in m.entries[e].evidence))
    && (forall b :: b in u.results <==> b in m.results && (b in m.refs ==> forall r :: r in gone ==> r !in m.refs[b]))
    && (forall b :: b in u.results ==> u.results[b] == m.results[b])
    && u.objects.Keys == m.objects.Keys
    && (forall o :: o in m.objects ==>
          u.objects[o] == if o in Closure(m.parents, set x | x in m.evidence && x.1 in gone :: x.0) then Invalidated else m.objects[o])
  }

  predicate ClaimGoes(v: Claim, w: Claim, gone: set<RecordId>, forgotten: bool) {
    if v.record !in gone then w == v
    else if forgotten then w == Claim(v.record, v.topic, Retracted, false, v.supersedes)
    else w == Claim(v.record, v.topic, if v.status == Current then Retired else v.status, v.text, v.supersedes)
  }

  lemma PurgingIsPrecise(results: map<BatchId, set<RecordId>>, refs: map<BatchId, set<RecordId>>, gone: set<RecordId>)
    ensures forall b :: b in PurgedResults(results, refs, gone) <==>
                          b in results && (b in refs ==> forall r :: r in gone ==> r !in refs[b])
    ensures forall b :: b in PurgedResults(results, refs, gone) ==> PurgedResults(results, refs, gone)[b] == results[b]
  {
    forall b | b in refs ensures refs[b] * gone != {} <==> exists r :: r in gone && r in refs[b] {
      if refs[b] * gone != {} {
        var r :| r in refs[b] * gone;
      }
      if r :| r in gone && r in refs[b] {
        assert r in refs[b] * gone;
      }
    }
  }

  lemma ClaimsGo(claims: map<ClaimId, Claim>, gone: set<RecordId>)
    ensures forall c :: c in claims ==> ClaimGoes(claims[c], RetiredClaims(claims, gone)[c], gone, false)
    ensures forall c :: c in claims ==> ClaimGoes(claims[c], RetractedClaims(claims, gone)[c], gone, true)
  {
  }

  lemma EntriesGo(entries: map<EntryId, Entry>, gone: set<RecordId>)
    ensures forall e :: e in entries ==>
              var w := RetiredEntries(entries, gone)[e];
              && w.evidence == entries[e].evidence
              && (w.current <==> entries[e].current && forall r :: r in gone ==> r !in entries[e].evidence)
  {
    assert forall e :: e in entries ==> (entries[e].evidence !! gone <==> forall r :: r in gone ==> r !in entries[e].evidence);
  }

  lemma HidingTakesWith(m: Memory, gone: set<RecordId>)
    ensures TakesWith(m, Hid(m, gone), gone, false)
  {
    assert RestingOn(m.evidence, gone) == set x | x in m.evidence && x.1 in gone :: x.0;
    ClaimsGo(m.claims, gone);
    EntriesGo(m.entries, gone);
    PurgingIsPrecise(m.results, m.refs, gone);
  }

  lemma ForgettingTakesWith(m: Memory, gone: set<RecordId>)
    ensures TakesWith(m, Forgot(m, gone), gone, true)
  {
    assert RestingOn(m.evidence, gone) == set x | x in m.evidence && x.1 in gone :: x.0;
    ClaimsGo(m.claims, gone);
    EntriesGo(m.entries, gone);
    PurgingIsPrecise(m.results, m.refs, gone);
  }

  function Descendants(m: Memory, r: RecordId): set<RecordId> {
    Closure(m.deps, {r})
  }

  /** A supersession spares what the replacement also supports. */
  function Retiring(m: Memory, r: RecordId, replacement: RecordId, replaced: bool): set<RecordId> {
    if replaced then Descendants(m, r) - Descendants(m, replacement) else Descendants(m, r)
  }

  // ---- what writes conclusions --------------------------------------------

  predicate Available(m: Memory, o: ObjectId) {
    o in m.objects && !IsDead(m.objects[o])
  }

  /** What a new artifact rests on: its own evidence and all its parents'. */
  function EvidenceOf(m: Memory, evidence: set<RecordId>, from: set<ObjectId>): set<RecordId> {
    evidence + (set e | e in m.evidence && e.0 in from :: e.1)
  }

  predicate AllLive(m: Memory, rs: set<RecordId>) {
    forall r :: r in rs ==> Live(m, r)
  }

  /** A correction addresses an active claim of the same topic. */
  predicate CanClaim(m: Memory, c: ClaimId, r: RecordId, topic: nat, supersedes: Option<ClaimId>) {
    && Live(m, r)
    && (c !in m.claims && supersedes.Some? ==>
          supersedes.value in m.claims && m.claims[supersedes.value].status == Current && m.claims[supersedes.value].topic == topic)
  }

  predicate IsLesson(m: Memory, o: ObjectId) {
    o in m.papers && m.papers[o].Lesson?
  }

  predicate IsEvaluation(m: Memory, o: ObjectId) {
    o in m.papers && m.papers[o].Evaluation?
  }

  /** No other lesson that still counts claims the same revision of the family. */
  predicate IsFreeRevision(m: Memory, o: ObjectId, family: nat, revision: nat) {
    forall x :: x in m.papers && x != o && m.papers[x].Lesson? && x in m.objects && !IsDead(m.objects[x]) ==>
      !(m.papers[x].family == family && m.papers[x].revision == revision)
  }

  /** The rules of the entry points: what a lesson is drawn from, and who may evaluate it. */
  predicate IsAdmissible(m: Memory, o: ObjectId, paper: Paper, from: set<ObjectId>) {
    match paper
    case Note => true
    case Outcome => from == {}
    case Lesson(_, family, revision, _) =>
      && (forall p :: p in from ==> Available(m, p) && p in m.papers && m.papers[p].Outcome?)
      && IsFreeRevision(m, o, family, revision)
    case Evaluation(actor, lesson, content, _, _) =>
      && from == {lesson} && Available(m, lesson) && IsLesson(m, lesson) && m.objects[lesson] == Pending
      && actor != m.papers[lesson].actor && content == m.papers[lesson].content
  }

  predicate CanLearn(m: Memory, o: ObjectId, paper: Paper, evidence: set<RecordId>, from: set<ObjectId>) {
    && IsAdmissible(m, o, paper, from)
    && o !in m.objects && (forall p :: p in from ==> Available(m, p))
    && EvidenceOf(m, evidence, from) != {} && AllLive(m, EvidenceOf(m, evidence, from))
  }

  predicate IsActiveIn(m: Memory, o: ObjectId, family: nat) {
    o in m.objects && m.objects[o] == Active && IsLesson(m, o) && m.papers[o].family == family
  }

  /** The family's active lesson is the expected one. */
  predicate IsPrior(m: Memory, family: nat, expected: Option<ObjectId>) {
    if expected.Some? then IsActiveIn(m, expected.value, family) else forall o :: o in m.objects ==> !IsActiveIn(m, o, family)
  }

  /** A passing evaluation of exactly this lesson, run against the expected baseline if it was run. */
  predicate Supports(m: Memory, e: ObjectId, c: ObjectId, expected: Option<ObjectId>)
    requires IsEvaluation(m, e) && IsLesson(m, c)
  {
    var evaluation := m.papers[e];
    && (evaluation.baseline.Some? ==> evaluation.baseline.value == expected)
    && evaluation.lesson == c && evaluation.content == m.papers[c].content && evaluation.passed
  }

  /** Both artifacts are available, of the right kind, and the promoter did not propose the lesson. */
  predicate MayPromote(m: Memory, c: ObjectId, e: ObjectId, actor: Actor) {
    Available(m, c) && IsLesson(m, c) && Available(m, e) && IsEvaluation(m, e) && m.papers[c].actor != actor
  }

  /** The same promotion again is answered without a change. */
  predicate IsPromotedAlready(m: Memory, c: ObjectId, e: ObjectId, expected: Option<ObjectId>, actor: Actor) {
    MayPromote(m, c, e, actor) && m.objects[c] == Active && c in m.promotions && m.promotions[c] == Promotion(e, actor, expected)
  }

  predicate CanPromote(m: Memory, c: ObjectId, e: ObjectId, expected: Option<ObjectId>, actor: Actor) {
    && MayPromote(m, c, e, actor) && m.objects[c] == Pending && Supports(m, e, c, expected)
    && IsPrior(m, m.papers[c].family, expected)
    && (expected.Some? ==> m.papers[c].revision > m.papers[expected.value].revision)
  }

  function Promoted(m: Memory, c: ObjectId, e: ObjectId, prior: Option<ObjectId>, actor: Actor): Memory
    requires c in m.objects && (prior.Some? ==> prior.value in m.objects)
  {
    var stepped := if prior.Some? then m.objects[prior.value := Replaced] else m.objects;
    m.(objects := stepped[c := Active], parents := m.parents + {Edge(c, e)},
       evidence := m.evidence + (set x | x in m.evidence && x.0 == e :: (c, x.1)),
       promotions := m.promotions[c := Promotion(e, actor, prior)])
  }

  function Learned(m: Memory, o: ObjectId, paper: Paper, evidence: set<RecordId>, from: set<ObjectId>): Memory {
    m.(objects := m.objects[o := if paper.Lesson? then Pending else Recorded],
       evidence := m.evidence + (set r | r in EvidenceOf(m, evidence, from) :: (o, r)),
       parents := m.parents + (set p | p in from :: Edge(o, p)),
       papers := m.papers[o := paper])
  }

  function Claimed(m: Memory, c: ClaimId, r: RecordId, topic: nat, supersedes: Option<ClaimId>): Memory {
    if c in m.claims then m
    else
      var claims := m.claims[c := Claim(r, topic, Current, true, supersedes)];
      m.(claims := if supersedes.Some? && supersedes.value in claims
                   then claims[supersedes.value := claims[supersedes.value].(status := Superseded)] else claims)
  }

  /** A belief resolved in favour of another gives way to it. */
  predicate CanResolve(m: Memory, chosen: ObjectId, others: set<ObjectId>) {
    && IsNote(m, chosen) && m.objects[chosen] == Recorded && chosen !in others
    && forall o :: o in others ==> IsNote(m, o)
  }

  predicate IsNote(m: Memory, o: ObjectId) {
    Available(m, o) && o in m.papers && m.papers[o].Note?
  }

  function Resolved(m: Memory, others: set<ObjectId>): Memory {
    m.(objects := Marked(m.objects, others, Replaced))
  }

  /** A task transition adds the evidence it was made on. */
  function Attended(m: Memory, o: ObjectId, refs: set<RecordId>): Memory {
    m.(evidence := m.evidence + set r | r in refs :: (o, r))
  }

  function WithdrawnFrom(m: Memory, c: ObjectId): Memory {
    m.(objects := Marked(m.objects, Closure(m.parents, {c}), Withdrawn))
  }

  /** No family has two active lessons. */
  predicate OneActivePerFamily(m: Memory) {
    forall a, b :: a in m.objects && b in m.objects && AreRivals(m, a, b) ==> a == b
  }

  predicate AreRivals(m: Memory, a: ObjectId, b: ObjectId) {
    IsLesson(m, a) && IsActiveIn(m, a, m.papers[a].family) && IsActiveIn(m, b, m.papers[a].family)
  }

  lemma PriorIsOne(m: Memory, family: nat, prior: Option<ObjectId>)
    requires OneActivePerFamily(m) && IsPrior(m, family, prior)
    ensures forall expected :: IsPrior(m, family, expected) <==> expected == prior
  {
  }

  // ---- the repair pass ----------------------------------------------------

  function Gone(m: Memory): set<RecordId> {
    m.deleted + m.hidden
  }

  function RepairedClaim(m: Memory, c: Claim): Claim {
    if c.record in m.deleted then (if c.status == Current then c.(status := Retracted) else c)
    else if c.record in m.hidden && (c.status == Current || (c.status == Retracted && c.text)) then c.(status := Retired)
    else c
  }

  /** Where the record is forgotten a current claim is retracted; where it is only hidden the wording survives, retired. */
  predicate ClaimIsRepaired(v: Claim, w: Claim, deleted: set<RecordId>, hidden: set<RecordId>) {
    w == v.(status :=
      if v.record in deleted then (if v.status == Current then Retracted else v.status)
      else if v.record in hidden && (v.status == Current || (v.status == Retracted && v.text)) then Retired
      else v.status)
  }

  /** Objects the repair looks at: replaced lessons are not among them. */
  predicate IsRepairable(state: ObjectState) {
    state == Recorded || state == Pending || state == Active
  }

  function RepairSeeds(m: Memory): set<ObjectId> {
    set e | e in m.evidence && e.1 in Gone(m) && e.0 in m.objects && IsRepairable(m.objects[e.0]) :: e.0
  }

  function Repaired(m: Memory): Memory {
    m.(claims := (map c | c in m.claims :: RepairedClaim(m, m.claims[c])),
       links := RevokedLinks(m.links, Gone(m)),
       entries := RetiredEntries(m.entries, Gone(m)),
       objects := Marked(m.objects, Closure(m.parents, RepairSeeds(m)), Invalidated))
  }

  // ---- retiring one record after another is retiring them together --------

  lemma HidingOneByOne(m: Memory, done: set<RecordId>, r: RecordId)
    ensures Hid(Hid(m, done), {r}) == Hid(m, done + {r})
  {
    var u := Hid(m, done);
    MarkingOneByOne(m, done, r);
    assert RetiredClaims(u.claims, {r}) == RetiredClaims(m.claims, done + {r});
    assert RevokedLinks(u.links, {r}) == RevokedLinks(m.links, done + {r});
    assert RetiredEntries(u.entries, {r}) == RetiredEntries(m.entries, done + {r});
    assert PurgedResults(u.results, m.refs, {r}) == PurgedResults(m.results, m.refs, done + {r});
    assert u.hidden + {r} == m.hidden + (done + {r});
  }

  lemma ForgettingOneByOne(m: Memory, done: set<RecordId>, r: RecordId)
    ensures Forgot(Forgot(m, done), {r}) == Forgot(m, done + {r})
  {
    var u := Forgot(m, done);
    MarkingOneByOne(m, done, r);
    assert RetractedClaims(u.claims, {r}) == RetractedClaims(m.claims, done + {r});
    assert RevokedLinks(u.links, {r}) == RevokedLinks(m.links, done + {r});
    assert RetiredEntries(u.entries, {r}) == RetiredEntries(m.entries, done + {r});
    assert PurgedResults(u.results, m.refs, {r}) == PurgedResults(m.results, m.refs, done + {r});
    assert u.deleted + {r} == m.deleted + (done + {r});
  }

  lemma MarkingOneByOne(m: Memory, done: set<RecordId>, r: RecordId)
    ensures Marked(Marked(m.objects, Affected(m, done), Invalidated), Affected(m, {r}), Invalidated)
         == Marked(m.objects, Affected(m, done + {r}), Invalidated)
  {
    assert RestingOn(m.evidence, done + {r}) == RestingOn(m.evidence, done) + RestingOn(m.evidence, {r});
    ClosureOfUnion(m.parents, RestingOn(m.evidence, done), RestingOn(m.evidence, {r}));
  }

  lemma NothingLeaves(m: Memory)
    ensures RetiredClaims(m.claims, {}) == m.claims && RetractedClaims(m.claims, {}) == m.claims
    ensures RevokedLinks(m.links, {}) == m.links && RetiredEntries(m.entries, {}) == m.entries
    ensures PurgedResults(m.results, m.refs, {}) == m.results
  {
  }

  lemma HidingNothing(m: Memory)
    ensures Hid(m, {}) == m && Forgot(m, {}) == m
  {
    assert RestingOn(m.evidence, {}) == {};
    ClosureOfNothing(m.parents);
    assert Marked(m.objects, {}, Invalidated) == m.objects;
    NothingLeaves(m);
  }

  // ---- the archive object -------------------------------------------------

  class Archive {
    var records: set<RecordId>
    var deps: set<Edge<RecordId>>
    var refs: map<BatchId, set<RecordId>>
    var evidence: set<(ObjectId, RecordId)>
    var parents: set<Edge<ObjectId>>
    var papers: map<ObjectId, Paper>
    var promotions: map<ObjectId, Promotion>
    var deleted: set<RecordId>
    var hidden: set<RecordId>
    var claims: map<ClaimId, Claim>
    var links: map<LinkId, Link>
    var entries: map<EntryId, Entry>
    var results: map<BatchId, set<RecordId>>
    var objects: map<ObjectId, ObjectState>

    ghost function State(): Memory
      reads this
    {
      Memory(records, deleted, hidden, deps, claims, links, entries, refs, results, objects, evidence, parents, papers, promotions)
    }

    constructor (m: Memory)
      ensures State() == m
    {
      records, deleted, hidden, deps := m.records, m.deleted, m.hidden, m.deps;
      claims, links, entries, refs, results := m.claims, m.links, m.entries, m.refs, m.results;
      objects, evidence, parents, papers, promotions := m.objects, m.evidence, m.parents, m.papers, m.promotions;
    }

    /** Mark the objects and everything derived from them, one seed at a time. */
    method Invalidate(seeds: set<ObjectId>, state: ObjectState)
      modifies this`objects
      ensures objects == Marked(old(objects), Closure(parents, seeds), state)
    {
      var left := seeds;
      ClosureOfNothing(parents);
      while left != {}
        invariant left <= seeds
        invariant objects == Marked(old(objects), Closure(parents, seeds - left), state)
      {
        var o :| o in left;
        ClosureOfUnion(parents, seeds - left, {o});
        assert seeds - (left - {o}) == seeds - left + {o};
        var affected := Closure(parents, {o});
        objects := map x | x in objects :: if x in affected then state else objects[x];
        left := left - {o};
      }
      assert seeds - left == seeds;
    }

    /** The statements of the cascade for one hidden record. */
    method HideOne(r: RecordId)
      modifies this`hidden, this`claims, this`links, this`entries, this`results, this`objects
      ensures State() == Hid(old(State()), {r})
    {
      hidden := hidden + {r};
      PurgeConclusions(r);
      claims := RetiredClaims(claims, {r});
    }

    /** What both ways of going have in common. */
    method PurgeConclusions(r: RecordId)
      modifies this`links, this`entries, this`results, this`objects
      ensures results == PurgedResults(old(results), refs, {r})
      ensures objects == Marked(old(objects), Closure(parents, RestingOn(evidence, {r})), Invalidated)
      ensures entries == RetiredEntries(old(entries), {r}) && links == RevokedLinks(old(links), {r})
    {
      results := PurgedResults(results, refs, {r});
      Invalidate(RestingOn(evidence, {r}), Invalidated);
      entries := RetiredEntries(entries, {r});
      links := RevokedLinks(links, {r});
    }

    method ForgetOne(r: RecordId)
      modifies this`deleted, this`claims, this`links, this`entries, this`results, this`objects
      ensures State() == Forgot(old(State()), {r})
    {
      PurgeConclusions(r);
      claims := RetractedClaims(claims, {r});
      deleted := deleted + {r};
    }

    /** Retire a record with its descendants; `replaced` also spares the replacement's own. */
    method Retire(r: RecordId, replacement: RecordId, replaced: bool) returns (retired: set<RecordId>)
      modifies this`hidden, this`claims, this`links, this`entries, this`results, this`objects
      ensures retired == Retiring(old(State()), r, replacement, replaced)
      ensures State() == Hid(old(State()), retired) && TakesWith(old(State()), State(), retired, false)
      ensures retired == Closure(deps, {r}) - (if replaced then Closure(deps, {replacement}) else {})
    {
      retired := Closure(deps, {r});
      if replaced {
        retired := retired - Closure(deps, {replacement});
      }
      var left := retired;
      HidingNothing(State());
      while left != {}
        invariant left <= retired && deleted == old(deleted)
        invariant State() == Hid(old(State()), retired - left)
      {
        var x :| x in left;
        HidingOneByOne(old(State()), retired - left, x);
        assert retired - (left - {x}) == retired - left + {x};
        HideOne(x);
        left := left - {x};
      }
      assert retired - left == retired;
      HidingTakesWith(old(State()), retired);
    }

    /** Forget a record with everything derived from it. */
    method Forget(r: RecordId) returns (affected: set<RecordId>)
      modifies this`deleted, this`claims, this`links, this`entries, this`results, this`objects
      ensures affected == Descendants(old(State()), r)
      ensures State() == Forgot(old(State()), affected) && TakesWith(old(State()), State(), affected, true)
      ensures affected == Closure(deps, {r})
    {
      affected := Closure(deps, {r});
      var left := affected;
      HidingNothing(State());
      while left != {}
        invariant left <= affected && hidden == old(hidden)
        invariant State() == Forgot(old(State()), affected - left)
      {
        var x :| x in left;
        ForgettingOneByOne(old(State()), affected - left, x);
        assert affected - (left - {x}) == affected - left + {x};
        ForgetOne(x);
        left := left - {x};
      }
      assert affected - left == affected;
      ForgettingTakesWith(old(State()), affected);
    }

    predicate IsLive(r: RecordId)
      reads this
    {
      r in records && r !in deleted && r !in hidden
    }

    /** A new claim, replacing an active one when it corrects it; repeated requests find the stored claim. */
    method MakeClaim(c: ClaimId, r: RecordId, topic: nat, supersedes: Option<ClaimId>) returns (ok: bool)
      modifies this`claims
      ensures ok <==> CanClaim(old(State()), c, r, topic, supersedes)
      ensures State() == if ok then Claimed(old(State()), c, r, topic, supersedes) else old(State())
      ensures ok && c !in old(claims) ==> c in claims && claims[c] == Claim(r, topic, Current, true, supersedes)
      ensures ok && c !in old(claims) && supersedes.Some? ==>
                claims[supersedes.value] == old(claims)[supersedes.value].(status := Superseded)
      ensures claims.Keys == old(claims).Keys + (if ok then {c} else {})
      ensures forall x :: x in old(claims) && !(ok && c !in old(claims) && supersedes == Some(x)) ==> claims[x] == old(claims)[x]
    {
      if !IsLive(r) {
        return false;
      }
      if c in claims {
        return true;
      }
      if supersedes.Some? && !(supersedes.value in claims && claims[supersedes.value].status == Current
                               && claims[supersedes.value].topic == topic) {
        return false;
      }
      claims := claims[c := Claim(r, topic, Current, true, supersedes)];
      if supersedes.Some? {
        claims := claims[supersedes.value := claims[supersedes.value].(status := Superseded)];
      }
      return true;
    }

    /**
     Store an artifact with all the evidence it rests on, its parents' included.
     A known key is answered from what is stored, when it is the `same` request.
     */
    method Learn(o: ObjectId, same: bool, paper: Paper, own: set<RecordId>, from: set<ObjectId>) returns (ok: bool)
      modifies this`objects, this`evidence, this`parents, this`papers
      ensures ok <==> if o in old(objects) then IsAdmissible(old(State()), o, paper, from) && same && Available(old(State()), o)
                      else CanLearn(old(State()), o, paper, own, from)
      ensures State() == if ok && o !in old(objects) then Learned(old(State()), o, paper, own, from) else old(State())
      ensures ok && o !in old(objects) ==>
                && objects == old(objects)[o := if paper.Lesson? then Pending else Recorded] && papers == old(papers)[o := paper]
                && (forall d :: d in parents <==> d in old(parents) || (d.child == o && d.parent in from))
                && (forall x :: x in evidence <==>
                      x in old(evidence) || (x.0 == o && (x.1 in own || exists p :: p in from && (p, x.1) in old(evidence))))
    {
      var admissible := Admits(o, paper, from);
      if !admissible {
        return false;
      }
      if o in objects {
        return same && !IsDead(objects[o]);
      }
      var available, refs := Gather(own, from);
      if !available || refs == {} || exists r :: r in refs && !IsLive(r) {
        return false;
      }
      Store(o, paper, own, from, refs);
      return true;
    }

    method Store(o: ObjectId, paper: Paper, own: set<RecordId>, from: set<ObjectId>, refs: set<RecordId>)
      requires refs == EvidenceOf(State(), own, from)
      modifies this`objects, this`evidence, this`parents, this`papers
      ensures State() == Learned(old(State()), o, paper, own, from)
    {
      objects := objects[o := if paper.Lesson? then Pending else Recorded];
      evidence := evidence + set r | r in refs :: (o, r);
      parents := parents + set p | p in from :: Edge(o, p);
      papers := papers[o := paper];
    }

    /** The parents' evidence with the artifact's own, as long as every parent is available. */
    method Gather(own: set<RecordId>, from: set<ObjectId>) returns (available: bool, refs: set<RecordId>)
      ensures available <==> forall p :: p in from ==> Available(State(), p)
      ensures available ==> refs == EvidenceOf(State(), own, from)
    {
      refs := own;
      var left := from;
      while left != {}
        invariant left <= from
        invariant forall p :: p in from - left ==> Available(State(), p)
        invariant refs == EvidenceOf(State(), own, from - left)
      {
        var p :| p in left;
        if !(p in objects && !IsDead(objects[p])) {
          return false, refs;
        }
        refs := refs + set e | e in evidence && e.0 == p :: e.1;
        assert from - (left - {p}) == from - left + {p};
        left := left - {p};
      }
      assert from - left == from;
      return true, refs;
    }

    method Admits(o: ObjectId, paper: Paper, from: set<ObjectId>) returns (ok: bool)
      ensures ok <==> IsAdmissible(State(), o, paper, from)
    {
      match paper
      case Note => return true;
      case Outcome => return from == {};
      case Lesson(_, family, revision, _) =>
        if exists p :: p in from && !(p in objects && !IsDead(objects[p]) && p in papers && papers[p].Outcome?) {
          return false;
        }
        return !exists x :: x in papers && x != o && papers[x].Lesson? && x in objects && !IsDead(objects[x])
                            && papers[x].family == family && papers[x].revision == revision;
      case Evaluation(actor, lesson, content, _, _) =>
        return from == {lesson} && lesson in objects && lesson in papers && papers[lesson].Lesson? && objects[lesson] == Pending
               && actor != papers[lesson].actor && content == papers[lesson].content;
    }

    /** The active lesson of a family, looked for one by one. */
    method ActiveOf(family: nat) returns (prior: Option<ObjectId>)
      ensures IsPrior(State(), family, prior)
    {
      var left := objects.Keys;
      while left != {}
        invariant left <= objects.Keys
        invariant forall o :: o in objects && o !in left ==> !IsActiveIn(State(), o, family)
      {
        var o :| o in left;
        if objects[o] == Active && o in papers && papers[o].Lesson? && papers[o].family == family {
          return Some(o);
        }
        left := left - {o};
      }
      return None;
    }

    /**
     Activate a pending lesson on a passing evaluation of its own, in place of
     the expected active one: it now also rests on that evaluation.
     */
    method Promote(c: ObjectId, e: ObjectId, expected: Option<ObjectId>, actor: Actor) returns (ok: bool)
      requires OneActivePerFamily(State())
      modifies this`objects, this`evidence, this`parents, this`promotions
      ensures ok <==> CanPromote(old(State()), c, e, expected, actor) || IsPromotedAlready(old(State()), c, e, expected, actor)
      ensures State() == if CanPromote(old(State()), c, e, expected, actor)
                         then Promoted(old(State()), c, e, expected, actor) else old(State())
      ensures ok && old(objects)[c] == Pending ==>
                && objects[c] == Active && (expected.Some? && expected.value != c ==> objects[expected.value] == Replaced)
                && (forall o :: o in old(objects) && o != c && expected != Some(o) ==> objects[o] == old(objects)[o])
                && (forall d :: d in parents <==> d in old(parents) || d == Edge(c, e))
                && (forall x :: x in evidence <==> x in old(evidence) || (x.0 == c && (e, x.1) in old(evidence)))
                && promotions == old(promotions)[c := Promotion(e, actor, expected)]
    {
      if !(c in objects && !IsDead(objects[c]) && c in papers && papers[c].Lesson?) {
        return false;
      }
      if !(e in objects && !IsDead(objects[e]) && e in papers && papers[e].Evaluation?) || papers[c].actor == actor {
        return false;
      }
      if objects[c] == Active {
        return c in promotions && promotions[c] == Promotion(e, actor, expected);
      }
      if objects[c] != Pending {
        return false;
      }
      if (papers[e].baseline.Some? && papers[e].baseline.value != expected)
        || papers[e].lesson != c || papers[e].content != papers[c].content || !papers[e].passed {
        return false;
      }
      var prior := ActiveOf(papers[c].family);
      PriorIsOne(State(), papers[c].family, prior);
      if prior != expected || (prior.Some? && papers[c].revision <= papers[prior.value].revision) {
        return false;
      }
      Activate(c, e, expected, actor);
      return true;
    }

    method Activate(c: ObjectId, e: ObjectId, prior: Option<ObjectId>, actor: Actor)
      requires c in objects && (prior.Some? ==> prior.value in objects)
      modifies this`objects, this`evidence, this`parents, this`promotions
      ensures State() == Promoted(old(State()), c, e, prior, actor)
    {
      if prior.Some? {
        objects := objects[prior.value := Replaced];
      }
      objects := objects[c := Active];
      parents := parents + {Edge(c, e)};
      evidence := evidence + set x | x in evidence && x.0 == e :: (c, x.1);
      promotions := promotions[c := Promotion(e, actor, prior)];
    }

    method Resolve(chosen: ObjectId, others: set<ObjectId>) returns (ok: bool)
      modifies this`objects
      ensures ok <==> CanResolve(old(State()), chosen, others)
      ensures State() == if ok then Resolved(old(State()), others) else old(State())
      ensures ok ==> chosen !in others && objects.Keys == old(objects).Keys && chosen in objects && objects[chosen] == Recorded
      ensures ok ==> forall o :: o in others ==> o in objects && !IsDead(old(objects)[o]) && o in papers && papers[o].Note?
      ensures ok ==> forall o :: o in objects ==> objects[o] == if o in others then Replaced else old(objects)[o]
    {
      if !(chosen in objects && objects[chosen] == Recorded && chosen in papers && papers[chosen].Note?) || chosen in others {
        return false;
      }
      if exists o :: o in others && !(o in objects && !IsDead(objects[o]) && o in papers && papers[o].Note?) {
        return false;
      }
      objects := map o | o in objects :: if o in others then Replaced else objects[o];
      return true;
    }

    method Attend(o: ObjectId, refs: set<RecordId>) returns (ok: bool)
      modifies this`evidence
      ensures ok <==> IsNote(old(State()), o) && AllLive(old(State()), refs)
      ensures State() == if ok then Attended(old(State()), o, refs) else old(State())
      ensures ok ==> forall x :: x in evidence <==> x in old(evidence) || (x.0 == o && x.1 in refs)
    {
      if !(o in objects && !IsDead(objects[o]) && o in papers && papers[o].Note?) || exists r :: r in refs && !IsLive(r) {
        return false;
      }
      evidence := evidence + set r | r in refs :: (o, r);
      return true;
    }

    method Withdraw(c: ObjectId) returns (ok: bool)
      modifies this`objects
      ensures ok <==> Available(old(State()), c)
      ensures State() == if ok then WithdrawnFrom(old(State()), c) else old(State())
      ensures ok ==> objects.Keys == old(objects).Keys
      ensures ok ==> forall o :: o in objects ==> objects[o] == if o in Closure(parents, {c}) then Withdrawn else old(objects)[o]
    {
      if !(c in objects && !IsDead(objects[c])) {
        return false;
      }
      Invalidate({c}, Withdrawn);
      return true;
    }

    /** The one-time pass over an archive from before the cascade existed. */
    method Repair()
      modifies this`claims, this`links, this`entries, this`objects
      ensures State() == Repaired(old(State()))
      ensures claims.Keys == old(claims).Keys && forall c :: c in claims ==> ClaimIsRepaired(old(claims)[c], claims[c], deleted, hidden)
    {
      if deleted + hidden == {} {
        NothingToRepair(State());
      } else {
        RepairTables();
      }
    }

    method RepairTables()
      modifies this`claims, this`links, this`entries, this`objects
      ensures State() == Repaired(old(State()))
    {
      var gone := deleted + hidden;
      var seeds := set e | e in evidence && e.1 in gone && e.0 in objects && IsRepairable(objects[e.0]) :: e.0;
      RepairConclusions(gone);
      Invalidate(seeds, Invalidated);
    }

    method RepairConclusions(gone: set<RecordId>)
      modifies this`claims, this`links, this`entries
      ensures claims == map c | c in old(claims) :: RepairedClaim(old(State()), old(claims)[c])
      ensures links == RevokedLinks(old(links), gone) && entries == RetiredEntries(old(entries), gone)
    {
      RepairClaims();
      links := RevokedLinks(links, gone);
      RetireOffending(gone);
    }

    /** The three claim statements, in their order. */
    method RepairClaims()
      modifies this`claims
      ensures claims == map c | c in old(claims) :: RepairedClaim(old(State()), old(claims)[c])
    {
      ghost var m := State();
      claims := map c | c in claims :: DemotedHidden(claims[c], hidden, deleted);
      claims := map c | c in claims :: DemotedDeleted(claims[c], deleted);
      claims := map c | c in claims :: Reclassified(claims[c], hidden, deleted);
      forall c | c in claims ensures claims[c] == RepairedClaim(m, old(claims)[c]) {
        assert claims[c] == Reclassified(DemotedDeleted(DemotedHidden(old(claims)[c], hidden, deleted), deleted), hidden, deleted);
      }
    }

    /** Curated entries are retired record by record. */
    method RetireOffending(gone: set<RecordId>)
      modifies this`entries
      ensures entries == RetiredEntries(old(entries), gone)
    {
      var offending := set r | r in gone && exists e :: e in entries && entries[e].current && r in entries[e].evidence;
      var left := offending;
      while left != {}
        invariant left <= offending
        invariant entries == RetiredEntries(old(entries), offending - left)
      {
        var r :| r in left;
        RetiringEntriesOneByOne(old(entries), offending - left, r);
        assert offending - (left - {r}) == offending - left + {r};
        entries := RetiredEntries(entries, {r});
        left := left - {r};
      }
      assert offending - left == offending;
      OffendingSuffice(old(entries), gone, offending);
    }
  }

  /** Claims resting on hidden evidence become history. */
  function DemotedHidden(c: Claim, hidden: set<RecordId>, deleted: set<RecordId>): Claim {
    if c.status == Current && c.record in hidden && c.record !in deleted then c.(status := Retired) else c
  }

  function DemotedDeleted(c: Claim, deleted: set<RecordId>): Claim {
    if c.status == Current && c.record in deleted then c.(status := Retracted) else c
  }

  /** What an older cascade retracted is reclassified where only hiding explains it. */
  function Reclassified(c: Claim, hidden: set<RecordId>, deleted: set<RecordId>): Claim {
    if c.status == Retracted && c.text && c.record in hidden && c.record !in deleted then c.(status := Retired) else c
  }

  lemma RetiringEntriesOneByOne(entries: map<EntryId, Entry>, done: set<RecordId>, r: RecordId)
    ensures RetiredEntries(RetiredEntries(entries, done), {r}) == RetiredEntries(entries, done + {r})
  {
  }

  lemma OffendingSuffice(entries: map<EntryId, Entry>, gone: set<RecordId>, offending: set<RecordId>)
    requires forall r :: r in offending <==> r in gone && exists e :: e in entries && entries[e].current && r in entries[e].evidence
    ensures RetiredEntries(entries, offending) == RetiredEntries(entries, gone)
  {
    forall e | e in entries ensures RetiredEntries(entries, offending)[e] == RetiredEntries(entries, gone)[e] {
      if entries[e].current && !(entries[e].evidence !! gone) {
        var r :| r in entries[e].evidence && r in gone;
        assert r in offending;
      }
    }
  }

  lemma NothingIsSeed(m: Memory)
    requires Gone(m) == {}
    ensures Marked(m.objects, Closure(m.parents, RepairSeeds(m)), Invalidated) == m.objects
  {
    assert RepairSeeds(m) == {};
    ClosureOfNothing(m.parents);
  }

  lemma NothingToRepair(m: Memory)
    requires Gone(m) == {}
    ensures Repaired(m) == m
  {
    NothingIsSeed(m);
    assert RevokedLinks(m.links, {}) == m.links && RetiredEntries(m.entries, {}) == m.entries;
    assert (map c | c in m.claims :: RepairedClaim(m, m.claims[c])) == m.claims;
  }
}
