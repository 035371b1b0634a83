/**
 No stale conclusions over whole runs: every writer of evidence and every
 writer of conclusions, in any order.
 */
module CascadeRuns {
  import opened Wrappers
  import opened Dependencies
  import opened Cascade

  datatype Action =
    // evidence
    | Ingest(record: RecordId, from: set<RecordId>)
    | Retire(record: RecordId)
    | Supersede(record: RecordId, replacement: Option<RecordId>)
    | Unhide(records: set<RecordId>)
    | Forget(record: RecordId)
    | FinishReset
    // conclusions
    | MakeClaim(claim: ClaimId, record: RecordId, topic: nat, supersedes: Option<ClaimId>)
    | MakeLink(link: LinkId, record: RecordId, confirmed: bool)
    | Revoke(link: LinkId)
    | EditCurated(retired: set<EntryId>, added: map<EntryId, set<RecordId>>)
    | Gather(batch: BatchId, records: set<RecordId>)
    | Analyse(batch: BatchId, citations: set<RecordId>)
    | Compact(left: map<BatchId, set<RecordId>>)
    | Learn(object: ObjectId, paper: Paper, evidence: set<RecordId>, from: set<ObjectId>)
    | Promote(candidate: ObjectId, evaluation: ObjectId, prior: Option<ObjectId>, actor: Actor)
    | Withdraw(candidate: ObjectId)
    | Resolve(chosen: ObjectId, others: set<ObjectId>)
    | Attend(object: ObjectId, evidence: set<RecordId>)
    | Repair

  predicate Enabled(m: Memory, a: Action) {
    match a
    case Ingest(r, from) => r !in m.deleted && from <= m.records + {r} - m.deleted
    case Retire(r) => r in m.records
    case Supersede(r, replacement) => r in m.records - m.deleted && (replacement.Some? ==> replacement.value in m.records - m.deleted)
    case Unhide(_) => true
    case Forget(r) => r in m.records
    case FinishReset => true
    case MakeClaim(c, r, topic, supersedes) => CanClaim(m, c, r, topic, supersedes)
    case MakeLink(_, r, _) => Live(m, r)
    case Revoke(l) => l in m.links
    case EditCurated(_, added) => added.Keys !! m.entries.Keys && forall e :: e in added ==> AllLive(m, added[e])
    case Gather(b, rs) => b !in m.refs && rs <= m.records
    case Analyse(b, citations) => b in m.refs && citations <= m.refs[b] && AllLive(m, citations)
    case Compact(left) => forall b :: b in left ==> b in m.refs && left[b] <= m.refs[b]
    case Learn(o, paper, evidence, from) => CanLearn(m, o, paper, evidence, from)
    case Promote(c, e, prior, actor) => CanPromote(m, c, e, prior, actor)
    case Withdraw(c) => Available(m, c)
    case Resolve(chosen, others) => CanResolve(m, chosen, others)
    case Attend(o, refs) => IsNote(m, o) && AllLive(m, refs)
    case Repair => true
  }

  function Edited(m: Memory, retired: set<EntryId>, added: map<EntryId, set<RecordId>>): Memory {
    m.(entries := (map e | e in m.entries :: if e in retired then m.entries[e].(current := false) else m.entries[e])
                + (map e | e in added :: Entry(added[e], true)))
  }

  function ResetFinished(m: Memory): Memory {
    m.(links := (map l | l in m.links :: m.links[l].(status := Revoked)),
       entries := (map e | e in m.entries :: m.entries[e].(current := false)),
       objects := (map o | o in m.objects :: Invalidated))
  }

  function Compacted(m: Memory, left: map<BatchId, set<RecordId>>): Memory {
    m.(refs := m.refs + left, results := m.results - left.Keys)
  }

  function Step(m: Memory, a: Action): Memory
    requires Enabled(m, a)
  {
    match a
    case Ingest(r, from) => m.(records := m.records + {r}, deps := m.deps + (set p | p in from :: Edge(r, p)))
    case Retire(r) => Hid(m, Descendants(m, r))
    case Supersede(r, replacement) =>
      Hid(m, if replacement.Some? then Retiring(m, r, replacement.value, true) else Descendants(m, r))
    case Unhide(rs) => m.(hidden := m.hidden - rs)
    case Forget(r) => Forgot(m, Descendants(m, r))
    case FinishReset => ResetFinished(m)
    case MakeClaim(c, r, topic, supersedes) => Claimed(m, c, r, topic, supersedes)
    case MakeLink(l, r, confirmed) =>
      if l in m.links then m else m.(links := m.links[l := Link(r, if confirmed then Confirmed else Candidate)])
    case Revoke(l) => m.(links := m.links[l := m.links[l].(status := Revoked)])
    case EditCurated(retired, added) => Edited(m, retired, added)
    case Gather(b, rs) => m.(refs := m.refs[b := rs])
    case Analyse(b, citations) => m.(results := m.results[b := citations])
    case Compact(left) => Compacted(m, left)
    case Learn(o, paper, evidence, from) => Learned(m, o, paper, evidence, from)
    case Promote(c, e, prior, actor) => Promoted(m, c, e, prior, actor)
    case Withdraw(c) => WithdrawnFrom(m, c)
    case Resolve(_, others) => Resolved(m, others)
    case Attend(o, refs) => Attended(m, o, refs)
    case Repair => Repaired(m)
  }

  predicate IsRun(m: Memory, actions: seq<Action>)
    decreases |actions|
  {
    actions == [] || (Enabled(m, actions[0]) && IsRun(Step(m, actions[0]), actions[1..]))
  }

  function After(m: Memory, actions: seq<Action>): Memory
    requires IsRun(m, actions)
    decreases |actions|
  {
    if actions == [] then m else After(Step(m, actions[0]), actions[1..])
  }

  const EMPTY := Memory({}, {}, {}, {}, map[], map[], map[], map[], map[], map[], {}, {}, map[], map[])

  // ---- no stale conclusions -----------------------------------------------

  predicate ClaimsStand(m: Memory) {
    forall c :: c in m.claims && m.claims[c].status == Current ==> Live(m, m.claims[c].record)
  }

  predicate LinksStand(m: Memory) {
    forall l :: l in m.links && m.links[l].status != Revoked ==> Live(m, m.links[l].record)
  }

  predicate EntriesStand(m: Memory) {
    forall e :: e in m.entries && m.entries[e].current ==> AllLive(m, m.entries[e].evidence)
  }

  predicate ResultsStand(m: Memory) {
    forall b :: b in m.results ==> b in m.refs && m.results[b] <= m.refs[b] && AllLive(m, m.results[b])
  }

  predicate EvidenceStands(m: Memory) {
    forall e :: e in m.evidence ==> e.0 in m.objects && (!IsDead(m.objects[e.0]) ==> Live(m, e.1))
  }

  predicate ParentsStand(m: Memory) {
    forall d :: d in m.parents ==>
      d.child in m.objects && d.parent in m.objects && (IsDead(m.objects[d.parent]) ==> IsDead(m.objects[d.child]))
  }

  predicate NoStale(m: Memory) {
    && ClaimsStand(m) && LinksStand(m) && EntriesStand(m) && ResultsStand(m)
    && EvidenceStands(m) && ParentsStand(m)
  }

  /** Whatever is derived from deleted records is deleted. */
  predicate DeletedAreClosed(m: Memory) {
    m.deleted <= m.records && IsClosed(m.deps, m.deleted) && forall d :: d in m.deps ==> d.child in m.records
  }

  /** Nothing that was live except `gone` stops being live. */
  ghost predicate Loses(m: Memory, u: Memory, gone: set<RecordId>) {
    forall r :: Live(m, r) && r !in gone ==> Live(u, r)
  }

  lemma TablesStandWithout(m: Memory, u: Memory, gone: set<RecordId>)
    requires NoStale(m) && Loses(m, u, gone)
    requires u.claims == RetiredClaims(m.claims, gone) || u.claims == RetractedClaims(m.claims, gone)
    requires u.links == RevokedLinks(m.links, gone) && u.entries == RetiredEntries(m.entries, gone)
    requires u.results == PurgedResults(m.results, m.refs, gone) && u.refs == m.refs
    ensures ClaimsStand(u) && LinksStand(u) && EntriesStand(u) && ResultsStand(u)
  {
    forall b | b in u.results ensures AllLive(u, u.results[b]) {
      assert m.refs[b] * gone == {} && m.results[b] <= m.refs[b];
      forall r | r in m.results[b] ensures r !in gone {
        assert r !in m.refs[b] * gone;
      }
    }
  }

  /** Marking a closed set of objects dead keeps parents and evidence sound. */
  lemma ObjectsStandWithout(m: Memory, u: Memory, gone: set<RecordId>, affected: set<ObjectId>, state: ObjectState)
    requires NoStale(m) && Loses(m, u, gone) && IsDead(state)
    requires RestingOn(m.evidence, gone) <= affected && IsClosed(m.parents, affected)
    requires u.objects == Marked(m.objects, affected, state) && u.evidence == m.evidence && u.parents == m.parents
    ensures EvidenceStands(u) && ParentsStand(u)
  {
    forall e | e in u.evidence ensures e.0 in u.objects && (!IsDead(u.objects[e.0]) ==> Live(u, e.1)) {
      if e.1 in gone {
        assert e.0 in RestingOn(m.evidence, gone);
      }
    }
    forall d | d in u.parents
      ensures d.child in u.objects && d.parent in u.objects && (IsDead(u.objects[d.parent]) ==> IsDead(u.objects[d.child]))
    {
      if d.parent in affected {
        assert d.child in Children(m.parents, affected);
      }
    }
  }

  lemma CascadeKeeps(m: Memory, gone: set<RecordId>)
    requires NoStale(m)
    ensures NoStale(Hid(m, gone)) && NoStale(Forgot(m, gone))
  {
    TablesStandWithout(m, Hid(m, gone), gone);
    TablesStandWithout(m, Forgot(m, gone), gone);
    ObjectsStandWithout(m, Hid(m, gone), gone, Affected(m, gone), Invalidated);
    ObjectsStandWithout(m, Forgot(m, gone), gone, Affected(m, gone), Invalidated);
  }

  lemma SameObjectsStand(m: Memory, u: Memory)
    requires NoStale(m) && Loses(m, u, {})
    requires u.objects == m.objects && u.evidence == m.evidence && u.parents == m.parents
    ensures EvidenceStands(u) && ParentsStand(u)
  {
  }

  lemma EvidenceStepKeeps(m: Memory, a: Action)
    requires NoStale(m) && Enabled(m, a)
    requires a.Ingest? || a.Retire? || a.Supersede? || a.Unhide? || a.Forget?
    ensures NoStale(Step(m, a))
  {
    match a
    case Retire(r) => CascadeKeeps(m, Descendants(m, r));
    case Supersede(r, replacement) =>
      CascadeKeeps(m, if replacement.Some? then Retiring(m, r, replacement.value, true) else Descendants(m, r));
    case Forget(r) => CascadeKeeps(m, Descendants(m, r));
    case Ingest(_, _) => SameObjectsStand(m, Step(m, a));
    case Unhide(_) => SameObjectsStand(m, Step(m, a));
  }

  lemma ClaimedStands(m: Memory, c: ClaimId, r: RecordId, topic: nat, supersedes: Option<ClaimId>)
    requires ClaimsStand(m) && CanClaim(m, c, r, topic, supersedes)
    ensures
      var u := Claimed(m, c, r, topic, supersedes);
      ClaimsStand(u) && u == m.(claims := u.claims)
  {
  }

  lemma SameTablesStand(m: Memory, u: Memory)
    requires NoStale(m) && ClaimsStand(u) && u == m.(claims := u.claims)
    ensures NoStale(u)
  {
  }

  lemma ClaimStepKeeps(m: Memory, a: Action)
    requires NoStale(m) && Enabled(m, a) && a.MakeClaim?
    ensures NoStale(Step(m, a))
  {
    ClaimedStands(m, a.claim, a.record, a.topic, a.supersedes);
    SameTablesStand(m, Step(m, a));
  }

  lemma LinkStepKeeps(m: Memory, a: Action)
    requires NoStale(m) && Enabled(m, a) && (a.MakeLink? || a.Revoke?)
    ensures NoStale(Step(m, a))
  {
    SameObjectsStand(m, Step(m, a));
  }

  lemma AnalysisStepKeeps(m: Memory, a: Action)
    requires NoStale(m) && Enabled(m, a) && (a.EditCurated? || a.Gather? || a.Analyse? || a.Compact?)
    ensures NoStale(Step(m, a))
  {
    var u := Step(m, a);
    SameObjectsStand(m, u);
    assert EntriesStand(u);
    assert ResultsStand(u);
  }

  lemma LearningKeeps(m: Memory, o: ObjectId, paper: Paper, evidence: set<RecordId>, from: set<ObjectId>)
    requires NoStale(m) && Enabled(m, Learn(o, paper, evidence, from))
    ensures NoStale(Learned(m, o, paper, evidence, from))
  {
    var u := Learned(m, o, paper, evidence, from);
    forall e | e in u.evidence ensures e.0 in u.objects && (!IsDead(u.objects[e.0]) ==> Live(u, e.1)) {
      if e !in m.evidence {
        assert Live(m, e.1);
      }
    }
    forall d | d in u.parents
      ensures d.child in u.objects && d.parent in u.objects && (IsDead(u.objects[d.parent]) ==> IsDead(u.objects[d.child]))
    {
      if d !in m.parents {
        assert Available(m, d.parent);
      }
    }
  }

  lemma PromotionKeeps(m: Memory, c: ObjectId, e: ObjectId, prior: Option<ObjectId>, actor: Actor)
    requires NoStale(m) && Enabled(m, Promote(c, e, prior, actor))
    ensures NoStale(Promoted(m, c, e, prior, actor))
  {
    var u := Promoted(m, c, e, prior, actor);
    forall x | x in u.evidence ensures x.0 in u.objects && (!IsDead(u.objects[x.0]) ==> Live(u, x.1)) {
      if x !in m.evidence {
        assert (e, x.1) in m.evidence;
      }
    }
    assert ParentsStand(u);
  }

  lemma ResolutionKeeps(m: Memory, a: Action)
    requires NoStale(m) && Enabled(m, a) && a.Resolve?
    ensures NoStale(Step(m, a))
  {
    var u := Step(m, a);
    assert ParentsStand(u);
  }

  lemma AttendanceKeeps(m: Memory, a: Action)
    requires NoStale(m) && Enabled(m, a) && a.Attend?
    ensures NoStale(Step(m, a))
  {
    var u := Step(m, a);
    forall e | e in u.evidence ensures e.0 in u.objects && (!IsDead(u.objects[e.0]) ==> Live(u, e.1)) {
      if e !in m.evidence {
        assert Live(m, e.1);
      }
    }
  }

  lemma RepairKeeps(m: Memory)
    requires NoStale(m)
    ensures NoStale(Repaired(m))
  {
    var u := Repaired(m);
    ObjectsStandWithout(m, u, {}, Closure(m.parents, RepairSeeds(m)), Invalidated);
  }

  lemma StepKeepsNoStale(m: Memory, a: Action)
    requires NoStale(m) && Enabled(m, a)
    ensures NoStale(Step(m, a))
  {
    match a
    case FinishReset =>
    case Learn(o, paper, evidence, from) => LearningKeeps(m, o, paper, evidence, from);
    case Promote(c, e, prior, actor) => PromotionKeeps(m, c, e, prior, actor);
    case Withdraw(c) => ObjectsStandWithout(m, Step(m, a), {}, Closure(m.parents, {c}), Withdrawn);
    case Resolve(_, others) => ResolutionKeeps(m, a);
    case Attend(_, _) => AttendanceKeeps(m, a);
    case Repair => RepairKeeps(m);
    case _ =>
      if a.Ingest? || a.Retire? || a.Supersede? || a.Unhide? || a.Forget? {
        EvidenceStepKeeps(m, a);
      } else if a.MakeClaim? {
        ClaimStepKeeps(m, a);
      } else if a.MakeLink? || a.Revoke? {
        LinkStepKeeps(m, a);
      } else {
        AnalysisStepKeeps(m, a);
      }
  }

  lemma {:induction false} NoStaleOverRun(m: Memory, actions: seq<Action>)
    requires NoStale(m) && IsRun(m, actions)
    ensures NoStale(After(m, actions))
    decreases |actions|
  {
    if actions != [] {
      StepKeepsNoStale(m, actions[0]);
      NoStaleOverRun(Step(m, actions[0]), actions[1..]);
    }
  }

  /** In every reachable archive no current conclusion stands on retired evidence. */
  lemma NoStaleConclusions(actions: seq<Action>)
    requires IsRun(EMPTY, actions)
    ensures NoStale(After(EMPTY, actions))
  {
    NoStaleOverRun(EMPTY, actions);
  }

  // ---- corrections --------------------------------------------------------

  /** What a claim corrects is stored, about the same topic, superseded or worse, and corrected by nothing else. */
  predicate CorrectionsAgree(m: Memory) {
    && (forall c :: c in m.claims ==> CorrectionAgrees(m, m.claims[c]))
    && (forall c, d :: c in m.claims && d in m.claims
                       && m.claims[c].supersedes.Some? && m.claims[c].supersedes == m.claims[d].supersedes ==>
          c == d)
  }

  predicate CorrectionAgrees(m: Memory, claim: Claim) {
    claim.supersedes.Some? ==>
      && claim.supersedes.value in m.claims && m.claims[claim.supersedes.value].status != Current
      && m.claims[claim.supersedes.value].topic == claim.topic
  }

  /** Claims only lose standing, and what they are about and correct stays. */
  predicate ClaimsOnlyLose(m: Memory, u: Memory) {
    u.claims.Keys == m.claims.Keys && forall c :: c in m.claims ==> OnlyLosesStatus(m.claims[c], u.claims[c])
  }

  predicate OnlyLosesStatus(v: Claim, w: Claim) {
    w.topic == v.topic && w.supersedes == v.supersedes && (w.status == Current ==> v.status == Current)
  }

  lemma LosingKeepsCorrections(m: Memory, u: Memory)
    requires CorrectionsAgree(m) && ClaimsOnlyLose(m, u)
    ensures CorrectionsAgree(u)
  {
    forall c | c in u.claims ensures CorrectionAgrees(u, u.claims[c]) {
      assert CorrectionAgrees(m, m.claims[c]) && OnlyLosesStatus(m.claims[c], u.claims[c]);
      if u.claims[c].supersedes.Some? {
        assert OnlyLosesStatus(m.claims[u.claims[c].supersedes.value], u.claims[u.claims[c].supersedes.value]);
      }
    }
    forall c, d | c in u.claims && d in u.claims && u.claims[c].supersedes.Some? && u.claims[c].supersedes == u.claims[d].supersedes
      ensures c == d
    {
      assert OnlyLosesStatus(m.claims[c], u.claims[c]) && OnlyLosesStatus(m.claims[d], u.claims[d]);
    }
  }

  lemma NewClaimAgrees(m: Memory, c: ClaimId, r: RecordId, topic: nat, supersedes: Option<ClaimId>, x: ClaimId)
    requires CorrectionsAgree(m) && CanClaim(m, c, r, topic, supersedes) && x in Claimed(m, c, r, topic, supersedes).claims
    ensures CorrectionAgrees(Claimed(m, c, r, topic, supersedes), Claimed(m, c, r, topic, supersedes).claims[x])
  {
    if x in m.claims {
      assert CorrectionAgrees(m, m.claims[x]);
    }
  }

  lemma NewClaimIsAlone(m: Memory, c: ClaimId, r: RecordId, topic: nat, supersedes: Option<ClaimId>, x: ClaimId)
    requires CorrectionsAgree(m) && CanClaim(m, c, r, topic, supersedes) && c !in m.claims && supersedes.Some? && x in m.claims
    ensures m.claims[x].supersedes != supersedes
  {
    assert CorrectionAgrees(m, m.claims[x]);
  }

  lemma ClaimedHas(m: Memory, c: ClaimId, r: RecordId, topic: nat, supersedes: Option<ClaimId>)
    requires CanClaim(m, c, r, topic, supersedes)
    ensures
      var u := Claimed(m, c, r, topic, supersedes);
      && u.claims.Keys == m.claims.Keys + {c} && (forall x :: x in m.claims ==> u.claims[x].supersedes == m.claims[x].supersedes)
      && (c !in m.claims ==> u.claims[c].supersedes == supersedes)
  {
  }

  lemma ClaimingKeepsCorrections(m: Memory, a: Action)
    requires CorrectionsAgree(m) && Enabled(m, a) && a.MakeClaim?
    ensures CorrectionsAgree(Step(m, a))
  {
    var u := Claimed(m, a.claim, a.record, a.topic, a.supersedes);
    ClaimedHas(m, a.claim, a.record, a.topic, a.supersedes);
    forall c | c in u.claims ensures CorrectionAgrees(u, u.claims[c]) {
      NewClaimAgrees(m, a.claim, a.record, a.topic, a.supersedes, c);
    }
    forall c, d | c in u.claims && d in u.claims && u.claims[c].supersedes.Some? && u.claims[c].supersedes == u.claims[d].supersedes
      ensures c == d
    {
      if a.claim !in m.claims && (c == a.claim || d == a.claim) && c != d {
        NewClaimIsAlone(m, a.claim, a.record, a.topic, a.supersedes, if c == a.claim then d else c);
      }
    }
  }

  lemma OtherStepOnlyLoses(m: Memory, a: Action)
    requires Enabled(m, a) && !a.MakeClaim?
    ensures ClaimsOnlyLose(m, Step(m, a))
  {
  }

  lemma {:induction false} CorrectionsOverRun(m: Memory, actions: seq<Action>)
    requires CorrectionsAgree(m) && IsRun(m, actions)
    ensures CorrectionsAgree(After(m, actions))
    decreases |actions|
  {
    if actions != [] {
      if actions[0].MakeClaim? {
        ClaimingKeepsCorrections(m, actions[0]);
      } else {
        OtherStepOnlyLoses(m, actions[0]);
        LosingKeepsCorrections(m, Step(m, actions[0]));
      }
      CorrectionsOverRun(Step(m, actions[0]), actions[1..]);
    }
  }

  /** In every reachable archive a claim that some stored claim corrects is not current, and no other claim corrects it. */
  lemma CorrectedIsNeverCurrent(actions: seq<Action>, c: ClaimId)
    requires IsRun(EMPTY, actions) && c in After(EMPTY, actions).claims
    ensures
      var m := After(EMPTY, actions);
      m.claims[c].supersedes.Some? ==>
        var p := m.claims[c].supersedes.value;
        && p in m.claims && m.claims[p].status != Current && m.claims[p].topic == m.claims[c].topic
        && forall d :: d in m.claims && m.claims[d].supersedes == Some(p) ==> d == c
  {
    CorrectionsOverRun(EMPTY, actions);
    assert CorrectionAgrees(After(EMPTY, actions), After(EMPTY, actions).claims[c]);
  }

  /** Each claim of the chain corrects the one before it. */
  predicate IsChain(m: Memory, chain: seq<ClaimId>) {
    && (forall i :: 0 <= i < |chain| ==> chain[i] in m.claims)
    && (forall i :: 0 < i < |chain| ==> m.claims[chain[i]].supersedes == Some(chain[i - 1]))
  }

  lemma {:induction false} ChainsFromOneAgree(m: Memory, chain: seq<ClaimId>, longer: seq<ClaimId>)
    requires CorrectionsAgree(m) && IsChain(m, chain) && IsChain(m, longer)
    requires 0 < |chain| <= |longer| && chain[0] == longer[0]
    ensures chain == longer[..|chain|]
    decreases |chain|
  {
    var n := |chain| - 1;
    if n > 0 {
      ChainsFromOneAgree(m, chain[..n], longer);
      assert chain[n - 1] == chain[..n][n - 1] == longer[n - 1];
      assert m.claims[chain[n]].supersedes == Some(chain[n - 1]) && m.claims[longer[n]].supersedes == Some(longer[n - 1]);
    }
    assert chain == chain[..n] + [chain[n]];
  }

  /**
   The corrections of a claim are a line about one topic with at most one
   current claim, its end: two lines from the same claim are one, and nothing
   but the last of a line is current.
   */
  lemma CorrectionsAreALine(actions: seq<Action>, chain: seq<ClaimId>, other: seq<ClaimId>)
    requires IsRun(EMPTY, actions) && IsChain(After(EMPTY, actions), chain) && IsChain(After(EMPTY, actions), other)
    requires 0 < |chain| <= |other| && chain[0] == other[0]
    ensures chain == other[..|chain|]
    ensures forall i :: 0 <= i < |other| - 1 ==> After(EMPTY, actions).claims[other[i]].status != Current
  {
    CorrectionsOverRun(EMPTY, actions);
    var m := After(EMPTY, actions);
    ChainsFromOneAgree(m, chain, other);
    forall i | 0 <= i < |other| - 1 ensures m.claims[other[i]].status != Current {
      assert CorrectionAgrees(m, m.claims[other[i + 1]]);
    }
  }

  // ---- forgetting reaches everything derived ------------------------------

  lemma StepKeepsDeletedClosed(m: Memory, a: Action)
    requires DeletedAreClosed(m) && Enabled(m, a)
    ensures DeletedAreClosed(Step(m, a))
  {
    var u := Step(m, a);
    if a.Forget? {
      var all := Descendants(m, a.record);
      ClosureIsLeast(m.deps, {a.record}, m.records);
      forall c | c in Children(u.deps, u.deleted) ensures c in u.deleted {
        assert c in Children(m.deps, m.deleted) || c in Children(m.deps, all);
      }
    } else if a.Ingest? {
      forall c | c in Children(u.deps, u.deleted) ensures c in u.deleted {
        assert c in Children(m.deps, m.deleted);
      }
    }
  }

  /**
   Deleted records are closed under dependents in every reachable archive, so
   whatever was derived, at any distance, from a forgotten record is forgotten.
   */
  lemma {:induction false} DeletedStaysClosed(m: Memory, actions: seq<Action>)
    requires DeletedAreClosed(m) && IsRun(m, actions)
    ensures DeletedAreClosed(After(m, actions))
    ensures forall r, x: RecordId :: r in After(m, actions).deleted && x in Closure(After(m, actions).deps, {r}) ==>
              x in After(m, actions).deleted
    decreases |actions|
  {
    if actions == [] {
      forall r, x: RecordId | r in m.deleted && x in Closure(m.deps, {r}) ensures x in m.deleted {
        ClosureIsLeast(m.deps, {r}, m.deleted);
      }
    } else {
      StepKeepsDeletedClosed(m, actions[0]);
      DeletedStaysClosed(Step(m, actions[0]), actions[1..]);
    }
  }

  // ---- lessons ------------------------------------------------------------

  /** The lesson was promoted by somebody else, on a passing evaluation of it, by somebody else. */
  predicate IsEarned(m: Memory, c: ObjectId) {
    && IsLesson(m, c) && c in m.promotions && IsEvaluation(m, m.promotions[c].evaluation)
    && m.promotions[c].actor != m.papers[c].actor
    && var evaluation := m.papers[m.promotions[c].evaluation];
    && evaluation.lesson == c && evaluation.passed && evaluation.content == m.papers[c].content && evaluation.actor != m.papers[c].actor
    && (evaluation.baseline.Some? ==> evaluation.baseline.value == m.promotions[c].previous)
    && (m.promotions[c].previous.Some? ==>
          && IsLesson(m, m.promotions[c].previous.value)
          && m.papers[m.promotions[c].previous.value].family == m.papers[c].family
          && m.papers[m.promotions[c].previous.value].revision < m.papers[c].revision)
  }

  /** What an artifact was made of: an outcome of nothing, a lesson of outcomes and its evaluations, an evaluation of its lesson. */
  predicate IsDrawnFrom(m: Memory, d: Edge<ObjectId>) {
    && d.child in m.papers && d.parent in m.papers
    && match m.papers[d.child]
       case Note => true
       case Outcome => false
       case Lesson(_, _, _, _) =>
         m.papers[d.parent].Outcome? || (m.papers[d.parent].Evaluation? && m.papers[d.parent].lesson == d.child)
       case Evaluation(_, lesson, _, _, _) => d.parent == lesson
  }

  predicate AllDrawn(m: Memory) {
    forall d :: d in m.parents ==> IsDrawnFrom(m, d)
  }

  predicate IsLivingLesson(m: Memory, o: ObjectId) {
    o in m.objects && !IsDead(m.objects[o]) && o in m.papers && m.papers[o].Lesson?
  }

  /** No revision of a family is claimed by two lessons that still count. */
  predicate RevisionsAgree(m: Memory) {
    forall x, y :: x in m.objects && y in m.objects && ShareRevision(m, x, y) ==> x == y
  }

  predicate ShareRevision(m: Memory, x: ObjectId, y: ObjectId) {
    && IsLivingLesson(m, x) && IsLivingLesson(m, y)
    && m.papers[x].family == m.papers[y].family && m.papers[x].revision == m.papers[y].revision
  }

  /** Papers belong to stored artifacts. */
  predicate PapersAgree(m: Memory) {
    m.papers.Keys == m.objects.Keys
  }

  predicate HadStanding(m: Memory, o: ObjectId) {
    o in m.objects && (m.objects[o] == Active || m.objects[o] == Replaced) && o in m.papers && !m.papers[o].Note?
  }

  predicate AllEarned(m: Memory) {
    forall o :: o in m.objects && HadStanding(m, o) ==> IsEarned(m, o)
  }

  /** Whoever evaluated a lesson did not propose it. */
  predicate EvaluationsAgree(m: Memory) {
    forall e :: e in m.papers && m.papers[e].Evaluation? ==>
      IsLesson(m, m.papers[e].lesson) && m.papers[e].actor != m.papers[m.papers[e].lesson].actor
  }

  predicate LessonsAgree(m: Memory) {
    OneActivePerFamily(m) && PapersAgree(m) && AllEarned(m) && EvaluationsAgree(m) && AllDrawn(m) && RevisionsAgree(m)
  }

  /** The artifacts only lose standing, and what they are about stays. */
  predicate OnlyLoseStanding(m: Memory, u: Memory) {
    && u.papers == m.papers && u.promotions == m.promotions && u.parents == m.parents && u.objects.Keys == m.objects.Keys
    && forall o :: o in m.objects ==>
         u.objects[o] == m.objects[o] || IsDead(u.objects[o]) || (u.objects[o] == Replaced && o in m.papers && m.papers[o].Note?)
  }

  lemma LosingStandingAgrees(m: Memory, u: Memory)
    requires LessonsAgree(m) && OnlyLoseStanding(m, u)
    ensures LessonsAgree(u)
  {
    forall o | o in u.objects && HadStanding(u, o) ensures IsEarned(u, o) {
      assert HadStanding(m, o);
    }
    forall a, b | a in u.objects && b in u.objects && AreRivals(u, a, b) ensures a == b {
      assert AreRivals(m, a, b);
    }
    forall x, y | x in u.objects && y in u.objects && ShareRevision(u, x, y) ensures x == y {
      assert ShareRevision(m, x, y);
    }
  }

  /** Nothing that was earned is lost when papers and promotions are only added. */
  lemma StillEarned(m: Memory, u: Memory, c: ObjectId)
    requires IsEarned(m, c) && (forall x :: x in m.papers ==> x in u.papers && u.papers[x] == m.papers[x])
    requires c in u.promotions && u.promotions[c] == m.promotions[c]
    ensures IsEarned(u, c)
  {
  }

  lemma LearnedAgrees(m: Memory, o: ObjectId, paper: Paper, evidence: set<RecordId>, from: set<ObjectId>)
    requires LessonsAgree(m) && CanLearn(m, o, paper, evidence, from)
    ensures LessonsAgree(Learned(m, o, paper, evidence, from))
  {
    var u := Learned(m, o, paper, evidence, from);
    forall x | x in u.objects && HadStanding(u, x) ensures IsEarned(u, x) {
      assert HadStanding(m, x);
      StillEarned(m, u, x);
    }
    forall a, b | a in u.objects && b in u.objects && AreRivals(u, a, b) ensures a == b {
      assert AreRivals(m, a, b);
    }
    assert EvaluationsAgree(u);
    LearnedIsDrawn(m, o, paper, evidence, from);
  }

  lemma LearnedIsDrawn(m: Memory, o: ObjectId, paper: Paper, evidence: set<RecordId>, from: set<ObjectId>)
    requires LessonsAgree(m) && CanLearn(m, o, paper, evidence, from)
    ensures AllDrawn(Learned(m, o, paper, evidence, from)) && RevisionsAgree(Learned(m, o, paper, evidence, from))
  {
    var u := Learned(m, o, paper, evidence, from);
    forall d | d in u.parents ensures IsDrawnFrom(u, d) {
      assert d in m.parents ==> IsDrawnFrom(m, d);
    }
    forall x, y | x in u.objects && y in u.objects && ShareRevision(u, x, y) ensures x == y {
      assert x != o && y != o ==> ShareRevision(m, x, y);
    }
  }

  lemma PromotedIsEarned(m: Memory, c: ObjectId, e: ObjectId, prior: Option<ObjectId>, actor: Actor)
    requires LessonsAgree(m) && CanPromote(m, c, e, prior, actor)
    ensures AllEarned(Promoted(m, c, e, prior, actor))
  {
    var u := Promoted(m, c, e, prior, actor);
    forall x | x in u.objects && HadStanding(u, x) ensures IsEarned(u, x) {
      if x != c {
        assert HadStanding(m, x);
        StillEarned(m, u, x);
      }
    }
  }

  lemma PromotedIsAlone(m: Memory, c: ObjectId, e: ObjectId, prior: Option<ObjectId>, actor: Actor)
    requires LessonsAgree(m) && CanPromote(m, c, e, prior, actor)
    ensures OneActivePerFamily(Promoted(m, c, e, prior, actor))
  {
    var u := Promoted(m, c, e, prior, actor);
    PriorIsOne(m, m.papers[c].family, prior);
    forall a, b | a in u.objects && b in u.objects && AreRivals(u, a, b) ensures a == b {
      if a != c && b != c {
        assert AreRivals(m, a, b);
      } else if a != b {
        var other := if a == c then b else a;
        assert IsActiveIn(m, other, m.papers[c].family);
      }
    }
  }

  lemma PromotedIsDrawn(m: Memory, c: ObjectId, e: ObjectId, prior: Option<ObjectId>, actor: Actor)
    requires LessonsAgree(m) && CanPromote(m, c, e, prior, actor)
    ensures AllDrawn(Promoted(m, c, e, prior, actor)) && RevisionsAgree(Promoted(m, c, e, prior, actor))
  {
    var u := Promoted(m, c, e, prior, actor);
    forall d | d in u.parents ensures IsDrawnFrom(u, d) {
      assert d in m.parents ==> IsDrawnFrom(m, d);
    }
    forall x, y | x in u.objects && y in u.objects && ShareRevision(u, x, y) ensures x == y {
      assert ShareRevision(m, x, y);
    }
  }

  lemma PromotedAgrees(m: Memory, c: ObjectId, e: ObjectId, prior: Option<ObjectId>, actor: Actor)
    requires LessonsAgree(m) && CanPromote(m, c, e, prior, actor)
    ensures LessonsAgree(Promoted(m, c, e, prior, actor))
  {
    PromotedIsEarned(m, c, e, prior, actor);
    PromotedIsAlone(m, c, e, prior, actor);
    PromotedIsDrawn(m, c, e, prior, actor);
    var u := Promoted(m, c, e, prior, actor);
    assert u.papers == m.papers;
    assert EvaluationsAgree(u);
  }

  lemma StepKeepsLessons(m: Memory, a: Action)
    requires LessonsAgree(m) && Enabled(m, a)
    ensures LessonsAgree(Step(m, a))
  {
    match a
    case Learn(o, paper, evidence, from) => LearnedAgrees(m, o, paper, evidence, from);
    case Promote(c, e, prior, actor) => PromotedAgrees(m, c, e, prior, actor);
    case _ =>
      StepLosesStanding(m, a);
      LosingStandingAgrees(m, Step(m, a));
  }

  lemma StepLosesStanding(m: Memory, a: Action)
    requires Enabled(m, a) && !a.Learn? && !a.Promote?
    ensures OnlyLoseStanding(m, Step(m, a))
  {
  }

  lemma {:induction false} LessonsOverRun(m: Memory, actions: seq<Action>)
    requires LessonsAgree(m) && IsRun(m, actions)
    ensures LessonsAgree(After(m, actions))
    decreases |actions|
  {
    if actions != [] {
      StepKeepsLessons(m, actions[0]);
      LessonsOverRun(Step(m, actions[0]), actions[1..]);
    }
  }

  /**
   No lesson activates itself: in every reachable archive a family has at most
   one active lesson, and every lesson that is or was active was promoted by
   another actor than proposed it, on a passing evaluation of exactly its
   content that another actor than its proposer asserted, run against the
   lesson of an earlier revision that it replaced.  No two lessons that count
   claim one revision, and lessons are drawn from outcomes alone.
   */
  lemma LessonsAreEarned(actions: seq<Action>, c: ObjectId)
    requires IsRun(EMPTY, actions) && HadStanding(After(EMPTY, actions), c)
    ensures OneActivePerFamily(After(EMPTY, actions)) && IsEarned(After(EMPTY, actions), c)
    ensures AllDrawn(After(EMPTY, actions)) && RevisionsAgree(After(EMPTY, actions))
  {
    LessonsOverRun(EMPTY, actions);
  }

  // ---- nothing is revived -------------------------------------------------

  /** Every conclusion that had lost its standing in `m` still lacks it in `u`. */
  predicate StaysDown(m: Memory, u: Memory) {
    && (forall c :: c in m.claims ==> c in u.claims && (m.claims[c].status != Current ==> u.claims[c].status != Current))
    && (forall l :: l in m.links ==> l in u.links && (m.links[l].status == Revoked ==> u.links[l].status == Revoked))
    && (forall e :: e in m.entries ==> e in u.entries && (!m.entries[e].current ==> !u.entries[e].current))
    && (forall o :: o in m.objects ==> o in u.objects && NoHigher(m.objects[o], u.objects[o]))
  }

  predicate NoHigher(before: ObjectState, after: ObjectState) {
    (IsDead(before) ==> IsDead(after)) && (before == Replaced ==> after == Replaced || IsDead(after))
  }

  lemma TablesStayDown(m: Memory, a: Action)
    requires Enabled(m, a) && (a.Ingest? || a.Unhide? || a.Gather? || a.Analyse? || a.Compact?)
    ensures StaysDown(m, Step(m, a))
  {
  }

  lemma LinksStayDown(m: Memory, a: Action)
    requires Enabled(m, a) && (a.MakeLink? || a.Revoke?)
    ensures StaysDown(m, Step(m, a))
  {
  }

  lemma ClaimsStayDown(m: Memory, a: Action)
    requires Enabled(m, a) && a.MakeClaim?
    ensures StaysDown(m, Step(m, a))
  {
  }

  lemma LearningStaysDown(m: Memory, a: Action)
    requires Enabled(m, a) && (a.Learn? || a.Attend?)
    ensures StaysDown(m, Step(m, a))
  {
  }

  lemma PromotionStaysDown(m: Memory, a: Action)
    requires Enabled(m, a) && a.Promote?
    ensures StaysDown(m, Step(m, a))
  {
  }

  lemma WithdrawalStaysDown(m: Memory, a: Action)
    requires Enabled(m, a) && (a.Withdraw? || a.Resolve?)
    ensures StaysDown(m, Step(m, a))
  {
  }

  lemma SweptStaysDown(m: Memory, a: Action)
    requires Enabled(m, a) && (a.Repair? || a.EditCurated? || a.FinishReset?)
    ensures StaysDown(m, Step(m, a))
  {
  }

  lemma CascadeStaysDown(m: Memory, gone: set<RecordId>)
    ensures StaysDown(m, Hid(m, gone)) && StaysDown(m, Forgot(m, gone))
  {
  }

  lemma RetirementStaysDown(m: Memory, a: Action)
    requires Enabled(m, a) && (a.Retire? || a.Forget? || a.Supersede?)
    ensures StaysDown(m, Step(m, a))
  {
    match a
    case Retire(r) => CascadeStaysDown(m, Descendants(m, r));
    case Forget(r) => CascadeStaysDown(m, Descendants(m, r));
    case Supersede(r, replacement) =>
      CascadeStaysDown(m, if replacement.Some? then Retiring(m, r, replacement.value, true) else Descendants(m, r));
  }

  lemma StepRevivesNothing(m: Memory, a: Action)
    requires Enabled(m, a)
    ensures StaysDown(m, Step(m, a))
  {
    if a.Retire? || a.Forget? || a.Supersede? {
      RetirementStaysDown(m, a);
    } else if a.Repair? || a.EditCurated? || a.FinishReset? {
      SweptStaysDown(m, a);
    } else if a.Learn? || a.Attend? {
      LearningStaysDown(m, a);
    } else if a.Promote? {
      PromotionStaysDown(m, a);
    } else if a.Withdraw? || a.Resolve? {
      WithdrawalStaysDown(m, a);
    } else if a.MakeClaim? {
      ClaimsStayDown(m, a);
    } else if a.MakeLink? || a.Revoke? {
      LinksStayDown(m, a);
    } else {
      TablesStayDown(m, a);
    }
  }

  lemma StaysDownOverTwo(m: Memory, n: Memory, u: Memory)
    requires StaysDown(m, n) && StaysDown(n, u)
    ensures StaysDown(m, u)
  {
  }

  /**
   Over any run, restored visibility included, no claim, link, curated entry or
   lesson that lost its standing ever regains it.
   */
  lemma {:induction false} NothingIsRevived(m: Memory, actions: seq<Action>)
    requires IsRun(m, actions)
    ensures StaysDown(m, After(m, actions))
    decreases |actions|
  {
    if actions != [] {
      StepRevivesNothing(m, actions[0]);
      NothingIsRevived(Step(m, actions[0]), actions[1..]);
      StaysDownOverTwo(m, Step(m, actions[0]), After(m, actions));
    }
  }

  // ---- the repair pass ----------------------------------------------------

  /** The foreign keys of an archive of any age. */
  predicate KnowsItsRecords(m: Memory) {
    && (forall c :: c in m.claims ==> m.claims[c].record in m.records)
    && (forall l :: l in m.links ==> m.links[l].record in m.records)
    && (forall e :: e in m.entries ==> m.entries[e].evidence <= m.records)
    && (forall e :: e in m.evidence ==> e.0 in m.objects && e.1 in m.records)
  }

  /** From any archive, one pass leaves claims, links, entries and open lessons on live evidence only. */
  lemma RepairEstablishes(m: Memory)
    requires KnowsItsRecords(m)
    ensures
      var u := Repaired(m);
      && ClaimsStand(u) && LinksStand(u) && EntriesStand(u)
      && (forall e :: e in u.evidence && IsRepairable(u.objects[e.0]) ==> Live(u, e.1))
  {
    forall e | e in m.evidence && IsRepairable(m.objects[e.0]) && e.1 in Gone(m) ensures e.0 in RepairSeeds(m) {}
  }

  lemma NoSeedsAfterRepair(m: Memory)
    ensures Marked(Repaired(m).objects, Closure(m.parents, RepairSeeds(Repaired(m))), Invalidated) == Repaired(m).objects
  {
    var u := Repaired(m);
    forall e | e in u.evidence && e.0 in u.objects && IsRepairable(u.objects[e.0]) ensures e.1 !in Gone(u) {
      assert e.1 in Gone(m) ==> e.0 in RepairSeeds(m);
    }
    assert RepairSeeds(u) == {};
    ClosureOfNothing(m.parents);
  }

  lemma RepairedClaimIsStable(m: Memory, u: Memory, c: Claim)
    requires u.deleted == m.deleted && u.hidden == m.hidden
    ensures RepairedClaim(u, RepairedClaim(m, c)) == RepairedClaim(m, c)
  {
  }

  lemma RepairIsIdempotent(m: Memory)
    ensures Repaired(Repaired(m)) == Repaired(m)
  {
    var u := Repaired(m);
    NoSeedsAfterRepair(m);
    ClaimsStayRepaired(m);
    assert RevokedLinks(u.links, Gone(u)) == u.links && RetiredEntries(u.entries, Gone(u)) == u.entries;
  }

  lemma ClaimsStayRepaired(m: Memory)
    ensures
      var u := Repaired(m);
      (map c | c in u.claims :: RepairedClaim(u, u.claims[c])) == u.claims
  {
    var u := Repaired(m);
    forall c | c in u.claims ensures RepairedClaim(u, u.claims[c]) == u.claims[c] {
      RepairedClaimIsStable(m, u, m.claims[c]);
    }
  }

  /**
   Exactly which archives the pass leaves with a lesson on retired evidence:
   those with a replaced lesson that rests on it and derives from no open one.
   */
  lemma RepairMissesExactly(m: Memory)
    requires KnowsItsRecords(m)
    ensures
      (forall e :: e in m.evidence && !IsDead(Repaired(m).objects[e.0]) ==> Live(m, e.1)) <==>
      (forall e :: e in m.evidence && m.objects[e.0] == Replaced && e.1 in Gone(m) ==> e.0 in Closure(m.parents, RepairSeeds(m)))
  {
    forall e | e in m.evidence && IsRepairable(m.objects[e.0]) && e.1 in Gone(m) ensures e.0 in RepairSeeds(m) {}
  }

  /** A replaced lesson, one retired record: the pass changes nothing. */
  lemma RepairLeavesReplacedLesson()
    ensures
      var m := EMPTY.(records := {1}, hidden := {1}, objects := map[5 := Replaced], evidence := {(5, 1)});
      KnowsItsRecords(m) && Repaired(m).objects[5] == Replaced && !Live(m, 1)
  {
    var m := EMPTY.(records := {1}, hidden := {1}, objects := map[5 := Replaced], evidence := {(5, 1)});
    assert RepairSeeds(m) == {};
    ClosureOfNothing(m.parents);
  }

  /** An archive with nothing left over: no claim, link or entry stands on gone records, and no wording is retracted on hidden ones. */
  predicate IsSound(m: Memory) {
    && NoStale(m)
    && forall c :: c in m.claims && m.claims[c].record in m.hidden - m.deleted ==> !(m.claims[c].status == Retracted && m.claims[c].text)
  }

  /** The pass spares what is sound: it changes nothing in such an archive. */
  lemma RepairSparesSound(m: Memory)
    requires IsSound(m)
    ensures Repaired(m) == m
  {
    var u := Repaired(m);
    forall c | c in m.claims ensures u.claims[c] == m.claims[c] {
      assert m.claims[c].status == Current ==> Live(m, m.claims[c].record);
    }
    forall l | l in m.links ensures u.links[l] == m.links[l] {
      assert m.links[l].status != Revoked ==> Live(m, m.links[l].record);
    }
    forall e | e in m.entries ensures u.entries[e] == m.entries[e] {
      if m.entries[e].current {
        assert AllLive(m, m.entries[e].evidence);
        assert m.entries[e].evidence !! Gone(m);
      }
    }
    assert RepairSeeds(m) == {};
    ClosureOfNothing(m.parents);
    assert u.claims == m.claims && u.links == m.links && u.entries == m.entries && u.objects == m.objects;
  }
}
