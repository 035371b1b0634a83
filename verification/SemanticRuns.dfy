/**
 Every interleaving of canonical writers with the one indexer.  Writers commit
 whole transactions at any time; the indexer is a program counter that moves
 from one of its own transactions to the next, may fail at each of them, and
 may crash anywhere.  Two indexing passes never overlap.
 */
module SemanticRuns {
  import opened SemanticTables

  /** Where the indexer stands; `rows[0]` is the record being processed. */
  datatype Phase =
    | Stopped
    | Idle(key: ModelKey)
    | Distributing(key: ModelKey, due: Instant, batch: nat)
    | Loading(key: ModelKey, due: Instant, batch: nat)
    | Working(key: ModelKey, rows: seq<Row>)
    | Erasing(key: ModelKey, rows: seq<Row>)
    | Embedding(key: ModelKey, rows: seq<Row>)
    | Publishing(key: ModelKey, rows: seq<Row>)
    | Acknowledging(key: ModelKey, rows: seq<Row>)
    | Cleaning(key: ModelKey, rows: seq<Row>)
    | Failing(key: ModelKey, rows: seq<Row>, acknowledged: bool)

  datatype System = System(tables: Tables, phase: Phase)

  datatype Action =
    // canonical writers
    | Ingest(record: RecordId)
    | Hide(records: seq<RecordId>)
    | Forget(records: seq<RecordId>)
    | Unhide(records: seq<RecordId>)
    // indexer
    | Open(key: ModelKey, legacy: set<ModelKey>, after: Tables)
    | TakeRetirements(due: Instant, batch: nat, rows: seq<Row>)
    | Distribute(models: seq<ModelKey>, rows: seq<Row>)
    | Load(rows: seq<Row>)
    | Inspect
    | EraseGhost
    | Embed(starts: set<nat>)
    | Publish
    | Acknowledge
    | ClearFailure
    | Finish
    | Raise
    | BackOff(until: Instant)
    | Abandon
    | Crash

  predicate Busy(p: Phase) {
    (p.Erasing? || p.Embedding? || p.Publishing? || p.Acknowledging? || p.Cleaning? || p.Failing?) && |p.rows| > 0
  }

  ghost predicate Enabled(s: System, a: Action) {
    var t, p := s.tables, s.phase;
    match a
    case Ingest(r) => r !in t.records && r !in t.deleted && r !in t.hidden
    case Hide(rs) => forall r :: r in rs ==> r in t.records
    case Forget(rs) => forall r :: r in rs ==> r in t.records
    case Unhide(rs) => forall r :: r in rs ==> r in t.records
    case Open(key, legacy, after) => p.Stopped? && ActivatedTo(t, key, legacy, after)
    case TakeRetirements(due, batch, rows) => p.Idle? && IsOldestBatch(DueSignals(t.work, Retire, due), batch, rows)
    case Distribute(models, rows) =>
      p.Distributing? && (forall m :: m in models <==> m in t.models) && IsOldestBatch(DueSignals(t.work, Index, p.due), p.batch, rows)
    case Load(rows) => p.Loading? && IsOldestBatch(DueOwed(t.owed, p.key, p.due), p.batch, rows)
    case Inspect => p.Working? && |p.rows| > 0
    case EraseGhost => p.Erasing? && Busy(p)
    case Embed(_) => p.Embedding? && Busy(p)
    case Publish => p.Publishing? && Busy(p)
    case Acknowledge => p.Acknowledging? && Busy(p)
    case ClearFailure => p.Cleaning? && Busy(p)
    case Finish => p.Working? && |p.rows| == 0
    case Raise => Busy(p) && !p.Failing?
    case BackOff(_) => p.Failing? && Busy(p)
    case Abandon => !p.Stopped?
    case Crash => true
  }

  /** The decision taken from the record's canonical state and stored vectors. */
  function Inspected(t: Tables, key: ModelKey, rows: seq<Row>): Phase
    requires |rows| > 0
  {
    var r := rows[0].record;
    if !Live(t, r) then Erasing(key, rows)
    else if (key, r) in t.done || (exists c :: c in t.chunks && c.model == key && c.record == r) then Publishing(key, rows)
    else Embedding(key, rows)
  }

  ghost function Step(s: System, a: Action): System
    requires Enabled(s, a)
  {
    var t, p := s.tables, s.phase;
    match a
    case Ingest(r) => System(Ingested(t, r), p)
    case Hide(rs) => System(Hid(t, rs), p)
    case Forget(rs) => System(Forgot(t, rs), p)
    case Unhide(rs) => System(Unhid(t, rs), p)
    case Open(key, legacy, after) => System(after, Idle(key))
    case TakeRetirements(due, batch, rows) => System(RetirementsTaken(t, rows), Distributing(p.key, due, batch))
    case Distribute(models, rows) =>
      System(if models == [] then t else Distributed(t, models, rows), Loading(p.key, p.due, p.batch))
    case Load(rows) => System(t, Working(p.key, rows))
    case Inspect => System(t, Inspected(t, p.key, p.rows))
    case EraseGhost => System(Erased(t, p.rows[0].record), Cleaning(p.key, p.rows))
    case Embed(starts) => System(Persisted(t, p.key, p.rows[0].record, starts), Publishing(p.key, p.rows))
    case Publish => System(t, Acknowledging(p.key, p.rows))
    case Acknowledge => System(Acknowledged(t, p.key, p.rows[0]), Cleaning(p.key, p.rows))
    case ClearFailure => System(t, Working(p.key, p.rows[1..]))
    case Finish => System(t, Idle(p.key))
    case Raise => System(t, Failing(p.key, p.rows, p.Cleaning?))
    case BackOff(until) => System(BackedOff(t, p.key, p.rows[0], until), Working(p.key, p.rows[1..]))
    case Abandon => System(t, Idle(p.key))
    case Crash => System(t, Stopped)
  }

  ghost predicate IsRun(s: System, actions: seq<Action>)
    decreases |actions|
  {
    actions == [] || (Enabled(s, actions[0]) && IsRun(Step(s, actions[0]), actions[1..]))
  }

  ghost function After(s: System, actions: seq<Action>): System
    requires IsRun(s, actions)
    decreases |actions|
  {
    if actions == [] then s else After(Step(s, actions[0]), actions[1..])
  }

  /**
   An archive no model has been registered in: possibly old, with vectors and
   queued signals of its own.
   */
  ghost predicate Initial(s: System) {
    && s.phase == Stopped
    && s.tables.models == map[] && s.tables.owed == map[]
    && QueueAgrees(s.tables)
  }

  // ---- coverage -----------------------------------------------------------

  ghost predicate Covered(t: Tables, m: ModelKey, r: RecordId) {
    (m, r) in t.done || (m, r) in t.owed || Signals(t, r, Index)
  }

  ghost predicate Coverage(t: Tables) {
    forall m, r :: m in t.models && Live(t, r) ==> Covered(t, m, r)
  }

  /** Revisions come from the clock, and a retirement is only asked for what is gone. */
  ghost predicate QueueAgrees(t: Tables) {
    && (forall r :: r in t.work ==> t.work[r].revision <= t.clock && (t.work[r].kind == Retire ==> !Live(t, r)))
    && OwedClocked(t.clock, t.owed)
  }

  ghost predicate OwedRows(t: Tables, key: ModelKey, rows: seq<Row>) {
    && (forall i :: 0 <= i < |rows| ==> (key, rows[i].record) in t.owed && t.owed[(key, rows[i].record)].revision == rows[i].revision)
    && (forall i, j :: 0 <= i < j < |rows| ==> rows[i].record != rows[j].record)
  }

  /** Everything still to be processed is still owed at the revision that was read. */
  ghost predicate PhaseAgrees(s: System) {
    var t, p := s.tables, s.phase;
    && (!p.Stopped? ==> p.key in t.models)
    && (p.Working? ==> OwedRows(t, p.key, p.rows))
    && (Busy(p) ==> OwedRows(t, p.key, p.rows[1..]))
    && (Busy(p) && !(p.Cleaning? || (p.Failing? && p.acknowledged)) ==> OwedRows(t, p.key, p.rows))
    // A record found gone may have come back since, but then it asked again.
    && (p.Erasing? && Busy(p) && Live(t, p.rows[0].record) ==> Signals(t, p.rows[0].record, Index))
  }

  ghost predicate CoverageInvariant(s: System) {
    && QueueAgrees(s.tables)
    && (forall m :: m in s.tables.models ==> s.tables.models[m])
    && Coverage(s.tables)
    && PhaseAgrees(s)
  }

  /**
   The handler that runs after a completed record must not take the completion
   away from a record that nothing else would bring back to the queue.
   */
  ghost predicate KeepsCompletion(s: System, a: Action) {
    a.BackOff? && s.phase.Failing? && Busy(s.phase) && s.phase.acknowledged ==>
      var r := s.phase.rows[0].record;
      !Live(s.tables, r) || (s.phase.key, r) in s.tables.owed || Signals(s.tables, r, Index)
  }

  ghost predicate KeepsCompletions(s: System, actions: seq<Action>)
    requires IsRun(s, actions)
    decreases |actions|
  {
    actions == [] || (KeepsCompletion(s, actions[0]) && KeepsCompletions(Step(s, actions[0]), actions[1..]))
  }

  // ---- ghosts -------------------------------------------------------------

  ghost predicate NoGhosts(t: Tables) {
    forall m, r :: m in t.models && HasTraces(t, m, r) && !Live(t, r) ==> Signals(t, r, Retire)
  }

  ghost predicate GhostInvariant(s: System) {
    var t, p := s.tables, s.phase;
    && NoGhosts(t)
    && (forall m, r :: t.models != map[] && HasTraces(t, m, r) ==> m in t.models)
    && (!p.Stopped? ==> p.key in t.models)
    && (p.Embedding? && Busy(p) ==> Live(t, p.rows[0].record) || Signals(t, p.rows[0].record, Retire))
  }

  /** Restoring only what was not forgotten, or what left nothing behind. */
  ghost predicate RestoresStored(s: System, a: Action) {
    a.Unhide? ==> forall r :: r in a.records && r in s.tables.deleted ==>
      && (forall m :: m in s.tables.models ==> !HasTraces(s.tables, m, r))
      && !(s.phase.Embedding? && Busy(s.phase) && s.phase.rows[0].record == r)
  }

  ghost predicate RestoresOnlyStored(s: System, actions: seq<Action>)
    requires IsRun(s, actions)
    decreases |actions|
  {
    actions == [] || (RestoresStored(s, actions[0]) && RestoresOnlyStored(Step(s, actions[0]), actions[1..]))
  }

  // ---- transaction facts --------------------------------------------------

  lemma {:induction false} RetirementsTakenEffect(t: Tables, rows: seq<Row>)
    requires forall i :: 0 <= i < |rows| ==> rows[i].record in t.work && t.work[rows[i].record].revision == rows[i].revision
    requires forall i, j :: 0 <= i < j < |rows| ==> rows[i].record != rows[j].record
    ensures
      var u := RetirementsTaken(t, rows);
      && SameArchive(t, u) && u.clock == t.clock && u.models == t.models
      && (forall r :: r in u.work <==> r in t.work && !Listed(rows, r))
      && (forall r :: r in u.work ==> u.work[r] == t.work[r])
      && (forall k :: k in u.owed <==> k in t.owed && !Listed(rows, k.1))
      && (forall k :: k in u.owed ==> u.owed[k] == t.owed[k])
      && (forall d :: d in u.done <==> d in t.done && !Listed(rows, d.1))
      && (forall c :: c in u.chunks <==> c in t.chunks && !Listed(rows, c.record))
  {
    if rows != [] {
      var n := |rows| - 1;
      RetirementsTakenEffect(t, rows[..n]);
      ListedAfter(rows[..n], rows[n]);
      assert rows[..n] + [rows[n]] == rows;
      assert !Listed(rows[..n], rows[n].record);
    }
  }

  lemma {:induction false} DistributedEffect(t: Tables, models: seq<ModelKey>, rows: seq<Row>)
    requires forall i :: 0 <= i < |rows| ==> rows[i].record in t.work && t.work[rows[i].record].revision == rows[i].revision
    requires forall i, j :: 0 <= i < j < |rows| ==> rows[i].record != rows[j].record
    ensures
      var u := Distributed(t, models, rows);
      && SameArchive(t, u) && SameVectors(t, u) && u.clock == t.clock && u.models == t.models
      && (forall r :: r in u.work <==> r in t.work && !Listed(rows, r))
      && (forall r :: r in u.work ==> u.work[r] == t.work[r])
      && (forall k :: k in t.owed ==> k in u.owed && u.owed[k].revision >= t.owed[k].revision)
      && (forall k :: k in u.owed && !(k in t.owed && u.owed[k] == t.owed[k]) ==>
            k.0 in models && k.1 in t.work && Listed(rows, k.1) && u.owed[k].revision == t.work[k.1].revision)
      && (forall m: ModelKey, r: RecordId :: m in models && Listed(rows, r) ==> (m, r) in t.done || (m, r) in u.owed)
  {
    if rows != [] {
      var n := |rows| - 1;
      DistributedEffect(t, models, rows[..n]);
      ListedAfter(rows[..n], rows[n]);
      assert rows[..n] + [rows[n]] == rows;
      assert !Listed(rows[..n], rows[n].record);
    }
  }

  // ---- every step keeps coverage ------------------------------------------

  lemma WriterKeepsCoverage(s: System, a: Action)
    requires CoverageInvariant(s) && Enabled(s, a)
    requires a.Ingest? || a.Hide? || a.Forget? || a.Unhide?
    ensures CoverageInvariant(Step(s, a))
  {
    var u := Step(s, a).tables;
    forall m: ModelKey, r: RecordId | m in u.models && Live(u, r) ensures Covered(u, m, r) {
      assert Live(s.tables, r) ==> Covered(s.tables, m, r);
    }
  }

  lemma OpenKeepsCoverage(s: System, a: Action)
    requires CoverageInvariant(s) && Enabled(s, a) && a.Open?
    ensures CoverageInvariant(Step(s, a))
  {
    var t, u := s.tables, Step(s, a).tables;
    forall m: ModelKey, r: RecordId | m in u.models && Live(u, r) ensures Covered(u, m, r) {
      if m in Unreconciled(t, a.key, a.legacy) {
        assert Missing(t, m, r) || (m, r) in t.done;
      } else {
        assert Covered(t, m, r);
      }
    }
  }

  lemma RetirementsKeepCoverage(s: System, a: Action)
    requires CoverageInvariant(s) && Enabled(s, a) && a.TakeRetirements?
    ensures CoverageInvariant(Step(s, a))
  {
    var t, u := s.tables, Step(s, a).tables;
    RetirementsTakenEffect(t, a.rows);
    forall m, r | m in u.models && Live(u, r) ensures Covered(u, m, r) {
      assert Covered(t, m, r);
      assert !Listed(a.rows, r);
    }
  }

  lemma DistributionCovers(t: Tables, models: seq<ModelKey>, rows: seq<Row>, m: ModelKey, r: RecordId)
    requires IsOldestBatchOf(t, rows) && m in models && Covered(t, m, r)
    ensures Covered(Distributed(t, models, rows), m, r)
  {
    DistributedEffect(t, models, rows);
  }

  /** The rows are signals as they stand in the queue. */
  ghost predicate IsOldestBatchOf(t: Tables, rows: seq<Row>) {
    && (forall i :: 0 <= i < |rows| ==> rows[i].record in t.work && t.work[rows[i].record].revision == rows[i].revision)
    && (forall i, j :: 0 <= i < j < |rows| ==> rows[i].record != rows[j].record)
  }

  lemma DistributionKeepsQueue(t: Tables, models: seq<ModelKey>, rows: seq<Row>)
    requires IsOldestBatchOf(t, rows) && QueueAgrees(t)
    ensures QueueAgrees(Distributed(t, models, rows))
    ensures SameArchive(t, Distributed(t, models, rows)) && Distributed(t, models, rows).models == t.models
  {
    DistributedEffect(t, models, rows);
  }

  lemma DistributionKeepsCoverage(s: System, a: Action)
    requires CoverageInvariant(s) && Enabled(s, a) && a.Distribute?
    ensures CoverageInvariant(Step(s, a))
  {
    var t, u := s.tables, Step(s, a).tables;
    assert IsOldestBatchOf(t, a.rows);
    DistributionKeepsQueue(t, a.models, a.rows);
    forall m, r | m in u.models && Live(u, r) ensures Covered(u, m, r) {
      assert Covered(t, m, r);
      DistributionCovers(t, a.models, a.rows, m, r);
    }
  }

  lemma RecordKeepsCoverage(s: System, a: Action)
    requires CoverageInvariant(s) && Enabled(s, a) && KeepsCompletion(s, a)
    requires a.EraseGhost? || a.Embed? || a.Acknowledge? || a.BackOff?
    ensures CoverageInvariant(Step(s, a))
  {
    var t, u := s.tables, Step(s, a).tables;
    var rows := s.phase.rows;
    assert forall i :: 0 <= i < |rows| - 1 ==> rows[1..][i] == rows[i + 1];
    forall m: ModelKey, r: RecordId | m in u.models && Live(u, r) ensures Covered(u, m, r) {
      assert Covered(t, m, r);
    }
  }

  lemma CoverageStep(s: System, a: Action)
    requires CoverageInvariant(s) && Enabled(s, a) && KeepsCompletion(s, a)
    ensures CoverageInvariant(Step(s, a))
  {
    if a.Ingest? || a.Hide? || a.Forget? || a.Unhide? {
      WriterKeepsCoverage(s, a);
    } else if a.Open? {
      OpenKeepsCoverage(s, a);
    } else if a.TakeRetirements? {
      RetirementsKeepCoverage(s, a);
    } else if a.Distribute? {
      DistributionKeepsCoverage(s, a);
    } else if a.EraseGhost? || a.Embed? || a.Acknowledge? || a.BackOff? {
      RecordKeepsCoverage(s, a);
    }
  }

  lemma {:induction false} CoverageOverRun(s: System, actions: seq<Action>)
    requires CoverageInvariant(s) && IsRun(s, actions) && KeepsCompletions(s, actions)
    ensures CoverageInvariant(After(s, actions))
    decreases |actions|
  {
    if actions != [] {
      CoverageStep(s, actions[0]);
      CoverageOverRun(Step(s, actions[0]), actions[1..]);
    }
  }

  /**
   Index coverage: whatever the writers, failures and crashes, every registered
   model and every live visible record is completed, owed, or signalled.
   */
  lemma IndexCoverage(s: System, actions: seq<Action>)
    requires Initial(s) && IsRun(s, actions) && KeepsCompletions(s, actions)
    ensures Coverage(After(s, actions).tables)
  {
    CoverageOverRun(s, actions);
  }

  // ---- every step keeps ghosts accounted for ------------------------------

  lemma GhostWriterStep(s: System, a: Action)
    requires GhostInvariant(s) && Enabled(s, a) && RestoresStored(s, a)
    requires a.Ingest? || a.Hide? || a.Forget? || a.Unhide?
    ensures GhostInvariant(Step(s, a))
  {
    var t, u := s.tables, Step(s, a).tables;
    forall m, r | m in u.models && HasTraces(u, m, r) && !Live(u, r) ensures Signals(u, r, Retire) {
      assert HasTraces(t, m, r);
    }
    forall m, r | u.models != map[] && HasTraces(u, m, r) ensures m in u.models {
      assert HasTraces(t, m, r);
    }
  }

  lemma GhostOpenStep(s: System, a: Action)
    requires GhostInvariant(s) && Enabled(s, a) && a.Open?
    ensures GhostInvariant(Step(s, a))
  {
    var t, u := s.tables, Step(s, a).tables;
    var adopted := Unreconciled(t, a.key, a.legacy);
    forall m, r | HasTraces(u, m, r) ensures m in u.models && (!Live(u, r) ==> Signals(u, r, Retire)) {
      assert HasTraces(t, m, r);
      if m !in t.models {
        assert m in adopted;
      }
      if !Live(t, r) && m in adopted {
        assert IsGhost(t, adopted, r);
      }
    }
  }

  lemma GhostIndexerStep(s: System, a: Action)
    requires GhostInvariant(s) && Enabled(s, a)
    requires !(a.Ingest? || a.Hide? || a.Forget? || a.Unhide? || a.Open?)
    ensures GhostInvariant(Step(s, a))
  {
    var t, u := s.tables, Step(s, a).tables;
    if a.TakeRetirements? {
      RetirementsTakenEffect(t, a.rows);
    } else if a.Distribute? {
      DistributedEffect(t, a.models, a.rows);
    }
    forall m, r | HasTraces(u, m, r)
      ensures (u.models != map[] ==> m in u.models) && (m in u.models && !Live(u, r) ==> Signals(u, r, Retire))
    {
      assert HasTraces(t, m, r) || ((a.Embed? || a.Acknowledge?) && m == s.phase.key && r == s.phase.rows[0].record);
    }
  }

  lemma {:induction false} GhostsOverRun(s: System, actions: seq<Action>)
    requires GhostInvariant(s) && IsRun(s, actions) && RestoresOnlyStored(s, actions)
    ensures GhostInvariant(After(s, actions))
    decreases |actions|
  {
    if actions != [] {
      var a := actions[0];
      if a.Ingest? || a.Hide? || a.Forget? || a.Unhide? {
        GhostWriterStep(s, a);
      } else if a.Open? {
        GhostOpenStep(s, a);
      } else {
        GhostIndexerStep(s, a);
      }
      GhostsOverRun(Step(s, a), actions[1..]);
    }
  }

  /**
   No ghosts: vectors or marks of a record that is not live and visible always
   have a retirement waiting, even when the record was hidden while it was
   being embedded, or the process died right after the vectors were stored.
   */
  lemma GhostsAreQueued(s: System, actions: seq<Action>)
    requires Initial(s) && IsRun(s, actions) && RestoresOnlyStored(s, actions)
    ensures NoGhosts(After(s, actions).tables)
  {
    GhostsOverRun(s, actions);
  }

  // ---- exactly when they hold ---------------------------------------------

  /** An un-hide that is not of stored records only leaves one of them unaccounted for. */
  lemma UnstoredRestoreBreaks(s: System, a: Action)
    requires GhostInvariant(s) && Enabled(s, a) && !RestoresStored(s, a)
    ensures !GhostInvariant(Step(s, a))
  {
    var t, u := s.tables, Step(s, a).tables;
    var r :| r in a.records && r in t.deleted
      && ((exists m :: m in t.models && HasTraces(t, m, r)) || (s.phase.Embedding? && Busy(s.phase) && s.phase.rows[0].record == r));
    assert !Live(u, r) && !Signals(u, r, Retire);
    if m :| m in t.models && HasTraces(t, m, r) {
      assert HasTraces(u, m, r);
    }
  }

  /** One step keeps ghosts accounted for exactly when it restores only what is stored. */
  lemma GhostStepExactly(s: System, a: Action)
    requires GhostInvariant(s) && Enabled(s, a)
    ensures GhostInvariant(Step(s, a)) <==> RestoresStored(s, a)
  {
    if !RestoresStored(s, a) {
      UnstoredRestoreBreaks(s, a);
    } else if a.Ingest? || a.Hide? || a.Forget? || a.Unhide? {
      GhostWriterStep(s, a);
    } else if a.Open? {
      GhostOpenStep(s, a);
    } else {
      GhostIndexerStep(s, a);
    }
  }

  ghost predicate GhostsThroughout(s: System, actions: seq<Action>)
    requires IsRun(s, actions)
    decreases |actions|
  {
    GhostInvariant(s) && (actions == [] || GhostsThroughout(Step(s, actions[0]), actions[1..]))
  }

  /** Over a whole run: ghosts stay accounted for at every point exactly when every restore is of stored records. */
  lemma {:induction false} GhostRunExactly(s: System, actions: seq<Action>)
    requires GhostInvariant(s) && IsRun(s, actions)
    ensures GhostsThroughout(s, actions) <==> RestoresOnlyStored(s, actions)
    decreases |actions|
  {
    if actions != [] {
      GhostStepExactly(s, actions[0]);
      if RestoresStored(s, actions[0]) {
        GhostRunExactly(Step(s, actions[0]), actions[1..]);
      }
    }
  }

  /** The break shows: at once, or as soon as the record being embedded gets its vectors. */
  lemma UnstoredRestoreLeavesGhost(s: System, a: Action, starts: set<nat>)
    requires GhostInvariant(s) && Enabled(s, a) && !RestoresStored(s, a) && starts != {}
    ensures !NoGhosts(Step(s, a).tables) ||
            (Enabled(Step(s, a), Embed(starts)) && !NoGhosts(Step(Step(s, a), Embed(starts)).tables))
  {
    var t, u := s.tables, Step(s, a).tables;
    var r :| r in a.records && r in t.deleted
      && ((exists m :: m in t.models && HasTraces(t, m, r)) || (s.phase.Embedding? && Busy(s.phase) && s.phase.rows[0].record == r));
    assert !Live(u, r) && !Signals(u, r, Retire);
    if m :| m in t.models && HasTraces(t, m, r) {
      assert HasTraces(u, m, r);
    } else {
      var v := Step(Step(s, a), Embed(starts)).tables;
      var start :| start in starts;
      assert Chunk(s.phase.key, r, start) in v.chunks;
      assert HasTraces(v, s.phase.key, r);
    }
  }

  // ---- the handler that can break coverage --------------------------------

  /**
   Exactly when the handler of a failed clean-up breaks coverage: when the
   record it un-completes is live and nothing else would re-queue it.
   */
  lemma CleanupFailureBreaksExactly(s: System, a: Action)
    requires CoverageInvariant(s) && Enabled(s, a) && a.BackOff?
    ensures Coverage(Step(s, a).tables) <==> KeepsCompletion(s, a)
  {
    if KeepsCompletion(s, a) {
      CoverageStep(s, a);
    } else {
      var u := Step(s, a).tables;
      assert Live(u, s.phase.rows[0].record) && !Covered(u, s.phase.key, s.phase.rows[0].record);
    }
  }

  /** One step keeps coverage exactly when it keeps the completion. */
  lemma CoverageStepExactly(s: System, a: Action)
    requires CoverageInvariant(s) && Enabled(s, a)
    ensures CoverageInvariant(Step(s, a)) <==> KeepsCompletion(s, a)
  {
    if KeepsCompletion(s, a) {
      CoverageStep(s, a);
    } else {
      CleanupFailureBreaksExactly(s, a);
    }
  }

  ghost predicate CoverageThroughout(s: System, actions: seq<Action>)
    requires IsRun(s, actions)
    decreases |actions|
  {
    CoverageInvariant(s) && (actions == [] || CoverageThroughout(Step(s, actions[0]), actions[1..]))
  }

  /** Over a whole run: coverage holds at every point exactly when no handler takes a completion away for good. */
  lemma {:induction false} CoverageRunExactly(s: System, actions: seq<Action>)
    requires CoverageInvariant(s) && IsRun(s, actions)
    ensures CoverageThroughout(s, actions) <==> KeepsCompletions(s, actions)
    decreases |actions|
  {
    if actions != [] {
      CoverageStepExactly(s, actions[0]);
      if KeepsCompletion(s, actions[0]) {
        CoverageRunExactly(Step(s, actions[0]), actions[1..]);
      }
    }
  }

  // ---- what a step does to obligations ------------------------------------

  /** The queues agree with the clock and with what the indexer carries, whatever happened to completions. */
  ghost predicate QueueInvariant(s: System) {
    QueueAgrees(s.tables) && (forall m :: m in s.tables.models ==> s.tables.models[m]) && PhaseAgrees(s)
  }

  lemma WriterKeepsQueues(s: System, a: Action)
    requires QueueInvariant(s) && Enabled(s, a) && (a.Ingest? || a.Hide? || a.Forget? || a.Unhide?)
    ensures QueueInvariant(Step(s, a))
  {
  }

  lemma OpenKeepsQueues(s: System, a: Action)
    requires QueueInvariant(s) && Enabled(s, a) && a.Open?
    ensures QueueInvariant(Step(s, a))
  {
  }

  lemma RetirementsKeepQueues(s: System, a: Action)
    requires QueueInvariant(s) && Enabled(s, a) && a.TakeRetirements?
    ensures QueueInvariant(Step(s, a))
  {
    RetirementsTakenEffect(s.tables, a.rows);
  }

  lemma DistributionKeepsQueues(s: System, a: Action)
    requires QueueInvariant(s) && Enabled(s, a) && a.Distribute?
    ensures QueueInvariant(Step(s, a))
  {
    assert IsOldestBatchOf(s.tables, a.rows);
    DistributionKeepsQueue(s.tables, a.models, a.rows);
  }

  lemma LoadKeepsQueues(s: System, a: Action)
    requires QueueInvariant(s) && Enabled(s, a) && a.Load?
    ensures QueueInvariant(Step(s, a))
  {
  }

  lemma RecordKeepsQueues(s: System, a: Action)
    requires QueueInvariant(s) && Enabled(s, a)
    requires !(a.Ingest? || a.Hide? || a.Forget? || a.Unhide? || a.Open? || a.TakeRetirements? || a.Distribute? || a.Load?)
    ensures QueueInvariant(Step(s, a))
  {
    if Busy(s.phase) {
      var rows := s.phase.rows;
      assert forall i :: 0 <= i < |rows| - 1 ==> rows[1..][i] == rows[i + 1];
    }
  }

  lemma StepKeepsQueues(s: System, a: Action)
    requires QueueInvariant(s) && Enabled(s, a)
    ensures QueueInvariant(Step(s, a))
  {
    if a.Ingest? || a.Hide? || a.Forget? || a.Unhide? {
      WriterKeepsQueues(s, a);
    } else if a.Open? {
      OpenKeepsQueues(s, a);
    } else if a.TakeRetirements? {
      RetirementsKeepQueues(s, a);
    } else if a.Distribute? {
      DistributionKeepsQueues(s, a);
    } else if a.Load? {
      LoadKeepsQueues(s, a);
    } else {
      RecordKeepsQueues(s, a);
    }
  }

  lemma {:induction false} QueuesOverRun(s: System, actions: seq<Action>)
    requires QueueInvariant(s) && IsRun(s, actions)
    ensures QueueInvariant(After(s, actions))
    decreases |actions|
  {
    if actions != [] {
      StepKeepsQueues(s, actions[0]);
      QueuesOverRun(Step(s, actions[0]), actions[1..]);
    }
  }

  /** The step takes the obligation out of its model's queue. */
  ghost predicate Discharges(s: System, a: Action, k: (ModelKey, RecordId))
    requires Enabled(s, a)
  {
    k in s.tables.owed && k !in Step(s, a).tables.owed
  }

  /** It was fulfilled: the processed row at the processed revision, and the record is complete now. */
  ghost predicate IsFulfilled(s: System, a: Action, k: (ModelKey, RecordId))
    requires Enabled(s, a)
  {
    && a.Acknowledge? && k == (s.phase.key, s.phase.rows[0].record) && k in s.tables.owed
    && s.tables.owed[k].revision == s.phase.rows[0].revision && k in Step(s, a).tables.done
  }

  /** It came back while the erasure was on its way: the shared row asks for it again, and stays. */
  ghost predicate AsksAgain(s: System, a: Action, r: RecordId)
    requires Enabled(s, a)
  {
    a.EraseGhost? && Signals(s.tables, r, Index) && Signals(Step(s, a).tables, r, Index)
  }

  /** Why an obligation went, and which revision it had when the indexer's own record took it along. */
  ghost predicate IsAccountedFor(s: System, a: Action, k: (ModelKey, RecordId))
    requires Enabled(s, a)
  {
    && (!Live(s.tables, k.1) || IsFulfilled(s, a, k) || AsksAgain(s, a, k.1))
    && (k in s.tables.owed && (a.EraseGhost? || a.Acknowledge?) ==>
          && k.1 == s.phase.rows[0].record
          && (k.0 == s.phase.key ==> s.tables.owed[k].revision == s.phase.rows[0].revision))
  }

  lemma DischargeIsAccountedFor(s: System, a: Action, k: (ModelKey, RecordId))
    requires QueueInvariant(s) && Enabled(s, a) && Discharges(s, a, k)
    ensures IsAccountedFor(s, a, k)
  {
    if a.TakeRetirements? {
      RetirementsTakenEffect(s.tables, a.rows);
    } else if a.Distribute? {
      assert IsOldestBatchOf(s.tables, a.rows);
      DistributedEffect(s.tables, a.models, a.rows);
    }
  }

  /**
   No newer revision is lost, over any run: an obligation leaves a queue only
   because its record is gone, or asks again, or was completed at exactly the
   revision processed.  What the indexer's own record takes out of the active
   model's queue never carries another revision than the one it read; another
   model's obligation goes with it only when the record is gone or asks again.
   */
  lemma NewerRevisionSurvives(s: System, actions: seq<Action>, a: Action, k: (ModelKey, RecordId))
    requires Initial(s) && IsRun(s, actions) && Enabled(After(s, actions), a) && Discharges(After(s, actions), a, k)
    ensures IsAccountedFor(After(s, actions), a, k)
  {
    QueuesOverRun(s, actions);
    DischargeIsAccountedFor(After(s, actions), a, k);
  }

  lemma QueueStepNeverFalls(s: System, a: Action, k: (ModelKey, RecordId))
    requires QueueInvariant(s) && Enabled(s, a) && (a.TakeRetirements? || a.Distribute?)
    requires k in s.tables.owed && k in Step(s, a).tables.owed
    ensures Step(s, a).tables.owed[k].revision >= s.tables.owed[k].revision
  {
    if a.TakeRetirements? {
      RetirementsTakenEffect(s.tables, a.rows);
    } else {
      assert IsOldestBatchOf(s.tables, a.rows);
      DistributedEffect(s.tables, a.models, a.rows);
    }
  }

  lemma OtherStepNeverFalls(s: System, a: Action, k: (ModelKey, RecordId))
    requires QueueInvariant(s) && Enabled(s, a) && !a.TakeRetirements? && !a.Distribute?
    requires k in s.tables.owed && k in Step(s, a).tables.owed
    ensures Step(s, a).tables.owed[k].revision >= s.tables.owed[k].revision
  {
  }

  /** Obligations that stay never fall back to an older revision. */
  lemma RevisionsNeverFall(s: System, actions: seq<Action>, a: Action, k: (ModelKey, RecordId))
    requires Initial(s) && IsRun(s, actions) && Enabled(After(s, actions), a)
    requires k in After(s, actions).tables.owed && k in Step(After(s, actions), a).tables.owed
    ensures Step(After(s, actions), a).tables.owed[k].revision >= After(s, actions).tables.owed[k].revision
  {
    QueuesOverRun(s, actions);
    if a.TakeRetirements? || a.Distribute? {
      QueueStepNeverFalls(After(s, actions), a, k);
    } else {
      OtherStepNeverFalls(After(s, actions), a, k);
    }
  }
}
