/**
 The indexer itself: the queue operations canonical writers call, activation,
 and one indexing pass, working on the durable tables statement by statement.
 Each operation is proved to have the effect that `SemanticRuns` reasons about,
 and a pass without failures is proved to drain the queues.
 */
module SemanticIndexing {
  import opened SemanticTables
  import opened SemanticRuns

  /** What the embedding model and the running accelerator do with one record. */
  datatype Outcome =
    | Indexed(starts: set<nat>)
    | EmbeddingFails
    | PublishingFails(starts: set<nat>)

  /** The answers of the four queries of one pass. */
  datatype Pass = Pass(retired: seq<Row>, models: seq<ModelKey>, signals: seq<Row>, owed: seq<Row>)

  /** One record taken through inspection, embedding, publication and acknowledgment. */
  function Processed(t: Tables, key: ModelKey, row: Row, outcome: Outcome, until: Instant): Tables {
    match Inspected(t, key, [row])
    case Erasing(_, _) => Erased(t, row.record)
    case Publishing(_, _) =>
      if outcome.PublishingFails? then BackedOff(t, key, row, until) else Acknowledged(t, key, row)
    case Embedding(_, _) =>
      (match outcome
       case Indexed(starts) => Acknowledged(Persisted(t, key, row.record, starts), key, row)
       case EmbeddingFails => BackedOff(t, key, row, until)
       case PublishingFails(starts) => BackedOff(Persisted(t, key, row.record, starts), key, row, until))
    case _ => t
  }

  function ProcessedAll(t: Tables, key: ModelKey, rows: seq<Row>, outcomes: RecordId -> Outcome, until: Instant): Tables {
    if rows == [] then t
    else
      var row := rows[|rows| - 1];
      Processed(ProcessedAll(t, key, rows[..|rows| - 1], outcomes, until), key, row, outcomes(row.record), until)
  }

  function Fanned(t: Tables, pass: Pass): Tables {
    if pass.models == [] then t else Distributed(t, pass.models, pass.signals)
  }

  ghost predicate IsPass(t: Tables, key: ModelKey, due: Instant, batch: nat, pass: Pass) {
    var t1 := RetirementsTaken(t, pass.retired);
    && IsOldestBatch(DueSignals(t.work, Retire, due), batch, pass.retired)
    && (forall m :: m in pass.models <==> m in t.models)
    && (pass.models != [] ==> IsOldestBatch(DueSignals(t1.work, Index, due), batch, pass.signals))
    && IsOldestBatch(DueOwed(Fanned(t1, pass).owed, key, due), batch, pass.owed)
  }

  function Passed(t: Tables, key: ModelKey, pass: Pass, outcomes: RecordId -> Outcome, until: Instant): Tables {
    ProcessedAll(Fanned(RetirementsTaken(t, pass.retired), pass), key, pass.owed, outcomes, until)
  }

  /** The model holds something of the record already. */
  predicate IsStored(t: Tables, key: ModelKey, r: RecordId) {
    (key, r) in t.done || exists c :: c in t.chunks && c.model == key && c.record == r
  }

  /** A live record without traces gets one vector for each start; a gone record loses all; nothing else moves. */
  ghost predicate StoresVectors(t: Tables, u: Tables, key: ModelKey, r: RecordId, outcome: Outcome) {
    forall c: Chunk ::
      c in u.chunks <==>
        if c.record != r then c in t.chunks
        else if !Live(t, r) then false
        else if c.model == key && !IsStored(t, key, r) then !outcome.EmbeddingFails? && c.start in outcome.starts
        else c in t.chunks
  }

  /** Success completes the record and takes exactly the revision that was processed; failure leaves both as they were. */
  predicate Closes(t: Tables, u: Tables, key: ModelKey, row: Row, failed: bool) {
    var k := (key, row.record);
    if !Live(t, row.record) then !failed && forall d :: d in u.done + u.owed.Keys ==> d.1 != row.record
    else if failed || (k in t.owed && t.owed[k].revision != row.revision) then u.done == t.done && u.owed == t.owed
    else u.done == t.done + {k} && u.owed == t.owed - {k}
  }

  /** The rows are due signals of the kind, and what is due and not among them is newer than a full batch. */
  ghost predicate TakesDue(work: map<RecordId, Signal>, kind: Kind, due: Instant, batch: nat, rows: seq<Row>) {
    && (forall i :: 0 <= i < |rows| ==>
          && rows[i].record in work && work[rows[i].record].kind == kind
          && work[rows[i].record].availableAt <= due && work[rows[i].record].revision == rows[i].revision)
    && (forall r :: r in work && work[r].kind == kind && work[r].availableAt <= due && !Listed(rows, r) ==>
          |rows| == batch && forall i :: 0 <= i < |rows| ==> rows[i].revision <= work[r].revision)
  }

  lemma OldestTakesDue(work: map<RecordId, Signal>, kind: Kind, due: Instant, batch: nat, rows: seq<Row>)
    requires IsOldestBatch(DueSignals(work, kind, due), batch, rows)
    ensures TakesDue(work, kind, due, batch, rows)
  {
    forall r | r in work && work[r].kind == kind && work[r].availableAt <= due && !Listed(rows, r)
      ensures |rows| == batch && forall i :: 0 <= i < |rows| ==> rows[i].revision <= work[r].revision
    {
      assert r in DueSignals(work, kind, due);
    }
  }

  /** Likewise for a model's own queue. */
  ghost predicate TakesOwed(
      owed: map<(ModelKey, RecordId), Obligation>, key: ModelKey, due: Instant, batch: nat, rows: seq<Row>) {
    && (forall i :: 0 <= i < |rows| ==>
          && (key, rows[i].record) in owed && owed[(key, rows[i].record)].availableAt <= due
          && owed[(key, rows[i].record)].revision == rows[i].revision)
    && (forall k :: k in owed && k.0 == key && owed[k].availableAt <= due && !Listed(rows, k.1) ==>
          |rows| == batch && forall i :: 0 <= i < |rows| ==> rows[i].revision <= owed[k].revision)
  }

  lemma OldestTakesOwed(
      owed: map<(ModelKey, RecordId), Obligation>, key: ModelKey, due: Instant, batch: nat, rows: seq<Row>)
    requires IsOldestBatch(DueOwed(owed, key, due), batch, rows)
    ensures TakesOwed(owed, key, due, batch, rows)
  {
    forall k | k in owed && k.0 == key && owed[k].availableAt <= due && !Listed(rows, k.1)
      ensures |rows| == batch && forall i :: 0 <= i < |rows| ==> rows[i].revision <= owed[k].revision
    {
      assert k.1 in DueOwed(owed, key, due);
    }
  }

  class SemanticIndex {
    const key: ModelKey
    var records: set<RecordId>
    var deleted: set<RecordId>
    var hidden: set<RecordId>
    var clock: nat
    var work: map<RecordId, Signal>
    var models: map<ModelKey, bool>
    var owed: map<(ModelKey, RecordId), Obligation>
    var done: set<(ModelKey, RecordId)>
    var chunks: set<Chunk>

    ghost function State(): Tables
      reads this
    {
      Tables(records, deleted, hidden, clock, work, models, owed, done, chunks)
    }

    constructor (key: ModelKey, stored: Tables)
      ensures this.key == key && State() == stored
    {
      this.key := key;
      records, deleted, hidden := stored.records, stored.deleted, stored.hidden;
      clock, work, models := stored.clock, stored.work, stored.models;
      owed, done, chunks := stored.owed, stored.done, stored.chunks;
    }

    // ---- queue operations -------------------------------------------------

    method SignalRow(kind: Kind, r: RecordId)
      modifies this`clock, this`work
      ensures State() == Signalled(old(State()), kind, r)
      ensures clock == old(clock) + 1 && work == old(work)[r := Signal(kind, clock, 0)]
    {
      clock := clock + 1;
      work := work[r := Signal(kind, clock, 0)];
    }

    method Enqueue(kind: Kind, rs: seq<RecordId>)
      modifies this`clock, this`work
      ensures State() == Enqueued(old(State()), kind, rs)
    {
      for i := 0 to |rs|
        invariant State() == Enqueued(old(State()), kind, rs[..i])
      {
        assert rs[..i + 1][..i] == rs[..i];
        SignalRow(kind, rs[i]);
      }
      assert rs[..|rs|] == rs;
    }

    method ModelUpsert(m: ModelKey, r: RecordId, revision: nat)
      modifies this`owed
      ensures State() == ModelUpserted(old(State()), m, r, revision)
      ensures (m, r) in old(owed) && revision < old(owed)[(m, r)].revision ==> owed == old(owed)
      ensures !((m, r) in old(owed) && revision < old(owed)[(m, r)].revision) ==> owed == old(owed)[(m, r) := Obligation(revision, 0, 0)]
    {
      if (m, r) !in owed || owed[(m, r)].revision <= revision {
        owed := owed[(m, r) := Obligation(revision, 0, 0)];
      }
    }

    method RetireRecord(r: RecordId)
      modifies this`chunks, this`done, this`owed
      ensures State() == Erased(old(State()), r)
      ensures forall c :: c in chunks <==> c in old(chunks) && c.record != r
      ensures forall d :: d in done <==> d in old(done) && d.1 != r
      ensures forall k :: k in owed <==> k in old(owed) && k.1 != r
    {
      chunks := set c | c in chunks && c.record != r;
      done := set d | d in done && d.1 != r;
      owed := map k | k in owed && k.1 != r :: owed[k];
    }

    method ConsumeSignal(row: Row)
      modifies this`work
      ensures State() == Consumed(old(State()), row)
      ensures work ==
              if row.record in old(work) && old(work)[row.record].revision == row.revision then old(work) - {row.record} else old(work)
    {
      if row.record in work && work[row.record].revision == row.revision {
        work := work - {row.record};
      }
    }

    // ---- activation -------------------------------------------------------

    /** Live records the model has not completed become its own obligations. */
    method AdoptMissing(m: ModelKey)
      requires OwedClocked(clock, owed)
      modifies this`clock, this`owed
      ensures OwedReconciled(old(State()), {m}, clock, owed)
    {
      var missing := set r | r in records && r !in deleted && r !in hidden && (m, r) !in done;
      ghost var all := missing;
      while missing != {}
        invariant missing <= all && old(clock) <= clock
        invariant forall k :: k in owed <==> k in old(owed) || (k.0 == m && k.1 in all - missing)
        invariant forall k :: k in owed ==>
                    if k.0 == m && k.1 in all - missing then old(clock) < owed[k].revision <= clock && owed[k].availableAt == 0
                    else owed[k] == old(owed)[k]
      {
        var r :| r in missing;
        clock := clock + 1;
        ModelUpsert(m, r, clock);
        missing := missing - {r};
      }
    }

    /** Whatever the model still holds of records that are gone is put up for retirement. */
    method RetireGone(m: ModelKey)
      modifies this`clock, this`work
      ensures WorkReconciled(old(State()), {m}, clock, work)
    {
      var gone := (set c | c in chunks && c.model == m && !(c.record in records && c.record !in deleted && c.record !in hidden) :: c.record)
                  + (set d | d in done && d.0 == m && !(d.1 in records && d.1 !in deleted && d.1 !in hidden) :: d.1);
      ghost var ghosts := gone;
      forall r ensures r in ghosts <==> IsGhost(old(State()), {m}, r) {
        if IsGhost(old(State()), {m}, r) {
          assert HasTraces(old(State()), m, r);
        }
      }
      while gone != {}
        invariant gone <= ghosts && old(clock) <= clock
        invariant forall r :: r in work <==> r in old(work) || r in ghosts - gone
        invariant forall r :: r in work ==>
                    if r in ghosts - gone then work[r].kind == Retire && old(clock) < work[r].revision <= clock && work[r].availableAt == 0
                    else work[r] == old(work)[r]
      {
        var r :| r in gone;
        SignalRow(Retire, r);
        gone := gone - {r};
      }
    }

    method Reconcile(m: ModelKey)
      requires OwedClocked(clock, owed)
      modifies this`clock, this`owed, this`work
      ensures OwedReconciled(old(State()), {m}, clock, owed)
      ensures WorkReconciled(old(State()), {m}, clock, work)
      ensures OwedClocked(clock, owed)
    {
      AdoptMissing(m);
      ghost var middle := State();
      assert forall r :: IsGhost(middle, {m}, r) <==> IsGhost(old(State()), {m}, r);
      RetireGone(m);
    }

    /** Register this model, and every model older metadata still names. */
    method Register(legacy: set<ModelKey>) returns (unfinished: set<ModelKey>)
      modifies this`models
      ensures unfinished == Unreconciled(old(State()), key, legacy)
      ensures models.Keys == old(models).Keys + unfinished
      ensures forall m :: m in models ==> models[m] == (m !in unfinished)
    {
      var known := {key} + legacy + (set d | d in done :: d.0) + (set c | c in chunks :: c.model);
      models := models + map m | m in known && m !in models :: false;
      unfinished := set m | m in models && !models[m];
    }

    method Activate(legacy: set<ModelKey>)
      requires OwedClocked(clock, owed)
      modifies this`clock, this`owed, this`work, this`models
      ensures ActivatedTo(old(State()), key, legacy, State())
    {
      ghost var t := State();
      var unfinished := Register(legacy);
      ghost var adopted := unfinished;
      ReconcileAll(t, unfinished);
      AllRegistered(t.models, adopted, models);
    }

    /** Each unfinished model in turn. */
    method ReconcileAll(ghost t: Tables, adopted: set<ModelKey>)
      requires OwedClocked(clock, owed) && State() == t.(models := models)
      requires adopted <= models.Keys && forall m :: m in models ==> models[m] == (m !in adopted)
      modifies this`clock, this`owed, this`work, this`models
      ensures models.Keys == old(models).Keys && forall m :: m in models ==> models[m]
      ensures OwedReconciled(t, adopted, clock, owed) && WorkReconciled(t, adopted, clock, work) && OwedClocked(clock, owed)
    {
      var unfinished := adopted;
      NothingReconciled(t);
      while unfinished != {}
        invariant unfinished <= adopted && models.Keys == old(models).Keys
        invariant forall m :: m in models ==> models[m] == (m !in unfinished)
        invariant OwedReconciled(t, adopted - unfinished, clock, owed) && WorkReconciled(t, adopted - unfinished, clock, work)
        invariant OwedClocked(clock, owed)
      {
        var m :| m in unfinished;
        ReconcileOneMore(t, adopted - unfinished, m);
        assert adopted - (unfinished - {m}) == adopted - unfinished + {m};
        unfinished := unfinished - {m};
      }
      assert adopted - unfinished == adopted;
    }

    method ReconcileOneMore(ghost t: Tables, ghost adopted: set<ModelKey>, m: ModelKey)
      requires OwedClocked(clock, owed) && SameArchive(t, State()) && SameVectors(t, State())
      requires OwedReconciled(t, adopted, clock, owed) && WorkReconciled(t, adopted, clock, work)
      modifies this`clock, this`owed, this`work, this`models
      ensures OwedClocked(clock, owed) && models == old(models)[m := true]
      ensures OwedReconciled(t, adopted + {m}, clock, owed) && WorkReconciled(t, adopted + {m}, clock, work)
    {
      ghost var u := State();
      Reconcile(m);
      OwedInSequence(t, adopted, u, m, clock, owed);
      WorkInSequence(t, adopted, u, m, clock, work);
      models := models[m := true];
    }

    // ---- one indexing pass ------------------------------------------------

    /** The answer to a query ordered by revision and limited to `batch` rows. */
    static method SelectOldest(revisions: map<RecordId, nat>, batch: nat) returns (rows: seq<Row>)
      ensures IsOldestBatch(revisions, batch, rows)
    {
      rows := [];
      var left := revisions.Keys;
      while |rows| < batch && left != {}
        invariant |rows| <= batch && left <= revisions.Keys
        invariant forall r :: r in revisions ==> (r in left <==> !Listed(rows, r))
        invariant forall i :: 0 <= i < |rows| ==> rows[i].record in revisions && revisions[rows[i].record] == rows[i].revision
        invariant forall i, j :: 0 <= i < j < |rows| ==> rows[i].record != rows[j].record && rows[i].revision <= rows[j].revision
        invariant forall i, r :: 0 <= i < |rows| && r in left ==> rows[i].revision <= revisions[r]
        decreases left
      {
        OldestExists(left, revisions);
        var r :| r in left && forall x :: x in left ==> revisions[r] <= revisions[x];
        ListedAfter(rows, Row(r, revisions[r]));
        rows := rows + [Row(r, revisions[r])];
        left := left - {r};
      }
    }

    /** The due signals of one kind, oldest first; a delayed one waits for its time. */
    method SelectDue(kind: Kind, due: Instant, batch: nat) returns (rows: seq<Row>)
      ensures IsOldestBatch(DueSignals(work, kind, due), batch, rows) && TakesDue(work, kind, due, batch, rows)
    {
      rows := SelectOldest(DueSignals(work, kind, due), batch);
      OldestTakesDue(work, kind, due, batch, rows);
    }

    method TakeDueRetirements(due: Instant, batch: nat) returns (rows: seq<Row>)
      modifies this`chunks, this`done, this`owed, this`work
      ensures IsOldestBatch(DueSignals(old(work), Retire, due), batch, rows)
      ensures State() == RetirementsTaken(old(State()), rows)
    {
      rows := SelectDue(Retire, due, batch);
      for i := 0 to |rows|
        invariant State() == RetirementsTaken(old(State()), rows[..i])
      {
        assert rows[..i + 1][..i] == rows[..i];
        RetireRecord(rows[i].record);
        ConsumeSignal(rows[i]);
      }
      assert rows[..|rows|] == rows;
    }

    /** Give every listed model that has not completed the record its own obligation. */
    method FanOut(names: seq<ModelKey>, row: Row)
      modifies this`owed
      ensures State() == FannedOut(old(State()), names, row)
    {
      for i := 0 to |names|
        invariant State() == FannedOut(old(State()), names[..i], row)
      {
        assert names[..i + 1][..i] == names[..i];
        if (names[i], row.record) !in done {
          ModelUpsert(names[i], row.record, row.revision);
        }
      }
      assert names[..|names|] == names;
    }

    method DistributeDue(due: Instant, batch: nat, names: seq<ModelKey>) returns (rows: seq<Row>)
      requires forall m :: m in names <==> m in models
      modifies this`owed, this`work
      ensures names != [] ==> IsOldestBatch(DueSignals(old(work), Index, due), batch, rows)
      ensures State() == if names == [] then old(State()) else Distributed(old(State()), names, rows)
    {
      rows := [];
      if names != [] {
        rows := SelectDue(Index, due, batch);
        for i := 0 to |rows|
          invariant State() == Distributed(old(State()), names, rows[..i])
        {
          assert rows[..i + 1][..i] == rows[..i];
          FanOut(names, rows[i]);
          ConsumeSignal(rows[i]);
        }
        assert rows[..|rows|] == rows;
      }
    }

    /** Resolve one obligation; `failed` reports that an exception was raised. */
    method IndexRecord(row: Row, outcome: Outcome) returns (failed: bool)
      modifies this`chunks, this`done, this`owed
      ensures !failed ==> forall until :: State() == Processed(old(State()), key, row, outcome, until)
      ensures failed ==> forall until ::
                BackedOff(State(), key, row, until) == Processed(old(State()), key, row, outcome, until)
      ensures StoresVectors(old(State()), State(), key, row.record, outcome)
      ensures Closes(old(State()), State(), key, row, failed)
    {
      failed := false;
      var live := row.record in records && row.record !in deleted && row.record !in hidden;
      if !live {
        RetireRecord(row.record);
        return;
      }
      var known := (key, row.record) in done || exists c :: c in chunks && c.model == key && c.record == row.record;
      if !known && outcome.EmbeddingFails? {
        failed := true;
        return;
      }
      if !known {
        var starts := outcome.starts;
        chunks := chunks + set s | s in starts :: Chunk(key, row.record, s);
      }
      if outcome.PublishingFails? {
        failed := true;
        return;
      }
      if (key, row.record) !in owed || owed[(key, row.record)].revision == row.revision {
        done := done + {(key, row.record)};
        owed := owed - {(key, row.record)};
      }
    }

    method BackOffRow(row: Row, until: Instant)
      modifies this`done, this`owed
      ensures State() == BackedOff(old(State()), key, row, until)
      ensures done == old(done) - {(key, row.record)} && owed.Keys == old(owed).Keys
      ensures forall k :: k in owed && (k != (key, row.record) || old(owed)[k].revision != row.revision) ==> owed[k] == old(owed)[k]
      ensures (key, row.record) in owed && owed[(key, row.record)].revision == row.revision ==>
                var was := old(owed)[(key, row.record)];
                owed[(key, row.record)] == Obligation(was.revision, was.attempts + 1, until)
    {
      var k := (key, row.record);
      done := done - {k};
      if k in owed && owed[k].revision == row.revision {
        owed := owed[k := Obligation(row.revision, owed[k].attempts + 1, until)];
      }
    }

    /** The model's own due obligations, oldest first; a delayed one waits for its time. */
    method SelectOwed(due: Instant, batch: nat) returns (rows: seq<Row>)
      ensures IsOldestBatch(DueOwed(owed, key, due), batch, rows) && TakesOwed(owed, key, due, batch, rows)
    {
      rows := SelectOldest(DueOwed(owed, key, due), batch);
      OldestTakesOwed(owed, key, due, batch, rows);
    }

    /** One whole pass with no writer in between; returns what its queries selected. */
    method Sync(due: Instant, batch: nat, names: seq<ModelKey>, outcomes: RecordId -> Outcome, until: Instant)
      returns (pass: Pass)
      requires forall m :: m in names <==> m in models
      modifies this`chunks, this`done, this`owed, this`work
      ensures IsPass(old(State()), key, due, batch, pass)
      ensures State() == Passed(old(State()), key, pass, outcomes, until)
    {
      var retired := TakeDueRetirements(due, batch);
      var signals := DistributeDue(due, batch, names);
      var rows := LoadOwed(due, batch);
      pass := Pass(retired, names, signals, rows);
      ProcessRows(rows, outcomes, until);
    }

    /** What the loop below works through. */
    method LoadOwed(due: Instant, batch: nat) returns (rows: seq<Row>)
      ensures IsOldestBatch(DueOwed(owed, key, due), batch, rows)
    {
      rows := SelectOwed(due, batch);
    }

    /** The loop over the loaded obligations. */
    method ProcessRows(rows: seq<Row>, outcomes: RecordId -> Outcome, until: Instant)
      modifies this`chunks, this`done, this`owed
      ensures State() == ProcessedAll(old(State()), key, rows, outcomes, until)
    {
      ghost var start := State();
      for i := 0 to |rows|
        invariant State() == ProcessedAll(start, key, rows[..i], outcomes, until)
      {
        assert rows[..i + 1][..i] == rows[..i];
        var failed := IndexRecord(rows[i], outcomes(rows[i].record));
        if failed {
          BackOffRow(rows[i], until);
        }
      }
      assert rows[..|rows|] == rows;
    }
  }

  lemma {:induction false} OldestExists(left: set<RecordId>, revisions: map<RecordId, nat>)
    requires left != {} && left <= revisions.Keys
    ensures exists r :: r in left && forall x :: x in left ==> revisions[r] <= revisions[x]
    decreases |left|
  {
    var y :| y in left;
    if left != {y} {
      OldestExists(left - {y}, revisions);
      var r :| r in left - {y} && forall x :: x in left - {y} ==> revisions[r] <= revisions[x];
      var best := if revisions[r] <= revisions[y] then r else y;
      assert best in left && forall x :: x in left ==> revisions[best] <= revisions[x];
    }
  }

  lemma NothingReconciled(t: Tables)
    ensures OwedReconciled(t, {}, t.clock, t.owed) && WorkReconciled(t, {}, t.clock, t.work)
  {
  }

  lemma AllRegistered(before: map<ModelKey, bool>, adopted: set<ModelKey>, after: map<ModelKey, bool>)
    requires after.Keys == before.Keys + adopted
    requires (forall m :: m in after ==> after[m]) && (forall m :: m in before && m !in adopted ==> before[m])
    ensures after == Registered(before, adopted)
  {
  }

  /** Reconciling one more model extends what was reconciled before. */
  lemma OwedInSequence(t: Tables, adopted: set<ModelKey>, u: Tables, m: ModelKey, clock: nat,
                       owed: map<(ModelKey, RecordId), Obligation>)
    requires SameArchive(t, u) && SameVectors(t, u)
    requires OwedReconciled(t, adopted, u.clock, u.owed) && OwedReconciled(u, {m}, clock, owed)
    ensures OwedReconciled(t, adopted + {m}, clock, owed)
  {
    assert forall n: ModelKey, r: RecordId :: Missing(t, n, r) <==> Missing(u, n, r);
  }

  lemma WorkInSequence(t: Tables, adopted: set<ModelKey>, u: Tables, m: ModelKey, clock: nat, work: map<RecordId, Signal>)
    requires SameArchive(t, u) && SameVectors(t, u)
    requires WorkReconciled(t, adopted, u.clock, u.work) && WorkReconciled(u, {m}, clock, work)
    ensures WorkReconciled(t, adopted + {m}, clock, work)
  {
    forall r: RecordId ensures IsGhost(t, adopted + {m}, r) <==> IsGhost(t, adopted, r) || IsGhost(u, {m}, r) {
      assert forall n: ModelKey :: HasTraces(t, n, r) <==> HasTraces(u, n, r);
    }
  }
}
