/**
 The durable tables behind semantic indexing and the effect of each write
 transaction on them.  One shared row per record names the newest desired
 state, every registered model owns its own obligations, and all revisions
 come from one clock.
 */
module SemanticTables {
  type RecordId = nat
  type ModelKey = nat
  type Instant = int

  datatype Kind = Index | Retire

  /** A row of the shared queue. */
  datatype Signal = Signal(kind: Kind, revision: nat, availableAt: Instant)

  /** A row of one model's own queue. */
  datatype Obligation = Obligation(revision: nat, attempts: nat, availableAt: Instant)

  /** One stored vector, identified by model, record and start offset. */
  datatype Chunk = Chunk(model: ModelKey, record: RecordId, start: nat)

  /** What a query returned about one queued record. */
  datatype Row = Row(record: RecordId, revision: nat)

  datatype Tables = Tables(
    records: set<RecordId>,
    deleted: set<RecordId>,
    hidden: set<RecordId>,
    clock: nat,
    work: map<RecordId, Signal>,
    models: map<ModelKey, bool>,
    owed: map<(ModelKey, RecordId), Obligation>,
    done: set<(ModelKey, RecordId)>,
    chunks: set<Chunk>)

  predicate Live(t: Tables, r: RecordId) {
    r in t.records && r !in t.deleted && r !in t.hidden
  }

  predicate Signals(t: Tables, r: RecordId, kind: Kind) {
    r in t.work && t.work[r].kind == kind
  }

  /** A model still holds vectors or a completion mark for the record. */
  ghost predicate HasTraces(t: Tables, m: ModelKey, r: RecordId) {
    (m, r) in t.done || exists c :: c in t.chunks && c.model == m && c.record == r
  }

  predicate SameArchive(t: Tables, u: Tables) {
    t.records == u.records && t.deleted == u.deleted && t.hidden == u.hidden
  }

  predicate SameVectors(t: Tables, u: Tables) {
    t.done == u.done && t.chunks == u.chunks
  }

  // ---- shared queue -------------------------------------------------------

  function Signalled(t: Tables, kind: Kind, r: RecordId): Tables {
    t.(clock := t.clock + 1, work := t.work[r := Signal(kind, t.clock + 1, 0)])
  }

  /** Signal every listed record, in order, inside the caller's transaction. */
  function Enqueued(t: Tables, kind: Kind, rs: seq<RecordId>): (u: Tables)
    ensures SameArchive(t, u) && SameVectors(t, u) && u.models == t.models && u.owed == t.owed
    ensures u.clock == t.clock + |rs|
    ensures forall r :: r in u.work <==> r in t.work || r in rs
    ensures forall r :: r in rs ==> u.work[r].kind == kind && t.clock < u.work[r].revision <= u.clock && u.work[r].availableAt == 0
    ensures forall r :: r in t.work && r !in rs ==> u.work[r] == t.work[r]
  {
    if rs == [] then t else Signalled(Enqueued(t, kind, rs[..|rs| - 1]), kind, rs[|rs| - 1])
  }

  /** Delete a shared row, but only the revision that was processed. */
  function Consumed(t: Tables, row: Row): Tables {
    if row.record in t.work && t.work[row.record].revision == row.revision
    then t.(work := t.work - {row.record})
    else t
  }

  /** What a query ordered by revision and limited to `batch` rows may return. */
  ghost predicate IsOldestBatch(revisions: map<RecordId, nat>, batch: nat, rows: seq<Row>) {
    && |rows| <= batch
    && (forall i :: 0 <= i < |rows| ==> rows[i].record in revisions && revisions[rows[i].record] == rows[i].revision)
    && (forall i, j :: 0 <= i < j < |rows| ==> rows[i].record != rows[j].record && rows[i].revision <= rows[j].revision)
    && (forall r :: r in revisions && !Listed(rows, r) ==>
          |rows| == batch && forall i :: 0 <= i < |rows| ==> rows[i].revision <= revisions[r])
  }

  ghost predicate Listed(rows: seq<Row>, r: RecordId) {
    exists i :: 0 <= i < |rows| && rows[i].record == r
  }

  lemma ListedAfter(rows: seq<Row>, row: Row)
    ensures forall r :: Listed(rows + [row], r) <==> Listed(rows, r) || r == row.record
  {
    var all := rows + [row];
    assert all[|rows|] == row;
    forall r: RecordId ensures Listed(all, r) <==> Listed(rows, r) || r == row.record {
      if Listed(rows, r) {
        var i :| 0 <= i < |rows| && rows[i].record == r;
        assert all[i].record == r;
      }
    }
  }

  /** The due rows of one kind in the shared queue. */
  function DueSignals(work: map<RecordId, Signal>, kind: Kind, due: Instant): map<RecordId, nat> {
    map r | r in work && work[r].kind == kind && work[r].availableAt <= due :: work[r].revision
  }

  /** The due rows of one model's own queue. */
  function DueOwed(owed: map<(ModelKey, RecordId), Obligation>, key: ModelKey, due: Instant): map<RecordId, nat> {
    map k | k in owed && k.0 == key && owed[k].availableAt <= due :: k.1 := owed[k].revision
  }

  // ---- canonical writers --------------------------------------------------

  function Ingested(t: Tables, r: RecordId): Tables {
    Signalled(t.(records := t.records + {r}), Index, r)
  }

  function Hid(t: Tables, rs: seq<RecordId>): Tables {
    Enqueued(t.(hidden := t.hidden + (set r | r in rs)), Retire, rs)
  }

  function Forgot(t: Tables, rs: seq<RecordId>): Tables {
    Enqueued(t.(deleted := t.deleted + (set r | r in rs)), Retire, rs)
  }

  /** Delete visibility rows and ask for indexing again. */
  function Unhid(t: Tables, rs: seq<RecordId>): Tables {
    Enqueued(t.(hidden := t.hidden - (set r | r in rs)), Index, rs)
  }

  // ---- indexer transactions -----------------------------------------------

  /** Raise one model's obligation, never downgrading a newer revision. */
  function ModelUpserted(t: Tables, m: ModelKey, r: RecordId, revision: nat): Tables {
    if (m, r) in t.owed && t.owed[(m, r)].revision > revision
    then t
    else t.(owed := t.owed[(m, r) := Obligation(revision, 0, 0)])
  }

  /** Erase one record across every model: vectors, marks and obligations. */
  function Erased(t: Tables, r: RecordId): Tables {
    t.(chunks := (set c | c in t.chunks && c.record != r),
       done := (set d | d in t.done && d.1 != r),
       owed := (map k | k in t.owed && k.1 != r :: t.owed[k]))
  }

  /** The retirement transaction of one pass. */
  function RetirementsTaken(t: Tables, rows: seq<Row>): Tables {
    if rows == [] then t
    else
      var row := rows[|rows| - 1];
      Consumed(Erased(RetirementsTaken(t, rows[..|rows| - 1]), row.record), row)
  }

  /** One signal fanned out to the listed models that have not completed it. */
  function FannedOut(t: Tables, models: seq<ModelKey>, row: Row): (u: Tables)
    ensures u == t.(owed := u.owed)
    ensures forall k :: k in t.owed ==> k in u.owed && u.owed[k].revision >= t.owed[k].revision
    ensures forall k :: k in u.owed ==>
              || (k in t.owed && u.owed[k] == t.owed[k])
              || (k.0 in models && k.1 == row.record && u.owed[k].revision == row.revision)
    ensures forall m :: m in models ==> (m, row.record) in t.done || (m, row.record) in u.owed
  {
    if models == [] then t
    else
      var m := models[|models| - 1];
      var before := FannedOut(t, models[..|models| - 1], row);
      if (m, row.record) in before.done then before
      else ModelUpserted(before, m, row.record, row.revision)
  }

  /** The distribution transaction of one pass. */
  function Distributed(t: Tables, models: seq<ModelKey>, rows: seq<Row>): Tables {
    if rows == [] then t
    else
      var row := rows[|rows| - 1];
      Consumed(FannedOut(Distributed(t, models, rows[..|rows| - 1]), models, row), row)
  }

  function Persisted(t: Tables, key: ModelKey, r: RecordId, starts: set<nat>): Tables {
    t.(chunks := t.chunks + (set s | s in starts :: Chunk(key, r, s)))
  }

  /** The closing transaction of one record: complete it, or erase a ghost. */
  function Acknowledged(t: Tables, key: ModelKey, row: Row): Tables {
    if !Live(t, row.record) then
      Erased(t, row.record)
    else if (key, row.record) !in t.owed || t.owed[(key, row.record)].revision == row.revision then
      t.(done := t.done + {(key, row.record)}, owed := t.owed - {(key, row.record)})
    else
      t
  }

  /** What the exception handler writes for one record. */
  function BackedOff(t: Tables, key: ModelKey, row: Row, until: Instant): Tables {
    var k := (key, row.record);
    t.(done := t.done - {k},
       owed := if k in t.owed && t.owed[k].revision == row.revision
               then t.owed[k := Obligation(row.revision, t.owed[k].attempts + 1, until)]
               else t.owed)
  }

  /** Obligations carry revisions the clock has already given out. */
  predicate OwedClocked(clock: nat, owed: map<(ModelKey, RecordId), Obligation>) {
    forall k :: k in owed ==> owed[k].revision <= clock
  }

  // ---- activation ---------------------------------------------------------

  /** Registered but not yet reconciled, or known only from older metadata. */
  function Unreconciled(t: Tables, key: ModelKey, legacy: set<ModelKey>): set<ModelKey> {
    (set m | m in t.models && !t.models[m])
    + (({key} + legacy + (set d | d in t.done :: d.0) + (set c | c in t.chunks :: c.model)) - t.models.Keys)
  }

  function Registered(models: map<ModelKey, bool>, adopted: set<ModelKey>): map<ModelKey, bool> {
    models + map m | m in adopted :: true
  }

  ghost predicate Missing(t: Tables, m: ModelKey, r: RecordId) {
    Live(t, r) && (m, r) !in t.done
  }

  ghost predicate IsGhost(t: Tables, adopted: set<ModelKey>, r: RecordId) {
    !Live(t, r) && exists m :: m in adopted && HasTraces(t, m, r)
  }

  /** Every live record an adopted model has not completed is now its own, newer obligation. */
  ghost predicate OwedReconciled(t: Tables, adopted: set<ModelKey>, clock: nat, owed: map<(ModelKey, RecordId), Obligation>) {
    && t.clock <= clock
    && (forall k :: k in owed <==> k in t.owed || (k.0 in adopted && Missing(t, k.0, k.1)))
    && (forall k :: k in owed ==>
          if k.0 in adopted && Missing(t, k.0, k.1)
          then t.clock < owed[k].revision <= clock && owed[k].availableAt == 0
          else owed[k] == t.owed[k])
  }

  /** Everything an adopted model holds of a record that is gone is now signalled for retirement. */
  ghost predicate WorkReconciled(t: Tables, adopted: set<ModelKey>, clock: nat, work: map<RecordId, Signal>) {
    && t.clock <= clock
    && (forall r :: r in work <==> r in t.work || IsGhost(t, adopted, r))
    && (forall r :: r in work ==>
          if IsGhost(t, adopted, r)
          then work[r].kind == Retire && t.clock < work[r].revision <= clock && work[r].availableAt == 0
          else work[r] == t.work[r])
  }

  /**
   The effect of registering and reconciling the adopted models, up to the
   order in which the clock numbers the new rows.
   */
  ghost predicate ReconciledTo(t: Tables, adopted: set<ModelKey>, u: Tables) {
    && SameArchive(t, u) && SameVectors(t, u)
    && u.models == Registered(t.models, adopted)
    && OwedReconciled(t, adopted, u.clock, u.owed)
    && WorkReconciled(t, adopted, u.clock, u.work)
  }

  ghost predicate ActivatedTo(t: Tables, key: ModelKey, legacy: set<ModelKey>, u: Tables) {
    ReconciledTo(t, Unreconciled(t, key, legacy), u)
  }

  // ---- readiness ----------------------------------------------------------

  function Pending(t: Tables, key: ModelKey): set<RecordId> {
    (set k | k in t.owed && k.0 == key :: k.1) + (set r | r in t.work && t.work[r].kind == Index)
  }

  function PendingRetirements(t: Tables): set<RecordId> {
    set r | r in t.work && t.work[r].kind == Retire
  }

  function PendingRegistrations(t: Tables): set<ModelKey> {
    set m | m in t.models && !t.models[m]
  }

  /** The durable half of what the status report calls ready. */
  predicate Ready(t: Tables, key: ModelKey) {
    |Pending(t, key)| == 0 && |PendingRetirements(t)| == 0 && |PendingRegistrations(t)| == 0
  }
}
