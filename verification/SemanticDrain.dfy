/**
 Without new writes and without failures, indexing passes empty the queues.
 The backlog counts a shared row twice, because consuming it may leave one
 obligation behind, and an obligation of the active model once.
 */
module SemanticDrain {
  import Dependencies
  import opened SemanticTables
  import opened SemanticRuns
  import opened SemanticIndexing

  function OwedBy(t: Tables, key: ModelKey): set<RecordId> {
    set k | k in t.owed && k.0 == key :: k.1
  }

  function Backlog(t: Tables, key: ModelKey): nat {
    2 * |t.work| + |OwedBy(t, key)|
  }

  ghost predicate AllDue(t: Tables, key: ModelKey, due: Instant) {
    && 0 <= due
    && (forall r :: r in t.work ==> t.work[r].availableAt <= due)
    && (forall r: RecordId :: (key, r) in t.owed ==> t.owed[(key, r)].availableAt <= due)
  }

  ghost predicate NeverFails(outcomes: RecordId -> Outcome) {
    forall r: RecordId :: outcomes(r).Indexed?
  }

  function Records(rows: seq<Row>): set<RecordId> {
    set i | 0 <= i < |rows| :: rows[i].record
  }

  lemma {:induction false} RecordsCount(rows: seq<Row>)
    requires forall i, j :: 0 <= i < j < |rows| ==> rows[i].record != rows[j].record
    ensures |Records(rows)| == |rows|
  {
    if rows != [] {
      var n := |rows| - 1;
      RecordsCount(rows[..n]);
      assert Records(rows) == Records(rows[..n]) + {rows[n].record};
    }
  }

  /** Selecting finds something whenever anything qualifies, and removing it counts. */
  lemma SelectedRowsLeave(all: set<RecordId>, revisions: map<RecordId, nat>, batch: nat, rows: seq<Row>, after: set<RecordId>)
    requires IsOldestBatch(revisions, batch, rows) && revisions.Keys <= all
    requires forall r :: r in after <==> r in all && !Listed(rows, r)
    ensures |after| == |all| - |rows|
    ensures batch > 0 && rows == [] ==> revisions == map[]
  {
    RecordsCount(rows);
    forall r ensures r in Records(rows) <==> Listed(rows, r) {}
    assert after == all - Records(rows);
    assert Records(rows) <= all;
    if rows == [] && batch > 0 {
      forall r: RecordId ensures r !in revisions {
        assert !Listed(rows, r);
      }
    }
  }

  lemma RetirementsShrink(t: Tables, key: ModelKey, due: Instant, batch: nat, rows: seq<Row>)
    requires IsOldestBatch(DueSignals(t.work, Retire, due), batch, rows) && AllDue(t, key, due)
    ensures
      var u := RetirementsTaken(t, rows);
      && u.models == t.models && AllDue(u, key, due)
      && |u.work| == |t.work| - |rows| && OwedBy(u, key) <= OwedBy(t, key)
      && (batch > 0 && rows == [] ==> forall r :: r in t.work ==> t.work[r].kind == Index)
  {
    RetirementsTakenEffect(t, rows);
    var due' := DueSignals(t.work, Retire, due);
    SelectedRowsLeave(t.work.Keys, due', batch, rows, RetirementsTaken(t, rows).work.Keys);
    assert forall r :: r in t.work && t.work[r].kind == Retire ==> r in due';
  }

  lemma DistributionShrinks(t: Tables, key: ModelKey, due: Instant, batch: nat, models: seq<ModelKey>, rows: seq<Row>)
    requires IsOldestBatch(DueSignals(t.work, Index, due), batch, rows) && AllDue(t, key, due)
    ensures
      var u := Distributed(t, models, rows);
      && u.models == t.models && AllDue(u, key, due)
      && |u.work| == |t.work| - |rows| && OwedBy(u, key) <= OwedBy(t, key) + Records(rows)
      && (batch > 0 && rows == [] ==> forall r :: r in t.work ==> t.work[r].kind == Retire)
  {
    DistributedEffect(t, models, rows);
    DistributedIsFresh(t, models, rows);
    var due' := DueSignals(t.work, Index, due);
    SelectedRowsLeave(t.work.Keys, due', batch, rows, Distributed(t, models, rows).work.Keys);
    assert forall r :: r in t.work && t.work[r].kind == Index ==> r in due';
    forall r | r in OwedBy(Distributed(t, models, rows), key) && r !in OwedBy(t, key) ensures r in Records(rows) {
      var i :| 0 <= i < |rows| && rows[i].record == r;
    }
  }

  /** An obligation distribution creates or raises may be attempted at once. */
  lemma {:induction false} FannedOutIsFresh(t: Tables, models: seq<ModelKey>, row: Row)
    ensures
      var u := FannedOut(t, models, row);
      forall k :: k in u.owed ==> (k in t.owed && u.owed[k] == t.owed[k]) || u.owed[k].availableAt == 0
  {
    if models != [] {
      FannedOutIsFresh(t, models[..|models| - 1], row);
    }
  }

  lemma {:induction false} DistributedIsFresh(t: Tables, models: seq<ModelKey>, rows: seq<Row>)
    ensures
      var u := Distributed(t, models, rows);
      forall k :: k in u.owed ==> (k in t.owed && u.owed[k] == t.owed[k]) || u.owed[k].availableAt == 0
  {
    if rows != [] {
      DistributedIsFresh(t, models, rows[..|rows| - 1]);
      FannedOutIsFresh(Distributed(t, models, rows[..|rows| - 1]), models, rows[|rows| - 1]);
    }
  }

  /** A record processed without failure is no longer owed, and nothing else changes hands. */
  lemma ProcessedDischarges(t: Tables, key: ModelKey, row: Row, outcome: Outcome, until: Instant)
    requires outcome.Indexed?
    requires (key, row.record) in t.owed && t.owed[(key, row.record)].revision == row.revision
    ensures
      var u := Processed(t, key, row, outcome, until);
      && u.work == t.work && u.models == t.models
      && (forall k :: k in u.owed ==> k in t.owed && u.owed[k] == t.owed[k] && k != (key, row.record))
      && (forall k :: k in t.owed && k.1 != row.record ==> k in u.owed)
  {
  }

  lemma {:induction false} ProcessedAllDischarges(
      t: Tables, key: ModelKey, rows: seq<Row>, outcomes: RecordId -> Outcome, until: Instant)
    requires NeverFails(outcomes) && OwedRows(t, key, rows)
    ensures
      var u := ProcessedAll(t, key, rows, outcomes, until);
      && u.work == t.work && u.models == t.models
      && (forall k :: k in u.owed ==> k in t.owed && u.owed[k] == t.owed[k])
      && (forall k :: k in t.owed && k.1 !in Records(rows) ==> k in u.owed)
      && OwedBy(u, key) <= OwedBy(t, key) - Records(rows)
  {
    if rows != [] {
      var n := |rows| - 1;
      var row := rows[n];
      ProcessedAllDischarges(t, key, rows[..n], outcomes, until);
      var v := ProcessedAll(t, key, rows[..n], outcomes, until);
      assert forall i :: 0 <= i < n ==> rows[..n][i] == rows[i];
      assert (key, row.record) in v.owed;
      ProcessedDischarges(v, key, row, outcomes(row.record), until);
      assert Records(rows) == Records(rows[..n]) + {row.record};
    }
  }

  lemma OwedShrinks(
      t: Tables, key: ModelKey, due: Instant, batch: nat, rows: seq<Row>, outcomes: RecordId -> Outcome, until: Instant)
    requires IsOldestBatch(DueOwed(t.owed, key, due), batch, rows) && AllDue(t, key, due) && NeverFails(outcomes)
    ensures
      var u := ProcessedAll(t, key, rows, outcomes, until);
      && u.work == t.work && u.models == t.models && AllDue(u, key, due)
      && |OwedBy(u, key)| <= |OwedBy(t, key)| - |rows|
      && (batch > 0 && rows == [] ==> OwedBy(t, key) == {})
  {
    ProcessedAllDischarges(t, key, rows, outcomes, until);
    RecordsCount(rows);
    var u := ProcessedAll(t, key, rows, outcomes, until);
    forall r | r in Records(rows) ensures r in OwedBy(t, key) {
      assert r in DueOwed(t.owed, key, due);
    }
    Dependencies.SubsetIsNoLarger(OwedBy(u, key), OwedBy(t, key) - Records(rows));
    if rows == [] && batch > 0 {
      forall r: RecordId ensures r !in OwedBy(t, key) {
        assert r in DueOwed(t.owed, key, due) ==> Listed(rows, r);
      }
    }
  }

  /** When every row is due, only an empty queue yields two empty batches. */
  lemma NothingDueNothingQueued(t: Tables, key: ModelKey, due: Instant, batch: nat)
    requires AllDue(t, key, due) && batch > 0
    requires IsOldestBatch(DueSignals(t.work, Retire, due), batch, []) && IsOldestBatch(DueSignals(t.work, Index, due), batch, [])
    ensures t.work == map[]
  {
    forall r | r in t.work ensures r in DueSignals(t.work, t.work[r].kind, due) {}
    assert forall r :: !Listed([], r);
  }

  /**
   Queue drain: an undisturbed pass over due rows strictly shrinks the backlog
   as long as there is one.
   */
  lemma PassDrains(t: Tables, key: ModelKey, due: Instant, batch: nat, pass: Pass, outcomes: RecordId -> Outcome, until: Instant)
    requires IsPass(t, key, due, batch, pass) && batch > 0 && key in t.models
    requires AllDue(t, key, due) && NeverFails(outcomes)
    ensures
      var u := Passed(t, key, pass, outcomes, until);
      && u.models == t.models && AllDue(u, key, due)
      && Backlog(u, key) <= Backlog(t, key)
      && (Backlog(t, key) > 0 ==> Backlog(u, key) < Backlog(t, key))
  {
    var t1 := RetirementsTaken(t, pass.retired);
    RetirementsShrink(t, key, due, batch, pass.retired);
    Dependencies.SubsetIsNoLarger(OwedBy(t1, key), OwedBy(t, key));
    assert pass.models != [];
    var t2 := Fanned(t1, pass);
    DistributionShrinks(t1, key, due, batch, pass.models, pass.signals);
    RecordsCount(pass.signals);
    Dependencies.SubsetIsNoLarger(OwedBy(t2, key), OwedBy(t1, key) + Records(pass.signals));
    Dependencies.SubsetIsNoLarger(Records(pass.signals), OwedBy(t1, key) + Records(pass.signals));
    UnionIsNoLarger(OwedBy(t1, key), Records(pass.signals));
    OwedShrinks(t2, key, due, batch, pass.owed, outcomes, until);
    if pass.retired == [] && pass.signals == [] {
      assert t1 == t && t2 == t1;
      NothingDueNothingQueued(t, key, due, batch);
    }
  }

  lemma UnionIsNoLarger<T>(a: set<T>, b: set<T>)
    ensures |a + b| <= |a| + |b|
  {
    assert a + b == a + (b - a);
    Dependencies.SubsetIsNoLarger(b - a, b);
  }

  /** Passes one after the other, each answering its queries on the tables it finds. */
  ghost predicate ArePasses(
      t: Tables, key: ModelKey, due: Instant, batch: nat, passes: seq<Pass>, outcomes: RecordId -> Outcome, until: Instant)
    decreases |passes|
  {
    passes == [] ||
    (&& IsPass(t, key, due, batch, passes[0])
     && ArePasses(Passed(t, key, passes[0], outcomes, until), key, due, batch, passes[1..], outcomes, until))
  }

  function PassedAll(t: Tables, key: ModelKey, passes: seq<Pass>, outcomes: RecordId -> Outcome, until: Instant): Tables
    decreases |passes|
  {
    if passes == [] then t else PassedAll(Passed(t, key, passes[0], outcomes, until), key, passes[1..], outcomes, until)
  }

  /** As many passes as the backlog counts are enough to be ready. */
  lemma {:induction false} PassesReachReady(t: Tables, key: ModelKey, due: Instant, batch: nat, passes: seq<Pass>,
                                            outcomes: RecordId -> Outcome, until: Instant)
    requires ArePasses(t, key, due, batch, passes, outcomes, until) && batch > 0
    requires key in t.models && (forall m :: m in t.models ==> t.models[m])
    requires AllDue(t, key, due) && NeverFails(outcomes)
    requires |passes| >= Backlog(t, key)
    ensures Ready(PassedAll(t, key, passes, outcomes, until), key)
    decreases |passes|
  {
    if passes == [] {
      assert OwedBy(t, key) == {} && t.work == map[];
      assert Pending(t, key) == {} && PendingRetirements(t) == {} && PendingRegistrations(t) == {};
    } else {
      PassDrains(t, key, due, batch, passes[0], outcomes, until);
      PassesReachReady(Passed(t, key, passes[0], outcomes, until), key, due, batch, passes[1..], outcomes, until);
    }
  }
}
