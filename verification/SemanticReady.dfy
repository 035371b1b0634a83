/**
 What the ready flag can be trusted for, and exactly when: every leftover of a
 record that is gone must keep each model that could report ready from doing so.
 */
module SemanticReady {
  import opened SemanticTables
  import opened SemanticRuns

  /** A registered model holds something of a record that is not live and visible. */
  ghost predicate IsLeftover(t: Tables, r: RecordId) {
    !Live(t, r) && exists m :: m in t.models && HasTraces(t, m, r)
  }

  /** Each registered model would still see work for every leftover, its own or shared. */
  ghost predicate LeftoversPend(t: Tables) {
    forall m: ModelKey, r: RecordId :: m in t.models && IsLeftover(t, r) ==> r in t.work || (m, r) in t.owed
  }

  ghost predicate PendInvariant(s: System) {
    var t, p := s.tables, s.phase;
    && LeftoversPend(t)
    && (forall m, r :: t.models != map[] && HasTraces(t, m, r) ==> m in t.models)
    && (forall k :: k in t.owed ==> k.0 in t.models)
    && (!p.Stopped? ==> p.key in t.models)
    && (p.Embedding? && Busy(p) ==> Live(t, p.rows[0].record) || p.rows[0].record in t.work)
  }

  /**
   The two transactions that can lose sight of a leftover: distribution, which
   skips a model that marked it complete, and opening a new model, which looks
   at what that model itself left behind.
   */
  ghost predicate KeepsLeftover(s: System, a: Action, m: ModelKey, r: RecordId) {
    var t := s.tables;
    && (a.Distribute? && m in t.models && Listed(a.rows, r) && IsLeftover(t, r) && (m, r) in t.done ==> (m, r) in t.owed)
    && (a.Open? && m in a.after.models && m !in t.models && IsLeftover(t, r) ==>
          r in t.work || IsGhost(t, Unreconciled(t, a.key, a.legacy), r))
  }

  ghost predicate KeepsLeftovers(s: System, a: Action) {
    forall m: ModelKey, r: RecordId :: KeepsLeftover(s, a, m, r)
  }

  ghost predicate KeepsLeftoversThroughout(s: System, actions: seq<Action>)
    requires IsRun(s, actions)
    decreases |actions|
  {
    actions == [] || (KeepsLeftovers(s, actions[0]) && KeepsLeftoversThroughout(Step(s, actions[0]), actions[1..]))
  }

  ghost predicate PendThroughout(s: System, actions: seq<Action>)
    requires IsRun(s, actions)
    decreases |actions|
  {
    PendInvariant(s) && (actions == [] || PendThroughout(Step(s, actions[0]), actions[1..]))
  }

  // ---- one step -----------------------------------------------------------

  lemma WriterKeepsPend(s: System, a: Action)
    requires PendInvariant(s) && Enabled(s, a) && (a.Ingest? || a.Hide? || a.Forget? || a.Unhide?)
    ensures PendInvariant(Step(s, a))
  {
    var t, u := s.tables, Step(s, a).tables;
    forall m: ModelKey, r: RecordId | m in u.models && IsLeftover(u, r) ensures r in u.work || (m, r) in u.owed {
      var n :| n in u.models && HasTraces(u, n, r);
      assert HasTraces(t, n, r);
      assert !Live(t, r) ==> IsLeftover(t, r);
    }
    forall m, r | u.models != map[] && HasTraces(u, m, r) ensures m in u.models {
      assert HasTraces(t, m, r);
    }
  }

  lemma RetirementsKeepPend(s: System, a: Action)
    requires PendInvariant(s) && Enabled(s, a) && a.TakeRetirements?
    ensures PendInvariant(Step(s, a))
  {
    var t, u := s.tables, Step(s, a).tables;
    RetirementsTakenEffect(t, a.rows);
    forall m: ModelKey, r: RecordId | HasTraces(u, m, r) ensures HasTraces(t, m, r) && !Listed(a.rows, r) {}
    forall m: ModelKey, r: RecordId | m in u.models && IsLeftover(u, r) ensures r in u.work || (m, r) in u.owed {
      assert IsLeftover(t, r);
    }
  }

  /** The indexer's work on one record, its failures, and everything that writes no table. */
  lemma RecordKeepsPend(s: System, a: Action)
    requires PendInvariant(s) && Enabled(s, a)
    requires !(a.Ingest? || a.Hide? || a.Forget? || a.Unhide? || a.Open? || a.TakeRetirements? || a.Distribute?)
    ensures PendInvariant(Step(s, a))
  {
    var t, u := s.tables, Step(s, a).tables;
    forall m: ModelKey, r: RecordId | HasTraces(u, m, r)
      ensures HasTraces(t, m, r) || ((a.Embed? || a.Acknowledge?) && m == s.phase.key && r == s.phase.rows[0].record)
      ensures u.models != map[] ==> m in u.models
    {
    }
    forall m: ModelKey, r: RecordId | m in u.models && IsLeftover(u, r) ensures r in u.work || (m, r) in u.owed {
      var n :| n in u.models && HasTraces(u, n, r);
      if HasTraces(t, n, r) {
        assert IsLeftover(t, r);
      }
    }
  }

  // ---- distribution and opening, both ways --------------------------------

  /** A model that has marked the record complete gets no obligation for it. */
  lemma {:induction false} FanOutSkipsDone(t: Tables, models: seq<ModelKey>, row: Row, k: (ModelKey, RecordId))
    requires k in t.done && k !in t.owed
    ensures k !in FannedOut(t, models, row).owed
  {
    if models != [] {
      FanOutSkipsDone(t, models[..|models| - 1], row, k);
    }
  }

  lemma {:induction false} DistributionSkipsDone(t: Tables, models: seq<ModelKey>, rows: seq<Row>, k: (ModelKey, RecordId))
    requires k in t.done && k !in t.owed
    ensures k !in Distributed(t, models, rows).owed && Distributed(t, models, rows).done == t.done
  {
    if rows != [] {
      var n := |rows| - 1;
      DistributionSkipsDone(t, models, rows[..n], k);
      FanOutSkipsDone(Distributed(t, models, rows[..n]), models, rows[n], k);
    }
  }

  lemma DistributionPends(s: System, a: Action)
    requires PendInvariant(s) && Enabled(s, a) && a.Distribute? && KeepsLeftovers(s, a)
    ensures PendInvariant(Step(s, a))
  {
    var t, u := s.tables, Step(s, a).tables;
    assert IsOldestBatchOf(t, a.rows);
    DistributedEffect(t, a.models, a.rows);
    forall m: ModelKey, r: RecordId ensures HasTraces(u, m, r) <==> HasTraces(t, m, r) {}
    forall m: ModelKey, r: RecordId | m in u.models && IsLeftover(u, r) ensures r in u.work || (m, r) in u.owed {
      assert IsLeftover(t, r);
      assert KeepsLeftover(s, a, m, r);
    }
  }

  lemma DistributionLoses(s: System, a: Action, m: ModelKey, r: RecordId)
    requires PendInvariant(s) && Enabled(s, a) && a.Distribute? && !KeepsLeftover(s, a, m, r)
    ensures !PendInvariant(Step(s, a))
  {
    var t, u := s.tables, Step(s, a).tables;
    assert IsOldestBatchOf(t, a.rows);
    DistributedEffect(t, a.models, a.rows);
    DistributionSkipsDone(t, a.models, a.rows, (m, r));
    assert HasTraces(u, m, r) && IsLeftover(u, r);
  }

  lemma OpeningPends(s: System, a: Action)
    requires PendInvariant(s) && Enabled(s, a) && a.Open? && KeepsLeftovers(s, a)
    ensures PendInvariant(Step(s, a))
  {
    var t, u := s.tables, a.after;
    var adopted := Unreconciled(t, a.key, a.legacy);
    forall m: ModelKey, r: RecordId ensures HasTraces(u, m, r) <==> HasTraces(t, m, r) {}
    forall m: ModelKey, r: RecordId | m in u.models && IsLeftover(u, r) ensures r in u.work || (m, r) in u.owed {
      var n :| n in u.models && HasTraces(u, n, r);
      if n in t.models {
        assert IsLeftover(t, r) && KeepsLeftover(s, a, m, r);
      } else {
        assert n in adopted && IsGhost(t, adopted, r);
      }
    }
    forall m: ModelKey, r: RecordId | HasTraces(u, m, r) ensures m in u.models {
      assert HasTraces(t, m, r);
    }
  }

  lemma OpeningLoses(s: System, a: Action, m: ModelKey, r: RecordId)
    requires PendInvariant(s) && Enabled(s, a) && a.Open? && !KeepsLeftover(s, a, m, r)
    ensures !PendInvariant(Step(s, a))
  {
    var t, u := s.tables, a.after;
    var n :| n in t.models && HasTraces(t, n, r);
    assert HasTraces(u, n, r) && IsLeftover(u, r);
    assert m in Unreconciled(t, a.key, a.legacy);
    assert (m, r) !in t.owed;
  }

  /** One step keeps every leftover in sight exactly when distribution and opening do. */
  lemma PendStepExactly(s: System, a: Action)
    requires PendInvariant(s) && Enabled(s, a)
    ensures PendInvariant(Step(s, a)) <==> KeepsLeftovers(s, a)
  {
    if m: ModelKey, r: RecordId :| !KeepsLeftover(s, a, m, r) {
      if a.Distribute? {
        DistributionLoses(s, a, m, r);
      } else {
        OpeningLoses(s, a, m, r);
      }
    } else if a.Ingest? || a.Hide? || a.Forget? || a.Unhide? {
      WriterKeepsPend(s, a);
    } else if a.TakeRetirements? {
      RetirementsKeepPend(s, a);
    } else if a.Distribute? {
      DistributionPends(s, a);
    } else if a.Open? {
      OpeningPends(s, a);
    } else {
      RecordKeepsPend(s, a);
    }
  }

  /** Over a whole run: leftovers stay in sight at every point exactly when no step loses one. */
  lemma {:induction false} PendRunExactly(s: System, actions: seq<Action>)
    requires PendInvariant(s) && IsRun(s, actions)
    ensures PendThroughout(s, actions) <==> KeepsLeftoversThroughout(s, actions)
    decreases |actions|
  {
    if actions != [] {
      PendStepExactly(s, actions[0]);
      if KeepsLeftovers(s, actions[0]) {
        PendRunExactly(Step(s, actions[0]), actions[1..]);
      }
    }
  }

  lemma {:induction false} PendOverRun(s: System, actions: seq<Action>)
    requires PendInvariant(s) && IsRun(s, actions) && KeepsLeftoversThroughout(s, actions)
    ensures PendInvariant(After(s, actions))
    decreases |actions|
  {
    if actions != [] {
      PendStepExactly(s, actions[0]);
      PendOverRun(Step(s, actions[0]), actions[1..]);
    }
  }

  // ---- restoring only what is stored is more than enough ------------------

  /** While every leftover has its retirement waiting, no step can lose one. */
  lemma AccountedGhostsAreKept(s: System, a: Action)
    requires GhostInvariant(s) && Enabled(s, a)
    ensures KeepsLeftovers(s, a)
  {
    forall m: ModelKey, r: RecordId ensures KeepsLeftover(s, a, m, r) {
      if IsLeftover(s.tables, r) {
        assert Signals(s.tables, r, Retire);
      }
    }
  }

  lemma {:induction false} StoredRestoresSuffice(s: System, actions: seq<Action>)
    requires GhostInvariant(s) && IsRun(s, actions) && RestoresOnlyStored(s, actions)
    ensures KeepsLeftoversThroughout(s, actions)
    decreases |actions|
  {
    if actions != [] {
      AccountedGhostsAreKept(s, actions[0]);
      GhostStepExactly(s, actions[0]);
      StoredRestoresSuffice(Step(s, actions[0]), actions[1..]);
    }
  }

  // ---- what ready means ---------------------------------------------------

  lemma EmptyPending(t: Tables, key: ModelKey)
    requires Ready(t, key)
    ensures forall r :: (key, r) !in t.owed
    ensures forall r :: r !in t.work
    ensures forall m :: m in t.models ==> t.models[m]
  {
    assert forall r :: (key, r) in t.owed ==> r in Pending(t, key);
    assert forall r :: r in t.work ==> r in Pending(t, key) || r in PendingRetirements(t);
    assert forall m :: m in t.models && !t.models[m] ==> m in PendingRegistrations(t);
    assert Pending(t, key) == {} && PendingRetirements(t) == {} && PendingRegistrations(t) == {};
  }

  /** The active model completed every live visible record, and nothing else has a vector or a mark. */
  ghost predicate IsHonest(t: Tables, key: ModelKey) {
    && (forall r: RecordId :: Live(t, r) ==> (key, r) in t.done)
    && (forall d :: d in t.done ==> Live(t, d.1))
    && (forall c :: c in t.chunks ==> Live(t, c.record))
  }

  /**
   Ready is honest over every run in which no failed clean-up un-completes a
   record for good and no distribution or opening loses sight of a leftover;
   restores of any kind are allowed.
   */
  lemma ReadyIsHonest(s: System, actions: seq<Action>)
    requires Initial(s) && IsRun(s, actions)
    requires KeepsCompletions(s, actions) && KeepsLeftoversThroughout(s, actions)
    ensures
      var u := After(s, actions);
      !u.phase.Stopped? && Ready(u.tables, u.phase.key) ==> IsHonest(u.tables, u.phase.key)
  {
    CoverageOverRun(s, actions);
    PendOverRun(s, actions);
    var u := After(s, actions);
    if !u.phase.Stopped? && Ready(u.tables, u.phase.key) {
      ReadyAndHonestExactly(u.tables, u.phase.key);
    }
  }

  /** The same from restores alone: when only stored records are restored, nothing is lost sight of. */
  lemma ReadyIsHonestForStoredRestores(s: System, actions: seq<Action>)
    requires Initial(s) && IsRun(s, actions)
    requires KeepsCompletions(s, actions) && RestoresOnlyStored(s, actions)
    ensures
      var u := After(s, actions);
      !u.phase.Stopped? && Ready(u.tables, u.phase.key) ==> IsHonest(u.tables, u.phase.key)
  {
    StoredRestoresSuffice(s, actions);
    ReadyIsHonest(s, actions);
  }

  /** At a moment of readiness, honesty is coverage and leftovers in sight: nothing less will do. */
  lemma ReadyAndHonestExactly(t: Tables, key: ModelKey)
    requires Ready(t, key) && key in t.models && forall m, r :: HasTraces(t, m, r) ==> m in t.models
    ensures IsHonest(t, key) <==>
            && (forall r: RecordId :: Live(t, r) ==> Covered(t, key, r))
            && forall r: RecordId :: IsLeftover(t, r) ==> r in t.work || (key, r) in t.owed
  {
    EmptyPending(t, key);
    forall d | d in t.done ensures HasTraces(t, d.0, d.1) && (Live(t, d.1) || IsLeftover(t, d.1)) {
      assert HasTraces(t, d.0, d.1);
    }
    forall c | c in t.chunks ensures Live(t, c.record) || IsLeftover(t, c.record) {
      assert HasTraces(t, c.model, c.record);
    }
    forall r: RecordId | IsLeftover(t, r) ensures !IsHonest(t, key) {
      var m :| m in t.models && HasTraces(t, m, r);
    }
  }
}
