/**
 The same adapter as a program counter: every step may be the last one before
 a crash, requests may take effect without an answer, and canonical writers
 commit between any two steps.
 */
module HindsightRuns {
  import opened Hindsight

  /** Where the thread that holds the lifecycle lock stands. */
  datatype Phase =
    | Idle
    | Clearing
    | Confirming
    | Erasing(gone: set<RecordId>, rows: seq<RecordId>, selected: nat, failed: bool)
    | Untracking(record: RecordId, gone: set<RecordId>, rows: seq<RecordId>, selected: nat, failed: bool)
    | Rechecking(rows: seq<RecordId>, selected: nat)
    | Journaling(rows: seq<RecordId>)
    | Retaining(items: seq<RecordId>, rest: seq<RecordId>)
    | Acknowledging(items: seq<RecordId>, rest: seq<RecordId>)
    | Failing(items: seq<RecordId>, rest: seq<RecordId>)

  datatype System = System(tracker: Tracker, phase: Phase)

  datatype Action =
    | OthersWrite(live: set<RecordId>, epoch: nat)
    | StartClear
    | AnswerClear(happened: bool, confirmed: bool)
    | ConfirmClear
    | StartPass(rows: seq<RecordId>, now: Instant)
    | AnswerDeletion(record: RecordId, happened: bool, confirmed: bool)
    | Untrack
    | FinishErasing
    | Recheck(kept: seq<RecordId>)
    | Journal
    | AnswerRetain(arrived: set<RecordId>, confirmed: bool)
    | Acknowledge
    | Isolate
    | BackOff(until: Instant)
    | Raise
    | Crash

  predicate Enabled(s: System, a: Action) {
    var t, p := s.tracker, s.phase;
    match a
    case OthersWrite(_, _) => true
    case StartClear => p.Idle?
    case AnswerClear(happened, confirmed) => p.Clearing? && (confirmed ==> happened)
    case ConfirmClear => p.Confirming?
    case StartPass(rows, now) => p.Idle? && !t.clearing && forall i :: 0 <= i < |rows| ==> IsSelectable(t, now, rows[i])
    case AnswerDeletion(r, happened, confirmed) => p.Erasing? && r in p.gone && (confirmed ==> happened)
    case Untrack => p.Untracking?
    case FinishErasing => p.Erasing? && p.gone == {}
    case Recheck(kept) =>
      p.Rechecking? && Ids(kept) == if t.epoch == p.selected then Ids(p.rows) * t.live else {}
    case Journal => p.Journaling?
    case AnswerRetain(arrived, confirmed) => p.Retaining? && arrived <= Ids(p.items) && (confirmed ==> arrived == Ids(p.items))
    case Acknowledge => p.Acknowledging?
    case Isolate => p.Failing? && |p.items| > 1 && p.rest == []
    case BackOff(_) => p.Failing?
    case Raise => p.Acknowledging? || p.Untracking?
    case Crash => true
  }

  /** After one request of an isolated batch, the next item follows. */
  function Next(rest: seq<RecordId>): Phase {
    if rest == [] then Idle else Retaining([rest[0]], rest[1..])
  }

  function Step(s: System, a: Action): System
    requires Enabled(s, a)
  {
    var t, p := s.tracker, s.phase;
    match a
    case OthersWrite(live, epoch) => System(t.(live := live, epoch := epoch), p)
    case StartClear => System(Obliged(t), Clearing)
    case AnswerClear(happened, confirmed) =>
      System(if happened then t.(remote := {}) else t, if confirmed then Confirming else Idle)
    case ConfirmClear => System(Emptied(t), Idle)
    case StartPass(rows, _) => System(t, Erasing(PendingDeletions(t), rows, t.epoch, false))
    case AnswerDeletion(r, happened, confirmed) =>
      System(if happened then t.(remote := t.remote - {r}) else t,
             if confirmed then Untracking(r, p.gone - {r}, p.rows, p.selected, p.failed)
             else Erasing(p.gone - {r}, p.rows, p.selected, true))
    case Untrack => System(Untracked(t, p.record), Erasing(p.gone, p.rows, p.selected, p.failed))
    case FinishErasing => System(t, if p.failed || p.rows == [] then Idle else Rechecking(p.rows, p.selected))
    case Recheck(kept) => System(MadeDue(t, Ids(p.rows) - Ids(kept)), if kept == [] then Idle else Journaling(kept))
    case Journal => System(Journaled(t, Ids(p.rows)), Retaining(p.rows, []))
    case AnswerRetain(arrived, confirmed) =>
      System(t.(remote := t.remote + arrived), if confirmed then Acknowledging(p.items, p.rest) else Failing(p.items, p.rest))
    case Acknowledge => System(Acknowledged(t, Ids(p.items)), Next(p.rest))
    case Isolate => System(t, Next(p.items))
    case BackOff(until) => System(BackedOff(t, Ids(p.items), until), Next(p.rest))
    case Raise =>
      System(t, if p.Acknowledging? then Failing(p.items, p.rest) else Erasing(p.gone, p.rows, p.selected, true))
    case Crash => System(t, Idle)
  }

  predicate IsRun(s: System, actions: seq<Action>)
    decreases |actions|
  {
    actions == [] || (Enabled(s, actions[0]) && IsRun(Step(s, actions[0]), actions[1..]))
  }

  function After(s: System, actions: seq<Action>): System
    requires IsRun(s, actions)
    decreases |actions|
  {
    if actions == [] then s else After(Step(s, actions[0]), actions[1..])
  }

  /** What each phase knows about the request it is about to make or has just made. */
  predicate PhaseAgrees(s: System) {
    var t, p := s.tracker, s.phase;
    && (p.Confirming? ==> t.remote == {})
    && (p.Clearing? || p.Confirming? ==> t.clearing)
    && (p.Untracking? ==> p.record !in t.remote)
    && (p.Retaining? || p.Acknowledging? || p.Failing? ==> Ids(p.items) + Ids(p.rest) <= Tracked(t))
  }

  lemma IdsSplit(rows: seq<RecordId>)
    requires rows != []
    ensures Ids(rows) == Ids([rows[0]]) + Ids(rows[1..])
  {
    assert rows == [rows[0]] + rows[1..];
  }

  lemma StepKeepsTracking(s: System, a: Action)
    requires NoOrphans(s.tracker) && PhaseAgrees(s) && Enabled(s, a)
    ensures NoOrphans(Step(s, a).tracker) && PhaseAgrees(Step(s, a))
  {
    var p, u := s.phase, Step(s, a);
    match a
    case Isolate => IdsSplit(p.items);
    case Acknowledge =>
      if p.rest != [] {
        IdsSplit(p.rest);
      }
    case BackOff(_) =>
      assert u.tracker.pending.Keys == s.tracker.pending.Keys;
      if p.rest != [] {
        IdsSplit(p.rest);
      }
    case Recheck(_) => assert u.tracker.pending.Keys == s.tracker.pending.Keys;
    case Journal => assert Ids([]) == {};
    case _ =>
  }

  lemma {:induction false} TrackingOverRun(s: System, actions: seq<Action>)
    requires NoOrphans(s.tracker) && PhaseAgrees(s) && IsRun(s, actions)
    ensures NoOrphans(After(s, actions).tracker) && PhaseAgrees(After(s, actions))
    decreases |actions|
  {
    if actions != [] {
      StepKeepsTracking(s, actions[0]);
      TrackingOverRun(Step(s, actions[0]), actions[1..]);
    }
  }

  predicate Initial(s: System) {
    s.phase == Idle && s.tracker.remote == {}
  }

  /**
   No orphans over any run: every document the engine may hold is tracked, so
   once no deletion is pending it holds only live visible records.
   */
  lemma NothingIsOrphaned(s: System, actions: seq<Action>)
    requires Initial(s) && IsRun(s, actions)
    ensures
      var t := After(s, actions).tracker;
      && t.remote <= Tracked(t)
      && (PendingDeletions(t) == {} ==> t.remote <= t.live)
  {
    TrackingOverRun(s, actions);
    var t := After(s, actions).tracker;
    if PendingDeletions(t) == {} {
      forall r | r in t.remote ensures r in t.live {
        assert r !in PendingDeletions(t);
      }
    }
  }

  /** A bank clear is owed from before its request until its confirmation is stored, across crashes. */
  predicate ConfirmsNothing(actions: seq<Action>) {
    forall i :: 0 <= i < |actions| ==> !actions[i].ConfirmClear?
  }

  lemma {:induction false} ClearStaysOwed(s: System, actions: seq<Action>)
    requires s.tracker.clearing && IsRun(s, actions) && ConfirmsNothing(actions)
    requires s.phase.Idle? || s.phase.Clearing? || s.phase.Confirming?
    ensures
      var u := After(s, actions);
      && u.tracker.clearing && u.tracker.done == s.tracker.done && u.tracker.pending == s.tracker.pending
      && u.tracker.remote <= s.tracker.remote
      && (u.phase.Idle? || u.phase.Clearing? || u.phase.Confirming?)
    decreases |actions|
  {
    if actions != [] {
      assert forall i :: 0 <= i < |actions| - 1 ==> actions[1..][i] == actions[i + 1];
      ClearStaysOwed(Step(s, actions[0]), actions[1..]);
    }
  }
}
