/**
 What a consumer can bear: exactly how far unfinished work may lie past the
 scan position without a completion ever taking the watermark past it.
 */
module AwarenessBearable {
  import opened Wrappers
  import opened SweepPacking
  import opened Journal
  import opened Awareness
  import opened AwarenessRuns

  /** The watermark is right now and at every later point of every run. */
  ghost predicate StaysSafe(s: System) {
    forall later :: IsRun(s, later) && KeepsPaceThroughout(s, later) ==> Watermark(After(s, later).consumer)
  }

  /** Unfinished, but quarantined or of an older epoch: only an administrator's step ends it. */
  predicate IsStuck(c: Consumer, w: Work) {
    Unfinished(w) && !CanBeClaimed(c, w)
  }

  /** A stuck batch starts at or after `first` and holds the watermark at or behind the cursor. */
  ghost predicate IsBacked(c: Consumer, first: nat) {
    exists t :: t in c.batches && IsStuck(c, c.batches[t]) && first <= c.batches[t].first <= c.cursor + 1
  }

  /** No stuck batch starts at or after `first`, and nothing that counts ends past the cursor. */
  ghost predicate IsClear(c: Consumer, first: nat) {
    && (forall t :: t in c.batches && IsStuck(c, c.batches[t]) ==> c.batches[t].first < first)
    && (forall x :: x in c.batches && Counts(c, c.batches[x]) ==> c.batches[x].last <= c.cursor)
  }

  ghost predicate IsBearableRow(c: Consumer, w: Work) {
    && 0 < w.first <= w.last && w.state != Suppressed
    && (Unfinished(w) ==> c.doneThrough < w.first <= c.cursor + 2)
    && (Counts(c, w) ==> w.last <= c.cursor + 1)
    && (CanBeClaimed(c, w) ==> IsBacked(c, w.first) || IsClear(c, w.first))
  }

  /** The watermark is right, and no completion can move it past the cursor whatever is cancelled before it. */
  ghost predicate IsBearable(c: Consumer) {
    c.doneThrough <= c.cursor && forall id :: id in c.batches ==> IsBearableRow(c, c.batches[id])
  }

  lemma BearableIsSafe(c: Consumer)
    requires IsBearable(c)
    ensures Watermark(c)
  {
    forall id | id in c.batches && Unfinished(c.batches[id]) ensures c.doneThrough < c.batches[id].first {
      assert IsBearableRow(c, c.batches[id]);
    }
  }

  /** The rows move on, except that unfinished ones that start at or below `through` are cancelled. */
  ghost predicate OnlyCuts(c: Consumer, u: Consumer, through: nat) {
    && u.doneThrough == c.doneThrough && u.cursor == c.cursor && u.epoch == c.epoch
    && u.batches.Keys == c.batches.Keys
    && (forall id :: id in c.batches ==> MovesOn(c, c.batches[id], u.batches[id], through))
  }

  ghost predicate MovesOn(c: Consumer, v: Work, w: Work, through: nat) {
    && w.first == v.first && w.last == v.last && (w.state == Suppressed ==> v.state == Suppressed)
    && (Unfinished(w) <==> Unfinished(v) && through < v.first)
    && (Counts(c, w) ==> Counts(c, v)) && (IsStuck(c, v) && Unfinished(w) ==> IsStuck(c, w))
  }

  lemma CutKeepsBacked(c: Consumer, u: Consumer, through: nat, first: nat)
    requires OnlyCuts(c, u, through) && IsBacked(c, first) && through < first
    ensures IsBacked(u, first)
  {
    var t :| t in c.batches && IsStuck(c, c.batches[t]) && first <= c.batches[t].first <= c.cursor + 1;
    assert MovesOn(c, c.batches[t], u.batches[t], through);
    assert IsStuck(u, u.batches[t]);
  }

  lemma CutKeepsClear(c: Consumer, u: Consumer, through: nat, first: nat)
    requires IsBearable(c) && OnlyCuts(c, u, through) && IsClear(c, first)
    ensures IsBacked(u, first) || IsClear(u, first)
  {
    forall x | x in u.batches && Counts(u, u.batches[x]) ensures u.batches[x].last <= u.cursor {
      assert MovesOn(c, c.batches[x], u.batches[x], through);
    }
    forall t | t in u.batches && IsStuck(u, u.batches[t]) ensures u.batches[t].first < first || IsBacked(u, first) {
      assert MovesOn(c, c.batches[t], u.batches[t], through);
      assert IsBearableRow(c, c.batches[t]);
    }
  }

  lemma CutKeepsBearable(c: Consumer, u: Consumer, through: nat)
    requires IsBearable(c) && OnlyCuts(c, u, through)
    ensures IsBearable(u)
  {
    forall id | id in u.batches ensures IsBearableRow(u, u.batches[id]) {
      var w := u.batches[id];
      assert IsBearableRow(c, c.batches[id]) && MovesOn(c, c.batches[id], w, through);
      if CanBeClaimed(u, w) {
        if IsBacked(c, w.first) {
          CutKeepsBacked(c, u, through, w.first);
        } else {
          CutKeepsClear(c, u, through, w.first);
        }
      }
    }
  }

  lemma NormalizingMovesOn(c: Consumer)
    requires IsBearable(c)
    ensures OnlyCuts(c, Normalized(c), 0)
  {
    forall id | id in c.batches ensures MovesOn(c, c.batches[id], Normalized(c).batches[id], 0) {
      assert IsBearableRow(c, c.batches[id]);
    }
  }

  lemma ClaimMovesOn(c: Consumer, id: BatchId, owner: Owner, ttl: nat)
    requires IsBearable(c) && IsClaimable(Normalized(c), id)
    ensures OnlyCuts(c, Claimed(Normalized(c), id, owner, ttl), 0)
  {
    NormalizingMovesOn(c);
    var n, u := Normalized(c), Claimed(Normalized(c), id, owner, ttl);
    forall x | x in c.batches ensures MovesOn(c, c.batches[x], u.batches[x], 0) {
      assert MovesOn(c, c.batches[x], n.batches[x], 0);
    }
  }

  lemma DeferMovesOn(c: Consumer, l: Lease, retryIn: nat)
    requires IsBearable(c) && ValidLease(c, l)
    ensures OnlyCuts(c, Deferred(c, l, retryIn), 0)
  {
    forall id | id in c.batches ensures MovesOn(c, c.batches[id], Deferred(c, l, retryIn).batches[id], 0) {
      assert IsBearableRow(c, c.batches[id]);
    }
  }

  lemma CompactingMovesOn(c: Consumer, through: nat, force: bool)
    requires IsBearable(c)
    ensures OnlyCuts(c, Compacted(c, through, force), if force then through else 0)
  {
    forall id | id in c.batches
      ensures MovesOn(c, c.batches[id], Compacted(c, through, force).batches[id], if force then through else 0)
    {
      assert IsBearableRow(c, c.batches[id]);
    }
  }

  lemma UnchangedMovesOn(c: Consumer, u: Consumer)
    requires IsBearable(c) && u.batches == c.batches && u.cursor == c.cursor && u.doneThrough == c.doneThrough && u.epoch == c.epoch
    ensures OnlyCuts(c, u, 0)
  {
    forall id | id in c.batches ensures MovesOn(c, c.batches[id], u.batches[id], 0) {
      assert IsBearableRow(c, c.batches[id]);
    }
  }

  lemma RowStepKeepsBearable(s: System, a: Action)
    requires IsBearable(s.consumer) && Enabled(s, a) && IsRowStep(a)
    ensures IsBearable(Step(s, a).consumer)
  {
    var c, u := s.consumer, Step(s, a).consumer;
    match a
    case Append(_, _) =>
    case SwitchJournal(_, _) =>
    case Claim(id, owner, ttl) => ClaimMovesOn(c, id, owner, ttl); CutKeepsBearable(c, u, 0);
    case ClaimNothing => NormalizingMovesOn(c); CutKeepsBearable(c, u, 0);
    case Postpone(l, retryIn) => DeferMovesOn(c, l, retryIn); CutKeepsBearable(c, u, 0);
    case Compact(through, force) =>
      CompactingMovesOn(c, through, force);
      CutKeepsBearable(c, u, if force then through else 0);
    case Configure(_, _, _, _) => UnchangedMovesOn(c, u); CutKeepsBearable(c, u, 0);
    case Tick(_) => UnchangedMovesOn(c, u); CutKeepsBearable(c, u, 0);
  }

  /** A sweep that moves the position leaves everything that counts behind it. */
  lemma SweptRowBearable(s: System, a: Action, id: BatchId)
    requires IsBearable(s.consumer) && Enabled(s, a) && a.Sweep? && RowAfterSweep(s, a, id)
    ensures
      var u := Step(s, a).consumer;
      var w := u.batches[id];
      && 0 < w.first <= w.last && w.state != Suppressed && (Unfinished(w) ==> u.doneThrough < w.first <= u.cursor + 2)
      && (Counts(u, w) ==> w.last <= u.cursor + 1) && (Counts(u, w) && s.consumer.cursor < u.cursor ==> w.last <= u.cursor)
      && (IsStuck(u, w) && s.consumer.cursor < u.cursor ==> w.first <= u.cursor + 1)
  {
    var c, u := s.consumer, Step(s, a).consumer;
    CursorMovesOn(s, a);
    if id in c.batches {
      assert IsBearableRow(c, c.batches[id]);
    } else {
      FreshWorkInScan(s, a.rows, a.limit, a.q, a.packed, id, u.batches[id]);
    }
  }

  lemma MovingSweepKeepsBearable(s: System, a: Action)
    requires IsBearable(s.consumer) && Enabled(s, a) && a.Sweep? && s.consumer.cursor < Step(s, a).consumer.cursor
    ensures IsBearable(Step(s, a).consumer)
  {
    var u := Step(s, a).consumer;
    forall id | id in u.batches
      ensures
        var w := u.batches[id];
        && 0 < w.first <= w.last && w.state != Suppressed && (Unfinished(w) ==> u.doneThrough < w.first <= u.cursor + 2)
        && (Counts(u, w) ==> w.last <= u.cursor) && (IsStuck(u, w) ==> w.first <= u.cursor + 1)
    {
      SweptRow(s, a, id);
      SweptRowBearable(s, a, id);
    }
    forall id | id in u.batches && CanBeClaimed(u, u.batches[id])
      ensures IsBacked(u, u.batches[id].first) || IsClear(u, u.batches[id].first)
    {
    }
    CursorMovesOn(s, a);
  }

  /** A sweep that finds nothing only pauses and resumes. */
  lemma EmptySweepKeepsBearable(s: System, a: Action)
    requires IsBearable(s.consumer) && Enabled(s, a) && a.Sweep? && s.consumer.cursor == Step(s, a).consumer.cursor
    ensures IsBearable(Step(s, a).consumer)
  {
    var c, u := s.consumer, Step(s, a).consumer;
    CursorMovesOn(s, a);
    forall id | id in c.batches || id in u.batches
      ensures id in c.batches && id in u.batches && MovesOn(c, c.batches[id], u.batches[id], 0)
    {
      SweptRow(s, a, id);
      if id !in c.batches {
        FreshWorkInScan(s, a.rows, a.limit, a.q, a.packed, id, u.batches[id]);
      }
      assert IsBearableRow(c, c.batches[id]);
    }
    assert u.batches.Keys == c.batches.Keys;
    CutKeepsBearable(c, u, 0);
  }

  lemma ResetKeepsBearable(s: System, a: Action)
    requires IsBearable(s.consumer) && Enabled(s, a) && a.Reset? && KeepsPace(s, a)
    ensures IsBearable(Step(s, a).consumer)
  {
    var c, u := s.consumer, Step(s, a).consumer;
    forall id | id in u.batches ensures IsBearableRow(u, u.batches[id]) {
      assert IsBearableRow(c, c.batches[id]);
    }
  }

  /** Where a completion leaves the watermark: what is unfinished starts at or just past the cursor, or all that counts ends there. */
  lemma CompletionStaysBehind(c: Consumer, l: Lease, u: Consumer)
    requires IsBearable(c) && CompletedTo(c, l, u)
    ensures u.doneThrough <= c.cursor
    ensures forall id :: id in u.batches && Unfinished(u.batches[id]) ==> u.doneThrough < u.batches[id].first
  {
    var first := c.batches[l.batch].first;
    forall id | id in u.batches ensures 0 < u.batches[id].first {
      assert IsBearableRow(c, c.batches[id]);
    }
    assert IsBearableRow(c, c.batches[l.batch]);
    if IsBacked(c, first) {
      var t :| t in c.batches && IsStuck(c, c.batches[t]) && first <= c.batches[t].first <= c.cursor + 1;
      assert t in u.batches && Unfinished(u.batches[t]);
    } else {
      forall id | id in u.batches && Unfinished(u.batches[id]) ensures u.batches[id].first <= c.cursor + 1 {
        assert IsBearableRow(c, c.batches[id]) && (IsStuck(c, c.batches[id]) || Counts(c, c.batches[id]));
      }
      assert forall id :: id in u.batches && u.batches[id].state == Complete ==> Counts(c, c.batches[id]);
    }
  }

  lemma FinishKeepsBearable(s: System, a: Action)
    requires IsBearable(s.consumer) && Enabled(s, a) && a.Finish?
    ensures IsBearable(Step(s, a).consumer)
  {
    var c, u := s.consumer, Step(s, a).consumer;
    CompletionStaysBehind(c, a.lease, u);
    forall id | id in u.batches ensures IsBearableRow(u, u.batches[id]) {
      assert IsBearableRow(c, c.batches[id]);
      if CanBeClaimed(u, u.batches[id]) {
        CompletionKeepsCover(c, a.lease, u, u.batches[id].first);
      }
    }
  }

  lemma CompletionKeepsCover(c: Consumer, l: Lease, u: Consumer, first: nat)
    requires CompletedTo(c, l, u) && (IsBacked(c, first) || IsClear(c, first))
    ensures IsBacked(u, first) || IsClear(u, first)
  {
    if IsBacked(c, first) {
      var t :| t in c.batches && IsStuck(c, c.batches[t]) && first <= c.batches[t].first <= c.cursor + 1;
      assert t in u.batches && IsStuck(u, u.batches[t]);
    }
  }

  lemma StepKeepsBearable(s: System, a: Action)
    requires IsBearable(s.consumer) && Enabled(s, a) && KeepsPace(s, a)
    ensures IsBearable(Step(s, a).consumer)
  {
    if a.Sweep? {
      CursorMovesOn(s, a);
      if s.consumer.cursor < Step(s, a).consumer.cursor {
        MovingSweepKeepsBearable(s, a);
      } else {
        EmptySweepKeepsBearable(s, a);
      }
    } else if a.Finish? {
      FinishKeepsBearable(s, a);
    } else if a.Reset? {
      ResetKeepsBearable(s, a);
    } else {
      RowStepKeepsBearable(s, a);
    }
  }

  lemma {:induction false} BearableOverRun(s: System, actions: seq<Action>)
    requires IsBearable(s.consumer) && IsRun(s, actions) && KeepsPaceThroughout(s, actions)
    ensures Watermark(After(s, actions).consumer)
    decreases |actions|
  {
    if actions == [] {
      BearableIsSafe(s.consumer);
    } else {
      StepKeepsBearable(s, actions[0]);
      BearableOverRun(Step(s, actions[0]), actions[1..]);
    }
  }

  lemma BearableStaysSafe(s: System)
    requires IsBearable(s.consumer)
    ensures StaysSafe(s)
  {
    forall later | IsRun(s, later) && KeepsPaceThroughout(s, later) ensures Watermark(After(s, later).consumer) {
      BearableOverRun(s, later);
    }
  }
}
