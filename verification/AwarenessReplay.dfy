/**
 An administrator's replay reopens finished batches and takes the scan position
 back, but leaves the watermark: when that is harmless for good, and how a
 consumer that it disturbed becomes right again.
 */
module AwarenessReplay {
  import opened Wrappers
  import opened SweepPacking
  import opened Journal
  import opened Awareness
  import opened AwarenessRuns
  import opened AwarenessScripts
  import opened AwarenessBearable

  // ---- what happens beyond that -------------------------------------------

  function LiveRows(c: Consumer): set<BatchId> {
    set id | id in c.batches && IsLive(c, id)
  }

  /** Every batch that counted is complete; what is unfinished was stuck and starts at or after `first`. */
  ghost predicate Concluded(c: Consumer, u: Consumer, first: nat) {
    && u.cursor == c.cursor && u.batches.Keys == c.batches.Keys
    && (forall id :: id in c.batches ==> ConcludedRow(c, c.batches[id], u.batches[id], first))
  }

  ghost predicate ConcludedRow(c: Consumer, v: Work, w: Work, first: nat) {
    && w.first == v.first && w.last == v.last
    && (Unfinished(w) <==> IsStuck(c, v) && first <= v.first) && (Counts(c, v) ==> w.state == Complete)
  }

  /** After the early batches are complete and the work before `first` is cancelled. */
  ghost predicate Cleared(c: Consumer, u: Consumer, first: nat) {
    && u.cursor == c.cursor && u.batches.Keys == c.batches.Keys && u.epoch == c.epoch && u.now == c.now
    && (forall id :: id in c.batches ==> ClearedRow(c, c.batches[id], u.batches[id], first))
  }

  ghost predicate ClearedRow(c: Consumer, v: Work, w: Work, first: nat) {
    && w.first == v.first && w.last == v.last
    && (first <= v.first ==> w == v)
    && (v.first < first ==> !Unfinished(w) && (Counts(c, v) ==> w.state == Complete))
  }

  lemma ClearsBefore(s: System, first: nat) returns (later: seq<Action>, u: System)
    requires first > 0 && forall id :: IsLive(s.consumer, id) ==> IsMine(s.consumer, id)
    ensures Leads(s, later, u) && Cleared(s.consumer, u.consumer, first)
  {
    var c := s.consumer;
    var early := set id | id in c.batches && IsLive(c, id) && c.batches[id].first < first;
    assert AllMine(c, early);
    var begin, v := Completes(s, early);
    var compact := Compact(first - 1, true);
    u := Step(v, compact);
    forall id | id in c.batches ensures ClearedRow(c, c.batches[id], u.consumer.batches[id], first) {
      assert id in early <==> IsLive(c, id) && c.batches[id].first < first;
    }
    LeadsOnce(v, compact);
    Joined(s, begin, v, [compact], u);
    later := begin + [compact];
  }

  lemma ClearedThenCompleted(c: Consumer, t: Consumer, u: Consumer, first: nat, rest: set<BatchId>)
    requires forall id :: IsLive(c, id) ==> IsMine(c, id)
    requires Cleared(c, t, first) && rest == LiveRows(t) && Completed(t, u, rest)
    ensures Concluded(c, u, first)
  {
    forall id | id in c.batches ensures ConcludedRow(c, c.batches[id], u.batches[id], first) {
      assert ClearedRow(c, c.batches[id], t.batches[id], first);
      assert id in rest <==> IsLive(t, id);
    }
  }

  lemma SameThenConcluded(c: Consumer, t: Consumer, u: Consumer, first: nat)
    requires SameWork(c, t) && Concluded(t, u, first)
    ensures Concluded(c, u, first)
  {
    forall id | id in c.batches ensures ConcludedRow(c, c.batches[id], u.batches[id], first) {
      assert SameRow(c, c.batches[id], t.batches[id]) && ConcludedRow(t, t.batches[id], u.batches[id], first);
    }
  }

  lemma ClearedAreMine(c: Consumer, t: Consumer, first: nat)
    requires Cleared(c, t, first) && forall id :: IsLive(c, id) ==> IsMine(c, id)
    ensures AllMine(t, LiveRows(t))
    ensures forall id :: IsLive(c, id) && first <= c.batches[id].first ==> id in LiveRows(t)
  {
    forall id | id in LiveRows(t) ensures IsMine(t, id) {
      assert id in c.batches && ClearedRow(c, c.batches[id], t.batches[id], first);
      assert Unfinished(t.batches[id]) && t.batches[id] == c.batches[id];
      assert IsLive(c, id);
    }
    forall id | IsLive(c, id) && first <= c.batches[id].first ensures id in LiveRows(t) {
      assert ClearedRow(c, c.batches[id], t.batches[id], first);
    }
  }

  /** The early work completes or is cancelled; then all other work completes that can. */
  lemma Concludes(s: System, y: BatchId) returns (later: seq<Action>, u: System)
    requires IsFree(s.consumer) && IsLive(s.consumer, y) && s.consumer.batches[y].first > 0
    ensures Leads(s, later, u) && Concluded(s.consumer, u.consumer, s.consumer.batches[y].first) && IsSettledAt(u.consumer)
  {
    var first := s.consumer.batches[y].first;
    var begin, t := LeasesAll(s);
    assert SameRow(s.consumer, s.consumer.batches[y], t.consumer.batches[y]);
    var middle, v := ClearsBefore(t, first);
    ClearedAreMine(t.consumer, v.consumer, first);
    assert y in LiveRows(v.consumer);
    var end;
    end, u := Completes(v, LiveRows(v.consumer));
    ClearedThenCompleted(t.consumer, v.consumer, u.consumer, first, LiveRows(v.consumer));
    SameThenConcluded(s.consumer, t.consumer, u.consumer, first);
    Joined(t, middle, v, end, u);
    Joined(s, begin, t, middle + end, u);
    later := begin + (middle + end);
  }

  /** A live batch that is neither backed nor clear: the watermark can pass the cursor. */
  lemma UncoveredPasses(s: System, y: BatchId) returns (later: seq<Action>, u: System)
    requires IsFree(s.consumer) && IsLive(s.consumer, y) && s.consumer.batches[y].first > 0
    requires !IsBacked(s.consumer, s.consumer.batches[y].first) && !IsClear(s.consumer, s.consumer.batches[y].first)
    ensures Leads(s, later, u) && !Watermark(u.consumer)
  {
    later, u := Concludes(s, y);
    ConcludedPasses(s.consumer, u.consumer, s.consumer.batches[y].first);
  }

  lemma ConcludedPasses(c: Consumer, u: Consumer, first: nat)
    requires Concluded(c, u, first) && IsSettledAt(u) && !IsBacked(c, first) && !IsClear(c, first)
    ensures c.cursor == u.cursor < u.doneThrough
  {
    forall id | id in u.batches && Unfinished(u.batches[id]) ensures c.cursor + 2 <= u.batches[id].first {
      assert ConcludedRow(c, c.batches[id], u.batches[id], first);
    }
    if x :| x in c.batches && Counts(c, c.batches[x]) && c.cursor < c.batches[x].last {
      assert ConcludedRow(c, c.batches[x], u.batches[x], first);
      assert x in u.batches && u.batches[x].state == Complete && u.batches[x].last == c.batches[x].last;
    } else {
      var t :| t in c.batches && IsStuck(c, c.batches[t]) && first <= c.batches[t].first;
      assert ConcludedRow(c, c.batches[t], u.batches[t], first);
      assert t in u.batches && Unfinished(u.batches[t]);
    }
  }

  // ---- over an emptied journal --------------------------------------------

  lemma {:induction false} FirstsAreBelow(batches: map<BatchId, Work>, pool: set<BatchId>, least: nat) returns (through: nat)
    requires pool <= batches.Keys
    ensures least <= through && forall id :: id in pool ==> batches[id].first <= through
    decreases |pool|
  {
    through := least;
    if pool != {} {
      var y :| y in pool;
      through := FirstsAreBelow(batches, pool - {y}, least);
      if batches[y].first > through {
        through := batches[y].first;
      }
      assert forall id :: id in pool ==> id == y || id in pool - {y};
    }
  }

  /** Nothing is unfinished and the journal is empty; what counted is complete. */
  ghost predicate IsOver(c: Consumer, u: Consumer) {
    && u.cursor == c.cursor && u.batches.Keys == c.batches.Keys && u.enabled == c.enabled && u.hold == c.hold
    && forall id :: id in c.batches ==>
         && u.batches[id].last == c.batches[id].last && !Unfinished(u.batches[id])
         && (Counts(c, c.batches[id]) ==> u.batches[id].state == Complete)
  }

  lemma CompletedThenCut(c: Consumer, t: Consumer, v: Consumer, through: nat)
    requires SameWork(c, t) && Completed(t, v, LiveRows(t))
    requires forall id :: id in v.batches ==> v.batches[id].first <= through
    ensures IsOver(c, Compacted(v, through, true))
  {
    var u := Compacted(v, through, true);
    forall id | id in c.batches
      ensures u.batches[id].last == c.batches[id].last && !Unfinished(u.batches[id])
      ensures Counts(c, c.batches[id]) ==> u.batches[id].state == Complete
    {
      assert SameRow(c, c.batches[id], t.batches[id]);
      assert id in LiveRows(t) <==> IsLive(t, id);
    }
  }

  /** Everything that can be completed is, the rest is cancelled, and the journal is emptied. */
  lemma EverythingEnds(s: System) returns (later: seq<Action>, u: System)
    requires IsFree(s.consumer)
    ensures Leads(s, later, u) && IsOver(s.consumer, u.consumer) && u.journal == map[]
  {
    var begin, t := LeasesAll(s);
    assert AllMine(t.consumer, LiveRows(t.consumer));
    var middle, v := Completes(t, LiveRows(t.consumer));
    var newest := NewestExists(v.journal);
    var through := FirstsAreBelow(v.consumer.batches, v.consumer.batches.Keys, newest);
    var compact := Compact(through, true);
    u := Step(v, compact);
    CompletedThenCut(s.consumer, t.consumer, v.consumer, through);
    assert u.journal == map[];
    LeadsOnce(v, compact);
    Joined(t, middle, v, [compact], u);
    Joined(s, begin, t, middle + [compact], u);
    later := begin + (middle + [compact]);
  }

  lemma RestartsAndFinishes(t: System) returns (later: seq<Action>, v: Consumer, u: System, y: BatchId)
    requires t.journal == map[] && IsFree(t.consumer)
    ensures Leads(t, later, u) && GainsOne(t.consumer, v, y) && Completed(v, u.consumer, {y}) && IsSettledAt(u.consumer)
  {
    var middle, w;
    middle, w, y := NumbersRestart(t);
    v := w.consumer;
    assert AllMine(v, {y});
    var end;
    end, u := Completes(w, {y});
    Joined(t, middle, w, end, u);
    later := middle + end;
  }

  /** A live batch that ends two past the position: after everything else, one new entry exposes it. */
  lemma FarBatchPasses(s: System, x: BatchId) returns (later: seq<Action>, u: System)
    requires IsFree(s.consumer) && x in s.consumer.batches
    requires Counts(s.consumer, s.consumer.batches[x]) && s.consumer.cursor + 2 <= s.consumer.batches[x].last
    ensures Leads(s, later, u) && !Watermark(u.consumer)
  {
    var begin, t := EverythingEnds(s);
    var end, v, y;
    end, v, u, y := RestartsAndFinishes(t);
    assert KeepsState(t.consumer.batches[x], v.batches[x]);
    forall id | id in u.consumer.batches ensures !Unfinished(u.consumer.batches[id]) {
      assert id != y ==> KeepsState(t.consumer.batches[id], v.batches[id]);
    }
    assert u.consumer.batches[x].state == Complete;
    Joined(s, begin, t, end, u);
    later := begin + end;
  }

  lemma SettledBeyond(u: Consumer, x: BatchId)
    requires IsSettledAt(u) && x in u.batches && Unfinished(u.batches[x])
    requires forall id :: id in u.batches && Unfinished(u.batches[id]) ==> u.cursor + 2 <= u.batches[id].first
    ensures !Watermark(u)
  {
  }

  /** Only work that starts three or more past the position is left unfinished. */
  ghost predicate LeavesBeyond(c: Consumer, t: Consumer) {
    && t.cursor == c.cursor && t.batches.Keys == c.batches.Keys
    && forall id :: id in c.batches ==> LeftBeyond(c.batches[id], t.batches[id], c.cursor + 2)
  }

  predicate LeftBeyond(v: Work, w: Work, through: nat) {
    w.first == v.first && (Unfinished(w) <==> Unfinished(v) && through < v.first)
  }

  /** Cancelling up to two past the position leaves only what starts beyond, the batch in question included. */
  lemma CutThenGained(c: Consumer, t: Consumer, v: Consumer, u: Consumer, y: BatchId, x: BatchId)
    requires LeavesBeyond(c, t) && GainsOne(t, v, y) && Completed(v, u, {y}) && IsSettledAt(u)
    requires x in c.batches && Unfinished(c.batches[x]) && c.cursor + 3 <= c.batches[x].first
    ensures !Watermark(u)
  {
    assert KeepsState(t.batches[x], v.batches[x]) && LeftBeyond(c.batches[x], t.batches[x], c.cursor + 2);
    forall id | id in u.batches && Unfinished(u.batches[id]) ensures c.cursor + 3 <= u.batches[id].first {
      assert id != y && KeepsState(t.batches[id], v.batches[id]) && LeftBeyond(c.batches[id], t.batches[id], c.cursor + 2);
    }
    SettledBeyond(u, x);
  }

  lemma CutsBeyond(s: System) returns (later: seq<Action>, t: System)
    requires s.journal == map[] && IsFree(s.consumer)
    ensures Leads(s, later, t) && LeavesBeyond(s.consumer, t.consumer) && t.journal == map[] && IsFree(t.consumer)
  {
    var compact := Compact(s.consumer.cursor + 2, true);
    t := Step(s, compact);
    assert t.journal == map[];
    LeadsOnce(s, compact);
    later := [compact];
  }

  /** A stuck batch that starts three past the position, over an empty journal: one new entry exposes it. */
  lemma FarStuckPasses(s: System, x: BatchId) returns (later: seq<Action>, u: System)
    requires IsFree(s.consumer) && s.journal == map[] && x in s.consumer.batches
    requires IsStuck(s.consumer, s.consumer.batches[x]) && s.consumer.cursor + 3 <= s.consumer.batches[x].first
    ensures Leads(s, later, u) && !Watermark(u.consumer)
  {
    var begin, t := CutsBeyond(s);
    var end, v, y;
    end, v, u, y := RestartsAndFinishes(t);
    CutThenGained(s.consumer, t.consumer, v, u.consumer, y, x);
    Joined(s, begin, t, end, u);
    later := begin + end;
  }

  // ---- exactly the harmless replays ---------------------------------------

  /** What the replay leaves unfinished. */
  predicate IsLeftOpen(c: Consumer, from: nat, w: Work) {
    IsReplayed(c, from, w) || Unfinished(w)
  }

  /** And of that, what some worker can be given. */
  predicate IsLeftLive(c: Consumer, from: nat, w: Work) {
    (IsReplayed(c, from, w) && w.epoch == c.epoch) || CanBeClaimed(c, w)
  }

  /** A batch that nobody can claim starts at or after `first`, and at or just past the new position. */
  ghost predicate IsHeldBack(c: Consumer, from: nat, first: nat) {
    exists t :: t in c.batches && IsLeftOpen(c, from, c.batches[t]) && !IsLeftLive(c, from, c.batches[t])
                && first <= c.batches[t].first <= RewoundTo(from) + 1
  }

  /** No such batch starts at or after `first`, and nothing that can be claimed ends past the new position. */
  ghost predicate IsWithin(c: Consumer, from: nat, first: nat) {
    && (forall t :: t in c.batches && IsLeftOpen(c, from, c.batches[t]) && !IsLeftLive(c, from, c.batches[t]) ==>
          c.batches[t].first < first)
    && (forall x :: x in c.batches && IsLeftLive(c, from, c.batches[x]) ==> c.batches[x].last <= RewoundTo(from))
  }

  /**
   The watermark is not ahead of the new position; what is left open starts
   above it and at most two past the position; what can be claimed ends at most
   one past the position, and is held back or lies within it altogether.
   */
  ghost predicate IsHarmless(c: Consumer, from: nat) {
    && c.doneThrough <= RewoundTo(from)
    && forall id :: id in c.batches ==> IsHarmlessRow(c, from, c.batches[id])
  }

  ghost predicate IsHarmlessRow(c: Consumer, from: nat, w: Work) {
    && (IsLeftOpen(c, from, w) ==> c.doneThrough < w.first <= RewoundTo(from) + 2)
    && (IsLeftLive(c, from, w) ==> w.last <= RewoundTo(from) + 1 && (IsHeldBack(c, from, w.first) || IsWithin(c, from, w.first)))
  }

  /** How a row stands after the replay. */
  ghost predicate IsLeftAs(c: Consumer, from: nat, id: BatchId)
    requires id in c.batches
  {
    var v, u := c.batches[id], Replayed(c, from);
    var w := u.batches[id];
    && 0 < v.first == w.first <= w.last == v.last && w.state != Suppressed
    && (Unfinished(w) <==> IsLeftOpen(c, from, v)) && (CanBeClaimed(u, w) <==> IsLeftLive(c, from, v))
    && (w.state == Complete ==> w.last <= RewoundTo(from))
  }

  lemma ReplayLeaves(c: Consumer, from: nat, id: BatchId)
    requires Steady(c) && id in c.batches
    ensures IsLeftAs(c, from, id)
  {
    assert IsSteadyRow(c, c.batches[id]);
  }

  lemma CoverIsTheSame(c: Consumer, from: nat, first: nat)
    requires Steady(c)
    ensures IsBacked(Replayed(c, from), first) <==> IsHeldBack(c, from, first)
    ensures IsClear(Replayed(c, from), first) <==> IsWithin(c, from, first)
  {
    var u := Replayed(c, from);
    forall id | id in c.batches ensures IsLeftAs(c, from, id) {
      ReplayLeaves(c, from, id);
    }
    if IsHeldBack(c, from, first) {
      var t :| t in c.batches && IsLeftOpen(c, from, c.batches[t]) && !IsLeftLive(c, from, c.batches[t])
        && first <= c.batches[t].first <= RewoundTo(from) + 1;
      assert t in u.batches && IsStuck(u, u.batches[t]);
    }
    if IsBacked(u, first) {
      var t :| t in u.batches && IsStuck(u, u.batches[t]) && first <= u.batches[t].first <= u.cursor + 1;
      assert t in c.batches && IsLeftAs(c, from, t);
    }
    WithinIsClear(c, from, first);
  }

  lemma WithinIsClear(c: Consumer, from: nat, first: nat)
    requires forall id :: id in c.batches ==> IsLeftAs(c, from, id)
    ensures IsClear(Replayed(c, from), first) <==> IsWithin(c, from, first)
  {
    var u := Replayed(c, from);
    if IsClear(u, first) {
      forall t | t in c.batches && IsLeftOpen(c, from, c.batches[t]) && !IsLeftLive(c, from, c.batches[t])
        ensures c.batches[t].first < first
      {
        assert IsLeftAs(c, from, t) && IsStuck(u, u.batches[t]);
      }
      forall x | x in c.batches && IsLeftLive(c, from, c.batches[x]) ensures c.batches[x].last <= RewoundTo(from) {
        assert IsLeftAs(c, from, x) && Counts(u, u.batches[x]);
      }
    }
    if IsWithin(c, from, first) {
      forall t | t in u.batches && IsStuck(u, u.batches[t]) ensures u.batches[t].first < first {
        assert IsLeftAs(c, from, t);
      }
      forall x | x in u.batches && Counts(u, u.batches[x]) ensures u.batches[x].last <= u.cursor {
        assert IsLeftAs(c, from, x);
      }
    }
  }

  lemma HarmlessRowIsBearable(c: Consumer, from: nat, id: BatchId)
    requires Steady(c) && id in c.batches && c.doneThrough <= RewoundTo(from)
    ensures IsBearableRow(Replayed(c, from), Replayed(c, from).batches[id]) <==> IsHarmlessRow(c, from, c.batches[id])
  {
    ReplayLeaves(c, from, id);
    CoverIsTheSame(c, from, c.batches[id].first);
  }

  lemma HarmlessMeansBearable(c: Consumer, from: nat)
    requires Steady(c)
    ensures IsBearable(Replayed(c, from)) <==> IsHarmless(c, from)
  {
    if c.doneThrough <= RewoundTo(from) {
      forall id | id in c.batches
        ensures IsBearableRow(Replayed(c, from), Replayed(c, from).batches[id]) <==> IsHarmlessRow(c, from, c.batches[id])
      {
        HarmlessRowIsBearable(c, from, id);
      }
    }
  }

  /** After a harmless replay the watermark stays right for good, whatever the journal holds. */
  lemma HarmlessReplayStaysSafe(s: System, a: Action)
    requires Steady(s.consumer) && Enabled(s, a) && a.Replay? && IsHarmless(s.consumer, a.from)
    ensures StaysSafe(Step(s, a))
  {
    HarmlessMeansBearable(s.consumer, a.from);
    BearableStaysSafe(Step(s, a));
  }

  /** No source is held back and the consumer is on; the batches are as they were. */
  function Freed(s: System): System {
    s.(consumer := s.consumer.(stalled := {}, hold := false, enabled := true))
  }

  lemma FreedPasses(s: System, later: seq<Action>, u: System)
    requires Leads(Freed(s), later, u) && !Watermark(u.consumer)
    ensures !StaysSafe(s)
  {
    var configure := Configure({}, false, true, s.consumer.maxAttempts);
    assert Step(s, configure) == Freed(s);
    LeadsFirst(s, configure, later, u);
    assert IsRun(s, [configure] + later);
  }

  /** Where the rows of a consumer are not bearable, a run takes the watermark wrong. */
  lemma UnbearableRowPasses(s: System, id: BatchId)
    requires Watermark(s.consumer) && id in s.consumer.batches
    requires forall x :: x in s.consumer.batches ==>
      0 < s.consumer.batches[x].first <= s.consumer.batches[x].last && s.consumer.batches[x].state != Suppressed
    requires !IsBearableRow(s.consumer, s.consumer.batches[id])
    requires IsStuck(s.consumer, s.consumer.batches[id]) && s.consumer.cursor + 3 <= s.consumer.batches[id].first ==>
      s.journal == map[]
    ensures !StaysSafe(s)
  {
    var c, f := s.consumer, Freed(s);
    var w := c.batches[id];
    if Counts(c, w) && c.cursor + 2 <= w.last {
      var later, u := FarBatchPasses(f, id);
      FreedPasses(s, later, u);
    } else if IsStuck(c, w) {
      var later, u := FarStuckPasses(f, id);
      FreedPasses(s, later, u);
    } else {
      assert CanBeClaimed(c, w) && !IsBacked(c, w.first) && !IsClear(c, w.first);
      FreedIsUncovered(c, f.consumer, w.first);
      assert IsLive(f.consumer, id);
      var later, u := UncoveredPasses(f, id);
      FreedPasses(s, later, u);
    }
  }

  lemma FreedIsUncovered(c: Consumer, f: Consumer, first: nat)
    requires f.batches == c.batches && f.cursor == c.cursor && f.epoch == c.epoch
    ensures IsBacked(f, first) <==> IsBacked(c, first)
    ensures IsClear(f, first) <==> IsClear(c, first)
  {
    assert forall w :: IsStuck(f, w) <==> IsStuck(c, w);
    assert forall w :: Counts(f, w) <==> Counts(c, w);
  }

  lemma HarmfulReplayPasses(s: System, a: Action)
    requires Steady(s.consumer) && Enabled(s, a) && a.Replay? && !IsHarmless(s.consumer, a.from)
    requires s.journal == map[] || LeavesNoneFar(s.consumer, a.from)
    ensures !StaysSafe(Step(s, a))
  {
    var u := Step(s, a);
    HarmlessMeansBearable(s.consumer, a.from);
    if Watermark(u.consumer) {
      var id :| id in u.consumer.batches && !IsBearableRow(u.consumer, u.consumer.batches[id]);
      forall x | x in s.consumer.batches ensures IsLeftAs(s.consumer, a.from, x) {
        ReplayLeaves(s.consumer, a.from, x);
      }
      assert IsLeftAs(s.consumer, a.from, id);
      UnbearableRowPasses(u, id);
    } else {
      assert IsRun(u, []) && After(u, []) == u;
    }
  }

  /** No batch that nobody can claim is left open three or more past the new position. */
  ghost predicate LeavesNoneFar(c: Consumer, from: nat) {
    forall id :: id in c.batches && IsLeftOpen(c, from, c.batches[id]) && !IsLeftLive(c, from, c.batches[id]) ==>
      c.batches[id].first <= RewoundTo(from) + 2
  }

  /**
   Exactly which replays are harmless for good over the journal as it is, unless
   a batch that nobody can claim lies far past the new position.
   */
  lemma ReplayEndangersHereExactly(s: System, a: Action)
    requires Steady(s.consumer) && Enabled(s, a) && a.Replay? && LeavesNoneFar(s.consumer, a.from)
    ensures StaysSafe(Step(s, a)) <==> IsHarmless(s.consumer, a.from)
  {
    if IsHarmless(s.consumer, a.from) {
      HarmlessReplayStaysSafe(s, a);
    } else {
      HarmfulReplayPasses(s, a);
    }
  }

  /** The replay is safe for good, whatever the journal holds. */
  ghost predicate StaysSafeAnywhere(c: Consumer, from: nat)
    requires from <= c.cursor
  {
    forall s: System :: s.consumer == c ==> StaysSafe(Step(s, Replay(from)))
  }

  /**
   Exactly which replays are harmless for good, whatever the journal holds and
   whatever is quarantined or of an older epoch.
   */
  lemma ReplayEndangersExactly(c: Consumer, from: nat)
    requires Steady(c) && from <= c.cursor
    ensures StaysSafeAnywhere(c, from) <==> IsHarmless(c, from)
  {
    if IsHarmless(c, from) {
      forall s: System | s.consumer == c ensures StaysSafe(Step(s, Replay(from))) {
        HarmlessReplayStaysSafe(s, Replay(from));
      }
    } else {
      var s := System(c, map[], true, 0, {}, History(0, {}, {}, {}, map[], {}, {}), []);
      HarmfulReplayPasses(s, Replay(from));
    }
  }

  // ---- recovery -----------------------------------------------------------

  lemma SteadyIsBearable(c: Consumer)
    requires Steady(c)
    ensures IsBearable(c)
  {
    forall id | id in c.batches ensures IsBearableRow(c, c.batches[id]) {
      var w := c.batches[id];
      assert IsSteadyRow(c, w);
      if CanBeClaimed(c, w) && !IsBacked(c, w.first) {
        forall t | t in c.batches && IsStuck(c, c.batches[t]) ensures c.batches[t].first < w.first {
          assert IsSteadyRow(c, c.batches[t]);
        }
        forall x | x in c.batches && Counts(c, c.batches[x]) ensures c.batches[x].last <= c.cursor {
          assert IsSteadyRow(c, c.batches[x]);
        }
      }
    }
  }

  function Highest(c: Consumer, top: nat): nat {
    if c.cursor < top then top else c.cursor
  }

  /** Everything that counts ends at or before the cursor or the position before the replay. */
  ghost predicate IsBoundedRow(c: Consumer, top: nat, w: Work) {
    && 0 < w.first <= w.last && w.state != Suppressed
    && (Unfinished(w) ==> w.first <= Highest(c, top) + 1)
    && (Counts(c, w) ==> w.last <= Highest(c, top))
  }

  ghost predicate Bounded(c: Consumer, top: nat) {
    c.doneThrough <= Highest(c, top) && forall id :: id in c.batches ==> IsBoundedRow(c, top, c.batches[id])
  }

  lemma ReplayIsBounded(c: Consumer, from: nat)
    requires Steady(c) && from <= c.cursor
    ensures Bounded(Replayed(c, from), c.cursor)
  {
    var u := Replayed(c, from);
    forall id | id in u.batches ensures IsBoundedRow(u, c.cursor, u.batches[id]) {
      assert IsSteadyRow(c, c.batches[id]);
    }
  }

  lemma SettlingKeepsBounds(c: Consumer, u: Consumer, top: nat)
    requires Bounded(c, top) && OnlySettles(c, u)
    ensures Bounded(u, top)
  {
    forall id | id in u.batches ensures IsBoundedRow(u, top, u.batches[id]) {
      assert IsBoundedRow(c, top, c.batches[id]) && Settles(c, c.batches[id], u.batches[id]);
    }
  }

  lemma SweepKeepsBounds(s: System, a: Action, top: nat)
    requires Bounded(s.consumer, top) && Enabled(s, a) && a.Sweep?
    ensures Bounded(Step(s, a).consumer, top)
  {
    var c, u := s.consumer, Step(s, a).consumer;
    CursorMovesOn(s, a);
    forall id | id in u.batches ensures IsBoundedRow(u, top, u.batches[id]) {
      SweptRow(s, a, id);
      if id in c.batches {
        assert IsBoundedRow(c, top, c.batches[id]);
      } else {
        FreshWorkInScan(s, a.rows, a.limit, a.q, a.packed, id, u.batches[id]);
      }
    }
  }

  lemma FinishKeepsBounds(s: System, a: Action, top: nat)
    requires Bounded(s.consumer, top) && Enabled(s, a) && a.Finish?
    ensures Bounded(Step(s, a).consumer, top)
    ensures top <= s.consumer.cursor ==> Steady(Step(s, a).consumer)
  {
    var c, u := s.consumer, Step(s, a).consumer;
    forall id | id in u.batches ensures IsBoundedRow(c, top, u.batches[id]) {
      assert IsBoundedRow(c, top, c.batches[id]);
    }
    AdvancedStaysBelow(u.batches, c.doneThrough, u.doneThrough, Highest(c, top));
    forall id | id in u.batches ensures IsBoundedRow(u, top, u.batches[id]) {
      assert IsBoundedRow(c, top, u.batches[id]);
    }
    if top <= c.cursor {
      forall id | id in u.batches ensures IsSteadyRow(u, u.batches[id]) {
        assert IsBoundedRow(u, top, u.batches[id]);
      }
    }
  }

  lemma ResetKeepsBounds(s: System, a: Action, top: nat)
    requires Bounded(s.consumer, top) && Enabled(s, a) && a.Reset? && KeepsPace(s, a)
    ensures Bounded(Step(s, a).consumer, top)
  {
    var c, u := s.consumer, Step(s, a).consumer;
    forall id | id in u.batches ensures IsBoundedRow(u, top, u.batches[id]) {
      assert IsBoundedRow(c, top, c.batches[id]);
    }
  }

  lemma {:induction false} BoundsOverRun(s: System, actions: seq<Action>, top: nat)
    requires Bounded(s.consumer, top) && IsRun(s, actions) && KeepsPaceThroughout(s, actions)
    ensures Bounded(After(s, actions).consumer, top)
    decreases |actions|
  {
    if actions != [] {
      var a := actions[0];
      if a.Sweep? {
        SweepKeepsBounds(s, a, top);
      } else if a.Finish? {
        FinishKeepsBounds(s, a, top);
      } else if a.Reset? {
        ResetKeepsBounds(s, a, top);
      } else {
        RowStepSettles(s, a);
        SettlingKeepsBounds(s.consumer, Step(s, a).consumer, top);
      }
      BoundsOverRun(Step(s, a), actions[1..], top);
    }
  }

  /**
   After any replay, however harmful: once sweeps have caught up with the
   position before it, the next accepted completion makes the watermark right,
   and it stays right.
   */
  lemma CatchingUpRestores(s: System, a: Action, later: seq<Action>, finish: Action)
    requires Steady(s.consumer) && Enabled(s, a) && a.Replay?
    requires IsRun(Step(s, a), later) && KeepsPaceThroughout(Step(s, a), later)
    requires s.consumer.cursor <= After(Step(s, a), later).consumer.cursor
    requires finish.Finish? && Enabled(After(Step(s, a), later), finish)
    ensures StaysSafe(Step(After(Step(s, a), later), finish))
  {
    ReplayIsBounded(s.consumer, a.from);
    BoundsOverRun(Step(s, a), later, s.consumer.cursor);
    FinishKeepsBounds(After(Step(s, a), later), finish, s.consumer.cursor);
    SteadyIsBearable(Step(After(Step(s, a), later), finish).consumer);
    BearableStaysSafe(Step(After(Step(s, a), later), finish));
  }

  // ---- sweeps that cannot repeat ------------------------------------------

  /** The next scan is full, passes something over, and its range is on record: the sweep is rolled back. */
  ghost predicate IsBlocked(s: System, rows: seq<Event>, limit: nat, q: Limits) {
    && IsScan(rows, s.journal, s.consumer.epoch, Start(s), limit) && |rows| == limit && Suppresses(rows, q)
    && (Start(s), CursorAfter(rows, Start(s))) in s.consumer.receipts
  }

  /** Workers, appends and time; sweeps as the consumer is configured. */
  predicate IsUsual(a: Action, limit: nat, q: Limits) {
    !a.SwitchJournal? && !a.Compact? && !a.Reset? && !a.Replay? && (a.Sweep? ==> a.limit == limit && a.q == q)
  }

  lemma BlockedRefusesSweep(s: System, rows: seq<Event>, limit: nat, q: Limits, a: Action)
    requires IsBlocked(s, rows, limit, q) && Enabled(s, a) && IsUsual(a, limit, q)
    ensures !a.Sweep?
  {
    if a.Sweep? {
      ScanIsUnique(rows, a.rows, s.journal, s.consumer.epoch, Start(s), limit);
    }
  }

  lemma AppendKeepsBlocked(s: System, rows: seq<Event>, limit: nat, q: Limits, a: Action)
    requires IsBlocked(s, rows, limit, q) && Enabled(s, a) && a.Append?
    ensures IsBlocked(Step(s, a), rows, limit, q)
  {
    var u := Step(s, a);
    assert rows != [];
    assert IsEntry(rows[|rows| - 1], s.journal, s.consumer.epoch, Start(s));
    forall i | 0 <= i < |rows| ensures IsEntry(rows[i], u.journal, u.consumer.epoch, Start(u)) {
      assert IsEntry(rows[i], s.journal, s.consumer.epoch, Start(s));
    }
    forall n | IsAhead(u.journal, u.consumer.epoch, Start(u), n) ensures IsCovered(rows, u.journal, Start(u), limit, n) {
      if n in s.journal && u.journal[n] == s.journal[n] {
        assert IsCovered(rows, s.journal, Start(s), limit, n);
      }
    }
  }

  lemma OtherStepKeepsBlocked(s: System, rows: seq<Event>, limit: nat, q: Limits, a: Action)
    requires IsBlocked(s, rows, limit, q) && Enabled(s, a) && IsUsual(a, limit, q) && !a.Sweep? && !a.Append?
    ensures IsBlocked(Step(s, a), rows, limit, q) && Step(s, a).consumer.cursor == s.consumer.cursor
  {
    if IsRowStep(a) {
      RowStepSettles(s, a);
    }
  }

  /**
   After a replay over a full scan that passed something over before: no sweep
   completes any more and the position never moves, as long as nothing but
   appends, workers, configuration of sources and time happens.
   */
  lemma {:induction false} BlockedForGood(s: System, actions: seq<Action>, rows: seq<Event>, limit: nat, q: Limits)
    requires IsBlocked(s, rows, limit, q) && IsRun(s, actions)
    requires forall i :: 0 <= i < |actions| ==> IsUsual(actions[i], limit, q)
    ensures IsBlocked(After(s, actions), rows, limit, q) && After(s, actions).consumer.cursor == s.consumer.cursor
    ensures forall i :: 0 <= i < |actions| ==> !actions[i].Sweep?
    decreases |actions|
  {
    if actions != [] {
      var a := actions[0];
      BlockedRefusesSweep(s, rows, limit, q, a);
      if a.Append? {
        AppendKeepsBlocked(s, rows, limit, q, a);
      } else {
        OtherStepKeepsBlocked(s, rows, limit, q, a);
      }
      assert forall i :: 0 <= i < |actions| - 1 ==> actions[1..][i] == actions[i + 1];
      BlockedForGood(Step(s, a), actions[1..], rows, limit, q);
      forall i | 0 <= i < |actions| ensures !actions[i].Sweep? {
        assert i > 0 ==> actions[i] == actions[1..][i - 1];
      }
    }
  }
}
