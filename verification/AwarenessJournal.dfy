/**
 What the consumer owes to the journal: no row is skipped behind the scan
 position, what is given up is flagged, and what the watermark covers was
 analysed.  All of it rests on numbers and identities that are not used again.
 */
module AwarenessJournal {
  import opened Wrappers
  import opened SweepPacking
  import opened Journal
  import opened Awareness
  import opened AwarenessRuns

  // ---- nothing is skipped -------------------------------------------------

  /** The row is settled, or was read and lies in an unfinished batch that will hand it out. */
  ghost predicate IsDealt(s: System, e: Entry) {
    IsSettled(s.past, e) || (e in s.past.read && IsHeld(s, e))
  }

  /** The row is still ahead of the scan, or it is dealt with. */
  ghost predicate IsFollowed(s: System, n: nat) {
    && n in s.journal && s.journal[n].epoch == s.consumer.epoch
    && (Start(s) < n || IsDealt(s, s.journal[n]))
  }

  predicate IsOld(h: History, rows: set<Entry>) {
    forall e :: e in rows ==> e.serial < h.appends
  }

  /** The history speaks of rows that were appended. */
  ghost predicate HistoryAgrees(s: System) {
    var h := s.past;
    && IsOld(h, h.read) && IsOld(h, h.passed) && IsOld(h, h.analysed) && IsOld(h, h.givenUp)
    && (forall id :: id in h.handed ==> IsOld(h, h.handed[id]))
    && (forall n :: n in s.journal ==> s.journal[n].serial < h.appends)
  }

  ghost predicate NothingSkipped(s: System) {
    IsJournal(s.journal) && HistoryAgrees(s) && forall n :: n in s.owed ==> IsFollowed(s, n)
  }

  /** A new entry is numbered ahead of the scan position. */
  predicate KeepsNumbers(s: System, a: Action) {
    a.Append? && s.on ==> Start(s) <= a.newest
  }

  /** The row is packed into a batch whose identity is new, or it is dealt with already. */
  ghost predicate IsTaken(s: System, packed: seq<Batch>, n: nat)
    requires AreFlushable(packed) && n in s.journal
  {
    || IsSettled(s.past, s.journal[n]) || IsHeld(s, s.journal[n])
    || exists i :: 0 <= i < |packed| && s.journal[n].event in EventsOf(packed[i]) && IdOf(packed[i]) !in s.consumer.batches
  }

  /** No batch of owed rows is ignored because a batch of the same identity is known. */
  ghost predicate TakesWhatItReads(s: System, a: Action)
    requires Enabled(s, a)
  {
    a.Sweep? ==>
      forall n :: n in s.owed && n in s.journal && s.journal[n].event in Kept(a.rows, a.q.purpose, a.q.sources) ==>
        IsTaken(s, a.packed, n)
  }

  ghost predicate KeepsFollowing(s: System, a: Action)
    requires Enabled(s, a)
  {
    KeepsNumbers(s, a) && TakesWhatItReads(s, a)
  }

  ghost predicate KeepsFollowingThroughout(s: System, actions: seq<Action>)
    requires IsRun(s, actions)
    decreases |actions|
  {
    actions == [] || (KeepsFollowing(s, actions[0]) && KeepsFollowingThroughout(Step(s, actions[0]), actions[1..]))
  }

  ghost predicate NothingSkippedThroughout(s: System, actions: seq<Action>)
    requires IsRun(s, actions)
    decreases |actions|
  {
    NothingSkipped(s) && (actions == [] || NothingSkippedThroughout(Step(s, actions[0]), actions[1..]))
  }

  // ---- what is dealt with stays so ----------------------------------------

  lemma HeldByNormalized(s: System, id: BatchId, e: Entry)
    requires Holds(s, id, e)
    ensures Holds(s.(consumer := Normalized(s.consumer)), id, e)
  {
  }

  lemma ClaimKeepsHeld(s: System, a: Action, id: BatchId, n: nat)
    requires Enabled(s, a) && a.Claim? && n in s.journal && Holds(s, id, s.journal[n])
    ensures Holds(Step(s, a), id, s.journal[n])
  {
    HeldByNormalized(s, id, s.journal[n]);
    assert s.journal[n] in HandedOut(s.journal, id);
  }

  lemma FinishKeepsDealt(s: System, a: Action, id: BatchId, e: Entry)
    requires Enabled(s, a) && a.Finish? && Holds(s, id, e)
    ensures IsSettled(Step(s, a).past, e) || Holds(Step(s, a), id, e)
  {
  }

  lemma CompactKeepsDealt(s: System, a: Action, id: BatchId, n: nat)
    requires Enabled(s, a) && a.Compact? && n in s.owed && n in s.journal && Holds(s, id, s.journal[n])
    ensures IsSettled(Step(s, a).past, s.journal[n]) || Holds(Step(s, a), id, s.journal[n])
  {
    var u := Step(s, a);
    if !IsSettled(s.past, s.journal[n]) && u.consumer.batches[id].state == Cancelled {
      assert IsCut(s.consumer, u.consumer, s.journal[n]);
      assert s.journal[n] in Lost(s, u.consumer, a.through);
    }
  }

  lemma SweepKeepsHeld(s: System, a: Action, id: BatchId, e: Entry)
    requires Enabled(s, a) && a.Sweep? && Holds(s, id, e)
    ensures Holds(Step(s, a), id, e)
  {
    SweptRow(s, a, id);
  }

  lemma QuietKeepsHeld(s: System, a: Action, id: BatchId, e: Entry)
    requires Enabled(s, a) && Holds(s, id, e)
    requires !a.Claim? && !a.Finish? && !a.Compact? && !a.Sweep? && !a.Reset?
    ensures Holds(Step(s, a), id, e)
  {
    match a
    case Append(_, _) =>
    case SwitchJournal(_, _) =>
    case ClaimNothing => HeldByNormalized(s, id, e);
    case Postpone(_, _) =>
    case Replay(_) =>
    case Configure(_, _, _, _) =>
    case Tick(_) =>
  }

  lemma HistoryGrows(s: System, a: Action)
    requires Enabled(s, a)
    ensures s.past.read <= Step(s, a).past.read && s.past.appends <= Step(s, a).past.appends
    ensures forall e :: IsSettled(s.past, e) ==> IsSettled(Step(s, a).past, e)
  {
  }

  /** A row that is dealt with stays so while it is owed. */
  lemma DealtStays(s: System, a: Action, n: nat)
    requires Enabled(s, a) && n in s.owed && n in s.journal && IsDealt(s, s.journal[n]) && !a.Reset?
    ensures IsDealt(Step(s, a), s.journal[n])
  {
    var e, u := s.journal[n], Step(s, a);
    HistoryGrows(s, a);
    if !IsSettled(s.past, e) {
      var id :| id in s.consumer.batches && Holds(s, id, e);
      if a.Claim? {
        ClaimKeepsHeld(s, a, id, n);
      } else if a.Finish? {
        FinishKeepsDealt(s, a, id, e);
      } else if a.Compact? {
        CompactKeepsDealt(s, a, id, n);
      } else if a.Sweep? {
        SweepKeepsHeld(s, a, id, e);
      } else {
        QuietKeepsHeld(s, a, id, e);
      }
      assert IsSettled(u.past, e) || (id in u.consumer.batches && Holds(u, id, e));
    }
  }

  // ---- the tables stay in order -------------------------------------------

  lemma JournalStays(s: System, a: Action)
    requires IsJournal(s.journal) && Enabled(s, a)
    ensures IsJournal(Step(s, a).journal)
  {
    if a.Append? && s.on {
      var u, n := Step(s, a).journal, a.newest + 1;
      forall x, y | x in u && y in u && x < y && SameItem(u[x].event, u[y].event)
        ensures u[x].event.version < u[y].event.version
      {
        assert x in s.journal && (y == n || y in s.journal);
      }
    }
  }

  lemma SweepHistoryAgrees(s: System, a: Action)
    requires HistoryAgrees(s) && Enabled(s, a) && a.Sweep?
    ensures HistoryAgrees(Step(s, a))
  {
  }

  lemma TakingHistoryAgrees(s: System, a: Action)
    requires HistoryAgrees(s) && Enabled(s, a) && (a.Compact? || a.Reset? || a.Finish?)
    ensures HistoryAgrees(Step(s, a))
  {
  }

  lemma HistoryStays(s: System, a: Action)
    requires HistoryAgrees(s) && Enabled(s, a)
    ensures HistoryAgrees(Step(s, a))
  {
    match a
    case Append(_, _) =>
    case SwitchJournal(_, _) =>
    case Sweep(_, _, _, _) => SweepHistoryAgrees(s, a);
    case Claim(_, _, _) =>
    case ClaimNothing =>
    case Finish(_, _) => TakingHistoryAgrees(s, a);
    case Postpone(_, _) =>
    case Compact(_, _) => TakingHistoryAgrees(s, a);
    case Reset(_) => TakingHistoryAgrees(s, a);
    case Replay(_) =>
    case Configure(_, _, _, _) =>
    case Tick(_) =>
  }

  // ---- one step, exactly --------------------------------------------------

  /** A row the sweep reads is marked as read, and as passed over unless it was kept. */
  lemma ReadIsRecorded(s: System, a: Action, n: nat)
    requires Enabled(s, a) && a.Sweep? && IsNumbered(s.journal) && n in s.journal && s.journal[n].event in a.rows
    ensures s.journal[n] in Step(s, a).past.read && n <= Step(s, a).consumer.cursor
    ensures s.journal[n].event !in Kept(a.rows, a.q.purpose, a.q.sources) ==> s.journal[n] in Step(s, a).past.passed
  {
    var e := s.journal[n].event;
    assert e.sequence == n;
    assert e in Scanned(a.rows);
    RowIsEntry(a.rows, s.journal, s.consumer.epoch, Start(s), a.limit, e);
    if e !in Kept(a.rows, a.q.purpose, a.q.sources) {
      assert e in PassedOver(a.rows, a.q);
    }
  }

  /** A batch of new identity holds the row it was packed from. */
  lemma NewBatchHolds(s: System, a: Action, n: nat, i: nat)
    requires Enabled(s, a) && a.Sweep? && IsJournal(s.journal) && n in s.journal && i < |a.packed|
    requires s.journal[n].event in EventsOf(a.packed[i]) && IdOf(a.packed[i]) !in s.consumer.batches
    ensures IsHeld(Step(s, a), s.journal[n])
  {
    var id := IdOf(a.packed[i]);
    InsertedHasAll(s.consumer, AllRepaused(s.consumer), a.packed, i);
    SweptRow(s, a, id);
    var w := Step(s, a).consumer.batches[id];
    assert IdentityOf(s.journal[n].event) in id.events;
    FreshWorkEncloses(s, a.rows, a.limit, a.q, a.packed, id, w, n);
    assert Holds(Step(s, a), id, s.journal[n]);
  }

  lemma TakenIsDealt(s: System, a: Action, n: nat)
    requires Enabled(s, a) && a.Sweep? && IsJournal(s.journal) && n in s.journal
    requires s.journal[n].event in a.rows && IsTaken(s, a.packed, n)
    ensures IsDealt(Step(s, a), s.journal[n])
  {
    var e := s.journal[n];
    ReadIsRecorded(s, a, n);
    HistoryGrows(s, a);
    if !IsSettled(s.past, e) {
      if IsHeld(s, e) {
        var id :| id in s.consumer.batches && Holds(s, id, e);
        SweepKeepsHeld(s, a, id, e);
        assert IsHeld(Step(s, a), e);
      } else {
        var i :| 0 <= i < |a.packed| && e.event in EventsOf(a.packed[i]) && IdOf(a.packed[i]) !in s.consumer.batches;
        NewBatchHolds(s, a, n, i);
      }
    }
  }

  lemma SweepFollows(s: System, a: Action, n: nat)
    requires NothingSkipped(s) && Enabled(s, a) && a.Sweep? && n in s.owed
    requires s.journal[n].event in Kept(a.rows, a.q.purpose, a.q.sources) ==> IsTaken(s, a.packed, n)
    ensures IsFollowed(Step(s, a), n)
  {
    var e := s.journal[n].event;
    assert IsFollowed(s, n);
    CursorMovesOn(s, a);
    if IsDealt(s, s.journal[n]) {
      DealtStays(s, a, n);
    } else {
      assert IsAhead(s.journal, s.consumer.epoch, Start(s), n);
      assert IsCovered(a.rows, s.journal, Start(s), a.limit, n);
      if e in a.rows {
        ReadIsRecorded(s, a, n);
        if e in Kept(a.rows, a.q.purpose, a.q.sources) {
          TakenIsDealt(s, a, n);
        }
      }
    }
  }

  /** A sweep settles only rows that it does not keep. */
  lemma KeptIsNotSettled(s: System, a: Action, n: nat)
    requires IsNumbered(s.journal) && Enabled(s, a) && a.Sweep? && n in s.journal
    requires s.journal[n].event in Kept(a.rows, a.q.purpose, a.q.sources) && IsSettled(Step(s, a).past, s.journal[n])
    ensures IsSettled(s.past, s.journal[n])
  {
    forall f | f in PassedOver(a.rows, a.q) ensures f.sequence in s.journal && s.journal[f.sequence].event == f {
      RowIsEntry(a.rows, s.journal, s.consumer.epoch, Start(s), a.limit, f);
    }
  }

  /** A batch that holds the row after the sweep held it before, or is new. */
  lemma HeldIsTaken(s: System, a: Action, n: nat, id: BatchId)
    requires IsJournal(s.journal) && Enabled(s, a) && a.Sweep? && n in s.journal && Holds(Step(s, a), id, s.journal[n])
    ensures IsTaken(s, a.packed, n)
  {
    SweptRow(s, a, id);
    if id in s.consumer.batches {
      assert Holds(s, id, s.journal[n]);
    } else {
      FreshWorkEncloses(s, a.rows, a.limit, a.q, a.packed, id, Step(s, a).consumer.batches[id], n);
    }
  }

  /** Without that, the row is behind the position and nothing will look at it. */
  lemma UntakenIsSkipped(s: System, a: Action, n: nat)
    requires NothingSkipped(s) && Enabled(s, a) && a.Sweep? && n in s.owed && IsFollowed(Step(s, a), n)
    requires s.journal[n].event in Kept(a.rows, a.q.purpose, a.q.sources)
    ensures IsTaken(s, a.packed, n)
  {
    var e, u := s.journal[n], Step(s, a);
    assert IsFollowed(s, n);
    KeptAreScanned(a.rows, a.q.purpose, a.q.sources);
    ReadIsRecorded(s, a, n);
    if IsSettled(u.past, e) {
      KeptIsNotSettled(s, a, n);
    } else {
      var id :| id in u.consumer.batches && Holds(u, id, e);
      HeldIsTaken(s, a, n, id);
    }
  }

  lemma SweepFollowsExactly(s: System, a: Action)
    requires NothingSkipped(s) && Enabled(s, a) && a.Sweep?
    ensures NothingSkipped(Step(s, a)) <==> TakesWhatItReads(s, a)
  {
    JournalStays(s, a);
    HistoryStays(s, a);
    if TakesWhatItReads(s, a) {
      forall n | n in s.owed ensures IsFollowed(Step(s, a), n) {
        assert IsFollowed(s, n);
        SweepFollows(s, a, n);
      }
    } else {
      var n :| n in s.owed && n in s.journal && s.journal[n].event in Kept(a.rows, a.q.purpose, a.q.sources)
        && !IsTaken(s, a.packed, n);
      if IsFollowed(Step(s, a), n) {
        UntakenIsSkipped(s, a, n);
      }
    }
  }

  lemma AppendFollowsExactly(s: System, a: Action)
    requires NothingSkipped(s) && Enabled(s, a) && a.Append?
    ensures NothingSkipped(Step(s, a)) <==> KeepsNumbers(s, a)
  {
    JournalStays(s, a);
    HistoryStays(s, a);
    if s.on {
      var u, n := Step(s, a), a.newest + 1;
      forall m | m in s.owed ensures IsFollowed(u, m) {
        assert IsFollowed(s, m) && m != n;
        if IsDealt(s, s.journal[m]) {
          DealtStays(s, a, m);
        }
      }
      assert u.journal[n].serial == s.past.appends;
      assert !IsDealt(u, u.journal[n]);
      assert IsFollowed(u, n) <==> KeepsNumbers(s, a);
      assert n in u.owed;
    }
  }

  lemma OtherStepFollows(s: System, a: Action)
    requires NothingSkipped(s) && Enabled(s, a) && !a.Sweep? && !a.Append?
    ensures NothingSkipped(Step(s, a))
  {
    JournalStays(s, a);
    HistoryStays(s, a);
    if IsRowStep(a) {
      RowStepSettles(s, a);
    }
    forall n | n in Step(s, a).owed ensures IsFollowed(Step(s, a), n) {
      assert IsFollowed(s, n);
      if IsDealt(s, s.journal[n]) {
        DealtStays(s, a, n);
      }
    }
  }

  /** A row is skipped only when it is numbered at or behind the scan position, or packed under a known identity. */
  lemma SkippingStepExactly(s: System, a: Action)
    requires NothingSkipped(s) && Enabled(s, a)
    ensures NothingSkipped(Step(s, a)) <==> KeepsFollowing(s, a)
  {
    if a.Append? {
      AppendFollowsExactly(s, a);
    } else if a.Sweep? {
      SweepFollowsExactly(s, a);
    } else {
      OtherStepFollows(s, a);
    }
  }

  /** Over whole runs, replays and resets included: nothing is skipped exactly when every step follows. */
  lemma {:induction false} SkippingRunExactly(s: System, actions: seq<Action>)
    requires NothingSkipped(s) && IsRun(s, actions)
    ensures NothingSkippedThroughout(s, actions) <==> KeepsFollowingThroughout(s, actions)
    ensures KeepsFollowingThroughout(s, actions) ==> NothingSkipped(After(s, actions))
    decreases |actions|
  {
    if actions != [] {
      SkippingStepExactly(s, actions[0]);
      if KeepsFollowing(s, actions[0]) {
        SkippingRunExactly(Step(s, actions[0]), actions[1..]);
      }
    }
  }

  lemma InitialSkipsNothing(s: System)
    requires Initial(s)
    ensures NothingSkipped(s)
  {
  }

  /**
   The scan position may be trusted: an owed row at or behind it was passed over
   on purpose, handed out with a grant that completed, or given up, or it was
   read and lies in an unfinished batch that will hand it out.
   */
  lemma EverythingScannedIsDealt(s: System, actions: seq<Action>, n: nat)
    requires Initial(s) && IsRun(s, actions) && KeepsFollowingThroughout(s, actions)
    requires n in After(s, actions).owed && n <= After(s, actions).consumer.cursor
    ensures n in After(s, actions).journal && IsDealt(After(s, actions), After(s, actions).journal[n])
  {
    InitialSkipsNothing(s);
    SkippingRunExactly(s, actions);
    assert IsFollowed(After(s, actions), n);
  }

  // ---- what is given up is flagged ----------------------------------------

  /** Whatever was given up since the last replay, the flag is up. */
  predicate IsFlagged(s: System) {
    s.past.givenUp <= s.past.acknowledged || s.consumer.resync
  }

  lemma LossIsFlagged(s: System, a: Action, e: Entry)
    requires NothingSkipped(s) && Enabled(s, a) && a.Compact? && e in Lost(s, Step(s, a).consumer, a.through)
    ensures Step(s, a).consumer.resync
  {
    var c, u := s.consumer, Step(s, a).consumer;
    var n :| n in s.owed && n in s.journal && s.journal[n] == e;
    assert IsFollowed(s, n) && !IsSettled(s.past, e);
    assert e.event.sequence == n;
    if IsCut(c, u, e) {
      var id :| id in c.batches && id in u.batches && IdentityOf(e.event) in id.events
        && Unfinished(c.batches[id]) && u.batches[id].state == Cancelled;
      assert CrossesUnfinished(c, a.through);
    } else if Start(s) < n {
      assert c.cursor < a.through;
    } else {
      var id :| id in c.batches && Holds(s, id, e);
      assert CrossesUnfinished(c, a.through);
    }
  }

  lemma CompactionFlags(s: System, a: Action)
    requires NothingSkipped(s) && IsFlagged(s) && Enabled(s, a) && a.Compact?
    ensures IsFlagged(Step(s, a))
  {
    var lost := Lost(s, Step(s, a).consumer, a.through);
    if e :| e in lost {
      LossIsFlagged(s, a, e);
    }
  }

  lemma OtherStepFlags(s: System, a: Action)
    requires IsFlagged(s) && Enabled(s, a) && !a.Compact?
    ensures IsFlagged(Step(s, a))
  {
  }

  /**
   Retention is never silent: whatever a compaction or a reset takes from the
   consumer before it was analysed, the flag is up until an administrator's replay.
   */
  lemma {:induction false} GapsAreFlagged(s: System, actions: seq<Action>)
    requires NothingSkipped(s) && IsFlagged(s) && IsRun(s, actions) && KeepsFollowingThroughout(s, actions)
    ensures IsFlagged(After(s, actions))
    decreases |actions|
  {
    if actions != [] {
      SkippingStepExactly(s, actions[0]);
      if actions[0].Compact? {
        CompactionFlags(s, actions[0]);
      } else {
        OtherStepFlags(s, actions[0]);
      }
      GapsAreFlagged(Step(s, actions[0]), actions[1..]);
    }
  }

  // ---- what the watermark covers ------------------------------------------

  /** The row was passed over on purpose, or analysed, or given up with the flag up. */
  predicate IsProcessed(s: System, e: Entry) {
    e in s.past.passed || e in s.past.analysed || (e in s.past.givenUp && s.consumer.resync)
  }

  lemma {:induction false} NeverAcknowledged(s: System, actions: seq<Action>)
    requires s.past.acknowledged == {} && IsRun(s, actions) && KeepsPaceThroughout(s, actions)
    ensures After(s, actions).past.acknowledged == {}
    decreases |actions|
  {
    if actions != [] {
      NeverAcknowledged(Step(s, actions[0]), actions[1..]);
    }
  }

  /**
   Watermark safety: whatever the order of completions, the watermark stays
   behind the cursor and below every unfinished batch, and every owed row at
   or below it is processed, as a row and not only as an identity.
   */
  lemma WatermarkIsSafe(s: System, actions: seq<Action>)
    requires Initial(s) && IsRun(s, actions) && KeepsPaceThroughout(s, actions) && KeepsFollowingThroughout(s, actions)
    ensures
      var u := After(s, actions);
      && Watermark(u.consumer)
      && (forall n :: n in u.owed && n <= u.consumer.doneThrough ==> n in u.journal && IsProcessed(u, u.journal[n]))
  {
    var u := After(s, actions);
    SteadyOverRun(s, actions);
    InitialSkipsNothing(s);
    SkippingRunExactly(s, actions);
    GapsAreFlagged(s, actions);
    NeverAcknowledged(s, actions);
    forall n | n in u.owed && n <= u.consumer.doneThrough ensures n in u.journal && IsProcessed(u, u.journal[n]) {
      EverythingScannedIsDealt(s, actions, n);
      CoveredIsProcessed(u, n);
    }
  }

  lemma CoveredIsProcessed(u: System, n: nat)
    requires Watermark(u.consumer) && IsFlagged(u) && u.past.acknowledged == {} && IsNumbered(u.journal)
    requires n in u.journal && n <= u.consumer.doneThrough && IsDealt(u, u.journal[n])
    ensures IsProcessed(u, u.journal[n])
  {
    var e := u.journal[n];
    assert e.event.sequence == n;
    assert forall id :: id in u.consumer.batches ==> !Holds(u, id, e);
  }

  // ---- what was skipped is lost -------------------------------------------

  predicate IsOrdinary(a: Action) {
    !a.SwitchJournal? && !a.Compact? && !a.Reset? && !a.Replay?
  }

  /** An owed row at or behind the position that is not settled and in no unfinished batch. */
  ghost predicate IsOverlooked(s: System, n: nat) {
    && IsJournal(s.journal) && n in s.owed && n in s.journal && n <= Start(s)
    && var e := s.journal[n];
    && !IsSettled(s.past, e)
    && (forall id :: id in s.consumer.batches && IdentityOf(e.event) in id.events ==> !Unfinished(s.consumer.batches[id]))
    && (forall id :: id in s.past.handed && e in s.past.handed[id] ==> IdentityOf(e.event) in id.events)
  }

  lemma SweepOverlooks(s: System, a: Action, n: nat)
    requires IsOverlooked(s, n) && Enabled(s, a) && a.Sweep?
    ensures IsOverlooked(Step(s, a), n)
  {
    var e, u := s.journal[n], Step(s, a);
    CursorMovesOn(s, a);
    assert e.event.sequence == n;
    if f :| f in PassedOver(a.rows, a.q) && f.sequence in s.journal && s.journal[f.sequence] == e {
      RowIsEntry(a.rows, s.journal, s.consumer.epoch, Start(s), a.limit, f);
    }
    forall id | id in u.consumer.batches && IdentityOf(e.event) in id.events
      ensures !Unfinished(u.consumer.batches[id])
    {
      SweptRow(s, a, id);
      if id !in s.consumer.batches {
        FreshWorkEncloses(s, a.rows, a.limit, a.q, a.packed, id, u.consumer.batches[id], n);
        KeptAreScanned(a.rows, a.q.purpose, a.q.sources);
        RowIsEntry(a.rows, s.journal, s.consumer.epoch, Start(s), a.limit, e.event);
      }
    }
  }

  lemma OtherStepOverlooks(s: System, a: Action, n: nat)
    requires IsOverlooked(s, n) && Enabled(s, a) && IsOrdinary(a) && !a.Sweep? && !a.Finish? && !a.Claim?
    ensures IsOverlooked(Step(s, a), n)
  {
    JournalStays(s, a);
    RowStepSettles(s, a);
  }

  lemma WorkerOverlooks(s: System, a: Action, n: nat)
    requires IsOverlooked(s, n) && Enabled(s, a) && (a.Finish? || a.Claim?)
    ensures IsOverlooked(Step(s, a), n)
  {
    if a.Claim? {
      RowStepSettles(s, a);
      assert IsClaimable(Normalized(s.consumer), a.choice);
    }
  }

  /** What was overlooked stays so: no later sweep, claim or completion ever reaches it. */
  lemma {:induction false} OverlookedForGood(s: System, actions: seq<Action>, n: nat)
    requires IsOverlooked(s, n) && IsRun(s, actions)
    requires forall i :: 0 <= i < |actions| ==> IsOrdinary(actions[i])
    ensures IsOverlooked(After(s, actions), n) && After(s, actions).journal[n] == s.journal[n]
    decreases |actions|
  {
    if actions != [] {
      var a := actions[0];
      if a.Sweep? {
        SweepOverlooks(s, a, n);
      } else if a.Finish? || a.Claim? {
        WorkerOverlooks(s, a, n);
      } else {
        OtherStepOverlooks(s, a, n);
      }
      assert forall i :: 0 <= i < |actions| - 1 ==> actions[1..][i] == actions[i + 1];
      OverlookedForGood(Step(s, a), actions[1..], n);
    }
  }
}
