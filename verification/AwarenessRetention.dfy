/**
 Compaction that lets neither numbers nor identities come back: enough for a
 consumer to follow its journal, whatever else happens.
 */
module AwarenessRetention {
  import opened Wrappers
  import opened SweepPacking
  import opened Journal
  import opened Awareness
  import opened AwarenessRuns
  import opened AwarenessJournal

  /** Compaction leaves the journal's newest entry. */
  ghost predicate RetainsNewest(s: System, a: Action) {
    a.Compact? ==> s.journal == map[] || exists n :: n in s.journal && a.through < n
  }

  /** Compaction leaves a later row of every item that it takes a row of. */
  ghost predicate RetainsItems(s: System, a: Action) {
    a.Compact? ==> forall n :: n in s.journal && n <= a.through ==> HasLater(s.journal, a.through, s.journal[n].event)
  }

  ghost predicate HasLater(journal: Entries, through: nat, e: Event) {
    exists m :: m in journal && through < m && SameItem(journal[m].event, e)
  }

  ghost predicate RetainsNewestThroughout(s: System, actions: seq<Action>)
    requires IsRun(s, actions)
    decreases |actions|
  {
    actions == [] || (RetainsNewest(s, actions[0]) && RetainsNewestThroughout(Step(s, actions[0]), actions[1..]))
  }

  ghost predicate RetainsItemsThroughout(s: System, actions: seq<Action>)
    requires IsRun(s, actions)
    decreases |actions|
  {
    actions == [] || (RetainsItems(s, actions[0]) && RetainsItemsThroughout(Step(s, actions[0]), actions[1..]))
  }

  lemma RetainingItemsRetainsNewest(s: System, a: Action)
    requires Enabled(s, a) && RetainsItems(s, a)
    ensures RetainsNewest(s, a)
  {
    if a.Compact? && s.journal != map[] {
      var n :| n in s.journal;
      if n <= a.through {
        assert HasLater(s.journal, a.through, s.journal[n].event);
      }
    }
  }

  /** The next number lies ahead of the scan position. */
  ghost predicate NumbersAhead(s: System) {
    forall newest :: IsNewest(s.journal, newest) ==> Start(s) <= newest
  }

  lemma RetainingStep(s: System, a: Action)
    requires NumbersAhead(s) && Enabled(s, a) && RetainsNewest(s, a)
    ensures NumbersAhead(Step(s, a)) && KeepsNumbers(s, a)
  {
    var u := Step(s, a);
    var newest := NewestExists(s.journal);
    var top := if a.Append? && s.on then newest + 1 else newest;
    if a.Append? {
      assert newest == a.newest;
    } else if a.Sweep? {
      SweepStaysBehind(s, a, newest);
    } else if a.Compact? {
      RowStepSettles(s, a);
      CompactionLeavesNewest(s.journal, a.through, newest);
    } else if IsRowStep(a) {
      RowStepSettles(s, a);
    }
    assert IsNewest(u.journal, top) && Start(u) <= top;
  }

  lemma SweepStaysBehind(s: System, a: Action, newest: nat)
    requires Enabled(s, a) && a.Sweep? && IsNewest(s.journal, newest) && Start(s) <= newest
    ensures Start(Step(s, a)) <= newest
  {
    if a.rows != [] {
      assert IsEntry(a.rows[|a.rows| - 1], s.journal, s.consumer.epoch, Start(s));
    }
  }

  lemma CompactionLeavesNewest(journal: Entries, through: nat, newest: nat)
    requires IsNewest(journal, newest)
    requires journal == map[] || exists n :: n in journal && through < n
    ensures IsNewest(Remaining(journal, through), newest)
  {
    if journal == map[] {
      assert Remaining(journal, through) == map[];
    }
  }

  predicate NeverReplays(actions: seq<Action>) {
    forall i :: 0 <= i < |actions| ==> !actions[i].Replay?
  }

  /** While compaction leaves the newest entry and nobody replays, resets keep the watermark's pace. */
  lemma {:induction false} RetainingNewestKeepsPace(s: System, actions: seq<Action>)
    requires Steady(s.consumer) && NumbersAhead(s) && IsRun(s, actions) && RetainsNewestThroughout(s, actions)
    requires NeverReplays(actions)
    ensures KeepsPaceThroughout(s, actions)
    decreases |actions|
  {
    if actions != [] {
      var a := actions[0];
      RetainingStep(s, a);
      if a.Reset? {
        forall id | id in s.consumer.batches && s.consumer.batches[id].state == Complete
          ensures s.consumer.batches[id].last <= a.newest
        {
          assert IsSteadyRow(s.consumer, s.consumer.batches[id]);
        }
      }
      SteadyStepExactly(s, a);
      assert forall i :: 0 <= i < |actions| - 1 ==> actions[1..][i] == actions[i + 1];
      RetainingNewestKeepsPace(Step(s, a), actions[1..]);
    }
  }

  // ---- identities ---------------------------------------------------------

  /** Some batch has the identity among its own. */
  ghost predicate IsUsed(s: System, i: EventId) {
    exists id :: id in s.consumer.batches && i in id.events
  }

  /** Every identity a batch uses belongs to an item of which the journal has that version or a later one. */
  ghost predicate VersionsKept(s: System) {
    forall id, i :: id in s.consumer.batches && i in id.events ==> HasVersion(s.journal, i)
  }

  ghost predicate HasVersion(journal: Entries, i: EventId) {
    exists n :: n in journal && journal[n].event.source == i.source && journal[n].event.item == i.item
                && i.version <= journal[n].event.version
  }

  /** A new entry's identity is used by no batch. */
  ghost predicate IsFresh(s: System, a: Action) {
    a.Append? && s.on ==> !IsUsed(s, IdentityOf(a.event))
  }

  /** Owed rows whose identity some batch uses are dealt with. */
  ghost predicate UsedAreDealt(s: System) {
    forall n :: n in s.owed && n in s.journal && IsUsed(s, IdentityOf(s.journal[n].event)) ==> IsDealt(s, s.journal[n])
  }

  lemma FreshSweepTakes(s: System, a: Action)
    requires UsedAreDealt(s) && Enabled(s, a) && a.Sweep?
    ensures TakesWhatItReads(s, a)
  {
    forall n | n in s.owed && n in s.journal && s.journal[n].event in Kept(a.rows, a.q.purpose, a.q.sources)
      ensures IsTaken(s, a.packed, n)
    {
      var e := s.journal[n].event;
      assert e in multiset(Kept(a.rows, a.q.purpose, a.q.sources));
      assert e in multiset(AllEvents(a.packed));
      EventInSomeBatch(a.packed, e);
      var i :| 0 <= i < |a.packed| && e in EventsOf(a.packed[i]);
      if IdOf(a.packed[i]) in s.consumer.batches {
        assert IdentityOf(e) in IdOf(a.packed[i]).events;
        assert IsUsed(s, IdentityOf(e));
      }
    }
  }

  lemma SweepKeepsUsedDealt(s: System, a: Action)
    requires NothingSkipped(s) && UsedAreDealt(s) && Enabled(s, a) && a.Sweep?
    ensures UsedAreDealt(Step(s, a))
  {
    var u := Step(s, a);
    FreshSweepTakes(s, a);
    SweepFollowsExactly(s, a);
    forall n | n in u.owed && n in u.journal && IsUsed(u, IdentityOf(u.journal[n].event)) ensures IsDealt(u, u.journal[n]) {
      var id :| id in u.consumer.batches && IdentityOf(u.journal[n].event) in id.events;
      SweptRow(s, a, id);
      if id in s.consumer.batches {
        assert IsUsed(s, IdentityOf(s.journal[n].event));
        DealtStays(s, a, n);
      } else {
        FreshWorkEncloses(s, a.rows, a.limit, a.q, a.packed, id, u.consumer.batches[id], n);
        KeptAreScanned(a.rows, a.q.purpose, a.q.sources);
        ReadIsRecorded(s, a, n);
        assert IsFollowed(u, n);
      }
    }
  }

  lemma OtherStepKeepsUsedDealt(s: System, a: Action)
    requires NothingSkipped(s) && UsedAreDealt(s) && Enabled(s, a) && !a.Sweep? && IsFresh(s, a)
    ensures UsedAreDealt(Step(s, a))
  {
    var u := Step(s, a);
    BatchesStayKnown(s, a);
    forall n | n in u.owed && n in u.journal && IsUsed(u, IdentityOf(u.journal[n].event)) ensures IsDealt(u, u.journal[n]) {
      assert IsUsed(s, IdentityOf(u.journal[n].event));
      assert n in s.owed && IsFollowed(s, n) && u.journal[n] == s.journal[n];
      DealtStays(s, a, n);
    }
  }

  lemma BatchesStayKnown(s: System, a: Action)
    requires Enabled(s, a) && !a.Sweep?
    ensures Step(s, a).consumer.batches.Keys == s.consumer.batches.Keys
  {
    if IsRowStep(a) {
      RowStepSettles(s, a);
    }
  }

  /** While every item keeps a later row, no identity comes back. */
  lemma RetainingItemsIsFresh(s: System, a: Action)
    requires VersionsKept(s) && Enabled(s, a)
    ensures IsFresh(s, a)
  {
    assert a.Append? ==> !HasVersion(s.journal, IdentityOf(a.event));
  }

  lemma RetainingItemsKeepsVersions(s: System, a: Action)
    requires VersionsKept(s) && IsJournal(s.journal) && Enabled(s, a) && RetainsItems(s, a)
    ensures VersionsKept(Step(s, a))
  {
    var u := Step(s, a);
    forall id, i | id in u.consumer.batches && i in id.events ensures HasVersion(u.journal, i) {
      if a.Sweep? {
        SweptRow(s, a, id);
        if id !in s.consumer.batches {
          NewBatchHasVersions(s, a, id, i);
        }
      } else {
        BatchesStayKnown(s, a);
        assert HasVersion(s.journal, i);
        VersionStays(s, a, i);
      }
    }
  }

  lemma VersionStays(s: System, a: Action, i: EventId)
    requires HasVersion(s.journal, i) && IsJournal(s.journal) && Enabled(s, a) && RetainsItems(s, a) && !a.Sweep?
    ensures HasVersion(Step(s, a).journal, i)
  {
    var u := Step(s, a).journal;
    var n :| n in s.journal && s.journal[n].event.source == i.source && s.journal[n].event.item == i.item
      && i.version <= s.journal[n].event.version;
    if a.Compact? && n <= a.through {
      assert HasLater(s.journal, a.through, s.journal[n].event);
      var m :| m in s.journal && a.through < m && SameItem(s.journal[m].event, s.journal[n].event);
      assert m in u && s.journal[n].event.version < s.journal[m].event.version;
    } else {
      assert n in u && u[n] == s.journal[n];
    }
  }

  lemma NewBatchHasVersions(s: System, a: Action, id: BatchId, i: EventId)
    requires Enabled(s, a) && a.Sweep? && RowAfterSweep(s, a, id) && id !in s.consumer.batches && i in id.events
    ensures HasVersion(s.journal, i)
  {
    var k :| 0 <= k < |a.packed| && id == IdOf(a.packed[k]) && Step(s, a).consumer.batches[id] == FreshWork(s.consumer, a.packed[k]);
    var e :| e in EventsOf(a.packed[k]) && IdentityOf(e) == i;
    PackedIsKept(s, a.rows, a.limit, a.q, a.packed, k, e);
  }

  /** What retention that leaves every item a later row keeps up. */
  ghost predicate NothingReturns(s: System) {
    NothingSkipped(s) && NumbersAhead(s) && VersionsKept(s) && UsedAreDealt(s)
  }

  lemma RetainingItemsStep(s: System, a: Action)
    requires NothingReturns(s) && Enabled(s, a) && RetainsItems(s, a)
    ensures KeepsFollowing(s, a) && NothingReturns(Step(s, a))
  {
    RetainingItemsRetainsNewest(s, a);
    RetainingStep(s, a);
    RetainingItemsIsFresh(s, a);
    RetainingItemsKeepsVersions(s, a);
    if a.Sweep? {
      FreshSweepTakes(s, a);
      SweepKeepsUsedDealt(s, a);
    } else {
      OtherStepKeepsUsedDealt(s, a);
    }
    SkippingStepExactly(s, a);
  }

  lemma {:induction false} RetainingItemsOverRun(s: System, actions: seq<Action>)
    requires NothingReturns(s) && IsRun(s, actions) && RetainsItemsThroughout(s, actions)
    ensures KeepsFollowingThroughout(s, actions)
    decreases |actions|
  {
    if actions != [] {
      RetainingItemsStep(s, actions[0]);
      RetainingItemsOverRun(Step(s, actions[0]), actions[1..]);
    }
  }

  lemma InitialReturnsNothing(s: System)
    requires Initial(s) && NumbersAhead(s)
    ensures NothingReturns(s)
  {
  }

  /** While compaction leaves a later row of every item it touches, nothing is skipped, whatever else happens. */
  lemma RetainingItemsSkipsNothing(s: System, actions: seq<Action>)
    requires Initial(s) && NumbersAhead(s) && IsRun(s, actions) && RetainsItemsThroughout(s, actions)
    ensures KeepsFollowingThroughout(s, actions) && NothingSkippedThroughout(s, actions)
  {
    InitialReturnsNothing(s);
    RetainingItemsOverRun(s, actions);
    SkippingRunExactly(s, actions);
  }
}
