/** Concrete runs in which a consumer's promises fail. */
module AwarenessExamples {
  import opened Wrappers
  import opened SweepPacking
  import opened Journal
  import opened Awareness
  import opened AwarenessRuns
  import opened AwarenessJournal
  import opened AwarenessScripts
  import opened AwarenessBearable
  import opened AwarenessReplay

  const NEW_CONSUMER := Consumer(map[], 0, 0, false, {}, None, true, true, 5, {}, 0, 0)
  const NO_HISTORY := History(0, {}, {}, {}, map[], {}, {})

  /** A new consumer over an empty journal that is switched on. */
  const NEW_SYSTEM := System(NEW_CONSUMER, map[], true, 0, {}, NO_HISTORY, [])

  ghost predicate Reaches(s: System, actions: seq<Action>, u: System) {
    IsRun(s, actions) && After(s, actions) == u
  }

  lemma ReachesFirst(s: System, a: Action, t: System, later: seq<Action>, u: System) returns (actions: seq<Action>)
    requires Enabled(s, a) && Step(s, a) == t && Reaches(t, later, u)
    ensures Reaches(s, actions, u)
  {
    Before(s, a, later);
    actions := [a] + later;
  }

  lemma {:induction false} ReachesThrough(s: System, first: seq<Action>, t: System, later: seq<Action>, u: System)
    returns (actions: seq<Action>)
    requires Reaches(s, first, t) && Reaches(t, later, u)
    ensures Reaches(s, actions, u)
    decreases |first|
  {
    if first == [] {
      actions := later;
    } else {
      var rest := ReachesThrough(Step(s, first[0]), first[1..], t, later, u);
      actions := ReachesFirst(s, first[0], Step(s, first[0]), rest, u);
    }
  }

  /** An arrival, its row and its batch. */
  const ARRIVAL := ItemEvent(1, 1)
  const ROW := Entry(ARRIVAL, 0, 0)
  const BATCH := OnlyId(ARRIVAL, ONE_AT_A_TIME)
  const WORK := Work(1, 1, 0, Pending, 0, None, 0, None, None, 0)
  const LEASED := WORK.(state := Leased, owner := Some(7), fence := 1, until := Some(300), attempts := 1)
  const DONE := LEASED.(state := Complete, owner := None, until := None)

  const SWEPT := System(
    NEW_CONSUMER.(batches := map[BATCH := WORK], cursor := 1), map[1 := ROW], true, 0, {1},
    NO_HISTORY.(appends := 1, read := {ROW}), [])
  const CLAIMED := System(
    NEW_CONSUMER.(batches := map[BATCH := LEASED], cursor := 1, lastSource := Some(0)), map[1 := ROW], true, 0, {1},
    NO_HISTORY.(appends := 1, read := {ROW}, handed := map[BATCH := {ROW}]), [Lease(BATCH, 7, 1)])
  const FINISHED := System(
    NEW_CONSUMER.(batches := map[BATCH := DONE], cursor := 1, doneThrough := 1, lastSource := Some(0)),
    map[1 := ROW], true, 0, {1},
    NO_HISTORY.(appends := 1, read := {ROW}, analysed := {ROW}, handed := map[BATCH := {ROW}]), [Lease(BATCH, 7, 1)])

  const APPENDED := NEW_SYSTEM.(journal := map[1 := ROW], owed := {1}, past := NO_HISTORY.(appends := 1))

  lemma ArrivalIsAppended()
    ensures Enabled(NEW_SYSTEM, Append(ARRIVAL, 0)) && Step(NEW_SYSTEM, Append(ARRIVAL, 0)) == APPENDED
  {
  }

  lemma ArrivalIsNext()
    ensures IsNumbered(APPENDED.journal) && IsNext(APPENDED, ARRIVAL) && !HasGap(APPENDED.journal, 0, 0)
  {
    assert 1 in APPENDED.journal;
  }

  lemma ArrivalIsSwept()
    ensures Enabled(APPENDED, OnlySweep(ARRIVAL, ONE_AT_A_TIME)) && Step(APPENDED, OnlySweep(ARRIVAL, ONE_AT_A_TIME)) == SWEPT
  {
    ArrivalIsNext();
    SweepsOnly(APPENDED, ARRIVAL, ONE_AT_A_TIME);
    assert AllRepaused(NEW_CONSUMER) == map[];
    assert OnlyWork(NEW_CONSUMER, ARRIVAL, ONE_AT_A_TIME) == WORK;
  }

  lemma ArrivalIsClaimed()
    ensures Enabled(SWEPT, Claim(BATCH, 7, 300)) && Step(SWEPT, Claim(BATCH, 7, 300)) == CLAIMED
  {
    var c := SWEPT.consumer;
    assert Normalized(c).batches == c.batches;
    assert IsClaimable(c, BATCH) && IsChoice(c, BATCH);
    assert IdentityOf(ARRIVAL) in BATCH.events;
    assert 1 in SWEPT.journal && SWEPT.journal[1] == ROW;
    assert ROW in HandedOut(SWEPT.journal, BATCH);
    assert HandedOut(SWEPT.journal, BATCH) == {ROW};
  }

  const FINISH := Finish(Lease(BATCH, 7, 1), FINISHED.consumer)

  lemma ArrivalIsFinished()
    ensures Enabled(CLAIMED, FINISH) && Step(CLAIMED, FINISH) == FINISHED
  {
    var u := FINISHED.consumer;
    assert u.batches == Closed(CLAIMED.consumer, BATCH);
    assert BATCH in u.batches && u.batches[BATCH].state == Complete;
  }

  /** The arrival is appended, swept and claimed. */
  lemma ReachesClaimed() returns (actions: seq<Action>)
    ensures Reaches(NEW_SYSTEM, actions, CLAIMED)
  {
    ArrivalIsAppended();
    ArrivalIsSwept();
    ArrivalIsClaimed();
    actions := ReachesFirst(SWEPT, Claim(BATCH, 7, 300), CLAIMED, [], CLAIMED);
    actions := ReachesFirst(APPENDED, OnlySweep(ARRIVAL, ONE_AT_A_TIME), SWEPT, actions, CLAIMED);
    actions := ReachesFirst(NEW_SYSTEM, Append(ARRIVAL, 0), APPENDED, actions, CLAIMED);
  }

  /** And completed. */
  lemma ReachesFinished() returns (actions: seq<Action>)
    ensures Reaches(NEW_SYSTEM, actions, FINISHED)
  {
    var first := ReachesClaimed();
    ArrivalIsFinished();
    var last := ReachesFirst(CLAIMED, FINISH, FINISHED, [], FINISHED);
    actions := ReachesThrough(NEW_SYSTEM, first, CLAIMED, last, FINISHED);
  }

  // ---- numbers that start again -------------------------------------------

  const EMPTIED := FINISHED.(journal := map[], owed := {})
  const AGAIN := FINISHED.(journal := map[1 := Entry(ARRIVAL, 0, 1)], past := FINISHED.past.(appends := 2))

  lemma FinishedIsCompacted()
    ensures Enabled(FINISHED, Compact(1, false)) && Step(FINISHED, Compact(1, false)) == EMPTIED
  {
    assert Remaining(FINISHED.journal, 1) == map[];
    assert Lost(FINISHED, FINISHED.consumer, 1) == {};
  }

  lemma ArrivalComesAgain()
    ensures Enabled(EMPTIED, Append(ARRIVAL, 0)) && Step(EMPTIED, Append(ARRIVAL, 0)) == AGAIN
  {
  }

  lemma AgainIsOverlooked()
    ensures IsOverlooked(AGAIN, 1) && !AGAIN.consumer.resync
  {
    assert AGAIN.consumer.batches.Keys == {BATCH};
  }

  /**
   The finished entry is compacted without force.  The next one, equal to it in
   every field, gets number one again: it is overlooked, and no flag is up.
   */
  lemma CompactionHidesArrival() returns (actions: seq<Action>)
    ensures Initial(NEW_SYSTEM) && Reaches(NEW_SYSTEM, actions, AGAIN)
    ensures IsOverlooked(AGAIN, 1) && AGAIN.journal[1].event == ARRIVAL && !AGAIN.consumer.resync
  {
    var first := ReachesFinished();
    FinishedIsCompacted();
    ArrivalComesAgain();
    AgainIsOverlooked();
    actions := ReachesFirst(EMPTIED, Append(ARRIVAL, 0), AGAIN, [], AGAIN);
    actions := ReachesFirst(FINISHED, Compact(1, false), EMPTIED, actions, AGAIN);
    actions := ReachesThrough(NEW_SYSTEM, first, FINISHED, actions, AGAIN);
  }

  // ---- identities that come back ------------------------------------------

  /** Another item's change of metadata, which a sweep passes over, and a second entry of the first item. */
  const CHURN := Event(2, MetadataUpdated, Historical, Incremental, 0, 0, 2, 1, None, 0, 0)
  const SECOND := ARRIVAL.(sequence := 3)

  const CHURNED := System(
    FINISHED.consumer.(cursor := 2, receipts := {(1, 2)}), map[1 := ROW, 2 := Entry(CHURN, 0, 1)], true, 0, {1, 2},
    FINISHED.past.(appends := 2, read := {ROW, Entry(CHURN, 0, 1)}, passed := {Entry(CHURN, 0, 1)}), FINISHED.granted)
  const RECYCLED := System(
    CHURNED.consumer, map[2 := Entry(CHURN, 0, 1), 3 := Entry(SECOND, 0, 2)], true, 0, {2, 3},
    CHURNED.past.(appends := 3), CHURNED.granted)

  const NOTED := FINISHED.(
    journal := map[1 := ROW, 2 := Entry(CHURN, 0, 1)], owed := {1, 2}, past := FINISHED.past.(appends := 2))
  const TAKEN := CHURNED.(journal := map[2 := Entry(CHURN, 0, 1)], owed := {2})
  const SKIPPED := RECYCLED.(
    consumer := RECYCLED.consumer.(cursor := 3),
    past := RECYCLED.past.(read := RECYCLED.past.read + {Entry(SECOND, 0, 2)}))
  const CHURN_SWEEP := Sweep([CHURN], 1, ONE_AT_A_TIME, [])

  lemma BatchesRest()
    ensures AllRepaused(FINISHED.consumer) == FINISHED.consumer.batches
    ensures AllRepaused(RECYCLED.consumer) == FINISHED.consumer.batches
  {
  }

  lemma ChurnIsAppended()
    ensures Enabled(FINISHED, Append(CHURN, 1)) && Step(FINISHED, Append(CHURN, 1)) == NOTED
  {
  }

  lemma ChurnIsScanned()
    ensures IsScan([CHURN], NOTED.journal, 0, 1, 1) && !HasGap(NOTED.journal, 0, 1)
    ensures RowsOf(NOTED.journal, {CHURN}) == {Entry(CHURN, 0, 1)}
  {
    assert 2 in NOTED.journal;
    assert IsNext(NOTED, CHURN);
    OnlyIsScanned(NOTED, CHURN);
  }

  lemma ChurnIsPassedOver()
    ensures Kept([CHURN], Foreground, {}) == [] && Suppresses([CHURN], ONE_AT_A_TIME)
    ensures PassedOver([CHURN], ONE_AT_A_TIME) == {CHURN} && Scanned([CHURN]) == {CHURN}
  {
    OnlyEvent(CHURN, ONE_AT_A_TIME);
  }

  lemma ChurnIsSwept()
    ensures Enabled(NOTED, CHURN_SWEEP) && Step(NOTED, CHURN_SWEEP) == CHURNED
  {
    ChurnIsScanned();
    ChurnIsPassedOver();
    BatchesRest();
    assert Enabled(NOTED, CHURN_SWEEP);
  }

  lemma IdentityComesBack()
    ensures Enabled(CHURNED, Compact(1, false)) && Step(CHURNED, Compact(1, false)) == TAKEN
    ensures Enabled(TAKEN, Append(SECOND, 2)) && Step(TAKEN, Append(SECOND, 2)) == RECYCLED
  {
    assert Remaining(CHURNED.journal, 1) == TAKEN.journal;
    assert Lost(CHURNED, CHURNED.consumer, 1) == {};
  }

  lemma SecondIsNext()
    ensures IsNumbered(RECYCLED.journal) && IsNext(RECYCLED, SECOND) && !HasGap(RECYCLED.journal, 0, 2)
  {
    assert 2 in RECYCLED.journal;
  }

  lemma SecondIsIgnored()
    ensures Enabled(RECYCLED, OnlySweep(SECOND, ONE_AT_A_TIME)) && Step(RECYCLED, OnlySweep(SECOND, ONE_AT_A_TIME)) == SKIPPED
  {
    SecondIsNext();
    SweepsOnly(RECYCLED, SECOND, ONE_AT_A_TIME);
    BatchesRest();
    assert OnlyId(SECOND, ONE_AT_A_TIME) == BATCH;
  }

  lemma SecondIsOverlooked()
    ensures IsOverlooked(SKIPPED, 3) && !SKIPPED.consumer.resync
  {
    assert SKIPPED.consumer.batches.Keys == {BATCH};
  }

  lemma ReachesChurned() returns (actions: seq<Action>)
    ensures Reaches(NEW_SYSTEM, actions, CHURNED)
  {
    var first := ReachesFinished();
    ChurnIsAppended();
    ChurnIsSwept();
    actions := ReachesFirst(NOTED, CHURN_SWEEP, CHURNED, [], CHURNED);
    actions := ReachesFirst(FINISHED, Append(CHURN, 1), NOTED, actions, CHURNED);
    actions := ReachesThrough(NEW_SYSTEM, first, FINISHED, actions, CHURNED);
  }

  lemma ReachesSkipped() returns (actions: seq<Action>)
    ensures Reaches(CHURNED, actions, SKIPPED)
  {
    IdentityComesBack();
    SecondIsIgnored();
    actions := ReachesFirst(RECYCLED, OnlySweep(SECOND, ONE_AT_A_TIME), SKIPPED, [], SKIPPED);
    actions := ReachesFirst(TAKEN, Append(SECOND, 2), RECYCLED, actions, SKIPPED);
    actions := ReachesFirst(CHURNED, Compact(1, false), TAKEN, actions, SKIPPED);
  }

  /**
   Numbers stay ahead and the newest entry is kept, but compaction takes the
   item's only entry, so that its next one gets version one and with it the
   identity of the finished one: the insert of its batch is ignored.
   */
  lemma RecycledIdentityIsSkipped() returns (actions: seq<Action>)
    ensures Initial(NEW_SYSTEM) && Reaches(NEW_SYSTEM, actions, SKIPPED)
    ensures IsOverlooked(SKIPPED, 3) && SKIPPED.journal[3].event == SECOND && !SKIPPED.consumer.resync
  {
    var first := ReachesChurned();
    var last := ReachesSkipped();
    SecondIsOverlooked();
    actions := ReachesThrough(NEW_SYSTEM, first, CHURNED, last, SKIPPED);
  }

  // ---- a replay under a lease ---------------------------------------------

  const REPLAYED := CLAIMED.(consumer := CLAIMED.consumer.(cursor := 0))
  const LATE := Finish(Lease(BATCH, 7, 1), REPLAYED.consumer.(batches := map[BATCH := DONE], doneThrough := 1))

  lemma LeasedIsReplayed()
    ensures Enabled(CLAIMED, Replay(1)) && Step(CLAIMED, Replay(1)) == REPLAYED && Watermark(REPLAYED.consumer)
  {
    assert Replayed(CLAIMED.consumer, 1).batches == CLAIMED.consumer.batches;
  }

  lemma LateIsAccepted()
    ensures Enabled(REPLAYED, LATE) && !Watermark(Step(REPLAYED, LATE).consumer)
  {
    var after := Closed(REPLAYED.consumer, BATCH);
    assert after == map[BATCH := DONE];
    assert BATCH in after && after[BATCH].state == Complete;
  }

  /**
   The only batch is leased while an administrator replays from its first event.
   The watermark is right after the replay, and ahead of the cursor as soon as
   the leased batch completes.
   */
  lemma ReplayPassesCursor() returns (actions: seq<Action>)
    ensures Initial(NEW_SYSTEM) && Reaches(NEW_SYSTEM, actions, REPLAYED) && Watermark(REPLAYED.consumer)
    ensures Enabled(REPLAYED, LATE) && !Watermark(Step(REPLAYED, LATE).consumer)
  {
    var first := ReachesClaimed();
    LeasedIsReplayed();
    LateIsAccepted();
    actions := ReachesFirst(CLAIMED, Replay(1), REPLAYED, [], REPLAYED);
    actions := ReachesThrough(NEW_SYSTEM, first, CLAIMED, actions, REPLAYED);
  }

  // ---- a replay of a suppressed range -------------------------------------

  const NOISE := CHURN.(sequence := 1)
  const NOISE_SWEEP := Sweep([NOISE], 1, ONE_AT_A_TIME, [])
  const NOISY := NEW_SYSTEM.(journal := map[1 := Entry(NOISE, 0, 0)], owed := {1}, past := NO_HISTORY.(appends := 1))
  const QUIETED := NOISY.(
    consumer := NEW_CONSUMER.(cursor := 1, receipts := {(0, 1)}),
    past := NOISY.past.(read := {Entry(NOISE, 0, 0)}, passed := {Entry(NOISE, 0, 0)}))
  const REWOUND := QUIETED.(consumer := QUIETED.consumer.(cursor := 0))

  lemma NoiseIsScanned()
    ensures IsScan([NOISE], NOISY.journal, 0, 0, 1) && !HasGap(NOISY.journal, 0, 0)
    ensures RowsOf(NOISY.journal, {NOISE}) == {Entry(NOISE, 0, 0)}
  {
    assert 1 in NOISY.journal;
    assert IsNext(NOISY, NOISE);
    OnlyIsScanned(NOISY, NOISE);
  }

  lemma NoiseIsPassedOver()
    ensures Kept([NOISE], Foreground, {}) == [] && Suppresses([NOISE], ONE_AT_A_TIME)
    ensures PassedOver([NOISE], ONE_AT_A_TIME) == {NOISE} && Scanned([NOISE]) == {NOISE}
  {
    OnlyEvent(NOISE, ONE_AT_A_TIME);
  }

  lemma NoiseIsSwept()
    ensures Enabled(NOISY, NOISE_SWEEP) && Step(NOISY, NOISE_SWEEP) == QUIETED
  {
    NoiseIsScanned();
    NoiseIsPassedOver();
    assert AllRepaused(NEW_CONSUMER) == map[];
    assert Enabled(NOISY, NOISE_SWEEP);
  }

  lemma NoiseIsReplayed()
    ensures Enabled(QUIETED, Replay(1)) && Step(QUIETED, Replay(1)) == REWOUND
    ensures IsBlocked(REWOUND, [NOISE], 1, ONE_AT_A_TIME)
  {
    NoiseIsScanned();
    NoiseIsPassedOver();
    assert Replayed(QUIETED.consumer, 1).batches == map[];
  }

  /** An entry that a full scan passed over is replayed: no sweep completes any more. */
  lemma ReplayBlocksSweeps() returns (actions: seq<Action>)
    ensures Initial(NEW_SYSTEM) && Reaches(NEW_SYSTEM, actions, REWOUND)
    ensures IsBlocked(REWOUND, [NOISE], 1, ONE_AT_A_TIME)
  {
    NoiseIsSwept();
    NoiseIsReplayed();
    actions := ReachesFirst(QUIETED, Replay(1), REWOUND, [], REWOUND);
    actions := ReachesFirst(NOISY, NOISE_SWEEP, QUIETED, actions, REWOUND);
    actions := ReachesFirst(NEW_SYSTEM, Append(NOISE, 0), NOISY, actions, REWOUND);
  }
}
