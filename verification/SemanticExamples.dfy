/** Concrete runs in which an index that reports ready, or its queues, are not what they should be. */
module SemanticExamples {
  import opened SemanticTables
  import opened SemanticRuns

  ghost predicate Leads(s: System, a: Action, u: System) {
    Enabled(s, a) && Step(s, a) == u
  }

  ghost predicate LeadsThrough(s: System, actions: seq<Action>, u: System) {
    IsRun(s, actions) && After(s, actions) == u
  }

  lemma Then(s: System, a: Action, middle: System, rest: seq<Action>, u: System)
    requires Leads(s, a, middle) && LeadsThrough(middle, rest, u)
    ensures LeadsThrough(s, [a] + rest, u)
  {
    assert ([a] + rest)[1..] == rest;
  }

  /** An archive from before the queues existed: record 7 is stored, and model 1 may have completed it. */
  function Older(done: set<(ModelKey, RecordId)>): Tables {
    Tables({7}, {}, {}, 0, map[], map[], map[], done, {Chunk(1, 7, 0)})
  }

  /** The same archive opened for model 1. */
  function Opened(done: set<(ModelKey, RecordId)>): Tables {
    Older(done).(clock := 1, models := map[1 := true],
                 owed := if done == {} then map[(1, 7) := Obligation(1, 0, 0)] else map[])
  }

  lemma Opens(done: set<(ModelKey, RecordId)>)
    requires done <= {(1, 7)}
    ensures Initial(System(Older(done), Stopped))
    ensures Leads(System(Older(done), Stopped), Open(1, {}, Opened(done)), System(Opened(done), Idle(1)))
  {
    assert Unreconciled(Older(done), 1, {}) == {1};
  }

  const SEVEN := [Row(7, 1)]

  lemma IdlePassLoads(t: Tables)
    requires t.work == map[] && t.models.Keys == {1}
    ensures Leads(System(t, Idle(1)), TakeRetirements(0, 1, []), System(t, Distributing(1, 0, 1)))
    ensures Leads(System(t, Distributing(1, 0, 1)), Distribute([1], []), System(t, Loading(1, 0, 1)))
  {
  }

  /** Tables in which model 1 owes record 7, at the revision of `SEVEN`, and nothing else is queued. */
  predicate OwesSeven(t: Tables) {
    t.work == map[] && t.models == map[1 := true] && t.owed == map[(1, 7) := Obligation(1, 0, 0)] && t.records == {7}
  }

  lemma LoadsSeven(t: Tables)
    requires OwesSeven(t)
    ensures Leads(System(t, Loading(1, 0, 1)), Load(SEVEN), System(t, Working(1, SEVEN)))
  {
    assert DueOwed(t.owed, 1, 0) == map[7 := 1];
    OnlyRowIsOldest(Row(7, 1));
  }

  lemma InspectsSeven(t: Tables, next: Phase)
    requires OwesSeven(t) && Live(t, 7)
    requires next == if Chunk(1, 7, 0) in t.chunks then Publishing(1, SEVEN) else Embedding(1, SEVEN)
    requires t.done == {} && t.chunks <= {Chunk(1, 7, 0)}
    ensures Leads(System(t, Working(1, SEVEN)), Inspect, System(t, next))
  {
    assert SEVEN[0] == Row(7, 1);
    if Chunk(1, 7, 0) !in t.chunks {
      assert t.chunks == {};
    }
  }

  lemma PublishesSeven(t: Tables)
    ensures Leads(System(t, Publishing(1, SEVEN)), Publish, System(t, Acknowledging(1, SEVEN)))
  {
  }

  const BEGINNING := [TakeRetirements(0, 1, [])] + ([Distribute([1], [])] + ([Load(SEVEN)] + ([Inspect] + [])))

  /** The first half of a pass: up to the decision about record 7. */
  lemma BeginsWithSeven(t: Tables, next: Phase)
    requires OwesSeven(t) && Live(t, 7) && t.done == {} && t.chunks <= {Chunk(1, 7, 0)}
    requires next == if Chunk(1, 7, 0) in t.chunks then Publishing(1, SEVEN) else Embedding(1, SEVEN)
    ensures LeadsThrough(System(t, Idle(1)), BEGINNING, System(t, next))
  {
    var end := System(t, next);
    IdlePassLoads(t);
    LoadsSeven(t);
    InspectsSeven(t, next);
    Then(System(t, Working(1, SEVEN)), Inspect, end, [], end);
    var r1 := [Inspect] + [];
    Then(System(t, Loading(1, 0, 1)), Load(SEVEN), System(t, Working(1, SEVEN)), r1, end);
    var r2 := [Load(SEVEN)] + r1;
    Then(System(t, Distributing(1, 0, 1)), Distribute([1], []), System(t, Loading(1, 0, 1)), r2, end);
    Then(System(t, Idle(1)), TakeRetirements(0, 1, []), System(t, Distributing(1, 0, 1)), [Distribute([1], [])] + r2, end);
  }

  /** Two runs, one after the other. */
  lemma {:induction false} Joined(s: System, xs: seq<Action>, m: System, ys: seq<Action>, u: System)
    requires LeadsThrough(s, xs, m) && LeadsThrough(m, ys, u)
    ensures LeadsThrough(s, xs + ys, u)
    decreases |xs|
  {
    if xs == [] {
      assert xs + ys == ys;
    } else {
      Joined(Step(s, xs[0]), xs[1..], m, ys, u);
      Then(s, xs[0], Step(s, xs[0]), xs[1..] + ys, u);
      assert xs + ys == [xs[0]] + (xs[1..] + ys);
    }
  }

  lemma AcknowledgesThenLoses(t: Tables, u: Tables)
    requires t == Opened({}).(owed := map[], done := {(1, 7)}) && u == Opened({}).(owed := map[])
    ensures Leads(System(Opened({}), Acknowledging(1, SEVEN)), Acknowledge, System(t, Cleaning(1, SEVEN)))
    ensures Leads(System(t, Cleaning(1, SEVEN)), Raise, System(t, Failing(1, SEVEN, true)))
    ensures Leads(System(t, Failing(1, SEVEN, true)), BackOff(30), System(u, Working(1, [])))
  {
    assert SEVEN[1..] == [];
    assert Acknowledged(Opened({}), 1, SEVEN[0]) == t;
    assert BackedOff(t, 1, SEVEN[0], 30) == u;
  }

  const CLEANUP_TAIL := [Publish] + ([Acknowledge] + ([Raise] + ([BackOff(30)] + ([Finish] + []))))

  lemma CleanupTailRuns(t: Tables, u: Tables)
    requires t == Opened({}).(owed := map[], done := {(1, 7)}) && u == Opened({}).(owed := map[])
    ensures LeadsThrough(System(Opened({}), Publishing(1, SEVEN)), CLEANUP_TAIL, System(u, Idle(1)))
  {
    var o, end := Opened({}), System(u, Idle(1));
    PublishesSeven(o);
    AcknowledgesThenLoses(t, u);
    Then(System(u, Working(1, [])), Finish, end, [], end);
    var r1 := [Finish] + [];
    Then(System(t, Failing(1, SEVEN, true)), BackOff(30), System(u, Working(1, [])), r1, end);
    var r2 := [BackOff(30)] + r1;
    Then(System(t, Cleaning(1, SEVEN)), Raise, System(t, Failing(1, SEVEN, true)), r2, end);
    var r3 := [Raise] + r2;
    Then(System(o, Acknowledging(1, SEVEN)), Acknowledge, System(t, Cleaning(1, SEVEN)), r3, end);
    Then(System(o, Publishing(1, SEVEN)), Publish, System(o, Acknowledging(1, SEVEN)), [Acknowledge] + r3, end);
  }

  const CLEANUP_RUN := [Open(1, {}, Opened({}))] + (BEGINNING + CLEANUP_TAIL)

  /**
   The clean-up of a completed record fails: afterwards the index reports ready
   although the only live record is not completed and nothing will bring it back.
   */
  lemma CleanupFailureLosesRecord()
    ensures Initial(System(Older({}), Stopped)) && IsRun(System(Older({}), Stopped), CLEANUP_RUN)
    ensures
      var t := After(System(Older({}), Stopped), CLEANUP_RUN).tables;
      Ready(t, 1) && Live(t, 7) && (1, 7) !in t.done
  {
    var o := Opened({});
    var t := o.(owed := map[], done := {(1, 7)});
    var u := o.(owed := map[]);
    var end := System(u, Idle(1));
    Opens({});
    BeginsWithSeven(o, Publishing(1, SEVEN));
    CleanupTailRuns(t, u);
    Joined(System(o, Idle(1)), BEGINNING, System(o, Publishing(1, SEVEN)), CLEANUP_TAIL, end);
    Then(System(Older({}), Stopped), Open(1, {}, o), System(o, Idle(1)), BEGINNING + CLEANUP_TAIL, end);
    NothingPending(u);
  }

  lemma NothingPending(t: Tables)
    requires t.work == map[] && t.owed == map[] && t.models == map[1 := true]
    ensures Ready(t, 1)
  {
    assert Pending(t, 1) == {} && PendingRetirements(t) == {} && PendingRegistrations(t) == {};
  }

  lemma ForgetsAndRestores(t: Tables, u: Tables)
    requires t == Opened({(1, 7)}).(deleted := {7}, clock := 2, work := map[7 := Signal(Retire, 2, 0)])
    requires u == Opened({(1, 7)}).(deleted := {7}, clock := 3, work := map[7 := Signal(Index, 3, 0)])
    ensures Leads(System(Opened({(1, 7)}), Idle(1)), Forget([7]), System(t, Idle(1)))
    ensures Leads(System(t, Idle(1)), Unhide([7]), System(u, Idle(1)))
  {
    assert [7][..0] == [];
  }

  lemma TakesNothing(t: Tables)
    requires forall r :: r in t.work ==> t.work[r].kind == Index
    ensures Leads(System(t, Idle(1)), TakeRetirements(0, 1, []), System(t, Distributing(1, 0, 1)))
  {
    assert DueSignals(t.work, Retire, 0) == map[];
  }

  lemma OnlyRowIsOldest(row: Row)
    ensures IsOldestBatch(map[row.record := row.revision], 1, [row])
  {
    assert [row][0] == row;
    assert Listed([row], row.record);
  }

  /** A completed record costs its signal and nothing else. */
  lemma FanOutSkipsCompleted(t: Tables, row: Row)
    requires (1, row.record) in t.done && row.record in t.work && t.work[row.record].revision == row.revision
    ensures Distributed(t, [1], [row]) == t.(work := t.work - {row.record})
  {
    assert [row][..0] == [] && [1][..0] == [];
    assert FannedOut(t, [1], row) == t;
  }

  lemma SkipsCompleted(t: Tables, u: Tables)
    requires t == Opened({(1, 7)}).(deleted := {7}, clock := 3, work := map[7 := Signal(Index, 3, 0)])
    requires u == t.(work := map[])
    ensures Leads(System(t, Distributing(1, 0, 1)), Distribute([1], [Row(7, 3)]), System(u, Loading(1, 0, 1)))
  {
    assert DueSignals(t.work, Index, 0) == map[7 := 3];
    OnlyRowIsOldest(Row(7, 3));
    FanOutSkipsCompleted(t, Row(7, 3));
  }

  lemma LoadsNothing(t: Tables)
    requires t.owed == map[]
    ensures Leads(System(t, Loading(1, 0, 1)), Load([]), System(t, Working(1, [])))
  {
    assert DueOwed(t.owed, 1, 0) == map[];
  }

  const RESTORE_TAIL := [TakeRetirements(0, 1, [])] + ([Distribute([1], [Row(7, 3)])] + ([Load([])] + ([Finish] + [])))

  lemma RestoreTailRuns(t: Tables, u: Tables)
    requires t == Opened({(1, 7)}).(deleted := {7}, clock := 3, work := map[7 := Signal(Index, 3, 0)])
    requires u == t.(work := map[])
    ensures LeadsThrough(System(t, Idle(1)), RESTORE_TAIL, System(u, Idle(1)))
  {
    TakesNothing(t);
    SkipsCompleted(t, u);
    LoadsNothing(u);
    var end := System(u, Idle(1));
    Then(System(u, Working(1, [])), Finish, end, [], end);
    var r1 := [Finish] + [];
    Then(System(u, Loading(1, 0, 1)), Load([]), System(u, Working(1, [])), r1, end);
    var r2 := [Load([])] + r1;
    Then(System(t, Distributing(1, 0, 1)), Distribute([1], [Row(7, 3)]), System(u, Loading(1, 0, 1)), r2, end);
    Then(System(t, Idle(1)), TakeRetirements(0, 1, []), System(t, Distributing(1, 0, 1)), [Distribute([1], [Row(7, 3)])] + r2, end);
  }

  const RESTORE_RUN := [Open(1, {}, Opened({(1, 7)}))] + ([Forget([7])] + ([Unhide([7])] + RESTORE_TAIL))

  /**
   A record is forgotten and its item restored before the retirement is taken:
   the index reports ready and keeps the forgotten record's vector.
   */
  lemma RestoredForgottenLeavesGhost()
    ensures Initial(System(Older({(1, 7)}), Stopped)) && IsRun(System(Older({(1, 7)}), Stopped), RESTORE_RUN)
    ensures
      var t := After(System(Older({(1, 7)}), Stopped), RESTORE_RUN).tables;
      Ready(t, 1) && 7 in t.deleted && Chunk(1, 7, 0) in t.chunks
  {
    var o := Opened({(1, 7)});
    var t := o.(deleted := {7}, clock := 2, work := map[7 := Signal(Retire, 2, 0)]);
    var u := o.(deleted := {7}, clock := 3, work := map[7 := Signal(Index, 3, 0)]);
    var v := u.(work := map[]);
    Opens({(1, 7)});
    ForgetsAndRestores(t, u);
    RestoreTailRuns(u, v);
    var end := System(v, Idle(1));
    Then(System(t, Idle(1)), Unhide([7]), System(u, Idle(1)), RESTORE_TAIL, end);
    var r5 := [Unhide([7])] + RESTORE_TAIL;
    Then(System(o, Idle(1)), Forget([7]), System(t, Idle(1)), r5, end);
    Then(System(Older({(1, 7)}), Stopped), Open(1, {}, o), System(o, Idle(1)), [Forget([7])] + r5, end);
    NothingPending(v);
  }

  // ---- a restore during embedding -----------------------------------------

  /** Record 7 has no vectors yet. */
  const NEWER := Tables({7}, {}, {}, 0, map[], map[], map[], {}, {})
  const OWING := NEWER.(clock := 1, models := map[1 := true], owed := map[(1, 7) := Obligation(1, 0, 0)])
  const FORGOTTEN := OWING.(deleted := {7}, clock := 2, work := map[7 := Signal(Retire, 2, 0)])
  const RESTORED := OWING.(deleted := {7}, clock := 3, work := map[7 := Signal(Index, 3, 0)])
  const EMBEDDED := RESTORED.(chunks := {Chunk(1, 7, 0)})

  lemma OpensNewer()
    ensures Initial(System(NEWER, Stopped))
    ensures Leads(System(NEWER, Stopped), Open(1, {}, OWING), System(OWING, Idle(1)))
  {
    assert Unreconciled(NEWER, 1, {}) == {1};
  }

  const MEANWHILE := [Forget([7])] + ([Unhide([7])] + ([Embed({0})] + []))

  lemma EmbedsLate()
    ensures Leads(System(RESTORED, Embedding(1, SEVEN)), Embed({0}), System(EMBEDDED, Publishing(1, SEVEN)))
  {
    assert Persisted(RESTORED, 1, 7, {0}) == EMBEDDED;
  }

  lemma MeanwhileRuns()
    ensures LeadsThrough(System(OWING, Embedding(1, SEVEN)), MEANWHILE, System(EMBEDDED, Publishing(1, SEVEN)))
  {
    var end := System(EMBEDDED, Publishing(1, SEVEN));
    assert [7][..0] == [];
    assert Forgot(OWING, [7]) == FORGOTTEN;
    assert Unhid(FORGOTTEN, [7]) == RESTORED;
    EmbedsLate();
    Then(System(RESTORED, Embedding(1, SEVEN)), Embed({0}), end, [], end);
    Then(System(FORGOTTEN, Embedding(1, SEVEN)), Unhide([7]), System(RESTORED, Embedding(1, SEVEN)), [Embed({0})] + [], end);
    Then(System(OWING, Embedding(1, SEVEN)), Forget([7]), System(FORGOTTEN, Embedding(1, SEVEN)), [Unhide([7])] + ([Embed({0})] + []), end);
  }

  const EMBEDDING_RUN := [Open(1, {}, OWING)] + (BEGINNING + MEANWHILE)

  /**
   A record is forgotten and its item restored while it is being embedded: the
   vectors that arrive belong to a forgotten record without a retirement.
   */
  lemma RestoredDuringEmbeddingLeavesGhost()
    ensures Initial(System(NEWER, Stopped)) && IsRun(System(NEWER, Stopped), EMBEDDING_RUN)
    ensures
      var t := After(System(NEWER, Stopped), EMBEDDING_RUN).tables;
      7 in t.deleted && Chunk(1, 7, 0) in t.chunks && !NoGhosts(t)
  {
    var end := System(EMBEDDED, Publishing(1, SEVEN));
    OpensNewer();
    BeginsWithSeven(OWING, Embedding(1, SEVEN));
    MeanwhileRuns();
    Joined(System(OWING, Idle(1)), BEGINNING, System(OWING, Embedding(1, SEVEN)), MEANWHILE, end);
    Then(System(NEWER, Stopped), Open(1, {}, OWING), System(OWING, Idle(1)), BEGINNING + MEANWHILE, end);
    assert HasTraces(EMBEDDED, 1, 7) && !Signals(EMBEDDED, 7, Retire);
  }
}
