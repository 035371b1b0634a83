/**
 Delivery workers at work on the intent table: each claims, revalidates, reads
 the content, dispatches and confirms in separate steps, may stop anywhere, and
 shares the table with other workers, reconciliation and administrators.
 */
module DeliveryRuns {
  import opened Wrappers
  import opened Deliveries

  /** How far a worker has come with the intent it claimed. */
  datatype Stage = Idle | Claimed(key: Key) | Checked(key: Key) | Ready(key: Key) | Sent(key: Key)

  /** `sent` counts what reached the channel. */
  datatype System = System(tables: Tables, workers: map<WorkerId, Stage>, sent: multiset<Key>)

  datatype Action =
    | Queue(id: ConsumerId, batch: BatchId, groupKey: nat, groupVersion: Option<nat>, urgent: bool, minute: Minute, now: Instant)
    | Next(worker: WorkerId, scope: Scope, key: Key, now: Instant)
    | Revalidate(worker: WorkerId, minute: Minute, now: Instant)
    | ReadContent(worker: WorkerId)
    | Dispatch(worker: WorkerId)
    | Confirm(worker: WorkerId, now: Instant)
    | Stop(worker: WorkerId)
    | OutsideRevalidate(key: Key, minute: Minute, now: Instant)
    | OutsideConfirm(key: Key, now: Instant)
    | Reconcile(cutoff: Instant, minute: Minute, now: Instant)
    | Withdraw(batches: set<BatchId>, now: Instant)
    | Recover(batches: set<BatchId>)
    | Configure(id: ConsumerId, consumer: Consumer)
    | SetBatch(batch: BatchId, row: BatchRow)
    | StartEpoch(now: Instant)

  function StageOf(s: System, w: WorkerId): Stage {
    if w in s.workers then s.workers[w] else Idle
  }

  function Moved(s: System, w: WorkerId, stage: Stage): map<WorkerId, Stage> {
    s.workers[w := stage]
  }

  ghost predicate Enabled(s: System, a: Action) {
    match a
    case Queue(_, _, _, _, _, _, _) => true
    case Next(w, scope, k, _) => StageOf(s, w) == Idle && IsNext(s.tables, scope, k)
    case Revalidate(w, _, _) => StageOf(s, w).Claimed? && StageOf(s, w).key in s.tables.intents
    case ReadContent(w) =>
      && StageOf(s, w).Checked? && StageOf(s, w).key in s.tables.intents
      && s.tables.intents[StageOf(s, w).key].state == Attempted
    case Dispatch(w) => StageOf(s, w).Ready?
    case Confirm(w, _) => StageOf(s, w).Sent? && StageOf(s, w).key in s.tables.intents
    case Stop(w) => true
    case OutsideRevalidate(k, _, _) => k in s.tables.intents
    case OutsideConfirm(k, _) => k in s.tables.intents
    case Reconcile(_, _, _) => true
    case Withdraw(_, _) => true
    case Recover(_) => true
    case Configure(_, _) => true
    case SetBatch(_, _) => true
    case StartEpoch(_) => true
  }

  ghost function Step(s: System, a: Action): System
    requires Enabled(s, a)
  {
    var t := s.tables;
    match a
    case Queue(id, batch, groupKey, groupVersion, urgent, minute, now) =>
      s.(tables := IntentQueued(t, id, batch, groupKey, groupVersion, urgent, minute, now))
    case Next(w, _, k, now) => s.(tables := IntentClaimed(t, k, now), workers := Moved(s, w, Claimed(k)))
    case Revalidate(w, minute, now) =>
      var k := StageOf(s, w).key;
      s.(tables := Revalidated(t, k, minute, now),
         workers := Moved(s, w, if RevalidatedState(t, k, minute) == Attempted then Checked(k) else Idle))
    case ReadContent(w) => s.(workers := Moved(s, w, Ready(StageOf(s, w).key)))
    case Dispatch(w) => s.(workers := Moved(s, w, Sent(StageOf(s, w).key)), sent := s.sent + multiset{StageOf(s, w).key})
    case Confirm(w, now) => s.(tables := ReceiptRecorded(t, StageOf(s, w).key, now), workers := Moved(s, w, Idle))
    case Stop(w) => s.(workers := Moved(s, w, Idle))
    case OutsideRevalidate(k, minute, now) => s.(tables := Revalidated(t, k, minute, now))
    case OutsideConfirm(k, now) => s.(tables := ReceiptRecorded(t, k, now))
    case Reconcile(cutoff, minute, now) => s.(tables := Reconciled(t, cutoff, minute, now))
    case Withdraw(batches, now) => s.(tables := Withdrawn(t.(invalid := t.invalid + batches), batches, now))
    case Recover(batches) => s.(tables := t.(invalid := t.invalid - batches))
    case Configure(id, consumer) => s.(tables := t.(consumers := t.consumers[id := consumer]))
    case SetBatch(batch, row) => s.(tables := t.(batches := t.batches[batch := row]))
    case StartEpoch(now) => s.(tables := Withdrawn(t.(epoch := t.epoch + 1), set k | k in t.intents :: t.intents[k].batch, now))
  }

  ghost predicate IsRun(s: System, actions: seq<Action>)
    decreases |actions|
  {
    actions == [] || (Enabled(s, actions[0]) && IsRun(Step(s, actions[0]), actions[1..]))
  }

  ghost function After(s: System, actions: seq<Action>): System
    requires IsRun(s, actions)
    decreases |actions|
  {
    if actions == [] then s else After(Step(s, actions[0]), actions[1..])
  }

  // ---- at most once -------------------------------------------------------

  /** The worker may still dispatch this intent. */
  predicate Holds(s: System, w: WorkerId, k: Key) {
    var stage := StageOf(s, w);
    (stage.Claimed? || stage.Checked? || stage.Ready?) && stage.key == k
  }

  predicate Waiting(s: System, k: Key) {
    k in s.tables.intents && s.tables.intents[k].state in {Queued, QuietHold}
  }

  ghost predicate DispatchInvariant(s: System) {
    && (forall k: Key :: s.sent[k] <= 1)
    && (forall k: Key :: s.sent[k] > 0 ==> k in s.tables.intents && !Waiting(s, k))
    && (forall w: WorkerId, k: Key :: Holds(s, w, k) ==> k in s.tables.intents && !Waiting(s, k) && s.sent[k] == 0)
    && (forall v: WorkerId, w: WorkerId, k: Key :: Holds(s, v, k) && Holds(s, w, k) ==> v == w)
  }

  /**
   Somebody else's revalidation is harmful when it puts an attempted intent on
   hold that was sent or that a worker may still send.
   */
  ghost predicate IsHarmless(s: System, a: Action)
    requires Enabled(s, a)
  {
    a.OutsideRevalidate? ==>
      !(&& s.tables.intents[a.key].state == Attempted && RevalidatedState(s.tables, a.key, a.minute) == QuietHold
        && (s.sent[a.key] > 0 || exists w: WorkerId :: Holds(s, w, a.key)))
  }

  ghost predicate IsHarmlessThroughout(s: System, actions: seq<Action>)
    requires IsRun(s, actions)
    decreases |actions|
  {
    actions == [] || (IsHarmless(s, actions[0]) && IsHarmlessThroughout(Step(s, actions[0]), actions[1..]))
  }

  /** Everything except a claim and a dispatch: nobody gains an intent, and what is not waiting stays so. */
  lemma QuietStep(s: System, u: System)
    requires DispatchInvariant(s)
    requires u.sent == s.sent
    requires forall w: WorkerId, k: Key :: Holds(u, w, k) ==> Holds(s, w, k)
    requires forall k: Key :: k in s.tables.intents ==> k in u.tables.intents
    requires forall k: Key :: k in s.tables.intents && !Waiting(s, k) ==>
               !Waiting(u, k) || (s.sent[k] == 0 && forall w: WorkerId :: !Holds(u, w, k))
    ensures DispatchInvariant(u)
  {
  }

  lemma OtherStep(s: System, a: Action)
    requires DispatchInvariant(s) && Enabled(s, a) && !a.OutsideRevalidate? && !a.Next? && !a.Dispatch?
    ensures DispatchInvariant(Step(s, a))
  {
    var u := Step(s, a);
    if a.Revalidate? {
      assert Holds(s, a.worker, StageOf(s, a.worker).key);
    }
    QuietStep(s, u);
  }

  lemma ClaimStep(s: System, a: Action)
    requires DispatchInvariant(s) && Enabled(s, a) && a.Next?
    ensures DispatchInvariant(Step(s, a))
  {
    var u := Step(s, a);
    assert Waiting(s, a.key);
    forall w: WorkerId, k: Key | Holds(u, w, k)
      ensures k in u.tables.intents && !Waiting(u, k) && u.sent[k] == 0
      ensures (w == a.worker && k == a.key) || Holds(s, w, k)
    {
      assert (w == a.worker && k == a.key) || Holds(s, w, k);
    }
  }

  lemma SendStep(s: System, a: Action)
    requires DispatchInvariant(s) && Enabled(s, a) && a.Dispatch?
    ensures DispatchInvariant(Step(s, a))
  {
    var u := Step(s, a);
    var key := StageOf(s, a.worker).key;
    assert Holds(s, a.worker, key);
    forall w: WorkerId, k: Key | Holds(u, w, k) ensures Holds(s, w, k) && k != key {
      assert Holds(s, w, k);
    }
  }

  /** Exactly the harmful revalidations from outside endanger the guarantee. */
  lemma OutsideRevalidationBreaksExactly(s: System, a: Action)
    requires DispatchInvariant(s) && Enabled(s, a) && a.OutsideRevalidate?
    ensures DispatchInvariant(Step(s, a)) <==> IsHarmless(s, a)
  {
    var u := Step(s, a);
    forall w: WorkerId, k: Key ensures Holds(u, w, k) <==> Holds(s, w, k) {}
    if s.tables.intents[a.key].state == Attempted && RevalidatedState(s.tables, a.key, a.minute) == QuietHold {
      if s.sent[a.key] > 0 {
        assert Waiting(u, a.key);
      } else if w: WorkerId :| Holds(s, w, a.key) {
        assert Holds(u, w, a.key) && Waiting(u, a.key);
      } else {
        QuietStep(s, u);
      }
    } else {
      QuietStep(s, u);
    }
  }

  lemma DispatchStepExactly(s: System, a: Action)
    requires DispatchInvariant(s) && Enabled(s, a)
    ensures DispatchInvariant(Step(s, a)) <==> IsHarmless(s, a)
  {
    if a.OutsideRevalidate? {
      OutsideRevalidationBreaksExactly(s, a);
    } else if a.Next? {
      ClaimStep(s, a);
    } else if a.Dispatch? {
      SendStep(s, a);
    } else {
      OtherStep(s, a);
    }
  }

  ghost predicate DispatchThroughout(s: System, actions: seq<Action>)
    requires IsRun(s, actions)
    decreases |actions|
  {
    DispatchInvariant(s) && (actions == [] || DispatchThroughout(Step(s, actions[0]), actions[1..]))
  }

  /** Over a whole run: the guarantee holds at every point exactly when no revalidation from outside is harmful. */
  lemma {:induction false} DispatchRunExactly(s: System, actions: seq<Action>)
    requires DispatchInvariant(s) && IsRun(s, actions)
    ensures DispatchThroughout(s, actions) <==> IsHarmlessThroughout(s, actions)
    decreases |actions|
  {
    if actions != [] {
      DispatchStepExactly(s, actions[0]);
      if IsHarmless(s, actions[0]) {
        DispatchRunExactly(Step(s, actions[0]), actions[1..]);
      }
    }
  }

  lemma {:induction false} DispatchOverRun(s: System, actions: seq<Action>)
    requires DispatchInvariant(s) && IsRun(s, actions) && IsHarmlessThroughout(s, actions)
    ensures DispatchInvariant(After(s, actions))
    ensures forall k: Key :: s.sent[k] <= After(s, actions).sent[k]
    decreases |actions|
  {
    if actions != [] {
      DispatchStepExactly(s, actions[0]);
      DispatchOverRun(Step(s, actions[0]), actions[1..]);
    }
  }

  // ---- nothing is sent that may not be ------------------------------------

  /** Which workers' last check, since their claim, found that the intent they carry may be sent. */
  ghost function Cleared(s: System, a: Action, cleared: set<WorkerId>): set<WorkerId>
    requires Enabled(s, a)
  {
    match a
    case Next(w, _, _, _) => cleared - {w}
    case Revalidate(w, minute, _) =>
      var k := StageOf(s, w).key;
      if MaySend(s.tables, k, s.tables.intents[k], minute) then cleared + {w} else cleared - {w}
    case _ => cleared
  }

  ghost function ClearedOver(s: System, actions: seq<Action>, cleared: set<WorkerId>): set<WorkerId>
    requires IsRun(s, actions)
    decreases |actions|
  {
    if actions == [] then cleared else ClearedOver(Step(s, actions[0]), actions[1..], Cleared(s, actions[0], cleared))
  }

  predicate AreCleared(s: System, cleared: set<WorkerId>) {
    forall w :: w in s.workers && (s.workers[w].Checked? || s.workers[w].Ready?) ==> w in cleared
  }

  lemma StepKeepsCleared(s: System, a: Action, cleared: set<WorkerId>)
    requires AreCleared(s, cleared) && Enabled(s, a)
    ensures AreCleared(Step(s, a), Cleared(s, a, cleared))
  {
    if a.Revalidate? {
      var i := s.tables.intents[StageOf(s, a.worker).key];
      if i.consumer in s.tables.consumers {
        QuietIsSilent(s.tables.consumers[i.consumer].quiet, a.minute);
      }
    }
  }

  lemma {:induction false} ClearedOverRun(s: System, actions: seq<Action>, cleared: set<WorkerId>)
    requires AreCleared(s, cleared) && IsRun(s, actions)
    ensures AreCleared(After(s, actions), ClearedOver(s, actions, cleared))
    decreases |actions|
  {
    if actions != [] {
      StepKeepsCleared(s, actions[0], cleared);
      ClearedOverRun(Step(s, actions[0]), actions[1..], Cleared(s, actions[0], cleared));
    }
  }

  /**
   Over any run: a worker sends only what its own check, made after it claimed
   the intent, found may be sent: policy, evidence and the silent hours of the
   owner included.
   */
  lemma SendsOnlyWhatMayBeSent(s: System, actions: seq<Action>, a: Action)
    requires Initial(s) && IsRun(s, actions) && Enabled(After(s, actions), a) && a.Dispatch?
    ensures a.worker in ClearedOver(s, actions, {})
  {
    ClearedOverRun(s, actions, {});
  }

  /** No worker holds anything and nothing was sent; stored intents may be in any state. */
  ghost predicate Initial(s: System) {
    s.workers == map[] && s.sent == multiset{}
  }

  /**
   At most one notification per key over every run of queueing, concurrent
   workers, crashes, quiet holds, reconciliation, withdrawal, resets and changes
   of policy, as long as no revalidation from outside is harmful.
   */
  lemma AtMostOnce(s: System, actions: seq<Action>)
    requires Initial(s) && IsRun(s, actions) && IsHarmlessThroughout(s, actions)
    ensures forall k: Key :: After(s, actions).sent[k] <= 1
  {
    DispatchOverRun(s, actions);
  }

  lemma {:induction false} RunsInSequence(s: System, xs: seq<Action>, ys: seq<Action>)
    requires IsRun(s, xs + ys) && IsHarmlessThroughout(s, xs + ys)
    ensures IsRun(s, xs) && IsHarmlessThroughout(s, xs)
    ensures IsRun(After(s, xs), ys) && IsHarmlessThroughout(After(s, xs), ys)
    ensures After(s, xs + ys) == After(After(s, xs), ys)
    decreases |xs|
  {
    if xs == [] {
      assert xs + ys == ys;
    } else {
      assert (xs + ys)[1..] == xs[1..] + ys && (xs + ys)[0] == xs[0];
      RunsInSequence(Step(s, xs[0]), xs[1..], ys);
    }
  }

  /** What was dispatched once is never queued or held again, however the run goes on. */
  lemma SentNeverQueuedAgain(s: System, before: seq<Action>, after: seq<Action>, k: Key)
    requires Initial(s) && IsRun(s, before + after) && IsHarmlessThroughout(s, before + after)
    ensures IsRun(s, before)
    ensures After(s, before).sent[k] > 0 ==> !Waiting(After(s, before + after), k)
  {
    RunsInSequence(s, before, after);
    DispatchOverRun(s, before);
    DispatchOverRun(After(s, before), after);
  }

  // ---- why the claiming worker must be the only one -----------------------

  ghost predicate LeadsThrough(s: System, actions: seq<Action>, u: System) {
    IsRun(s, actions) && After(s, actions) == u
  }

  lemma Then(s: System, a: Action, rest: seq<Action>, u: System)
    requires Enabled(s, a) && LeadsThrough(Step(s, a), rest, u)
    ensures LeadsThrough(s, [a] + rest, u)
  {
    assert ([a] + rest)[1..] == rest;
  }

  lemma {:induction false} Joined(s: System, xs: seq<Action>, m: System, ys: seq<Action>, u: System)
    requires LeadsThrough(s, xs, m) && LeadsThrough(m, ys, u)
    ensures LeadsThrough(s, xs + ys, u)
    decreases |xs|
  {
    if xs == [] {
      assert xs + ys == ys;
    } else {
      Joined(Step(s, xs[0]), xs[1..], m, ys, u);
      assert (xs + ys)[1..] == xs[1..] + ys;
    }
  }

  const NIGHT_OWL := Consumer(1, true, true, true, Some(2), Some(Window(0, 60)), false)
  const NEWS := Key(1, 2, 3, 4, 5)

  /** One intent for one background consumer that is quiet during the first hour of the day. */
  function Single(state: IntentState, attempts: nat): Tables {
    Tables(map[1 := NIGHT_OWL], map[NEWS := Intent(1, 1, false, state, attempts, 0, 0)], map[1 := BatchRow(1, true, 0, 3, 5)], 0, {})
  }

  function SendingBy(w: WorkerId): seq<Action> {
    [Next(w, Scoped(1, 1), NEWS, 0)] + ([Revalidate(w, 100, 0)] + ([ReadContent(w)] + ([Dispatch(w)] + [])))
  }

  /** Outside the quiet hour an idle worker sends the queued intent. */
  lemma IdleWorkerSends(workers: map<WorkerId, Stage>, w: WorkerId, attempts: nat, sent: multiset<Key>)
    requires w in workers ==> workers[w] == Idle
    ensures LeadsThrough(System(Single(Queued, attempts), workers, sent), SendingBy(w),
                         System(Single(Attempted, attempts + 1), workers[w := Sent(NEWS)], sent + multiset{NEWS}))
  {
    var t := Single(Attempted, attempts + 1);
    var s0 := System(Single(Queued, attempts), workers, sent);
    var s1 := System(t, workers[w := Claimed(NEWS)], sent);
    var s2 := System(t, workers[w := Checked(NEWS)], sent);
    var s3 := System(t, workers[w := Ready(NEWS)], sent);
    var s4 := System(t, workers[w := Sent(NEWS)], sent + multiset{NEWS});
    assert Step(s0, Next(w, Scoped(1, 1), NEWS, 0)) == s1;
    assert Step(s1, Revalidate(w, 100, 0)) == s2;
    assert Step(s2, ReadContent(w)) == s3;
    assert Step(s3, Dispatch(w)) == s4;
    Then(s3, Dispatch(w), [], s4);
    Then(s2, ReadContent(w), [Dispatch(w)] + [], s4);
    Then(s1, Revalidate(w, 100, 0), [ReadContent(w)] + ([Dispatch(w)] + []), s4);
    Then(s0, Next(w, Scoped(1, 1), NEWS, 0), [Revalidate(w, 100, 0)] + ([ReadContent(w)] + ([Dispatch(w)] + [])), s4);
  }

  /** Somebody else revalidates in the quiet hour; reconciliation later releases the hold. */
  const REQUEUE := [OutsideRevalidate(NEWS, 30, 0)] + ([Reconcile(-1, 100, 0)] + [])

  lemma HeldThenReleased(workers: map<WorkerId, Stage>, sent: multiset<Key>)
    ensures LeadsThrough(System(Single(Attempted, 1), workers, sent), REQUEUE, System(Single(Queued, 1), workers, sent))
  {
    var s0 := System(Single(Attempted, 1), workers, sent);
    var s1 := System(Single(QuietHold, 1), workers, sent);
    var s2 := System(Single(Queued, 1), workers, sent);
    assert Step(s0, OutsideRevalidate(NEWS, 30, 0)) == s1;
    assert Step(s1, Reconcile(-1, 100, 0)) == s2;
    Then(s1, Reconcile(-1, 100, 0), [], s2);
    Then(s0, OutsideRevalidate(NEWS, 30, 0), [Reconcile(-1, 100, 0)] + [], s2);
  }

  const ONCE: multiset<Key> := multiset{NEWS}
  const FIRST_SENT: map<WorkerId, Stage> := map[1 := Sent(NEWS)]
  const SENT_TWICE := System(Single(Attempted, 2), FIRST_SENT[2 := Sent(NEWS)], ONCE + multiset{NEWS})

  lemma FirstSend()
    ensures LeadsThrough(System(Single(Queued, 0), map[], multiset{}), SendingBy(1), System(Single(Attempted, 1), FIRST_SENT, ONCE))
  {
    assert map[][1 := Sent(NEWS)] == FIRST_SENT && multiset{} + multiset{NEWS} == ONCE;
    IdleWorkerSends(map[], 1, 0, multiset{});
  }

  lemma SecondSend()
    ensures LeadsThrough(System(Single(Attempted, 1), FIRST_SENT, ONCE), REQUEUE + SendingBy(2), SENT_TWICE)
  {
    HeldThenReleased(FIRST_SENT, ONCE);
    IdleWorkerSends(FIRST_SENT, 2, 1, ONCE);
    Joined(System(Single(Attempted, 1), FIRST_SENT, ONCE), REQUEUE, System(Single(Queued, 1), FIRST_SENT, ONCE), SendingBy(2), SENT_TWICE);
  }

  /** Without the restriction the same key reaches the channel twice. */
  lemma OutsideRevalidationSendsTwice()
    ensures
      var s := System(Single(Queued, 0), map[], multiset{});
      var run := SendingBy(1) + (REQUEUE + SendingBy(2));
      Initial(s) && IsRun(s, run) && After(s, run).sent[NEWS] == 2
  {
    FirstSend();
    SecondSend();
    Joined(System(Single(Queued, 0), map[], multiset{}), SendingBy(1), System(Single(Attempted, 1), FIRST_SENT, ONCE),
           REQUEUE + SendingBy(2), SENT_TWICE);
  }
}
