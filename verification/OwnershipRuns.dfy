/**
 Every interleaving of lazy construction, warm-up, repeated shutdowns with
 expiring budgets, and threads that stop when they stop.
 */
module OwnershipRuns {
  import opened Wrappers
  import opened Ownership

  type Actor = nat

  /** Inside the initialization lock; the last three count as initializers. */
  datatype Building = Entered | Constructing | Built | Leaving

  /** One call of close: what it has seen so far. */
  datatype Shutdown =
    | Waiting
    | Warming(initializersPending: bool)
    | Joining(initializersPending: bool)
    | Looking(initializersPending: bool, next: nat)
    | Deciding(initializersPending: bool, writersPending: bool)
    | Finishing(initializersPending: bool, writersPending: bool)

  /**
   Warm-up threads ever started, true while alive; the one the service keeps
   track of; calls past their state check; and calls about to start a thread.
   */
  datatype Warmth = Warmth(threads: seq<bool>, tracked: Option<nat>, admitted: nat, creating: nat)

  datatype System = System(
    shared: Shared, builder: Option<(Actor, Building)>, closers: map<Actor, Shutdown>, warm: Warmth)

  predicate TracksLive(w: Warmth) {
    w.tracked.Some? && w.tracked.value < |w.threads| && w.threads[w.tracked.value]
  }

  datatype Action =
    // lazy construction
    | TakeLock(actor: Actor)
    | Register
    | Construct(succeeds: bool)
    | Publish
    | Leave
    // index threads
    | ThreadStops(thread: nat)
    // shutdown
    | StartClose(actor: Actor)
    | StopWaiting(actor: Actor, expired: bool)
    | JoinWarmup(actor: Actor, expired: bool)
    | JoinThreads(actor: Actor)
    | Look(actor: Actor)
    | Decide(actor: Actor)
    | Finish(actor: Actor)
    // warm-up
    | AdmitWarmup
    | LookForWarmup
    | CreateWarmup
    | WarmupEnds(thread: nat)

  predicate Enabled(s: System, a: Action) {
    var h := s.shared;
    match a
    case TakeLock(_) => s.builder.None? && !h.published && !h.failed
    case Register => s.builder.Some? && s.builder.value.1 == Entered
    case Construct(_) => s.builder.Some? && s.builder.value.1 == Constructing
    case Publish => s.builder.Some? && s.builder.value.1 == Built
    case Leave => s.builder.Some? && s.builder.value.1 == Leaving && h.initializers > 0
    case ThreadStops(i) => i < |h.threads|
    case StartClose(c) => c !in s.closers && h.state != Closed
    case StopWaiting(c, expired) => c in s.closers && s.closers[c].Waiting? && (h.initializers == 0 || expired)
    case JoinWarmup(c, expired) => c in s.closers && s.closers[c].Warming? && (!TracksLive(s.warm) || expired)
    case JoinThreads(c) => c in s.closers && s.closers[c].Joining?
    case Look(c) => c in s.closers && s.closers[c].Looking?
    case Decide(c) => c in s.closers && s.closers[c].Deciding?
    case Finish(c) => c in s.closers && s.closers[c].Finishing?
    case AdmitWarmup => h.state == Running
    case LookForWarmup => s.warm.admitted > 0
    case CreateWarmup => s.warm.creating > 0
    case WarmupEnds(i) => i < |s.warm.threads|
  }

  /** One thread's aliveness, in list order; the first live one settles the question. */
  function Looked(h: Shared, d: Shutdown): Shutdown
    requires d.Looking?
  {
    if d.next >= |h.threads| then Deciding(d.initializersPending, false)
    else if h.threads[d.next] then Deciding(d.initializersPending, true)
    else d.(next := d.next + 1)
  }

  function Step(s: System, a: Action): System
    requires Enabled(s, a)
  {
    var h := s.shared;
    match a
    case TakeLock(x) => s.(builder := Some((x, Entered)))
    case Register =>
      if h.state != Running then s.(builder := None)
      else s.(shared := h.(initializers := h.initializers + 1), builder := Some((s.builder.value.0, Constructing)))
    case Construct(succeeds) =>
      if succeeds then s.(builder := Some((s.builder.value.0, Built)))
      else s.(shared := h.(failed := true), builder := Some((s.builder.value.0, Leaving)))
    case Publish =>
      s.(builder := Some((s.builder.value.0, Leaving)),
         shared := if h.state != Running then h
                   else h.(published := true, threads := if h.indexing then h.threads + [true] else h.threads))
    case Leave => s.(shared := h.(initializers := h.initializers - 1), builder := None)
    case ThreadStops(i) => s.(shared := h.(threads := h.threads[i := false]))
    case StartClose(c) => s.(shared := h.(state := Closing), closers := s.closers[c := Waiting])
    case StopWaiting(c, _) => s.(closers := s.closers[c := Warming(h.initializers > 0)])
    case JoinWarmup(c, _) => s.(closers := s.closers[c := Joining(s.closers[c].initializersPending)])
    case JoinThreads(c) => s.(closers := s.closers[c := Looking(s.closers[c].initializersPending, 0)])
    case Look(c) => s.(closers := s.closers[c := Looked(h, s.closers[c])])
    case Decide(c) =>
      var d := s.closers[c];
      if h.lease && (d.initializersPending || d.writersPending) then s.(closers := s.closers - {c})
      else s.(shared := h.(lease := false), closers := s.closers[c := Finishing(d.initializersPending, d.writersPending)])
    case Finish(c) =>
      var d := s.closers[c];
      s.(shared := if !d.initializersPending && !d.writersPending then h.(state := Closed) else h, closers := s.closers - {c},
         warm := if TracksLive(s.warm) then s.warm else s.warm.(tracked := None))
    case AdmitWarmup => s.(warm := s.warm.(admitted := s.warm.admitted + 1))
    case LookForWarmup => s.(warm := Answered(s.warm))
    case CreateWarmup => s.(warm := Created(s.warm))
    case WarmupEnds(i) => s.(warm := s.warm.(threads := s.warm.threads[i := false]))
  }

  /** A call that finds the tracked thread alive returns it; otherwise it is about to start one. */
  function Answered(w: Warmth): Warmth
    requires w.admitted > 0
  {
    w.(admitted := w.admitted - 1, creating := if TracksLive(w) then w.creating else w.creating + 1)
  }

  function Created(w: Warmth): Warmth
    requires w.creating > 0
  {
    w.(threads := w.threads + [true], tracked := Some(|w.threads|), creating := w.creating - 1)
  }

  predicate IsRun(s: System, actions: seq<Action>)
    decreases |actions|
  {
    actions == [] || (Enabled(s, actions[0]) && IsRun(Step(s, actions[0]), actions[1..]))
  }

  function After(s: System, actions: seq<Action>): System
    requires IsRun(s, actions)
    decreases |actions|
  {
    if actions == [] then s else After(Step(s, actions[0]), actions[1..])
  }

  /** A service right after start-up, with any number of index threads running if it owns indexing. */
  predicate Initial(s: System) {
    && s.shared.state == Running && s.shared.initializers == 0
    && s.shared.lease == s.shared.indexing && (!s.shared.indexing ==> s.shared.threads == [])
    && s.builder == None && s.closers == map[] && s.warm == Warmth([], None, 0, 0)
  }

  predicate CountsInitializer(s: System) {
    s.shared.initializers == if s.builder.Some? && s.builder.value.1 != Entered then 1 else 0
  }

  /** What a closer has seen still holds, whatever the others did meanwhile. */
  predicate SeenStillHolds(h: Shared, d: Shutdown) {
    && h.state != Running
    && (!d.Waiting? && !d.initializersPending ==> h.initializers == 0)
    && (d.Looking? ==> forall i :: 0 <= i < d.next && i < |h.threads| ==> !h.threads[i])
    && ((d.Deciding? || d.Finishing?) && !d.writersPending ==> AllStopped(h))
    && (d.Finishing? ==> !h.lease)
  }

  predicate Invariant(s: System) {
    && CountsInitializer(s) && HandsOver(s.shared)
    && forall c :: c in s.closers ==> SeenStillHolds(s.shared, s.closers[c])
  }

  /** Every step of one thread is a step the others can rely on. */
  lemma StepIsRelied(s: System, a: Action)
    requires Invariant(s) && Enabled(s, a)
    ensures Rely(s.shared, Step(s, a).shared) && CountsInitializer(Step(s, a))
  {
    if a.Decide? || a.Finish? || a.Look? {
      assert SeenStillHolds(s.shared, s.closers[a.actor]);
    }
  }

  lemma StepKeepsInvariant(s: System, a: Action)
    requires Invariant(s) && Enabled(s, a)
    ensures Invariant(Step(s, a))
  {
    StepIsRelied(s, a);
    var u := Step(s, a);
    forall c | c in u.closers ensures SeenStillHolds(u.shared, u.closers[c]) {
      if c in s.closers {
        assert SeenStillHolds(s.shared, s.closers[c]);
      }
    }
  }

  lemma {:induction false} InvariantOverRun(s: System, actions: seq<Action>)
    requires Invariant(s) && IsRun(s, actions)
    ensures Invariant(After(s, actions)) && Rely(s.shared, After(s, actions).shared)
    decreases |actions|
  {
    if actions != [] {
      StepIsRelied(s, actions[0]);
      StepKeepsInvariant(s, actions[0]);
      InvariantOverRun(Step(s, actions[0]), actions[1..]);
      RelyComposes(s.shared, Step(s, actions[0]).shared, After(s, actions).shared);
    } else {
      assert Rely(s.shared, s.shared);
    }
  }

  /**
   Ownership handover: once the lease is released, in that state and in every
   later one, no initializer is in progress, every index thread has stopped,
   and no further one is ever started.
   */
  lemma LeaseIsHandedOverClean(s: System, before: seq<Action>, after: seq<Action>)
    requires Initial(s) && s.shared.indexing && IsRun(s, before) && !After(s, before).shared.lease
    requires IsRun(After(s, before), after)
    ensures
      var t, u := After(s, before).shared, After(After(s, before), after).shared;
      && Drained(t) && Drained(u) && !u.lease
      && |u.threads| == |t.threads|
  {
    InvariantOverRun(s, before);
    InvariantOverRun(After(s, before), after);
  }

  /** A service that reports closed has given the lease up and has no index thread left. */
  lemma ClosedMeansStopped(s: System, actions: seq<Action>)
    requires Initial(s) && IsRun(s, actions) && After(s, actions).shared.state == Closed
    ensures Drained(After(s, actions).shared) && !After(s, actions).shared.lease
  {
    InvariantOverRun(s, actions);
  }

  // ---- a later close finishes what an earlier one could not ---------------

  ghost predicate LeadsThrough(s: System, actions: seq<Action>, u: System) {
    IsRun(s, actions) && After(s, actions) == u
  }

  lemma Then(s: System, a: Action, rest: seq<Action>, u: System)
    requires Enabled(s, a) && LeadsThrough(Step(s, a), rest, u)
    ensures LeadsThrough(s, [a] + rest, u)
  {
    assert ([a] + rest)[1..] == rest;
  }

  lemma {:induction false} Joined(s: System, xs: seq<Action>, m: System, ys: seq<Action>, u: System)
    requires LeadsThrough(s, xs, m) && LeadsThrough(m, ys, u)
    ensures LeadsThrough(s, xs + ys, u)
    decreases |xs|
  {
    if xs == [] {
      assert xs + ys == ys;
    } else {
      Joined(Step(s, xs[0]), xs[1..], m, ys, u);
      Then(s, xs[0], xs[1..] + ys, u);
      assert xs + ys == [xs[0]] + (xs[1..] + ys);
    }
  }

  /** The service is closed, the lease given up; the warm-up threads are as they were. */
  predicate IsReleased(s: System, u: System) {
    && u.shared.state == Closed && !u.shared.lease
    && u.warm.threads == s.warm.threads && u.warm.admitted == s.warm.admitted && u.warm.creating == s.warm.creating
  }

  lemma DecidingEnds(s: System, c: Actor) returns (actions: seq<Action>, u: System)
    requires c in s.closers && s.closers[c] == Deciding(false, false)
    ensures LeadsThrough(s, actions, u) && IsReleased(s, u)
  {
    var t := Step(s, Decide(c));
    u := Step(t, Finish(c));
    assert LeadsThrough(u, [], u);
    Then(t, Finish(c), [], u);
    Then(s, Decide(c), [Finish(c)] + [], u);
    actions := [Decide(c)] + ([Finish(c)] + []);
  }

  lemma {:induction false} LookingEnds(s: System, c: Actor, next: nat) returns (actions: seq<Action>, u: System)
    requires c in s.closers && s.closers[c] == Looking(false, next) && next <= |s.shared.threads|
    requires AllStopped(s.shared)
    ensures LeadsThrough(s, actions, u) && IsReleased(s, u)
    decreases |s.shared.threads| - next
  {
    var t := Step(s, Look(c));
    var rest: seq<Action>;
    if next < |s.shared.threads| {
      rest, u := LookingEnds(t, c, next + 1);
    } else {
      rest, u := DecidingEnds(t, c);
    }
    Then(s, Look(c), rest, u);
    actions := [Look(c)] + rest;
  }

  /** From the start of its wait, undisturbed and over stopped writers, a close runs to its end. */
  lemma WaitingEnds(s: System, c: Actor) returns (actions: seq<Action>, u: System)
    requires c in s.closers && s.closers[c] == Waiting && Drained(s.shared)
    ensures LeadsThrough(s, actions, u) && IsReleased(s, u)
  {
    var t := Step(s, StopWaiting(c, false));
    var v := Step(t, JoinWarmup(c, true));
    var w := Step(v, JoinThreads(c));
    var rest;
    rest, u := LookingEnds(w, c, 0);
    Then(v, JoinThreads(c), rest, u);
    Then(t, JoinWarmup(c, true), [JoinThreads(c)] + rest, u);
    Then(s, StopWaiting(c, false), [JoinWarmup(c, true)] + ([JoinThreads(c)] + rest), u);
    actions := [StopWaiting(c, false)] + ([JoinWarmup(c, true)] + ([JoinThreads(c)] + rest));
  }

  /** Whatever is under way can come to its end: the construction leaves, the index threads stop. */
  lemma BuilderLeaves(s: System) returns (actions: seq<Action>, u: System)
    requires Invariant(s) && s.shared.state != Running
    ensures LeadsThrough(s, actions, u) && Invariant(u) && u.shared.initializers == 0
    ensures u.closers == s.closers && u.warm == s.warm && u.shared.state == s.shared.state && |u.shared.threads| == |s.shared.threads|
  {
    actions, u := [], s;
    if s.shared.initializers > 0 {
      var phase := s.builder.value.1;
      var t := if phase == Constructing then Step(s, Construct(false)) else if phase == Built then Step(s, Publish) else s;
      if phase == Constructing {
        StepKeepsInvariant(s, Construct(false));
      } else if phase == Built {
        StepKeepsInvariant(s, Publish);
      }
      u := Step(t, Leave);
      StepKeepsInvariant(t, Leave);
      Then(t, Leave, [], u);
      actions := [Leave] + [];
      if phase == Constructing {
        Then(s, Construct(false), actions, u);
        actions := [Construct(false)] + actions;
      } else if phase == Built {
        Then(s, Publish, actions, u);
        actions := [Publish] + actions;
      }
    }
  }

  lemma {:induction false} ThreadsStop(s: System, n: nat) returns (actions: seq<Action>, u: System)
    requires Invariant(s) && n <= |s.shared.threads| && s.shared.state != Running
    ensures LeadsThrough(s, actions, u) && Invariant(u) && |u.shared.threads| == |s.shared.threads|
    ensures forall i :: 0 <= i < n ==> !u.shared.threads[i]
    ensures u.closers == s.closers && u.warm == s.warm && u.shared == s.shared.(threads := u.shared.threads)
  {
    if n == 0 {
      actions, u := [], s;
    } else {
      var before, t := ThreadsStop(s, n - 1);
      u := Step(t, ThreadStops(n - 1));
      StepKeepsInvariant(t, ThreadStops(n - 1));
      Then(t, ThreadStops(n - 1), [], u);
      Joined(s, before, t, [ThreadStops(n - 1)] + [], u);
      actions := before + ([ThreadStops(n - 1)] + []);
    }
  }

  /** From the start of its wait, in any reachable situation, a close can still run to its end. */
  lemma CloseCanFinish(s: System, c: Actor) returns (actions: seq<Action>, u: System)
    requires Invariant(s) && c in s.closers && s.closers[c] == Waiting
    ensures LeadsThrough(s, actions, u) && IsReleased(s, u)
  {
    assert SeenStillHolds(s.shared, s.closers[c]);
    var first, t := BuilderLeaves(s);
    var second, v := ThreadsStop(t, |t.shared.threads|);
    var third;
    third, u := WaitingEnds(v, c);
    Joined(t, second, v, third, u);
    Joined(s, first, t, second + third, u);
    actions := first + (second + third);
  }

  /**
   Retained ownership is not lost: once the initializer has left and the
   threads have stopped, another call of close by itself releases the lease.
   */
  lemma LaterCloseReleases(s: System, c: Actor) returns (actions: seq<Action>, u: System)
    requires Invariant(s) && s.shared.state != Closed && Drained(s.shared) && c !in s.closers
    ensures LeadsThrough(s, [StartClose(c)] + actions, u) && IsReleased(s, u)
  {
    var t := Step(s, StartClose(c));
    actions, u := WaitingEnds(t, c);
    Then(s, StartClose(c), actions, u);
  }

  // ---- warm-up threads ----------------------------------------------------

  predicate WarmsUp(w: Warmth) {
    exists i :: 0 <= i < |w.threads| && w.threads[i]
  }

  /** No warm-up thread is alive and none can come any more. */
  predicate IsCold(w: Warmth) {
    w.admitted == 0 && w.creating == 0 && !WarmsUp(w)
  }

  lemma StaysCold(s: System, a: Action)
    requires s.shared.state != Running && IsCold(s.warm) && Enabled(s, a)
    ensures Step(s, a).shared.state != Running && IsCold(Step(s, a).warm)
  {
  }

  lemma {:induction false} StaysColdOverRun(s: System, actions: seq<Action>)
    requires s.shared.state != Running && IsCold(s.warm) && IsRun(s, actions)
    ensures IsCold(After(s, actions).warm)
    decreases |actions|
  {
    if actions != [] {
      StaysCold(s, actions[0]);
      StaysColdOverRun(Step(s, actions[0]), actions[1..]);
    }
  }

  /** What is admitted or about to start can become a thread at any time, closed or not. */
  lemma NotColdWarmsUp(s: System) returns (actions: seq<Action>, u: System)
    requires !IsCold(s.warm)
    ensures LeadsThrough(s, actions, u) && WarmsUp(u.warm) && u.shared == s.shared
  {
    if WarmsUp(s.warm) {
      actions, u := [], s;
    } else {
      var t := if s.warm.creating > 0 then s else Step(s, LookForWarmup);
      u := Step(t, CreateWarmup);
      assert u.warm.threads[|t.warm.threads|];
      Then(t, CreateWarmup, [], u);
      actions := [CreateWarmup] + [];
      if s.warm.creating == 0 {
        Then(s, LookForWarmup, actions, u);
        actions := [LookForWarmup] + actions;
      }
    }
  }

  ghost predicate NeverWarmsUp(s: System) {
    forall actions :: IsRun(s, actions) ==> !WarmsUp(After(s, actions).warm)
  }

  /** Once closed, no warm-up thread is ever alive again if and only if nothing was under way at that moment. */
  lemma ClosedStaysColdExactly(s: System)
    requires s.shared.state == Closed
    ensures NeverWarmsUp(s) <==> IsCold(s.warm)
  {
    if IsCold(s.warm) {
      forall actions | IsRun(s, actions) ensures !WarmsUp(After(s, actions).warm) {
        StaysColdOverRun(s, actions);
      }
    } else {
      var actions, u := NotColdWarmsUp(s);
      assert IsRun(s, actions) && WarmsUp(After(s, actions).warm);
    }
  }

  /** Every way the service may come to be closed from here leaves it without a warm-up thread. */
  ghost predicate ClosesCold(s: System) {
    forall actions :: IsRun(s, actions) && After(s, actions).shared.state == Closed ==> !WarmsUp(After(s, actions).warm)
  }

  /**
   At the start of a close: it is certain to leave no warm-up thread behind if
   and only if none is alive, admitted or about to start.  The bounded wait for
   the tracked thread does not change that, because it may run out.
   */
  lemma CloseLeavesColdExactly(s: System, c: Actor)
    requires Invariant(s) && Enabled(s, StartClose(c))
    ensures ClosesCold(Step(s, StartClose(c))) <==> IsCold(s.warm)
  {
    var t := Step(s, StartClose(c));
    StepKeepsInvariant(s, StartClose(c));
    if IsCold(s.warm) {
      forall actions | IsRun(t, actions) && After(t, actions).shared.state == Closed ensures !WarmsUp(After(t, actions).warm) {
        StaysColdOverRun(t, actions);
      }
    } else {
      var first, v := CloseCanFinish(t, c);
      assert WarmsUp(v.warm) <==> WarmsUp(s.warm);
      var second, u := NotColdWarmsUp(v);
      Joined(t, first, v, second, u);
      assert IsRun(t, first + second) && After(t, first + second).shared.state == Closed && WarmsUp(After(t, first + second).warm);
    }
  }

  // ---- when the wait is not cut short -------------------------------------

  predicate IsPatient(actions: seq<Action>) {
    forall i :: 0 <= i < |actions| ==> !(actions[i].JoinWarmup? && actions[i].expired)
  }

  /** Only the tracked thread may be alive, and whoever is past the wait has seen it end. */
  predicate Reaps(s: System) {
    && s.shared.state != Running && s.warm.admitted == 0 && s.warm.creating == 0
    && (forall i :: 0 <= i < |s.warm.threads| && s.warm.threads[i] ==> s.warm.tracked == Some(i))
    && (forall c :: c in s.closers && !s.closers[c].Waiting? && !s.closers[c].Warming? ==> !WarmsUp(s.warm))
    && (s.shared.state == Closed ==> !WarmsUp(s.warm))
  }

  lemma StepReaps(s: System, a: Action)
    requires Reaps(s) && Enabled(s, a) && !(a.JoinWarmup? && a.expired)
    ensures Reaps(Step(s, a))
  {
    assert WarmsUp(Step(s, a).warm) ==> WarmsUp(s.warm);
    assert WarmsUp(s.warm) ==> TracksLive(s.warm);
  }

  /**
   When the wait is never cut short, a close that starts with no call under way
   and no thread beyond the tracked one leaves no warm-up thread behind.
   */
  lemma {:induction false} PatientCloseReaps(s: System, actions: seq<Action>)
    requires Reaps(s) && IsRun(s, actions) && IsPatient(actions)
    ensures After(s, actions).shared.state == Closed ==> !WarmsUp(After(s, actions).warm)
    decreases |actions|
  {
    if actions != [] {
      StepReaps(s, actions[0]);
      assert forall i :: 0 <= i < |actions| - 1 ==> actions[1..][i] == actions[i + 1];
      PatientCloseReaps(Step(s, actions[0]), actions[1..]);
    }
  }

  // ---- two runs -----------------------------------------------------------

  const STARTED := [AdmitWarmup] + ([LookForWarmup] + ([CreateWarmup] + []))

  /** A warm-up that loads longer than the grace survives a clean close, and no further close looks after it. */
  lemma SlowWarmupSurvivesClose(s: System, c: Actor) returns (actions: seq<Action>, u: System)
    requires Initial(s) && AllStopped(s.shared)
    ensures LeadsThrough(s, STARTED + ([StartClose(c)] + actions), u)
    ensures u.shared.state == Closed && WarmsUp(u.warm) && !Enabled(u, StartClose(c))
  {
    var t := Step(s, AdmitWarmup);
    var v := Step(t, LookForWarmup);
    var w := Step(v, CreateWarmup);
    StepKeepsInvariant(s, AdmitWarmup);
    StepKeepsInvariant(t, LookForWarmup);
    StepKeepsInvariant(v, CreateWarmup);
    Then(v, CreateWarmup, [], w);
    Then(t, LookForWarmup, [CreateWarmup] + [], w);
    Then(s, AdmitWarmup, [LookForWarmup] + ([CreateWarmup] + []), w);
    actions, u := LaterCloseReleases(w, c);
    Joined(s, STARTED, w, [StartClose(c)] + actions, u);
    assert w.warm.threads[0];
  }

  /** A warm-up call that passed its state check starts its thread after a whole shutdown. */
  lemma WarmupStartsAfterClose(s: System, c: Actor) returns (actions: seq<Action>, u: System)
    requires Initial(s) && AllStopped(s.shared)
    ensures LeadsThrough(s, [AdmitWarmup] + (([StartClose(c)] + actions) + ([LookForWarmup] + ([CreateWarmup] + []))), u)
    ensures u.shared.state == Closed && WarmsUp(u.warm)
  {
    var t := Step(s, AdmitWarmup);
    StepKeepsInvariant(s, AdmitWarmup);
    var v;
    actions, v := LaterCloseReleases(t, c);
    var w := Step(v, LookForWarmup);
    assert !TracksLive(v.warm);
    u := Step(w, CreateWarmup);
    Then(w, CreateWarmup, [], u);
    Then(v, LookForWarmup, [CreateWarmup] + [], u);
    Joined(t, [StartClose(c)] + actions, v, [LookForWarmup] + ([CreateWarmup] + []), u);
    Then(s, AdmitWarmup, ([StartClose(c)] + actions) + ([LookForWarmup] + ([CreateWarmup] + [])), u);
    assert u.warm.threads[|w.warm.threads|];
  }
}
