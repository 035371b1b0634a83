/**
 Who may write the index: lazy construction of the engine, index threads, and
 a shutdown that hands the indexing lease over only when both have stopped.
 */
module Ownership {
  import opened Wrappers

  datatype Lifecycle = Running | Closing | Closed

  /** `threads` are the index threads ever started, true while alive; `indexing` is fixed at start-up. */
  datatype Shared = Shared(
    state: Lifecycle, initializers: nat, published: bool, failed: bool,
    threads: seq<bool>, lease: bool, indexing: bool)

  predicate AllStopped(s: Shared) {
    forall i :: 0 <= i < |s.threads| ==> !s.threads[i]
  }

  predicate Drained(s: Shared) {
    s.initializers == 0 && AllStopped(s)
  }

  /** What shutdown promises once the lease is given up, or the service reports closed. */
  predicate HandsOver(s: Shared) {
    && (s.indexing && !s.lease ==> s.state != Running && Drained(s))
    && (s.state == Closed ==> Drained(s) && (s.indexing ==> !s.lease))
    && (!s.indexing ==> s.threads == [])
  }

  /**
   What any step of another thread leaves true for a thread in the middle of
   its own: closing is for good, and from then on nothing starts.
   */
  predicate Rely(s: Shared, t: Shared) {
    && HandsOver(t) && t.indexing == s.indexing
    && (s.state != Running ==>
          && t.state != Running && t.initializers <= s.initializers && (t.published ==> s.published)
          && |t.threads| == |s.threads|
          && forall i :: 0 <= i < |s.threads| ==> !s.threads[i] ==> !t.threads[i])
    && (s.state == Closed ==> t.state == Closed)
    && (!s.lease ==> !t.lease)
  }

  lemma RelyComposes(s: Shared, t: Shared, u: Shared)
    requires Rely(s, t) && Rely(t, u)
    ensures Rely(s, u)
  {
  }

  datatype Outcome = AlreadyClosed | Clean | Retained | Incomplete

  class Hybrid {
    var state: Lifecycle
    var initializers: nat
    var published: bool
    var failed: bool
    var threads: seq<bool>
    var lease: bool
    const indexing: bool
    /** The tracked warm-up thread: none, or whether it is alive. */
    var warmup: Option<bool>

    ghost function State(): Shared
      reads this
    {
      Shared(state, initializers, published, failed, threads, lease, indexing)
    }

    constructor (s: Shared)
      ensures State() == s
    {
      state, initializers, published, failed := s.state, s.initializers, s.published, s.failed;
      threads, lease, indexing, warmup := s.threads, s.lease, s.indexing, None;
    }

    method Snapshot() returns (s: Shared)
      ensures s == State()
    {
      s := Shared(state, initializers, published, failed, threads, lease, indexing);
    }

    /** Any number of steps of other threads; `mine` initializers belong to the caller. */
    method OthersRun(mine: nat)
      requires HandsOver(State()) && mine <= initializers
      modifies this
      ensures Rely(old(State()), State()) && mine <= initializers
    {
      var before := Snapshot();
      assert Rely(before, before);
      var s: Shared :| Rely(before, s) && mine <= s.initializers;
      assert Rely(before, s);
      assert s.indexing == before.indexing;
      state, initializers, published, failed, threads, lease :=
        s.state, s.initializers, s.published, s.failed, s.threads, s.lease;
      warmup := *;
      assert State() == s;
    }

    /**
     Wait for initializers within the budget, for the warm-up thread within its
     grace, then for each index thread in turn, and release the lease only if
     neither an initializer nor an index thread is left.  What the wait for the
     initializers ended with and what the `look` at the threads found decide:
     the lease is kept, or the close left incomplete, exactly when something was
     still pending then.
     */
    method Close(budget: nat, grace: nat) returns (outcome: Outcome, ghost waited: Shared, ghost look: Shared)
      requires HandsOver(State())
      modifies this
      ensures Rely(old(State()), State()) && (outcome.AlreadyClosed? || state != Running)
      ensures outcome.Clean? || outcome.AlreadyClosed? ==> state == Closed && Drained(State()) && (indexing ==> !lease)
      ensures outcome.AlreadyClosed? <==> old(state) == Closed
      ensures Rely(old(State()), waited) && Rely(waited, look) && Rely(look, State())
      ensures !outcome.AlreadyClosed? ==> (outcome.Clean? <==> waited.initializers == 0 && AllStopped(look))
      ensures !outcome.AlreadyClosed? && !outcome.Clean? ==> (outcome.Retained? <==> look.lease)
      ensures outcome.Retained? ==> State() == look
      ensures outcome.Incomplete? ==> !lease
    {
      waited, look := State(), State();
      if state == Closed {
        return AlreadyClosed, waited, look;
      }
      state := Closing;
      var initializersPending := AwaitInitializers(budget);
      waited := State();
      AwaitWarmup(grace);
      JoinThreads();
      var writersPending := AnyAlive();
      look := State();
      outcome := GiveUpLease(initializersPending || writersPending);
    }

    /** The lease goes, and the service is closed, when nothing is pending; a lease is kept otherwise. */
    method GiveUpLease(pending: bool) returns (outcome: Outcome)
      requires HandsOver(State()) && state != Running && (!pending ==> Drained(State()))
      modifies this
      ensures Rely(old(State()), State()) && state != Running
      ensures outcome.Clean? <==> !pending
      ensures outcome.Clean? ==> state == Closed && Drained(State()) && (indexing ==> !lease)
      ensures outcome.Retained? <==> pending && old(lease)
      ensures outcome.Retained? ==> State() == old(State())
      ensures outcome.Clean? || outcome.Retained? || (outcome.Incomplete? && !lease)
    {
      if lease {
        if pending {
          return Retained;
        }
        lease := false;
      }
      OthersRun(0);
      if warmup == Some(false) {
        warmup := None;
      }
      if !pending {
        state := Closed;
        return Clean;
      }
      return Incomplete;
    }

    /**
     The state check and the start are separate steps.  The caller is given a
     tracked thread exactly when the service was running at the check; one is
     started for it unless a live one was `found`, which is returned as it is.
     */
    method StartWarmup() returns (tracked: bool, ghost found: Option<bool>, ghost started: bool)
      requires HandsOver(State())
      modifies this
      ensures Rely(old(State()), State())
      ensures tracked <==> old(state) == Running
      ensures started <==> tracked && found != Some(true)
      ensures tracked ==> warmup == Some(true)
      ensures !tracked ==> State() == old(State()) && warmup == old(warmup)
    {
      found, started := warmup, false;
      if state != Running {
        return false, found, started;
      }
      OthersRun(0);
      found := warmup;
      if warmup != Some(true) {
        OthersRun(0);
        warmup, started := Some(true), true;
      }
      return true, found, started;
    }

    method AwaitInitializers(budget: nat) returns (pending: bool)
      requires HandsOver(State()) && state != Running
      modifies this
      ensures Rely(old(State()), State()) && state != Running
      ensures pending <==> initializers > 0
    {
      var left := budget;
      while initializers > 0 && left > 0
        invariant Rely(old(State()), State()) && state != Running
      {
        OthersRun(0);
        left := left - 1;
      }
      pending := initializers > 0;
    }

    /** A bounded grace: a thread still loading afterwards stays tracked. */
    method AwaitWarmup(grace: nat)
      requires HandsOver(State()) && state != Running
      modifies this
      ensures Rely(old(State()), State()) && state != Running
    {
      var left := grace;
      while warmup == Some(true) && left > 0
        invariant Rely(old(State()), State()) && state != Running
      {
        OthersRun(0);
        left := left - 1;
      }
    }

    /** Each join ends with its thread or with the budget. */
    method JoinThreads()
      requires HandsOver(State()) && state != Running
      modifies this
      ensures Rely(old(State()), State()) && state != Running
    {
      var n := |threads|;
      for i := 0 to n
        invariant Rely(old(State()), State()) && state != Running
      {
        OthersRun(0);
      }
    }

    /** Looks at the threads one after the other while the rest of the process goes on. */
    method AnyAlive() returns (alive: bool)
      requires HandsOver(State()) && state != Running
      modifies this
      ensures Rely(old(State()), State()) && state != Running
      ensures alive <==> !AllStopped(State())
    {
      alive := false;
      var n := |threads|;
      for i := 0 to n
        invariant Rely(old(State()), State()) && state != Running && |threads| == n
        invariant forall j :: 0 <= j < i ==> !threads[j]
      {
        if threads[i] {
          return true;
        }
        OthersRun(0);
      }
    }

    /**
     Build the engine once, outside the lifecycle lock, and publish it only
     while still running: `landing` is what the finished load finds.  A load
     that lands during shutdown changes nothing but its own registration.
     */
    method EnsureSemantic() returns (available: bool, ghost landing: Option<Shared>)
      requires HandsOver(State())
      modifies this
      ensures Rely(old(State()), State())
      ensures landing.Some? <==> !old(published) && !old(failed) && old(state) == Running
      ensures landing.None? ==> State() == old(State()) && available == old(published)
      ensures landing.Some? ==> Rely(Registered(old(State())), landing.value)
      ensures landing.Some? ==> landing.value.initializers > 0 && Landed(landing.value, available, State())
      ensures landing.Some? && available ==> landing.value.state == Running && published
      ensures landing.Some? && !available ==> published == landing.value.published && threads == landing.value.threads
    {
      landing := None;
      if published || failed {
        return published, landing;
      }
      if state != Running {
        return false, landing;
      }
      initializers := initializers + 1;
      OthersRun(1);  // the model load
      landing := Some(State());
      var built: bool := *;
      if !built {
        failed := true;
        available := false;
      } else if state != Running {
        available := false;
      } else {
        published := true;
        if indexing {
          threads := threads + [true];
        }
        available := true;
      }
      initializers := initializers - 1;
    }
  }

  function Registered(s: Shared): Shared {
    s.(initializers := s.initializers + 1)
  }

  /** A load is published, with its index thread, only into a running service; otherwise it leaves no trace. */
  predicate Landed(b: Shared, available: bool, t: Shared)
    requires b.initializers > 0
  {
    var left := b.(initializers := b.initializers - 1);
    if available then
      b.state == Running && t == left.(published := true, threads := if b.indexing then b.threads + [true] else b.threads)
    else
      t == left || t == left.(failed := true)
  }
}
