/**
 Whose turn it is and for how long: over any run, urgent work goes before
 digests, a grant ends when its time is over, and a batch is given up on only
 after it was handed out often enough.
 */
module AwarenessAttention {
  import opened Wrappers
  import opened SweepPacking
  import opened Journal
  import opened Awareness
  import opened AwarenessRuns

  // ---- urgency ------------------------------------------------------------

  predicate IsUrgent(id: BatchId) {
    id.decision == NextTurn || id.decision == BackgroundPrompt
  }

  /** Only work is stored, prompts at the highest priority and digests behind them. */
  ghost predicate Prioritized(c: Consumer) {
    forall id :: id in c.batches ==>
      (IsUrgent(id) || id.decision == BackgroundDigest) && c.batches[id].priority == (if IsUrgent(id) then 0 else 1)
  }

  lemma PackedIsPrioritized(c: Consumer, packed: seq<Batch>, rows: seq<Event>, q: Limits, i: nat)
    requires ArePacked(packed, q) && AreFlushable(packed) && Attends(packed, rows, q) && i < |packed|
    ensures
      var id := IdOf(packed[i]);
      && (IsUrgent(id) || id.decision == BackgroundDigest)
      && FreshWork(c, packed[i]).priority == (if IsUrgent(id) then 0 else 1)
  {
    var e := EventsOf(packed[i])[0];
    assert e in EventsOf(packed[i]) && IsDeserved(packed[i], q);
    assert Deserves(e, packed[i][0].key.decision, q.purpose);
  }

  lemma SweepKeepsPriorities(s: System, a: Action)
    requires Prioritized(s.consumer) && Enabled(s, a) && a.Sweep?
    ensures Prioritized(Step(s, a).consumer)
  {
    var u := Step(s, a).consumer;
    PackedAttends(a.packed, a.rows, a.q);
    forall id | id in u.batches
      ensures (IsUrgent(id) || id.decision == BackgroundDigest) && u.batches[id].priority == if IsUrgent(id) then 0 else 1
    {
      SweptRow(s, a, id);
      if id !in s.consumer.batches {
        var i :| 0 <= i < |a.packed| && id == IdOf(a.packed[i]) && u.batches[id] == FreshWork(s.consumer, a.packed[i]);
        PackedIsPrioritized(s.consumer, a.packed, a.rows, a.q, i);
      }
    }
  }

  lemma OtherStepKeepsPriorities(s: System, a: Action)
    requires Prioritized(s.consumer) && Enabled(s, a) && !a.Sweep?
    ensures Prioritized(Step(s, a).consumer)
  {
    var c, u := s.consumer, Step(s, a).consumer;
    if IsRowStep(a) {
      RowStepSettles(s, a);
      forall id | id in u.batches
        ensures (IsUrgent(id) || id.decision == BackgroundDigest) && u.batches[id].priority == if IsUrgent(id) then 0 else 1
      {
        assert Settles(c, c.batches[id], u.batches[id]);
      }
    } else {
      AdministrationKeepsPriorities(s, a);
    }
  }

  lemma AdministrationKeepsPriorities(s: System, a: Action)
    requires Prioritized(s.consumer) && Enabled(s, a) && (a.Finish? || a.Reset? || a.Replay?)
    ensures Prioritized(Step(s, a).consumer)
  {
  }

  lemma {:induction false} PrioritiesOverRun(s: System, actions: seq<Action>)
    requires Prioritized(s.consumer) && IsRun(s, actions)
    ensures Prioritized(After(s, actions).consumer)
    decreases |actions|
  {
    if actions != [] {
      if actions[0].Sweep? {
        SweepKeepsPriorities(s, actions[0]);
      } else {
        OtherStepKeepsPriorities(s, actions[0]);
      }
      PrioritiesOverRun(Step(s, actions[0]), actions[1..]);
    }
  }

  /**
   In every reachable state: a digest is granted only while no prompt of a
   source whose turn it is may run.
   */
  lemma PromptsGoFirst(s: System, actions: seq<Action>, a: Action, x: BatchId)
    requires Initial(s) && IsRun(s, actions) && Enabled(After(s, actions), a) && a.Claim?
    requires MayRun(After(s, actions).consumer, x) && IsUrgent(x)
    requires Some(x.source) != After(s, actions).consumer.lastSource || Some(a.choice.source) == After(s, actions).consumer.lastSource
    ensures IsUrgent(a.choice)
  {
    PrioritiesOverRun(s, actions);
    ChoiceGoesFirst(After(s, actions).consumer, a.choice);
  }

  // ---- the time of a grant ------------------------------------------------

  /** When each grant ends, by its batch and fence. */
  type Ends = map<(BatchId, nat), Instant>

  ghost function Noted(s: System, a: Action, h: Ends): Ends
    requires Enabled(s, a)
  {
    if a.Claim? then h[(a.choice, |GrantsOf(s.granted, a.choice)| + 1) := s.consumer.now + a.ttl] else h
  }

  ghost function NotedOver(s: System, actions: seq<Action>, h: Ends): Ends
    requires IsRun(s, actions)
    decreases |actions|
  {
    if actions == [] then h else NotedOver(Step(s, actions[0]), actions[1..], Noted(s, actions[0], h))
  }

  /** The grants of one batch, in order. */
  function GrantsOf(granted: seq<Lease>, id: BatchId): seq<Lease> {
    if granted == [] then []
    else
      var before := GrantsOf(granted[..|granted| - 1], id);
      if granted[|granted| - 1].batch == id then before + [granted[|granted| - 1]] else before
  }

  lemma OneMoreGrant(granted: seq<Lease>, l: Lease, id: BatchId)
    ensures GrantsOf(granted + [l], id) == GrantsOf(granted, id) + if l.batch == id then [l] else []
  {
    assert (granted + [l])[..|granted|] == granted;
  }

  /** A batch's fence and attempts count its grants, and a running grant ends when it was said to. */
  ghost predicate GrantsAgree(s: System, h: Ends) {
    && (forall id :: id in s.consumer.batches ==> GrantAgrees(s, h, id, s.consumer.batches[id]))
    && (forall id: BatchId :: id !in s.consumer.batches ==> GrantsOf(s.granted, id) == [])
  }

  ghost predicate GrantAgrees(s: System, h: Ends, id: BatchId, w: Work) {
    && w.fence == w.attempts == |GrantsOf(s.granted, id)|
    && (w.state == Leased ==> w.until.Some? && (id, w.fence) in h && h[(id, w.fence)] == w.until.value)
  }

  /** What a grant does to the rows. */
  ghost predicate OneGranted(c: Consumer, u: Consumer, id: BatchId, end: Instant) {
    && u.batches.Keys == c.batches.Keys && id in c.batches
    && u.batches[id].fence == c.batches[id].fence + 1 && u.batches[id].attempts == c.batches[id].attempts + 1
    && u.batches[id].until == Some(end)
    && forall x :: x in c.batches && x != id ==>
         && u.batches[x].fence == c.batches[x].fence && u.batches[x].attempts == c.batches[x].attempts
         && (u.batches[x].state == Leased ==> c.batches[x].state == Leased && u.batches[x].until == c.batches[x].until)
  }

  lemma ClaimGrantsOne(c: Consumer, id: BatchId, owner: Owner, ttl: nat)
    requires id in Normalized(c).batches
    ensures OneGranted(c, Claimed(Normalized(c), id, owner, ttl), id, c.now + ttl)
  {
    RecoveryOnlyEnds(c);
  }

  lemma ClaimKeepsGrants(s: System, a: Action, h: Ends)
    requires GrantsAgree(s, h) && Enabled(s, a) && a.Claim?
    ensures GrantsAgree(Step(s, a), Noted(s, a, h))
  {
    var u := Step(s, a);
    var l := Lease(a.choice, a.owner, Normalized(s.consumer).batches[a.choice].fence + 1);
    ClaimIs(s, a);
    ClaimGrantsOne(s.consumer, a.choice, a.owner, a.ttl);
    OneGrantAgrees(s, u, a.choice, l, h, Noted(s, a, h), s.consumer.now + a.ttl);
  }

  lemma OneGrantAgrees(s: System, u: System, id: BatchId, l: Lease, h: Ends, g: Ends, end: Instant)
    requires GrantsAgree(s, h) && OneGranted(s.consumer, u.consumer, id, end)
    requires u.granted == s.granted + [l] && l.batch == id && g == h[(id, |GrantsOf(s.granted, id)| + 1) := end]
    ensures GrantsAgree(u, g)
  {
    forall x: BatchId
      ensures if x in u.consumer.batches then GrantAgrees(u, g, x, u.consumer.batches[x]) else GrantsOf(u.granted, x) == []
    {
      OneMoreGrant(s.granted, l, x);
      if x in s.consumer.batches {
        assert GrantAgrees(s, h, x, s.consumer.batches[x]);
      }
    }
  }

  lemma SweepKeepsGrants(s: System, a: Action, h: Ends)
    requires GrantsAgree(s, h) && Enabled(s, a) && a.Sweep?
    ensures GrantsAgree(Step(s, a), Noted(s, a, h))
  {
    var u := Step(s, a);
    forall id: BatchId
      ensures if id in u.consumer.batches then GrantAgrees(u, h, id, u.consumer.batches[id]) else GrantsOf(u.granted, id) == []
    {
      if id in s.consumer.batches || id in u.consumer.batches {
        SweptRow(s, a, id);
        if id in s.consumer.batches {
          assert GrantAgrees(s, h, id, s.consumer.batches[id]);
        }
      }
    }
  }

  /** No grant, and no row gains one. */
  ghost predicate OnlyEnds(c: Consumer, u: Consumer) {
    && u.batches.Keys == c.batches.Keys
    && forall id :: id in c.batches ==>
         && u.batches[id].fence == c.batches[id].fence && u.batches[id].attempts == c.batches[id].attempts
         && (u.batches[id].state == Leased ==> c.batches[id].state == Leased && u.batches[id].until == c.batches[id].until)
  }

  lemma RecoveryOnlyEnds(c: Consumer)
    ensures OnlyEnds(c, Normalized(c))
  {
  }

  lemma PostponementOnlyEnds(c: Consumer, l: Lease, retryIn: nat)
    requires ValidLease(c, l)
    ensures OnlyEnds(c, Deferred(c, l, retryIn))
  {
  }

  lemma CompactionOnlyEnds(c: Consumer, through: nat, force: bool)
    ensures OnlyEnds(c, Compacted(c, through, force))
  {
  }

  lemma OtherRowStepOnlyEnds(s: System, a: Action)
    requires Enabled(s, a) && IsRowStep(a) && !a.Claim?
    ensures OnlyEnds(s.consumer, Step(s, a).consumer) && Step(s, a).granted == s.granted
  {
    match a
    case Append(_, _) =>
    case SwitchJournal(_, _) =>
    case ClaimNothing => RecoveryOnlyEnds(s.consumer);
    case Postpone(l, retryIn) => PostponementOnlyEnds(s.consumer, l, retryIn);
    case Compact(through, force) => CompactionOnlyEnds(s.consumer, through, force);
    case Configure(_, _, _, _) =>
    case Tick(_) =>
  }

  lemma OtherStepOnlyEnds(s: System, a: Action)
    requires Enabled(s, a) && !IsRowStep(a) && !a.Sweep?
    ensures OnlyEnds(s.consumer, Step(s, a).consumer) && Step(s, a).granted == s.granted
  {
  }

  lemma OtherStepKeepsGrants(s: System, a: Action, h: Ends)
    requires GrantsAgree(s, h) && Enabled(s, a) && !a.Claim? && !a.Sweep?
    ensures GrantsAgree(Step(s, a), Noted(s, a, h))
  {
    if IsRowStep(a) {
      OtherRowStepOnlyEnds(s, a);
    } else {
      OtherStepOnlyEnds(s, a);
    }
    var u := Step(s, a);
    forall id | id in u.consumer.batches ensures GrantAgrees(u, h, id, u.consumer.batches[id]) {
      assert GrantAgrees(s, h, id, s.consumer.batches[id]);
    }
  }

  lemma {:induction false} GrantsOverRun(s: System, actions: seq<Action>, h: Ends)
    requires GrantsAgree(s, h) && IsRun(s, actions)
    ensures GrantsAgree(After(s, actions), NotedOver(s, actions, h))
    decreases |actions|
  {
    if actions != [] {
      var a := actions[0];
      if a.Claim? {
        ClaimKeepsGrants(s, a, h);
      } else if a.Sweep? {
        SweepKeepsGrants(s, a, h);
      } else {
        OtherStepKeepsGrants(s, a, h);
      }
      GrantsOverRun(Step(s, a), actions[1..], Noted(s, a, h));
    }
  }

  /**
   Over any run: what is completed or deferred is so strictly before the time
   the grant was given for is over, and that time is the batch's last grant's.
   */
  lemma AcceptedInTime(s: System, actions: seq<Action>, l: Lease)
    requires Initial(s) && IsRun(s, actions) && ValidLease(After(s, actions).consumer, l)
    ensures
      var u, h := After(s, actions), NotedOver(s, actions, map[]);
      && l.fence == |GrantsOf(u.granted, l.batch)| && (l.batch, l.fence) in h && u.consumer.now < h[(l.batch, l.fence)]
  {
    GrantsOverRun(s, actions, map[]);
    var u := After(s, actions);
    assert GrantAgrees(u, NotedOver(s, actions, map[]), l.batch, u.consumer.batches[l.batch]);
  }

  /** Once that time is over, the batch may run again under the next grant, unless its source is held. */
  lemma ExpiredMayRun(s: System, actions: seq<Action>, id: BatchId)
    requires Initial(s) && IsRun(s, actions) && id in After(s, actions).consumer.batches
    requires
      var u, h := After(s, actions), NotedOver(s, actions, map[]);
      && u.consumer.batches[id].state == Leased && u.consumer.batches[id].epoch == u.consumer.epoch
      && ((id, |GrantsOf(u.granted, id)|) in h ==> h[(id, |GrantsOf(u.granted, id)|)] <= u.consumer.now)
    ensures MayRun(After(s, actions).consumer, id) <==>
              !(After(s, actions).consumer.hold && id.source in After(s, actions).consumer.stalled)
  {
    GrantsOverRun(s, actions, map[]);
    var u := After(s, actions);
    assert GrantAgrees(u, NotedOver(s, actions, map[]), id, u.consumer.batches[id]);
  }

  /** A deferral gives up on a batch exactly when it was granted as often as the consumer allows. */
  lemma GivenUpAfterAttempts(s: System, actions: seq<Action>, a: Action)
    requires Initial(s) && IsRun(s, actions) && Enabled(After(s, actions), a) && a.Postpone?
    ensures
      var u := After(s, actions);
      var w := Step(u, a).consumer.batches[a.lease.batch];
      if u.consumer.maxAttempts <= |GrantsOf(u.granted, a.lease.batch)| then w.state == Quarantined
      else w.state == RetryWait && w.eligibleAt == Some(u.consumer.now + a.retryIn)
  {
    GrantsOverRun(s, actions, map[]);
    var u := After(s, actions);
    assert GrantAgrees(u, NotedOver(s, actions, map[]), a.lease.batch, u.consumer.batches[a.lease.batch]);
  }
}
