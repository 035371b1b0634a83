/**
 Fenced commits over whole runs: any number of workers present any lease copy
 they ever had, in any order, between claims, releases, pauses, rescans,
 reconfigurations and resets.
 */
module SourceCommitRuns {
  import opened Wrappers
  import opened SourceHeads
  import opened SourceCommits

  /** What actually changed the stored data, in order. */
  datatype Entry =
    | Landed(op: OpId, epoch: nat, receipt: Receipt)
    | Rewound(keys: set<StreamKey>)

  /** `leases` holds every lease copy a worker was handed or advanced to. */
  datatype System = System(sync: Sync, leases: set<Lease>, log: seq<Entry>)

  datatype Action =
    | Claim(key: StreamKey, owner: Owner, ttl: int)
    | Release(lease: Lease)
    | Stop(to: ConnectionState)
    | SetState(to: ConnectionState)
    | Configure(scopeChanged: bool)
    | Restart(key: StreamKey)
    | StartEpoch
    | Commit(lease: Lease, op: OpId, page: Page, order: VersionOrder)
    | Tick(now: Instant)

  predicate Enabled(s: System, a: Action) {
    match a
    case Claim(_, _, _) => true
    case Release(l) => l in s.leases
    case Stop(to) => to in {Paused, Disconnected}
    case SetState(_) => true
    case Configure(_) => true
    case Restart(_) => true
    case StartEpoch => true
    case Commit(l, _, _, _) => l in s.leases
    case Tick(now) => s.sync.now <= now
  }

  function Step(s: System, a: Action): System
    requires Enabled(s, a)
  {
    var c := s.sync;
    match a
    case Claim(key, owner, ttl) =>
      var answer := ClaimAnswer(c, key, owner);
      System(Claimed(c, key, owner, ttl), if answer.Granted? then s.leases + {answer.lease} else s.leases, s.log)
    case Release(l) => s.(sync := Released(c, l))
    case Stop(to) => s.(sync := Stopped(c, to))
    case SetState(to) => s.(sync := c.(state := to))
    case Configure(changed) => System(Configured(c, changed), s.leases, if changed then s.log + [Rewound(c.streams.Keys)] else s.log)
    case Restart(key) =>
      System(Restarted(c, key), s.leases,
             if c.state != Disconnected && key in c.streams then s.log + [Rewound({key})] else s.log)
    case StartEpoch => s.(sync := WasReset(c))
    case Commit(l, op, page, order) =>
      var answer := CommitAnswer(c, l, op, page, order);
      if !answer.Committed? then s
      else System(CommittedTo(c, l, op, page, order), s.leases + {answer.lease},
                  s.log + [Landed(op, c.epoch, Receipt(l.key, page, answer.outcome))])
    case Tick(now) => s.(sync := c.(now := now))
  }

  predicate IsRun(s: System, actions: seq<Action>)
    decreases |actions|
  {
    actions == [] || (Enabled(s, actions[0]) && IsRun(Step(s, actions[0]), actions[1..]))
  }

  function After(s: System, actions: seq<Action>): System
    requires IsRun(s, actions)
    decreases |actions|
  {
    if actions == [] then s else After(Step(s, actions[0]), actions[1..])
  }

  predicate Initial(s: System) {
    s.sync.streams == map[] && s.sync.receipts == map[] && s.leases == {} && s.log == []
  }

  // ---- leases -------------------------------------------------------------

  /** A lease copy lags behind its stream, or agrees with it. */
  predicate Follows(s: Sync, l: Lease) {
    l.key in s.streams &&
    var m := s.streams[l.key];
    && l.fence <= m.fence && l.version <= m.version
    && (l.version == m.version ==> l.cursor == m.cursor)
    && (l.fence == m.fence && m.owner.Some? ==> l.owner == m.owner.value)
  }

  predicate OneOwnerPerFence(leases: set<Lease>) {
    forall x, y :: x in leases && y in leases && x.key == y.key && x.fence == y.fence ==> x.owner == y.owner
  }

  predicate LeasesAgree(s: System) {
    OneOwnerPerFence(s.leases) && forall l :: l in s.leases ==> Follows(s.sync, l)
  }

  lemma ClaimKeepsLeases(s: System, a: Action)
    requires LeasesAgree(s) && Enabled(s, a) && a.Claim?
    ensures LeasesAgree(Step(s, a))
  {
    var answer := ClaimAnswer(s.sync, a.key, a.owner);
    var u := Step(s, a);
    if answer.Granted? {
      forall x | x in s.leases && x.key == a.key ensures x.fence == answer.lease.fence ==> x.owner == a.owner {
        assert Follows(s.sync, x);
      }
      forall x | x in u.leases ensures Follows(u.sync, x) {
        if x in s.leases {
          assert Follows(s.sync, x);
        }
      }
    }
  }

  lemma CommitKeepsLeases(s: System, a: Action)
    requires LeasesAgree(s) && Enabled(s, a) && a.Commit?
    ensures LeasesAgree(Step(s, a))
  {
    var u := Step(s, a);
    forall x | x in u.leases ensures Follows(u.sync, x) {
      assert Follows(s.sync, a.lease);
      if x in s.leases {
        assert Follows(s.sync, x);
      }
    }
  }

  lemma OtherStepKeepsLeases(s: System, a: Action)
    requires LeasesAgree(s) && Enabled(s, a) && !a.Claim? && !a.Commit?
    ensures LeasesAgree(Step(s, a))
  {
    var u := Step(s, a);
    forall x | x in u.leases ensures Follows(u.sync, x) {
      assert Follows(s.sync, x);
    }
  }

  lemma {:induction false} LeasesOverRun(s: System, actions: seq<Action>)
    requires LeasesAgree(s) && IsRun(s, actions)
    ensures LeasesAgree(After(s, actions))
    decreases |actions|
  {
    if actions != [] {
      var a := actions[0];
      if a.Claim? {
        ClaimKeepsLeases(s, a);
      } else if a.Commit? {
        CommitKeepsLeases(s, a);
      } else {
        OtherStepKeepsLeases(s, a);
      }
      LeasesOverRun(Step(s, a), actions[1..]);
    }
  }

  /**
   Fencing: a lease under which a page is answered carries the highest fence
   ever handed out for its stream, every copy with that fence belongs to the
   same owner, and a page that commits was read from the stream's own cursor.
   */
  lemma CommitIsFenced(s: System, actions: seq<Action>, l: Lease, op: OpId, page: Page, order: VersionOrder)
    requires Initial(s) && IsRun(s, actions) && l in After(s, actions).leases
    ensures
      var t := After(s, actions);
      var answer := CommitAnswer(t.sync, l, op, page, order);
      answer.Committed? || answer.Replayed? ==>
        && (forall x :: x in t.leases && x.key == l.key ==> x.fence < l.fence || (x.fence == l.fence && x.owner == l.owner))
        && (answer.Committed? ==> l.cursor == t.sync.streams[l.key].cursor && l.generation == t.sync.generation && l.epoch == t.sync.epoch)
  {
    LeasesOverRun(s, actions);
    var t := After(s, actions);
    assert Follows(t.sync, l);
    forall x | x in t.leases && x.key == l.key ensures x.fence <= t.sync.streams[l.key].fence {
      assert Follows(t.sync, x);
    }
  }

  // ---- receipts -----------------------------------------------------------

  predicate Recorded(c: Sync, e: Entry) {
    e.Landed? ==> e.epoch <= c.epoch && (e.epoch == c.epoch ==> e.op in c.receipts && c.receipts[e.op] == e.receipt)
  }

  predicate SameOperation(e: Entry, f: Entry) {
    e.Landed? && f.Landed? && e.epoch == f.epoch && e.op == f.op
  }

  predicate ReceiptsAgree(s: System) {
    && (forall i :: 0 <= i < |s.log| ==> Recorded(s.sync, s.log[i]))
    && (forall i, j :: 0 <= i < j < |s.log| ==> !SameOperation(s.log[i], s.log[j]))
    && (forall op :: op in s.sync.receipts ==> Landed(op, s.sync.epoch, s.sync.receipts[op]) in s.log)
  }

  lemma StepKeepsReceipts(s: System, a: Action)
    requires ReceiptsAgree(s) && Enabled(s, a)
    ensures ReceiptsAgree(Step(s, a))
  {
    var u := Step(s, a);
    assert forall i :: 0 <= i < |s.log| ==> u.log[i] == s.log[i];
    forall i | 0 <= i < |s.log| ensures Recorded(u.sync, u.log[i]) {
      assert Recorded(s.sync, s.log[i]);
    }
    forall i, j | 0 <= i < j < |u.log| ensures !SameOperation(u.log[i], u.log[j]) {
      if j == |s.log| {
        assert Recorded(s.sync, s.log[i]);
      }
    }
    forall op | op in u.sync.receipts ensures Landed(op, u.sync.epoch, u.sync.receipts[op]) in u.log {
      if a.Commit? && op == a.op && u != s {
        assert u.log[|s.log|] == Landed(op, u.sync.epoch, u.sync.receipts[op]);
      } else {
        assert Landed(op, s.sync.epoch, s.sync.receipts[op]) in s.log;
      }
    }
  }

  lemma {:induction false} ReceiptsOverRun(s: System, actions: seq<Action>)
    requires ReceiptsAgree(s) && IsRun(s, actions)
    ensures ReceiptsAgree(After(s, actions))
    decreases |actions|
  {
    if actions != [] {
      StepKeepsReceipts(s, actions[0]);
      ReceiptsOverRun(Step(s, actions[0]), actions[1..]);
    }
  }

  /** Within one epoch no operation is applied twice, over any run. */
  lemma AppliedAtMostOnce(s: System, actions: seq<Action>)
    requires Initial(s) && IsRun(s, actions)
    ensures
      var log := After(s, actions).log;
      forall i, j :: 0 <= i < j < |log| ==> !SameOperation(log[i], log[j])
  {
    ReceiptsOverRun(s, actions);
  }

  /**
   A committed operation presented again under any current lease: the same page
   for the same stream is answered with the outcome of its one application,
   anything else is a conflict, and nothing changes either way.
   */
  lemma ReplayReturnsFirstOutcome(
    s: System, actions: seq<Action>, i: nat, l: Lease, page: Page, order: VersionOrder)
    requires Initial(s) && IsRun(s, actions) && l in After(s, actions).leases
    requires i < |After(s, actions).log| && IsCurrent(After(s, actions).sync, l)
    requires After(s, actions).log[i].Landed? && After(s, actions).log[i].epoch == After(s, actions).sync.epoch
    ensures
      var t := After(s, actions);
      var e := t.log[i];
      && CommitAnswer(t.sync, l, e.op, page, order) ==
         (if page == e.receipt.page && l.key == e.receipt.key then Replayed(e.receipt.outcome) else Conflict)
      && Step(t, Commit(l, e.op, page, order)) == t
  {
    ReceiptsOverRun(s, actions);
    var t := After(s, actions);
    assert Recorded(t.sync, t.log[i]);
  }

  // ---- versions and cursors -----------------------------------------------

  datatype Progress = Progress(version: nat, cursor: Option<Cursor>)

  /** Where a stream stands according to the log alone. */
  function ProgressOf(log: seq<Entry>, key: StreamKey): Progress {
    if log == [] then Progress(1, None)
    else
      var before := ProgressOf(log[..|log| - 1], key);
      match log[|log| - 1]
      case Landed(_, _, receipt) =>
        if receipt.key == key && receipt.page.complete then Progress(before.version + 1, Some(receipt.page.next)) else before
      case Rewound(keys) => if key in keys then Progress(before.version + 1, None) else before
  }

  ghost predicate StreamsFollow(s: System) {
    forall key :: ProgressOf(s.log, key) == Progress(StreamOf(s.sync, key).version, StreamOf(s.sync, key).cursor)
  }

  lemma StepFollows(s: System, a: Action)
    requires StreamsFollow(s) && Enabled(s, a)
    ensures StreamsFollow(Step(s, a))
  {
    var u := Step(s, a);
    assert u.log == s.log || u.log[..|u.log| - 1] == s.log;
    forall key ensures ProgressOf(u.log, key) == Progress(StreamOf(u.sync, key).version, StreamOf(u.sync, key).cursor) {
      assert ProgressOf(s.log, key) == Progress(StreamOf(s.sync, key).version, StreamOf(s.sync, key).cursor);
    }
  }

  lemma {:induction false} HistoryOverRun(s: System, actions: seq<Action>)
    requires StreamsFollow(s) && IsRun(s, actions)
    ensures StreamsFollow(After(s, actions))
    decreases |actions|
  {
    if actions != [] {
      StepFollows(s, actions[0]);
      HistoryOverRun(Step(s, actions[0]), actions[1..]);
    }
  }

  /**
   A stream's version and cursor are exactly what its complete commits and
   rescans say: each adds one to the version, and the cursor is the last
   complete page's next state, or nothing since the last rescan.
   */
  lemma StreamIsItsHistory(s: System, actions: seq<Action>, key: StreamKey)
    requires Initial(s) && IsRun(s, actions)
    ensures
      var t := After(s, actions);
      ProgressOf(t.log, key) == Progress(StreamOf(t.sync, key).version, StreamOf(t.sync, key).cursor)
  {
    HistoryOverRun(s, actions);
  }
}
