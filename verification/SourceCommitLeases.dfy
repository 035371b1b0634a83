/**
 The time and the effect of stream leases over whole runs: a lease answers only
 until its own end, nobody waits for a worker that is gone, and the archive is
 exactly what the committed pages made of it.
 */
module SourceCommitLeases {
  import opened Wrappers
  import SourceHeadRuns
  import opened SourceHeads
  import opened SourceCommits
  import opened SourceCommitRuns

  // ---- when a lease ends --------------------------------------------------

  /** When the last grant or renewal under each fence of a stream ends, by the time and the length it was given for. */
  type Ends = map<(StreamKey, nat), Instant>

  function Noted(s: System, a: Action, h: Ends): Ends
    requires Enabled(s, a)
  {
    if a.Claim? && ClaimAnswer(s.sync, a.key, a.owner).Granted?
    then h[(a.key, ClaimAnswer(s.sync, a.key, a.owner).lease.fence) := s.sync.now + a.ttl] else h
  }

  function NotedOver(s: System, actions: seq<Action>, h: Ends): Ends
    requires IsRun(s, actions)
    decreases |actions|
  {
    if actions == [] then h else NotedOver(Step(s, actions[0]), actions[1..], Noted(s, actions[0], h))
  }

  /** A leased stream has a copy of its lease out, and ends when the grant said. */
  ghost predicate IsTimed(s: System, h: Ends, key: StreamKey, m: Stream) {
    && (m.owner.Some? <==> m.until.Some?)
    && (m.owner.Some? ==>
          && (key, m.fence) in h && h[(key, m.fence)] == m.until.value
          && exists l :: l in s.leases && l.key == key && l.fence == m.fence && l.owner == m.owner.value)
  }

  ghost predicate TermsAgree(s: System, h: Ends) {
    && LeasesAgree(s)
    && (forall key :: key in s.sync.streams ==> IsTimed(s, h, key, s.sync.streams[key]))
    && (forall l :: l in s.leases ==> (l.key, l.fence) in h && l.generation <= s.sync.generation)
  }

  lemma ClaimKeepsTerms(s: System, a: Action, h: Ends)
    requires TermsAgree(s, h) && Enabled(s, a) && a.Claim?
    ensures TermsAgree(Step(s, a), Noted(s, a, h))
  {
    ClaimKeepsLeases(s, a);
    var u, g := Step(s, a), Noted(s, a, h);
    var answer := ClaimAnswer(s.sync, a.key, a.owner);
    if answer.Granted? {
      forall key | key in u.sync.streams ensures IsTimed(u, g, key, u.sync.streams[key]) {
        if key == a.key {
          assert answer.lease in u.leases;
        } else {
          TimedStays(s, u, h, g, key);
        }
      }
    }
  }

  lemma TimedStays(s: System, u: System, h: Ends, g: Ends, key: StreamKey)
    requires key in s.sync.streams && IsTimed(s, h, key, s.sync.streams[key])
    requires key in u.sync.streams && s.leases <= u.leases
    requires u.sync.streams[key].fence == s.sync.streams[key].fence
    requires u.sync.streams[key].owner == s.sync.streams[key].owner && u.sync.streams[key].until == s.sync.streams[key].until
    requires forall f :: (key, f) in h ==> (key, f) in g && g[(key, f)] == h[(key, f)]
    ensures IsTimed(u, g, key, u.sync.streams[key])
  {
    var m := s.sync.streams[key];
    if m.owner.Some? {
      var l :| l in s.leases && l.key == key && l.fence == m.fence && l.owner == m.owner.value;
      assert l in u.leases;
    }
  }

  lemma CommitKeepsTerms(s: System, a: Action, h: Ends)
    requires TermsAgree(s, h) && Enabled(s, a) && a.Commit?
    ensures TermsAgree(Step(s, a), Noted(s, a, h))
  {
    CommitKeepsLeases(s, a);
    var u := Step(s, a);
    forall key | key in u.sync.streams ensures IsTimed(u, h, key, u.sync.streams[key]) {
      TimedStays(s, u, h, h, key);
    }
  }

  lemma OtherStepKeepsTerms(s: System, a: Action, h: Ends)
    requires TermsAgree(s, h) && Enabled(s, a) && !a.Claim? && !a.Commit?
    ensures TermsAgree(Step(s, a), Noted(s, a, h))
  {
    OtherStepKeepsLeases(s, a);
    var u := Step(s, a);
    forall key | key in u.sync.streams ensures IsTimed(u, h, key, u.sync.streams[key]) {
      if u.sync.streams[key].owner.Some? {
        TimedStays(s, u, h, h, key);
      } else {
        assert IsTimed(s, h, key, s.sync.streams[key]);
      }
    }
  }

  lemma StepKeepsTerms(s: System, a: Action, h: Ends)
    requires TermsAgree(s, h) && Enabled(s, a)
    ensures TermsAgree(Step(s, a), Noted(s, a, h))
  {
    if a.Claim? {
      ClaimKeepsTerms(s, a, h);
    } else if a.Commit? {
      CommitKeepsTerms(s, a, h);
    } else {
      OtherStepKeepsTerms(s, a, h);
    }
  }

  lemma {:induction false} TermsOverRun(s: System, actions: seq<Action>, h: Ends)
    requires TermsAgree(s, h) && IsRun(s, actions)
    ensures TermsAgree(After(s, actions), NotedOver(s, actions, h))
    decreases |actions|
  {
    if actions != [] {
      StepKeepsTerms(s, actions[0], h);
      TermsOverRun(Step(s, actions[0]), actions[1..], Noted(s, actions[0], h));
    }
  }

  /** A page is committed or answered strictly before the last grant or renewal of its lease ends. */
  lemma AnsweredInTime(s: System, actions: seq<Action>, l: Lease, op: OpId, page: Page, order: VersionOrder)
    requires Initial(s) && IsRun(s, actions) && l in After(s, actions).leases
    requires
      var answer := CommitAnswer(After(s, actions).sync, l, op, page, order);
      answer.Committed? || answer.Replayed?
    ensures
      var h := NotedOver(s, actions, map[]);
      (l.key, l.fence) in h && After(s, actions).sync.now < h[(l.key, l.fence)]
  {
    TermsOverRun(s, actions, map[]);
    var t := After(s, actions);
    assert IsTimed(t, NotedOver(s, actions, map[]), l.key, t.sync.streams[l.key]);
  }

  /** The lease's time is over. */
  predicate IsOver(s: System, h: Ends, l: Lease) {
    (l.key, l.fence) in h && h[(l.key, l.fence)] <= s.sync.now
  }

  lemma OverStaysOver(s: System, a: Action, h: Ends, l: Lease)
    requires TermsAgree(s, h) && l in s.leases && Enabled(s, a) && IsOver(s, h, l)
    ensures IsOver(Step(s, a), Noted(s, a, h), l)
  {
    assert Follows(s.sync, l);
    assert IsTimed(s, h, l.key, s.sync.streams[l.key]);
  }

  lemma {:induction false} OverForGood(s: System, actions: seq<Action>, h: Ends, l: Lease)
    requires TermsAgree(s, h) && l in s.leases && IsRun(s, actions) && IsOver(s, h, l)
    ensures IsOver(After(s, actions), NotedOver(s, actions, h), l) && l in After(s, actions).leases
    decreases |actions|
  {
    if actions != [] {
      OverStaysOver(s, actions[0], h, l);
      StepKeepsTerms(s, actions[0], h);
      OverForGood(Step(s, actions[0]), actions[1..], Noted(s, actions[0], h), l);
    }
  }

  /** From that instant on, at every later point, every page under the lease is refused as not held. */
  lemma OverIsNotHeld(s: System, before: seq<Action>, l: Lease, after: seq<Action>, op: OpId, page: Page, order: VersionOrder)
    requires Initial(s) && IsRun(s, before) && l in After(s, before).leases
    requires IsOver(After(s, before), NotedOver(s, before, map[]), l) && IsRun(After(s, before), after)
    ensures CommitAnswer(After(After(s, before), after).sync, l, op, page, order) == NotHeld
  {
    TermsOverRun(s, before, map[]);
    var t, h := After(s, before), NotedOver(s, before, map[]);
    OverForGood(t, after, h, l);
    TermsOverRun(t, after, h);
    var u := After(t, after);
    assert Follows(u.sync, l);
    assert IsTimed(u, NotedOver(t, after, h), l.key, u.sync.streams[l.key]);
  }

  /**
   Nobody waits for a worker that is gone: once the time of every other owner's
   lease on the stream is over, a claim on an active connection is granted, with
   a fence above all of theirs.
   */
  lemma GoneWorkerIsReplaced(s: System, actions: seq<Action>, key: StreamKey, owner: Owner)
    requires Initial(s) && IsRun(s, actions) && After(s, actions).sync.state == Active
    requires forall l :: l in After(s, actions).leases && l.key == key && l.owner != owner ==>
               IsOver(After(s, actions), NotedOver(s, actions, map[]), l)
    ensures
      var answer := ClaimAnswer(After(s, actions).sync, key, owner);
      && answer.Granted? && answer.lease.owner == owner
      && forall l :: l in After(s, actions).leases && l.key == key ==>
           l.fence < answer.lease.fence || (l.fence == answer.lease.fence && l.owner == owner)
  {
    TermsOverRun(s, actions, map[]);
    var t, h := After(s, actions), NotedOver(s, actions, map[]);
    if key in t.sync.streams {
      var m := t.sync.streams[key];
      assert IsTimed(t, h, key, m);
      forall l | l in t.leases && l.key == key ensures l.fence <= m.fence {
        assert Follows(t.sync, l);
      }
    } else {
      forall l | l in t.leases ensures l.key != key {
        assert Follows(t.sync, l);
      }
    }
  }

  /** And a claim is refused only for a lease of somebody else that is the stream's newest and whose time runs. */
  lemma RefusedForRunningLease(s: System, actions: seq<Action>, key: StreamKey, owner: Owner)
    requires Initial(s) && IsRun(s, actions) && ClaimAnswer(After(s, actions).sync, key, owner) == HeldByOther
    ensures
      var t, h := After(s, actions), NotedOver(s, actions, map[]);
      exists l :: l in t.leases && l.key == key && l.owner != owner && (key, l.fence) in h && t.sync.now < h[(key, l.fence)]
                  && forall x :: x in t.leases && x.key == key ==> x.fence <= l.fence
  {
    TermsOverRun(s, actions, map[]);
    var t, h := After(s, actions), NotedOver(s, actions, map[]);
    var m := t.sync.streams[key];
    assert IsTimed(t, h, key, m);
    var l :| l in t.leases && l.key == key && l.fence == m.fence && l.owner == m.owner.value;
    forall x | x in t.leases && x.key == key ensures x.fence <= l.fence {
      assert Follows(t.sync, x);
    }
  }

  // ---- what ends a lease before its time ----------------------------------

  /** Releasing, rescanning, stopping, reconfiguring and resetting take the lease copies of the stream out. */
  predicate TakesOut(s: System, a: Action, l: Lease) {
    match a
    case Release(x) => x.key == l.key && IsHolder(s.sync, x)
    case Restart(key) => key == l.key && s.sync.state != Disconnected
    case Stop(_) => true
    case Configure(_) => true
    case StartEpoch => true
    case _ => false
  }

  /** The copy is of an older generation, of an older fence, or of a fence whose stream nobody holds. */
  predicate IsOut(s: System, l: Lease) {
    || l.generation < s.sync.generation
    || (l.key in s.sync.streams &&
        (l.fence < s.sync.streams[l.key].fence || (l.fence == s.sync.streams[l.key].fence && s.sync.streams[l.key].owner.None?)))
  }

  lemma OutStaysOut(s: System, a: Action, h: Ends, l: Lease)
    requires TermsAgree(s, h) && Enabled(s, a) && IsOut(s, l)
    ensures IsOut(Step(s, a), l)
  {
    if l.key in s.sync.streams {
      assert IsTimed(s, h, l.key, s.sync.streams[l.key]);
    }
  }

  lemma {:induction false} OutForGood(s: System, actions: seq<Action>, h: Ends, l: Lease)
    requires TermsAgree(s, h) && IsRun(s, actions) && IsOut(s, l)
    ensures IsOut(After(s, actions), l)
    decreases |actions|
  {
    if actions != [] {
      OutStaysOut(s, actions[0], h, l);
      StepKeepsTerms(s, actions[0], h);
      OutForGood(Step(s, actions[0]), actions[1..], Noted(s, actions[0], h), l);
    }
  }

  /** A lease copy that was taken out never commits or answers again, whatever is claimed afterwards. */
  lemma TakenOutForGood(
      s: System, before: seq<Action>, a: Action, l: Lease, after: seq<Action>, op: OpId, page: Page, order: VersionOrder)
    requires Initial(s) && IsRun(s, before) && Enabled(After(s, before), a)
    requires l in After(s, before).leases && TakesOut(After(s, before), a, l)
    requires IsRun(Step(After(s, before), a), after)
    ensures
      var answer := CommitAnswer(After(Step(After(s, before), a), after).sync, l, op, page, order);
      !answer.Committed? && !answer.Replayed?
  {
    TermsOverRun(s, before, map[]);
    var t, h := After(s, before), NotedOver(s, before, map[]);
    assert Follows(t.sync, l);
    OtherStepKeepsTerms(t, a, h);
    OutForGood(Step(t, a), after, h, l);
  }

  // ---- what a commit leaves behind ----------------------------------------

  function Applies(ops: seq<Operation>, role: Role, order: VersionOrder): seq<SourceHeadRuns.Action> {
    seq(|ops|, i requires 0 <= i < |ops| => SourceHeadRuns.Apply(ops[i], role, order))
  }

  /** The operations of the committed pages, one after the other. */
  function LandedOps(s: System, actions: seq<Action>): seq<SourceHeadRuns.Action>
    requires IsRun(s, actions)
    decreases |actions|
  {
    if actions == [] then []
    else
      var a := actions[0];
      (if a.Commit? && CommitAnswer(s.sync, a.lease, a.op, a.page, a.order).Committed?
       then Applies(a.page.operations, a.lease.key.role, a.order) else [])
      + LandedOps(Step(s, a), actions[1..])
  }

  lemma {:induction false} RunsOn(a: Archive, xs: seq<SourceHeadRuns.Action>, ys: seq<SourceHeadRuns.Action>)
    requires SourceHeadRuns.IsRun(a, xs) && SourceHeadRuns.IsRun(SourceHeadRuns.After(a, xs), ys)
    ensures SourceHeadRuns.IsRun(a, xs + ys)
    ensures SourceHeadRuns.After(a, xs + ys) == SourceHeadRuns.After(SourceHeadRuns.After(a, xs), ys)
    decreases |xs|
  {
    if xs == [] {
      assert xs + ys == ys;
    } else {
      RunsOn(SourceHeadRuns.Step(a, xs[0]), xs[1..], ys);
      assert (xs + ys)[1..] == xs[1..] + ys;
    }
  }

  /** The verdict on an operation is the one it gets on what the operations before it left. */
  predicate IsJudged(a: Archive, ops: seq<Operation>, role: Role, order: VersionOrder, i: nat)
    requires i < |ops|
  {
    && SourceHeadRuns.IsRun(a, Applies(ops[..i], role, order)) && i < |Verdicts(a, ops, role, order)|
    && Verdicts(a, ops, role, order)[i] == VerdictOf(SourceHeadRuns.After(a, Applies(ops[..i], role, order)), ops[i], role, order)
  }

  /** A page is its operations, each applied to what the ones before it left. */
  lemma {:induction false} PageIsItsOperations(a: Archive, ops: seq<Operation>, role: Role, order: VersionOrder)
    requires OperatedAll(a, ops, role, order).Some?
    ensures SourceHeadRuns.IsRun(a, Applies(ops, role, order))
    ensures SourceHeadRuns.After(a, Applies(ops, role, order)) == OperatedAll(a, ops, role, order).value
    decreases |ops|
  {
    if ops != [] {
      var n := |ops| - 1;
      PageIsItsOperations(a, ops[..n], role, order);
      var last := SourceHeadRuns.Apply(ops[n], role, order);
      assert [last][1..] == [];
      assert SourceHeadRuns.IsRun(OperatedAll(a, ops[..n], role, order).value, [last]);
      RunsOn(a, Applies(ops[..n], role, order), [last]);
      assert Applies(ops, role, order) == Applies(ops[..n], role, order) + [last];
    }
  }

  /** And its outcome has one verdict for each of them, in order. */
  lemma {:induction false} OutcomeIsItsVerdicts(a: Archive, ops: seq<Operation>, role: Role, order: VersionOrder)
    requires OperatedAll(a, ops, role, order).Some?
    ensures |Verdicts(a, ops, role, order)| == |ops| && forall i :: 0 <= i < |ops| ==> IsJudged(a, ops, role, order, i)
    decreases |ops|
  {
    if ops != [] {
      var n := |ops| - 1;
      OutcomeIsItsVerdicts(a, ops[..n], role, order);
      PageIsItsOperations(a, ops[..n], role, order);
      forall i | 0 <= i < |ops| ensures IsJudged(a, ops, role, order, i) {
        assert i < n ==> IsJudged(a, ops[..n], role, order, i) && ops[..n][..i] == ops[..i];
      }
    }
  }

  lemma StepLandsOps(s: System, a: Action)
    requires Enabled(s, a)
    ensures
      var ops := if a.Commit? && CommitAnswer(s.sync, a.lease, a.op, a.page, a.order).Committed?
                 then Applies(a.page.operations, a.lease.key.role, a.order) else [];
      SourceHeadRuns.IsRun(s.sync.archive, ops) && SourceHeadRuns.After(s.sync.archive, ops) == Step(s, a).sync.archive
  {
    if a.Commit? && CommitAnswer(s.sync, a.lease, a.op, a.page, a.order).Committed? {
      PageIsItsOperations(s.sync.archive, a.page.operations, a.lease.key.role, a.order);
    }
  }

  /**
   Over any run the archive is exactly what the operations of the committed
   pages, in the order they landed, make of it: all of a page or nothing of it,
   nothing twice, nothing under a lost lease.  So what holds over runs of such
   operations holds of every reachable archive.
   */
  lemma {:induction false} ArchiveIsItsPages(s: System, actions: seq<Action>)
    requires IsRun(s, actions)
    ensures SourceHeadRuns.IsRun(s.sync.archive, LandedOps(s, actions))
    ensures SourceHeadRuns.After(s.sync.archive, LandedOps(s, actions)) == After(s, actions).sync.archive
    decreases |actions|
  {
    if actions != [] {
      var a := actions[0];
      var ops := if a.Commit? && CommitAnswer(s.sync, a.lease, a.op, a.page, a.order).Committed?
                 then Applies(a.page.operations, a.lease.key.role, a.order) else [];
      StepLandsOps(s, a);
      ArchiveIsItsPages(Step(s, a), actions[1..]);
      RunsOn(s.sync.archive, ops, LandedOps(Step(s, a), actions[1..]));
    }
  }
}
