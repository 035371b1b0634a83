/**
 Fan-in of provenance: whatever the number of records a session was exposed to,
 a capture depends on at most a hundred roots that lead to all of them.
 */
module Lineage {
  import opened Wrappers
  import opened Dependencies

  /** A provenance group is named by its parents. */
  datatype NodeId = Source(n: nat) | Group(parents: seq<NodeId>)

  const FAN_IN := 100

  /** The parents of all groups, in order. */
  function Concat(roots: seq<NodeId>): seq<NodeId> {
    if roots == [] then []
    else
      var last := roots[|roots| - 1];
      Concat(roots[..|roots| - 1]) + (if last.Group? then last.parents else [])
  }

  /** A stored group of admissible size. */
  ghost predicate IsStoredGroup(deps: set<Edge<NodeId>>, node: NodeId) {
    && node.Group? && 1 <= |node.parents| <= FAN_IN
    && forall i :: 0 <= i < |node.parents| ==> Edge(node, node.parents[i]) in deps
  }

  ghost predicate AreStoredGroups(deps: set<Edge<NodeId>>, roots: seq<NodeId>) {
    forall i :: 0 <= i < |roots| ==> IsStoredGroup(deps, roots[i])
  }

  /** Opening `height` layers of stored groups gives back exactly the original list. */
  ghost predicate LeadsTo(deps: set<Edge<NodeId>>, roots: seq<NodeId>, ids: seq<NodeId>, height: nat)
    decreases height
  {
    if height == 0 then roots == ids
    else AreStoredGroups(deps, roots) && LeadsTo(deps, Concat(roots), ids, height - 1)
  }

  lemma {:induction false} MoreDepsLeadTo(
      deps: set<Edge<NodeId>>, more: set<Edge<NodeId>>, roots: seq<NodeId>, ids: seq<NodeId>, height: nat)
    requires LeadsTo(deps, roots, ids, height) && deps <= more
    ensures LeadsTo(more, roots, ids, height)
    decreases height
  {
    if height > 0 {
      MoreDepsLeadTo(deps, more, Concat(roots), ids, height - 1);
    }
  }

  lemma {:induction false} ConcatComesFrom(roots: seq<NodeId>, x: NodeId) returns (i: nat)
    requires x in Concat(roots)
    ensures i < |roots| && roots[i].Group? && x in roots[i].parents
  {
    var n := |roots| - 1;
    if x in Concat(roots[..n]) {
      i := ConcatComesFrom(roots[..n], x);
    } else {
      i := n;
    }
  }

  /** Every original record is an ancestor of some root. */
  lemma {:induction false} EveryLeafReachesRoot(
      deps: set<Edge<NodeId>>, roots: seq<NodeId>, ids: seq<NodeId>, height: nat, x: NodeId)
    returns (root: NodeId)
    requires LeadsTo(deps, roots, ids, height) && x in ids
    ensures root in roots && root in Closure(deps, {x})
    decreases height
  {
    if height == 0 {
      root := x;
    } else {
      var middle := EveryLeafReachesRoot(deps, Concat(roots), ids, height - 1, x);
      var i := ConcatComesFrom(roots, middle);
      root := roots[i];
      assert IsStoredGroup(deps, root);
      assert Edge(root, middle) in deps;
      assert root in Children(deps, Closure(deps, {x}));
    }
  }

  /** Where deleted records are closed under dependents, deletion passes from any leaf to the capture. */
  lemma DeletionReachesCapture(
    deps: set<Edge<NodeId>>, deleted: set<NodeId>, roots: seq<NodeId>, ids: seq<NodeId>, height: nat, capture: NodeId, x: NodeId)
    requires LeadsTo(deps, roots, ids, height) && x in ids && x in deleted
    requires forall i :: 0 <= i < |roots| ==> Edge(capture, roots[i]) in deps
    requires IsClosed(deps, deleted)
    ensures capture in deleted
  {
    CaptureDescends(deps, roots, ids, height, capture, x);
    ClosureIsLeast(deps, {x}, deleted);
  }

  // ---- the archive behind it ----------------------------------------------

  /** Canonical records, as far as lineage is concerned. */
  datatype Archive = Archive(records: set<NodeId>, deleted: set<NodeId>, deps: set<Edge<NodeId>>)

  datatype Action = Commit(node: NodeId, from: seq<NodeId>) | Forget(node: NodeId)

  /** A record is refused when it was forgotten or one of its parents is not live. */
  predicate Accepts(a: Archive, node: NodeId, from: seq<NodeId>) {
    node !in a.deleted && forall p :: p in from ==> (p in a.records || p == node) && p !in a.deleted
  }

  predicate Enabled(a: Archive, action: Action) {
    match action
    case Commit(node, from) => Accepts(a, node, from)
    case Forget(node) => node in a.records
  }

  function Committed(a: Archive, node: NodeId, from: seq<NodeId>): Archive {
    a.(records := a.records + {node}, deps := a.deps + set p | p in from :: Edge(node, p))
  }

  function Step(a: Archive, action: Action): Archive {
    match action
    case Commit(node, from) => Committed(a, node, from)
    case Forget(node) => a.(deleted := a.deleted + Closure(a.deps, {node}))
  }

  predicate IsRun(a: Archive, actions: seq<Action>)
    decreases |actions|
  {
    actions == [] || (Enabled(a, actions[0]) && IsRun(Step(a, actions[0]), actions[1..]))
  }

  function After(a: Archive, actions: seq<Action>): Archive
    requires IsRun(a, actions)
    decreases |actions|
  {
    if actions == [] then a else After(Step(a, actions[0]), actions[1..])
  }

  /** Whatever depends on a deleted record is deleted. */
  predicate IsSound(a: Archive) {
    IsClosed(a.deps, a.deleted)
  }

  lemma StepIsSound(a: Archive, action: Action)
    requires IsSound(a) && Enabled(a, action)
    ensures IsSound(Step(a, action)) && a.deps <= Step(a, action).deps && a.deleted <= Step(a, action).deleted
  {
    var u := Step(a, action);
    forall c | c in Children(u.deps, u.deleted) ensures c in u.deleted {
      var e :| e in u.deps && e.parent in u.deleted && e.child == c;
      if action.Forget? {
        assert c in Children(a.deps, a.deleted) || c in Children(a.deps, Closure(a.deps, {action.node}));
      } else {
        assert e in a.deps ==> c in Children(a.deps, a.deleted);
      }
    }
  }

  lemma {:induction false} RunIsSound(a: Archive, actions: seq<Action>)
    requires IsSound(a) && IsRun(a, actions)
    ensures IsSound(After(a, actions)) && a.deps <= After(a, actions).deps && a.deleted <= After(a, actions).deleted
    decreases |actions|
  {
    if actions != [] {
      StepIsSound(a, actions[0]);
      RunIsSound(Step(a, actions[0]), actions[1..]);
    }
  }

  const NEW_ARCHIVE := Archive({}, {}, {})

  /**
   Over any run of an archive: a capture committed with the compacted roots is
   forgotten as soon as any record its session was exposed to is forgotten,
   before or after, however many layers of groups lie between.
   */
  lemma ForgettingReachesCapture(
    before: seq<Action>, after: seq<Action>, roots: seq<NodeId>, ids: seq<NodeId>, height: nat, capture: NodeId, x: NodeId)
    requires IsRun(NEW_ARCHIVE, before) && LeadsTo(After(NEW_ARCHIVE, before).deps, roots, ids, height)
    requires Enabled(After(NEW_ARCHIVE, before), Commit(capture, roots))
    requires IsRun(Step(After(NEW_ARCHIVE, before), Commit(capture, roots)), after)
    requires x in ids
    ensures
      var end := After(Step(After(NEW_ARCHIVE, before), Commit(capture, roots)), after);
      x in end.deleted ==> capture in end.deleted
  {
    var start := After(NEW_ARCHIVE, before);
    var stored := Step(start, Commit(capture, roots));
    var end := After(stored, after);
    RunIsSound(NEW_ARCHIVE, before);
    StepIsSound(start, Commit(capture, roots));
    RunIsSound(stored, after);
    MoreDepsLeadTo(start.deps, end.deps, roots, ids, height);
    if x in end.deleted {
      forall i | 0 <= i < |roots| ensures Edge(capture, roots[i]) in end.deps {
        assert Edge(capture, roots[i]) in stored.deps;
      }
      DeletionReachesCapture(end.deps, end.deleted, roots, ids, height, capture, x);
    }
  }

  /** The archive does not take the group: it was forgotten, or one of its parents is not live. */
  predicate IsRefused(a: Archive, group: NodeId) {
    group.Group? && (group in a.deleted || exists p :: p in group.parents && ((p !in a.records && p != group) || p in a.deleted))
  }

  // ---- the ledger ---------------------------------------------------------

  /** The session's side, and the service it talks to. */
  class Ledger {
    var records: set<NodeId>
    var deleted: set<NodeId>
    var deps: set<Edge<NodeId>>
    var bindings: map<nat, seq<NodeId>>

    ghost function State(): Archive
      reads this
    {
      Archive(records, deleted, deps)
    }

    /** Other clients commit and forget between two calls: any run of theirs. */
    method OthersWrite()
      requires IsSound(State())
      modifies this`records, this`deleted, this`deps
      ensures IsSound(State()) && old(deps) <= deps && old(deleted) <= deleted
    {
      var before := Archive(records, deleted, deps);
      assert IsRun(before, []);
      var actions: seq<Action> :| IsRun(before, actions);
      RunIsSound(before, actions);
      var a := After(before, actions);
      records, deleted, deps := a.records, a.deleted, a.deps;
    }

    /** Commit one record with its parents; refused when it was forgotten or a parent is not live. */
    method Ingest(node: NodeId, from: seq<NodeId>) returns (committed: bool)
      requires IsSound(State())
      modifies this`records, this`deps
      ensures committed <==> Accepts(old(State()), node, from)
      ensures committed <==> node !in deleted && forall p :: p in from ==> p !in deleted && (p in old(records) || p == node)
      ensures State() == if committed then Committed(old(State()), node, from) else old(State())
      ensures IsSound(State())
    {
      if node in deleted || exists p :: p in from && ((p !in records && p != node) || p in deleted) {
        return false;
      }
      StepIsSound(State(), Commit(node, from));
      records := records + {node};
      deps := deps + set p | p in from :: Edge(node, p);
      return true;
    }

    /** One layer: groups of a hundred, in order. */
    method GroupLayer(ids: seq<NodeId>) returns (layer: Option<seq<NodeId>>, ghost refused: NodeId)
      requires |ids| > FAN_IN && IsSound(State())
      modifies this`records, this`deleted, this`deps
      ensures IsSound(State()) && old(deps) <= deps
      ensures layer.Some? ==> |layer.value| < |ids| && AreStoredGroups(deps, layer.value) && Concat(layer.value) == ids
      ensures layer.None? ==> IsRefused(State(), refused)
    {
      refused := ids[0];
      var next: seq<NodeId> := [];
      var offset := 0;
      while offset < |ids|
        invariant offset <= |ids| && old(deps) <= deps && IsSound(State())
        invariant |next| * FAN_IN < offset + FAN_IN && |next| <= offset && (offset == |next| * FAN_IN || offset == |ids|)
        invariant AreStoredGroups(deps, next) && Concat(next) == ids[..offset]
      {
        var upTo := if offset + FAN_IN <= |ids| then offset + FAN_IN else |ids|;
        var node := Group(ids[offset..upTo]);
        OthersWrite();
        var committed := Ingest(node, node.parents);
        if !committed {
          return None, node;
        }
        assert (next + [node])[..|next|] == next;
        assert ids[..offset] + ids[offset..upTo] == ids[..upTo];
        next := next + [node];
        offset := upTo;
      }
      assert ids[..offset] == ids;
      return Some(next), refused;
    }

    /**
     Layers of groups until a hundred are left.  The roots are few, every group
     is small, and opening the layers gives the exposures exactly, none dropped
     and none added; a refused group refuses the capture instead.
     */
    method CompactParents(exposed: seq<NodeId>)
      returns (roots: Option<seq<NodeId>>, ghost height: nat, ghost refused: Option<NodeId>)
      requires IsSound(State())
      modifies this`records, this`deleted, this`deps
      ensures IsSound(State()) && old(deps) <= deps
      ensures roots.Some? ==> |roots.value| <= 100 && LeadsTo(deps, roots.value, exposed, height)
      ensures |exposed| <= 100 ==> roots == Some(exposed)
      ensures roots.None? ==> refused.Some? && IsRefused(State(), refused.value)
    {
      var ids := exposed;
      height, refused := 0, None;
      while |ids| > FAN_IN
        invariant old(deps) <= deps && LeadsTo(deps, ids, exposed, height) && IsSound(State())
        invariant |exposed| <= FAN_IN ==> ids == exposed
        decreases |ids|
      {
        ghost var before := deps;
        ghost var node;
        var layer;
        layer, node := GroupLayer(ids);
        if layer.None? {
          return None, height, Some(node);
        }
        MoreDepsLeadTo(before, deps, ids, exposed, height);
        ids := layer.value;
        height := height + 1;
      }
      return Some(ids), height, refused;
    }

    /** The first parents recorded for a capture stay its parents. */
    method Bind(capture: nat, parents: seq<NodeId>) returns (bound: seq<NodeId>)
      modifies this`bindings
      ensures bindings == if capture in old(bindings) then old(bindings) else old(bindings)[capture := parents]
      ensures bound == bindings[capture]
    {
      if capture !in bindings {
        bindings := bindings[capture := parents];
      }
      return bindings[capture];
    }

    /**
     A generated capture: once stored, it descends from everything its session
     had been exposed to when its parents were first bound.
     */
    method StoreCapture(capture: nat, node: NodeId, exposed: seq<NodeId>) returns (stored: bool)
      requires IsSound(State())
      modifies this
      ensures IsSound(State())
      ensures stored && capture in old(bindings) ==> forall p :: p in old(bindings)[capture] ==> Edge(node, p) in deps
      ensures stored && capture !in old(bindings) ==>
                forall x :: x in exposed ==> node in Closure(deps, {x}) && (x in deleted ==> node in deleted)
    {
      ghost var height, refused;
      var roots;
      roots, height, refused := CompactParents(exposed);
      if roots.None? {
        return false;
      }
      var bound := Bind(capture, roots.value);
      ghost var before := deps;
      OthersWrite();
      stored := Ingest(node, bound);
      if stored && capture !in old(bindings) {
        MoreDepsLeadTo(before, deps, bound, exposed, height);
        forall x | x in exposed ensures node in Closure(deps, {x}) && (x in deleted ==> node in deleted) {
          CaptureDescends(deps, bound, exposed, height, node, x);
          ClosureIsLeast(deps, {x}, if x in deleted then deleted else Closure(deps, {x}));
        }
      }
    }
  }

  lemma CaptureDescends(deps: set<Edge<NodeId>>, roots: seq<NodeId>, ids: seq<NodeId>, height: nat, capture: NodeId, x: NodeId)
    requires LeadsTo(deps, roots, ids, height) && x in ids
    requires forall i :: 0 <= i < |roots| ==> Edge(capture, roots[i]) in deps
    ensures capture in Closure(deps, {x})
  {
    var root := EveryLeafReachesRoot(deps, roots, ids, height, x);
    assert Edge(capture, root) in deps;
    assert capture in Children(deps, Closure(deps, {x}));
  }
}
