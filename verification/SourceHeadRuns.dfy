/**
 The visibility rule over whole runs of a mirror connection: pages from any
 role and version, forgets, retirements that start elsewhere, and imports into
 other namespaces, in any order.
 */
module SourceHeadRuns {
  import opened Wrappers
  import opened Dependencies
  import opened SourceHeads

  datatype Action =
    | Apply(op: Operation, role: Role, order: VersionOrder)
    | Forget(record: RecordId)
    | ForgetItem(item: ItemId)
    | Supersede(record: RecordId, replacement: Option<RecordId>)
    | Import(item: ItemId, observed: Observed)

  predicate Enabled(s: Archive, a: Action) {
    match a
    case Apply(op, _, _) => op.item.Own?
    case Forget(r) => r in s.contents
    case ForgetItem(_) => true
    case Supersede(r, replacement) => r in s.contents && (replacement.Some? ==> replacement.value in s.contents)
    case Import(item, o) => item.Foreign? && !Tombstoned(s, RecordId(item, o.revision)) && Admit(s, item, o).Some?
  }

  function Superseded(s: Archive, r: RecordId, replacement: Option<RecordId>): set<RecordId> {
    Closure(s.deps, {r}) - (if replacement.Some? then Closure(s.deps, {replacement.value}) else {})
  }

  function RecordsOf(s: Archive, item: ItemId): set<RecordId> {
    set r | r in s.contents && r.item == item
  }

  /** An operation that raises leaves the archive as it was. */
  function Step(s: Archive, a: Action): Archive
    requires Enabled(s, a)
  {
    match a
    case Apply(op, role, order) =>
      var applied := Operated(s, op, role, order);
      if applied.Some? then applied.value else s
    case Forget(r) => s.(deleted := s.deleted + Closure(s.deps, {r}))
    case ForgetItem(item) => s.(blocked := s.blocked + {item}, deleted := s.deleted + Closure(s.deps, RecordsOf(s, item)))
    case Supersede(r, replacement) => s.(hidden := s.hidden + Superseded(s, r, replacement))
    case Import(item, o) => Admit(s, item, o).value
  }

  predicate IsRun(s: Archive, actions: seq<Action>)
    decreases |actions|
  {
    actions == [] || (Enabled(s, actions[0]) && IsRun(Step(s, actions[0]), actions[1..]))
  }

  function After(s: Archive, actions: seq<Action>): Archive
    requires IsRun(s, actions)
    decreases |actions|
  {
    if actions == [] then s else After(Step(s, actions[0]), actions[1..])
  }

  // ---- the rule -----------------------------------------------------------

  function Visible(s: Archive, item: ItemId): set<RecordId> {
    set r | r in s.contents && r.item == item && r !in s.hidden && r !in s.deleted
  }

  /** What the head says should be visible. */
  function Due(s: Archive, item: ItemId): set<RecordId> {
    if item in s.heads && s.heads[item].live then Current(s, item) - s.deleted else {}
  }

  predicate CurrentAreStored(s: Archive, item: ItemId) {
    && Current(s, item) <= RecordsOf(s, item)
    && (item !in s.heads ==> Current(s, item) == {})
  }

  predicate ItemAgrees(s: Archive, item: ItemId) {
    Visible(s, item) == Due(s, item) && CurrentAreStored(s, item)
  }

  /** The visible revisions of every item are the ones its head calls for. */
  ghost predicate HeadsAgree(s: Archive) {
    forall item: ItemId :: item.Own? ==> ItemAgrees(s, item)
  }

  /** The records one action hides. */
  function RetiredBy(s: Archive, a: Action): set<RecordId>
    requires Enabled(s, a)
  {
    match a
    case Apply(op, role, order) =>
      if Operated(s, op, role, order).None? then {}
      else (
        match op
        case Upsert(item, records, version) =>
          var t, ids := Admitted(s, item, records).value, Ids(Kept(s, item, records));
          if Accepts(s, item, version, role, order) then Closure(t.deps, if ids == {} then {} else Current(s, item) - ids) - ids
          else Closure(t.deps, ids - Current(s, item))
        case Remove(item, version) =>
          if item in s.heads && s.heads[item].live && Newer(version, role, s.heads[item], order)
          then Closure(s.deps, Current(s, item)) else {}
        case Restore(_, _) => {}
        case Skip(_) => {}
      )
    case Supersede(r, replacement) => Superseded(s, r, replacement)
    case Forget(_) => {}
    case ForgetItem(_) => {}
    case Import(_, _) => {}
  }

  /** The action replaces or removes this item's head, so its old revisions are meant to go. */
  predicate MovesHead(s: Archive, a: Action, item: ItemId) {
    && a.Apply? && a.op.item == item && Operated(s, a.op, a.role, a.order).Some?
    && (|| (a.op.Upsert? && VerdictOf(s, a.op, a.role, a.order) == Applied)
        || (a.op.Remove? && item in s.heads && VerdictOf(s, a.op, a.role, a.order) == Applied))
  }

  // ---- one step, one item -------------------------------------------------

  lemma HidingBreaksExactly(s: Archive, t: Archive, item: ItemId, gone: set<RecordId>)
    requires ItemAgrees(s, item) && CurrentAreStored(t, item)
    requires t.deleted == s.deleted && Due(t, item) == Due(s, item)
    requires Visible(t, item) == Visible(s, item) - gone
    ensures ItemAgrees(t, item) <==> gone !! Due(s, item)
  {
  }

  lemma {:induction false} KeptAreOwn(s: Archive, item: ItemId, records: seq<Observed>)
    ensures forall r :: r in Kept(s, item, records) ==> r.item == item && r !in s.deleted
  {
    if records != [] {
      KeptAreOwn(s, item, records[..|records| - 1]);
    }
  }

  lemma SameRows(s: Archive, t: Archive, item: ItemId)
    requires t.current == s.current && (item in t.heads <==> item in s.heads)
    requires item in s.heads ==> t.heads[item].record == s.heads[item].record
    ensures Current(t, item) == Current(s, item)
  {
  }

  /** Nothing of the item changes. */
  lemma UntouchedItem(s: Archive, t: Archive, item: ItemId)
    requires ItemAgrees(s, item)
    requires t.deleted == s.deleted && t.heads == s.heads && t.current == s.current && t.hidden == s.hidden
    requires RecordsOf(t, item) == RecordsOf(s, item)
    ensures ItemAgrees(t, item) && Due(t, item) == Due(s, item) && Visible(t, item) == Visible(s, item)
  {
    SameRows(s, t, item);
    assert forall r :: r in Visible(t, item) ==> r in RecordsOf(t, item);
    assert forall r :: r in Visible(s, item) ==> r in RecordsOf(s, item);
  }

  lemma AcceptedElsewhere(t: Archive, item: ItemId, kept: seq<RecordId>, version: Option<Version>, role: Role, other: ItemId)
    requires kept != [] && item != other && (forall r :: r in kept ==> r.item == item)
    requires ItemAgrees(t, other)
    ensures
      var u := Accepted(t, item, kept, Current(t, item), version, role);
      ItemAgrees(u, other) <==> (Closure(t.deps, Current(t, item) - Ids(kept)) - Ids(kept)) !! Due(t, other)
  {
    var u := Accepted(t, item, kept, Current(t, item), version, role);
    var gone := Closure(t.deps, Current(t, item) - Ids(kept)) - Ids(kept);
    assert (set r | r in u.current && r.item == other) == (set r | r in t.current && r.item == other);
    assert Current(u, other) == Current(t, other);
    assert RecordsOf(u, other) == RecordsOf(t, other);
    HidingBreaksExactly(t, u, other, gone);
  }

  /** After an accepted upsert exactly its own records are visible. */
  lemma AcceptedOwn(s: Archive, t: Archive, item: ItemId, kept: seq<RecordId>, version: Option<Version>, role: Role)
    requires kept != [] && (forall r :: r in kept ==> r.item == item && r !in s.deleted)
    requires Visible(s, item) <= Due(s, item) && CurrentAreStored(s, item)
    requires SameHeads(s, t) && t.contents.Keys == s.contents.Keys + Ids(kept)
    ensures ItemAgrees(Accepted(t, item, kept, Current(t, item), version, role), item)
    ensures Visible(Accepted(t, item, kept, Current(t, item), version, role), item) == Ids(kept)
  {
    var ids := Ids(kept);
    var u := Accepted(t, item, kept, Current(t, item), version, role);
    SameRows(s, t, item);
    var rows := set r | r in u.current && r.item == item;
    assert rows == ids;
    assert kept[0] in ids;
    assert Current(u, item) == ids;
    forall r | r in Visible(u, item) ensures r in ids {
      assert r !in ids ==> r in Visible(s, item) && r in Current(t, item) - ids;
    }
  }

  lemma UpsertStep(s: Archive, a: Action, item: ItemId)
    requires ItemAgrees(s, item) && Enabled(s, a) && a.Apply? && a.op.Upsert?
    ensures ItemAgrees(Step(s, a), item) <==> MovesHead(s, a, item) || RetiredBy(s, a) !! Due(s, item)
  {
    var op := a.op;
    var admitted := Admitted(s, op.item, op.records);
    if admitted.None? {
      return;
    }
    var t, kept := admitted.value, Kept(s, op.item, op.records);
    AdmittedFrame(s, op.item, op.records);
    KeptAreOwn(s, op.item, op.records);
    SameRows(s, t, op.item);
    SameRows(s, t, item);
    assert op.item != item ==> RecordsOf(t, item) == RecordsOf(s, item);
    if kept == [] {
      NothingKept(s, a, t, item);
    } else if Accepts(s, op.item, op.version, a.role, a.order) {
      if op.item == item {
        AcceptedOwn(s, t, item, kept, op.version, a.role);
      } else {
        UntouchedItem(s, t, item);
        AcceptedElsewhere(t, op.item, kept, op.version, a.role, item);
      }
      assert kept[0] in Ids(kept);
    } else {
      HistoryOnlyStep(s, t, op.item, kept, item);
    }
  }

  lemma NothingKept(s: Archive, a: Action, t: Archive, item: ItemId)
    requires ItemAgrees(s, item) && Enabled(s, a) && a.Apply? && a.op.Upsert?
    requires Admitted(s, a.op.item, a.op.records) == Some(t) && Kept(s, a.op.item, a.op.records) == []
    requires SameHeads(s, t) && t.contents.Keys == s.contents.Keys
    ensures ItemAgrees(t, item) && RetiredBy(s, a) == {}
  {
    assert Ids([]) == {};
    ClosureOfNothing(t.deps);
    UntouchedItem(s, t, item);
  }

  lemma HistoryOnlyStep(s: Archive, t: Archive, of: ItemId, kept: seq<RecordId>, item: ItemId)
    requires ItemAgrees(s, item) && SameHeads(s, t) && t.contents.Keys == s.contents.Keys + Ids(kept)
    requires forall r :: r in kept ==> r.item == of
    requires Current(t, of) == Current(s, of) && Current(t, item) == Current(s, item)
    ensures
      var gone := Closure(t.deps, Ids(kept) - Current(s, of));
      ItemAgrees(t.(hidden := t.hidden + gone), item) <==> gone !! Due(s, item)
  {
    var gone := Closure(t.deps, Ids(kept) - Current(s, of));
    var u := t.(hidden := t.hidden + gone);
    SameRows(t, u, item);
    forall r | r in Visible(u, item) ensures r in Visible(s, item) {
      assert r !in s.contents ==> r in Ids(kept) - Current(s, of);
    }
    HidingBreaksExactly(s, u, item, gone);
  }

  /** The flipped item itself: removal hides what was due, restoration shows what is due. */
  lemma FlippedOwn(s: Archive, t: Archive, item: ItemId)
    requires ItemAgrees(s, item) && item in s.heads && item in t.heads && s.mirror
    requires t.contents == s.contents && t.deleted == s.deleted && t.current == s.current
    requires t.heads[item].record == s.heads[item].record && t.heads[item].live != s.heads[item].live
    requires t.hidden == if s.heads[item].live then s.hidden + Closure(s.deps, Current(s, item)) else s.hidden - Current(s, item)
    ensures ItemAgrees(t, item)
  {
    SameRows(s, t, item);
    assert RecordsOf(t, item) == RecordsOf(s, item);
    if s.heads[item].live {
      assert Visible(t, item) <= Visible(s, item) - Current(s, item);
    } else {
      assert Visible(t, item) == Current(s, item) - s.deleted by {
        forall r | r in Visible(t, item) ensures r in Current(s, item) {
          assert r !in s.hidden ==> r in Visible(s, item);
        }
      }
    }
  }

  lemma FlippedElsewhere(s: Archive, t: Archive, of: ItemId, item: ItemId, gone: set<RecordId>)
    requires ItemAgrees(s, item) && item != of && CurrentAreStored(s, of)
    requires t.contents == s.contents && t.deleted == s.deleted && t.current == s.current
    requires item in t.heads <==> item in s.heads
    requires item in s.heads ==> t.heads[item] == s.heads[item]
    requires t.hidden == s.hidden + gone || (gone == {} && t.hidden == s.hidden - Current(s, of))
    ensures ItemAgrees(t, item) <==> gone !! Due(s, item)
  {
    SameRows(s, t, item);
    assert RecordsOf(t, item) == RecordsOf(s, item);
    assert Visible(t, item) == Visible(s, item) - gone;
    HidingBreaksExactly(s, t, item, gone);
  }

  lemma FlipStep(s: Archive, a: Action, item: ItemId)
    requires ItemAgrees(s, item) && Enabled(s, a) && a.Apply? && !a.op.Upsert? && s.mirror
    requires CurrentAreStored(s, a.op.item)
    ensures ItemAgrees(Step(s, a), item) <==> MovesHead(s, a, item) || RetiredBy(s, a) !! Due(s, item)
  {
    var t := Step(s, a);
    if item != a.op.item {
      FlippedElsewhere(s, t, a.op.item, item, RetiredBy(s, a));
    } else if item in s.heads && t.heads[item].live != s.heads[item].live {
      FlippedOwn(s, t, item);
    } else {
      assert RecordsOf(t, item) == RecordsOf(s, item);
      assert Current(t, item) == Current(s, item);
      HidingBreaksExactly(s, t, item, {});
    }
  }

  lemma DeletingStep(s: Archive, t: Archive, item: ItemId)
    requires ItemAgrees(s, item)
    requires s.deleted <= t.deleted && t.hidden == s.hidden && t.heads == s.heads && t.current == s.current && t.contents == s.contents
    ensures ItemAgrees(t, item)
  {
    SameRows(s, t, item);
    assert RecordsOf(t, item) == RecordsOf(s, item);
    assert Visible(t, item) == Visible(s, item) - t.deleted;
  }

  /**
   One step keeps the rule for an item exactly when what it hides spares the
   item's due records, unless it is the item's own head that moves.
   */
  lemma StepKeepsItemExactly(s: Archive, a: Action, item: ItemId)
    requires HeadsAgree(s) && Enabled(s, a) && s.mirror && item.Own?
    ensures ItemAgrees(Step(s, a), item) <==> MovesHead(s, a, item) || RetiredBy(s, a) !! Due(s, item)
  {
    var t := Step(s, a);
    match a
    case Apply(op, _, _) =>
      if op.Upsert? {
        UpsertStep(s, a, item);
      } else {
        FlipStep(s, a, item);
      }
    case Forget(_) => DeletingStep(s, t, item);
    case ForgetItem(_) => DeletingStep(s, t, item);
    case Supersede(_, _) =>
      SameRows(s, t, item);
      assert RecordsOf(t, item) == RecordsOf(s, item);
      HidingBreaksExactly(s, t, item, RetiredBy(s, a));
    case Import(_, _) =>
      assert RecordsOf(t, item) == RecordsOf(s, item);
      UntouchedItem(s, t, item);
  }

  // ---- runs ---------------------------------------------------------------

  ghost predicate Spares(s: Archive, a: Action)
    requires Enabled(s, a)
  {
    forall item: ItemId :: item.Own? ==> MovesHead(s, a, item) || RetiredBy(s, a) !! Due(s, item)
  }

  /** The exact condition under which one action keeps the rule for the whole connection. */
  lemma StepKeepsHeadsExactly(s: Archive, a: Action)
    requires HeadsAgree(s) && Enabled(s, a) && s.mirror
    ensures HeadsAgree(Step(s, a)) <==> Spares(s, a)
  {
    forall item: ItemId | item.Own?
      ensures ItemAgrees(Step(s, a), item) <==> MovesHead(s, a, item) || RetiredBy(s, a) !! Due(s, item)
    {
      StepKeepsItemExactly(s, a, item);
    }
  }

  ghost predicate SparesThroughout(s: Archive, actions: seq<Action>)
    requires IsRun(s, actions)
    decreases |actions|
  {
    actions == [] || (Spares(s, actions[0]) && SparesThroughout(Step(s, actions[0]), actions[1..]))
  }

  ghost predicate AgreesThroughout(s: Archive, actions: seq<Action>)
    requires IsRun(s, actions)
    decreases |actions|
  {
    HeadsAgree(s) && (actions == [] || AgreesThroughout(Step(s, actions[0]), actions[1..]))
  }

  lemma StepKeepsRetention(s: Archive, a: Action)
    requires Enabled(s, a)
    ensures Step(s, a).mirror == s.mirror
  {
    if a.Apply? && a.op.Upsert? && Operated(s, a.op, a.role, a.order).Some? {
      AdmittedFrame(s, a.op.item, a.op.records);
    }
  }

  /** Over a whole run, derived records included: the rule holds all along exactly when every step spares what is due. */
  lemma {:induction false} RunKeepsHeadsExactly(s: Archive, actions: seq<Action>)
    requires HeadsAgree(s) && s.mirror && IsRun(s, actions)
    ensures AgreesThroughout(s, actions) <==> SparesThroughout(s, actions)
    decreases |actions|
  {
    if actions != [] {
      var a := actions[0];
      StepKeepsHeadsExactly(s, a);
      StepKeepsRetention(s, a);
      if Spares(s, a) {
        RunKeepsHeadsExactly(Step(s, a), actions[1..]);
      }
    }
  }

  /** A connection without items, in an archive where nothing of its namespace is derived. */
  ghost predicate Initial(s: Archive) {
    && s.mirror && s.heads == map[] && s.current == {} && NothingDerived(s)
    && forall r :: r in s.contents ==> r.item.Foreign?
  }

  /** Records of the namespace are never derived from others. */
  predicate NothingDerived(s: Archive) {
    forall e :: e in s.deps ==> e.child.item.Foreign?
  }

  predicate IsIndependent(a: Action) {
    match a
    case Apply(op, _, _) => op.Upsert? ==> forall i :: 0 <= i < |op.records| ==> op.records[i].parents == {}
    case Supersede(r, _) => r.item.Foreign?
    case Forget(_) => true
    case ForgetItem(_) => true
    case Import(_, _) => true
  }

  lemma RetirementStaysInNamespace(deps: set<Edge<RecordId>>, found: set<RecordId>)
    requires forall e :: e in deps ==> e.child.item.Foreign?
    ensures forall r :: r in Closure(deps, found) && r.item.Own? ==> r in found
  {
    var children := set e | e in deps :: e.child;
    ClosureIsLeast(deps, found, found + children);
  }

  lemma {:induction false} NoParentsNoEdges(s: Archive, item: ItemId, records: seq<Observed>)
    requires Admitted(s, item, records).Some?
    requires forall i :: 0 <= i < |records| ==> records[i].parents == {}
    ensures Admitted(s, item, records).value.deps == s.deps
  {
    if records != [] {
      NoParentsNoEdges(s, item, records[..|records| - 1]);
    }
  }

  lemma IndependentStepSpares(s: Archive, a: Action, item: ItemId)
    requires NothingDerived(s) && Enabled(s, a) && IsIndependent(a) && item.Own?
    requires CurrentAreStored(s, item) && (a.Apply? ==> CurrentAreStored(s, a.op.item))
    ensures MovesHead(s, a, item) || RetiredBy(s, a) !! Due(s, item)
  {
    match a
    case Apply(op, role, order) =>
      if op.Upsert? && Operated(s, op, role, order).Some? {
        var t, ids := Admitted(s, op.item, op.records).value, Ids(Kept(s, op.item, op.records));
        NoParentsNoEdges(s, op.item, op.records);
        KeptAreOwn(s, op.item, op.records);
        RetirementStaysInNamespace(t.deps, if ids == {} then {} else Current(s, op.item) - ids);
        RetirementStaysInNamespace(t.deps, ids - Current(s, op.item));
        assert Kept(s, op.item, op.records) == [] ==> ids == {};
      } else {
        RetirementStaysInNamespace(s.deps, Current(s, op.item));
      }
    case Supersede(r, replacement) => RetirementStaysInNamespace(s.deps, {r});
    case Forget(_) =>
    case ForgetItem(_) =>
    case Import(_, _) =>
  }

  lemma StepKeepsIndependence(s: Archive, a: Action)
    requires NothingDerived(s) && Enabled(s, a) && IsIndependent(a)
    ensures NothingDerived(Step(s, a)) && Step(s, a).mirror == s.mirror
  {
    if a.Apply? && a.op.Upsert? && Operated(s, a.op, a.role, a.order).Some? {
      NoParentsNoEdges(s, a.op.item, a.op.records);
      AdmittedFrame(s, a.op.item, a.op.records);
    }
  }

  lemma {:induction false} HeadsOverRun(s: Archive, actions: seq<Action>)
    requires HeadsAgree(s) && NothingDerived(s) && s.mirror && IsRun(s, actions)
    requires forall i :: 0 <= i < |actions| ==> IsIndependent(actions[i])
    ensures HeadsAgree(After(s, actions))
    decreases |actions|
  {
    if actions != [] {
      var a := actions[0];
      forall item: ItemId | item.Own? ensures MovesHead(s, a, item) || RetiredBy(s, a) !! Due(s, item) {
        IndependentStepSpares(s, a, item);
      }
      StepKeepsHeadsExactly(s, a);
      StepKeepsIndependence(s, a);
      HeadsOverRun(Step(s, a), actions[1..]);
    }
  }

  /**
   Whatever order of pages, roles and versions, and whatever is forgotten in
   between: the visible revisions of an item are exactly its current records
   that were not forgotten while its head is live, and none otherwise.
   */
  lemma VisibleIsCurrent(s: Archive, actions: seq<Action>, item: ItemId)
    requires Initial(s) && IsRun(s, actions) && item.Own?
    requires forall i :: 0 <= i < |actions| ==> IsIndependent(actions[i])
    ensures
      var t := After(s, actions);
      Visible(t, item) == if item in t.heads && t.heads[item].live then Current(t, item) - t.deleted else {}
  {
    HeadsOverRun(s, actions);
    assert ItemAgrees(After(s, actions), item);
  }

  // ---- a derived revision breaks it ---------------------------------------

  const NOTE := Own(1)
  const FIRST := Observed(1, 10, {})
  const SECOND := Observed(2, 20, {RecordId(NOTE, 1)})

  function Numbered(n: int): Option<Version> {
    Some(Version(0, Some(n), None))
  }

  function Delivery(o: Observed, n: int): Action {
    Apply(Upsert(NOTE, [o], Numbered(n)), Incremental, IntegerOrder)
  }

  const EMPTY := Archive(map[], {}, {}, {}, {}, map[], {}, true)
  const R1 := RecordId(NOTE, 1)
  const R2 := RecordId(NOTE, 2)
  const STATE1 := EMPTY.(contents := map[R1 := 10], heads := map[NOTE := Head(Some(R1), Numbered(1), Incremental, true)], current := {R1})
  const STATE2 := STATE1.(contents := map[R1 := 10, R2 := 20], deps := {Edge(R2, R1)}, hidden := {R1},
                          heads := map[NOTE := Head(Some(R2), Numbered(2), Incremental, true)], current := {R2})

  lemma OneRecord(s: Archive, o: Observed)
    requires !Tombstoned(s, RecordId(NOTE, o.revision))
    ensures Admitted(s, NOTE, [o]) == Admit(s, NOTE, o)
    ensures Kept(s, NOTE, [o]) == [RecordId(NOTE, o.revision)]
  {
    assert [o][..0] == [];
    assert Admitted(s, NOTE, []) == Some(s);
    assert Kept(s, NOTE, []) == [];
  }

  lemma NoParentRows(r: RecordId, deps: set<Edge<RecordId>>)
    ensures deps + (set p: RecordId | p in FIRST.parents :: Edge(r, p)) == deps
  {
  }

  lemma FirstDelivery()
    ensures Step(EMPTY, Delivery(FIRST, 1)) == STATE1
  {
    OneRecord(EMPTY, FIRST);
    ClosureOfNothing<RecordId>({});
    assert Ids([R1]) == {R1};
    NoParentRows(R1, {});
    assert Admit(EMPTY, NOTE, FIRST) == Some(EMPTY.(contents := map[R1 := 10]));
    assert WithCurrent({}, NOTE, {R1}) == {R1};
  }

  lemma RevisionReachesNext()
    ensures Closure({Edge(R2, R1)}, {R1}) == {R1, R2}
  {
    var deps := {Edge(R2, R1)};
    ClosureIsLeast(deps, {R1}, {R1, R2});
    assert Edge(R2, R1) in deps;
    assert R2 in Children(deps, Closure(deps, {R1}));
  }

  const ADMITTED := STATE1.(contents := map[R1 := 10, R2 := 20], deps := {Edge(R2, R1)})

  lemma SecondAdmitted()
    ensures Admit(STATE1, NOTE, SECOND) == Some(ADMITTED)
  {
    var rows := set p | p in SECOND.parents :: Edge(R2, p);
    assert Edge(R2, R1) in rows;
    assert rows == {Edge(R2, R1)};
    assert STATE1.deps + rows == ADMITTED.deps;
    assert STATE1.contents[R2 := 20] == ADMITTED.contents;
  }

  lemma SecondPlaced()
    ensures Placed(ADMITTED, NOTE, [R2], Numbered(2), Incremental, IntegerOrder) == STATE2
  {
    RevisionReachesNext();
    assert Ids([R2]) == {R2};
    assert Current(ADMITTED, NOTE) == {R1};
    assert WithCurrent({R1}, NOTE, {R2}) == {R2};
    assert {R1} - {R2} == {R1};
    assert {R1, R2} - {R2} == {R1};
    assert ADMITTED.heads[NOTE := STATE2.heads[NOTE]] == STATE2.heads;
  }

  lemma SecondDelivery()
    ensures Step(STATE1, Delivery(SECOND, 2)) == STATE2
  {
    OneRecord(STATE1, SECOND);
    SecondAdmitted();
    SecondPlaced();
  }

  lemma FirstAdmittedAgain()
    ensures Admit(STATE2, NOTE, FIRST) == Some(STATE2)
  {
    NoParentRows(R1, STATE2.deps);
    assert STATE2.contents[R1 := 10] == STATE2.contents;
  }

  lemma FirstPlacedAgain()
    ensures Placed(STATE2, NOTE, [R1], Numbered(1), Incremental, IntegerOrder) == STATE2.(hidden := {R1, R2})
  {
    RevisionReachesNext();
    assert Ids([R1]) == {R1};
    assert Current(STATE2, NOTE) == {R2};
    assert {R1} - {R2} == {R1};
  }

  lemma Redelivery()
    ensures Step(STATE2, Delivery(FIRST, 1)) == STATE2.(hidden := {R1, R2})
  {
    OneRecord(STATE2, FIRST);
    FirstAdmittedAgain();
    FirstPlacedAgain();
  }

  lemma Then(s: Archive, a: Action, middle: Archive, rest: seq<Action>, u: Archive)
    requires Enabled(s, a) && Step(s, a) == middle && IsRun(middle, rest) && After(middle, rest) == u
    ensures IsRun(s, [a] + rest) && After(s, [a] + rest) == u
  {
    assert ([a] + rest)[1..] == rest;
  }

  const REDELIVERED := [Delivery(FIRST, 1)] + ([Delivery(SECOND, 2)] + ([Delivery(FIRST, 1)] + []))

  /**
   The second revision names the first as its parent; the first is delivered
   again and counts as history, and its retirement takes the current revision
   along: the head is live and nothing of the item is visible.
   */
  lemma RedeliveryHidesDerivedHead()
    ensures IsRun(EMPTY, REDELIVERED)
    ensures
      var t := After(EMPTY, REDELIVERED);
      && NOTE in t.heads && t.heads[NOTE].live
      && Due(t, NOTE) == {R2} && Visible(t, NOTE) == {}
  {
    FirstDelivery();
    SecondDelivery();
    Redelivery();
    var u := STATE2.(hidden := {R1, R2});
    Then(STATE2, Delivery(FIRST, 1), u, [], u);
    Then(STATE1, Delivery(SECOND, 2), STATE2, [Delivery(FIRST, 1)] + [], u);
    Then(EMPTY, Delivery(FIRST, 1), STATE1, [Delivery(SECOND, 2)] + ([Delivery(FIRST, 1)] + []), u);
    assert Current(u, NOTE) == {R2} && Visible(u, NOTE) == {};
  }
}
