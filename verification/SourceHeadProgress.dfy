/**
 Which delivery may move a head, seen from outside: by a declared order the
 head's number never falls, and without one live roles stand before backfill.
 */
module SourceHeadProgress {
  import opened Wrappers
  import opened Dependencies
  import opened SourceHeads
  import opened SourceHeadRuns

  /** What the declared order compares: the token's number, or its moment. */
  function NumberOf(version: Option<Version>, order: VersionOrder): Option<int> {
    match order
    case IntegerOrder => if version.Some? then version.value.integer else None
    case TimestampOrder => if version.Some? then version.value.moment else None
    case OpaqueOrder => None
  }

  function HeadNumber(s: Archive, item: ItemId, order: VersionOrder): Option<int> {
    if item in s.heads then NumberOf(s.heads[item].version, order) else None
  }

  /** Pages about the item come from a stream of this order. */
  predicate FollowsOrder(a: Action, item: ItemId, order: VersionOrder) {
    a.Apply? && a.op.item == item ==> a.order == order
  }

  // ---- declared orders ----------------------------------------------------

  lemma StepNeverFalls(s: Archive, a: Action, item: ItemId, order: VersionOrder)
    requires Enabled(s, a) && FollowsOrder(a, item, order)
    requires HeadNumber(s, item, order).Some? && HeadNumber(Step(s, a), item, order).Some?
    ensures HeadNumber(s, item, order).value <= HeadNumber(Step(s, a), item, order).value
  {
    if a.Apply? && a.op.Upsert? && Admitted(s, a.op.item, a.op.records).Some? {
      AdmittedFrame(s, a.op.item, a.op.records);
    }
  }

  ghost predicate IsNumberedThroughout(s: Archive, actions: seq<Action>, item: ItemId, order: VersionOrder)
    requires IsRun(s, actions)
    decreases |actions|
  {
    HeadNumber(s, item, order).Some? &&
    (actions == [] || IsNumberedThroughout(Step(s, actions[0]), actions[1..], item, order))
  }

  /** Over any run of an ordered stream the head's number, or moment, never falls while it has one. */
  lemma {:induction false} NumberNeverFalls(s: Archive, actions: seq<Action>, item: ItemId, order: VersionOrder)
    requires IsRun(s, actions) && IsNumberedThroughout(s, actions, item, order)
    requires forall i :: 0 <= i < |actions| ==> FollowsOrder(actions[i], item, order)
    ensures HeadNumber(After(s, actions), item, order).Some?
    ensures HeadNumber(s, item, order).value <= HeadNumber(After(s, actions), item, order).value
    decreases |actions|
  {
    if actions != [] {
      StepNeverFalls(s, actions[0], item, order);
      assert forall i :: 0 <= i < |actions| - 1 ==> actions[1..][i] == actions[i + 1];
      NumberNeverFalls(Step(s, actions[0]), actions[1..], item, order);
    }
  }

  /** The head loses its number only to content delivered without a version, by a role of its rank. */
  lemma NumberIsLostTo(s: Archive, a: Action, item: ItemId, order: VersionOrder)
    requires Enabled(s, a) && FollowsOrder(a, item, order)
    requires HeadNumber(s, item, order).Some? && HeadNumber(Step(s, a), item, order).None?
    ensures a.Apply? && a.op.Upsert? && a.op.item == item && a.op.version.None?
    ensures a.role != Backfill || s.heads[item].role == Backfill
  {
    if a.Apply? && a.op.Upsert? && Admitted(s, a.op.item, a.op.records).Some? {
      AdmittedFrame(s, a.op.item, a.op.records);
    }
  }

  /** A delivery that carries a larger number moves the head to it; an older one leaves the head alone. */
  lemma LargerNumberMoves(s: Archive, a: Action, item: ItemId, order: VersionOrder)
    requires Enabled(s, a) && a.Apply? && a.op.item == item && a.order == order && a.role != Backfill
    requires !a.op.Skip?
    requires Operated(s, a.op, a.role, a.order).Some? && (a.op.Upsert? ==> Kept(s, item, a.op.records) != [])
    requires HeadNumber(s, item, order).Some? && NumberOf(a.op.version, order).Some?
    ensures
      var t := Step(s, a);
      if HeadNumber(s, item, order).value <= NumberOf(a.op.version, order).value
      then item in t.heads && t.heads[item].version == a.op.version && t.heads[item].role == a.role && t.heads[item].live == !a.op.Remove?
      else item in t.heads && t.heads[item] == s.heads[item]
  {
    if a.op.Upsert? {
      AdmittedFrame(s, item, a.op.records);
    }
  }

  // ---- no declared order, or no version -----------------------------------

  /** No order says which is newer: the stream has none, or one of the two has no version; and the tokens differ. */
  predicate IsIncomparable(head: Head, version: Option<Version>, order: VersionOrder) {
    version.None? || head.version.None? || (order == OpaqueOrder && version.value.token != head.version.value.token)
  }

  predicate HasVersion(op: Operation) {
    !op.Skip?
  }

  /** A backfill page with another token, or with none, or over a head with none. */
  predicate IsStrayBackfill(s: Archive, a: Action, item: ItemId) {
    a.Apply? && a.op.item == item && item in s.heads ==>
      a.role == Backfill && (HasVersion(a.op) ==> IsIncomparable(s.heads[item], a.op.version, a.order))
  }

  lemma LiveHeadStands(s: Archive, a: Action, item: ItemId)
    requires Enabled(s, a) && item in s.heads && s.heads[item].role != Backfill && IsStrayBackfill(s, a, item)
    ensures item in Step(s, a).heads && Step(s, a).heads[item] == s.heads[item]
  {
    if a.Apply? && a.op.Upsert? && Admitted(s, a.op.item, a.op.records).Some? {
      AdmittedFrame(s, a.op.item, a.op.records);
    }
  }

  ghost predicate OnlyStrayBackfill(s: Archive, actions: seq<Action>, item: ItemId)
    requires IsRun(s, actions)
    decreases |actions|
  {
    actions == [] || (IsStrayBackfill(s, actions[0], item) && OnlyStrayBackfill(Step(s, actions[0]), actions[1..], item))
  }

  /** Over any run: what a live role delivered is never displaced by a backfill that no order puts after it. */
  lemma {:induction false} LiveHeadIsNeverDisplaced(s: Archive, actions: seq<Action>, item: ItemId)
    requires IsRun(s, actions) && item in s.heads && s.heads[item].role != Backfill && OnlyStrayBackfill(s, actions, item)
    ensures item in After(s, actions).heads && After(s, actions).heads[item] == s.heads[item]
    decreases |actions|
  {
    if actions != [] {
      LiveHeadStands(s, actions[0], item);
      LiveHeadIsNeverDisplaced(Step(s, actions[0]), actions[1..], item);
    }
  }

  /** Conversely a live role is always heard: without an order its delivery decides the head. */
  lemma LiveRoleDecides(s: Archive, a: Action, item: ItemId)
    requires Enabled(s, a) && a.Apply? && a.op.item == item && a.role != Backfill && (a.op.Upsert? || a.op.Remove?)
    requires Operated(s, a.op, a.role, a.order).Some? && (a.op.Upsert? ==> Kept(s, item, a.op.records) != [])
    requires item in s.heads ==>
               a.order == OpaqueOrder || a.op.version.None? || s.heads[item].version.None?
    ensures
      var t := Step(s, a);
      && item in t.heads && t.heads[item].role == a.role && t.heads[item].live == a.op.Upsert?
      && (a.op.version.Some? || a.op.Upsert? ==> t.heads[item].version == a.op.version)
  {
    if a.op.Upsert? {
      AdmittedFrame(s, item, a.op.records);
    }
  }

  /** A removed item is not brought back by the content of a backfill, whatever its version. */
  lemma BackfillNeverRevives(s: Archive, a: Action, item: ItemId)
    requires Enabled(s, a) && item in s.heads && !s.heads[item].live
    requires a.Apply? && a.op.Upsert? && a.role == Backfill
    ensures item in Step(s, a).heads && !Step(s, a).heads[item].live && Step(s, a).heads[item] == s.heads[item]
  {
    if Admitted(s, a.op.item, a.op.records).Some? {
      AdmittedFrame(s, a.op.item, a.op.records);
    }
  }

  /** The reported verdict is what happened to the head. */
  lemma VerdictIsWhatHappened(s: Archive, a: Action, item: ItemId)
    requires Enabled(s, a) && a.Apply? && a.op.item == item && Operated(s, a.op, a.role, a.order).Some?
    ensures
      var t, verdict := Step(s, a), VerdictOf(s, a.op, a.role, a.order);
      && (verdict == HistoryOnly || verdict == Suppressed ==> t.heads == s.heads)
      && (verdict == Applied && (a.op.Upsert? || a.op.Remove?) ==>
            item in t.heads && t.heads[item].live == a.op.Upsert? && t.heads[item].role == a.role)
      && (verdict == Skipped && item in s.heads ==>
            item in t.heads && t.heads[item].live == s.heads[item].live && t.heads[item].record == s.heads[item].record)
  {
    if a.op.Upsert? {
      AdmittedFrame(s, item, a.op.records);
    }
  }

  // ---- what an upsert makes of the item -----------------------------------

  /** Neither the record nor its item was forgotten. */
  predicate IsStorable(s: Archive, item: ItemId, o: Observed) {
    RecordId(item, o.revision) !in s.deleted && item !in s.blocked
  }

  predicate IsStored(s: Archive, item: ItemId, records: seq<Observed>, r: RecordId) {
    exists i :: 0 <= i < |records| && IsStorable(s, item, records[i]) && r == RecordId(item, records[i].revision)
  }

  /** The last record of the page that may be stored. */
  predicate IsLastStored(s: Archive, item: ItemId, records: seq<Observed>, i: nat) {
    i < |records| && IsStorable(s, item, records[i]) && forall j :: i < j < |records| ==> !IsStorable(s, item, records[j])
  }

  /** The head is the page's last record, and the item's current records are the page's. */
  ghost predicate TakesHead(s: Archive, t: Archive, item: ItemId, records: seq<Observed>, version: Option<Version>, role: Role) {
    && (exists i: nat :: IsLastStored(s, item, records, i)
          && t.heads == s.heads[item := Head(Some(RecordId(item, records[i].revision)), version, role, true)])
    && forall r :: r in t.current <==> if r.item == item then IsStored(s, item, records, r) else r in s.current
  }

  lemma {:induction false} KeptIsStored(s: Archive, item: ItemId, records: seq<Observed>)
    ensures forall r :: r in Kept(s, item, records) <==> IsStored(s, item, records, r)
    ensures Kept(s, item, records) != [] ==>
              exists i: nat :: IsLastStored(s, item, records, i) && RecordId(item, records[i].revision) == LastKept(s, item, records)
  {
    if records != [] {
      var n := |records| - 1;
      KeptIsStored(s, item, records[..n]);
      forall r ensures r in Kept(s, item, records) <==> IsStored(s, item, records, r) {
        if IsStored(s, item, records[..n], r) {
          var i :| 0 <= i < n && IsStorable(s, item, records[i]) && r == RecordId(item, records[i].revision);
          assert IsStored(s, item, records, r);
        }
        if IsStored(s, item, records, r) {
          var i :| 0 <= i < |records| && IsStorable(s, item, records[i]) && r == RecordId(item, records[i].revision);
          assert i < n ==> records[..n][i] == records[i];
        }
      }
      if IsStorable(s, item, records[n]) {
        assert IsLastStored(s, item, records, n);
      } else if Kept(s, item, records) != [] {
        var i: nat :| IsLastStored(s, item, records[..n], i) && RecordId(item, records[..n][i].revision) == LastKept(s, item, records[..n]);
        assert IsLastStored(s, item, records, i);
      }
    }
  }

  function LastKept(s: Archive, item: ItemId, records: seq<Observed>): RecordId
    requires Kept(s, item, records) != []
  {
    var kept := Kept(s, item, records);
    kept[|kept| - 1]
  }

  /** An applied upsert makes its last record the head and its records current; any other leaves heads and current records alone. */
  lemma AppliedTakesHead(
      s: Archive, item: ItemId, records: seq<Observed>, version: Option<Version>, role: Role, order: VersionOrder)
    requires Upserted(s, item, records, version, role, order).Some?
    ensures
      var t := Upserted(s, item, records, version, role, order).value;
      match VerdictOf(s, Upsert(item, records, version), role, order)
      case Applied => TakesHead(s, t, item, records, version, role)
      case _ => t.heads == s.heads && t.current == s.current
  {
    AdmittedFrame(s, item, records);
    KeptIsStored(s, item, records);
  }
}
