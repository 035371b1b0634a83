/**
 The head rule of a source connection: which revision of an item is current,
 and which of its records are therefore visible.
 */
module SourceHeads {
  import opened Wrappers
  import opened Dependencies

  /** A connection writes only into its own namespace; everything else is foreign to it. */
  datatype ItemId = Own(id: nat) | Foreign(id: nat)
  datatype RecordId = RecordId(item: ItemId, revision: nat)

  /** A provider's version token, with what it parses to. */
  datatype Version = Version(token: nat, integer: Option<int>, moment: Option<int>)
  datatype VersionOrder = IntegerOrder | TimestampOrder | OpaqueOrder
  datatype Role = Backfill | Incremental | Reconciling

  /** The record is absent for an item first seen as removed. */
  datatype Head = Head(record: Option<RecordId>, version: Option<Version>, role: Role, live: bool)

  datatype Observed = Observed(revision: nat, content: nat, parents: set<RecordId>)

  datatype Operation =
    | Upsert(item: ItemId, records: seq<Observed>, version: Option<Version>)
    | Remove(item: ItemId, version: Option<Version>)
    | Restore(item: ItemId, version: Option<Version>)
    | Skip(item: ItemId)

  datatype Verdict = Applied | Suppressed | HistoryOnly | Skipped

  datatype Archive = Archive(
    contents: map<RecordId, nat>, deleted: set<RecordId>, blocked: set<ItemId>, hidden: set<RecordId>,
    deps: set<Edge<RecordId>>, heads: map<ItemId, Head>, current: set<RecordId>, mirror: bool)

  function Rank(role: Role): nat {
    if role == Backfill then 1 else 2
  }

  /** May the candidate move the head? */
  predicate Newer(version: Option<Version>, role: Role, head: Head, order: VersionOrder) {
    if version.None? || head.version.None? then Rank(role) >= Rank(head.role)
    else
      var mine, held := version.value, head.version.value;
      match order
      case IntegerOrder => mine.integer.Some? && held.integer.Some? && mine.integer.value >= held.integer.value
      case TimestampOrder => mine.moment.Some? && held.moment.Some? && mine.moment.value >= held.moment.value
      case OpaqueOrder => mine.token == held.token || Rank(role) >= Rank(head.role)
  }

  function Or(version: Option<Version>, held: Option<Version>): Option<Version> {
    if version.Some? then version else held
  }

  /** The item's current records: its rows, or its head's record for want of rows. */
  function Current(s: Archive, item: ItemId): set<RecordId> {
    var rows := set r | r in s.current && r.item == item;
    if rows != {} then rows
    else if item in s.heads && s.heads[item].record.Some? then {s.heads[item].record.value}
    else {}
  }

  // ---- ingesting the records of an upsert ---------------------------------

  predicate Tombstoned(s: Archive, r: RecordId) {
    r in s.deleted || r.item in s.blocked
  }

  /** One record: suppressed, refused, a duplicate, or new; its parents must be live. */
  function Admit(s: Archive, item: ItemId, o: Observed): Option<Archive> {
    var r := RecordId(item, o.revision);
    if Tombstoned(s, r) then Some(s)
    else if r in s.contents && s.contents[r] != o.content then None
    else
      var t := s.(contents := s.contents[r := o.content]);
      if exists p :: p in o.parents && (p !in t.contents || p in t.deleted) then None
      else Some(t.(deps := t.deps + (set p | p in o.parents :: Edge(r, p))))
  }

  function Admitted(s: Archive, item: ItemId, records: seq<Observed>): Option<Archive> {
    if records == [] then Some(s)
    else
      var before := Admitted(s, item, records[..|records| - 1]);
      if before.None? then None else Admit(before.value, item, records[|records| - 1])
  }

  /** The records that were not suppressed, in order. */
  function Kept(s: Archive, item: ItemId, records: seq<Observed>): seq<RecordId> {
    if records == [] then []
    else
      var before := Kept(s, item, records[..|records| - 1]);
      var r := RecordId(item, records[|records| - 1].revision);
      if Tombstoned(s, r) then before else before + [r]
  }

  function Ids(ids: seq<RecordId>): set<RecordId> {
    set r | r in ids
  }

  // ---- the operations -----------------------------------------------------

  predicate Accepts(s: Archive, item: ItemId, version: Option<Version>, role: Role, order: VersionOrder) {
    item !in s.heads ||
    (Newer(version, role, s.heads[item], order) && !(!s.heads[item].live && role == Backfill))
  }

  function WithCurrent(current: set<RecordId>, item: ItemId, ids: set<RecordId>): set<RecordId> {
    (set r | r in current && r.item != item) + ids
  }

  function Accepted(
      t: Archive, item: ItemId, kept: seq<RecordId>, before: set<RecordId>, version: Option<Version>, role: Role): Archive
    requires kept != []
  {
    var ids := Ids(kept);
    t.(hidden := t.hidden + Closure(t.deps, before - ids) - ids,
       current := WithCurrent(t.current, item, ids),
       heads := t.heads[item := Head(Some(kept[|kept| - 1]), version, role, true)])
  }

  /** The head rule, once the content is in. */
  function Placed(t: Archive, item: ItemId, kept: seq<RecordId>, version: Option<Version>, role: Role, order: VersionOrder): Archive
    requires kept != []
  {
    if Accepts(t, item, version, role, order) then Accepted(t, item, kept, Current(t, item), version, role)
    else t.(hidden := t.hidden + Closure(t.deps, Ids(kept) - Current(t, item)))
  }

  function Upserted(
      s: Archive, item: ItemId, records: seq<Observed>, version: Option<Version>, role: Role, order: VersionOrder): Option<Archive> {
    var admitted := Admitted(s, item, records);
    var kept := Kept(s, item, records);
    if admitted.None? || kept == [] then admitted else Some(Placed(admitted.value, item, kept, version, role, order))
  }

  /** Same state again: only the version may move. */
  function Advanced(s: Archive, item: ItemId, version: Option<Version>, role: Role, order: VersionOrder): Archive
    requires item in s.heads
  {
    var head := s.heads[item];
    if Newer(version, role, head, order)
    then s.(heads := s.heads[item := head.(version := Or(version, head.version), role := role)]) else s
  }

  function Removed(s: Archive, item: ItemId, version: Option<Version>, role: Role, order: VersionOrder): Archive {
    if item !in s.heads then s.(heads := s.heads[item := Head(None, version, role, false)])
    else
      var head := s.heads[item];
      if !head.live then Advanced(s, item, version, role, order)
      else if !Newer(version, role, head, order) then s
      else
        s.(heads := s.heads[item := Head(head.record, Or(version, head.version), role, false)],
           hidden := if s.mirror then s.hidden + Closure(s.deps, Current(s, item)) else s.hidden)
  }

  function Restored(s: Archive, item: ItemId, version: Option<Version>, role: Role, order: VersionOrder): Option<Archive> {
    if item !in s.heads then Some(s)
    else
      var head := s.heads[item];
      if head.live then Some(Advanced(s, item, version, role, order))
      else if !Newer(version, role, head, order) then Some(s)
      else if head.record.None? then None
      else
        Some(s.(heads := s.heads[item := Head(head.record, Or(version, head.version), role, true)],
                hidden := if s.mirror then s.hidden - Current(s, item) else s.hidden))
  }

  /** One operation; no value when it raises and its page is rolled back, as for an item of another namespace. */
  function Operated(s: Archive, op: Operation, role: Role, order: VersionOrder): Option<Archive> {
    if op.item.Foreign? then None else
    match op
    case Upsert(item, records, version) => Upserted(s, item, records, version, role, order)
    case Remove(item, version) => Some(Removed(s, item, version, role, order))
    case Restore(item, version) => Restored(s, item, version, role, order)
    case Skip(_) => Some(s)
  }

  function VerdictOf(s: Archive, op: Operation, role: Role, order: VersionOrder): Verdict {
    match op
    case Upsert(item, records, version) =>
      if Kept(s, item, records) == [] then Suppressed
      else if Accepts(s, item, version, role, order) then Applied else HistoryOnly
    case Remove(item, version) =>
      if item !in s.heads then Applied
      else if !s.heads[item].live then Skipped
      else if Newer(version, role, s.heads[item], order) then Applied else HistoryOnly
    case Restore(item, version) =>
      if item !in s.heads then Applied
      else if s.heads[item].live then Skipped
      else if Newer(version, role, s.heads[item], order) then Applied else HistoryOnly
    case Skip(_) => Skipped
  }

  // ---- the archive object -------------------------------------------------

  class ItemSync {
    var contents: map<RecordId, nat>
    var deleted: set<RecordId>
    var blocked: set<ItemId>
    var hidden: set<RecordId>
    var deps: set<Edge<RecordId>>
    var heads: map<ItemId, Head>
    var current: set<RecordId>
    const mirror: bool

    ghost function State(): Archive
      reads this
    {
      Archive(contents, deleted, blocked, hidden, deps, heads, current, mirror)
    }

    constructor (s: Archive)
      ensures State() == s
    {
      contents, deleted, blocked, hidden, deps := s.contents, s.deleted, s.blocked, s.hidden, s.deps;
      heads, current, mirror := s.heads, s.current, s.mirror;
    }

    /** A record row with its dependency rows; false when the source's rules refuse it. */
    method IngestRecord(item: ItemId, o: Observed) returns (ok: bool)
      requires !Tombstoned(State(), RecordId(item, o.revision))
      modifies this`contents, this`deps
      ensures ok <==> Admit(old(State()), item, o).Some?
      ensures ok ==> State() == Admit(old(State()), item, o).value
      ensures
        var r := RecordId(item, o.revision);
        && (ok <==> (r in old(contents) ==> old(contents)[r] == o.content)
                    && forall p :: p in o.parents ==> p !in deleted && (p in old(contents) || p == r))
        && (ok ==> contents == old(contents)[r := o.content]
                   && forall d :: d in deps <==> d in old(deps) || (d.child == r && d.parent in o.parents))
    {
      var r := RecordId(item, o.revision);
      if r in contents && contents[r] != o.content {
        return false;
      }
      contents := contents[r := o.content];
      var parents := o.parents;
      ghost var before := deps;
      while parents != {}
        invariant parents <= o.parents && contents == old(contents)[r := o.content]
        invariant forall p :: p in o.parents - parents ==> p in contents && p !in deleted
        invariant deps == before + (set p | p in o.parents - parents :: Edge(r, p))
      {
        var p :| p in parents;
        if p !in contents || p in deleted {
          return false;
        }
        deps := deps + {Edge(r, p)};
        assert o.parents - (parents - {p}) == (o.parents - parents) + {p};
        parents := parents - {p};
      }
      assert o.parents - parents == o.parents;
      return true;
    }

    /** The first loop of an upsert: suppress or ingest each record, in order. */
    method IngestAll(item: ItemId, records: seq<Observed>) returns (ok: bool, ids: seq<RecordId>)
      modifies this`contents, this`deps
      ensures ok <==> Admitted(old(State()), item, records).Some?
      ensures ok ==> State() == Admitted(old(State()), item, records).value && ids == Kept(old(State()), item, records)
    {
      ghost var s := State();
      ids := [];
      for i := 0 to |records|
        invariant deleted == s.deleted && blocked == s.blocked && hidden == s.hidden && heads == s.heads && current == s.current
        invariant Admitted(s, item, records[..i]) == Some(State())
        invariant ids == Kept(s, item, records[..i])
      {
        assert records[..i + 1][..i] == records[..i];
        var r := RecordId(item, records[i].revision);
        if r in deleted || r.item in blocked {
          continue;
        }
        var admitted := IngestRecord(item, records[i]);
        if !admitted {
          RefusedStaysRefused(s, item, records, i + 1);
          return false, ids;
        }
        ids := ids + [r];
      }
      assert records[..|records|] == records;
      return true, ids;
    }

    /** Hide the records and everything derived from them, one retirement at a time. */
    method RetireAll(roots: set<RecordId>)
      modifies this`hidden
      ensures hidden == old(hidden) + Closure(deps, roots)
    {
      var left := roots;
      ClosureOfNothing(deps);
      while left != {}
        invariant left <= roots
        invariant hidden == old(hidden) + Closure(deps, roots - left)
      {
        var r :| r in left;
        ClosureOfUnion(deps, roots - left, {r});
        assert roots - (left - {r}) == roots - left + {r};
        hidden := hidden + Closure(deps, {r});
        left := left - {r};
      }
      assert roots - left == roots;
    }

    /** The accepted upsert: its records replace the current ones. */
    method MoveHead(item: ItemId, kept: seq<RecordId>, before: set<RecordId>, version: Option<Version>, role: Role)
      requires kept != []
      modifies this`hidden, this`heads, this`current
      ensures State() == Accepted(old(State()), item, kept, before, version, role)
    {
      var ids := Ids(kept);
      RetireAll(before - ids);
      hidden := hidden - ids;
      current := (set r | r in current && r.item != item) + ids;
      heads := heads[item := Head(Some(kept[|kept| - 1]), version, role, true)];
    }

    method PlaceItem(
        item: ItemId, kept: seq<RecordId>, version: Option<Version>, role: Role, order: VersionOrder) returns (accepted: bool)
      requires kept != []
      modifies this`hidden, this`heads, this`current
      ensures State() == Placed(old(State()), item, kept, version, role, order)
      ensures accepted == Accepts(old(State()), item, version, role, order)
    {
      var before := CurrentOf(item);
      accepted := item !in heads || Newer(version, role, heads[item], order);
      if item in heads && !heads[item].live && role == Backfill {
        accepted := false;
      }
      if accepted {
        MoveHead(item, kept, before, version, role);
      } else {
        RetireAll(Ids(kept) - before);
      }
    }

    /** Upsert and metadata update: content commits first, visibility follows the head rule. */
    method UpsertItem(item: ItemId, records: seq<Observed>, version: Option<Version>, role: Role, order: VersionOrder)
      returns (ok: bool, verdict: Verdict)
      modifies this`contents, this`deps, this`hidden, this`heads, this`current
      ensures ok <==> Upserted(old(State()), item, records, version, role, order).Some?
      ensures ok ==> State() == Upserted(old(State()), item, records, version, role, order).value
      ensures ok ==> verdict == VerdictOf(old(State()), Upsert(item, records, version), role, order)
    {
      ghost var s := State();
      var admitted, kept := IngestAll(item, records);
      if !admitted || kept == [] {
        return admitted, Suppressed;
      }
      AdmittedFrame(s, item, records);
      var accepted := PlaceItem(item, kept, version, role, order);
      return true, if accepted then Applied else HistoryOnly;
    }

    method CurrentOf(item: ItemId) returns (ids: set<RecordId>)
      ensures ids == Current(State(), item)
    {
      ids := set r | r in current && r.item == item;
      if ids == {} && item in heads && heads[item].record.Some? {
        ids := {heads[item].record.value};
      }
    }

    /** An unchanged state can still carry a newer provider version. */
    method AdvanceVersion(item: ItemId, version: Option<Version>, role: Role, order: VersionOrder)
      requires item in heads
      modifies this`heads
      ensures State() == Advanced(old(State()), item, version, role, order)
    {
      var head := heads[item];
      if Newer(version, role, head, order) {
        heads := heads[item := head.(version := if version.Some? then version else head.version, role := role)];
      }
    }

    method SetHead(item: ItemId, version: Option<Version>, role: Role, live: bool)
      requires item in heads
      modifies this`hidden, this`heads
      ensures
        var s, head := old(State()), old(heads)[item];
        State() == s.(heads := s.heads[item := Head(head.record, Or(version, head.version), role, live)],
                      hidden := if !mirror then s.hidden
                                else if live then s.hidden - Current(s, item)
                                else s.hidden + Closure(s.deps, Current(s, item)))
    {
      var head := heads[item];
      var affected := CurrentOf(item);
      heads := heads[item := Head(head.record, if version.Some? then version else head.version, role, live)];
      if mirror {
        if live {
          hidden := hidden - affected;
        } else {
          RetireAll(affected);
        }
      }
    }

    method RemoveItem(item: ItemId, version: Option<Version>, role: Role, order: VersionOrder) returns (verdict: Verdict)
      modifies this`hidden, this`heads
      ensures State() == Removed(old(State()), item, version, role, order)
      ensures verdict == VerdictOf(old(State()), Remove(item, version), role, order)
    {
      if item in heads && !heads[item].live {
        AdvanceVersion(item, version, role, order);
        return Skipped;
      }
      if item !in heads {
        heads := heads[item := Head(None, version, role, false)];
        return Applied;
      }
      if !Newer(version, role, heads[item], order) {
        return HistoryOnly;
      }
      SetHead(item, version, role, false);
      return Applied;
    }

    method RestoreItem(item: ItemId, version: Option<Version>, role: Role, order: VersionOrder) returns (ok: bool, verdict: Verdict)
      modifies this`hidden, this`heads
      ensures ok <==> Restored(old(State()), item, version, role, order).Some?
      ensures ok ==> State() == Restored(old(State()), item, version, role, order).value
      ensures ok ==> verdict == VerdictOf(old(State()), Restore(item, version), role, order)
    {
      if item in heads && heads[item].live {
        AdvanceVersion(item, version, role, order);
        return true, Skipped;
      }
      if item !in heads {
        return true, Applied;
      }
      if !Newer(version, role, heads[item], order) {
        return true, HistoryOnly;
      }
      if heads[item].record.None? {
        return false, Applied;
      }
      SetHead(item, version, role, true);
      return true, Applied;
    }

    /** One operation of a page; a refusal rolls the page back. */
    method ApplyOperation(op: Operation, role: Role, order: VersionOrder) returns (ok: bool, verdict: Verdict)
      modifies this`contents, this`deps, this`hidden, this`heads, this`current
      ensures ok <==> Operated(old(State()), op, role, order).Some?
      ensures ok ==> State() == Operated(old(State()), op, role, order).value
      ensures ok ==> verdict == VerdictOf(old(State()), op, role, order)
    {
      if op.item.Foreign? {
        return false, Skipped;
      }
      match op
      case Skip(_) =>
        return true, Skipped;
      case Remove(item, version) =>
        verdict := RemoveItem(item, version, role, order);
        return true, verdict;
      case Restore(item, version) =>
        ok, verdict := RestoreItem(item, version, role, order);
      case Upsert(item, records, version) =>
        ok, verdict := UpsertItem(item, records, version, role, order);
    }
  }

  /** Ingesting adds records and dependency rows, and touches nothing else. */
  predicate SameHeads(s: Archive, t: Archive) {
    && t == s.(contents := t.contents, deps := t.deps)
    && s.contents.Keys <= t.contents.Keys && s.deps <= t.deps
  }

  lemma {:induction false} AdmittedFrame(s: Archive, item: ItemId, records: seq<Observed>)
    requires Admitted(s, item, records).Some?
    ensures SameHeads(s, Admitted(s, item, records).value)
    ensures Admitted(s, item, records).value.contents.Keys == s.contents.Keys + Ids(Kept(s, item, records))
  {
    if records != [] {
      AdmittedFrame(s, item, records[..|records| - 1]);
    }
  }

  // ---- facts about the loops ----------------------------------------------

  lemma {:induction false} RefusedStaysRefused(s: Archive, item: ItemId, records: seq<Observed>, n: nat)
    requires n <= |records| && Admitted(s, item, records[..n]).None?
    ensures Admitted(s, item, records).None?
  {
    if n == |records| {
      assert records[..n] == records;
    } else {
      assert records[..|records| - 1][..n] == records[..n];
      RefusedStaysRefused(s, item, records[..|records| - 1], n);
    }
  }
}
