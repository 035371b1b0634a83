/**
 Delivery order: live pages about one item may arrive in any order.  The largest
 provider version decides the head; what stays visible of it is what no older
 revision, delivered later as history, takes along with its descendants.
 */
module SourceHeadOrder {
  import opened Wrappers
  import opened Dependencies
  import opened SourceHeads
  import opened SourceHeadRuns
  import opened SourceHeadProgress

  /** An upsert or a removal of the item, by a live role, with a number or a moment that its stream's order compares. */
  predicate IsLiveDelivery(a: Action, item: ItemId) {
    && a.Apply? && a.role != Backfill && a.op.item == item
    && (a.op.Remove? || a.op.Upsert?)
    && NumberOf(a.op.version, a.order).Some?
  }

  predicate AreLiveDeliveries(ds: seq<Action>, item: ItemId) {
    forall i :: 0 <= i < |ds| ==> IsLiveDelivery(ds[i], item)
  }

  function VersionOf(a: Action): int
    requires a.Apply? && (a.op.Upsert? || a.op.Remove?) && NumberOf(a.op.version, a.order).Some?
  {
    NumberOf(a.op.version, a.order).value
  }

  /** One order, and no version twice. */
  predicate HaveDistinctVersions(ds: seq<Action>, item: ItemId)
    requires AreLiveDeliveries(ds, item)
  {
    forall i, j :: 0 <= i < j < |ds| ==> ds[i].order == ds[j].order && VersionOf(ds[i]) != VersionOf(ds[j])
  }

  /** They come in the order the item was delivered in so far, and none repeats the version it stands at. */
  predicate AreNewAfter(last: Option<Action>, ds: seq<Action>, item: ItemId)
    requires AreLiveDeliveries(ds, item) && (last.Some? ==> IsLiveDelivery(last.value, item))
  {
    last.Some? ==> forall i :: 0 <= i < |ds| ==> ds[i].order == last.value.order && VersionOf(ds[i]) != VersionOf(last.value)
  }

  /** What the delivery alone would leave visible; forgotten revisions are suppressed. */
  function Shows(s: Archive, a: Action): set<RecordId>
    requires a.Apply?
  {
    if a.op.Upsert? then Ids(Kept(s, a.op.item, a.op.records)) else {}
  }

  /** An upsert of which every record is suppressed does nothing. */
  predicate IsEffective(s: Archive, a: Action)
    requires a.Apply?
  {
    a.op.Upsert? ==> Kept(s, a.op.item, a.op.records) != []
  }

  /** The dependency rows the delivery adds. */
  function EdgesOf(s: Archive, a: Action): set<Edge<RecordId>>
    requires a.Apply?
  {
    if a.op.Upsert? then
      set o, p | o in a.op.records && p in o.parents && !Tombstoned(s, RecordId(a.op.item, o.revision)) ::
        Edge(RecordId(a.op.item, o.revision), p)
    else {}
  }

  /** No page about the item is refused along the way. */
  predicate AreAdmitted(s: Archive, ds: seq<Action>)
    requires forall i :: 0 <= i < |ds| ==> ds[i].Apply? && ds[i].op.item.Own?
    decreases |ds|
  {
    ds == [] || (Operated(s, ds[0].op, ds[0].role, ds[0].order).Some? && AreAdmitted(Step(s, ds[0]), ds[1..]))
  }

  // ---- the account of a sequence of deliveries ----------------------------

  /** The delivery the head stands at, what history has hidden since it moved, and the dependency rows so far. */
  datatype Account = Account(last: Option<Action>, lost: set<RecordId>, deps: set<Edge<RecordId>>)

  function ShownBy(s: Archive, last: Option<Action>): set<RecordId>
    requires last.Some? ==> last.value.Apply?
  {
    if last.Some? then Shows(s, last.value) else {}
  }

  /** One delivery: it moves the head, or it is history and hides what descends from its other revisions. */
  function Counted(s: Archive, acc: Account, a: Action, item: ItemId): Account
    requires IsLiveDelivery(a, item) && (acc.last.Some? ==> IsLiveDelivery(acc.last.value, item))
  {
    var deps := acc.deps + EdgesOf(s, a);
    if !IsEffective(s, a) then acc
    else if acc.last.None? || VersionOf(a) > VersionOf(acc.last.value) then Account(Some(a), {}, deps)
    else if a.op.Upsert? then Account(acc.last, acc.lost + Closure(deps, Shows(s, a) - ShownBy(s, acc.last)), deps)
    else acc
  }

  function CountedAll(s: Archive, acc: Account, ds: seq<Action>, item: ItemId): (all: Account)
    requires AreLiveDeliveries(ds, item) && (acc.last.Some? ==> IsLiveDelivery(acc.last.value, item))
    ensures all.last.Some? ==> IsLiveDelivery(all.last.value, item)
    decreases |ds|
  {
    if ds == [] then acc else CountedAll(s, Counted(s, acc, ds[0], item), ds[1..], item)
  }

  predicate SameTombstones(s: Archive, t: Archive) {
    t.deleted == s.deleted && t.blocked == s.blocked
  }

  /** The item stands where the account says; `base` is the archive whose tombstones are meant. */
  ghost predicate StandsAt(base: Archive, s: Archive, item: ItemId, acc: Account) {
    && s.mirror && item.Own? && SameTombstones(base, s) && CurrentAreStored(s, item) && s.deps == acc.deps
    && (item in s.heads <==> acc.last.Some?)
    && (acc.last.Some? ==>
          && IsLiveDelivery(acc.last.value, item) && IsEffective(base, acc.last.value)
          && s.heads[item].version == acc.last.value.op.version
          && s.heads[item].live == acc.last.value.op.Upsert?
          && (acc.last.value.op.Upsert? ==> Current(s, item) == Shows(base, acc.last.value)))
    && Visible(s, item) == ShownBy(base, acc.last) - acc.lost
  }

  /** An item never seen, or one that agrees with its head, stands at an account without losses. */
  lemma AgreeingItemStands(s: Archive, item: ItemId, last: Option<Action>)
    requires s.mirror && item.Own? && ItemAgrees(s, item) && (item in s.heads <==> last.Some?)
    requires last.Some? ==>
               && IsLiveDelivery(last.value, item) && IsEffective(s, last.value)
               && s.heads[item].version == last.value.op.version && s.heads[item].live == last.value.op.Upsert?
               && (last.value.op.Upsert? ==> Current(s, item) == Shows(s, last.value))
    ensures StandsAt(s, s, item, Account(last, {}, s.deps))
  {
    if last.Some? {
      KeptAreOwn(s, item, if last.value.op.Upsert? then last.value.op.records else []);
    }
  }

  // ---- what admission does ------------------------------------------------

  lemma {:induction false} SameKept(s: Archive, t: Archive, item: ItemId, records: seq<Observed>)
    requires SameTombstones(s, t)
    ensures Kept(t, item, records) == Kept(s, item, records)
  {
    if records != [] {
      SameKept(s, t, item, records[..|records| - 1]);
    }
  }

  function RowsOf(s: Archive, item: ItemId, records: seq<Observed>): set<Edge<RecordId>> {
    set o, p | o in records && p in o.parents && !Tombstoned(s, RecordId(item, o.revision)) :: Edge(RecordId(item, o.revision), p)
  }

  lemma RowsOfOneMore(s: Archive, item: ItemId, records: seq<Observed>)
    requires records != []
    ensures
      var o := records[|records| - 1];
      RowsOf(s, item, records) == RowsOf(s, item, records[..|records| - 1])
        + (if Tombstoned(s, RecordId(item, o.revision)) then {} else set p | p in o.parents :: Edge(RecordId(item, o.revision), p))
  {
    assert records == records[..|records| - 1] + [records[|records| - 1]];
  }

  lemma {:induction false} AdmittedRows(base: Archive, s: Archive, item: ItemId, records: seq<Observed>)
    requires SameTombstones(base, s) && Admitted(s, item, records).Some?
    ensures Admitted(s, item, records).value.deps == s.deps + RowsOf(base, item, records)
  {
    if records == [] {
      assert RowsOf(base, item, records) == {};
    } else {
      AdmittedRows(base, s, item, records[..|records| - 1]);
      AdmittedFrame(s, item, records[..|records| - 1]);
      RowsOfOneMore(base, item, records);
    }
  }

  /** An upsert of which nothing is kept adds no row either. */
  lemma {:induction false} SuppressedAddsNoRows(s: Archive, item: ItemId, records: seq<Observed>)
    requires Kept(s, item, records) == []
    ensures RowsOf(s, item, records) == {}
  {
    if records != [] {
      SuppressedAddsNoRows(s, item, records[..|records| - 1]);
      RowsOfOneMore(s, item, records);
    }
  }

  // ---- one delivery -------------------------------------------------------

  lemma HistoryVisible(s: Archive, t: Archive, item: ItemId, kept: seq<RecordId>)
    requires CurrentAreStored(s, item) && SameHeads(s, t) && t.contents.Keys == s.contents.Keys + Ids(kept)
    ensures
      var gone := Closure(t.deps, Ids(kept) - Current(s, item));
      var u := t.(hidden := t.hidden + gone);
      Visible(u, item) == Visible(s, item) - gone && Current(u, item) == Current(s, item) && CurrentAreStored(u, item)
  {
    var gone := Closure(t.deps, Ids(kept) - Current(s, item));
    var u := t.(hidden := t.hidden + gone);
    SameRows(s, u, item);
    forall r | r in Visible(u, item) ensures r in Visible(s, item) {
      assert r !in s.contents ==> r in Ids(kept) - Current(s, item);
    }
  }

  lemma AcceptedStands(base: Archive, s: Archive, a: Action, item: ItemId, acc: Account)
    requires StandsAt(base, s, item, acc) && IsLiveDelivery(a, item) && a.op.Upsert? && IsEffective(base, a)
    requires Operated(s, a.op, a.role, a.order).Some? && Accepts(s, item, a.op.version, a.role, a.order)
    ensures StandsAt(base, Step(s, a), item, Account(Some(a), {}, acc.deps + EdgesOf(base, a)))
  {
    var records := a.op.records;
    SameKept(base, s, item, records);
    AdmittedFrame(s, item, records);
    AdmittedRows(base, s, item, records);
    KeptAreOwn(s, item, records);
    var t, kept := Admitted(s, item, records).value, Kept(s, item, records);
    assert EdgesOf(base, a) == RowsOf(base, item, records);
    KeptAreOwn(base, item, if acc.last.Some? && acc.last.value.op.Upsert? then acc.last.value.op.records else []);
    assert Visible(s, item) <= Due(s, item);
    AcceptedOwn(s, t, item, kept, a.op.version, a.role);
    var rows := set r | r in Step(s, a).current && r.item == item;
    assert rows == Ids(kept) && kept[0] in rows;
  }

  lemma HistoryStands(base: Archive, s: Archive, a: Action, item: ItemId, acc: Account)
    requires StandsAt(base, s, item, acc) && IsLiveDelivery(a, item) && a.op.Upsert? && IsEffective(base, a)
    requires Operated(s, a.op, a.role, a.order).Some? && !Accepts(s, item, a.op.version, a.role, a.order)
    ensures
      var deps := acc.deps + EdgesOf(base, a);
      StandsAt(base, Step(s, a), item, Account(acc.last, acc.lost + Closure(deps, Shows(base, a) - ShownBy(base, acc.last)), deps))
  {
    var records := a.op.records;
    SameKept(base, s, item, records);
    AdmittedFrame(s, item, records);
    AdmittedRows(base, s, item, records);
    assert EdgesOf(base, a) == RowsOf(base, item, records);
    SameRows(s, Admitted(s, item, records).value, item);
    HistoryVisible(s, Admitted(s, item, records).value, item, Kept(s, item, records));
  }

  lemma SuppressedStands(base: Archive, s: Archive, a: Action, item: ItemId, acc: Account)
    requires StandsAt(base, s, item, acc) && IsLiveDelivery(a, item) && a.op.Upsert? && !IsEffective(base, a)
    requires Operated(s, a.op, a.role, a.order).Some?
    ensures StandsAt(base, Step(s, a), item, acc)
  {
    SameKept(base, s, item, a.op.records);
    AdmittedFrame(s, item, a.op.records);
    AdmittedRows(base, s, item, a.op.records);
    SuppressedAddsNoRows(base, item, a.op.records);
    var t := Step(s, a);
    assert t.contents.Keys == s.contents.Keys;
    SameRows(s, t, item);
  }

  lemma RemovalStands(base: Archive, s: Archive, a: Action, item: ItemId, acc: Account)
    requires StandsAt(base, s, item, acc) && IsLiveDelivery(a, item) && a.op.Remove?
    requires acc.last.Some? ==> a.order == acc.last.value.order && VersionOf(a) != VersionOf(acc.last.value)
    ensures StandsAt(base, Step(s, a), item, Counted(base, acc, a, item))
  {
    var t := Step(s, a);
    assert acc.deps + EdgesOf(base, a) == acc.deps;
    if acc.last.Some? {
      SameRows(s, t, item);
      assert RecordsOf(t, item) == RecordsOf(s, item);
      if acc.last.value.op.Upsert? && VersionOf(a) > VersionOf(acc.last.value) {
        assert Current(s, item) <= Closure(s.deps, Current(s, item));
        assert Visible(t, item) <= Visible(s, item) - Current(s, item);
      } else {
        assert Visible(t, item) == Visible(s, item);
      }
    } else {
      assert RecordsOf(t, item) == RecordsOf(s, item);
      assert Visible(t, item) == Visible(s, item);
      assert Current(t, item) == Current(s, item);
    }
  }

  lemma DeliveryStands(base: Archive, s: Archive, a: Action, item: ItemId, acc: Account)
    requires StandsAt(base, s, item, acc) && IsLiveDelivery(a, item)
    requires Operated(s, a.op, a.role, a.order).Some?
    requires acc.last.Some? ==> a.order == acc.last.value.order && VersionOf(a) != VersionOf(acc.last.value)
    ensures StandsAt(base, Step(s, a), item, Counted(base, acc, a, item))
  {
    if a.op.Remove? {
      RemovalStands(base, s, a, item, acc);
    } else if !IsEffective(base, a) {
      SuppressedStands(base, s, a, item, acc);
    } else if Accepts(s, item, a.op.version, a.role, a.order) {
      AcceptedStands(base, s, a, item, acc);
    } else {
      HistoryStands(base, s, a, item, acc);
    }
  }

  // ---- any sequence of them -----------------------------------------------

  lemma {:induction false} DeliveriesStand(base: Archive, s: Archive, ds: seq<Action>, item: ItemId, acc: Account)
    requires StandsAt(base, s, item, acc)
    requires AreLiveDeliveries(ds, item) && HaveDistinctVersions(ds, item) && AreNewAfter(acc.last, ds, item)
    requires AreAdmitted(s, ds)
    ensures IsRun(s, ds) && StandsAt(base, After(s, ds), item, CountedAll(base, acc, ds, item))
    decreases |ds|
  {
    if ds != [] {
      DeliveryStands(base, s, ds[0], item, acc);
      var rest := ds[1..];
      assert forall i :: 0 <= i < |rest| ==> rest[i] == ds[i + 1];
      DeliveriesStand(base, Step(s, ds[0]), rest, item, Counted(base, acc, ds[0], item));
    }
  }

  /** The head ends at the effective delivery with the largest version, the one it started from included. */
  lemma {:induction false} LastIsLargest(s: Archive, acc: Account, ds: seq<Action>, item: ItemId)
    requires AreLiveDeliveries(ds, item) && (acc.last.Some? ==> IsLiveDelivery(acc.last.value, item))
    ensures
      var last := CountedAll(s, acc, ds, item).last;
      && (last == acc.last || (last.Some? && last.value in ds && IsEffective(s, last.value)))
      && (acc.last.Some? ==> last.Some? && VersionOf(last.value) >= VersionOf(acc.last.value))
      && (forall i :: 0 <= i < |ds| && IsEffective(s, ds[i]) ==> last.Some? && VersionOf(last.value) >= VersionOf(ds[i]))
    decreases |ds|
  {
    if ds != [] {
      LastIsLargest(s, Counted(s, acc, ds[0], item), ds[1..], item);
      assert forall i :: 0 <= i < |ds| - 1 ==> ds[1..][i] == ds[i + 1];
    }
  }

  /**
   The effective delivery with the largest version, at whatever position it
   arrives, decides the head's version and state.  What it shows is visible
   except for what later history took along; nothing else of the item is.
   */
  lemma LargestVersionWins(s: Archive, ds: seq<Action>, item: ItemId, acc: Account, latest: Action)
    requires StandsAt(s, s, item, acc)
    requires AreLiveDeliveries(ds, item) && HaveDistinctVersions(ds, item) && AreNewAfter(acc.last, ds, item)
    requires AreAdmitted(s, ds)
    requires IsLatest(s, ds, item, acc.last, latest)
    ensures IsRun(s, ds)
    ensures
      var t := After(s, ds);
      var lost := CountedAll(s, acc, ds, item).lost;
      && item in t.heads
      && t.heads[item].version == latest.op.version
      && t.heads[item].live == latest.op.Upsert?
      && Visible(t, item) == Shows(s, latest) - lost
      && (Visible(t, item) == Shows(s, latest) <==> lost !! Shows(s, latest))
  {
    DeliveriesStand(s, s, ds, item, acc);
    LastIsLargest(s, acc, ds, item);
    LatestIsOne(s, ds, item, acc.last, latest, CountedAll(s, acc, ds, item).last.value);
  }

  /** An effective delivery, or the one the item stands at, that no effective one exceeds. */
  predicate IsLatest(s: Archive, ds: seq<Action>, item: ItemId, last: Option<Action>, latest: Action)
    requires AreLiveDeliveries(ds, item) && (last.Some? ==> IsLiveDelivery(last.value, item))
  {
    && IsLiveDelivery(latest, item)
    && (last == Some(latest) || (latest in ds && IsEffective(s, latest)))
    && (last.Some? ==> VersionOf(latest) >= VersionOf(last.value))
    && (forall i :: 0 <= i < |ds| && IsEffective(s, ds[i]) ==> VersionOf(latest) >= VersionOf(ds[i]))
  }

  lemma LatestIsOne(s: Archive, ds: seq<Action>, item: ItemId, last: Option<Action>, a: Action, b: Action)
    requires AreLiveDeliveries(ds, item) && HaveDistinctVersions(ds, item) && (last.Some? ==> IsLiveDelivery(last.value, item))
    requires AreNewAfter(last, ds, item)
    requires IsLatest(s, ds, item, last, a) && IsLatest(s, ds, item, last, b)
    ensures a == b
  {
    if last != Some(a) && last != Some(b) {
      var i :| 0 <= i < |ds| && ds[i] == a;
      var j :| 0 <= j < |ds| && ds[j] == b;
      assert i < j || j < i || i == j;
    }
  }

  /**
   Two arrivals of the same admitted deliveries, in any two orders, end with the
   same head version and state; they end with the same visible records exactly
   when history took the same of the latest ones in both.
   */
  lemma OrderDecidesExactly(s: Archive, ds: seq<Action>, es: seq<Action>, item: ItemId, acc: Account, latest: Action)
    requires StandsAt(s, s, item, acc) && multiset(ds) == multiset(es)
    requires AreLiveDeliveries(ds, item) && HaveDistinctVersions(ds, item) && AreNewAfter(acc.last, ds, item) && AreAdmitted(s, ds)
    requires AreLiveDeliveries(es, item) && HaveDistinctVersions(es, item) && AreNewAfter(acc.last, es, item) && AreAdmitted(s, es)
    requires IsLatest(s, ds, item, acc.last, latest)
    ensures IsRun(s, ds) && IsRun(s, es)
    ensures
      var t, u := After(s, ds), After(s, es);
      && item in t.heads && item in u.heads
      && t.heads[item].version == u.heads[item].version
      && t.heads[item].live == u.heads[item].live
      && (Visible(t, item) == Visible(u, item) <==>
            Shows(s, latest) * CountedAll(s, acc, ds, item).lost == Shows(s, latest) * CountedAll(s, acc, es, item).lost)
  {
    LatestOfPermutation(s, ds, es, item, acc.last, latest);
    LargestVersionWins(s, ds, item, acc, latest);
    LargestVersionWins(s, es, item, acc, latest);
    SameDifference(Shows(s, latest), CountedAll(s, acc, ds, item).lost, CountedAll(s, acc, es, item).lost);
  }

  lemma SameDifference<T>(all: set<T>, a: set<T>, b: set<T>)
    ensures all - a == all - b <==> all * a == all * b
  {
    if all - a == all - b {
      forall x | x in all ensures x in a <==> x in b {
        assert x in all - a <==> x in all - b;
      }
    }
    if all * a == all * b {
      forall x | x in all ensures x in a <==> x in b {
        assert x in all * a <==> x in all * b;
      }
    }
  }

  lemma LatestOfPermutation(s: Archive, ds: seq<Action>, es: seq<Action>, item: ItemId, last: Option<Action>, latest: Action)
    requires multiset(ds) == multiset(es)
    requires AreLiveDeliveries(ds, item) && AreLiveDeliveries(es, item) && (last.Some? ==> IsLiveDelivery(last.value, item))
    requires IsLatest(s, ds, item, last, latest)
    ensures IsLatest(s, es, item, last, latest)
  {
    forall i | 0 <= i < |es| && IsEffective(s, es[i]) ensures VersionOf(latest) >= VersionOf(es[i]) {
      assert es[i] in multiset(es);
      assert es[i] in ds;
    }
    if last != Some(latest) {
      assert latest in multiset(ds);
    }
  }
}
