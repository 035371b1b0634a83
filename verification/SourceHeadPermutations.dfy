/**
 All orders at once: exactly when the latest delivery is fully visible however
 the deliveries arrive, and a pair of arrivals that end differently.
 */
module SourceHeadPermutations {
  import opened Wrappers
  import opened Dependencies
  import opened SourceHeads
  import opened SourceHeadRuns
  import opened SourceHeadOrder

  /** Every dependency row the deliveries add between them. */
  function AllEdges(s: Archive, ds: seq<Action>): set<Edge<RecordId>>
    requires forall i :: 0 <= i < |ds| ==> ds[i].Apply?
  {
    if ds == [] then {} else EdgesOf(s, ds[0]) + AllEdges(s, ds[1..])
  }

  lemma {:induction false} EdgesOfMember(s: Archive, ds: seq<Action>, i: nat)
    requires forall j :: 0 <= j < |ds| ==> ds[j].Apply?
    requires i < |ds|
    ensures EdgesOf(s, ds[i]) <= AllEdges(s, ds)
  {
    if i > 0 {
      EdgesOfMember(s, ds[1..], i - 1);
    }
  }

  /** No other revision that some delivery carries leads to a record of the latest one. */
  predicate NothingReaches(s: Archive, deps: set<Edge<RecordId>>, ds: seq<Action>, latest: Action)
    requires latest.Apply? && forall i :: 0 <= i < |ds| ==> ds[i].Apply?
  {
    forall i :: 0 <= i < |ds| && IsEffective(s, ds[i]) && ds[i].op.Upsert? ==>
      Closure(deps, Shows(s, ds[i]) - Shows(s, latest)) !! Shows(s, latest)
  }

  // ---- nothing reached, nothing lost --------------------------------------

  lemma CountedKeepsLatest(s: Archive, acc: Account, a: Action, item: ItemId, latest: Action, all: set<Edge<RecordId>>)
    requires IsLiveDelivery(a, item) && IsLiveDelivery(latest, item) && (acc.last.Some? ==> IsLiveDelivery(acc.last.value, item))
    requires acc.deps + EdgesOf(s, a) <= all
    requires acc.last == Some(latest) ==> acc.lost !! Shows(s, latest)
    requires IsEffective(s, a) && a.op.Upsert? ==> Closure(all, Shows(s, a) - Shows(s, latest)) !! Shows(s, latest)
    ensures
      var next := Counted(s, acc, a, item);
      next.deps <= acc.deps + EdgesOf(s, a) && (next.last == Some(latest) ==> next.lost !! Shows(s, latest))
  {
    ClosureGrowsWithRows(acc.deps + EdgesOf(s, a), all, Shows(s, a) - Shows(s, latest));
  }

  lemma {:induction false} NothingIsLost(
      s: Archive, acc: Account, ds: seq<Action>, item: ItemId, latest: Action, all: set<Edge<RecordId>>)
    requires AreLiveDeliveries(ds, item) && IsLiveDelivery(latest, item) && (acc.last.Some? ==> IsLiveDelivery(acc.last.value, item))
    requires acc.deps + AllEdges(s, ds) <= all && NothingReaches(s, all, ds, latest)
    requires acc.last == Some(latest) ==> acc.lost !! Shows(s, latest)
    ensures
      var end := CountedAll(s, acc, ds, item);
      end.last == Some(latest) ==> end.lost !! Shows(s, latest)
    decreases |ds|
  {
    if ds != [] {
      CountedKeepsLatest(s, acc, ds[0], item, latest, all);
      assert forall i :: 0 <= i < |ds| - 1 ==> ds[1..][i] == ds[i + 1];
      NothingIsLost(s, Counted(s, acc, ds[0], item), ds[1..], item, latest, all);
    }
  }

  /** While nothing leads to the latest records, every admitted order ends with exactly them. */
  lemma OrderDoesNotMatter(s: Archive, ds: seq<Action>, item: ItemId, acc: Account, latest: Action)
    requires StandsAt(s, s, item, acc) && acc.lost == {}
    requires AreLiveDeliveries(ds, item) && HaveDistinctVersions(ds, item) && AreNewAfter(acc.last, ds, item) && AreAdmitted(s, ds)
    requires IsLatest(s, ds, item, acc.last, latest) && NothingReaches(s, s.deps + AllEdges(s, ds), ds, latest)
    ensures IsRun(s, ds)
    ensures
      var t := After(s, ds);
      && item in t.heads && t.heads[item].version == latest.op.version && t.heads[item].live == latest.op.Upsert?
      && Visible(t, item) == Shows(s, latest)
  {
    NothingIsLost(s, acc, ds, item, latest, s.deps + AllEdges(s, ds));
    LargestVersionWins(s, ds, item, acc, latest);
    DeliveriesStand(s, s, ds, item, acc);
    LastIsLargest(s, acc, ds, item);
    LatestIsOne(s, ds, item, acc.last, latest, CountedAll(s, acc, ds, item).last.value);
  }

  /** Where no record of the namespace is derived, nothing leads anywhere. */
  lemma UnderivedReachNothing(s: Archive, ds: seq<Action>, item: ItemId, latest: Action)
    requires item.Own? && NothingDerived(s) && AreLiveDeliveries(ds, item) && IsLiveDelivery(latest, item)
    requires forall i :: 0 <= i < |ds| ==> IsIndependent(ds[i])
    ensures NothingReaches(s, s.deps + AllEdges(s, ds), ds, latest)
  {
    NoEdges(s, ds);
    forall i | 0 <= i < |ds| && IsEffective(s, ds[i]) && ds[i].op.Upsert?
      ensures Closure(s.deps + AllEdges(s, ds), Shows(s, ds[i]) - Shows(s, latest)) !! Shows(s, latest)
    {
      assert s.deps + AllEdges(s, ds) == s.deps;
      RetirementStaysInNamespace(s.deps, Shows(s, ds[i]) - Shows(s, latest));
      KeptAreOwn(s, item, if latest.op.Upsert? then latest.op.records else []);
    }
  }

  lemma {:induction false} NoEdges(s: Archive, ds: seq<Action>)
    requires forall i :: 0 <= i < |ds| ==> ds[i].Apply? && IsIndependent(ds[i])
    ensures AllEdges(s, ds) == {}
  {
    if ds != [] {
      NoEdges(s, ds[1..]);
    }
  }

  // ---- when every order is admitted ---------------------------------------

  /** Contents never conflict, and every named parent is already stored and not forgotten. */
  ghost predicate IsReliable(s: Archive, item: ItemId, catalogue: map<nat, nat>, ds: seq<Action>)
    requires AreLiveDeliveries(ds, item)
  {
    && (forall r :: r in s.contents && r.item == item ==> r.revision in catalogue && s.contents[r] == catalogue[r.revision])
    && (forall i, o :: 0 <= i < |ds| && ds[i].op.Upsert? && o in ds[i].op.records ==> IsReliableRecord(s, catalogue, o))
  }

  predicate IsReliableRecord(s: Archive, catalogue: map<nat, nat>, o: Observed) {
    && o.revision in catalogue && o.content == catalogue[o.revision]
    && forall p :: p in o.parents ==> p in s.contents && p !in s.deleted
  }

  /** The archive has only gained records, with the catalogue's contents. */
  ghost predicate IsLaterThan(s: Archive, t: Archive, item: ItemId, catalogue: map<nat, nat>) {
    && t.deleted == s.deleted && s.contents.Keys <= t.contents.Keys
    && (forall r :: r in t.contents && r.item == item ==> r.revision in catalogue && t.contents[r] == catalogue[r.revision])
  }

  lemma {:induction false} ReliableRecordsAreAdmitted(
      s: Archive, t: Archive, item: ItemId, catalogue: map<nat, nat>, records: seq<Observed>)
    requires IsLaterThan(s, t, item, catalogue)
    requires forall o :: o in records ==> IsReliableRecord(s, catalogue, o)
    ensures Admitted(t, item, records).Some? && IsLaterThan(s, Admitted(t, item, records).value, item, catalogue)
  {
    if records != [] {
      ReliableRecordsAreAdmitted(s, t, item, catalogue, records[..|records| - 1]);
      assert IsReliableRecord(s, catalogue, records[|records| - 1]);
    }
  }

  lemma {:induction false} ReliableAreAdmitted(s: Archive, t: Archive, ds: seq<Action>, item: ItemId, catalogue: map<nat, nat>)
    requires item.Own? && AreLiveDeliveries(ds, item) && IsReliable(s, item, catalogue, ds) && IsLaterThan(s, t, item, catalogue)
    ensures AreAdmitted(t, ds)
    decreases |ds|
  {
    if ds != [] {
      if ds[0].op.Upsert? {
        ReliableRecordsAreAdmitted(s, t, item, catalogue, ds[0].op.records);
      }
      assert forall i :: 0 <= i < |ds| - 1 ==> ds[1..][i] == ds[i + 1];
      ReliableAreAdmitted(s, Step(t, ds[0]), ds[1..], item, catalogue);
    }
  }

  // ---- permutations -------------------------------------------------------

  lemma TwiceCountsTwo<T>(xs: seq<T>, i: nat, j: nat)
    requires i < j < |xs| && xs[i] == xs[j]
    ensures multiset(xs)[xs[i]] >= 2
  {
    assert xs == xs[..j] + [xs[j]] + xs[j + 1..];
    assert xs[i] in xs[..j];
    assert multiset(xs) == multiset(xs[..j]) + multiset([xs[j]]) + multiset(xs[j + 1..]);
  }

  lemma {:induction false} DistinctCountsOne<T>(xs: seq<T>, x: T)
    requires forall i, j :: 0 <= i < j < |xs| ==> xs[i] != xs[j]
    ensures multiset(xs)[x] <= 1
  {
    if xs != [] {
      var n := |xs| - 1;
      DistinctCountsOne(xs[..n], x);
      assert xs == xs[..n] + [xs[n]];
      if x == xs[n] {
        assert x !in xs[..n];
      }
    }
  }

  lemma PermutationIsAlike(ds: seq<Action>, es: seq<Action>, item: ItemId, last: Option<Action>)
    requires AreLiveDeliveries(ds, item) && HaveDistinctVersions(ds, item) && (last.Some? ==> IsLiveDelivery(last.value, item))
    requires AreNewAfter(last, ds, item) && multiset(es) == multiset(ds)
    ensures AreLiveDeliveries(es, item) && HaveDistinctVersions(es, item) && AreNewAfter(last, es, item)
  {
    forall i | 0 <= i < |es| ensures es[i] in ds {
      assert es[i] in multiset(es);
    }
    forall i, j | 0 <= i < j < |es| ensures VersionOf(es[i]) != VersionOf(es[j]) {
      assert es[i] in ds && es[j] in ds;
      if es[i] == es[j] {
        TwiceCountsTwo(es, i, j);
        DistinctCountsOne(ds, es[i]);
      }
    }
  }

  lemma PermutationAddsSameEdges(s: Archive, ds: seq<Action>, es: seq<Action>)
    requires (forall i :: 0 <= i < |ds| ==> ds[i].Apply?) && (forall i :: 0 <= i < |es| ==> es[i].Apply?)
    requires forall a :: a in es ==> a in ds
    ensures AllEdges(s, es) <= AllEdges(s, ds)
    decreases |es|
  {
    if es != [] {
      assert es[0] in ds;
      var i :| 0 <= i < |ds| && ds[i] == es[0];
      EdgesOfMember(s, ds, i);
      PermutationAddsSameEdges(s, ds, es[1..]);
    }
  }

  /** The last of a sequence is counted last. */
  lemma {:induction false} CountedLast(s: Archive, acc: Account, ds: seq<Action>, a: Action, item: ItemId)
    requires AreLiveDeliveries(ds, item) && IsLiveDelivery(a, item) && (acc.last.Some? ==> IsLiveDelivery(acc.last.value, item))
    requires AreLiveDeliveries(ds + [a], item)
    ensures CountedAll(s, acc, ds + [a], item) == Counted(s, CountedAll(s, acc, ds, item), a, item)
    decreases |ds|
  {
    if ds == [] {
      assert ds + [a] == [a];
      assert CountedAll(s, Counted(s, acc, a, item), [], item) == Counted(s, acc, a, item);
    } else {
      CountedLast(s, Counted(s, acc, ds[0], item), ds[1..], a, item);
      assert (ds + [a])[1..] == ds[1..] + [a];
    }
  }

  /** All rows are there once all effective deliveries are counted. */
  lemma {:induction false} CountedRows(s: Archive, acc: Account, ds: seq<Action>, item: ItemId)
    requires AreLiveDeliveries(ds, item) && (acc.last.Some? ==> IsLiveDelivery(acc.last.value, item))
    ensures CountedAll(s, acc, ds, item).deps == acc.deps + AllEdges(s, ds)
    decreases |ds|
  {
    if ds != [] {
      if ds[0].op.Upsert? && !IsEffective(s, ds[0]) {
        SuppressedAddsNoRows(s, item, ds[0].op.records);
        assert EdgesOf(s, ds[0]) == RowsOf(s, item, ds[0].op.records);
      }
      CountedRows(s, Counted(s, acc, ds[0], item), ds[1..], item);
    }
  }

  /** The latest of a sequence is still the latest when another delivery is left out. */
  lemma LatestWithout(s: Archive, xs: seq<Action>, a: Action, ds: seq<Action>, item: ItemId, last: Option<Action>, latest: Action)
    requires AreLiveDeliveries(ds, item) && AreLiveDeliveries(xs, item) && (last.Some? ==> IsLiveDelivery(last.value, item))
    requires multiset(xs + [a]) == multiset(ds) && a != latest && IsLatest(s, ds, item, last, latest)
    ensures IsLatest(s, xs, item, last, latest)
  {
    forall i | 0 <= i < |xs| ensures xs[i] in ds {
      assert (xs + [a])[i] == xs[i];
      assert xs[i] in multiset(xs + [a]);
    }
    if last != Some(latest) {
      assert latest in multiset(ds);
      assert latest in multiset(xs + [a]);
    }
  }

  /** What is counted before the last delivery: the head stands at the latest, and all rows are there with it. */
  lemma BeforeTheLast(s: Archive, xs: seq<Action>, a: Action, ds: seq<Action>, item: ItemId, acc: Account, latest: Action)
    requires acc.last.Some? ==> IsLiveDelivery(acc.last.value, item)
    requires AreLiveDeliveries(ds, item) && HaveDistinctVersions(ds, item) && AreNewAfter(acc.last, ds, item)
    requires AreLiveDeliveries(xs, item) && IsLiveDelivery(a, item) && AreLiveDeliveries(xs + [a], item)
    requires multiset(xs + [a]) == multiset(ds) && a != latest && IsLatest(s, ds, item, acc.last, latest)
    requires HaveDistinctVersions(xs, item) && AreNewAfter(acc.last, xs, item)
    ensures
      var before := CountedAll(s, acc, xs, item);
      before.last == Some(latest) && acc.deps + AllEdges(s, ds) <= before.deps + EdgesOf(s, a)
  {
    LatestWithout(s, xs, a, ds, item, acc.last, latest);
    LastIsLargest(s, acc, xs, item);
    LatestIsOne(s, xs, item, acc.last, latest, CountedAll(s, acc, xs, item).last.value);
    CountedRows(s, acc, xs, item);
    forall x | x in ds ensures x in xs + [a] {
      assert x in multiset(ds);
      assert x in multiset(xs + [a]);
    }
    PermutationAddsSameEdges(s, xs + [a], ds);
    EdgesWithLast(s, xs, a);
  }

  lemma {:induction false} EdgesWithLast(s: Archive, xs: seq<Action>, a: Action)
    requires a.Apply? && forall i :: 0 <= i < |xs| ==> xs[i].Apply?
    ensures AllEdges(s, xs + [a]) == AllEdges(s, xs) + EdgesOf(s, a)
  {
    if xs == [] {
      assert xs + [a] == [a];
      assert AllEdges(s, [a]) == EdgesOf(s, a) + AllEdges(s, []);
    } else {
      EdgesWithLast(s, xs[1..], a);
      assert (xs + [a])[1..] == xs[1..] + [a];
    }
  }

  /** The delivery that reaches the latest records, arriving last, takes some of them along. */
  lemma ReachingLastLoses(s: Archive, xs: seq<Action>, a: Action, ds: seq<Action>, item: ItemId, acc: Account, latest: Action)
    requires StandsAt(s, s, item, acc) && IsLiveDelivery(a, item)
    requires AreLiveDeliveries(ds, item) && HaveDistinctVersions(ds, item) && AreNewAfter(acc.last, ds, item)
    requires multiset(xs + [a]) == multiset(ds) && AreLiveDeliveries(xs + [a], item) && AreAdmitted(s, xs + [a])
    requires IsLatest(s, ds, item, acc.last, latest) && IsEffective(s, a) && a.op.Upsert?
    requires !(Closure(s.deps + AllEdges(s, ds), Shows(s, a) - Shows(s, latest)) !! Shows(s, latest))
    ensures IsRun(s, xs + [a]) && Visible(After(s, xs + [a]), item) != Shows(s, latest)
  {
    var es := xs + [a];
    assert forall i :: 0 <= i < |xs| ==> xs[i] == es[i];
    PermutationIsAlike(ds, es, item, acc.last);
    assert a in multiset(es);
    assert a in multiset(ds);
    OnlyOthersReach(s, s.deps + AllEdges(s, ds), a, latest);
    BeforeTheLast(s, xs, a, ds, item, acc, latest);
    CountedLast(s, acc, xs, a, item);
    LatestOfPermutation(s, ds, es, item, acc.last, latest);
    LargestVersionWins(s, es, item, acc, latest);
    ReachingIsCounted(s, CountedAll(s, acc, xs, item), a, item, latest, s.deps + AllEdges(s, ds));
  }

  lemma OnlyOthersReach(s: Archive, deps: set<Edge<RecordId>>, a: Action, latest: Action)
    requires a.Apply? && latest.Apply?
    requires !(Closure(deps, Shows(s, a) - Shows(s, latest)) !! Shows(s, latest))
    ensures a != latest
  {
    if a == latest {
      assert Shows(s, a) - Shows(s, latest) == {};
      ClosureOfNothing(deps);
    }
  }

  lemma ReachingIsCounted(s: Archive, before: Account, a: Action, item: ItemId, latest: Action, all: set<Edge<RecordId>>)
    requires IsLiveDelivery(a, item) && IsLiveDelivery(latest, item) && before.last == Some(latest)
    requires IsEffective(s, a) && a.op.Upsert? && VersionOf(a) <= VersionOf(latest)
    requires all <= before.deps + EdgesOf(s, a)
    requires !(Closure(all, Shows(s, a) - Shows(s, latest)) !! Shows(s, latest))
    ensures !(Counted(s, before, a, item).lost !! Shows(s, latest))
  {
    ClosureGrowsWithRows(all, before.deps + EdgesOf(s, a), Shows(s, a) - Shows(s, latest));
  }

  // ---- the exact condition ------------------------------------------------

  ghost predicate EveryOrderShowsLatest(s: Archive, ds: seq<Action>, item: ItemId, latest: Action)
    requires latest.Apply?
  {
    forall es :: multiset(es) == multiset(ds) ==> IsRun(s, es) && Visible(After(s, es), item) == Shows(s, latest)
  }

  lemma MovedToTheEnd<T>(ds: seq<T>, i: nat)
    requires i < |ds|
    ensures multiset((ds[..i] + ds[i + 1..]) + [ds[i]]) == multiset(ds)
  {
    assert ds == ds[..i] + [ds[i]] + ds[i + 1..];
  }

  lemma SomeOrderLoses(s: Archive, ds: seq<Action>, item: ItemId, acc: Account, latest: Action, catalogue: map<nat, nat>, i: nat)
    requires StandsAt(s, s, item, acc)
    requires AreLiveDeliveries(ds, item) && HaveDistinctVersions(ds, item) && AreNewAfter(acc.last, ds, item)
    requires IsReliable(s, item, catalogue, ds) && IsLatest(s, ds, item, acc.last, latest)
    requires i < |ds| && IsEffective(s, ds[i]) && ds[i].op.Upsert?
    requires !(Closure(s.deps + AllEdges(s, ds), Shows(s, ds[i]) - Shows(s, latest)) !! Shows(s, latest))
    ensures !EveryOrderShowsLatest(s, ds, item, latest)
  {
    var xs := ds[..i] + ds[i + 1..];
    var es := xs + [ds[i]];
    MovedToTheEnd(ds, i);
    PermutationIsAlike(ds, es, item, acc.last);
    PermutationIsReliable(s, ds, es, item, catalogue);
    ReliableAreAdmitted(s, s, es, item, catalogue);
    ReachingLastLoses(s, xs, ds[i], ds, item, acc, latest);
  }

  lemma PermutationIsReliable(s: Archive, ds: seq<Action>, es: seq<Action>, item: ItemId, catalogue: map<nat, nat>)
    requires AreLiveDeliveries(ds, item) && AreLiveDeliveries(es, item) && multiset(es) == multiset(ds)
    requires IsReliable(s, item, catalogue, ds)
    ensures IsReliable(s, item, catalogue, es)
  {
    forall i | 0 <= i < |es| ensures es[i] in ds {
      assert es[i] in multiset(es);
    }
  }

  lemma PermutationReachesNothing(s: Archive, ds: seq<Action>, es: seq<Action>, item: ItemId, latest: Action)
    requires AreLiveDeliveries(ds, item) && AreLiveDeliveries(es, item) && IsLiveDelivery(latest, item) && multiset(es) == multiset(ds)
    requires NothingReaches(s, s.deps + AllEdges(s, ds), ds, latest)
    ensures NothingReaches(s, s.deps + AllEdges(s, es), es, latest)
  {
    forall x | x in es ensures x in ds {
      assert x in multiset(es);
    }
    forall x | x in ds ensures x in es {
      assert x in multiset(ds);
    }
    PermutationAddsSameEdges(s, ds, es);
    PermutationAddsSameEdges(s, es, ds);
    assert s.deps + AllEdges(s, es) == s.deps + AllEdges(s, ds);
    forall i | 0 <= i < |es| && IsEffective(s, es[i]) && es[i].op.Upsert?
      ensures Closure(s.deps + AllEdges(s, ds), Shows(s, es[i]) - Shows(s, latest)) !! Shows(s, latest)
    {
      assert es[i] in es;
      var j :| 0 <= j < |ds| && ds[j] == es[i];
    }
  }

  /**
   For deliveries that are admitted in every order: whatever the order, exactly
   the records of the largest version end up visible, if and only if no other
   revision that one of them carries leads to these records.
   */
  lemma EveryOrderShowsLatestExactly(
      s: Archive, ds: seq<Action>, item: ItemId, acc: Account, latest: Action, catalogue: map<nat, nat>)
    requires StandsAt(s, s, item, acc) && acc.lost == {}
    requires AreLiveDeliveries(ds, item) && HaveDistinctVersions(ds, item) && AreNewAfter(acc.last, ds, item)
    requires IsReliable(s, item, catalogue, ds) && IsLatest(s, ds, item, acc.last, latest)
    ensures EveryOrderShowsLatest(s, ds, item, latest) <==> NothingReaches(s, s.deps + AllEdges(s, ds), ds, latest)
  {
    if NothingReaches(s, s.deps + AllEdges(s, ds), ds, latest) {
      forall es | multiset(es) == multiset(ds) ensures IsRun(s, es) && Visible(After(s, es), item) == Shows(s, latest) {
        PermutationIsAlike(ds, es, item, acc.last);
        PermutationIsReliable(s, ds, es, item, catalogue);
        ReliableAreAdmitted(s, s, es, item, catalogue);
        LatestOfPermutation(s, ds, es, item, acc.last, latest);
        PermutationReachesNothing(s, ds, es, item, latest);
        OrderDoesNotMatter(s, es, item, acc, latest);
      }
    } else {
      var i :| 0 <= i < |ds| && IsEffective(s, ds[i]) && ds[i].op.Upsert?
        && !(Closure(s.deps + AllEdges(s, ds), Shows(s, ds[i]) - Shows(s, latest)) !! Shows(s, latest));
      SomeOrderLoses(s, ds, item, acc, latest, catalogue, i);
    }
  }

  // ---- two arrivals that end differently ----------------------------------

  /** The first revision at version 1 is stored; it comes again at version 2, and its successor at version 3. */
  const AGAIN := Delivery(FIRST, 2)
  const NEXT := Delivery(SECOND, 3)
  const ONE := Delivery(FIRST, 1)

  lemma FirstStands()
    ensures StandsAt(STATE1, STATE1, NOTE, Account(Some(ONE), {}, {}))
  {
    OneRecord(STATE1, FIRST);
    assert Ids([R1]) == {R1};
    assert Current(STATE1, NOTE) == {R1} && Visible(STATE1, NOTE) == {R1};
    AgreeingItemStands(STATE1, NOTE, Some(ONE));
  }

  lemma WhatTheyCarry()
    ensures Shows(STATE1, ONE) == {R1} && Shows(STATE1, AGAIN) == {R1} && Shows(STATE1, NEXT) == {R2}
    ensures IsEffective(STATE1, AGAIN) && IsEffective(STATE1, NEXT)
    ensures EdgesOf(STATE1, AGAIN) == {} && EdgesOf(STATE1, NEXT) == {Edge(R2, R1)}
  {
    OneRecord(STATE1, FIRST);
    OneRecord(STATE1, SECOND);
    assert Ids([R1]) == {R1} && Ids([R2]) == {R2};
    assert SECOND in NEXT.op.records && R1 in SECOND.parents;
    assert Edge(R2, R1) in EdgesOf(STATE1, NEXT);
    assert EdgesOf(STATE1, NEXT) == {Edge(R2, R1)};
  }

  lemma BothAreReliable(ds: seq<Action>)
    requires ds == [AGAIN, NEXT] || ds == [NEXT, AGAIN]
    ensures AreLiveDeliveries(ds, NOTE) && AreAdmitted(STATE1, ds)
  {
    var catalogue := map[1 := 10, 2 := 20];
    assert IsReliable(STATE1, NOTE, catalogue, ds);
    ReliableAreAdmitted(STATE1, STATE1, ds, NOTE, catalogue);
  }

  lemma InOrderIsCounted()
    ensures CountedAll(STATE1, Account(Some(ONE), {}, {}), [AGAIN, NEXT], NOTE).lost == {}
  {
    WhatTheyCarry();
    var one := Counted(STATE1, Account(Some(ONE), {}, {}), AGAIN, NOTE);
    assert [AGAIN, NEXT][1..] == [NEXT];
    assert CountedAll(STATE1, one, [NEXT], NOTE) == CountedAll(STATE1, Counted(STATE1, one, NEXT, NOTE), [], NOTE);
  }

  lemma HistoryTakesBoth()
    ensures Counted(STATE1, Account(Some(NEXT), {}, {Edge(R2, R1)}), AGAIN, NOTE).lost == {R1, R2}
  {
    WhatTheyCarry();
    RevisionReachesNext();
    assert {R1} - {R2} == {R1};
    assert {Edge(R2, R1)} + {} == {Edge(R2, R1)};
    assert ShownBy(STATE1, Some(NEXT)) == {R2};
  }

  lemma OutOfOrderIsCounted()
    ensures CountedAll(STATE1, Account(Some(ONE), {}, {}), [NEXT, AGAIN], NOTE).lost == {R1, R2}
  {
    WhatTheyCarry();
    HistoryTakesBoth();
    var one := Counted(STATE1, Account(Some(ONE), {}, {}), NEXT, NOTE);
    assert one == Account(Some(NEXT), {}, {Edge(R2, R1)});
    assert [NEXT, AGAIN][1..] == [AGAIN];
    assert CountedAll(STATE1, one, [AGAIN], NOTE) == CountedAll(STATE1, Counted(STATE1, one, AGAIN, NOTE), [], NOTE);
  }

  lemma InOrderEnds()
    ensures IsRun(STATE1, [AGAIN, NEXT]) && Visible(After(STATE1, [AGAIN, NEXT]), NOTE) == {R2}
  {
    FirstStands();
    WhatTheyCarry();
    BothAreReliable([AGAIN, NEXT]);
    InOrderIsCounted();
    LargestVersionWins(STATE1, [AGAIN, NEXT], NOTE, Account(Some(ONE), {}, {}), NEXT);
  }

  lemma OutOfOrderEnds()
    ensures IsRun(STATE1, [NEXT, AGAIN]) && Visible(After(STATE1, [NEXT, AGAIN]), NOTE) == {}
  {
    FirstStands();
    WhatTheyCarry();
    BothAreReliable([NEXT, AGAIN]);
    OutOfOrderIsCounted();
    LargestVersionWins(STATE1, [NEXT, AGAIN], NOTE, Account(Some(ONE), {}, {}), NEXT);
  }

  /**
   The same three admitted deliveries in two orders: the heads agree, but in
   one order the current revision is visible and in the other nothing is.
   */
  lemma TwoOrdersEndDifferently()
    ensures Step(EMPTY, ONE) == STATE1
    ensures IsRun(STATE1, [AGAIN, NEXT]) && Visible(After(STATE1, [AGAIN, NEXT]), NOTE) == {R2}
    ensures IsRun(STATE1, [NEXT, AGAIN]) && Visible(After(STATE1, [NEXT, AGAIN]), NOTE) == {}
  {
    FirstDelivery();
    InOrderEnds();
    OutOfOrderEnds();
  }
}
