/**
 What workers and administrators can bring about step by step: leasing all
 open batches, completing any of them in any order, and making a batch of one
 new journal entry.
 */
module AwarenessScripts {
  import opened Wrappers
  import opened SweepPacking
  import opened Journal
  import opened Awareness
  import opened AwarenessRuns

  /** A run of paced steps leads from one state to the other. */
  ghost predicate Leads(s: System, later: seq<Action>, u: System) {
    IsRun(s, later) && KeepsPaceThroughout(s, later) && After(s, later) == u
  }

  lemma LeadsFirst(s: System, a: Action, later: seq<Action>, u: System)
    requires Enabled(s, a) && KeepsPace(s, a) && Leads(Step(s, a), later, u)
    ensures Leads(s, [a] + later, u)
  {
    assert ([a] + later)[1..] == later;
  }

  lemma LeadsOnce(s: System, a: Action)
    requires Enabled(s, a) && KeepsPace(s, a)
    ensures Leads(s, [a], Step(s, a))
  {
    LeadsFirst(s, a, [], Step(s, a));
    assert [a] + [] == [a];
  }

  lemma {:induction false} Joined(s: System, first: seq<Action>, t: System, rest: seq<Action>, u: System)
    requires Leads(s, first, t) && Leads(t, rest, u)
    ensures Leads(s, first + rest, u)
    decreases |first|
  {
    if first == [] {
      assert first + rest == rest;
    } else {
      Joined(Step(s, first[0]), first[1..], t, rest, u);
      LeadsFirst(s, first[0], first[1..] + rest, u);
      assert [first[0]] + (first[1..] + rest) == first + rest;
    }
  }

  // ---- leases -------------------------------------------------------------

  /** No source holds work back. */
  predicate IsFree(c: Consumer) {
    c.enabled && !c.hold
  }

  predicate IsLive(c: Consumer, id: BatchId) {
    id in c.batches && CanBeClaimed(c, c.batches[id])
  }

  /** Leased by the one worker of these scripts, and not expired. */
  predicate IsMine(c: Consumer, id: BatchId) {
    id in c.batches &&
    var w := c.batches[id];
    w.state == Leased && w.owner == Some(0) && w.epoch == c.epoch && w.until.Some? && w.until.value > c.now
  }

  /** Only leases, attempts and waiting times differ. */
  ghost predicate SameWork(c: Consumer, u: Consumer) {
    && u.cursor == c.cursor && u.doneThrough == c.doneThrough && u.epoch == c.epoch
    && u.enabled == c.enabled && u.hold == c.hold && u.batches.Keys == c.batches.Keys
    && (forall id :: id in c.batches ==> SameRow(c, c.batches[id], u.batches[id]))
  }

  ghost predicate SameRow(c: Consumer, v: Work, w: Work) {
    && w.first == v.first && w.last == v.last && (w.state == Complete <==> v.state == Complete)
    && (Unfinished(w) <==> Unfinished(v)) && (CanBeClaimed(c, w) <==> CanBeClaimed(c, v))
  }

  /** The journal and its switch are as they were. */
  predicate SameJournal(s: System, u: System) {
    u.journal == s.journal && u.on == s.on && u.startAt == s.startAt
  }

  lemma SameWorkComposes(c: Consumer, t: Consumer, u: Consumer)
    requires SameWork(c, t) && SameWork(t, u)
    ensures SameWork(c, u)
  {
    forall id | id in c.batches ensures SameRow(c, c.batches[id], u.batches[id]) {
      assert SameRow(c, c.batches[id], t.batches[id]) && SameRow(t, t.batches[id], u.batches[id]);
    }
  }

  lemma ChoiceExists(c: Consumer) returns (choice: BatchId)
    requires Probe(c)
    ensures IsChoice(c, choice)
  {
    var candidates := set id | id in c.batches && IsClaimable(c, id);
    CandidatesAgree(c, candidates);
    var preferred := set id | id in candidates && Some(id.source) != c.lastSource;
    var pool := if preferred != {} then preferred else candidates;
    FirstInOrderExists(pool, c.batches);
    choice :| choice in pool && forall x :: x in pool ==> Precedes(c.batches[choice], c.batches[x]);
    FirstOfPoolIsChoice(c, candidates, pool, choice);
  }

  /** The moments at which a row's lease has run out and its retry is due. */
  predicate IsDueBy(w: Work, t: Instant) {
    (w.until.Some? ==> w.until.value <= t) && (w.eligibleAt.Some? ==> w.eligibleAt.value <= t)
  }

  lemma {:induction false} AllAreDueBy(batches: map<BatchId, Work>, pool: set<BatchId>, now: Instant) returns (t: Instant)
    requires pool <= batches.Keys
    ensures now <= t && forall id :: id in pool ==> IsDueBy(batches[id], t)
    decreases |pool|
  {
    t := now;
    if pool != {} {
      var y :| y in pool;
      t := AllAreDueBy(batches, pool - {y}, now);
      var w := batches[y];
      if w.until.Some? && w.until.value > t {
        t := w.until.value;
      }
      if w.eligibleAt.Some? && w.eligibleAt.value > t {
        t := w.eligibleAt.value;
      }
      assert forall id :: id in pool ==> id == y || id in pool - {y};
    }
  }

  function Claimables(c: Consumer): set<BatchId> {
    set id | id in c.batches && IsClaimable(c, id)
  }

  /** Every live batch can be claimed now or is ours. */
  ghost predicate IsGathering(c: Consumer) {
    IsFree(c) && forall id :: IsLive(c, id) ==> IsClaimable(c, id) || IsMine(c, id)
  }

  /** What a grant does to another row, or to its own. */
  lemma GrantRow(c: Consumer, id: BatchId, x: BatchId)
    requires IsGathering(c) && IsClaimable(Normalized(c), id) && x in c.batches
    ensures
      var u := Claimed(Normalized(c), id, 0, 1);
      && SameRow(c, c.batches[x], u.batches[x])
      && (if x == id then IsMine(u, x) && !IsClaimable(u, x)
          else (IsClaimable(u, x) <==> IsClaimable(c, x)) && (IsMine(u, x) <==> IsMine(c, x)))
  {
  }

  lemma GrantGathers(c: Consumer, id: BatchId)
    requires IsGathering(c) && IsClaimable(Normalized(c), id)
    ensures
      var u := Claimed(Normalized(c), id, 0, 1);
      && IsGathering(u) && SameWork(c, u) && IsClaimable(c, id)
      && Claimables(u) == Claimables(c) - {id}
  {
    var u := Claimed(Normalized(c), id, 0, 1);
    NormalizingKeepsClaimable(c);
    assert IsClaimable(c, id);
    forall x | x in c.batches
      ensures SameRow(c, c.batches[x], u.batches[x])
      ensures x == id ==> IsMine(u, x) && !IsClaimable(u, x)
      ensures x != id ==> (IsClaimable(u, x) <==> IsClaimable(c, x)) && (IsMine(u, x) <==> IsMine(c, x))
    {
      GrantRow(c, id, x);
    }
    forall x | IsLive(u, x) ensures IsClaimable(u, x) || IsMine(u, x) {
      assert SameRow(c, c.batches[x], u.batches[x]);
      assert IsLive(c, x);
    }
  }

  lemma {:induction false} Gathers(s: System) returns (later: seq<Action>, u: System)
    requires IsGathering(s.consumer)
    ensures Leads(s, later, u) && SameWork(s.consumer, u.consumer) && SameJournal(s, u)
    ensures forall id :: IsLive(u.consumer, id) ==> IsMine(u.consumer, id)
    decreases |Claimables(s.consumer)|
  {
    var c := s.consumer;
    if Claimables(c) == {} {
      later, u := [], s;
      forall id | IsLive(c, id) ensures IsMine(c, id) {
        assert id !in Claimables(c);
      }
    } else {
      var x :| x in Claimables(c);
      assert IsClaimable(c, x) && Probe(c);
      NormalizingKeepsProbe(c);
      var id := ChoiceExists(Normalized(c));
      var claim := Claim(id, 0, 1);
      GrantGathers(c, id);
      assert id in Claimables(c);
      var rest;
      rest, u := Gathers(Step(s, claim));
      SameWorkComposes(c, Step(s, claim).consumer, u.consumer);
      LeadsFirst(s, claim, rest, u);
      later := [claim] + rest;
    }
  }

  lemma DueGathers(c: Consumer, t: Instant)
    requires IsFree(c) && c.now <= t && forall id :: id in c.batches ==> IsDueBy(c.batches[id], t)
    ensures IsGathering(c.(now := t)) && SameWork(c, c.(now := t))
  {
  }

  /** One worker can come to hold the leases of all live batches. */
  lemma LeasesAll(s: System) returns (later: seq<Action>, u: System)
    requires IsFree(s.consumer)
    ensures Leads(s, later, u) && SameWork(s.consumer, u.consumer) && SameJournal(s, u)
    ensures forall id :: IsLive(u.consumer, id) ==> IsMine(u.consumer, id)
  {
    var c := s.consumer;
    var t := AllAreDueBy(c.batches, c.batches.Keys, c.now);
    DueGathers(c, t);
    var rest;
    rest, u := Gathers(Step(s, Tick(t)));
    SameWorkComposes(c, c.(now := t), u.consumer);
    LeadsFirst(s, Tick(t), rest, u);
    later := [Tick(t)] + rest;
  }

  // ---- completions --------------------------------------------------------

  lemma {:induction false} LatestExists(batches: map<BatchId, Work>, pool: set<BatchId>, before: nat) returns (done: nat)
    requires pool <= batches.Keys
    ensures before <= done && forall x :: x in pool ==> batches[x].last <= done
    ensures done == before || exists x :: x in pool && batches[x].last == done
    decreases |pool|
  {
    if pool == {} {
      done := before;
    } else {
      var y :| y in pool;
      var rest := LatestExists(batches, pool - {y}, before);
      done := if rest < batches[y].last then batches[y].last else rest;
      assert forall x :: x in pool ==> x == y || x in pool - {y};
    }
  }

  lemma AdvanceExists(batches: map<BatchId, Work>, before: nat) returns (done: nat)
    ensures IsAdvanced(batches, before, done)
  {
    var open := set id | id in batches && Unfinished(batches[id]);
    if open != {} {
      EarliestExists(open, batches);
      var id :| id in open && forall x :: x in open ==> batches[id].first <= batches[x].first;
      done := if batches[id].first == 0 then 0 else batches[id].first - 1;
    } else {
      assert forall id :: id in batches && Unfinished(batches[id]) ==> id in open;
      var complete := set id | id in batches && batches[id].state == Complete;
      done := LatestExists(batches, complete, before);
      assert forall x :: x in batches && batches[x].state == Complete ==> x in complete;
    }
  }

  /** These batches are complete now, everything else but the watermark is as it was. */
  ghost predicate Completed(c: Consumer, u: Consumer, pool: set<BatchId>) {
    && u == c.(batches := u.batches, doneThrough := u.doneThrough) && u.batches.Keys == c.batches.Keys
    && (forall id :: id in c.batches && id !in pool ==> u.batches[id] == c.batches[id])
    && (forall id :: id in c.batches && id in pool ==> u.batches[id] == c.batches[id].(state := Complete, owner := None, until := None))
  }

  /** The watermark follows from the batches as they are. */
  ghost predicate IsSettledAt(c: Consumer) {
    exists before: nat :: IsAdvanced(c.batches, before, c.doneThrough)
  }

  lemma CompletesOne(s: System, id: BatchId) returns (a: Action)
    requires IsMine(s.consumer, id)
    ensures Enabled(s, a) && KeepsPace(s, a) && SameJournal(s, Step(s, a))
    ensures Completed(s.consumer, Step(s, a).consumer, {id}) && IsSettledAt(Step(s, a).consumer)
  {
    var c := s.consumer;
    var l := Lease(id, 0, c.batches[id].fence);
    var done := AdvanceExists(Closed(c, id), c.doneThrough);
    a := Finish(l, c.(batches := Closed(c, id), doneThrough := done));
    assert IsAdvanced(Step(s, a).consumer.batches, c.doneThrough, done);
  }

  lemma CompletedComposes(c: Consumer, t: Consumer, u: Consumer, id: BatchId, pool: set<BatchId>)
    requires Completed(c, t, {id}) && Completed(t, u, pool - {id}) && id in pool
    ensures Completed(c, u, pool)
  {
  }

  predicate AllMine(c: Consumer, pool: set<BatchId>) {
    forall id :: id in pool ==> IsMine(c, id)
  }

  lemma MineStay(c: Consumer, t: Consumer, id: BatchId, pool: set<BatchId>)
    requires Completed(c, t, {id}) && AllMine(c, pool)
    ensures AllMine(t, pool - {id})
  {
  }

  /** The worker completes the batches of its choice. */
  lemma {:induction false} Completes(s: System, pool: set<BatchId>) returns (later: seq<Action>, u: System)
    requires AllMine(s.consumer, pool)
    ensures Leads(s, later, u) && SameJournal(s, u) && Completed(s.consumer, u.consumer, pool)
    ensures if pool == {} then u == s else IsSettledAt(u.consumer)
    decreases |pool|
  {
    if pool == {} {
      later, u := [], s;
    } else {
      var id :| id in pool;
      var a := CompletesOne(s, id);
      var t := Step(s, a);
      MineStay(s.consumer, t.consumer, id, pool);
      var rest;
      rest, u := Completes(t, pool - {id});
      CompletedComposes(s.consumer, t.consumer, u.consumer, id, pool);
      LeadsFirst(s, a, rest, u);
      later := [a] + rest;
    }
  }

  // ---- a batch of one new entry -------------------------------------------

  lemma OnlyPart(p: Part)
    ensures EventsOf([p]) == p.events && BatchChars([p]) == Chars(p.events)
  {
    assert [p][..0] == [];
  }

  lemma OnlyBatch(b: Batch)
    ensures AllEvents([b]) == EventsOf(b)
  {
    assert [b][..0] == [];
  }

  lemma OnlyEvent(e: Event, q: Limits)
    ensures Chars([e]) == EventChars(e)
    ensures Kept([e], q.purpose, q.sources) == if Attended(e, q.purpose, q.sources) == RecordOnly then [] else [e]
  {
    assert [e][..0] == [];
  }

  function OnlyPacked(e: Event, q: Limits): seq<Batch> {
    [[Part(KeyOf(e, q.purpose, q.sources), [e])]]
  }

  lemma OnlyIsBatch(p: Part, q: Limits)
    requires IsFiled(p, q) && |p.events| == 1 && q.cap > 0
    ensures IsBatch([p], q) && EventsOf([p]) == p.events
  {
    OnlyPart(p);
  }

  lemma OnlyBatchIsPacked(b: Batch, q: Limits)
    requires IsBatch(b, q) && EventsOf(b) != []
    ensures ArePacked([b], q) && AreFlushable([b]) && AllEvents([b]) == EventsOf(b)
  {
    OnlyBatch(b);
  }

  lemma OnlyIsPacked(e: Event, q: Limits)
    requires Attended(e, q.purpose, q.sources) != RecordOnly && q.cap > 0
    ensures ArePacked(OnlyPacked(e, q), q) && AreFlushable(OnlyPacked(e, q))
    ensures multiset(AllEvents(OnlyPacked(e, q))) == multiset(Kept([e], q.purpose, q.sources))
  {
    var p := Part(KeyOf(e, q.purpose, q.sources), [e]);
    OnlyEvent(e, q);
    OnlyIsBatch(p, q);
    OnlyBatchIsPacked([p], q);
  }

  function OnlyId(e: Event, q: Limits): BatchId {
    BatchId(Attended(e, q.purpose, q.sources), e.source, {IdentityOf(e)})
  }

  function OnlyWork(c: Consumer, e: Event, q: Limits): Work {
    Work(e.sequence, e.sequence, PriorityOf(Attended(e, q.purpose, q.sources)),
         if c.hold && e.source in c.stalled then Held else Pending, 0, None, 0, None, None, c.epoch)
  }

  lemma OnlyIsInserted(c: Consumer, batches: map<BatchId, Work>, e: Event, q: Limits)
    requires Attended(e, q.purpose, q.sources) != RecordOnly && q.cap > 0
    ensures AreFlushable(OnlyPacked(e, q))
    ensures Inserted(c, batches, OnlyPacked(e, q))
         == if OnlyId(e, q) in batches then batches else batches[OnlyId(e, q) := OnlyWork(c, e, q)]
  {
    OnlyIsPacked(e, q);
    var b := OnlyPacked(e, q)[0];
    assert OnlyPacked(e, q)[..0] == [];
    OnlyPart(b[0]);
    assert Members(b) == {IdentityOf(e)};
    assert IdOf(b) == OnlyId(e, q) && FreshWork(c, b) == OnlyWork(c, e, q);
  }

  /** The next entry ahead of the scan position. */
  ghost predicate IsNext(s: System, e: Event) {
    && IsEntry(e, s.journal, s.consumer.epoch, Start(s))
    && forall m :: IsAhead(s.journal, s.consumer.epoch, Start(s), m) ==> e.sequence <= m
  }

  lemma OnlyIsScanned(s: System, e: Event)
    requires IsNumbered(s.journal) && IsNext(s, e)
    ensures IsScan([e], s.journal, s.consumer.epoch, Start(s), 1) && CursorAfter([e], Start(s)) == e.sequence
  {
    assert [e][0] == e;
    forall n | IsAhead(s.journal, s.consumer.epoch, Start(s), n) ensures IsCovered([e], s.journal, Start(s), 1, n) {
      if n == e.sequence {
        assert s.journal[n].event == e;
      }
    }
  }

  /** A sweep of one entry that is kept. */
  function OnlySweep(e: Event, q: Limits): Action {
    Sweep([e], 1, q, OnlyPacked(e, q))
  }

  lemma OnlySweptConsumer(s: System, e: Event, q: Limits)
    requires Attended(e, q.purpose, q.sources) != RecordOnly && q.cap > 0
    ensures AreFlushable(OnlyPacked(e, q)) && Receipts([e], Start(s), q) == {}
    ensures
      var c := s.consumer;
      SweptBy(s, [e], q, OnlyPacked(e, q)).consumer ==
        c.(cursor := e.sequence, resync := c.resync || HasGap(s.journal, c.epoch, Start(s)),
           batches := if OnlyId(e, q) in c.batches then AllRepaused(c)
                      else AllRepaused(c)[OnlyId(e, q) := OnlyWork(c, e, q)])
  {
    OnlyEvent(e, q);
    OnlyIsPacked(e, q);
    OnlyIsInserted(s.consumer, AllRepaused(s.consumer), e, q);
    assert !Suppresses([e], q);
  }

  lemma OnlySweptPast(s: System, e: Event, q: Limits)
    requires Attended(e, q.purpose, q.sources) != RecordOnly && q.cap > 0 && e.sequence in s.journal
    ensures AreFlushable(OnlyPacked(e, q))
    ensures SweptBy(s, [e], q, OnlyPacked(e, q)).past == s.past.(read := s.past.read + {s.journal[e.sequence]})
  {
    OnlyEvent(e, q);
    OnlyIsPacked(e, q);
    assert Scanned([e]) == {e} && PassedOver([e], q) == {};
    assert RowsOf(s.journal, {e}) == {s.journal[e.sequence]};
    assert RowsOf(s.journal, {}) == {};
  }

  lemma SweepsOnly(s: System, e: Event, q: Limits)
    requires s.on && s.consumer.enabled && IsNumbered(s.journal) && IsNext(s, e)
    requires Attended(e, q.purpose, q.sources) != RecordOnly && q.cap > 0
    ensures Enabled(s, OnlySweep(e, q))
    ensures
      var c, u := s.consumer, Step(s, OnlySweep(e, q));
      && u.consumer == c.(cursor := e.sequence, resync := c.resync || HasGap(s.journal, c.epoch, Start(s)),
                          batches := if OnlyId(e, q) in c.batches then AllRepaused(c)
                                     else AllRepaused(c)[OnlyId(e, q) := OnlyWork(c, e, q)])
      && u.past == s.past.(read := s.past.read + {s.journal[e.sequence]})
      && u.owed == s.owed && SameJournal(s, u) && u.granted == s.granted
  {
    OnlyIsScanned(s, e);
    OnlyIsPacked(e, q);
    OnlySweptConsumer(s, e, q);
    OnlySweptPast(s, e, q);
  }

  // ---- numbers from one again ---------------------------------------------

  /** The m-th entry of an item, an arrival. */
  function ItemEvent(item: nat, m: nat): Event {
    Event(m, Created, LiveArrival, Incremental, 0, 0, item, m, None, 0, 1)
  }

  /** The journal holds the first `k` entries of the item and nothing else. */
  ghost predicate HoldsItem(journal: Entries, epoch: nat, item: nat, k: nat) {
    && (forall m :: m in journal <==> 1 <= m <= k)
    && (forall m :: m in journal ==> journal[m].event == ItemEvent(item, m) && journal[m].epoch == epoch)
  }

  lemma AppendsNext(s: System, item: nat, k: nat)
    requires s.on && HoldsItem(s.journal, s.consumer.epoch, item, k)
    ensures Enabled(s, Append(ItemEvent(item, k + 1), k))
    ensures
      var u := Step(s, Append(ItemEvent(item, k + 1), k));
      HoldsItem(u.journal, s.consumer.epoch, item, k + 1) && u.consumer == s.consumer && u.on && u.startAt == s.startAt
  {
    if k == 0 {
      assert s.journal.Keys == {};
      assert s.journal == map[];
    } else {
      assert k in s.journal;
    }
  }

  lemma {:induction false} AppendsItem(s: System, item: nat, k: nat, n: nat) returns (later: seq<Action>, u: System)
    requires s.on && k <= n && HoldsItem(s.journal, s.consumer.epoch, item, k)
    ensures Leads(s, later, u) && u.consumer == s.consumer && u.on && u.startAt == s.startAt
    ensures HoldsItem(u.journal, s.consumer.epoch, item, n)
    decreases n - k
  {
    if k == n {
      later, u := [], s;
    } else {
      var a := Append(ItemEvent(item, k + 1), k);
      AppendsNext(s, item, k);
      var rest;
      rest, u := AppendsItem(Step(s, a), item, k + 1, n);
      LeadsFirst(s, a, rest, u);
      later := [a] + rest;
    }
  }

  lemma {:induction false} AboveAll(numbers: set<nat>) returns (above: nat)
    ensures forall n :: n in numbers ==> n < above
    decreases |numbers|
  {
    above := 0;
    if numbers != {} {
      var n :| n in numbers;
      above := AboveAll(numbers - {n});
      if above <= n {
        above := n + 1;
      }
      assert forall m :: m in numbers ==> m == n || m in numbers - {n};
    }
  }

  /** No batch knows anything of the item. */
  ghost predicate IsNewItem(batches: map<BatchId, Work>, item: nat) {
    forall id, e :: id in batches && e in id.events ==> e.item != item
  }

  lemma NewItemExists(batches: map<BatchId, Work>) returns (item: nat)
    ensures IsNewItem(batches, item)
  {
    var items := set id, e | id in batches && e in id.events :: e.item;
    item := AboveAll(items);
    forall id, e | id in batches && e in id.events ensures e.item != item {
      assert e.item in items;
    }
  }

  const ONE_AT_A_TIME := Limits(8, 4000, Foreground, {})

  /** The old batches as they were, and one more, just past the old position. */
  ghost predicate GainsOne(c: Consumer, u: Consumer, id: BatchId) {
    && u.cursor == c.cursor + 1 && u.doneThrough == c.doneThrough
    && u.batches.Keys == c.batches.Keys + {id} && id !in c.batches
    && u.batches[id].first == u.batches[id].last == c.cursor + 1
    && (forall x :: x in c.batches ==> KeepsState(c.batches[x], u.batches[x]))
  }

  predicate KeepsState(v: Work, w: Work) {
    w.first == v.first && w.last == v.last && (Unfinished(w) <==> Unfinished(v)) && (w.state == Complete <==> v.state == Complete)
  }

  lemma ItemIsNext(s: System, item: nat)
    requires s.startAt == 0 && HoldsItem(s.journal, s.consumer.epoch, item, s.consumer.cursor + 1)
    ensures IsNumbered(s.journal) && IsNext(s, ItemEvent(item, s.consumer.cursor + 1))
  {
    assert s.consumer.cursor + 1 in s.journal;
  }

  /** The sweep that takes in just the item. */
  ghost predicate IsSweptInto(c: Consumer, u: Consumer, item: nat) {
    var e := ItemEvent(item, c.cursor + 1);
    u == c.(cursor := c.cursor + 1, resync := u.resync,
            batches := if OnlyId(e, ONE_AT_A_TIME) in c.batches then AllRepaused(c)
                       else AllRepaused(c)[OnlyId(e, ONE_AT_A_TIME) := OnlyWork(c, e, ONE_AT_A_TIME)])
  }

  lemma ItemIsGained(c: Consumer, u: Consumer, item: nat)
    requires IsFree(c) && IsNewItem(c.batches, item)
    requires IsSweptInto(c, u, item)
    ensures
      var id := OnlyId(ItemEvent(item, c.cursor + 1), ONE_AT_A_TIME);
      GainsOne(c, u, id) && IsFree(u) && IsLive(u, id)
  {
    var e := ItemEvent(item, c.cursor + 1);
    assert IdentityOf(e) in OnlyId(e, ONE_AT_A_TIME).events;
    assert OnlyId(e, ONE_AT_A_TIME) !in c.batches;
  }

  lemma ItemIsAttended(item: nat, m: nat)
    ensures Attended(ItemEvent(item, m), ONE_AT_A_TIME.purpose, ONE_AT_A_TIME.sources) == NextTurn
    ensures ONE_AT_A_TIME.cap > 0 && ItemEvent(item, m).sequence == m
  {
  }

  lemma ItemIsSwept(s: System, item: nat) returns (a: Action)
    requires s.on && IsFree(s.consumer) && s.startAt == 0
    requires HoldsItem(s.journal, s.consumer.epoch, item, s.consumer.cursor + 1)
    ensures Enabled(s, a) && KeepsPace(s, a)
    ensures IsSweptInto(s.consumer, Step(s, a).consumer, item)
  {
    var e := ItemEvent(item, s.consumer.cursor + 1);
    ItemIsNext(s, item);
    ItemIsAttended(item, s.consumer.cursor + 1);
    SweepsOnly(s, e, ONE_AT_A_TIME);
    a := OnlySweep(e, ONE_AT_A_TIME);
  }

  lemma SweepsItem(s: System, item: nat) returns (later: seq<Action>, u: System, id: BatchId)
    requires s.on && IsFree(s.consumer) && s.startAt == 0 && IsNewItem(s.consumer.batches, item)
    requires HoldsItem(s.journal, s.consumer.epoch, item, s.consumer.cursor + 1)
    ensures Leads(s, later, u) && GainsOne(s.consumer, u.consumer, id) && IsFree(u.consumer) && IsLive(u.consumer, id)
  {
    later, u := SweepLeads(s, item);
    id := OnlyId(ItemEvent(item, s.consumer.cursor + 1), ONE_AT_A_TIME);
    ItemIsGained(s.consumer, u.consumer, item);
  }

  lemma SweepLeads(s: System, item: nat) returns (later: seq<Action>, u: System)
    requires s.on && IsFree(s.consumer) && s.startAt == 0
    requires HoldsItem(s.journal, s.consumer.epoch, item, s.consumer.cursor + 1)
    ensures Leads(s, later, u) && IsSweptInto(s.consumer, u.consumer, item)
  {
    var a := ItemIsSwept(s, item);
    u := Step(s, a);
    LeadsOnce(s, a);
    later := [a];
  }

  lemma RestartsEmpty(s: System) returns (later: seq<Action>, u: System)
    requires s.journal == map[]
    ensures Leads(s, later, u) && u.consumer == s.consumer && u.on && u.startAt == 0 && u.journal == map[]
  {
    var off, on := SwitchJournal(false, 0), SwitchJournal(true, 0);
    var t := Step(s, off);
    u := Step(t, on);
    LeadsOnce(t, on);
    LeadsFirst(s, off, [on], u);
    later := [off] + [on];
  }

  /**
   Over an emptied journal numbers start from one again, so that one new entry
   can be placed just past the scan position, swept and leased.
   */
  lemma NumbersRestart(s: System) returns (later: seq<Action>, u: System, id: BatchId)
    requires s.journal == map[] && IsFree(s.consumer)
    ensures Leads(s, later, u) && GainsOne(s.consumer, u.consumer, id) && IsMine(u.consumer, id)
  {
    var first, t := RestartsEmpty(s);
    var item := NewItemExists(s.consumer.batches);
    var second, v := AppendsItem(t, item, 0, s.consumer.cursor + 1);
    var third, w;
    third, w, id := SweepsItem(v, item);
    var fourth;
    fourth, u := LeasesAll(w);
    assert SameRow(w.consumer, w.consumer.batches[id], u.consumer.batches[id]);
    GainStays(s.consumer, w.consumer, u.consumer, id);
    Joined(v, third, w, fourth, u);
    Joined(t, second, v, third + fourth, u);
    Joined(s, first, t, second + (third + fourth), u);
    later := first + (second + (third + fourth));
  }

  lemma GainStays(c: Consumer, t: Consumer, u: Consumer, id: BatchId)
    requires GainsOne(c, t, id) && SameWork(t, u)
    ensures GainsOne(c, u, id)
  {
    forall x | x in c.batches ensures KeepsState(c.batches[x], u.batches[x]) {
      assert KeepsState(c.batches[x], t.batches[x]) && SameRow(t, t.batches[x], u.batches[x]);
    }
    assert SameRow(t, t.batches[id], u.batches[id]);
  }
}
