/**
 A consumer over time: the journal grows, is switched and compacted; sweeps,
 claims, completions and deferrals happen in any order, by any number of
 workers, with sources paused and resumed, resets and replays in between.
 */
module AwarenessRuns {
  import opened Wrappers
  import opened SweepPacking
  import opened Journal
  import opened Awareness

  /**
   What happened so far, kept for reasoning only: how many entries were
   appended, which rows sweeps have read and which of these they passed over,
   which rows each batch's latest grant handed out and which were handed out
   with a grant that completed; which owed rows an administrator's step took
   away unanalysed, and which of these a replay has answered.
   */
  datatype History = History(
    appends: nat, read: set<Entry>, passed: set<Entry>, analysed: set<Entry>,
    handed: map<BatchId, set<Entry>>, givenUp: set<Entry>, acknowledged: set<Entry>)

  /**
   `owed` are the journal numbers the consumer has to see: entries of this epoch
   appended since the journal was last switched on and not compacted.
   */
  datatype System = System(
    consumer: Consumer, journal: Entries, on: bool, startAt: nat,
    owed: set<nat>, past: History, granted: seq<Lease>)

  datatype Action =
    | Append(event: Event, newest: nat)
    | SwitchJournal(on: bool, newest: nat)
    | Sweep(rows: seq<Event>, limit: nat, q: Limits, packed: seq<Batch>)
    | Claim(choice: BatchId, owner: Owner, ttl: nat)
    | ClaimNothing
    | Finish(lease: Lease, after: Consumer)
    | Postpone(lease: Lease, retryIn: nat)
    | Compact(through: nat, force: bool)
    | Reset(newest: nat)
    | Replay(from: nat)
    | Configure(stalled: set<Source>, hold: bool, enabled: bool, maxAttempts: nat)
    | Tick(now: Instant)

  function Start(s: System): nat {
    StartOf(s.consumer, s.startAt)
  }

  /** The rows are the journal's oldest unread ones and the batches are what packing makes of them. */
  ghost predicate IsSwept(s: System, rows: seq<Event>, limit: nat, q: Limits, packed: seq<Batch>) {
    && IsScan(rows, s.journal, s.consumer.epoch, Start(s), limit) && q.cap > 0
    && ArePacked(packed, q) && AreFlushable(packed)
    && multiset(AllEvents(packed)) == multiset(Kept(rows, q.purpose, q.sources))
  }

  ghost predicate Enabled(s: System, a: Action) {
    var c := s.consumer;
    match a
    case Append(event, newest) =>
      IsNewest(s.journal, newest) && event.sequence == newest + 1 && IsNextVersion(s.journal, event)
    case SwitchJournal(_, newest) => IsNewest(s.journal, newest)
    case Sweep(rows, limit, q, packed) =>
      c.enabled && s.on && IsSwept(s, rows, limit, q, packed) && Receipts(rows, Start(s), q) !! c.receipts
    case Claim(id, _, _) => c.enabled && IsChoice(Normalized(c), id)
    case ClaimNothing => !c.enabled || !Probe(c)
    case Finish(l, after) => CompletedTo(c, l, after)
    case Postpone(l, _) => ValidLease(c, l)
    case Compact(through, force) => MayCompact(c, through, force)
    case Reset(newest) => IsNewest(s.journal, newest)
    case Replay(from) => from <= c.cursor
    case Configure(_, _, _, _) => true
    case Tick(now) => c.now <= now
  }

  // ---- what becomes of a row ----------------------------------------------

  function RowsOf(journal: Entries, events: set<Event>): set<Entry> {
    set e | e in events && e.sequence in journal :: journal[e.sequence]
  }

  function Scanned(rows: seq<Event>): set<Event> {
    set e | e in rows
  }

  function PassedOver(rows: seq<Event>, q: Limits): set<Event> {
    set e | e in rows && e !in Kept(rows, q.purpose, q.sources)
  }

  /** The rows a grant of the batch hands out: what the journal has under its identities. */
  function HandedOut(journal: Entries, id: BatchId): set<Entry> {
    set n | n in journal && IdentityOf(journal[n].event) in id.events :: journal[n]
  }

  /** The row was passed over on purpose, or handed out with a grant that completed, or given up. */
  predicate IsSettled(h: History, e: Entry) {
    e in h.passed || e in h.analysed || e in h.givenUp
  }

  /** The batch is unfinished, encloses the row, and will not complete without having handed it out. */
  predicate Holds(s: System, id: BatchId, e: Entry) {
    id in s.consumer.batches && IdentityOf(e.event) in id.events &&
    var w := s.consumer.batches[id];
    && Unfinished(w) && w.first <= e.event.sequence <= w.last
    && (w.state == Leased ==> id in s.past.handed && e in s.past.handed[id])
  }

  ghost predicate IsHeld(s: System, e: Entry) {
    exists id :: id in s.consumer.batches && Holds(s, id, e)
  }

  /** Some batch of the row was unfinished and is cancelled. */
  predicate IsCut(c: Consumer, u: Consumer, e: Entry) {
    exists id :: id in c.batches && id in u.batches && IdentityOf(e.event) in id.events
                 && Unfinished(c.batches[id]) && u.batches[id].state == Cancelled
  }

  /** The owed rows a compaction takes from the consumer before they are settled. */
  function Lost(s: System, u: Consumer, through: nat): set<Entry> {
    set n | n in s.owed && n in s.journal && !IsSettled(s.past, s.journal[n])
            && (n <= through || IsCut(s.consumer, u, s.journal[n])) :: s.journal[n]
  }

  /** The owed rows that are not settled. */
  function Unsettled(s: System): set<Entry> {
    set n | n in s.owed && n in s.journal && !IsSettled(s.past, s.journal[n]) :: s.journal[n]
  }

  // ---- steps --------------------------------------------------------------

  function Appended(s: System, event: Event, n: nat): System {
    if !s.on then s
    else s.(journal := s.journal[n := Entry(event, s.consumer.epoch, s.past.appends)],
            owed := s.owed + {n}, past := s.past.(appends := s.past.appends + 1))
  }

  function Switched(s: System, on: bool, newest: nat): System {
    if on && !s.on then s.(on := true, startAt := newest, owed := {}) else s.(on := on)
  }

  ghost function SweptBy(s: System, rows: seq<Event>, q: Limits, packed: seq<Batch>): System
    requires AreFlushable(packed)
  {
    var c, start := s.consumer, Start(s);
    s.(consumer := Swept(c, packed, CursorAfter(rows, start), Receipts(rows, start, q), HasGap(s.journal, c.epoch, start)),
       past := s.past.(read := s.past.read + RowsOf(s.journal, Scanned(rows)),
                       passed := s.past.passed + RowsOf(s.journal, PassedOver(rows, q))))
  }

  function ClaimedBy(s: System, id: BatchId, owner: Owner, ttl: nat): System
    requires id in Normalized(s.consumer).batches
  {
    var n := Normalized(s.consumer);
    s.(consumer := Claimed(n, id, owner, ttl),
       past := s.past.(handed := s.past.handed[id := HandedOut(s.journal, id)]),
       granted := s.granted + [Lease(id, owner, n.batches[id].fence + 1)])
  }

  function FinishedBy(s: System, l: Lease, after: Consumer): System {
    var rows := if l.batch in s.past.handed then s.past.handed[l.batch] else {};
    s.(consumer := after, past := s.past.(analysed := s.past.analysed + rows))
  }

  function CompactedBy(s: System, through: nat, force: bool): System {
    var u := Compacted(s.consumer, through, force);
    s.(consumer := u, journal := Remaining(s.journal, through),
       owed := (set n | n in s.owed && through < n),
       past := s.past.(givenUp := s.past.givenUp + Lost(s, u, through)))
  }

  ghost function Step(s: System, a: Action): System
    requires Enabled(s, a)
  {
    var c := s.consumer;
    match a
    case Append(event, newest) => Appended(s, event, newest + 1)
    case SwitchJournal(on, newest) => Switched(s, on, newest)
    case Sweep(rows, limit, q, packed) => SweptBy(s, rows, q, packed)
    case Claim(id, owner, ttl) => ClaimedBy(s, id, owner, ttl)
    case ClaimNothing => s.(consumer := Normalized(c))
    case Finish(l, after) => FinishedBy(s, l, after)
    case Postpone(l, retryIn) => s.(consumer := Deferred(c, l, retryIn))
    case Compact(through, force) => CompactedBy(s, through, force)
    case Reset(newest) =>
      s.(consumer := WasReset(c, newest), owed := {}, past := s.past.(givenUp := s.past.givenUp + Unsettled(s)))
    case Replay(from) => s.(consumer := Replayed(c, from), past := s.past.(acknowledged := s.past.givenUp))
    case Configure(stalled, hold, enabled, maxAttempts) =>
      s.(consumer := c.(stalled := stalled, hold := hold, enabled := enabled, maxAttempts := maxAttempts))
    case Tick(now) => s.(consumer := c.(now := now))
  }

  ghost predicate IsRun(s: System, actions: seq<Action>)
    decreases |actions|
  {
    actions == [] || (Enabled(s, actions[0]) && IsRun(Step(s, actions[0]), actions[1..]))
  }

  ghost function After(s: System, actions: seq<Action>): System
    requires IsRun(s, actions)
    decreases |actions|
  {
    if actions == [] then s else After(Step(s, actions[0]), actions[1..])
  }

  lemma Before(s: System, a: Action, later: seq<Action>)
    requires Enabled(s, a) && IsRun(Step(s, a), later)
    ensures IsRun(s, [a] + later) && After(s, [a] + later) == After(Step(s, a), later)
  {
    assert ([a] + later)[1..] == later;
  }

  /** A consumer as it is first registered, over whatever the journal already holds. */
  ghost predicate Initial(s: System) {
    var c, h := s.consumer, s.past;
    && c.batches == map[] && c.doneThrough == c.cursor && !c.resync && c.receipts == {}
    && IsJournal(s.journal) && (forall n :: n in s.journal ==> s.journal[n].serial < h.appends)
    && s.owed == (set n | n in s.journal && IsAhead(s.journal, c.epoch, Start(s), n))
    && h == History(h.appends, {}, {}, {}, map[], {}, {}) && s.granted == []
  }

  // ---- what a sweep inserts -----------------------------------------------

  lemma {:induction false} EventInSomeBatch(packed: seq<Batch>, e: Event)
    requires e in AllEvents(packed)
    ensures exists i :: 0 <= i < |packed| && e in EventsOf(packed[i])
  {
    var n := |packed| - 1;
    if e !in EventsOf(packed[n]) {
      EventInSomeBatch(packed[..n], e);
      var i :| 0 <= i < n && e in EventsOf(packed[..n][i]);
      assert e in EventsOf(packed[i]);
    }
  }

  lemma {:induction false} KeptAreScanned(rows: seq<Event>, purpose: Purpose, sources: set<Source>)
    ensures forall e :: e in Kept(rows, purpose, sources) ==> e in rows
  {
    if rows != [] {
      KeptAreScanned(rows[..|rows| - 1], purpose, sources);
    }
  }

  /** The row is the fresh work of a batch packed in this scan. */
  ghost predicate IsFreshFrom(c: Consumer, packed: seq<Batch>, id: BatchId, w: Work)
    requires AreFlushable(packed)
  {
    exists i :: 0 <= i < |packed| && id == IdOf(packed[i]) && w == FreshWork(c, packed[i])
  }

  /** Rows already known stay as they are. */
  lemma {:induction false} InsertedKeeps(c: Consumer, batches: map<BatchId, Work>, packed: seq<Batch>, id: BatchId)
    requires AreFlushable(packed) && id in batches
    ensures id in Inserted(c, batches, packed) && Inserted(c, batches, packed)[id] == batches[id]
  {
    if packed != [] {
      InsertedKeeps(c, batches, packed[..|packed| - 1], id);
    }
  }

  /** A new row comes from some packed batch. */
  lemma {:induction false} InsertedComesFrom(c: Consumer, batches: map<BatchId, Work>, packed: seq<Batch>, id: BatchId)
    requires AreFlushable(packed)
    requires id in Inserted(c, batches, packed) && id !in batches
    ensures IsFreshFrom(c, packed, id, Inserted(c, batches, packed)[id])
  {
    if packed != [] {
      var n := |packed| - 1;
      if id in Inserted(c, batches, packed[..n]) {
        InsertedComesFrom(c, batches, packed[..n], id);
        FreshFromMore(c, packed, id, Inserted(c, batches, packed[..n])[id]);
      }
    }
  }

  lemma FreshFromMore(c: Consumer, packed: seq<Batch>, id: BatchId, w: Work)
    requires AreFlushable(packed) && packed != [] && IsFreshFrom(c, packed[..|packed| - 1], id, w)
    ensures IsFreshFrom(c, packed, id, w)
  {
    var fewer := packed[..|packed| - 1];
    var i :| 0 <= i < |fewer| && id == IdOf(fewer[i]) && w == FreshWork(c, fewer[i]);
    assert packed[i] == fewer[i];
  }

  /** Every packed batch has its row. */
  lemma {:induction false} InsertedHasAll(c: Consumer, batches: map<BatchId, Work>, packed: seq<Batch>, i: nat)
    requires AreFlushable(packed) && i < |packed|
    ensures IdOf(packed[i]) in Inserted(c, batches, packed)
  {
    if i < |packed| - 1 {
      InsertedHasAll(c, batches, packed[..|packed| - 1], i);
    }
  }

  /** Every packed event was scanned: it lies after the scan's start and not past its last row. */
  lemma PackedEventInScan(s: System, rows: seq<Event>, limit: nat, q: Limits, packed: seq<Batch>, i: nat, e: Event)
    requires IsSwept(s, rows, limit, q, packed) && i < |packed| && e in EventsOf(packed[i])
    ensures Start(s) < e.sequence <= CursorAfter(rows, Start(s))
  {
    PackedIsKept(s, rows, limit, q, packed, i, e);
  }

  /** The fresh work of a packed batch lies strictly between the scan's start and its last row. */
  lemma FreshWorkInScan(s: System, rows: seq<Event>, limit: nat, q: Limits, packed: seq<Batch>, id: BatchId, w: Work)
    requires IsSwept(s, rows, limit, q, packed) && IsFreshFrom(s.consumer, packed, id, w)
    ensures Start(s) < w.first <= w.last <= CursorAfter(rows, Start(s))
    ensures w.state != Leased && w.epoch == s.consumer.epoch
  {
    var i :| 0 <= i < |packed| && id == IdOf(packed[i]) && w == FreshWork(s.consumer, packed[i]);
    var events := EventsOf(packed[i]);
    var head, tail :| head in events && head.sequence == FirstOf(events) && tail in events && tail.sequence == LastOf(events);
    PackedEventInScan(s, rows, limit, q, packed, i, head);
    PackedEventInScan(s, rows, limit, q, packed, i, tail);
  }

  /** Rows of one identity are one row. */
  lemma IdentityIsUnique(journal: Entries, m: nat, n: nat)
    requires IsJournal(journal) && m in journal && n in journal
    requires IdentityOf(journal[m].event) == IdentityOf(journal[n].event)
    ensures m == n
  {
  }

  /** Fresh work under a journal row's identity was packed from that row. */
  lemma FreshWorkEncloses(s: System, rows: seq<Event>, limit: nat, q: Limits, packed: seq<Batch>, id: BatchId, w: Work, n: nat)
    requires IsSwept(s, rows, limit, q, packed) && IsFreshFrom(s.consumer, packed, id, w)
    requires IsJournal(s.journal) && n in s.journal && IdentityOf(s.journal[n].event) in id.events
    ensures w.first <= n <= w.last && Unfinished(w) && w.state != Leased && s.journal[n].event in Kept(rows, q.purpose, q.sources)
    ensures exists i :: 0 <= i < |packed| && IdOf(packed[i]) == id && s.journal[n].event in EventsOf(packed[i])
  {
    var i :| 0 <= i < |packed| && id == IdOf(packed[i]) && w == FreshWork(s.consumer, packed[i]);
    var e :| e in EventsOf(packed[i]) && IdentityOf(e) == IdentityOf(s.journal[n].event);
    PackedIsKept(s, rows, limit, q, packed, i, e);
    IdentityIsUnique(s.journal, e.sequence, n);
  }

  lemma PackedIsInKept(packed: seq<Batch>, kept: seq<Event>, i: nat, e: Event)
    requires multiset(AllEvents(packed)) == multiset(kept) && i < |packed| && e in EventsOf(packed[i])
    ensures e in kept
  {
    BatchEventInAll(packed, i, e);
    assert e in multiset(AllEvents(packed));
    assert e in multiset(kept);
  }

  lemma RowIsEntry(rows: seq<Event>, journal: Entries, epoch: nat, start: nat, limit: nat, e: Event)
    requires IsScan(rows, journal, epoch, start, limit) && e in rows
    ensures IsEntry(e, journal, epoch, start) && e.sequence <= CursorAfter(rows, start)
  {
    var k :| 0 <= k < |rows| && rows[k] == e;
    assert k < |rows| - 1 ==> rows[k].sequence < rows[|rows| - 1].sequence;
  }

  /** A packed event is a kept row of the journal. */
  lemma PackedIsKept(s: System, rows: seq<Event>, limit: nat, q: Limits, packed: seq<Batch>, i: nat, e: Event)
    requires IsSwept(s, rows, limit, q, packed) && i < |packed| && e in EventsOf(packed[i])
    ensures e in Kept(rows, q.purpose, q.sources) && e in rows && IsEntry(e, s.journal, s.consumer.epoch, Start(s))
    ensures e.sequence <= CursorAfter(rows, Start(s))
  {
    PackedIsInKept(packed, Kept(rows, q.purpose, q.sources), i, e);
    KeptAreScanned(rows, q.purpose, q.sources);
    RowIsEntry(rows, s.journal, s.consumer.epoch, Start(s), limit, e);
  }

  /** What one row looks like after a sweep. */
  ghost predicate RowAfterSweep(s: System, a: Action, id: BatchId)
    requires Enabled(s, a) && a.Sweep?
  {
    var c, u := s.consumer, Step(s, a).consumer;
    id in u.batches &&
    if id in c.batches then u.batches[id] == Repaused(c, id, c.batches[id])
    else IsFreshFrom(c, a.packed, id, u.batches[id])
  }

  lemma SweptRow(s: System, a: Action, id: BatchId)
    requires Enabled(s, a) && a.Sweep?
    requires id in s.consumer.batches || id in Step(s, a).consumer.batches
    ensures RowAfterSweep(s, a, id)
  {
    var c := s.consumer;
    var repaused := AllRepaused(c);
    if id in c.batches {
      InsertedKeeps(c, repaused, a.packed, id);
    } else {
      InsertedComesFrom(c, repaused, a.packed, id);
    }
  }

  lemma CursorMovesOn(s: System, a: Action)
    requires Enabled(s, a) && a.Sweep?
    ensures Start(s) <= Step(s, a).consumer.cursor
  {
    if a.rows != [] {
      assert IsEntry(a.rows[|a.rows| - 1], s.journal, s.consumer.epoch, Start(s));
    }
  }

  // ---- watermark ----------------------------------------------------------

  /** The watermark is behind the cursor and below everything unfinished. */
  ghost predicate Watermark(c: Consumer) {
    && c.doneThrough <= c.cursor
    && (forall id :: id in c.batches && Unfinished(c.batches[id]) ==> c.doneThrough < c.batches[id].first)
  }

  /** Some worker can still be given the batch: it is not quarantined and not of an older epoch. */
  predicate CanBeClaimed(c: Consumer, w: Work) {
    && w.epoch == c.epoch
    && (w.state in {Pending, Leased, Held} || (w.state == RetryWait && w.eligibleAt.Some?))
  }

  /** The batch counts for the watermark now or will when it completes. */
  predicate Counts(c: Consumer, w: Work) {
    w.state == Complete || CanBeClaimed(c, w)
  }

  ghost predicate IsSteadyRow(c: Consumer, w: Work) {
    && 0 < w.first <= w.last && w.state != Suppressed
    && (Unfinished(w) ==> c.doneThrough < w.first <= c.cursor + 1)
    && (Counts(c, w) ==> w.last <= c.cursor)
  }

  /** The watermark is right, and no completion can move it past the cursor. */
  ghost predicate Steady(c: Consumer) {
    c.doneThrough <= c.cursor && forall id :: id in c.batches ==> IsSteadyRow(c, c.batches[id])
  }

  /** A reset does not go back behind what completed batches already cover. */
  ghost predicate KeepsPace(s: System, a: Action) {
    var c := s.consumer;
    match a
    case Replay(_) => false
    case Reset(newest) =>
      && c.doneThrough <= newest
      && forall id :: id in c.batches && c.batches[id].state == Complete ==> c.batches[id].last <= newest
    case _ => true
  }

  ghost predicate KeepsPaceThroughout(s: System, actions: seq<Action>)
    requires IsRun(s, actions)
    decreases |actions|
  {
    actions == [] || (KeepsPace(s, actions[0]) && KeepsPaceThroughout(Step(s, actions[0]), actions[1..]))
  }

  /** The watermark and the cursor stay, no row is new, moved, reopened or counted again. */
  ghost predicate OnlySettles(c: Consumer, u: Consumer) {
    && u.doneThrough == c.doneThrough && u.cursor == c.cursor && u.epoch == c.epoch
    && u.batches.Keys == c.batches.Keys
    && (forall id :: id in c.batches ==> Settles(c, c.batches[id], u.batches[id]))
  }

  ghost predicate Settles(c: Consumer, v: Work, w: Work) {
    && w.first == v.first && w.last == v.last && w.priority == v.priority && (w.state == Suppressed ==> v.state == Suppressed)
    && (Unfinished(w) ==> Unfinished(v)) && (Counts(c, w) ==> Counts(c, v))
  }

  lemma SettlingKeepsSteady(c: Consumer, u: Consumer)
    requires Steady(c) && OnlySettles(c, u)
    ensures Steady(u)
  {
    forall id | id in u.batches ensures IsSteadyRow(u, u.batches[id]) {
      assert IsSteadyRow(c, c.batches[id]) && Settles(c, c.batches[id], u.batches[id]);
    }
  }

  lemma NormalizingSettles(c: Consumer)
    ensures OnlySettles(c, Normalized(c))
  {
  }

  lemma ClaimSettles(c: Consumer, id: BatchId, owner: Owner, ttl: nat)
    requires IsClaimable(Normalized(c), id)
    ensures OnlySettles(c, Claimed(Normalized(c), id, owner, ttl))
  {
    NormalizingSettles(c);
  }

  lemma DeferSettles(c: Consumer, l: Lease, retryIn: nat)
    requires ValidLease(c, l)
    ensures OnlySettles(c, Deferred(c, l, retryIn))
  {
  }

  lemma CompactingSettles(c: Consumer, through: nat, force: bool)
    ensures OnlySettles(c, Compacted(c, through, force))
  {
  }

  /** The steps that only move single rows. */
  predicate IsRowStep(a: Action) {
    !a.Sweep? && !a.Finish? && !a.Reset? && !a.Replay?
  }

  lemma RowStepSettles(s: System, a: Action)
    requires Enabled(s, a) && IsRowStep(a)
    ensures OnlySettles(s.consumer, Step(s, a).consumer)
  {
    match a
    case Append(_, _) =>
    case SwitchJournal(_, _) =>
    case Claim(id, owner, ttl) => ClaimSettles(s.consumer, id, owner, ttl);
    case ClaimNothing => NormalizingSettles(s.consumer);
    case Postpone(l, retryIn) => DeferSettles(s.consumer, l, retryIn);
    case Compact(through, force) => CompactingSettles(s.consumer, through, force);
    case Configure(_, _, _, _) =>
    case Tick(_) =>
  }

  lemma SweptRowIsSteady(s: System, a: Action, id: BatchId)
    requires Steady(s.consumer) && Enabled(s, a) && a.Sweep? && RowAfterSweep(s, a, id)
    ensures IsSteadyRow(Step(s, a).consumer, Step(s, a).consumer.batches[id])
  {
    var c, u := s.consumer, Step(s, a).consumer;
    if id in c.batches {
      assert IsSteadyRow(c, c.batches[id]);
      CursorMovesOn(s, a);
    } else {
      FreshWorkInScan(s, a.rows, a.limit, a.q, a.packed, id, u.batches[id]);
    }
  }

  lemma SweepKeepsSteady(s: System, a: Action)
    requires Steady(s.consumer) && Enabled(s, a) && a.Sweep?
    ensures Steady(Step(s, a).consumer)
  {
    var u := Step(s, a).consumer;
    forall id | id in u.batches ensures IsSteadyRow(u, u.batches[id]) {
      SweptRow(s, a, id);
      SweptRowIsSteady(s, a, id);
    }
    CursorMovesOn(s, a);
  }

  /** After a completion the watermark stays behind `top` and below unfinished work, if all that counts ends there. */
  lemma AdvancedStaysBelow(batches: map<BatchId, Work>, before: nat, after: nat, top: nat)
    requires IsAdvanced(batches, before, after) && before <= top
    requires forall id :: id in batches ==> 0 < batches[id].first
    requires forall id :: id in batches && Unfinished(batches[id]) ==> batches[id].first <= top + 1
    requires forall id :: id in batches && batches[id].state == Complete ==> batches[id].last <= top
    ensures after <= top
    ensures forall id :: id in batches && Unfinished(batches[id]) ==> after < batches[id].first
  {
  }

  lemma FinishKeepsSteady(s: System, a: Action)
    requires Steady(s.consumer) && Enabled(s, a) && a.Finish?
    ensures Steady(Step(s, a).consumer) && s.consumer.doneThrough <= Step(s, a).consumer.doneThrough
  {
    var c, u := s.consumer, Step(s, a).consumer;
    forall id | id in u.batches ensures IsSteadyRow(c, u.batches[id]) {
      assert IsSteadyRow(c, c.batches[id]);
    }
    AdvancedStaysBelow(u.batches, c.doneThrough, u.doneThrough, c.cursor);
    forall id | id in u.batches ensures IsSteadyRow(u, u.batches[id]) {
      assert IsSteadyRow(c, u.batches[id]);
    }
  }

  lemma ResetKeepsSteadyExactly(s: System, a: Action)
    requires Steady(s.consumer) && Enabled(s, a) && a.Reset?
    ensures (Steady(Step(s, a).consumer) && s.consumer.doneThrough <= Step(s, a).consumer.doneThrough) <==> KeepsPace(s, a)
  {
    var c, u := s.consumer, Step(s, a).consumer;
    if Steady(u) {
      forall id | id in c.batches && c.batches[id].state == Complete ensures c.batches[id].last <= a.newest {
        assert IsSteadyRow(u, u.batches[id]);
      }
    }
    if KeepsPace(s, a) {
      forall id | id in u.batches ensures IsSteadyRow(u, u.batches[id]) {
        assert IsSteadyRow(c, c.batches[id]);
      }
    }
  }

  /**
   Apart from replays, only a reset can disturb a steady consumer or take its
   watermark back, and it does exactly when compaction had removed entries that
   the watermark or a completed batch already covers.
   */
  lemma SteadyStepExactly(s: System, a: Action)
    requires Steady(s.consumer) && Enabled(s, a) && !a.Replay?
    ensures (Steady(Step(s, a).consumer) && s.consumer.doneThrough <= Step(s, a).consumer.doneThrough) <==> KeepsPace(s, a)
  {
    if a.Sweep? {
      SweepKeepsSteady(s, a);
    } else if a.Finish? {
      FinishKeepsSteady(s, a);
    } else if a.Reset? {
      ResetKeepsSteadyExactly(s, a);
    } else {
      RowStepSettles(s, a);
      SettlingKeepsSteady(s.consumer, Step(s, a).consumer);
    }
  }

  lemma {:induction false} SteadyOverRun(s: System, actions: seq<Action>)
    requires Steady(s.consumer) && IsRun(s, actions) && KeepsPaceThroughout(s, actions)
    ensures Steady(After(s, actions).consumer) && Watermark(After(s, actions).consumer)
    ensures s.consumer.doneThrough <= After(s, actions).consumer.doneThrough
    decreases |actions|
  {
    if actions == [] {
      SteadyIsSafe(s.consumer);
    } else {
      SteadyStepExactly(s, actions[0]);
      SteadyOverRun(Step(s, actions[0]), actions[1..]);
    }
  }

  lemma SteadyIsSafe(c: Consumer)
    requires Steady(c)
    ensures Watermark(c)
  {
    forall id | id in c.batches && Unfinished(c.batches[id]) ensures c.doneThrough < c.batches[id].first {
      assert IsSteadyRow(c, c.batches[id]);
    }
  }

  /** The watermark never moves back, from any point of a run to any later one. */
  lemma WatermarkNeverRecedes(s: System, before: seq<Action>, after: seq<Action>)
    requires Initial(s) && IsRun(s, before) && IsRun(After(s, before), after)
    requires KeepsPaceThroughout(s, before) && KeepsPaceThroughout(After(s, before), after)
    ensures After(s, before).consumer.doneThrough <= After(After(s, before), after).consumer.doneThrough
  {
    SteadyOverRun(s, before);
    SteadyOverRun(After(s, before), after);
  }

  // ---- fences -------------------------------------------------------------

  ghost predicate FencesAgree(c: Consumer, g: seq<Lease>) {
    && (forall i :: 0 <= i < |g| ==> g[i].batch in c.batches && g[i].fence <= c.batches[g[i].batch].fence)
    && (forall i, j :: 0 <= i < j < |g| && g[i].batch == g[j].batch ==> g[i].fence < g[j].fence)
    && (forall id, owner :: id in c.batches && c.batches[id].state == Leased && c.batches[id].owner == Some(owner) ==>
          Lease(id, owner, c.batches[id].fence) in g)
  }

  ghost predicate FenceInvariant(s: System) {
    FencesAgree(s.consumer, s.granted)
  }

  /** Rows keep their fence and no row becomes leased. */
  ghost predicate NoNewLease(c: Consumer, u: Consumer) {
    && (forall id :: id in c.batches ==> id in u.batches && u.batches[id].fence == c.batches[id].fence)
    && (forall id :: id in u.batches && u.batches[id].state == Leased ==>
          id in c.batches && c.batches[id].state == Leased && c.batches[id].owner == u.batches[id].owner)
  }

  lemma QuietStepKeepsFences(s: System, u: System)
    requires FenceInvariant(s) && NoNewLease(s.consumer, u.consumer) && u.granted == s.granted
    ensures FenceInvariant(u)
  {
  }

  lemma SweepGrantsNothing(s: System, a: Action)
    requires Enabled(s, a) && a.Sweep?
    ensures NoNewLease(s.consumer, Step(s, a).consumer)
  {
    var c, u := s.consumer, Step(s, a).consumer;
    forall id | id in c.batches ensures id in u.batches && u.batches[id].fence == c.batches[id].fence {
      SweptRow(s, a, id);
    }
    forall id | id in u.batches && u.batches[id].state == Leased
      ensures id in c.batches && c.batches[id].state == Leased && c.batches[id].owner == u.batches[id].owner
    {
      SweptRow(s, a, id);
    }
  }

  lemma NormalizedKeepsFences(c: Consumer, g: seq<Lease>)
    requires FencesAgree(c, g)
    ensures FencesAgree(Normalized(c), g)
  {
    assert NoNewLease(c, Normalized(c));
  }

  /** A grant on normalized rows: its fence tops every earlier grant of the batch. */
  lemma GrantKeepsFences(n: Consumer, g: seq<Lease>, id: BatchId, owner: Owner, ttl: nat)
    requires FencesAgree(n, g) && id in n.batches
    ensures FencesAgree(Claimed(n, id, owner, ttl), g + [Lease(id, owner, n.batches[id].fence + 1)])
  {
    var u, h := Claimed(n, id, owner, ttl), g + [Lease(id, owner, n.batches[id].fence + 1)];
    assert h[|g|] == Lease(id, owner, n.batches[id].fence + 1);
    forall x, o | x in u.batches && u.batches[x].state == Leased && u.batches[x].owner == Some(o)
      ensures Lease(x, o, u.batches[x].fence) in h
    {
      if x != id {
        assert Lease(x, o, n.batches[x].fence) in g;
      }
    }
  }

  /** What a claim does to the rows and to the grants. */
  lemma ClaimIs(s: System, a: Action)
    requires Enabled(s, a) && a.Claim?
    ensures a.choice in Normalized(s.consumer).batches
    ensures
      var n := Normalized(s.consumer);
      && Step(s, a).consumer == Claimed(n, a.choice, a.owner, a.ttl)
      && Step(s, a).granted == s.granted + [Lease(a.choice, a.owner, n.batches[a.choice].fence + 1)]
  {
  }

  lemma ClaimKeepsFences(s: System, a: Action)
    requires FenceInvariant(s) && Enabled(s, a) && a.Claim?
    ensures FenceInvariant(Step(s, a))
  {
    ClaimIs(s, a);
    NormalizedKeepsFences(s.consumer, s.granted);
    GrantKeepsFences(Normalized(s.consumer), s.granted, a.choice, a.owner, a.ttl);
  }

  lemma OtherRowStepGrantsNothing(s: System, a: Action)
    requires Enabled(s, a) && IsRowStep(a) && !a.Claim?
    ensures NoNewLease(s.consumer, Step(s, a).consumer) && Step(s, a).granted == s.granted
  {
  }

  lemma OtherStepGrantsNothing(s: System, a: Action)
    requires Enabled(s, a) && !IsRowStep(a)
    ensures NoNewLease(s.consumer, Step(s, a).consumer) && Step(s, a).granted == s.granted
  {
    if a.Sweep? {
      SweepGrantsNothing(s, a);
    }
  }

  lemma OtherStepKeepsFences(s: System, a: Action)
    requires FenceInvariant(s) && Enabled(s, a) && !a.Claim?
    ensures FenceInvariant(Step(s, a))
  {
    if IsRowStep(a) {
      OtherRowStepGrantsNothing(s, a);
    } else {
      OtherStepGrantsNothing(s, a);
    }
    QuietStepKeepsFences(s, Step(s, a));
  }

  lemma {:induction false} FencesOverRun(s: System, actions: seq<Action>)
    requires FenceInvariant(s) && IsRun(s, actions)
    ensures FenceInvariant(After(s, actions))
    decreases |actions|
  {
    if actions != [] {
      if actions[0].Claim? {
        ClaimKeepsFences(s, actions[0]);
      } else {
        OtherStepKeepsFences(s, actions[0]);
      }
      FencesOverRun(Step(s, actions[0]), actions[1..]);
    }
  }

  /**
   Fencing, replays included: a lease that completion or deferral accepts is
   one that was granted, and it is the newest grant of its batch; every other
   grant of that batch carries a strictly lower fence.
   */
  lemma AcceptedLeaseIsLatest(s: System, actions: seq<Action>, l: Lease)
    requires Initial(s) && IsRun(s, actions) && ValidLease(After(s, actions).consumer, l)
    ensures
      var g := After(s, actions).granted;
      && l in g
      && (forall i :: 0 <= i < |g| && g[i].batch == l.batch ==> g[i] == l || g[i].fence < l.fence)
  {
    FencesOverRun(s, actions);
    var g := After(s, actions).granted;
    assert l in g;
    var k :| 0 <= k < |g| && g[k] == l;
    forall i | 0 <= i < |g| && g[i].batch == l.batch ensures g[i] == l || g[i].fence < l.fence {
      if i < k {
        assert g[i].fence < g[k].fence;
      }
    }
  }
}
