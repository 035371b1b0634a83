/**
 One awareness consumer: batches materialised from the journal, leased with
 fences, retried, held while their source is paused, and a watermark that says
 up to where everything has been processed.
 */
module Awareness {
  import opened Wrappers
  import opened SweepPacking
  import opened Journal

  type Owner = nat
  type Instant = int

  datatype WorkState = Pending | Leased | RetryWait | Held | Complete | Quarantined | Cancelled | Suppressed

  /** A batch is identified by its decision, its source and its frozen set of event identities. */
  datatype BatchId = BatchId(decision: Decision, source: Source, events: set<EventId>)

  datatype Work = Work(
    first: nat, last: nat, priority: nat, state: WorkState, attempts: nat,
    owner: Option<Owner>, fence: nat, until: Option<Instant>, eligibleAt: Option<Instant>, epoch: nat)

  datatype Lease = Lease(batch: BatchId, owner: Owner, fence: nat)

  /** `receipts` are the ranges for which a suppression was recorded. */
  datatype Consumer = Consumer(
    batches: map<BatchId, Work>, cursor: nat, doneThrough: nat, resync: bool, receipts: set<(nat, nat)>,
    lastSource: Option<Source>,
    enabled: bool, hold: bool, maxAttempts: nat,
    stalled: set<Source>, epoch: nat, now: Instant)

  predicate Unfinished(w: Work) {
    w.state !in {Complete, Cancelled, Suppressed}
  }

  predicate Expired(w: Work, now: Instant) {
    w.until.None? || w.until.value <= now
  }

  // ---- eligibility --------------------------------------------------------

  /** The one rule the idle probe and the claim share. */
  predicate Claimable(c: Consumer, id: BatchId, w: Work) {
    && w.epoch == c.epoch
    && (|| w.state == Pending
        || (w.state == RetryWait && w.eligibleAt.Some? && w.eligibleAt.value <= c.now)
        || (w.state == Leased && Expired(w, c.now))
        || w.state == Held)
    && (c.hold ==> id.source !in c.stalled)
  }

  predicate IsClaimable(c: Consumer, id: BatchId) {
    id in c.batches && Claimable(c, id, c.batches[id])
  }

  /** The idle probe's view. */
  predicate Probe(c: Consumer) {
    exists id :: id in c.batches && IsClaimable(c, id)
  }

  // ---- claiming -----------------------------------------------------------

  /** The four recovery statements, as each applies to one row of the current epoch. */
  function ParkedPending(c: Consumer, id: BatchId, w: Work): Work {
    if c.hold && w.epoch == c.epoch && w.state == Pending && id.source in c.stalled
    then w.(state := Held, owner := None, until := None) else w
  }

  function ParkedLease(c: Consumer, id: BatchId, w: Work): Work {
    if c.hold && w.epoch == c.epoch && w.state == Leased && Expired(w, c.now) && id.source in c.stalled
    then w.(state := Held, owner := None, until := None) else w
  }

  function Reopened(c: Consumer, id: BatchId, w: Work): Work {
    if w.epoch == c.epoch && w.state == Leased && Expired(w, c.now)
    then w.(state := Pending, owner := None, until := None) else w
  }

  function Resumed(c: Consumer, id: BatchId, w: Work): Work {
    if w.epoch == c.epoch && w.state == Held && (c.hold ==> id.source !in c.stalled)
    then w.(state := Pending) else w
  }

  function Recovered(c: Consumer, id: BatchId, w: Work): Work {
    Resumed(c, id, Reopened(c, id, ParkedLease(c, id, ParkedPending(c, id, w))))
  }

  /** Whatever may wait or run again waits: held while its source is stalled under a hold, pending otherwise. */
  predicate IsNormal(v: Work, w: Work, isHeld: bool, now: Instant) {
    if v.state == Pending || v.state == Held || (v.state == Leased && (v.until.None? || v.until.value <= now))
    then
      && w.state == (if isHeld then Held else Pending) && (v.state == Leased ==> w.owner == None && w.until == None)
      && w == v.(state := w.state, owner := w.owner, until := w.until)
    else w == v
  }

  predicate AreNormal(c: Consumer, batches: map<BatchId, Work>) {
    && batches.Keys == c.batches.Keys
    && forall id :: id in batches ==>
         if c.batches[id].epoch == c.epoch then IsNormal(c.batches[id], batches[id], c.hold && id.source in c.stalled, c.now)
         else batches[id] == c.batches[id]
  }

  function Normalized(c: Consumer): Consumer {
    c.(batches := map id | id in c.batches :: Recovered(c, id, c.batches[id]))
  }

  lemma RecoveredIsNormal(c: Consumer, id: BatchId, w: Work)
    ensures if w.epoch == c.epoch then IsNormal(w, Recovered(c, id, w), c.hold && id.source in c.stalled, c.now)
            else Recovered(c, id, w) == w
  {
  }

  /** After recovery nothing is pending that is held back, and nothing waits that need not. */
  lemma NormalizedIsNormal(c: Consumer)
    ensures AreNormal(c, Normalized(c).batches)
  {
    forall id | id in c.batches
      ensures if c.batches[id].epoch == c.epoch
              then IsNormal(c.batches[id], Normalized(c).batches[id], c.hold && id.source in c.stalled, c.now)
              else Normalized(c).batches[id] == c.batches[id]
    {
      RecoveredIsNormal(c, id, c.batches[id]);
    }
  }

  /** Recovery moves rows between states but never changes who may be claimed. */
  lemma NormalizingKeepsClaimable(c: Consumer)
    ensures forall id :: IsClaimable(Normalized(c), id) <==> IsClaimable(c, id)
  {
  }

  lemma NormalizingKeepsProbe(c: Consumer)
    ensures Probe(Normalized(c)) <==> Probe(c)
  {
    NormalizingKeepsClaimable(c);
    if Probe(c) {
      var id :| id in c.batches && IsClaimable(c, id);
      assert IsClaimable(Normalized(c), id);
    }
  }

  /** Other sources than the last one first, then priority, then age. */
  ghost predicate IsChoice(c: Consumer, id: BatchId) {
    && IsClaimable(c, id)
    && (Some(id.source) == c.lastSource ==> forall x :: IsClaimable(c, x) ==> Some(x.source) == c.lastSource)
    && (forall x :: IsClaimable(c, x) && (Some(id.source) != c.lastSource ==> Some(x.source) != c.lastSource) ==>
          Precedes(c.batches[id], c.batches[x]))
  }

  predicate Precedes(v: Work, w: Work) {
    v.priority < w.priority || (v.priority == w.priority && v.first <= w.first)
  }

  function Claimed(c: Consumer, id: BatchId, owner: Owner, ttl: nat): Consumer
    requires id in c.batches
  {
    var w := c.batches[id];
    c.(batches := c.batches[id := w.(state := Leased, owner := Some(owner), fence := w.fence + 1,
                                     until := Some(c.now + ttl), eligibleAt := None, attempts := w.attempts + 1)],
       lastSource := Some(id.source))
  }

  /** Waiting, due for a retry, out of its lease, or held by a source that has resumed. */
  predicate IsDue(w: Work, epoch: nat, now: Instant) {
    && w.epoch == epoch
    && match w.state
       case Pending => true
       case Held => true
       case RetryWait => w.eligibleAt.Some? && w.eligibleAt.value <= now
       case Leased => w.until.None? || w.until.value <= now
       case _ => false
  }

  /** The policy does not hold the batch back. */
  predicate MayRun(c: Consumer, id: BatchId) {
    id in c.batches && IsDue(c.batches[id], c.epoch, c.now) && !(c.hold && id.source in c.stalled)
  }

  /** Another source than the last one goes first, then what is more urgent, then what is older. */
  ghost predicate GoesFirst(c: Consumer, id: BatchId) {
    && MayRun(c, id)
    && forall x :: MayRun(c, x) ==>
         if Some(id.source) == c.lastSource then Some(x.source) == c.lastSource && !IsBefore(c.batches[x], c.batches[id])
         else Some(x.source) == c.lastSource || !IsBefore(c.batches[x], c.batches[id])
  }

  predicate IsBefore(v: Work, w: Work) {
    v.priority < w.priority || (v.priority == w.priority && v.first < w.first)
  }

  /** A grant takes the next fence, counts the attempt and ends after the given time. */
  predicate IsGranted(v: Work, w: Work, owner: Owner, end: Instant) {
    && w.state == Leased && w.owner == Some(owner) && w.until == Some(end) && w.eligibleAt == None
    && w.fence == v.fence + 1 && w.attempts == v.attempts + 1
    && w.first == v.first && w.last == v.last && w.priority == v.priority && w.epoch == v.epoch
  }

  lemma ChoiceGoesFirst(c: Consumer, id: BatchId)
    requires IsChoice(Normalized(c), id)
    ensures GoesFirst(c, id)
  {
    NormalizingKeepsClaimable(c);
    forall x ensures MayRun(c, x) <==> IsClaimable(c, x) {}
    var n := Normalized(c);
    forall x | x in c.batches
      ensures n.batches[x].priority == c.batches[x].priority && n.batches[x].first == c.batches[x].first
    {
    }
  }

  // ---- finishing ----------------------------------------------------------

  predicate ValidLease(c: Consumer, l: Lease) {
    l.batch in c.batches &&
    var w := c.batches[l.batch];
    w.state == Leased && w.owner == Some(l.owner) && w.fence == l.fence
    && w.until.Some? && w.until.value > c.now && w.epoch == c.epoch
  }

  /** The processed watermark after a completion. */
  ghost predicate IsAdvanced(batches: map<BatchId, Work>, before: nat, after: nat) {
    if exists id :: id in batches && Unfinished(batches[id]) then
      exists id :: id in batches && Unfinished(batches[id])
        && after == (if batches[id].first == 0 then 0 else batches[id].first - 1)
        && forall x :: x in batches && Unfinished(batches[x]) ==> batches[id].first <= batches[x].first
    else
      && after >= before
      && (forall x :: x in batches && batches[x].state == Complete ==> batches[x].last <= after)
      && (after == before || exists x :: x in batches && batches[x].state == Complete && batches[x].last == after)
  }

  function Closed(c: Consumer, id: BatchId): map<BatchId, Work>
    requires id in c.batches
  {
    c.batches[id := c.batches[id].(state := Complete, owner := None, until := None)]
  }

  /** The lease is the batch's own, and its time is not over. */
  predicate IsHeldUntilAfter(w: Work, l: Lease, now: Instant) {
    w.state == Leased && w.owner == Some(l.owner) && w.fence == l.fence && w.until.Some? && now < w.until.value
  }

  ghost predicate CompletedTo(c: Consumer, l: Lease, d: Consumer) {
    && ValidLease(c, l)
    && d == c.(batches := Closed(c, l.batch), doneThrough := d.doneThrough)
    && IsAdvanced(d.batches, c.doneThrough, d.doneThrough)
  }

  function Deferred(c: Consumer, l: Lease, retryIn: nat): Consumer
    requires ValidLease(c, l)
  {
    var w := c.batches[l.batch];
    var exhausted := w.attempts >= c.maxAttempts;
    c.(batches := c.batches[l.batch := w.(state := if exhausted then Quarantined else RetryWait, owner := None, until := None,
                                          eligibleAt := if exhausted then None else Some(c.now + retryIn))])
  }

  // ---- sweeping -----------------------------------------------------------

  function Members(b: Batch): set<EventId> {
    set e | e in EventsOf(b) :: IdentityOf(e)
  }

  function FirstOf(events: seq<Event>): (first: nat)
    requires events != []
    ensures forall e :: e in events ==> first <= e.sequence
    ensures exists e :: e in events && e.sequence == first
  {
    var last := events[|events| - 1];
    if |events| == 1 then last.sequence
    else
      var rest := FirstOf(events[..|events| - 1]);
      if last.sequence < rest then last.sequence else rest
  }

  function LastOf(events: seq<Event>): (latest: nat)
    requires events != []
    ensures forall e :: e in events ==> e.sequence <= latest
    ensures exists e :: e in events && e.sequence == latest
  {
    var last := events[|events| - 1];
    if |events| == 1 then last.sequence
    else
      var rest := LastOf(events[..|events| - 1]);
      if last.sequence > rest then last.sequence else rest
  }

  function PriorityOf(d: Decision): nat {
    match d
    case BackgroundPrompt => 0
    case NextTurn => 0
    case BackgroundDigest => 1
    case RecordOnly => 9
  }

  function IdOf(b: Batch): BatchId
    requires b != []
  {
    BatchId(b[0].key.decision, b[0].key.source, Members(b))
  }

  function FreshWork(c: Consumer, b: Batch): Work
    requires b != [] && EventsOf(b) != []
  {
    Work(FirstOf(EventsOf(b)), LastOf(EventsOf(b)), PriorityOf(b[0].key.decision),
         if c.hold && b[0].key.source in c.stalled then Held else Pending,
         0, None, 0, None, None, c.epoch)
  }

  predicate AreFlushable(packed: seq<Batch>) {
    forall i :: 0 <= i < |packed| ==> packed[i] != [] && EventsOf(packed[i]) != []
  }

  /** Insert each packed batch unless its identity is already known. */
  function Inserted(c: Consumer, batches: map<BatchId, Work>, packed: seq<Batch>): map<BatchId, Work>
    requires AreFlushable(packed)
  {
    if packed == [] then batches
    else
      var b := packed[|packed| - 1];
      var before := Inserted(c, batches, packed[..|packed| - 1]);
      if IdOf(b) in before then before else before[IdOf(b) := FreshWork(c, b)]
  }

  /** Pausing and resuming as the sweep applies it, before new batches arrive. */
  function Repaused(c: Consumer, id: BatchId, w: Work): Work {
    var parked := if c.hold && w.state == Pending && id.source in c.stalled then w.(state := Held, owner := None, until := None) else w;
    if parked.state == Held && (!c.hold || id.source !in c.stalled) then parked.(state := Pending) else parked
  }

  function AllRepaused(c: Consumer): map<BatchId, Work> {
    map id | id in c.batches :: Repaused(c, id, c.batches[id])
  }

  /** The range of a scan that passed something over; recording it twice is an error. */
  function Receipts(rows: seq<Event>, start: nat, q: Limits): set<(nat, nat)> {
    if Suppresses(rows, q) then {(start, CursorAfter(rows, start))} else {}
  }

  function Swept(c: Consumer, packed: seq<Batch>, cursor: nat, receipts: set<(nat, nat)>, gap: bool): Consumer
    requires AreFlushable(packed)
  {
    c.(batches := Inserted(c, AllRepaused(c), packed),
       cursor := cursor, receipts := c.receipts + receipts, resync := c.resync || gap)
  }

  /** Where the next scan starts: behind the cursor, and not before the journal was last switched on. */
  function StartOf(c: Consumer, startAt: nat): nat {
    if c.cursor < startAt then startAt else c.cursor
  }

  // ---- administration -----------------------------------------------------

  predicate CrossesUnfinished(c: Consumer, through: nat) {
    exists id :: id in c.batches && c.batches[id].first <= through && Unfinished(c.batches[id])
  }

  /** Compaction is refused across unread or unfinished work unless it is forced. */
  predicate MayCompact(c: Consumer, through: nat, force: bool) {
    force || (through <= c.cursor && !CrossesUnfinished(c, through))
  }

  /** A forced compaction cancels the unfinished work it cuts into and flags the gap. */
  function Compacted(c: Consumer, through: nat, force: bool): Consumer {
    if !force then c
    else c.(batches := map id | id in c.batches :: Cut(c.batches[id], through),
            resync := c.resync || c.cursor < through || c.doneThrough < through || CrossesUnfinished(c, through))
  }

  function Cut(w: Work, through: nat): Work {
    if w.first <= through && Unfinished(w) then w.(state := Cancelled, owner := None, until := None) else w
  }

  function Remaining(journal: Entries, through: nat): Entries {
    map n | n in journal && through < n :: journal[n]
  }

  /** A reset of all memory starts a new epoch at the newest journal entry. */
  function WasReset(c: Consumer, newest: nat): Consumer {
    c.(epoch := c.epoch + 1, cursor := newest, doneThrough := newest, resync := true,
       batches := map id | id in c.batches :: Abandoned(c.batches[id]))
  }

  function Abandoned(w: Work): Work {
    if w.state !in {Complete, Cancelled} then w.(state := Cancelled, owner := None, until := None) else w
  }

  predicate IsReplayed(c: Consumer, from: nat, w: Work) {
    w.state in {Complete, Suppressed} && w.last >= (if from == 0 then 1 else from) && w.first <= c.cursor
  }

  function RewoundTo(from: nat): nat {
    if from == 0 then 0 else from - 1
  }

  /** Finished batches in range are reopened, whatever their epoch, and the scan position goes back. */
  function Replayed(c: Consumer, from: nat): Consumer {
    c.(cursor := RewoundTo(from), resync := false,
       batches := map id | id in c.batches ::
         if IsReplayed(c, from, c.batches[id])
         then c.batches[id].(state := Pending, owner := None, until := None, eligibleAt := None) else c.batches[id])
  }

  // ---- the consumer object ------------------------------------------------

  class AwarenessConsumer {
    var batches: map<BatchId, Work>
    var cursor: nat
    var doneThrough: nat
    var resync: bool
    var receipts: set<(nat, nat)>
    var lastSource: Option<Source>
    var enabled: bool
    var hold: bool
    var maxAttempts: nat
    var stalled: set<Source>
    var epoch: nat
    var now: Instant

    ghost function State(): Consumer
      reads this
    {
      Consumer(batches, cursor, doneThrough, resync, receipts, lastSource, enabled, hold, maxAttempts, stalled, epoch, now)
    }

    constructor (c: Consumer)
      ensures State() == c
    {
      batches, cursor, doneThrough, resync := c.batches, c.cursor, c.doneThrough, c.resync;
      receipts, lastSource := c.receipts, c.lastSource;
      enabled, hold, maxAttempts, stalled, epoch, now := c.enabled, c.hold, c.maxAttempts, c.stalled, c.epoch, c.now;
    }

    /** This consumer's row and batches, as a query reads them. */
    method Read() returns (c: Consumer)
      ensures c == State()
    {
      c := Consumer(batches, cursor, doneThrough, resync, receipts, lastSource, enabled, hold, maxAttempts, stalled, epoch, now);
    }

    /** The scheduler's cheap question. */
    method HasClaimable() returns (claimable: bool)
      ensures claimable <==> Probe(State())
    {
      var c := Read();
      claimable := exists id :: id in batches && IsClaimable(c, id);
    }

    /** The recovery statements that run before a lease is granted. */
    method Normalize()
      modifies this`batches
      ensures State() == Normalized(old(State()))
    {
      var c := Read();
      Park(c);
      ghost var parked := batches;
      batches := map id | id in batches :: Reopened(c, id, batches[id]);
      batches := map id | id in batches :: Resumed(c, id, batches[id]);
      RecoveredInOrder(c, parked, batches);
    }

    /** The two statements that run under a hold. */
    method Park(c: Consumer)
      requires c == State()
      modifies this`batches
      ensures batches.Keys == c.batches.Keys
      ensures forall id :: id in batches ==> batches[id] == ParkedLease(c, id, ParkedPending(c, id, c.batches[id]))
    {
      if hold {
        batches := map id | id in batches :: ParkedPending(c, id, batches[id]);
        batches := map id | id in batches :: ParkedLease(c, id, batches[id]);
      } else {
        NothingParked(c);
      }
    }

    /** The first candidate, preferring a source other than the last one served. */
    method Pick() returns (choice: Option<BatchId>)
      ensures choice.Some? <==> enabled && Probe(State())
      ensures choice.Some? ==> IsChoice(State(), choice.value)
    {
      var n := Read();
      var candidates := set id | id in batches && IsClaimable(n, id);
      CandidatesAgree(n, candidates);
      if candidates == {} || !enabled {
        return None;
      }
      var preferred := set id | id in candidates && Some(id.source) != lastSource;
      var pool := if preferred != {} then preferred else candidates;
      FirstInOrderExists(pool, batches);
      var id :| id in pool && forall x :: x in pool ==> Precedes(batches[id], batches[x]);
      FirstOfPoolIsChoice(n, candidates, pool, id);
      return Some(id);
    }

    method Grant(id: BatchId, owner: Owner, ttl: nat) returns (lease: Lease)
      requires id in batches
      modifies this`batches, this`lastSource
      ensures State() == Claimed(old(State()), id, owner, ttl)
      ensures lease == Lease(id, owner, old(batches)[id].fence + 1)
    {
      var w := batches[id];
      batches := batches[id := w.(state := Leased, owner := Some(owner), fence := w.fence + 1,
                                  until := Some(now + ttl), eligibleAt := None, attempts := w.attempts + 1)];
      lastSource := Some(id.source);
      lease := Lease(id, owner, w.fence + 1);
    }

    /** Lease the next batch; the answer agrees with the probe asked at the same instant. */
    method Claim(owner: Owner, ttl: nat) returns (lease: Option<Lease>)
      modifies this`batches, this`lastSource
      ensures lease.Some? <==> old(enabled) && Probe(old(State()))
      ensures lease.None? ==> State() == Normalized(old(State()))
      ensures lease.Some? ==>
                var n := Normalized(old(State()));
                && IsChoice(n, lease.value.batch)
                && State() == Claimed(n, lease.value.batch, owner, ttl)
                && lease.value == Lease(lease.value.batch, owner, n.batches[lease.value.batch].fence + 1)
      ensures lease.Some? ==>
                var id := lease.value.batch;
                && GoesFirst(old(State()), id) && IsGranted(old(batches)[id], batches[id], owner, old(now) + ttl)
                && lease.value.fence == batches[id].fence && lastSource == Some(id.source)
    {
      NormalizingKeepsProbe(State());
      Normalize();
      var choice := Pick();
      if choice.None? {
        return None;
      }
      ChoiceGoesFirst(old(State()), choice.value);
      var granted := Grant(choice.value, owner, ttl);
      return Some(granted);
    }

    predicate Holds(l: Lease)
      reads this
    {
      l.batch in batches &&
      var w := batches[l.batch];
      w.state == Leased && w.owner == Some(l.owner) && w.fence == l.fence
      && w.until.Some? && w.until.value > now && w.epoch == epoch
    }

    /** Where the watermark goes, given what is left unfinished. */
    method AdvanceDone() returns (done: nat)
      ensures IsAdvanced(batches, doneThrough, done)
      ensures forall id :: id in batches && Unfinished(batches[id]) ==> done < batches[id].first || batches[id].first == 0
      ensures (exists id :: id in batches && Unfinished(batches[id])) ==>
                exists id :: id in batches && Unfinished(batches[id]) && (done + 1 == batches[id].first || done == batches[id].first == 0)
      ensures (forall id :: id in batches ==> !Unfinished(batches[id])) ==>
                done >= doneThrough && forall id :: id in batches && batches[id].state == Complete ==> batches[id].last <= done
    {
      var unfinished := set id | id in batches && Unfinished(batches[id]);
      if unfinished != {} {
        EarliestExists(unfinished, batches);
        var id :| id in unfinished && forall x :: x in unfinished ==> batches[id].first <= batches[x].first;
        return if batches[id].first == 0 then 0 else batches[id].first - 1;
      }
      assert forall id :: id in batches && Unfinished(batches[id]) ==> id in unfinished;
      done := doneThrough;
      var complete := set id | id in batches && batches[id].state == Complete;
      ghost var all := complete;
      while complete != {}
        invariant complete <= all && done >= doneThrough
        invariant forall x :: x in all - complete ==> batches[x].last <= done
        invariant done == doneThrough || exists x :: x in all && batches[x].last == done
      {
        var id :| id in complete;
        if batches[id].last > done {
          done := batches[id].last;
        }
        complete := complete - {id};
      }
    }

    method CompleteBatch(l: Lease) returns (accepted: bool)
      modifies this`batches, this`doneThrough
      ensures accepted <==> ValidLease(old(State()), l)
      ensures accepted <==>
                l.batch in old(batches) && IsHeldUntilAfter(old(batches)[l.batch], l, now) && old(batches)[l.batch].epoch == epoch
      ensures !accepted ==> State() == old(State())
      ensures accepted ==> CompletedTo(old(State()), l, State())
    {
      if !Holds(l) {
        return false;
      }
      batches := batches[l.batch := batches[l.batch].(state := Complete, owner := None, until := None)];
      doneThrough := AdvanceDone();
      return true;
    }

    method DeferBatch(l: Lease, retryIn: nat) returns (accepted: bool)
      modifies this`batches
      ensures accepted <==> ValidLease(old(State()), l)
      ensures State() == if accepted then Deferred(old(State()), l, retryIn) else old(State())
      ensures accepted ==>
                var v, w := old(batches)[l.batch], batches[l.batch];
                && w.owner == None && w.until == None && w.attempts == v.attempts && w.fence == v.fence
                && (if v.attempts < maxAttempts then w.state == RetryWait && w.eligibleAt == Some(now + retryIn)
                    else w.state == Quarantined)
    {
      if !Holds(l) {
        return false;
      }
      var w := batches[l.batch];
      var exhausted := w.attempts >= maxAttempts;
      batches := batches[l.batch := w.(state := if exhausted then Quarantined else RetryWait, owner := None, until := None,
                                       eligibleAt := if exhausted then None else Some(now + retryIn))];
      return true;
    }

    /** Pause and resume stored batches as the sweep does. */
    method Repause()
      modifies this`batches
      ensures batches == AllRepaused(old(State())) && batches.Keys == old(batches).Keys
      ensures forall id :: id in batches ==>
                var v, isHeld := old(batches)[id], hold && id.source in stalled;
                if v.state == Pending && isHeld then batches[id] == v.(state := Held, owner := None, until := None)
                else batches[id] == v.(state := if v.state == Held && !isHeld then Pending else v.state)
    {
      var c := Read();
      batches := map id | id in batches :: Repaused(c, id, batches[id]);
    }

    /** Write the packed batches, ignoring identities that are already known. */
    method Flush(packed: seq<Batch>, c: Consumer)
      requires AreFlushable(packed)
      modifies this`batches
      ensures batches == Inserted(c, old(batches), packed)
    {
      for i := 0 to |packed|
        invariant batches == Inserted(c, old(batches), packed[..i])
      {
        assert packed[..i + 1][..i] == packed[..i];
        var id := IdOf(packed[i]);
        if id !in batches {
          batches := batches[id := FreshWork(c, packed[i])];
        }
      }
      assert packed[..|packed|] == packed;
    }

    /**
     Scan the oldest unread entries into batches and move the cursor, in one
     transaction; nothing happens while the journal or the consumer is off, and
     everything is rolled back when the suppression of this range is on record.
     */
    method Sweep(journal: Entries, on: bool, startAt: nat, limit: nat, q: Limits)
      returns (completed: bool, rows: seq<Event>, packed: seq<Batch>, suppressed: nat)
      requires IsNumbered(journal) && q.cap > 0
      modifies this`batches, this`cursor, this`resync, this`receipts
      ensures !on || !enabled ==> completed && State() == old(State()) && rows == [] && packed == [] && suppressed == 0
      ensures on && enabled ==> IsScan(rows, journal, epoch, if old(cursor) < startAt then startAt else old(cursor), limit)
      ensures ArePacked(packed, q) && AreFlushable(packed)
      ensures multiset(AllEvents(packed)) == multiset(Kept(rows, q.purpose, q.sources))
      ensures suppressed + |AllEvents(packed)| == |rows| && Attends(packed, rows, q)
      ensures on && enabled ==>
                var start := StartOf(old(State()), startAt);
                && (completed <==> Receipts(rows, start, q) !! old(receipts))
                && State() == if completed then Swept(old(State()), packed, CursorAfter(rows, start),
                                                      Receipts(rows, start, q), HasGap(journal, epoch, start))
                              else old(State())
    {
      if !on || !enabled {
        return true, [], [], 0;
      }
      var c := Read();
      var start := StartOf(c, startAt);
      var gap := LooksForGap(journal, epoch, start);
      rows := ReadOldest(journal, epoch, start, limit);
      var position;
      packed, suppressed, position := Batches(rows, start, q);
      completed := suppressed == 0 || (start, position) !in receipts;
      if completed {
        Record(packed, if suppressed > 0 then {(start, position)} else {}, position, gap);
      }
    }

    /** What the scan packs into, and how much of it was passed over. */
    method Batches(rows: seq<Event>, start: nat, q: Limits) returns (packed: seq<Batch>, suppressed: nat, position: nat)
      requires q.cap > 0
      ensures ArePacked(packed, q) && AreFlushable(packed)
      ensures multiset(AllEvents(packed)) == multiset(Kept(rows, q.purpose, q.sources))
      ensures suppressed + |AllEvents(packed)| == |rows| && Attends(packed, rows, q) && (suppressed > 0 <==> Suppresses(rows, q))
      ensures position == CursorAfter(rows, start)
    {
      packed, suppressed, position := Materialize(rows, start, q);
      PackedAreFlushable(packed, q);
      assert |multiset(AllEvents(packed))| == |multiset(Kept(rows, q.purpose, q.sources))|;
    }

    /** The writes of a sweep. */
    method Record(packed: seq<Batch>, ranges: set<(nat, nat)>, position: nat, gap: bool)
      requires AreFlushable(packed)
      modifies this`batches, this`cursor, this`resync, this`receipts
      ensures State() == Swept(old(State()), packed, position, ranges, gap)
      ensures cursor == position && receipts == old(receipts) + ranges && (resync <==> old(resync) || gap)
    {
      var c := Read();
      Repause();
      Flush(packed, c);
      receipts := receipts + ranges;
      cursor, resync := position, resync || gap;
    }

    /** The administrator's compaction of the journal, as it touches this consumer. */
    method Compact(journal: Entries, through: nat, force: bool) returns (accepted: bool, left: Entries)
      modifies this`batches, this`resync
      ensures accepted <==> MayCompact(old(State()), through, force)
      ensures accepted && !force ==>
                through <= cursor && forall id :: id in batches && batches[id].first <= through ==> !Unfinished(batches[id])
      ensures forall n :: n in left <==> n in journal && (accepted ==> n > through)
      ensures accepted && force && (through > cursor || through > doneThrough) ==> resync
      ensures left == if accepted then Remaining(journal, through) else journal
      ensures State() == if accepted then Compacted(old(State()), through, force) else old(State())
    {
      var c := Read();
      var unfinished := set id | id in batches && batches[id].first <= through && Unfinished(batches[id]);
      CrossingAgrees(c, through, unfinished);
      if !force && (through > cursor || unfinished != {}) {
        return false, journal;
      }
      if force {
        CutThrough(through, unfinished);
      }
      return true, Remaining(journal, through);
    }

    /** Cancel the unfinished batches the compaction cuts into. */
    method CutThrough(through: nat, unfinished: set<BatchId>)
      requires unfinished == set id | id in batches && batches[id].first <= through && Unfinished(batches[id])
      modifies this`batches, this`resync
      ensures State() == Compacted(old(State()), through, true)
    {
      var c := Read();
      CrossingAgrees(c, through, unfinished);
      batches := map id | id in batches ::
        if id in unfinished then batches[id].(state := Cancelled, owner := None, until := None) else batches[id];
      resync := resync || cursor < through || doneThrough < through || unfinished != {};
      assert batches == Compacted(c, through, true).batches;
    }

    /** The consumer's share of a reset: a new epoch that starts at the newest journal row, and nothing left to run. */
    method StartEpoch(newest: nat)
      modifies this`batches, this`cursor, this`doneThrough, this`resync, this`epoch
      ensures State() == WasReset(old(State()), newest)
      ensures cursor == newest && doneThrough == newest && resync && epoch == old(epoch) + 1 && batches.Keys == old(batches).Keys
      ensures forall id :: id in batches ==>
                var v := old(batches)[id];
                batches[id] ==
                  if v.state == Complete || v.state == Cancelled then v else v.(state := Cancelled, owner := None, until := None)
    {
      batches := map id | id in batches :: Abandoned(batches[id]);
      cursor, doneThrough, resync, epoch := newest, newest, true, epoch + 1;
    }

    /** The administrator's replay; refused ahead of the scan position. */
    method Replay(from: nat) returns (accepted: bool)
      modifies this`batches, this`cursor, this`resync
      ensures accepted <==> from <= old(cursor)
      ensures State() == if accepted then Replayed(old(State()), from) else old(State())
      ensures accepted ==> cursor == (if from == 0 then 0 else from - 1) && !resync && batches.Keys == old(batches).Keys
      ensures accepted ==>
                forall id :: id in batches ==>
                  var v := old(batches)[id];
                  batches[id] ==
                    if (v.state == Complete || v.state == Suppressed) && v.last >= 1 && v.last >= from && v.first <= old(cursor)
                    then Work(v.first, v.last, v.priority, Pending, v.attempts, None, v.fence, None, None, v.epoch) else v
    {
      if from > cursor {
        return false;
      }
      var c := Read();
      var lowest := if from == 0 then 1 else from;
      var top := cursor;
      cursor, resync := RewoundTo(from), false;
      batches := map id | id in batches ::
        if batches[id].state in {Complete, Suppressed} && batches[id].last >= lowest && batches[id].first <= top
        then batches[id].(state := Pending, owner := None, until := None, eligibleAt := None) else batches[id];
      assert batches == Replayed(c, from).batches;
      return true;
    }
  }

  lemma CrossingAgrees(c: Consumer, through: nat, unfinished: set<BatchId>)
    requires unfinished == set id | id in c.batches && c.batches[id].first <= through && Unfinished(c.batches[id])
    ensures CrossesUnfinished(c, through) <==> unfinished != {}
  {
    if CrossesUnfinished(c, through) {
      var id :| id in c.batches && c.batches[id].first <= through && Unfinished(c.batches[id]);
      assert id in unfinished;
    }
  }

  lemma CandidatesAgree(n: Consumer, candidates: set<BatchId>)
    requires candidates == set id | id in n.batches && IsClaimable(n, id)
    ensures candidates != {} <==> Probe(n)
    ensures forall x :: x in candidates <==> IsClaimable(n, x)
  {
    if Probe(n) {
      var id :| id in n.batches && IsClaimable(n, id);
      assert id in candidates;
    }
  }

  lemma FirstOfPoolIsChoice(n: Consumer, candidates: set<BatchId>, pool: set<BatchId>, id: BatchId)
    requires forall x :: x in candidates <==> IsClaimable(n, x)
    requires
      var preferred := set x | x in candidates && Some(x.source) != n.lastSource;
      pool == if preferred != {} then preferred else candidates
    requires pool <= n.batches.Keys && id in pool && forall x :: x in pool ==> Precedes(n.batches[id], n.batches[x])
    ensures IsChoice(n, id)
  {
    var preferred := set x | x in candidates && Some(x.source) != n.lastSource;
    forall x | IsClaimable(n, x) ensures x in candidates && (x in preferred || Some(x.source) == n.lastSource) {}
  }

  lemma {:induction false} EarliestExists(pool: set<BatchId>, batches: map<BatchId, Work>)
    requires pool != {} && pool <= batches.Keys
    ensures exists id :: id in pool && forall x :: x in pool ==> batches[id].first <= batches[x].first
    decreases |pool|
  {
    var y :| y in pool;
    if pool == {y} {
      assert y in pool && forall x :: x in pool ==> batches[y].first <= batches[x].first;
    } else {
      EarliestExists(pool - {y}, batches);
      var id :| id in pool - {y} && forall x :: x in pool - {y} ==> batches[id].first <= batches[x].first;
      var best := if batches[id].first <= batches[y].first then id else y;
      assert best in pool && forall x :: x in pool ==> batches[best].first <= batches[x].first;
    }
  }

  lemma PackedAreFlushable(packed: seq<Batch>, q: Limits)
    requires ArePacked(packed, q)
    ensures AreFlushable(packed)
  {
    forall i | 0 <= i < |packed| ensures EventsOf(packed[i]) != [] {
      var b := packed[i];
      assert IsBatch(b, q);
      assert IsFiled(b[|b| - 1], q);
    }
  }

  lemma NothingParked(c: Consumer)
    requires !c.hold
    ensures forall id :: id in c.batches ==> c.batches[id] == ParkedLease(c, id, ParkedPending(c, id, c.batches[id]))
  {
  }

  lemma RecoveredInOrder(c: Consumer, parked: map<BatchId, Work>, after: map<BatchId, Work>)
    requires parked.Keys == c.batches.Keys == after.Keys
    requires forall id :: id in parked ==> parked[id] == ParkedLease(c, id, ParkedPending(c, id, c.batches[id]))
    requires forall id :: id in after ==> after[id] == Resumed(c, id, Reopened(c, id, parked[id]))
    ensures c.(batches := after) == Normalized(c)
  {
    assert after == Normalized(c).batches;
  }

  lemma {:induction false} FirstInOrderExists(pool: set<BatchId>, batches: map<BatchId, Work>)
    requires pool != {} && pool <= batches.Keys
    ensures exists id :: id in pool && forall x :: x in pool ==> Precedes(batches[id], batches[x])
    decreases |pool|
  {
    var y :| y in pool;
    if pool == {y} {
      assert y in pool && forall x :: x in pool ==> Precedes(batches[y], batches[x]);
    } else {
      FirstInOrderExists(pool - {y}, batches);
      var id :| id in pool - {y} && forall x :: x in pool - {y} ==> Precedes(batches[id], batches[x]);
      var best := if Precedes(batches[id], batches[y]) then id else y;
      assert best in pool && forall x :: x in pool ==> Precedes(batches[best], batches[x]);
    }
  }
}
