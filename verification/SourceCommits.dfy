/**
 Stream leases and the one atomic page commit of a source connection: fences,
 generations, epochs, state versions and replay receipts.
 */
module SourceCommits {
  import opened Wrappers
  import opened SourceHeads

  type Owner = nat
  type OpId = nat
  type Cursor = nat
  type Instant = int

  datatype ConnectionState = Active | Paused | NeedsAuth | Disconnected

  datatype StreamKey = StreamKey(stream: nat, partition: nat, role: Role)

  datatype Stream = Stream(
    version: nat, cursor: Option<Cursor>, scan: nat, owner: Option<Owner>, fence: nat, until: Option<Instant>)

  /** The worker's copy; a complete commit advances its version and cursor. */
  datatype Lease = Lease(
    key: StreamKey, owner: Owner, fence: nat, version: nat, cursor: Option<Cursor>, scan: nat, generation: nat, epoch: nat)

  /** A page as its digest sees it; `extras` stands for coverage, items and quarantined entries. */
  datatype Page = Page(operations: seq<Operation>, next: Cursor, complete: bool, extras: nat)

  /** What a committed operation left behind: the digested input and the outcome. */
  datatype Receipt = Receipt(key: StreamKey, page: Page, outcome: seq<Verdict>)

  datatype Sync = Sync(
    state: ConnectionState, generation: nat, streams: map<StreamKey, Stream>,
    epoch: nat, receipts: map<OpId, Receipt>, archive: Archive, now: Instant)

  datatype ClaimResult = Granted(lease: Lease) | NotLeasing | HeldByOther

  datatype CommitResult =
    | Committed(outcome: seq<Verdict>, lease: Lease)
    | Replayed(outcome: seq<Verdict>)
    | UnknownStream | NotHeld | Fenced | StaleGeneration | StaleEpoch | Conflict | VersionChanged | OperationRefused

  // ---- leases -------------------------------------------------------------

  predicate IsLive(m: Stream, now: Instant) {
    m.until.Some? && m.until.value > now
  }

  const NEW_STREAM := Stream(1, None, 0, None, 0, None)

  function StreamOf(s: Sync, key: StreamKey): Stream {
    if key in s.streams then s.streams[key] else NEW_STREAM
  }

  function ClaimAnswer(s: Sync, key: StreamKey, owner: Owner): ClaimResult {
    var m := StreamOf(s, key);
    if s.state != Active then NotLeasing
    else if IsLive(m, s.now) && m.owner != Some(owner) then HeldByOther
    else
      Granted(Lease(key, owner, if IsLive(m, s.now) then m.fence else m.fence + 1,
                    m.version, m.cursor, m.scan, s.generation, s.epoch))
  }

  /** A refused claim is rolled back with its transaction. */
  function Claimed(s: Sync, key: StreamKey, owner: Owner, ttl: int): Sync {
    var answer := ClaimAnswer(s, key, owner);
    if !answer.Granted? then s
    else s.(streams := s.streams[key := StreamOf(s, key).(owner := Some(owner), fence := answer.lease.fence, until := Some(s.now + ttl))])
  }

  predicate IsHolder(s: Sync, l: Lease) {
    l.key in s.streams && s.streams[l.key].owner == Some(l.owner) && s.streams[l.key].fence == l.fence
  }

  function Released(s: Sync, l: Lease): Sync {
    if !IsHolder(s, l) then s else s.(streams := s.streams[l.key := s.streams[l.key].(owner := None, until := None)])
  }

  function Unleased(streams: map<StreamKey, Stream>): map<StreamKey, Stream> {
    map k | k in streams :: streams[k].(owner := None, until := None)
  }

  function Rescanned(m: Stream): Stream {
    m.(cursor := None, scan := m.scan + 1, version := m.version + 1)
  }

  function Stopped(s: Sync, state: ConnectionState): Sync {
    s.(state := state, generation := s.generation + 1, streams := Unleased(s.streams))
  }

  function Configured(s: Sync, scopeChanged: bool): Sync {
    var open := Unleased(s.streams);
    s.(state := Active, generation := s.generation + 1,
       streams := if scopeChanged then (map k | k in open :: Rescanned(open[k])) else open)
  }

  function Restarted(s: Sync, key: StreamKey): Sync {
    if s.state == Disconnected || key !in s.streams then s
    else s.(streams := s.streams[key := Rescanned(s.streams[key]).(owner := None, until := None)])
  }

  /** A reset of all memory: a new epoch, and no operation of the old one can be replayed. */
  function WasReset(s: Sync): Sync {
    s.(state := Paused, generation := s.generation + 1, streams := Unleased(s.streams), receipts := map[], epoch := s.epoch + 1)
  }

  // ---- commit -------------------------------------------------------------

  /** All operations of a page, in order; no value when one is refused. */
  function OperatedAll(a: Archive, ops: seq<Operation>, role: Role, order: VersionOrder): Option<Archive> {
    if ops == [] then Some(a)
    else
      var before := OperatedAll(a, ops[..|ops| - 1], role, order);
      if before.None? then None else Operated(before.value, ops[|ops| - 1], role, order)
  }

  function Verdicts(a: Archive, ops: seq<Operation>, role: Role, order: VersionOrder): seq<Verdict> {
    if ops == [] then []
    else
      var before := OperatedAll(a, ops[..|ops| - 1], role, order);
      if before.None? then []
      else Verdicts(a, ops[..|ops| - 1], role, order) + [VerdictOf(before.value, ops[|ops| - 1], role, order)]
  }

  /** The lease, the connection and the epoch are the current ones. */
  predicate IsCurrent(s: Sync, l: Lease) {
    IsHolder(s, l) && IsLive(s.streams[l.key], s.now) && s.state == Active && s.generation == l.generation && s.epoch == l.epoch
  }

  function AdvancedLease(l: Lease, page: Page): Lease {
    if page.complete then l.(version := l.version + 1, cursor := Some(page.next)) else l
  }

  function CommitAnswer(s: Sync, l: Lease, op: OpId, page: Page, order: VersionOrder): CommitResult {
    if l.key !in s.streams then UnknownStream
    else if !IsHolder(s, l) || !IsLive(s.streams[l.key], s.now) then NotHeld
    else if s.state != Active then Fenced
    else if s.generation != l.generation then StaleGeneration
    else if s.epoch != l.epoch then StaleEpoch
    else if op in s.receipts then
      if s.receipts[op].page != page || s.receipts[op].key != l.key then Conflict else Replayed(s.receipts[op].outcome)
    else if s.streams[l.key].version != l.version then VersionChanged
    else if OperatedAll(s.archive, page.operations, l.key.role, order).None? then OperationRefused
    else Committed(Verdicts(s.archive, page.operations, l.key.role, order), AdvancedLease(l, page))
  }

  function CommittedTo(s: Sync, l: Lease, op: OpId, page: Page, order: VersionOrder): Sync {
    var answer := CommitAnswer(s, l, op, page, order);
    if !answer.Committed? then s
    else
      var m := s.streams[l.key];
      s.(archive := OperatedAll(s.archive, page.operations, l.key.role, order).value,
         receipts := s.receipts[op := Receipt(l.key, page, answer.outcome)],
         streams := if page.complete then s.streams[l.key := m.(cursor := Some(page.next), version := m.version + 1)] else s.streams)
  }

  // ---- the connection object ----------------------------------------------

  class StreamSync {
    var state: ConnectionState
    var generation: nat
    var streams: map<StreamKey, Stream>
    var epoch: nat
    var receipts: map<OpId, Receipt>
    var archive: Archive
    var now: Instant

    ghost function State(): Sync
      reads this
    {
      Sync(state, generation, streams, epoch, receipts, archive, now)
    }

    constructor (s: Sync)
      ensures State() == s
    {
      state, generation, streams, epoch := s.state, s.generation, s.streams, s.epoch;
      receipts, archive, now := s.receipts, s.archive, s.now;
    }

    /** One active lease per stream: the same owner renews, expiry raises the fence. */
    method Claim(key: StreamKey, owner: Owner, ttl: int) returns (answer: ClaimResult)
      modifies this`streams
      ensures answer == ClaimAnswer(old(State()), key, owner)
      ensures State() == Claimed(old(State()), key, owner, ttl)
      ensures
        var m := if key in old(streams) then old(streams)[key] else NEW_STREAM;
        var running := m.until.Some? && now < m.until.value;
        && (answer.NotLeasing? <==> state != Active)
        && (answer.HeldByOther? <==> state == Active && running && m.owner != Some(owner))
        && (!answer.Granted? ==> streams == old(streams))
        && (answer.Granted? ==>
              var fence := if running then m.fence else m.fence + 1;
              streams == old(streams)[key := m.(owner := Some(owner), until := Some(now + ttl), fence := fence)])
    {
      if state != Active {
        return NotLeasing;
      }
      var m := if key in streams then streams[key] else NEW_STREAM;
      var live := m.until.Some? && m.until.value > now;
      if live && m.owner != Some(owner) {
        return HeldByOther;
      }
      var fence := m.fence;
      if !live || m.owner.None? {
        fence := fence + 1;
      }
      streams := streams[key := m.(owner := Some(owner), fence := fence, until := Some(now + ttl))];
      return Granted(Lease(key, owner, fence, m.version, m.cursor, m.scan, generation, epoch));
    }

    method Release(l: Lease) returns (released: bool)
      modifies this`streams
      ensures released == IsHolder(old(State()), l)
      ensures State() == Released(old(State()), l)
      ensures released ==> streams == old(streams)[l.key := old(streams)[l.key].(owner := None, until := None)]
      ensures !released ==> streams == old(streams)
    {
      if !(l.key in streams && streams[l.key].owner == Some(l.owner) && streams[l.key].fence == l.fence) {
        return false;
      }
      streams := streams[l.key := streams[l.key].(owner := None, until := None)];
      return true;
    }

    method Pause()
      modifies this`state, this`generation, this`streams
      ensures State() == Stopped(old(State()), Paused)
      ensures state == Paused && generation == old(generation) + 1 && streams.Keys == old(streams).Keys
      ensures forall k :: k in streams ==> streams[k] == old(streams)[k].(owner := None, until := None)
    {
      state, generation := Paused, generation + 1;
      streams := Unleased(streams);
    }

    method Disconnect()
      modifies this`state, this`generation, this`streams
      ensures State() == Stopped(old(State()), Disconnected)
      ensures state == Disconnected && generation == old(generation) + 1 && streams.Keys == old(streams).Keys
      ensures forall k :: k in streams ==> streams[k] == old(streams)[k].(owner := None, until := None)
    {
      state, generation := Disconnected, generation + 1;
      streams := Unleased(streams);
    }

    /** Resuming, and parking a connection whose account check failed. */
    method SetState(next: ConnectionState)
      modifies this`state
      ensures State() == old(State()).(state := next)
    {
      state := next;
    }

    method Configure(scopeChanged: bool)
      modifies this`state, this`generation, this`streams
      ensures State() == Configured(old(State()), scopeChanged)
      ensures state == Active && generation == old(generation) + 1 && streams.Keys == old(streams).Keys
      ensures forall k :: k in streams ==>
                var m := old(streams)[k];
                streams[k] == if scopeChanged then Stream(m.version + 1, None, m.scan + 1, None, m.fence, None)
                              else Stream(m.version, m.cursor, m.scan, None, m.fence, None)
    {
      state, generation := Active, generation + 1;
      streams := Unleased(streams);
      if scopeChanged {
        streams := map k | k in streams :: Rescanned(streams[k]);
      }
    }

    method RestartStream(key: StreamKey) returns (restarted: bool)
      modifies this`streams
      ensures State() == Restarted(old(State()), key)
      ensures restarted <==> old(state) != Disconnected
      ensures restarted && key in old(streams) ==>
                var m := old(streams)[key];
                streams == old(streams)[key := Stream(m.version + 1, None, m.scan + 1, None, m.fence, None)]
    {
      if state == Disconnected {
        return false;
      }
      if key in streams {
        streams := streams[key := Rescanned(streams[key]).(owner := None, until := None)];
      }
      return true;
    }

    method StartEpoch()
      modifies this`state, this`generation, this`streams, this`receipts, this`epoch
      ensures State() == WasReset(old(State()))
      ensures state == Paused && generation == old(generation) + 1 && epoch == old(epoch) + 1 && receipts == map[]
      ensures streams.Keys == old(streams).Keys
      ensures forall k :: k in streams ==> streams[k] == old(streams)[k].(owner := None, until := None)
    {
      state, generation, streams := Paused, generation + 1, Unleased(streams);
      receipts, epoch := map[], epoch + 1;
    }

    /** The page's operations on a working copy, which the transaction keeps or drops. */
    method OperateAll(
        ops: seq<Operation>, role: Role, order: VersionOrder) returns (working: Option<Archive>, outcome: seq<Verdict>)
      ensures working == OperatedAll(archive, ops, role, order)
      ensures working.Some? ==> outcome == Verdicts(archive, ops, role, order)
    {
      working, outcome := Some(archive), [];
      for i := 0 to |ops|
        invariant working.Some? && working == OperatedAll(archive, ops[..i], role, order)
        invariant outcome == Verdicts(archive, ops[..i], role, order)
      {
        assert ops[..i + 1][..i] == ops[..i];
        outcome := outcome + [VerdictOf(working.value, ops[i], role, order)];
        working := Operated(working.value, ops[i], role, order);
        if working.None? {
          RefusalStays(archive, ops, role, order, i + 1);
          return;
        }
      }
      assert ops[..|ops|] == ops;
    }

    /** The checks before anything is written; `None` lets the page through. */
    method Admission(l: Lease, op: OpId, page: Page) returns (answer: Option<CommitResult>)
      ensures answer.None? <==> IsCurrent(State(), l) && op !in receipts && streams[l.key].version == l.version
      ensures answer.Some? ==> forall order :: CommitAnswer(State(), l, op, page, order) == answer.value && !answer.value.Committed?
    {
      if l.key !in streams {
        return Some(UnknownStream);
      }
      var m := streams[l.key];
      if m.owner != Some(l.owner) || m.fence != l.fence || m.until.None? || m.until.value <= now {
        return Some(NotHeld);
      }
      if state != Active {
        return Some(Fenced);
      }
      if generation != l.generation {
        return Some(StaleGeneration);
      }
      if epoch != l.epoch {
        return Some(StaleEpoch);
      }
      if op in receipts {
        if receipts[op].page != page || receipts[op].key != l.key {
          return Some(Conflict);
        }
        return Some(Replayed(receipts[op].outcome));
      }
      if m.version != l.version {
        return Some(VersionChanged);
      }
      return None;
    }

    /** Records, heads, receipt and cursor move together or not at all. */
    method CommitPage(l: Lease, op: OpId, page: Page, order: VersionOrder) returns (answer: CommitResult)
      modifies this`archive, this`receipts, this`streams
      ensures answer == CommitAnswer(old(State()), l, op, page, order)
      ensures State() == CommittedTo(old(State()), l, op, page, order)
      ensures answer.Committed? ==>
                && l.key in old(streams) && old(streams)[l.key].until.Some? && now < old(streams)[l.key].until.value
                && op !in old(receipts) && receipts == old(receipts)[op := Receipt(l.key, page, answer.outcome)]
                && OperatedAll(old(archive), page.operations, l.key.role, order) == Some(archive)
      ensures !answer.Committed? ==> archive == old(archive) && receipts == old(receipts) && streams == old(streams)
    {
      var refused := Admission(l, op, page);
      if refused.Some? {
        return refused.value;
      }
      var working, outcome := OperateAll(page.operations, l.key.role, order);
      if working.None? {
        return OperationRefused;
      }
      archive := working.value;
      if page.complete {
        var m := streams[l.key];
        streams := streams[l.key := m.(cursor := Some(page.next), version := m.version + 1)];
      }
      receipts := receipts[op := Receipt(l.key, page, outcome)];
      return Committed(outcome, AdvancedLease(l, page));
    }
  }

  lemma {:induction false} RefusalStays(a: Archive, ops: seq<Operation>, role: Role, order: VersionOrder, n: nat)
    requires n <= |ops| && OperatedAll(a, ops[..n], role, order).None?
    ensures OperatedAll(a, ops, role, order).None?
  {
    if n == |ops| {
      assert ops[..n] == ops;
    } else {
      assert ops[..|ops| - 1][..n] == ops[..n];
      RefusalStays(a, ops[..|ops| - 1], role, order, n);
    }
  }
}
