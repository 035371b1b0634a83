/**
 From journal rows to analysis batches: the attention decision for one event,
 grouping by conversation or item, and the greedy packing of groups into
 batches bounded by a number of parts and a size budget.
 */
module SweepPacking {
  import opened Wrappers

  type Source = nat

  datatype Kind =
    | Created | ContentUpdated | MetadataUpdated | Removed | Restored
    | SyncGap | BackfillProgress | BackfillComplete | Enrichment

  datatype Novelty = Historical | LiveArrival | Recovered | Unclear
  datatype Origin = Backfill | Incremental | Reconcile | Derived
  datatype Purpose = Foreground | Background
  datatype Decision = RecordOnly | NextTurn | BackgroundDigest | BackgroundPrompt

  datatype Event = Event(
    sequence: nat, kind: Kind, novelty: Novelty, origin: Origin,
    source: Source, stream: nat, item: nat, version: nat, conversation: Option<nat>,
    textChars: nat, recordCount: nat)

  /** What the service derives an event's identity from: the item, its transition version and the kind. */
  datatype EventId = EventId(source: Source, item: nat, version: nat, kind: Kind)

  function IdentityOf(e: Event): EventId {
    EventId(e.source, e.item, e.version, e.kind)
  }

  predicate SameItem(e: Event, f: Event) {
    e.source == f.source && e.item == f.item
  }

  datatype Group = Conversation(key: nat) | Item(stream: nat, item: nat)
  datatype Key = Key(decision: Decision, source: Source, group: Group)

  /** Some events of one group, in journal order. */
  datatype Part = Part(key: Key, events: seq<Event>)
  type Batch = seq<Part>

  predicate IsArrival(kind: Kind) {
    kind == Created || kind == ContentUpdated || kind == Enrichment
  }

  function Decide(e: Event, purpose: Purpose): Decision {
    if e.origin == Derived && e.kind != Enrichment then RecordOnly
    else if e.kind == BackfillProgress || e.kind == BackfillComplete then
      if purpose == Background then BackgroundDigest else RecordOnly
    else if !IsArrival(e.kind) then RecordOnly
    else if e.novelty == LiveArrival then
      if purpose == Foreground then NextTurn else BackgroundPrompt
    else if e.novelty == Recovered || e.novelty == Unclear then
      if purpose == Background then BackgroundDigest else RecordOnly
    else RecordOnly
  }

  /** The decision once the operator's list of sources has had its say. */
  function Attended(e: Event, purpose: Purpose, sources: set<Source>): Decision {
    var d := Decide(e, purpose);
    if d != RecordOnly && sources != {} && e.source !in sources then RecordOnly else d
  }

  function GroupOf(e: Event): Group {
    match e.conversation
    case Some(key) => Conversation(key)
    case None => Item(e.stream, e.item)
  }

  function KeyOf(e: Event, purpose: Purpose, sources: set<Source>): Key {
    Key(Attended(e, purpose, sources), e.source, GroupOf(e))
  }

  function EventChars(e: Event): (chars: nat)
    ensures chars >= 500 && chars >= e.textChars
    ensures e.recordCount <= 8 ==> chars >= e.textChars + 150 * e.recordCount
    ensures chars <= 500 || chars <= e.textChars + 1200
  {
    var raw := e.textChars + 150 * (if e.recordCount < 8 then e.recordCount else 8);
    if raw > 500 then raw else 500
  }

  function Chars(events: seq<Event>): nat {
    if events == [] then 0 else Chars(events[..|events| - 1]) + EventChars(events[|events| - 1])
  }

  function BatchChars(b: Batch): nat {
    if b == [] then 0 else BatchChars(b[..|b| - 1]) + Chars(b[|b| - 1].events)
  }

  function EventsOf(b: Batch): seq<Event> {
    if b == [] then [] else EventsOf(b[..|b| - 1]) + b[|b| - 1].events
  }

  function AllEvents(batches: seq<Batch>): seq<Event> {
    if batches == [] then [] else AllEvents(batches[..|batches| - 1]) + EventsOf(batches[|batches| - 1])
  }

  // ---- grouping -----------------------------------------------------------

  function Kept(rows: seq<Event>, purpose: Purpose, sources: set<Source>): seq<Event> {
    if rows == [] then []
    else
      var e := rows[|rows| - 1];
      var rest := Kept(rows[..|rows| - 1], purpose, sources);
      if Attended(e, purpose, sources) == RecordOnly then rest else rest + [e]
  }

  /** The events of one key, in journal order. */
  function OfKey(kept: seq<Event>, key: Key, purpose: Purpose, sources: set<Source>): seq<Event> {
    if kept == [] then []
    else
      var e := kept[|kept| - 1];
      var rest := OfKey(kept[..|kept| - 1], key, purpose, sources);
      if KeyOf(e, purpose, sources) == key then rest + [e] else rest
  }

  /** Each group is one key's events in journal order, no key twice, and nothing kept is left out. */
  predicate AreGroups(groups: seq<Part>, kept: seq<Event>, purpose: Purpose, sources: set<Source>) {
    && (forall i, j :: 0 <= i < j < |groups| ==> groups[i].key != groups[j].key)
    && (forall i :: 0 <= i < |groups| ==> IsGroup(groups[i], kept, purpose, sources))
    && multiset(EventsOf(groups)) == multiset(kept)
  }

  lemma {:induction false} EventsOfAfterUpdate(groups: seq<Part>, i: nat, e: Event)
    requires i < |groups|
    ensures multiset(EventsOf(groups[i := Part(groups[i].key, groups[i].events + [e])])) == multiset(EventsOf(groups)) + multiset{e}
  {
    var n := |groups| - 1;
    var grown := Part(groups[i].key, groups[i].events + [e]);
    var before := groups[..n];
    assert groups == before + [groups[n]];
    BagOfAppend(before, groups[n]);
    if i < n {
      EventsOfAfterUpdate(before, i, e);
      UpdatedBeforeLast(groups, i, grown);
      BagOfAppend(before[i := grown], groups[n]);
    } else {
      BagOfAppend(before, grown);
      assert groups[i := grown] == before + [grown];
      assert multiset(grown.events) == multiset(groups[n].events) + multiset{e};
    }
  }

  lemma UpdatedBeforeLast(groups: seq<Part>, i: nat, p: Part)
    requires i < |groups| - 1
    ensures groups[i := p] == groups[..|groups| - 1][i := p] + [groups[|groups| - 1]]
  {
  }

  lemma BagOfAppend(b: Batch, p: Part)
    ensures multiset(EventsOf(b + [p])) == multiset(EventsOf(b)) + multiset(p.events)
  {
    EventsOfAppend(b, p);
  }

  lemma EventsOfAppend(b: Batch, p: Part)
    ensures EventsOf(b + [p]) == EventsOf(b) + p.events
    ensures BatchChars(b + [p]) == BatchChars(b) + Chars(p.events)
  {
    assert (b + [p])[..|b|] == b;
  }

  /** Of one conversation of one source, or of one item where there is no conversation. */
  predicate SameThread(e: Event, f: Event) {
    && e.source == f.source && e.conversation == f.conversation
    && (e.conversation.None? ==> e.stream == f.stream && e.item == f.item)
  }

  /** A group is one thread with one decision, and no two groups are the same. */
  predicate AreThreads(groups: seq<Part>) {
    forall i, j, x, y :: 0 <= i < |groups| && 0 <= j < |groups| && 0 <= x < |groups[i].events| && 0 <= y < |groups[j].events| ==>
      (i == j <==> SameThread(groups[i].events[x], groups[j].events[y]) && groups[i].key.decision == groups[j].key.decision)
  }

  lemma GroupsAreThreads(groups: seq<Part>, kept: seq<Event>, purpose: Purpose, sources: set<Source>)
    requires AreGroups(groups, kept, purpose, sources)
    ensures AreThreads(groups)
  {
    forall i, j, x, y | 0 <= i < |groups| && 0 <= j < |groups| && 0 <= x < |groups[i].events| && 0 <= y < |groups[j].events|
      ensures i == j <==> SameThread(groups[i].events[x], groups[j].events[y]) && groups[i].key.decision == groups[j].key.decision
    {
      var e, f := groups[i].events[x], groups[j].events[y];
      assert IsGroup(groups[i], kept, purpose, sources) && IsGroup(groups[j], kept, purpose, sources);
      assert KeyOf(e, purpose, sources) == groups[i].key && KeyOf(f, purpose, sources) == groups[j].key;
      assert i != j ==> groups[i].key != groups[j].key;
    }
  }

  lemma KeptOneMore(rows: seq<Event>, n: nat, purpose: Purpose, sources: set<Source>)
    requires n < |rows|
    ensures
      var before := Kept(rows[..n], purpose, sources);
      Kept(rows[..n + 1], purpose, sources)
      == if Attended(rows[n], purpose, sources) == RecordOnly then before else before + [rows[n]]
  {
    assert rows[..n + 1][..n] == rows[..n];
  }

  method GroupRows(rows: seq<Event>, purpose: Purpose, sources: set<Source>) returns (groups: seq<Part>, suppressed: nat)
    ensures AreGroups(groups, Kept(rows, purpose, sources), purpose, sources) && AreThreads(groups)
    ensures suppressed + |Kept(rows, purpose, sources)| == |rows|
  {
    groups, suppressed := Regroup(rows, purpose, sources);
    GroupsAreThreads(groups, Kept(rows, purpose, sources), purpose, sources);
  }

  /** Row by row: passed over, or appended to its group. */
  method Regroup(rows: seq<Event>, purpose: Purpose, sources: set<Source>) returns (groups: seq<Part>, suppressed: nat)
    ensures AreGroups(groups, Kept(rows, purpose, sources), purpose, sources)
    ensures suppressed + |Kept(rows, purpose, sources)| == |rows|
  {
    groups, suppressed := [], 0;
    ghost var kept: seq<Event> := [];
    for n := 0 to |rows|
      invariant kept == Kept(rows[..n], purpose, sources)
      invariant AreGroups(groups, kept, purpose, sources)
      invariant suppressed + |kept| == n
    {
      var e := rows[n];
      KeptOneMore(rows, n, purpose, sources);
      if Attended(e, purpose, sources) == RecordOnly {
        suppressed := suppressed + 1;
      } else {
        groups := AddToGroup(groups, e, KeyOf(e, purpose, sources), kept, purpose, sources);
        kept := kept + [e];
      }
    }
    assert rows[..|rows|] == rows;
  }

  /** Append the event to its group, opening the group when it is new. */
  method AddToGroup(groups: seq<Part>, e: Event, key: Key, ghost kept: seq<Event>, purpose: Purpose, sources: set<Source>)
    returns (after: seq<Part>)
    requires AreGroups(groups, kept, purpose, sources) && key == KeyOf(e, purpose, sources)
    ensures AreGroups(after, kept + [e], purpose, sources)
  {
    for i := 0 to |groups|
      invariant forall j :: 0 <= j < i ==> groups[j].key != key
    {
      if groups[i].key == key {
        ExtendedAreGroups(groups, i, e, kept, purpose, sources);
        return groups[i := Part(key, groups[i].events + [e])];
      }
    }
    OpenedAreGroups(groups, e, kept, purpose, sources);
    return groups + [Part(key, [e])];
  }

  lemma OfKeyAppend(kept: seq<Event>, e: Event, key: Key, purpose: Purpose, sources: set<Source>)
    ensures OfKey(kept + [e], key, purpose, sources)
         == OfKey(kept, key, purpose, sources) + (if KeyOf(e, purpose, sources) == key then [e] else [])
  {
    assert (kept + [e])[..|kept|] == kept;
  }

  /** One group is its key's events in journal order. */
  predicate IsGroup(p: Part, kept: seq<Event>, purpose: Purpose, sources: set<Source>) {
    && p.events != [] && p.events == OfKey(kept, p.key, purpose, sources)
    && (forall j :: 0 <= j < |p.events| ==> KeyOf(p.events[j], purpose, sources) == p.key)
  }

  lemma OtherGroupStays(p: Part, kept: seq<Event>, e: Event, purpose: Purpose, sources: set<Source>)
    requires IsGroup(p, kept, purpose, sources) && p.key != KeyOf(e, purpose, sources)
    ensures IsGroup(p, kept + [e], purpose, sources)
  {
    OfKeyAppend(kept, e, p.key, purpose, sources);
  }

  lemma OwnGroupGrows(p: Part, kept: seq<Event>, e: Event, purpose: Purpose, sources: set<Source>)
    requires IsGroup(p, kept, purpose, sources) && p.key == KeyOf(e, purpose, sources)
    ensures IsGroup(Part(p.key, p.events + [e]), kept + [e], purpose, sources)
  {
    OfKeyAppend(kept, e, p.key, purpose, sources);
  }

  lemma ExtendedAreGroups(groups: seq<Part>, i: nat, e: Event, kept: seq<Event>, purpose: Purpose, sources: set<Source>)
    requires AreGroups(groups, kept, purpose, sources) && i < |groups| && groups[i].key == KeyOf(e, purpose, sources)
    ensures AreGroups(groups[i := Part(groups[i].key, groups[i].events + [e])], kept + [e], purpose, sources)
  {
    var after := groups[i := Part(groups[i].key, groups[i].events + [e])];
    EventsOfAfterUpdate(groups, i, e);
    forall k | 0 <= k < |after| ensures IsGroup(after[k], kept + [e], purpose, sources) {
      assert IsGroup(groups[k], kept, purpose, sources);
      if k == i {
        OwnGroupGrows(groups[i], kept, e, purpose, sources);
      } else {
        OtherGroupStays(groups[k], kept, e, purpose, sources);
      }
    }
  }

  lemma OpenedAreGroups(groups: seq<Part>, e: Event, kept: seq<Event>, purpose: Purpose, sources: set<Source>)
    requires AreGroups(groups, kept, purpose, sources)
    requires forall i :: 0 <= i < |groups| ==> groups[i].key != KeyOf(e, purpose, sources)
    ensures AreGroups(groups + [Part(KeyOf(e, purpose, sources), [e])], kept + [e], purpose, sources)
  {
    var p := Part(KeyOf(e, purpose, sources), [e]);
    var after := groups + [p];
    EventsOfAppend(groups, p);
    NoEventsOfKey(groups, kept, p.key, purpose, sources);
    OfKeyAppend(kept, e, p.key, purpose, sources);
    forall k | 0 <= k < |after| ensures IsGroup(after[k], kept + [e], purpose, sources) {
      if k < |groups| {
        assert IsGroup(groups[k], kept, purpose, sources);
        OtherGroupStays(groups[k], kept, e, purpose, sources);
      }
    }
  }

  /** A key without a group has no kept event. */
  lemma NoEventsOfKey(groups: seq<Part>, kept: seq<Event>, key: Key, purpose: Purpose, sources: set<Source>)
    requires AreGroups(groups, kept, purpose, sources)
    requires forall i :: 0 <= i < |groups| ==> groups[i].key != key
    ensures OfKey(kept, key, purpose, sources) == []
  {
    forall k | 0 <= k < |kept| ensures KeyOf(kept[k], purpose, sources) != key {
      assert kept[k] in multiset(kept);
      assert kept[k] in EventsOf(groups);
      var i, j := EventHasPart(groups, kept[k]);
    }
    NoneOfKey(kept, key, purpose, sources);
  }

  lemma {:induction false} NoneOfKey(kept: seq<Event>, key: Key, purpose: Purpose, sources: set<Source>)
    requires forall k :: 0 <= k < |kept| ==> KeyOf(kept[k], purpose, sources) != key
    ensures OfKey(kept, key, purpose, sources) == []
  {
    if kept != [] {
      NoneOfKey(kept[..|kept| - 1], key, purpose, sources);
    }
  }

  lemma {:induction false} EventHasPart(b: Batch, e: Event) returns (i: nat, j: nat)
    requires e in EventsOf(b)
    ensures i < |b| && j < |b[i].events| && b[i].events[j] == e
  {
    var n := |b| - 1;
    if e in b[n].events {
      i := n;
      j :| 0 <= j < |b[n].events| && b[n].events[j] == e;
    } else {
      i, j := EventHasPart(b[..n], e);
    }
  }

  // ---- packing ------------------------------------------------------------

  /** The consumer's side of the packing: bounds, purpose and eligible sources. */
  datatype Limits = Limits(cap: nat, budget: nat, purpose: Purpose, sources: set<Source>)

  /** Every event of the part has the key the part is filed under. */
  predicate IsFiled(p: Part, q: Limits) {
    p.events != [] && forall j :: 0 <= j < |p.events| ==> KeyOf(p.events[j], q.purpose, q.sources) == p.key
  }

  predicate HasKey(b: Batch, key: Key) {
    exists i :: 0 <= i < |b| && b[i].key == key
  }

  /** A part respects the budget unless it is a single event. */
  predicate FitsAlone(events: seq<Event>, q: Limits) {
    Chars(events) <= q.budget || |events| == 1
  }

  /** What every batch promises to the analysis that will read it. */
  predicate IsBatch(b: Batch, q: Limits) {
    && 0 < |b| <= q.cap
    && (forall i :: 0 <= i < |b| ==> IsFiled(b[i], q))
    && (forall i :: 0 <= i < |b| ==> b[i].key.decision == b[0].key.decision && b[i].key.source == b[0].key.source)
    && (forall i, j :: 0 <= i < j < |b| ==> b[i].key != b[j].key)
    && (BatchChars(b) <= q.budget || |EventsOf(b)| == 1)
  }

  /** Why a part could not join the batch before it. */
  predicate CannotJoin(b: Batch, p: Part, q: Limits)
    requires |b| > 0
  {
    || p.key.decision != b[0].key.decision || p.key.source != b[0].key.source
    || |b| + 1 > q.cap
    || BatchChars(b) + Chars(p.events) > q.budget
  }

  /** Batches are cut only where the next part did not fit. */
  predicate IsGreedy(batches: seq<Batch>, q: Limits)
    requires forall i :: 0 <= i < |batches| ==> |batches[i]| > 0
  {
    forall i :: 0 < i < |batches| ==> CannotJoin(batches[i - 1], batches[i][0], q)
  }

  /** Whether any row was passed over. */
  predicate Suppresses(rows: seq<Event>, q: Limits) {
    |Kept(rows, q.purpose, q.sources)| < |rows|
  }

  predicate ArePacked(batches: seq<Batch>, q: Limits) {
    (forall i :: 0 <= i < |batches| ==> IsBatch(batches[i], q)) && IsGreedy(batches, q)
  }

  /** Everything packed so far, in order. */
  function Packed(batches: seq<Batch>, current: Batch): seq<Event> {
    AllEvents(batches) + EventsOf(current)
  }

  /** The state of the loop: finished batches and the one still open, possibly empty. */
  predicate IsOpen(batches: seq<Batch>, current: Batch, q: Limits) {
    && ArePacked(batches, q)
    && (current != [] ==> IsBatch(current, q))
    && (current == [] ==> batches == [])
    && (current != [] && batches != [] ==> CannotJoin(batches[|batches| - 1], current[0], q))
  }

  lemma SinglePartIsBatch(p: Part, q: Limits)
    requires q.cap > 0 && IsFiled(p, q) && FitsAlone(p.events, q)
    ensures IsBatch([p], q) && BatchChars([p]) == Chars(p.events) && EventsOf([p]) == p.events
  {
    EventsOfAppend([], p);
    assert [] + [p] == [p];
  }

  lemma ExtendedIsBatch(current: Batch, p: Part, q: Limits)
    requires IsBatch(current, q) && IsFiled(p, q)
    requires !CannotJoin(current, p, q) && !HasKey(current, p.key)
    ensures IsBatch(current + [p], q) && (current + [p])[0] == current[0]
  {
    EventsOfAppend(current, p);
    var b := current + [p];
    forall i, j | 0 <= i < j < |b| ensures b[i].key != b[j].key {
      if j == |current| {
        assert current[i].key != p.key;
      }
    }
  }

  lemma CutOpensNext(batches: seq<Batch>, current: Batch, p: Part, q: Limits)
    requires IsOpen(batches, current, q) && current != [] && CannotJoin(current, p, q)
    requires IsBatch([p], q)
    ensures IsOpen(batches + [current], [p], q)
  {
  }

  lemma JoinStaysOpen(batches: seq<Batch>, current: Batch, p: Part, q: Limits)
    requires IsOpen(batches, current, q)
    requires IsBatch(current + [p], q) && (current != [] ==> (current + [p])[0] == current[0])
    ensures IsOpen(batches, current + [p], q)
  {
  }

  lemma KeysAfterAppend(current: Batch, p: Part)
    ensures forall key :: HasKey(current + [p], key) ==> HasKey(current, key) || key == p.key
  {
    forall key | HasKey(current + [p], key) ensures HasKey(current, key) || key == p.key {
      var i :| 0 <= i < |current + [p]| && (current + [p])[i].key == key;
      assert i < |current| ==> current[i].key == key;
    }
  }

  /** What adding one part to the open batch, or to a new one, must achieve. */
  ghost predicate Adds(batches: seq<Batch>, current: Batch, p: Part, batches': seq<Batch>, current': Batch, q: Limits) {
    && IsOpen(batches', current', q) && current' != []
    && Packed(batches', current') == Packed(batches, current) + p.events
    && BatchChars(current') >= Chars(p.events)
    && (forall key :: HasKey(current', key) ==> HasKey(current, key) || key == p.key)
  }

  lemma CuttingKeepsOrder(batches: seq<Batch>, current: Batch, p: Part)
    ensures Packed(batches + [current], [p]) == Packed(batches, current) + p.events
  {
    assert (batches + [current])[..|batches|] == batches;
    EventsOfAppend([], p);
    assert [] + [p] == [p];
    assert [] + p.events == p.events;
  }

  lemma JoiningKeepsOrder(batches: seq<Batch>, current: Batch, p: Part)
    ensures Packed(batches, current + [p]) == Packed(batches, current) + p.events
  {
    EventsOfAppend(current, p);
    assert AllEvents(batches) + (EventsOf(current) + p.events) == AllEvents(batches) + EventsOf(current) + p.events;
  }

  lemma AddsByCutting(batches: seq<Batch>, current: Batch, p: Part, q: Limits)
    requires q.cap > 0 && IsFiled(p, q) && FitsAlone(p.events, q)
    requires IsOpen(batches, current, q) && current != [] && CannotJoin(current, p, q)
    ensures Adds(batches, current, p, batches + [current], [p], q) && BatchChars([p]) == Chars(p.events)
  {
    SinglePartIsBatch(p, q);
    CutOpensNext(batches, current, p, q);
    CuttingKeepsOrder(batches, current, p);
    OnlyKey(p);
  }

  lemma OnlyKey(p: Part)
    ensures forall key :: HasKey([p], key) ==> key == p.key
  {
  }

  lemma AddsByJoining(batches: seq<Batch>, current: Batch, p: Part, q: Limits)
    requires q.cap > 0 && IsFiled(p, q) && FitsAlone(p.events, q)
    requires IsOpen(batches, current, q) && !HasKey(current, p.key)
    requires current == [] || !CannotJoin(current, p, q)
    ensures Adds(batches, current, p, batches, current + [p], q)
    ensures BatchChars(current + [p]) == BatchChars(current) + Chars(p.events)
  {
    EventsOfAppend(current, p);
    KeysAfterAppend(current, p);
    JoiningKeepsOrder(batches, current, p);
    if current == [] {
      SinglePartIsBatch(p, q);
      assert current + [p] == [p];
    } else {
      ExtendedIsBatch(current, p, q);
    }
    JoinStaysOpen(batches, current, p, q);
  }

  /** Close the open batch when the part does not fit it, then add the part. */
  method AddPart(batches: seq<Batch>, current: Batch, chars: nat, p: Part, q: Limits)
    returns (batches': seq<Batch>, current': Batch, chars': nat)
    requires q.cap > 0 && IsFiled(p, q) && FitsAlone(p.events, q)
    requires IsOpen(batches, current, q) && chars == BatchChars(current)
    requires HasKey(current, p.key) ==> chars + Chars(p.events) > q.budget
    ensures Adds(batches, current, p, batches', current', q) && chars' == BatchChars(current')
  {
    if current != [] && (p.key.decision != current[0].key.decision || p.key.source != current[0].key.source
                         || |current| + 1 > q.cap || chars + Chars(p.events) > q.budget) {
      AddsByCutting(batches, current, p, q);
      batches', current', chars' := batches + [current], [p], Chars(p.events);
    } else {
      assert !HasKey([], p.key);
      AddsByJoining(batches, current, p, q);
      batches', current', chars' := batches, current + [p], chars + Chars(p.events);
    }
  }

  /** Between two events of one group: the part being filled, and why its key is not repeated. */
  ghost predicate IsFilling(
      batches: seq<Batch>, current: Batch, chars: nat, part: seq<Event>, partChars: nat, key: Key, q: Limits) {
    && IsOpen(batches, current, q) && chars == BatchChars(current) && partChars == Chars(part)
    && (part != [] ==> FitsAlone(part, q) && IsFiled(Part(key, part), q))
    && (HasKey(current, key) ==> part != [] && chars + partChars > q.budget)
  }

  /** Close the part the event does not fit. */
  method ClosePart(batches: seq<Batch>, current: Batch, chars: nat, part: seq<Event>, partChars: nat, key: Key, size: nat, q: Limits)
    returns (batches': seq<Batch>, current': Batch, chars': nat)
    requires q.cap > 0 && IsFilling(batches, current, chars, part, partChars, key, q)
    requires part != [] && partChars + size > q.budget
    ensures IsOpen(batches', current', q) && chars' == BatchChars(current') && chars' + size > q.budget
    ensures Packed(batches', current') == Packed(batches, current) + part
    ensures forall k :: HasKey(current', k) ==> HasKey(current, k) || k == key
  {
    batches', current', chars' := AddPart(batches, current, chars, Part(key, part), q);
  }

  lemma OneEventFits(key: Key, e: Event, q: Limits)
    requires KeyOf(e, q.purpose, q.sources) == key
    ensures IsFiled(Part(key, [e]), q) && FitsAlone([e], q) && Chars([e]) == EventChars(e)
  {
    assert [e][..0] == [];
  }

  lemma PartGrows(part: seq<Event>, key: Key, e: Event, q: Limits)
    requires IsFiled(Part(key, part), q) && KeyOf(e, q.purpose, q.sources) == key && Chars(part) + EventChars(e) <= q.budget
    ensures IsFiled(Part(key, part + [e]), q) && FitsAlone(part + [e], q) && Chars(part + [e]) == Chars(part) + EventChars(e)
  {
    CharsAppend(part, e);
  }

  lemma OneMorePacked(packed: seq<Event>, part: seq<Event>, e: Event)
    ensures packed + (part + [e]) == packed + part + [e]
  {
  }

  /** One event: close the part it does not fit, then append it. */
  method PackEvent(batches: seq<Batch>, current: Batch, chars: nat, part: seq<Event>, partChars: nat, key: Key, e: Event, q: Limits)
    returns (batches': seq<Batch>, current': Batch, chars': nat, part': seq<Event>, partChars': nat)
    requires q.cap > 0 && KeyOf(e, q.purpose, q.sources) == key
    requires IsFilling(batches, current, chars, part, partChars, key, q)
    ensures IsFilling(batches', current', chars', part', partChars', key, q) && part' != []
    ensures Packed(batches', current') + part' == Packed(batches, current) + part + [e]
    ensures forall k :: HasKey(current', k) ==> HasKey(current, k) || k == key
  {
    batches', current', chars', part', partChars' := batches, current, chars, part, partChars;
    var size := EventChars(e);
    if part != [] && partChars + size > q.budget {
      batches', current', chars' := ClosePart(batches, current, chars, part, partChars, key, size, q);
      part', partChars' := [], 0;
    }
    OneMorePacked(Packed(batches', current'), part', e);
    if part' == [] {
      OneEventFits(key, e, q);
      assert [] + [e] == [e];
    } else {
      PartGrows(part', key, e, q);
    }
    part', partChars' := part' + [e], partChars' + size;
  }

  /** The inner loop: one group cut into parts as the budget demands. */
  method PackGroup(batches: seq<Batch>, current: Batch, chars: nat, group: Part, q: Limits)
    returns (batches': seq<Batch>, current': Batch, chars': nat)
    requires q.cap > 0 && IsFiled(group, q)
    requires IsOpen(batches, current, q) && chars == BatchChars(current) && !HasKey(current, group.key)
    ensures IsOpen(batches', current', q) && chars' == BatchChars(current')
    ensures Packed(batches', current') == Packed(batches, current) + group.events
    ensures forall key :: HasKey(current', key) ==> HasKey(current, key) || key == group.key
  {
    batches', current', chars' := batches, current, chars;
    var part, partChars := [], 0;
    for j := 0 to |group.events|
      invariant IsFilling(batches', current', chars', part, partChars, group.key, q) && (j > 0 ==> part != [])
      invariant Packed(batches', current') + part == Packed(batches, current) + group.events[..j]
      invariant forall key :: HasKey(current', key) ==> HasKey(current, key) || key == group.key
    {
      OneMoreEvent(Packed(batches, current), group.events, j);
      batches', current', chars', part, partChars :=
        PackEvent(batches', current', chars', part, partChars, group.key, group.events[j], q);
    }
    assert group.events[..|group.events|] == group.events;
    batches', current', chars' := AddPart(batches', current', chars', Part(group.key, part), q);
  }

  lemma OneMoreEvent(packed: seq<Event>, events: seq<Event>, j: nat)
    requires j < |events|
    ensures packed + events[..j + 1] == packed + events[..j] + [events[j]]
  {
    assert events[..j + 1] == events[..j] + [events[j]];
  }

  lemma CharsAppend(part: seq<Event>, e: Event)
    ensures Chars(part + [e]) == Chars(part) + EventChars(e)
  {
    assert (part + [e])[..|part|] == part;
  }

  /** A batch ends where the decision or the source changes, where it is full, or where the next part would exceed the budget. */
  lemma BatchesAreFull(batches: seq<Batch>, q: Limits, i: nat)
    requires ArePacked(batches, q) && 0 < i < |batches|
    ensures
      var b, next := batches[i - 1], batches[i][0];
      || b[0].key.decision != next.key.decision || b[0].key.source != next.key.source
      || |b| == q.cap || BatchChars(b) + Chars(next.events) > q.budget
  {
    assert IsBatch(batches[i - 1], q) && IsBatch(batches[i], q);
  }

  /** The outer loop and the last flush. */
  method Pack(groups: seq<Part>, q: Limits) returns (batches: seq<Batch>)
    requires q.cap > 0
    requires forall i :: 0 <= i < |groups| ==> IsFiled(groups[i], q)
    requires forall i, j :: 0 <= i < j < |groups| ==> groups[i].key != groups[j].key
    ensures ArePacked(batches, q)
    ensures AllEvents(batches) == EventsOf(groups)
  {
    batches := [];
    var current, chars := [], 0;
    for i := 0 to |groups|
      invariant IsOpen(batches, current, q) && chars == BatchChars(current)
      invariant Packed(batches, current) == EventsOf(groups[..i])
      invariant forall key :: HasKey(current, key) ==> HasKey(groups[..i], key)
    {
      assert groups[..i + 1] == groups[..i] + [groups[i]];
      assert !HasKey(groups[..i], groups[i].key);
      batches, current, chars := PackGroup(batches, current, chars, groups[i], q);
      EventsOfAppend(groups[..i], groups[i]);
      KeysBeforeAppend(groups[..i], groups[i]);
    }
    assert groups[..|groups|] == groups;
    if current != [] {
      ClosedStayPacked(batches, current, q);
      batches := batches + [current];
    }
  }

  lemma KeysBeforeAppend(b: Batch, p: Part)
    ensures HasKey(b + [p], p.key)
    ensures forall key :: HasKey(b, key) ==> HasKey(b + [p], key)
  {
    assert (b + [p])[|b|] == p;
    forall key | HasKey(b, key) ensures HasKey(b + [p], key) {
      var i :| 0 <= i < |b| && b[i].key == key;
      assert (b + [p])[i].key == key;
    }
  }

  lemma ClosedStayPacked(batches: seq<Batch>, current: Batch, q: Limits)
    requires IsOpen(batches, current, q) && current != []
    ensures ArePacked(batches + [current], q)
    ensures AllEvents(batches + [current]) == Packed(batches, current)
  {
    assert (batches + [current])[..|batches|] == batches;
  }

  // ---- what deserves attention --------------------------------------------

  /** A fresh arrival that is not the system's own output, unless it is a finding. */
  predicate IsFreshArrival(e: Event) {
    e.novelty == LiveArrival && e.kind in {Created, ContentUpdated, Enrichment} && (e.origin == Derived ==> e.kind == Enrichment)
  }

  /** An arrival of which nobody can say that it is fresh, or a notice about a backfill. */
  predicate IsCatchUp(e: Event) {
    && (e.origin == Derived ==> e.kind == Enrichment)
    && (|| e.kind in {BackfillProgress, BackfillComplete}
        || (e.kind in {Created, ContentUpdated, Enrichment} && e.novelty in {Recovered, Unclear}))
  }

  predicate IsEligible(e: Event, sources: set<Source>) {
    sources == {} || e.source in sources
  }

  /** A prompt is for fresh arrivals only; what is uncertain goes into a digest, and only in the background. */
  predicate Deserves(e: Event, decision: Decision, purpose: Purpose) {
    match decision
    case NextTurn => purpose == Foreground && IsFreshArrival(e)
    case BackgroundPrompt => purpose == Background && IsFreshArrival(e)
    case BackgroundDigest => purpose == Background && IsCatchUp(e)
    case RecordOnly => false
  }

  predicate IsDeserved(b: Batch, q: Limits) {
    b != [] && forall e :: e in EventsOf(b) ==> IsEligible(e, q.sources) && Deserves(e, b[0].key.decision, q.purpose)
  }

  /** Every batch holds only what deserves its decision, and what deserves none is exactly what was passed over. */
  ghost predicate Attends(batches: seq<Batch>, rows: seq<Event>, q: Limits) {
    && (forall i :: 0 <= i < |batches| ==> IsDeserved(batches[i], q))
    && (forall e :: multiset(AllEvents(batches))[e] ==
          if IsEligible(e, q.sources) && (IsFreshArrival(e) || (q.purpose == Background && IsCatchUp(e))) then multiset(rows)[e]
          else 0)
  }

  lemma AttendedDeserves(e: Event, purpose: Purpose, sources: set<Source>)
    ensures Attended(e, purpose, sources) != RecordOnly <==>
              IsEligible(e, sources) && (IsFreshArrival(e) || (purpose == Background && IsCatchUp(e)))
    ensures Attended(e, purpose, sources) != RecordOnly ==> Deserves(e, Attended(e, purpose, sources), purpose)
  {
  }

  lemma {:induction false} KeptCounts(rows: seq<Event>, purpose: Purpose, sources: set<Source>, e: Event)
    ensures multiset(Kept(rows, purpose, sources))[e] ==
              if Attended(e, purpose, sources) != RecordOnly then multiset(rows)[e] else 0
  {
    if rows != [] {
      var n := |rows| - 1;
      KeptCounts(rows[..n], purpose, sources, e);
      assert rows == rows[..n] + [rows[n]];
    }
  }

  lemma BatchHasOneDecision(b: Batch, q: Limits, e: Event)
    requires IsBatch(b, q) && e in EventsOf(b)
    ensures Attended(e, q.purpose, q.sources) == b[0].key.decision
  {
    var i, j := EventHasPart(b, e);
    assert IsFiled(b[i], q);
    assert KeyOf(b[i].events[j], q.purpose, q.sources) == b[i].key;
  }

  lemma {:induction false} BatchEventInAll(batches: seq<Batch>, i: nat, e: Event)
    requires i < |batches| && e in EventsOf(batches[i])
    ensures e in AllEvents(batches)
  {
    if i < |batches| - 1 {
      BatchEventInAll(batches[..|batches| - 1], i, e);
    }
  }

  lemma PackedAttends(batches: seq<Batch>, rows: seq<Event>, q: Limits)
    requires ArePacked(batches, q) && multiset(AllEvents(batches)) == multiset(Kept(rows, q.purpose, q.sources))
    ensures Attends(batches, rows, q)
  {
    forall e: Event ensures multiset(AllEvents(batches))[e] ==
      if IsEligible(e, q.sources) && (IsFreshArrival(e) || (q.purpose == Background && IsCatchUp(e))) then multiset(rows)[e] else 0
    {
      KeptCounts(rows, q.purpose, q.sources, e);
      AttendedDeserves(e, q.purpose, q.sources);
    }
    forall i | 0 <= i < |batches| ensures IsDeserved(batches[i], q) {
      assert IsBatch(batches[i], q);
      forall e | e in EventsOf(batches[i])
        ensures IsEligible(e, q.sources) && Deserves(e, batches[i][0].key.decision, q.purpose)
      {
        BatchEventInAll(batches, i, e);
        assert e in multiset(AllEvents(batches));
        KeptCounts(rows, q.purpose, q.sources, e);
        BatchHasOneDecision(batches[i], q, e);
        AttendedDeserves(e, q.purpose, q.sources);
      }
    }
  }

  /**
   The whole materialisation of one scan: every kept event is in exactly one
   batch, under its own key, what is not kept is counted as suppressed, and the
   cursor lands on the last scanned row.
   */
  method Materialize(rows: seq<Event>, start: nat, q: Limits) returns (batches: seq<Batch>, suppressed: nat, cursor: nat)
    requires q.cap > 0
    ensures ArePacked(batches, q)
    ensures multiset(AllEvents(batches)) == multiset(Kept(rows, q.purpose, q.sources))
    ensures suppressed + |AllEvents(batches)| == |rows|
    ensures Attends(batches, rows, q)
    ensures cursor == if rows == [] then start else rows[|rows| - 1].sequence
  {
    var groups, ignored := GroupRows(rows, q.purpose, q.sources);
    suppressed := ignored;
    batches := Pack(groups, q);
    cursor := if rows == [] then start else rows[|rows| - 1].sequence;
    assert |multiset(AllEvents(batches))| == |multiset(Kept(rows, q.purpose, q.sources))|;
    PackedAttends(batches, rows, q);
  }
}
