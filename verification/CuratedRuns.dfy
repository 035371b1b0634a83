/**
 Curated memory over whole runs: edits, resets, invalidations and replayed
 requests in any order.
 */
module CuratedRuns {
  import opened Wrappers
  import opened Curated

  datatype Action =
    | EditShelf(request: RequestId, input: Input)
    | ResetShelves(request: RequestId, input: Input)
    | Invalidate(record: RecordId)
    | EmptyAll
    | SetEpoch(epoch: nat)
    | SetLive(live: set<RecordId>)

  predicate Enabled(s: Store, a: Action) {
    && HasTargets(s)
    && (a.EditShelf? ==> a.input.EditInput?) && (a.ResetShelves? ==> a.input.ResetInput?)
  }

  function Next(s: Store, a: Action): Store
    requires Enabled(s, a)
  {
    match a
    case EditShelf(request, input) => AfterEdit(s, request, input)
    case ResetShelves(request, input) => AfterReset(s, request, input)
    case Invalidate(r) => s.(shelves := map t | t in s.shelves :: Invalidated(s.shelves[t], r))
    case EmptyAll => s.(shelves := map t | t in s.shelves :: Emptied(s.shelves[t]))
    case SetEpoch(epoch) => s.(epoch := epoch)
    case SetLive(live) => s.(live := live)
  }

  predicate IsRun(s: Store, actions: seq<Action>)
    decreases |actions|
  {
    actions == [] || (Enabled(s, actions[0]) && IsRun(Next(s, actions[0]), actions[1..]))
  }

  function After(s: Store, actions: seq<Action>): Store
    requires IsRun(s, actions)
    decreases |actions|
  {
    if actions == [] then s else After(Next(s, actions[0]), actions[1..])
  }

  const NEW_SHELF := Shelf(0, map[], [])

  predicate Initial(s: Store) {
    s.shelves == map[MemoryTarget := NEW_SHELF, UserTarget := NEW_SHELF] && s.requests == map[]
  }

  // ---- the past -----------------------------------------------------------

  datatype Line = Line(text: Text, evidence: set<RecordId>)

  predicate HeldAt(row: Row, version: nat) {
    row.created <= version && (row.retired.Some? ==> version < row.retired.value)
  }

  /** The entries as of a version. */
  function AsOf(shelf: Shelf, version: nat): map<EntryId, Line> {
    map id | id in shelf.table && HeldAt(shelf.table[id], version) :: Line(shelf.table[id].text, shelf.table[id].evidence)
  }

  /** A row's later life: it may end once, in a version still to come when it was seen. */
  predicate RowExtends(before: Row, after: Row, version: nat) {
    && after.text == before.text && after.evidence == before.evidence && after.created == before.created
    && (after.retired == before.retired || (before.retired.None? && after.retired.Some? && after.retired.value > version))
  }

  predicate Extends(before: Shelf, after: Shelf) {
    && before.version <= after.version
    && (forall id :: id in before.table ==> id in after.table && RowExtends(before.table[id], after.table[id], before.version))
    && (forall id :: id in after.table && id !in before.table ==> after.table[id].created > before.version)
  }

  lemma ExtendsComposes(a: Shelf, b: Shelf, c: Shelf)
    requires Extends(a, b) && Extends(b, c)
    ensures Extends(a, c)
  {
  }

  lemma ExtensionKeepsPast(before: Shelf, after: Shelf, version: nat)
    requires Extends(before, after) && version <= before.version
    ensures AsOf(after, version) == AsOf(before, version)
  {
  }

  // ---- a shelf agrees with its table --------------------------------------

  predicate IsDistinct(listing: seq<EntryId>) {
    forall i, j :: 0 <= i < j < |listing| ==> listing[i] != listing[j]
  }

  /** Rows are dated within the shelf's history and named after a request that was answered. */
  predicate TableAgrees(shelf: Shelf, target: Target, requests: set<RequestId>) {
    forall id :: id in shelf.table ==>
      && id.target == target && id.request in requests && shelf.table[id].created <= shelf.version
      && (shelf.table[id].retired.Some? ==> shelf.table[id].created < shelf.table[id].retired.value <= shelf.version)
  }

  /** The listing is the current rows, each once. */
  ghost predicate ListingAgrees(shelf: Shelf) {
    IsDistinct(shelf.listing) && forall id :: id in shelf.listing <==> id in shelf.table && shelf.table[id].retired.None?
  }

  ghost predicate ShelfAgrees(shelf: Shelf, target: Target, requests: set<RequestId>) {
    && TableAgrees(shelf, target, requests) && ListingAgrees(shelf)
    && Joined(ItemsOf(shelf)) <= LimitOf(target)
  }

  ghost predicate StoreAgrees(s: Store) {
    HasTargets(s) && forall t: Target :: ShelfAgrees(s.shelves[t], t, s.requests.Keys)
  }

  // ---- the folded list ----------------------------------------------------

  /** A list under edit: kept lines are current rows unchanged, each at most once. */
  ghost predicate IsWorking(items: seq<Item>, shelf: Shelf) {
    && (forall i :: 0 <= i < |items| && items[i].id.Some? ==>
          items[i].id.value in shelf.listing && items[i] == ItemFor(shelf.table, items[i].id.value))
    && (forall i, j :: 0 <= i < j < |items| && items[i].id.Some? ==> items[i].id != items[j].id)
  }

  lemma StepKeepsWorking(items: seq<Item>, shelf: Shelf, op: Operation, inherited: set<RecordId>, live: set<RecordId>)
    requires IsWorking(items, shelf) && Step(items, op, inherited, live).Edited?
    ensures IsWorking(Step(items, op, inherited, live).items, shelf)
  {
  }

  lemma {:induction false} FoldKeepsWorking(
      items: seq<Item>, shelf: Shelf, ops: seq<Operation>, inherited: set<RecordId>, live: set<RecordId>)
    requires IsWorking(items, shelf) && Fold(items, ops, inherited, live).Edited?
    ensures IsWorking(Fold(items, ops, inherited, live).items, shelf)
  {
    if ops != [] {
      var before := Fold(items, ops[..|ops| - 1], inherited, live);
      FoldKeepsWorking(items, shelf, ops[..|ops| - 1], inherited, live);
      StepKeepsWorking(before.items, shelf, ops[|ops| - 1], inherited, live);
    }
  }

  lemma ListingIsWorking(shelf: Shelf)
    requires ListingAgrees(shelf)
    ensures IsWorking(ItemsOf(shelf), shelf)
  {
  }

  // ---- budget -------------------------------------------------------------

  lemma {:induction false} SameTextsSameLength(a: seq<Item>, b: seq<Item>)
    requires |a| == |b| && forall i :: 0 <= i < |a| ==> a[i].text == b[i].text
    ensures Joined(a) == Joined(b)
  {
    if |a| > 1 {
      SameTextsSameLength(a[..|a| - 1], b[..|b| - 1]);
    }
  }

  lemma JoinedAppend(items: seq<Item>, item: Item)
    ensures Joined(items + [item]) == if items == [] then |item.text| else Joined(items) + 2 + |item.text|
  {
    assert (items + [item])[..|items|] == items;
  }

  /** Dropping entries never lengthens the text. */
  lemma {:induction false} WithoutIsShorter(table: map<EntryId, Row>, listing: seq<EntryId>, r: RecordId)
    ensures Joined(ItemsFor(table, Without(listing, table, r))) <= Joined(ItemsFor(table, listing))
  {
    if listing != [] {
      var fewer, last := listing[..|listing| - 1], listing[|listing| - 1];
      WithoutIsShorter(table, fewer, r);
      assert ItemsFor(table, listing) == ItemsFor(table, fewer) + [ItemFor(table, last)];
      JoinedAppend(ItemsFor(table, fewer), ItemFor(table, last));
      var rest := Without(fewer, table, r);
      assert ItemsFor(table, rest + [last]) == ItemsFor(table, rest) + [ItemFor(table, last)];
      JoinedAppend(ItemsFor(table, rest), ItemFor(table, last));
    }
  }

  lemma {:induction false} WithoutIsDistinct(table: map<EntryId, Row>, listing: seq<EntryId>, r: RecordId)
    requires IsDistinct(listing)
    ensures IsDistinct(Without(listing, table, r))
  {
    if listing != [] {
      WithoutIsDistinct(table, listing[..|listing| - 1], r);
      assert listing[|listing| - 1] !in listing[..|listing| - 1];
    }
  }

  // ---- one version step ---------------------------------------------------

  /** What committing a list promises. */
  ghost predicate IsCommit(shelf: Shelf, target: Target, request: RequestId, items: seq<Item>, after: Shelf) {
    && ListingAgrees(after) && Extends(shelf, after) && after.version == shelf.version + 1
    && ItemsOf(after) == Named(target, request, items)
  }

  lemma NewRowsAreNew(target: Target, request: RequestId, items: seq<Item>, version: nat, id: EntryId)
    ensures id in NewRows(target, request, items, version) <==> IsNew(target, request, items, id)
    ensures IsNew(target, request, items, id) ==>
              NewRows(target, request, items, version)[id] == Row(items[id.position].text, items[id.position].evidence, version, None)
  {
    if IsNew(target, request, items, id) {
      assert id == IdAt(target, request, items, id.position);
    }
  }

  /** One row of the table after a commit. */
  ghost predicate RowAfterCommit(shelf: Shelf, target: Target, request: RequestId, items: seq<Item>, id: EntryId) {
    var after := Committed(shelf, target, request, items);
    && (id in after.table <==> id in shelf.table || IsNew(target, request, items, id))
    && (id in shelf.table ==> !IsNew(target, request, items, id))
    && (id in shelf.table ==>
          after.table[id] == 
          if shelf.table[id].retired.None? && id !in Names(items) then shelf.table[id].(retired := Some(after.version))
          else shelf.table[id])
    && (IsNew(target, request, items, id) ==>
          after.table[id] == Row(items[id.position].text, items[id.position].evidence, after.version, None))
  }

  lemma CommittedRow(shelf: Shelf, target: Target, request: RequestId, items: seq<Item>, requests: set<RequestId>, id: EntryId)
    requires TableAgrees(shelf, target, requests) && request !in requests
    ensures RowAfterCommit(shelf, target, request, items, id)
  {
    NewRowsAreNew(target, request, items, shelf.version + 1, id);
  }

  /** The identity of the i-th line: kept ones are in the listing, new ones are new. */
  lemma NamedLine(shelf: Shelf, target: Target, request: RequestId, items: seq<Item>, i: nat)
    requires IsWorking(items, shelf) && ListingAgrees(shelf) && i < |items|
    ensures
      var id := Listing(target, request, items)[i];
      if items[i].id.Some? then id == items[i].id.value && id in Names(items) && id in shelf.table && shelf.table[id].retired.None?
      else IsNew(target, request, items, id) && id.position == i
  {
  }

  lemma ListedAfterCommit(shelf: Shelf, target: Target, request: RequestId, items: seq<Item>, requests: set<RequestId>, id: EntryId)
    requires TableAgrees(shelf, target, requests) && ListingAgrees(shelf) && request !in requests && IsWorking(items, shelf)
    ensures
      var after := Committed(shelf, target, request, items);
      id in after.listing <==> id in after.table && after.table[id].retired.None?
  {
    var after := Committed(shelf, target, request, items);
    CommittedRow(shelf, target, request, items, requests, id);
    if id in after.listing {
      var i :| 0 <= i < |items| && after.listing[i] == id;
      NamedLine(shelf, target, request, items, i);
    }
    if id in shelf.table && id in Names(items) {
      var i :| 0 <= i < |items| && items[i].id.Some? && items[i].id.value == id;
      NamedLine(shelf, target, request, items, i);
      assert after.listing[i] == id;
    }
    if IsNew(target, request, items, id) {
      assert after.listing[id.position] == id;
    }
  }

  lemma CommittedIsDistinct(shelf: Shelf, target: Target, request: RequestId, items: seq<Item>, requests: set<RequestId>)
    requires TableAgrees(shelf, target, requests) && ListingAgrees(shelf) && request !in requests && IsWorking(items, shelf)
    ensures IsDistinct(Listing(target, request, items))
  {
    var listing := Listing(target, request, items);
    forall i, j | 0 <= i < j < |items| ensures listing[i] != listing[j] {
      NamedLine(shelf, target, request, items, i);
      NamedLine(shelf, target, request, items, j);
      CommittedRow(shelf, target, request, items, requests, listing[i]);
      CommittedRow(shelf, target, request, items, requests, listing[j]);
      assert items[i].id.Some? ==> items[i].id != items[j].id;
    }
  }

  lemma CommitExtends(shelf: Shelf, target: Target, request: RequestId, items: seq<Item>, requests: set<RequestId>)
    requires TableAgrees(shelf, target, requests) && request !in requests
    ensures Extends(shelf, Committed(shelf, target, request, items))
    ensures TableAgrees(Committed(shelf, target, request, items), target, requests + {request})
  {
    var after := Committed(shelf, target, request, items);
    forall id | id in after.table
      ensures RowAfterCommit(shelf, target, request, items, id)
    {
      CommittedRow(shelf, target, request, items, requests, id);
    }
  }

  lemma CommittedLines(shelf: Shelf, target: Target, request: RequestId, items: seq<Item>, requests: set<RequestId>)
    requires TableAgrees(shelf, target, requests) && ListingAgrees(shelf) && request !in requests && IsWorking(items, shelf)
    ensures ItemsOf(Committed(shelf, target, request, items)) == Named(target, request, items)
  {
    var after := Committed(shelf, target, request, items);
    forall i | 0 <= i < |items| ensures ItemsOf(after)[i] == Named(target, request, items)[i] {
      NamedLine(shelf, target, request, items, i);
      CommittedRow(shelf, target, request, items, requests, after.listing[i]);
    }
  }

  lemma CommitsTheFold(shelf: Shelf, target: Target, request: RequestId, items: seq<Item>, requests: set<RequestId>)
    requires TableAgrees(shelf, target, requests) && ListingAgrees(shelf) && request !in requests && IsWorking(items, shelf)
    ensures IsCommit(shelf, target, request, items, Committed(shelf, target, request, items))
  {
    var after := Committed(shelf, target, request, items);
    forall id ensures id in after.listing <==> id in after.table && after.table[id].retired.None? {
      ListedAfterCommit(shelf, target, request, items, requests, id);
    }
    CommittedIsDistinct(shelf, target, request, items, requests);
    CommitExtends(shelf, target, request, items, requests);
    CommittedLines(shelf, target, request, items, requests);
  }

  lemma EmptiedAgrees(shelf: Shelf, target: Target, requests: set<RequestId>)
    requires ShelfAgrees(shelf, target, requests)
    ensures ShelfAgrees(Emptied(shelf), target, requests) && Extends(shelf, Emptied(shelf))
  {
  }

  lemma InvalidatedAgrees(shelf: Shelf, target: Target, requests: set<RequestId>, r: RecordId)
    requires ShelfAgrees(shelf, target, requests)
    ensures ShelfAgrees(Invalidated(shelf, r), target, requests) && Extends(shelf, Invalidated(shelf, r))
    ensures forall id :: id in Invalidated(shelf, r).listing ==> r !in Invalidated(shelf, r).table[id].evidence
  {
    if RestsOn(shelf, r) {
      var after := Invalidated(shelf, r);
      WithoutIsDistinct(shelf.table, shelf.listing, r);
      WithoutIsShorter(shelf.table, shelf.listing, r);
      SameTextsSameLength(ItemsFor(after.table, after.listing), ItemsFor(shelf.table, after.listing));
    }
  }

  // ---- every action -------------------------------------------------------

  lemma MoreRequestsAgree(shelf: Shelf, target: Target, requests: set<RequestId>, more: set<RequestId>)
    requires ShelfAgrees(shelf, target, requests) && requests <= more
    ensures ShelfAgrees(shelf, target, more)
  {
  }

  lemma FoldIsWorking(s: Store, input: Input)
    requires StoreAgrees(s) && input.EditInput? && FoldFor(s, input).Edited?
    ensures IsWorking(FoldFor(s, input).items, s.shelves[input.target])
  {
    var shelf := s.shelves[input.target];
    assert ShelfAgrees(shelf, input.target, s.requests.Keys);
    ListingIsWorking(shelf);
    FoldKeepsWorking(ItemsOf(shelf), shelf, input.operations, input.evidence, s.live);
  }

  /** A list within the budget, committed to a shelf that agrees. */
  lemma CommitAgrees(shelf: Shelf, target: Target, request: RequestId, items: seq<Item>, requests: set<RequestId>)
    requires ShelfAgrees(shelf, target, requests) && request !in requests && IsWorking(items, shelf) && Joined(items) <= LimitOf(target)
    ensures
      var after := Committed(shelf, target, request, items);
      && IsCommit(shelf, target, request, items, after)
      && ShelfAgrees(after, target, requests + {request})
  {
    CommitsTheFold(shelf, target, request, items, requests);
    CommitExtends(shelf, target, request, items, requests);
    SameTextsSameLength(Named(target, request, items), items);
  }

  /** An accepted edit publishes exactly the folded list, within the budget. */
  lemma EditPublishesFold(s: Store, request: RequestId, input: Input)
    requires StoreAgrees(s) && input.EditInput? && request !in s.requests && EditOutcome(s, request, input).Done?
    ensures
      var before, after := s.shelves[input.target], AfterEdit(s, request, input).shelves[input.target];
      && EditOutcome(s, request, input).answer == EditAnswer(input.target, after.version, ItemsOf(after))
      && IsCommit(before, input.target, request, FoldFor(s, input).items, after)
      && ShelfAgrees(after, input.target, s.requests.Keys + {request})
  {
    FoldIsWorking(s, input);
    assert ShelfAgrees(s.shelves[input.target], input.target, s.requests.Keys);
    CommitAgrees(s.shelves[input.target], input.target, request, FoldFor(s, input).items, s.requests.Keys);
  }

  /** What one action does to one shelf. */
  ghost predicate KeepsShelf(s: Store, u: Store, t: Target) {
    t in s.shelves && t in u.shelves && ShelfAgrees(u.shelves[t], t, u.requests.Keys) && Extends(s.shelves[t], u.shelves[t])
  }

  lemma RefusedEditKeepsShelves(s: Store, a: Action, t: Target)
    requires StoreAgrees(s) && Enabled(s, a) && a.EditShelf?
    requires a.request in s.requests || EditOutcome(s, a.request, a.input).Refused?
    ensures KeepsShelf(s, Next(s, a), t)
  {
    assert ShelfAgrees(s.shelves[t], t, s.requests.Keys);
  }

  lemma AcceptedEditKeepsShelves(s: Store, a: Action, t: Target)
    requires StoreAgrees(s) && Enabled(s, a) && a.EditShelf?
    requires a.request !in s.requests && EditOutcome(s, a.request, a.input).Done?
    ensures KeepsShelf(s, Next(s, a), t)
  {
    assert Next(s, a).requests.Keys == s.requests.Keys + {a.request};
    if t == a.input.target {
      EditPublishesFold(s, a.request, a.input);
    } else {
      assert ShelfAgrees(s.shelves[t], t, s.requests.Keys);
      MoreRequestsAgree(s.shelves[t], t, s.requests.Keys, s.requests.Keys + {a.request});
    }
  }

  lemma ResetKeepsShelves(s: Store, a: Action, t: Target)
    requires StoreAgrees(s) && Enabled(s, a) && a.ResetShelves?
    ensures KeepsShelf(s, Next(s, a), t)
  {
    assert ShelfAgrees(s.shelves[t], t, s.requests.Keys);
    EmptiedAgrees(s.shelves[t], t, s.requests.Keys);
    if a.request !in s.requests && ResetOutcome(s, a.request, a.input).Done? {
      assert Next(s, a).requests.Keys == s.requests.Keys + {a.request};
      MoreRequestsAgree(s.shelves[t], t, s.requests.Keys, Next(s, a).requests.Keys);
      MoreRequestsAgree(Emptied(s.shelves[t]), t, s.requests.Keys, Next(s, a).requests.Keys);
    }
  }

  lemma ActionKeepsShelves(s: Store, a: Action, t: Target)
    requires StoreAgrees(s) && Enabled(s, a)
    ensures KeepsShelf(s, Next(s, a), t)
  {
    assert ShelfAgrees(s.shelves[t], t, s.requests.Keys);
    match a
    case EditShelf(request, input) =>
      if request in s.requests || EditOutcome(s, request, input).Refused? {
        RefusedEditKeepsShelves(s, a, t);
      } else {
        AcceptedEditKeepsShelves(s, a, t);
      }
    case ResetShelves(_, _) => ResetKeepsShelves(s, a, t);
    case Invalidate(r) => InvalidatedAgrees(s.shelves[t], t, s.requests.Keys, r);
    case EmptyAll => EmptiedAgrees(s.shelves[t], t, s.requests.Keys);
    case _ =>
  }

  lemma ReceiptsStay(s: Store, a: Action)
    requires Enabled(s, a)
    ensures forall q :: q in s.requests ==> q in Next(s, a).requests && Next(s, a).requests[q] == s.requests[q]
  {
  }

  /** From one store to a later one. */
  ghost predicate Leads(s: Store, u: Store) {
    && StoreAgrees(u)
    && (forall t: Target :: t in s.shelves && t in u.shelves && Extends(s.shelves[t], u.shelves[t]))
    && (forall q :: q in s.requests ==> q in u.requests && u.requests[q] == s.requests[q])
  }

  lemma ActionLeads(s: Store, a: Action)
    requires StoreAgrees(s) && Enabled(s, a)
    ensures Leads(s, Next(s, a))
  {
    var n := Next(s, a);
    forall t: Target ensures t in n.shelves && ShelfAgrees(n.shelves[t], t, n.requests.Keys) && Extends(s.shelves[t], n.shelves[t]) {
      ActionKeepsShelves(s, a, t);
      assert KeepsShelf(s, n, t);
    }
    ReceiptsStay(s, a);
  }

  lemma LeadsComposes(s: Store, n: Store, u: Store)
    requires Leads(s, n) && Leads(n, u)
    ensures Leads(s, u)
  {
    forall t: Target ensures t in s.shelves && t in u.shelves && Extends(s.shelves[t], u.shelves[t]) {
      assert t in n.shelves;
      ExtendsComposes(s.shelves[t], n.shelves[t], u.shelves[t]);
    }
  }

  lemma LeadsToItself(s: Store)
    requires StoreAgrees(s)
    ensures Leads(s, s)
  {
  }

  lemma {:induction false} RunLeads(s: Store, actions: seq<Action>)
    requires StoreAgrees(s) && IsRun(s, actions)
    ensures Leads(s, After(s, actions))
    decreases |actions|
  {
    if actions == [] {
      LeadsToItself(s);
    } else {
      ActionLeads(s, actions[0]);
      RunLeads(Next(s, actions[0]), actions[1..]);
      LeadsComposes(s, Next(s, actions[0]), After(s, actions));
    }
  }

  lemma InitialAgrees(s: Store)
    requires Initial(s)
    ensures StoreAgrees(s)
  {
    forall t: Target ensures t in s.shelves && ShelfAgrees(s.shelves[t], t, s.requests.Keys) {
      assert t == MemoryTarget || t == UserTarget;
    }
  }

  // ---- main results -------------------------------------------------------

  /** The entries as of a version that exists never change again, whatever is edited later. */
  lemma PastNeverChanges(s: Store, before: seq<Action>, after: seq<Action>, t: Target, version: nat)
    requires Initial(s) && IsRun(s, before) && IsRun(After(s, before), after)
    requires t in After(s, before).shelves && version <= After(s, before).shelves[t].version
    ensures
      var u := After(After(s, before), after);
      t in u.shelves && AsOf(u.shelves[t], version) == AsOf(After(s, before).shelves[t], version)
  {
    InitialAgrees(s);
    RunLeads(s, before);
    RunLeads(After(s, before), after);
    ExtensionKeepsPast(After(s, before).shelves[t], After(After(s, before), after).shelves[t], version);
  }

  /** The newest version is what is listed, each entry once, and it never exceeds its budget. */
  lemma NewestIsListed(s: Store, actions: seq<Action>, t: Target)
    requires Initial(s) && IsRun(s, actions)
    ensures
      var u := After(s, actions);
      && t in u.shelves
      && (forall id :: id in AsOf(u.shelves[t], u.shelves[t].version) <==> id in u.shelves[t].listing)
      && IsDistinct(u.shelves[t].listing)
      && Joined(ItemsOf(u.shelves[t])) <= LimitOf(t)
  {
    InitialAgrees(s);
    RunLeads(s, actions);
    assert ShelfAgrees(After(s, actions).shelves[t], t, After(s, actions).requests.Keys);
  }

  /** What a request is answered, whichever kind it is. */
  function OutcomeOf(s: Store, request: RequestId, input: Input): Outcome
    requires HasTargets(s)
  {
    match input
    case EditInput(_, _, _, _, _, _) => EditOutcome(s, request, input)
    case ResetInput(_, _, _, _) => ResetOutcome(s, request, input)
  }

  function ActionOf(request: RequestId, input: Input): Action {
    match input
    case EditInput(_, _, _, _, _, _) => EditShelf(request, input)
    case ResetInput(_, _, _, _) => ResetShelves(request, input)
  }

  /** Well-formed by the checks that come before the receipt is looked up. */
  predicate IsAdmissible(input: Input) {
    match input
    case EditInput(_, _, operations, _, _, _) => IsWellFormed(operations)
    case ResetInput(targets, versions, _, _) => targets <= versions.Keys
  }

  /** A stored receipt answers its request, and changes nothing. */
  lemma ReceiptAnswers(u: Store, request: RequestId, input: Input, answer: Answer)
    requires HasTargets(u) && IsAdmissible(input)
    requires request in u.requests && u.requests[request] == Receipt(input, answer)
    ensures OutcomeOf(u, request, input) == Done(answer) && Next(u, ActionOf(request, input)) == u
  {
  }

  lemma AnsweredIsStored(t: Store, request: RequestId, input: Input)
    requires HasTargets(t) && OutcomeOf(t, request, input).Done?
    ensures IsAdmissible(input)
    ensures
      var u := Next(t, ActionOf(request, input));
      request in u.requests && u.requests[request] == Receipt(input, OutcomeOf(t, request, input).answer)
  {
  }

  /** Edit or reset: a request that was answered gets its first answer again at any later time, and changes nothing. */
  lemma ReplayReturnsFirstAnswer(s: Store, before: seq<Action>, request: RequestId, input: Input, after: seq<Action>)
    requires Initial(s) && IsRun(s, before)
    requires HasTargets(After(s, before)) && OutcomeOf(After(s, before), request, input).Done?
    requires IsRun(Next(After(s, before), ActionOf(request, input)), after)
    ensures
      var first := OutcomeOf(After(s, before), request, input);
      var u := After(Next(After(s, before), ActionOf(request, input)), after);
      && HasTargets(u)
      && OutcomeOf(u, request, input) == first
      && Next(u, ActionOf(request, input)) == u
  {
    InitialAgrees(s);
    RunLeads(s, before);
    var t := After(s, before);
    var n := Next(t, ActionOf(request, input));
    ActionLeads(t, ActionOf(request, input));
    RunLeads(n, after);
    AnsweredIsStored(t, request, input);
    ReceiptAnswers(After(n, after), request, input, OutcomeOf(t, request, input).answer);
  }

  /** A request name that was answered is refused for any other input, at any later time. */
  lemma ReuseIsRefused(s: Store, before: seq<Action>, request: RequestId, input: Input, after: seq<Action>, other: Input)
    requires Initial(s) && IsRun(s, before)
    requires HasTargets(After(s, before)) && OutcomeOf(After(s, before), request, input).Done?
    requires IsRun(Next(After(s, before), ActionOf(request, input)), after)
    requires other != input && IsAdmissible(other)
    ensures
      var u := After(Next(After(s, before), ActionOf(request, input)), after);
      && HasTargets(u)
      && OutcomeOf(u, request, other) == Refused(RequestReused)
      && Next(u, ActionOf(request, other)) == u
  {
    InitialAgrees(s);
    RunLeads(s, before);
    var t := After(s, before);
    ActionLeads(t, ActionOf(request, input));
    RunLeads(Next(t, ActionOf(request, input)), after);
    AnsweredIsStored(t, request, input);
  }
}
