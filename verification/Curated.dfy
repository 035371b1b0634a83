/**
 Versioned curated memory: a complete edit is folded over the current entries,
 checked against the prompt budget, and committed as one new version with an
 idempotency receipt.
 */
module Curated {
  import opened Wrappers

  type RecordId = nat
  type RequestId = nat
  type Actor = nat
  type Text = string

  datatype Target = MemoryTarget | UserTarget

  function LimitOf(target: Target): nat {
    match target
    case MemoryTarget => 2200
    case UserTarget => 1375
  }

  /** An entry is named by the request that wrote it, its place and its text. */
  datatype EntryId = EntryId(target: Target, request: RequestId, position: nat, text: Text)

  datatype Row = Row(text: Text, evidence: set<RecordId>, created: nat, retired: Option<nat>)

  /** `listing` gives the current entries in the order of their positions. */
  datatype Shelf = Shelf(version: nat, table: map<EntryId, Row>, listing: seq<EntryId>)

  datatype Operation =
    | Add(content: Text, evidence: Option<set<RecordId>>)
    | Replace(needle: Text, content: Text, evidence: Option<set<RecordId>>)
    | Remove(needle: Text, evidence: Option<set<RecordId>>)
    | Clear

  /** A line of the list being edited; new lines have no identity yet. */
  datatype Item = Item(id: Option<EntryId>, text: Text, evidence: set<RecordId>)

  datatype Refusal = Malformed | RequestReused | EpochChanged | VersionConflict | DeadEvidence | NoMatch | Ambiguous | OverBudget

  datatype Edit = Edited(items: seq<Item>) | Rejected(why: Refusal)

  datatype Input =
    | EditInput(target: Target, expected: nat, operations: seq<Operation>, evidence: set<RecordId>, epoch: nat, actor: Actor)
    | ResetInput(targets: set<Target>, versions: map<Target, nat>, epoch: nat, actor: Actor)

  /** The stored answer of a request. */
  datatype Answer =
    | EditAnswer(target: Target, version: nat, items: seq<Item>)
    | ResetAnswer(versions: map<Target, nat>)

  datatype Receipt = Receipt(input: Input, answer: Answer)

  datatype Outcome = Done(answer: Answer) | Refused(why: Refusal)

  datatype Store = Store(shelves: map<Target, Shelf>, requests: map<RequestId, Receipt>, epoch: nat, live: set<RecordId>)

  // ---- the budget ---------------------------------------------------------

  /** The length of the texts joined by a blank line. */
  function Joined(items: seq<Item>): nat {
    if items == [] then 0
    else if |items| == 1 then |items[0].text|
    else Joined(items[..|items| - 1]) + 2 + |items[|items| - 1].text|
  }

  // ---- one operation ------------------------------------------------------

  predicate IsAt(text: Text, i: nat, needle: Text) {
    i + |needle| <= |text| && text[i..i + |needle|] == needle
  }

  predicate Contains(text: Text, needle: Text) {
    exists i :: 0 <= i <= |text| && IsAt(text, i, needle)
  }

  /** The first matching line, unless matching lines differ. */
  function Match(items: seq<Item>, needle: Text): (selected: Option<nat>)
    ensures selected.Some? ==> selected.value < |items| && Contains(items[selected.value].text, needle)
    ensures selected.None? <==> forall i :: 0 <= i < |items| ==> !Contains(items[i].text, needle)
    ensures selected.Some? ==> forall i :: 0 <= i < selected.value ==> !Contains(items[i].text, needle)
  {
    if items == [] then None
    else if Contains(items[0].text, needle) then Some(0)
    else
      var rest := Match(items[1..], needle);
      if rest.None? then None else Some(rest.value + 1)
  }

  predicate IsAmbiguous(items: seq<Item>, needle: Text) {
    exists i, j :: 0 <= i < j < |items| && Contains(items[i].text, needle) && Contains(items[j].text, needle)
                   && items[i].text != items[j].text
  }

  predicate HasText(items: seq<Item>, text: Text) {
    exists i :: 0 <= i < |items| && items[i].text == text
  }

  function Selected(items: seq<Item>, needle: Text): Edit {
    if Match(items, needle).None? then Rejected(NoMatch)
    else if IsAmbiguous(items, needle) then Rejected(Ambiguous)
    else Edited(items)
  }

  function EvidenceOf(op: Operation, inherited: set<RecordId>): set<RecordId> {
    if op.Clear? || op.evidence.None? then inherited else op.evidence.value
  }

  function Step(items: seq<Item>, op: Operation, inherited: set<RecordId>, live: set<RecordId>): Edit {
    var refs := EvidenceOf(op, inherited);
    if !(refs <= live) then Rejected(DeadEvidence)
    else
      match op
      case Clear => Edited([])
      case Add(content, _) => Edited(if HasText(items, content) then items else items + [Item(None, content, refs)])
      case Remove(needle, _) =>
        var found := Selected(items, needle);
        if found.Rejected? then found
        else
          var i := Match(items, needle).value;
          Edited(items[..i] + items[i + 1..])
      case Replace(needle, content, _) =>
        var found := Selected(items, needle);
        if found.Rejected? then found
        else Edited(items[Match(items, needle).value := Item(None, content, refs)])
  }

  // ---- what one operation does to the lines -------------------------------

  /** The lines that contain the text are all one text, and the i-th is the first of them. */
  predicate IsOnlyMatch(items: seq<Item>, needle: Text, i: nat) {
    && i < |items| && Contains(items[i].text, needle)
    && (forall j :: 0 <= j < i ==> !Contains(items[j].text, needle))
    && (forall j :: i < j < |items| && Contains(items[j].text, needle) ==> items[j].text == items[i].text)
  }

  /** The first match goes, or gives way to a new line; every other line stays as it is and where it is. */
  ghost predicate Does(items: seq<Item>, op: Operation, refs: set<RecordId>, after: seq<Item>) {
    match op
    case Clear => after == []
    case Add(content, _) =>
      if exists i :: 0 <= i < |items| && items[i].text == content then after == items
      else |after| == |items| + 1 && after[|items|] == Item(None, content, refs) && forall j :: 0 <= j < |items| ==> after[j] == items[j]
    case Remove(needle, _) =>
      exists i: nat :: IsOnlyMatch(items, needle, i) && |after| == |items| - 1
                  && (forall j :: 0 <= j < i ==> after[j] == items[j]) && forall j :: i <= j < |after| ==> after[j] == items[j + 1]
    case Replace(needle, content, _) =>
      exists i: nat :: IsOnlyMatch(items, needle, i) && |after| == |items| && after[i] == Item(None, content, refs)
                  && forall j :: 0 <= j < |items| && j != i ==> after[j] == items[j]
  }

  /** Refused for evidence that is not live, for want of a match, or for matches that differ. */
  predicate IsRefused(items: seq<Item>, op: Operation, refs: set<RecordId>, live: set<RecordId>, why: Refusal) {
    if !(refs <= live) then why == DeadEvidence
    else
      && (op.Remove? || op.Replace?)
      && if forall i :: 0 <= i < |items| ==> !Contains(items[i].text, op.needle) then why == NoMatch
         else why == Ambiguous && exists i, j :: 0 <= i < j < |items| && items[i].text != items[j].text
                                                 && Contains(items[i].text, op.needle) && Contains(items[j].text, op.needle)
  }

  /** There is one match, or the reason why there is none. */
  lemma SelectionDecides(items: seq<Item>, needle: Text)
    ensures Selected(items, needle).Edited? ==>
              Match(items, needle).Some? && IsOnlyMatch(items, needle, Match(items, needle).value)
    ensures Selected(items, needle) == Rejected(NoMatch) <==> forall i :: 0 <= i < |items| ==> !Contains(items[i].text, needle)
    ensures Selected(items, needle).Rejected? && Selected(items, needle).why != NoMatch ==>
              Selected(items, needle).why == Ambiguous && IsAmbiguous(items, needle)
  {
  }

  lemma SelectingDoes(items: seq<Item>, op: Operation, inherited: set<RecordId>, live: set<RecordId>)
    requires (op.Remove? || op.Replace?) && EvidenceOf(op, inherited) <= live
    ensures
      match Step(items, op, inherited, live)
      case Edited(after) => Does(items, op, EvidenceOf(op, inherited), after)
      case Rejected(why) => IsRefused(items, op, EvidenceOf(op, inherited), live, why)
  {
    SelectionDecides(items, op.needle);
    if Selected(items, op.needle).Edited? {
      assert IsOnlyMatch(items, op.needle, Match(items, op.needle).value);
    }
  }

  lemma StepDoes(items: seq<Item>, op: Operation, inherited: set<RecordId>, live: set<RecordId>)
    ensures
      var refs := if !op.Clear? && op.evidence.Some? then op.evidence.value else inherited;
      match Step(items, op, inherited, live)
      case Edited(after) => refs <= live && Does(items, op, refs, after)
      case Rejected(why) => IsRefused(items, op, refs, live, why)
  {
    if (op.Remove? || op.Replace?) && EvidenceOf(op, inherited) <= live {
      SelectingDoes(items, op, inherited, live);
    }
  }

  /** The whole edit, in order; the first refusal ends it. */
  function Fold(items: seq<Item>, ops: seq<Operation>, inherited: set<RecordId>, live: set<RecordId>): Edit {
    if ops == [] then Edited(items)
    else
      var before := Fold(items, ops[..|ops| - 1], inherited, live);
      if before.Rejected? then before else Step(before.items, ops[|ops| - 1], inherited, live)
  }

  /** The evidence of the i-th operation: its own, or what the request gives. */
  function RefsOf(op: Operation, inherited: set<RecordId>): set<RecordId> {
    if !op.Clear? && op.evidence.Some? then op.evidence.value else inherited
  }

  /** The lists the edit goes through, one operation after the other. */
  ghost predicate AreSteps(
      items: seq<Item>, ops: seq<Operation>, inherited: set<RecordId>, live: set<RecordId>, lists: seq<seq<Item>>) {
    && 0 < |lists| <= |ops| + 1 && lists[0] == items
    && forall i :: 0 <= i < |lists| - 1 ==>
         RefsOf(ops[i], inherited) <= live && Does(lists[i], ops[i], RefsOf(ops[i], inherited), lists[i + 1])
  }

  lemma OneMoreStep(
      items: seq<Item>, ops: seq<Operation>, inherited: set<RecordId>, live: set<RecordId>, lists: seq<seq<Item>>, after: seq<Item>)
    requires AreSteps(items, ops, inherited, live, lists) && |lists| <= |ops|
    requires
      var op := ops[|lists| - 1];
      RefsOf(op, inherited) <= live && Does(lists[|lists| - 1], op, RefsOf(op, inherited), after)
    ensures AreSteps(items, ops, inherited, live, lists + [after])
  {
  }

  /** To the end, or to the first operation that is refused. */
  ghost predicate IsRewriting(
      items: seq<Item>, ops: seq<Operation>, inherited: set<RecordId>, live: set<RecordId>, edit: Edit, lists: seq<seq<Item>>) {
    && AreSteps(items, ops, inherited, live, lists)
    && match edit
       case Edited(after) => |lists| == |ops| + 1 && after == lists[|ops|]
       case Rejected(why) =>
         && |lists| <= |ops|
         && IsRefused(lists[|lists| - 1], ops[|lists| - 1], RefsOf(ops[|lists| - 1], inherited), live, why)
  }

  predicate IsWellFormed(ops: seq<Operation>) {
    && 1 <= |ops| <= 100
    && (forall i :: 0 <= i < |ops| ==>
          match ops[i]
          case Clear => |ops| == 1
          case Add(content, _) => 1 <= |content| <= LimitOf(MemoryTarget)
          case Replace(needle, content, _) => needle != [] && 1 <= |content| <= LimitOf(MemoryTarget)
          case Remove(needle, _) => needle != [])
  }

  // ---- committing a version -----------------------------------------------

  function ItemFor(table: map<EntryId, Row>, id: EntryId): Item {
    if id in table then Item(Some(id), table[id].text, table[id].evidence) else Item(Some(id), [], {})
  }

  function ItemsFor(table: map<EntryId, Row>, listing: seq<EntryId>): seq<Item> {
    seq(|listing|, i requires 0 <= i < |listing| => ItemFor(table, listing[i]))
  }

  function ItemsOf(shelf: Shelf): seq<Item> {
    ItemsFor(shelf.table, shelf.listing)
  }

  function IdAt(target: Target, request: RequestId, items: seq<Item>, i: nat): EntryId
    requires i < |items|
  {
    if items[i].id.Some? then items[i].id.value else EntryId(target, request, i, items[i].text)
  }

  /** The lines with the identities they are stored under. */
  function Named(target: Target, request: RequestId, items: seq<Item>): seq<Item> {
    seq(|items|, i requires 0 <= i < |items| => items[i].(id := Some(IdAt(target, request, items, i))))
  }

  function Names(items: seq<Item>): set<EntryId> {
    set i | 0 <= i < |items| && items[i].id.Some? :: items[i].id.value
  }

  /** The identity belongs to a new line of this request. */
  predicate IsNew(target: Target, request: RequestId, items: seq<Item>, id: EntryId) {
    && id.position < |items| && items[id.position].id.None?
    && id == EntryId(target, request, id.position, items[id.position].text)
  }

  function NewRows(target: Target, request: RequestId, items: seq<Item>, version: nat): map<EntryId, Row> {
    var ids := set i | 0 <= i < |items| && items[i].id.None? :: IdAt(target, request, items, i);
    map id | id in ids && IsNew(target, request, items, id) :: Row(items[id.position].text, items[id.position].evidence, version, None)
  }

  /** Every current row not among the kept ones ends with the new version. */
  function WithRetired(table: map<EntryId, Row>, kept: set<EntryId>, version: nat): map<EntryId, Row> {
    map id | id in table ::
      if table[id].retired.None? && id !in kept then table[id].(retired := Some(version)) else table[id]
  }

  function Listing(target: Target, request: RequestId, items: seq<Item>): seq<EntryId> {
    seq(|items|, i requires 0 <= i < |items| => IdAt(target, request, items, i))
  }

  function Committed(shelf: Shelf, target: Target, request: RequestId, items: seq<Item>): Shelf {
    var version := shelf.version + 1;
    Shelf(version,
          WithRetired(shelf.table, Names(items), version) + NewRows(target, request, items, version),
          Listing(target, request, items))
  }

  function Emptied(shelf: Shelf): Shelf {
    Shelf(shelf.version + 1, WithRetired(shelf.table, {}, shelf.version + 1), [])
  }

  function Without(listing: seq<EntryId>, table: map<EntryId, Row>, r: RecordId): (rest: seq<EntryId>)
    ensures forall id :: id in rest <==> id in listing && !(id in table && r in table[id].evidence)
  {
    if listing == [] then []
    else
      var rest := Without(listing[..|listing| - 1], table, r);
      var last := listing[|listing| - 1];
      if last in table && r in table[last].evidence then rest else rest + [last]
  }

  predicate RestsOn(shelf: Shelf, r: RecordId) {
    exists id :: id in shelf.table && shelf.table[id].retired.None? && r in shelf.table[id].evidence
  }

  /** Evidence went away: the entries that cite it end, in a version of their own. */
  function Invalidated(shelf: Shelf, r: RecordId): Shelf {
    if !RestsOn(shelf, r) then shelf
    else
      var version := shelf.version + 1;
      Shelf(version,
            map id | id in shelf.table ::
              if shelf.table[id].retired.None? && r in shelf.table[id].evidence
              then shelf.table[id].(retired := Some(version)) else shelf.table[id],
            Without(shelf.listing, shelf.table, r))
  }

  /** One version later nothing is listed, and what was current ended with that version. */
  predicate IsEmptied(v: Shelf, w: Shelf) {
    && w.version == v.version + 1 && w.listing == [] && w.table.Keys == v.table.Keys
    && forall id :: id in v.table ==>
         w.table[id] == v.table[id].(retired := if v.table[id].retired.None? then Some(w.version) else v.table[id].retired)
  }

  /** No current entry cites the record any more; one version later if one did, and untouched if none did. */
  ghost predicate IsWithout(v: Shelf, w: Shelf, r: RecordId) {
    if forall id :: id in v.table && v.table[id].retired.None? ==> r !in v.table[id].evidence then w == v
    else
      && w.version == v.version + 1 && w.table.Keys == v.table.Keys
      && (forall id :: id in w.listing <==> id in v.listing && !(id in v.table && r in v.table[id].evidence))
      && forall id :: id in v.table ==>
           var ends := v.table[id].retired.None? && r in v.table[id].evidence;
           w.table[id] == v.table[id].(retired := if ends then Some(w.version) else v.table[id].retired)
  }

  // ---- requests -----------------------------------------------------------

  /** What a fresh edit needs. */
  predicate IsAcceptable(s: Store, input: Input)
    requires HasTargets(s) && input.EditInput?
  {
    && input.epoch == s.epoch && input.expected == s.shelves[input.target].version
    && (forall r :: r in input.evidence ==> r in s.live) && 1 <= |input.operations| <= 100
    && FoldFor(s, input).Edited? && Joined(FoldFor(s, input).items) <= (if input.target == MemoryTarget then 2200 else 1375)
  }

  /** A reset names the version of every shelf it empties. */
  predicate IsDueReset(s: Store, input: Input)
    requires HasTargets(s) && input.ResetInput?
  {
    input.epoch == s.epoch && forall t :: t in input.targets ==> t in input.versions && input.versions[t] == s.shelves[t].version
  }

  predicate IsResetReason(s: Store, request: RequestId, input: Input, why: Refusal)
    requires HasTargets(s) && input.ResetInput?
  {
    match why
    case Malformed => exists t :: t in input.targets && t !in input.versions
    case RequestReused => request in s.requests && s.requests[request].input != input
    case EpochChanged => request !in s.requests && s.epoch != input.epoch
    case VersionConflict =>
      request !in s.requests && exists t :: t in input.targets && t in input.versions && s.shelves[t].version != input.versions[t]
    case _ => false
  }

  /** A refusal names what was wrong. */
  predicate IsReason(s: Store, request: RequestId, input: Input, why: Refusal)
    requires HasTargets(s) && input.EditInput?
  {
    match why
    case Malformed => !IsWellFormed(input.operations)
    case RequestReused => request in s.requests && s.requests[request].input != input
    case EpochChanged => request !in s.requests && s.epoch != input.epoch
    case VersionConflict => request !in s.requests && s.shelves[input.target].version != input.expected
    case DeadEvidence => request !in s.requests && (!(input.evidence <= s.live) || FoldFor(s, input) == Rejected(DeadEvidence))
    case OverBudget => FoldFor(s, input).Edited? && Joined(FoldFor(s, input).items) > (if input.target == MemoryTarget then 2200 else 1375)
    case other => FoldFor(s, input) == Rejected(other)
  }

  predicate HasTargets(s: Store) {
    forall t: Target :: t in s.shelves
  }

  function FoldFor(s: Store, input: Input): Edit
    requires HasTargets(s) && input.EditInput?
  {
    Fold(ItemsOf(s.shelves[input.target]), input.operations, input.evidence, s.live)
  }

  function EditOutcome(s: Store, request: RequestId, input: Input): Outcome
    requires HasTargets(s) && input.EditInput?
  {
    var shelf := s.shelves[input.target];
    if !IsWellFormed(input.operations) then Refused(Malformed)
    else if request in s.requests then
      if s.requests[request].input != input then Refused(RequestReused) else Done(s.requests[request].answer)
    else if s.epoch != input.epoch then Refused(EpochChanged)
    else if shelf.version != input.expected then Refused(VersionConflict)
    else if !(input.evidence <= s.live) then Refused(DeadEvidence)
    else
      var edit := FoldFor(s, input);
      if edit.Rejected? then Refused(edit.why)
      else if Joined(edit.items) > LimitOf(input.target) then Refused(OverBudget)
      else Done(EditAnswer(input.target, shelf.version + 1, Named(input.target, request, edit.items)))
  }

  /** A fresh, accepted edit commits; everything else leaves the store alone. */
  function AfterEdit(s: Store, request: RequestId, input: Input): Store
    requires HasTargets(s) && input.EditInput?
  {
    var outcome := EditOutcome(s, request, input);
    if request in s.requests || outcome.Refused? then s
    else
      s.(shelves := s.shelves[input.target := Committed(s.shelves[input.target], input.target, request, FoldFor(s, input).items)],
         requests := s.requests[request := Receipt(input, outcome.answer)])
  }

  function NextVersion(shelf: Shelf): nat {
    shelf.version + 1
  }

  function NextVersions(s: Store, targets: set<Target>): map<Target, nat>
    requires HasTargets(s)
  {
    map t | t in targets :: NextVersion(s.shelves[t])
  }

  function ResetOutcome(s: Store, request: RequestId, input: Input): Outcome
    requires HasTargets(s) && input.ResetInput?
  {
    if !(input.targets <= input.versions.Keys) then Refused(Malformed)
    else if request in s.requests then
      if s.requests[request].input != input then Refused(RequestReused) else Done(s.requests[request].answer)
    else if s.epoch != input.epoch then Refused(EpochChanged)
    else if exists t :: t in input.targets && input.versions[t] != s.shelves[t].version then Refused(VersionConflict)
    else Done(ResetAnswer(NextVersions(s, input.targets)))
  }

  function AfterReset(s: Store, request: RequestId, input: Input): Store
    requires HasTargets(s) && input.ResetInput?
  {
    var outcome := ResetOutcome(s, request, input);
    if request in s.requests || outcome.Refused? then s
    else
      s.(shelves := (map t | t in s.shelves :: if t in input.targets then Emptied(s.shelves[t]) else s.shelves[t]),
         requests := s.requests[request := Receipt(input, outcome.answer)])
  }

  // ---- the store object ---------------------------------------------------

  class CuratedMemory {
    var shelves: map<Target, Shelf>
    var requests: map<RequestId, Receipt>
    var epoch: nat
    var live: set<RecordId>

    ghost function State(): Store
      reads this
    {
      Store(shelves, requests, epoch, live)
    }

    constructor (s: Store)
      ensures State() == s
    {
      shelves, requests, epoch, live := s.shelves, s.requests, s.epoch, s.live;
    }

    /** One operation on the working copy of the list. */
    method Perform(items: seq<Item>, op: Operation, inherited: set<RecordId>) returns (edit: Edit)
      ensures edit == Step(items, op, inherited, live)
    {
      var refs := if op.Clear? || op.evidence.None? then inherited else op.evidence.value;
      if !(refs <= live) {
        return Rejected(DeadEvidence);
      }
      match op
      case Clear =>
        return Edited([]);
      case Add(content, _) =>
        return Edited(if HasText(items, content) then items else items + [Item(None, content, refs)]);
      case Remove(needle, _) =>
        var found := Selected(items, needle);
        if found.Rejected? {
          return found;
        }
        var at := Match(items, needle).value;
        return Edited(items[..at] + items[at + 1..]);
      case Replace(needle, content, _) =>
        var found := Selected(items, needle);
        if found.Rejected? {
          return found;
        }
        return Edited(items[Match(items, needle).value := Item(None, content, refs)]);
    }

    /** One operation after another, on a working copy of the current list. */
    method Rewrite(items: seq<Item>, ops: seq<Operation>, inherited: set<RecordId>)
      returns (edit: Edit, ghost lists: seq<seq<Item>>)
      ensures edit == Fold(items, ops, inherited, live)
      ensures IsRewriting(items, ops, inherited, live, edit, lists)
    {
      var working := items;
      lists := [items];
      for i := 0 to |ops|
        invariant Fold(items, ops[..i], inherited, live) == Edited(working)
        invariant AreSteps(items, ops, inherited, live, lists) && |lists| == i + 1 && lists[i] == working
      {
        assert ops[..i + 1][..i] == ops[..i];
        StepDoes(working, ops[i], inherited, live);
        var done := Perform(working, ops[i], inherited);
        if done.Rejected? {
          FoldStops(items, ops, inherited, live, i + 1);
          return done, lists;
        }
        OneMoreStep(items, ops, inherited, live, lists, done.items);
        working, lists := done.items, lists + [done.items];
      }
      assert ops[..|ops|] == ops;
      return Edited(working), lists;
    }

    /** The edited list of a shelf, before anything is written. */
    method Draft(input: Input) returns (edit: Edit)
      requires HasTargets(State()) && input.EditInput?
      ensures edit == FoldFor(State(), input)
      ensures edit.Rejected? ==> edit.why in {DeadEvidence, NoMatch, Ambiguous}
    {
      ghost var lists;
      edit, lists := Rewrite(ItemsOf(shelves[input.target]), input.operations, input.evidence);
    }

    /** Validate the complete edit, retire what it drops, publish the new version and its receipt. */
    method Apply(request: RequestId, input: Input) returns (outcome: Outcome)
      requires HasTargets(State()) && input.EditInput?
      modifies this`shelves, this`requests
      ensures outcome == EditOutcome(old(State()), request, input)
      ensures State() == AfterEdit(old(State()), request, input)
      ensures outcome.Done? ==>
                if request in old(requests) then old(requests)[request].input == input else IsAcceptable(old(State()), input)
      ensures outcome.Refused? ==> IsReason(old(State()), request, input, outcome.why)
    {
      if !IsWellFormed(input.operations) {
        return Refused(Malformed);
      }
      if request in requests {
        if requests[request].input != input {
          return Refused(RequestReused);
        }
        return Done(requests[request].answer);
      }
      if epoch != input.epoch {
        return Refused(EpochChanged);
      }
      var shelf := shelves[input.target];
      if shelf.version != input.expected {
        return Refused(VersionConflict);
      }
      if !(input.evidence <= live) {
        return Refused(DeadEvidence);
      }
      var edit := Draft(input);
      if edit.Rejected? {
        return Refused(edit.why);
      }
      if Joined(edit.items) > LimitOf(input.target) {
        return Refused(OverBudget);
      }
      var answer := EditAnswer(input.target, shelf.version + 1, Named(input.target, request, edit.items));
      Commit(request, input, edit.items, answer);
      return Done(answer);
    }

    /** Publish the new version and remember the request. */
    method Commit(request: RequestId, input: Input, items: seq<Item>, answer: Answer)
      requires input.EditInput? && input.target in shelves
      modifies this`shelves, this`requests
      ensures shelves == old(shelves)[input.target := Committed(old(shelves)[input.target], input.target, request, items)]
      ensures requests == old(requests)[request := Receipt(input, answer)]
    {
      shelves := shelves[input.target := Committed(shelves[input.target], input.target, request, items)];
      requests := requests[request := Receipt(input, answer)];
    }

    method Reset(request: RequestId, input: Input) returns (outcome: Outcome)
      requires HasTargets(State()) && input.ResetInput?
      modifies this`shelves, this`requests
      ensures outcome == ResetOutcome(old(State()), request, input)
      ensures State() == AfterReset(old(State()), request, input)
      ensures outcome.Done? ==> if request in old(requests) then old(requests)[request].input == input else IsDueReset(old(State()), input)
      ensures outcome.Refused? ==> IsResetReason(old(State()), request, input, outcome.why)
      ensures outcome.Done? && request !in old(requests) ==> shelves.Keys == old(shelves).Keys
      ensures outcome.Done? && request !in old(requests) ==>
                forall t :: t in shelves ==>
                  if t in input.targets then IsEmptied(old(shelves)[t], shelves[t]) else shelves[t] == old(shelves)[t]
    {
      if !(input.targets <= input.versions.Keys) {
        return Refused(Malformed);
      }
      if request in requests {
        if requests[request].input != input {
          return Refused(RequestReused);
        }
        return Done(requests[request].answer);
      }
      if epoch != input.epoch {
        return Refused(EpochChanged);
      }
      if exists t :: t in input.targets && input.versions[t] != shelves[t].version {
        return Refused(VersionConflict);
      }
      var answer := ResetAnswer(map t | t in input.targets :: NextVersion(shelves[t]));
      shelves := map t | t in shelves :: if t in input.targets then Emptied(shelves[t]) else shelves[t];
      requests := requests[request := Receipt(input, answer)];
      return Done(answer);
    }

    /** Called inside the transaction that retires or forgets the record. */
    method Invalidate(r: RecordId)
      modifies this`shelves
      ensures State() == old(State()).(shelves := map t | t in old(shelves) :: Invalidated(old(shelves)[t], r))
      ensures shelves.Keys == old(shelves).Keys && forall t :: t in shelves ==> IsWithout(old(shelves)[t], shelves[t], r)
    {
      shelves := map t | t in shelves :: if RestsOn(shelves[t], r) then Invalidated(shelves[t], r) else shelves[t];
    }
  }

  lemma {:induction false} FoldStops(items: seq<Item>, ops: seq<Operation>, inherited: set<RecordId>, live: set<RecordId>, n: nat)
    requires n <= |ops| && Fold(items, ops[..n], inherited, live).Rejected?
    ensures Fold(items, ops, inherited, live) == Fold(items, ops[..n], inherited, live)
  {
    if n == |ops| {
      assert ops[..n] == ops;
    } else {
      assert ops[..|ops| - 1][..n] == ops[..n];
      FoldStops(items, ops[..|ops| - 1], inherited, live, n);
    }
  }
}
