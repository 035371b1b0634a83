/**
 Notification intents: how one is queued, claimed, revalidated, confirmed and
 reconciled, and the delivery workers that move between those transactions.
 An intent is identified by what it is about, so the same analysis never makes
 a second one.
 */
module Deliveries {
  import opened Wrappers

  type ConsumerId = nat
  type BatchId = nat
  type WorkerId = nat
  type Instant = int

  /** A minute of the day. */
  type Minute = m: nat | m < 1440

  datatype IntentState = Queued | QuietHold | Attempted | Confirmed | Uncertain | Cancelled

  /** A daily window in minutes since midnight. */
  datatype Window = Window(start: Minute, end: Minute)

  datatype Consumer = Consumer(
    profile: nat, background: bool, enabled: bool,
    deliveryEnabled: bool, destination: Option<nat>,
    quiet: Option<Window>, urgentBypass: bool)

  datatype Key = Key(profile: nat, destination: nat, decision: nat, groupKey: nat, groupVersion: nat)

  datatype Intent = Intent(
    consumer: ConsumerId, batch: BatchId, urgent: bool,
    state: IntentState, attempts: nat, createdAt: Instant, updatedAt: Instant)

  /** `invalid` batches refer to evidence that is deleted or hidden. */
  datatype BatchRow = BatchRow(consumer: ConsumerId, complete: bool, epoch: nat, decision: nat, digest: nat)

  datatype Tables = Tables(
    consumers: map<ConsumerId, Consumer>,
    intents: map<Key, Intent>,
    batches: map<BatchId, BatchRow>,
    epoch: nat,
    invalid: set<BatchId>)

  /** The batch's analysis is of this epoch and all its evidence still visible. */
  predicate StillStands(t: Tables, batch: BatchId) {
    batch in t.batches && t.batches[batch].epoch == t.epoch && batch !in t.invalid
  }

  // ---- the quiet window ---------------------------------------------------

  predicate InQuiet(quiet: Option<Window>, minute: Minute) {
    match quiet
    case None => false
    case Some(Window(start, end)) =>
      if start == end then true
      else if start < end then start <= minute < end
      else minute >= start || minute < end
  }

  /** How long ago, around the clock, the minute `start` was. */
  function Since(start: Minute, minute: Minute): nat {
    (minute + 1440 - start) % 1440
  }

  /** The day is silent from the window's start until its end comes round, over midnight or not; all day if they are one. */
  predicate IsSilent(quiet: Option<Window>, minute: Minute) {
    quiet.Some? &&
    (quiet.value.start == quiet.value.end || Since(quiet.value.start, minute) < Since(quiet.value.start, quiet.value.end))
  }

  lemma QuietIsSilent(quiet: Option<Window>, minute: Minute)
    ensures InQuiet(quiet, minute) <==> IsSilent(quiet, minute)
  {
  }

  predicate MustHold(c: Consumer, urgent: bool, minute: Minute) {
    InQuiet(c.quiet, minute) && !(urgent && c.urgentBypass)
  }

  /** The owner's policy still allows what the intent was queued for. */
  predicate PolicyAllows(t: Tables, k: Key, i: Intent) {
    i.consumer in t.consumers &&
    var c := t.consumers[i.consumer];
    c.enabled && c.background && c.deliveryEnabled && c.destination == Some(k.destination) && c.profile == k.profile
  }

  /** What sending needs: the owner's policy as it is now, evidence that still stands, and no silence, or urgency past it. */
  predicate MaySend(t: Tables, k: Key, i: Intent, minute: Minute) {
    && i.consumer in t.consumers && i.batch in t.batches && t.batches[i.batch].epoch == t.epoch && i.batch !in t.invalid
    && var c := t.consumers[i.consumer];
    && c.enabled && c.background && c.deliveryEnabled && c.destination == Some(k.destination) && c.profile == k.profile
    && (IsSilent(c.quiet, minute) ==> i.urgent && c.urgentBypass)
  }

  // ---- transactions -------------------------------------------------------

  function WithState(t: Tables, k: Key, state: IntentState, now: Instant): Tables
    requires k in t.intents
  {
    t.(intents := t.intents[k := t.intents[k].(state := state, updatedAt := now)])
  }

  function KeyFor(c: Consumer, decision: nat, groupKey: nat, groupVersion: nat): Key
    requires c.destination.Some?
  {
    Key(c.profile, c.destination.value, decision, groupKey, groupVersion)
  }

  /** What a request to notify is told. */
  datatype QueueAnswer =
    | UnknownConsumer | UnknownBatch | NotComplete | EpochChanged | Disabled
    | Known(state: IntentState) | Stored(state: IntentState)

  /** The key names the decision and content of the batch, unless another version is given. */
  function KeyOf(c: Consumer, row: BatchRow, groupKey: nat, groupVersion: Option<nat>): Key
    requires c.destination.Some?
  {
    KeyFor(c, row.decision, groupKey, if groupVersion.Some? then groupVersion.value else row.digest)
  }

  function AnswerTo(
      t: Tables, id: ConsumerId, batch: BatchId, groupKey: nat, groupVersion: Option<nat>, urgent: bool, minute: Minute): QueueAnswer {
    if id !in t.consumers then UnknownConsumer
    else if batch !in t.batches || t.batches[batch].consumer != id then UnknownBatch
    else if !t.batches[batch].complete then NotComplete
    else if t.batches[batch].epoch != t.epoch then EpochChanged
    else
      var c := t.consumers[id];
      if !c.deliveryEnabled || c.destination.None? then Disabled
      else
        var k := KeyOf(c, t.batches[batch], groupKey, groupVersion);
        if k in t.intents then Known(t.intents[k].state)
        else Stored(if MustHold(c, urgent, minute) then QuietHold else Queued)
  }

  /** Queue an intent for a completed analysis of this epoch, unless one for the same key exists. */
  function IntentQueued(t: Tables, id: ConsumerId, batch: BatchId, groupKey: nat, groupVersion: Option<nat>,
                        urgent: bool, minute: Minute, now: Instant): Tables {
    var answer := AnswerTo(t, id, batch, groupKey, groupVersion, urgent, minute);
    if !answer.Stored? then t
    else
      t.(intents := t.intents[KeyOf(t.consumers[id], t.batches[batch], groupKey, groupVersion) :=
           Intent(id, batch, urgent, answer.state, 0, now, now)])
  }

  /** A channel worker is bound to a consumer and profile; an administrator is not. */
  datatype Scope = Unscoped | Scoped(consumer: ConsumerId, profile: nat)

  /** The scope names a background consumer of that profile. */
  predicate Admits(t: Tables, scope: Scope) {
    scope.Scoped? ==>
      scope.consumer in t.consumers && t.consumers[scope.consumer].profile == scope.profile && t.consumers[scope.consumer].background
  }

  predicate Eligible(t: Tables, scope: Scope, k: Key)
    requires k in t.intents
  {
    t.intents[k].state == Queued && (scope.Scoped? ==> t.intents[k].consumer == scope.consumer && k.profile == scope.profile)
  }

  /** The oldest queued intent within the scope is claimed next. */
  ghost predicate IsNext(t: Tables, scope: Scope, k: Key) {
    && Admits(t, scope) && k in t.intents && Eligible(t, scope, k)
    && (forall x :: x in t.intents && Eligible(t, scope, x) ==> t.intents[k].createdAt <= t.intents[x].createdAt)
  }

  function IntentClaimed(t: Tables, k: Key, now: Instant): Tables
    requires k in t.intents
  {
    t.(intents := t.intents[k := t.intents[k].(state := Attempted, attempts := t.intents[k].attempts + 1, updatedAt := now)])
  }

  /** What rechecking evidence and policy makes of an intent. */
  function RevalidatedState(t: Tables, k: Key, minute: Minute): IntentState
    requires k in t.intents
  {
    var i := t.intents[k];
    if i.state !in {Queued, QuietHold, Attempted} then i.state
    else if !StillStands(t, i.batch) || !PolicyAllows(t, k, i) then Cancelled
    else if MustHold(t.consumers[i.consumer], i.urgent, minute) then QuietHold
    else i.state
  }

  function Revalidated(t: Tables, k: Key, minute: Minute, now: Instant): Tables
    requires k in t.intents
  {
    if RevalidatedState(t, k, minute) == t.intents[k].state then t
    else WithState(t, k, RevalidatedState(t, k, minute), now)
  }

  function ReceiptRecorded(t: Tables, k: Key, now: Instant): Tables
    requires k in t.intents
  {
    if t.intents[k].state == Attempted then WithState(t, k, Confirmed, now) else t
  }

  /** What reconciliation makes of one intent. */
  function ReconciledState(t: Tables, k: Key, cutoff: Instant, minute: Minute): IntentState
    requires k in t.intents
  {
    var i := t.intents[k];
    if i.state == Attempted then
      if i.updatedAt <= cutoff then Uncertain else Attempted
    else if i.state == QuietHold then
      if !PolicyAllows(t, k, i) then Cancelled
      else if !MustHold(t.consumers[i.consumer], i.urgent, minute) then Queued
      else QuietHold
    else
      i.state
  }

  function Settled(t: Tables, k: Key, state: IntentState, now: Instant): Intent
    requires k in t.intents
  {
    if state == t.intents[k].state then t.intents[k] else t.intents[k].(state := state, updatedAt := now)
  }

  /** An attempt that got no receipt in time is uncertain. */
  function Overdue(i: Intent, cutoff: Instant, now: Instant): Intent {
    if i.state == Attempted && i.updatedAt <= cutoff then i.(state := Uncertain, updatedAt := now) else i
  }

  function Reconciled(t: Tables, cutoff: Instant, minute: Minute, now: Instant): Tables {
    t.(intents := map k | k in t.intents :: Settled(t, k, ReconciledState(t, k, cutoff, minute), now))
  }

  /** No answer in time is uncertain, never sent again; a hold ends with the silence or with the policy; all else stays. */
  predicate IsReconciled(t: Tables, k: Key, v: Intent, w: Intent, cutoff: Instant, minute: Minute, now: Instant) {
    match v.state
    case Attempted => w == if v.updatedAt <= cutoff then v.(state := Uncertain, updatedAt := now) else v
    case QuietHold =>
      if !PolicyAllows(t, k, v) then w == v.(state := Cancelled, updatedAt := now)
      else if IsSilent(t.consumers[v.consumer].quiet, minute) && !(v.urgent && t.consumers[v.consumer].urgentBypass) then w == v
      else w == v.(state := Queued, updatedAt := now)
    case _ => w == v
  }

  function CancelledState(t: Tables, k: Key, batches: set<BatchId>): IntentState
    requires k in t.intents
  {
    var i := t.intents[k];
    if i.batch in batches && i.state in {Queued, QuietHold} then Cancelled else i.state
  }

  /** Evidence of these batches went away: unsent intents are withdrawn. */
  function Withdrawn(t: Tables, batches: set<BatchId>, now: Instant): Tables {
    t.(intents := map k | k in t.intents :: Settled(t, k, CancelledState(t, k, batches), now))
  }

  // ---- the queue object ---------------------------------------------------

  class DeliveryQueue {
    var consumers: map<ConsumerId, Consumer>
    var intents: map<Key, Intent>
    var batches: map<BatchId, BatchRow>
    var epoch: nat
    var invalid: set<BatchId>

    ghost function State(): Tables
      reads this
    {
      Tables(consumers, intents, batches, epoch, invalid)
    }

    constructor (stored: Tables)
      ensures State() == stored
    {
      consumers, intents, batches := stored.consumers, stored.intents, stored.batches;
      epoch, invalid := stored.epoch, stored.invalid;
    }

    /** A durable intent for a completed analysis; a known key changes nothing. */
    method QueueDelivery(
        id: ConsumerId, batch: BatchId, groupKey: nat, groupVersion: Option<nat>, urgent: bool, minute: Minute, now: Instant)
      returns (answer: QueueAnswer)
      modifies this`intents
      ensures answer == AnswerTo(old(State()), id, batch, groupKey, groupVersion, urgent, minute)
      ensures State() == IntentQueued(old(State()), id, batch, groupKey, groupVersion, urgent, minute, now)
      ensures !answer.Stored? ==> intents == old(intents)
      ensures
        match answer
        case UnknownConsumer => id !in consumers
        case UnknownBatch => batch !in batches || batches[batch].consumer != id
        case NotComplete => batch in batches && !batches[batch].complete
        case EpochChanged => batch in batches && batches[batch].epoch != epoch
        case Disabled => id in consumers && (!consumers[id].deliveryEnabled || consumers[id].destination.None?)
        case Known(state) => exists k :: k in intents && k.groupKey == groupKey && intents[k].state == state
        case Stored(state) => state in {Queued, QuietHold}
      ensures answer.Stored? ==>
                && id in consumers && batch in batches && batches[batch].consumer == id && batches[batch].complete
                && batches[batch].epoch == epoch && consumers[id].deliveryEnabled && consumers[id].destination.Some?
                && var c := consumers[id];
                var k := Key(c.profile, c.destination.value, batches[batch].decision, groupKey,
                             if groupVersion.Some? then groupVersion.value else batches[batch].digest);
                var held := IsSilent(c.quiet, minute) && !(urgent && c.urgentBypass);
                && k !in old(intents)
                && intents == old(intents)[k := Intent(id, batch, urgent, if held then QuietHold else Queued, 0, now, now)]
    {
      if id !in consumers {
        return UnknownConsumer;
      }
      if batch !in batches || batches[batch].consumer != id {
        return UnknownBatch;
      }
      if !batches[batch].complete {
        return NotComplete;
      }
      if batches[batch].epoch != epoch {
        return EpochChanged;
      }
      var c := consumers[id];
      if !c.deliveryEnabled || c.destination.None? {
        return Disabled;
      }
      var k := KeyOf(c, batches[batch], groupKey, groupVersion);
      if k in intents {
        return Known(intents[k].state);
      }
      QuietIsSilent(c.quiet, minute);
      var held := InQuiet(c.quiet, minute) && !(urgent && c.urgentBypass);
      var state := if held then QuietHold else Queued;
      intents := intents[k := Intent(id, batch, urgent, state, 0, now, now)];
      return Stored(state);
    }

    /** Claim one intent; a worker outside its scope is refused. */
    method NextDelivery(scope: Scope, now: Instant) returns (admitted: bool, claimed: Option<Key>)
      modifies this`intents
      ensures admitted <==> Admits(old(State()), scope)
      ensures claimed.None? ==> State() == old(State())
      ensures claimed.None? && admitted ==> forall k :: k in intents ==> !Eligible(old(State()), scope, k)
      ensures claimed.Some? ==> IsNext(old(State()), scope, claimed.value) && State() == IntentClaimed(old(State()), claimed.value, now)
      ensures claimed.Some? ==>
                var k := claimed.value;
                && k in old(intents) && old(intents)[k].state == Queued
                && (scope.Scoped? ==> old(intents)[k].consumer == scope.consumer && k.profile == scope.profile)
                && var i := old(intents)[k];
                && intents == old(intents)[k := i.(state := Attempted, attempts := i.attempts + 1, updatedAt := now)]
      ensures claimed.Some? ==>
                forall x :: x in old(intents) && old(intents)[x].createdAt < old(intents)[claimed.value].createdAt ==>
                  old(intents)[x].state != Queued
                  || (scope.Scoped? && !(old(intents)[x].consumer == scope.consumer && x.profile == scope.profile))
    {
      if scope.Scoped? &&
         !(scope.consumer in consumers && consumers[scope.consumer].profile == scope.profile
           && consumers[scope.consumer].background) {
        return false, None;
      }
      var waiting := set k | k in intents && intents[k].state == Queued
        && (scope.Scoped? ==> intents[k].consumer == scope.consumer && k.profile == scope.profile);
      assert forall x :: x in intents && Eligible(State(), scope, x) ==> x in waiting;
      if waiting == {} {
        return true, None;
      }
      OldestWaits(waiting, intents);
      var k :| k in waiting && forall x :: x in waiting ==> intents[k].createdAt <= intents[x].createdAt;
      intents := intents[k := intents[k].(state := Attempted, attempts := intents[k].attempts + 1, updatedAt := now)];
      return true, Some(k);
    }

    method ConfirmDelivery(k: Key, now: Instant) returns (accepted: bool)
      modifies this`intents
      ensures accepted <==> k in old(intents) && old(intents)[k].state in {Attempted, Confirmed}
      ensures State() == if k in old(intents) then ReceiptRecorded(old(State()), k, now) else old(State())
      ensures accepted ==> intents[k].state == Confirmed
      ensures forall x :: x in old(intents) && x != k ==> x in intents && intents[x] == old(intents)[x]
      ensures !accepted ==> intents == old(intents)
    {
      if k !in intents || intents[k].state !in {Attempted, Confirmed} {
        return false;
      }
      if intents[k].state == Attempted {
        intents := intents[k := intents[k].(state := Confirmed, updatedAt := now)];
      }
      return true;
    }

    method RevalidateDelivery(k: Key, minute: Minute, now: Instant) returns (state: IntentState)
      requires k in intents && intents[k].consumer in consumers
      modifies this`intents
      ensures State() == Revalidated(old(State()), k, minute, now)
      ensures state == intents[k].state
      ensures
        var i := old(intents)[k];
        if i.state !in {Queued, QuietHold, Attempted} || MaySend(old(State()), k, i, minute) then intents == old(intents)
        else intents == old(intents)[k := i.(state := state, updatedAt := intents[k].updatedAt)] && state in {Cancelled, QuietHold}
      ensures
        var i, c := old(intents)[k], consumers[old(intents)[k].consumer];
        && (i.state in {Queued, QuietHold, Attempted} ==>
              (state == Cancelled <==>
                 !(i.batch in batches && batches[i.batch].epoch == epoch && i.batch !in invalid && c.enabled && c.background
                   && c.deliveryEnabled && c.destination == Some(k.destination) && c.profile == k.profile)))
        && (state != i.state ==> intents[k].updatedAt == now)
      ensures state == QuietHold ==> old(intents)[k].state == QuietHold || IsSilent(consumers[intents[k].consumer].quiet, minute)
    {
      QuietIsSilent(consumers[intents[k].consumer].quiet, minute);
      var i := intents[k];
      if i.state !in {Queued, QuietHold, Attempted} {
        return i.state;
      }
      var c := consumers[i.consumer];
      if i.batch !in batches || batches[i.batch].epoch != epoch || i.batch in invalid
          || !c.enabled || !c.background || !c.deliveryEnabled || c.destination != Some(k.destination) || c.profile != k.profile {
        intents := intents[k := i.(state := Cancelled, updatedAt := now)];
        return Cancelled;
      }
      if InQuiet(c.quiet, minute) && !(i.urgent && c.urgentBypass) {
        if i.state != QuietHold {
          intents := intents[k := i.(state := QuietHold, updatedAt := now)];
        }
        return QuietHold;
      }
      return i.state;
    }

    /** Attempts without a receipt become uncertain, expired quiet holds are released. */
    method ReconcileDeliveries(cutoff: Instant, minute: Minute, now: Instant)
      modifies this`intents
      ensures State() == Reconciled(old(State()), cutoff, minute, now)
      ensures intents.Keys == old(intents).Keys
      ensures forall k :: k in intents ==> IsReconciled(old(State()), k, old(intents)[k], intents[k], cutoff, minute, now)
    {
      forall c | c in consumers ensures InQuiet(consumers[c].quiet, minute) <==> IsSilent(consumers[c].quiet, minute) {
        QuietIsSilent(consumers[c].quiet, minute);
      }
      ghost var t := State();
      MarkUncertain(cutoff, now);
      ReleaseHolds(t, cutoff, minute, now);
    }

    method MarkUncertain(cutoff: Instant, now: Instant)
      modifies this`intents
      ensures intents == map k | k in old(intents) :: Overdue(old(intents)[k], cutoff, now)
    {
      ghost var before := intents;
      var stale := set k | k in intents && intents[k].state == Attempted && intents[k].updatedAt <= cutoff;
      while stale != {}
        invariant intents.Keys == before.Keys
        invariant stale <= before.Keys && forall k :: k in stale ==> before[k].state == Attempted && before[k].updatedAt <= cutoff
        invariant forall k :: k in intents ==> intents[k] == if k in stale then before[k] else Overdue(before[k], cutoff, now)
      {
        var k :| k in stale;
        intents := intents[k := intents[k].(state := Uncertain, updatedAt := now)];
        stale := stale - {k};
      }
    }

    /** The second half: holds end with the quiet window, or with the policy. */
    method ReleaseHolds(ghost t: Tables, cutoff: Instant, minute: Minute, now: Instant)
      requires State() == t.(intents := map k | k in t.intents :: Overdue(t.intents[k], cutoff, now))
      modifies this`intents
      ensures State() == Reconciled(t, cutoff, minute, now)
    {
      var held := set k | k in intents && intents[k].state == QuietHold;
      while held != {}
        invariant intents.Keys == t.intents.Keys
        invariant held <= t.intents.Keys && forall k :: k in held ==> t.intents[k].state == QuietHold
        invariant forall k :: k in intents && k !in held ==>
                    intents[k] == Settled(t, k, ReconciledState(t, k, cutoff, minute), now)
        invariant forall k :: k in held ==> intents[k] == t.intents[k]
      {
        var k :| k in held;
        var i := intents[k];
        if i.consumer !in consumers || !consumers[i.consumer].enabled || !consumers[i.consumer].background
            || !consumers[i.consumer].deliveryEnabled || consumers[i.consumer].destination != Some(k.destination)
            || consumers[i.consumer].profile != k.profile {
          intents := intents[k := i.(state := Cancelled, updatedAt := now)];
        } else if !InQuiet(consumers[i.consumer].quiet, minute) || (i.urgent && consumers[i.consumer].urgentBypass) {
          intents := intents[k := i.(state := Queued, updatedAt := now)];
        }
        held := held - {k};
      }
    }
  }

  lemma {:induction false} OldestWaits(waiting: set<Key>, intents: map<Key, Intent>)
    requires waiting != {} && waiting <= intents.Keys
    ensures exists k :: k in waiting && forall x :: x in waiting ==> intents[k].createdAt <= intents[x].createdAt
    decreases |waiting|
  {
    var y :| y in waiting;
    if waiting != {y} {
      OldestWaits(waiting - {y}, intents);
      var k :| k in waiting - {y} && forall x :: x in waiting - {y} ==> intents[k].createdAt <= intents[x].createdAt;
      var best := if intents[k].createdAt <= intents[y].createdAt then k else y;
      assert best in waiting && forall x :: x in waiting ==> intents[best].createdAt <= intents[x].createdAt;
    }
  }
}
