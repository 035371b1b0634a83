/**
 Tracking what an external engine may hold: a document is journaled before it
 is sent, and forgotten locally only once its erasure is confirmed.
 */
module Hindsight {

  /** Records are numbered in the order they were ingested. */
  type RecordId = nat
  type Instant = int

  /** `live` and `epoch` belong to the canonical archive; `remote` is what the engine may hold. */
  datatype Tracker = Tracker(
    done: set<RecordId>, pending: map<RecordId, Instant>, clearing: bool,
    live: set<RecordId>, epoch: nat, remote: set<RecordId>)

  function Tracked(t: Tracker): set<RecordId> {
    t.done + t.pending.Keys
  }

  /** Nothing the engine may hold is unknown here. */
  predicate NoOrphans(t: Tracker) {
    t.remote <= Tracked(t)
  }

  /** Copies of records that are no longer live and visible. */
  function PendingDeletions(t: Tracker): set<RecordId> {
    Tracked(t) - t.live
  }

  predicate IsSelectable(t: Tracker, now: Instant, r: RecordId) {
    r in t.live && r !in t.done && (r in t.pending ==> t.pending[r] <= now)
  }

  // ---- local transactions -------------------------------------------------

  function Obliged(t: Tracker): Tracker {
    t.(clearing := true)
  }

  function Emptied(t: Tracker): Tracker {
    t.(done := {}, pending := map[], clearing := false)
  }

  function Untracked(t: Tracker, r: RecordId): Tracker {
    t.(done := t.done - {r}, pending := t.pending - {r})
  }

  /** What should not be retained again is made due, never forgotten. */
  function MadeDue(t: Tracker, dropped: set<RecordId>): Tracker {
    t.(pending := map r | r in t.pending :: if r in dropped then 0 else t.pending[r])
  }

  function Journaled(t: Tracker, rows: set<RecordId>): Tracker {
    t.(pending := (map r | r in rows :: 0) + t.pending)
  }

  function Acknowledged(t: Tracker, rows: set<RecordId>): Tracker {
    t.(done := t.done + rows, pending := t.pending - rows)
  }

  function BackedOff(t: Tracker, rows: set<RecordId>, until: Instant): Tracker {
    t.(pending := map r | r in t.pending :: if r in rows then until else t.pending[r])
  }

  function Ids(rows: seq<RecordId>): set<RecordId> {
    set r | r in rows
  }

  // ---- the adapter --------------------------------------------------------

  /** How a failed request is handled: isolate its items, or back the batch off. */
  datatype Failure = Ambiguous | Outage

  class Adapter {
    var done: set<RecordId>
    var pending: map<RecordId, Instant>
    var clearing: bool
    var live: set<RecordId>
    var epoch: nat
    var remote: set<RecordId>
    var now: Instant

    ghost function State(): Tracker
      reads this
    {
      Tracker(done, pending, clearing, live, epoch, remote)
    }

    constructor (t: Tracker)
      ensures State() == t
    {
      done, pending, clearing, live, epoch, remote := t.done, t.pending, t.clearing, t.live, t.epoch, t.remote;
    }

    /** Canonical writers ingest, hide, restore, forget and reset between any two steps. */
    method OthersWrite()
      modifies this`live, this`epoch, this`now
    {
      live, epoch, now := *, *, *;
    }

    /** Ask for one document's deletion: it may happen and still not be confirmed. */
    method RequestDeletion(r: RecordId) returns (confirmed: bool)
      modifies this`remote
      ensures remote == old(remote) || remote == old(remote) - {r}
      ensures confirmed ==> remote == old(remote) - {r}
    {
      var happened := *;
      if happened {
        remote := remote - {r};
        confirmed := *;
      } else {
        confirmed := false;
      }
    }

    method RequestClear() returns (confirmed: bool)
      modifies this`remote
      ensures remote == old(remote) || remote == {}
      ensures confirmed ==> remote == {}
    {
      var happened := *;
      if happened {
        remote := {};
        confirmed := *;
      } else {
        confirmed := false;
      }
    }

    /** Send a batch: any part of it may arrive, and only a full arrival can be confirmed. */
    method RequestRetain(items: seq<RecordId>) returns (confirmed: bool, failure: Failure)
      modifies this`remote
      ensures old(remote) <= remote <= old(remote) + Ids(items)
      ensures confirmed ==> remote == old(remote) + Ids(items)
    {
      failure := *;
      confirmed := *;
      if confirmed {
        remote := remote + Ids(items);
      } else {
        var arrived: set<RecordId> := *;
        remote := remote + arrived * Ids(items);
      }
    }

    /** Clear the bank: the obligation is stored first, tracking is dropped last. */
    method PerformClear() returns (cleared: bool)
      requires NoOrphans(State())
      modifies this`done, this`pending, this`clearing, this`remote, this`live, this`epoch, this`now
      ensures NoOrphans(State())
      ensures cleared ==> remote == {} && Tracked(State()) == {} && !clearing
      ensures !cleared ==> clearing && done == old(done) && pending == old(pending)
    {
      clearing := true;
      OthersWrite();
      var confirmed := RequestClear();
      if !confirmed {
        return false;
      }
      OthersWrite();
      done, pending, clearing := {}, map[], false;
      return true;
    }

    /** Erase each record that was gone when the pass selected it. */
    method EraseAll(gone: set<RecordId>) returns (failed: bool)
      requires NoOrphans(State())
      modifies this`done, this`pending, this`remote, this`live, this`epoch, this`now
      ensures NoOrphans(State())
      ensures remote <= old(remote) && Tracked(State()) <= Tracked(old(State()))
      ensures !failed ==> Tracked(State()) !! gone
    {
      failed := false;
      var left := gone;
      while left != {}
        invariant left <= gone && NoOrphans(State())
        invariant remote <= old(remote) && Tracked(State()) <= Tracked(old(State()))
        invariant !failed ==> Tracked(State()) !! (gone - left)
      {
        var r :| r in left;
        var confirmed := RequestDeletion(r);
        OthersWrite();
        if confirmed {
          done, pending := done - {r}, pending - {r};
        } else {
          failed := true;
        }
        assert gone - (left - {r}) == gone - left + {r};
        left := left - {r};
      }
      assert gone - left == gone;
    }

    /** One request, and on full confirmation the move from pending to done. */
    method Retain(items: seq<RecordId>) returns (confirmed: bool, failure: Failure)
      requires NoOrphans(State()) && Ids(items) <= pending.Keys
      modifies this`done, this`pending, this`remote, this`live, this`epoch, this`now
      ensures NoOrphans(State()) && Tracked(State()) == Tracked(old(State())) && clearing == old(clearing)
      ensures remote <= old(remote) + Ids(items)
      ensures confirmed ==> done == old(done) + Ids(items) && pending == old(pending) - Ids(items)
      ensures !confirmed ==> pending == old(pending) && done == old(done)
    {
      confirmed, failure := RequestRetain(items);
      OthersWrite();
      if confirmed {
        done, pending := done + Ids(items), pending - Ids(items);
      }
    }

    method BackOff(items: seq<RecordId>)
      modifies this`pending
      ensures pending == map r | r in old(pending) :: if r in Ids(items) then now + 30 else old(pending)[r]
    {
      var ids := Ids(items);
      pending := map r | r in pending :: if r in ids then now + 30 else pending[r];
    }

    /** Retry each item of an ambiguous batch on its own. */
    method Isolate(items: seq<RecordId>) returns (failed: bool, ghost left: set<RecordId>)
      requires NoOrphans(State()) && Ids(items) <= pending.Keys && forall i, j :: 0 <= i < j < |items| ==> items[i] != items[j]
      modifies this`done, this`pending, this`remote, this`live, this`epoch, this`now
      ensures NoOrphans(State()) && Tracked(State()) == Tracked(old(State()))
      ensures remote <= old(remote) + Ids(items)
      ensures left <= Ids(items) && Ids(items) - left <= done && left <= pending.Keys
      ensures failed <==> left != {}
    {
      failed, left := false, {};
      for i := 0 to |items|
        invariant NoOrphans(State()) && Tracked(State()) == Tracked(old(State()))
        invariant remote <= old(remote) + Ids(items)
        invariant forall j :: i <= j < |items| ==> items[j] in pending
        invariant left <= Ids(items[..i]) && left <= pending.Keys && (failed <==> left != {})
        invariant forall j :: 0 <= j < i ==> items[j] in done || items[j] in left
      {
        assert Ids([items[i]]) == {items[i]};
        var confirmed, failure := Retain([items[i]]);
        if !confirmed {
          failed, left := true, left + {items[i]};
          BackOff([items[i]]);
        }
      }
    }

    /** The records selected for one pass: live, not stored, and due, the oldest first, all of them while there is room. */
    method Select(batch: nat) returns (rows: seq<RecordId>)
      ensures |rows| <= batch
      ensures forall i :: 0 <= i < |rows| ==> IsSelectable(State(), now, rows[i])
      ensures forall i, j :: 0 <= i < j < |rows| ==> rows[i] < rows[j]
      ensures forall r :: r in live && r !in done && (r in pending ==> pending[r] <= now) ==>
                r in rows || (|rows| == batch && forall i :: 0 <= i < |rows| ==> rows[i] < r)
      ensures forall r :: r in rows ==> r in live && r !in done && (r in pending ==> pending[r] <= now)
    {
      var candidates := set r | r in live && r !in done && (r in pending ==> pending[r] <= now);
      rows := Oldest(candidates, batch);
      assert forall r :: r in rows ==> r in candidates;
    }

    /** The oldest of the candidates, in order. */
    static method Oldest(candidates: set<RecordId>, batch: nat) returns (rows: seq<RecordId>)
      ensures |rows| <= batch && forall i :: 0 <= i < |rows| ==> rows[i] in candidates
      ensures forall i, j :: 0 <= i < j < |rows| ==> rows[i] < rows[j]
      ensures forall r :: r in candidates ==> r in rows || (|rows| == batch && forall i :: 0 <= i < |rows| ==> rows[i] < r)
    {
      rows := [];
      var left := candidates;
      while left != {} && |rows| < batch
        invariant |rows| <= batch && left <= candidates
        invariant forall i :: 0 <= i < |rows| ==> rows[i] in candidates
        invariant forall r :: r in candidates ==> r in left || r in rows
        invariant forall i, r :: 0 <= i < |rows| && r in left ==> rows[i] < r
        invariant forall i, j :: 0 <= i < j < |rows| ==> rows[i] < rows[j]
        decreases left
      {
        OldestExists(left);
        var r :| IsOldest(r, left);
        rows, left := rows + [r], left - {r};
      }
    }

    /** Look again right before sending; what went away is made due for deletion instead. */
    method Recheck(rows: seq<RecordId>, selected: nat) returns (kept: seq<RecordId>)
      requires forall i, j :: 0 <= i < j < |rows| ==> rows[i] != rows[j]
      modifies this`pending
      ensures pending.Keys == old(pending).Keys
      ensures forall i, j :: 0 <= i < j < |kept| ==> kept[i] != kept[j]
      ensures forall r :: r in kept <==> r in rows && r in live && epoch == selected
      ensures forall r :: r in pending ==> pending[r] == if r in rows && r !in kept then 0 else old(pending)[r]
    {
      kept := [];
      for i := 0 to |rows|
        invariant forall r :: r in kept <==> r in rows[..i] && r in live && epoch == selected
        invariant forall j, k :: 0 <= j < k < |kept| ==> kept[j] != kept[k]
      {
        if rows[i] in live && epoch == selected {
          kept := kept + [rows[i]];
        }
      }
      var keep := Ids(kept);
      var dropped := set r | r in rows && r !in keep;
      pending := map r | r in pending :: if r in dropped then 0 else pending[r];
    }

    /** Journal, send, and on failure isolate or back off. */
    method RetainBatch(rows: seq<RecordId>) returns (failed: bool, ghost left: set<RecordId>)
      requires NoOrphans(State()) && forall i, j :: 0 <= i < j < |rows| ==> rows[i] != rows[j]
      modifies this`done, this`pending, this`remote, this`live, this`epoch, this`now
      ensures NoOrphans(State()) && Tracked(State()) == Tracked(old(State())) + Ids(rows)
      ensures remote <= old(remote) + Ids(rows)
      ensures left <= Ids(rows) && Ids(rows) - left <= done && left <= pending.Keys
      ensures rows != [] ==> (failed <==> left != {})
    {
      left := {};
      pending := (map r | r in Ids(rows) :: 0) + pending;
      OthersWrite();
      var confirmed, failure := Retain(rows);
      if confirmed {
        return false, left;
      }
      if failure == Ambiguous && |rows| > 1 {
        failed, left := Isolate(rows);
      } else {
        BackOff(rows);
        assert rows != [] ==> rows[0] in Ids(rows);
        return true, Ids(rows);
      }
    }

    /**
     One pass: erase what went away, then retain a batch.  Whatever fails or is
     lost on the way, nothing the engine may hold is untracked, and without a
     reported failure nothing that was gone at the start is left there.
     */
    method IndexPass(batch: nat)
      returns (failed: bool, changed: nat, ghost rows: seq<RecordId>, ghost kept: seq<RecordId>, ghost check: Tracker)
      requires NoOrphans(State())
      modifies this`done, this`pending, this`remote, this`live, this`epoch, this`now
      ensures NoOrphans(State())
      ensures !failed ==> remote !! old(PendingDeletions(State()))
      ensures remote <= old(remote) + old(live)
      ensures !failed ==> Ids(kept) <= done && changed == |kept| + |old(PendingDeletions(State()))|
      ensures !failed ==> forall r :: r in kept <==> r in rows && r in check.live && check.epoch == old(epoch)
      ensures forall r :: r in old(live) && r !in old(done) && (r in old(pending) ==> old(pending)[r] <= old(now)) ==>
                r in rows || |rows| == batch
    {
      var gone := (done + pending.Keys) - live;
      assert gone == PendingDeletions(State());
      var chosen := Select(batch);
      rows, kept, check := chosen, [], State();
      var selected := epoch;
      assert Ids(chosen) <= live && Ids(chosen) !! gone;
      OthersWrite();
      var undeleted := EraseAll(gone);
      if undeleted {
        return true, 0, rows, kept, check;
      }
      check := State();
      var sending := Recheck(chosen, selected);
      kept := sending;
      assert Ids(sending) <= Ids(chosen);
      failed := false;
      if sending != [] {
        OthersWrite();
        ghost var left;
        failed, left := RetainBatch(sending);
      }
      changed := |sending| + |gone|;
    }

    /** An unfinished clean-up outranks everything else. */
    method Sync(batch: nat) returns (failed: bool)
      requires NoOrphans(State())
      modifies this`done, this`pending, this`clearing, this`remote, this`live, this`epoch, this`now
      ensures NoOrphans(State())
      ensures !failed ==> remote !! old(PendingDeletions(State()))
      ensures old(clearing) && !failed ==> remote == {} && !clearing
    {
      if clearing {
        var cleared := PerformClear();
        return !cleared;
      }
      var changed;
      ghost var rows, kept, check;
      failed, changed, rows, kept, check := IndexPass(batch);
    }
  }

  predicate IsOldest(r: RecordId, pool: set<RecordId>) {
    r in pool && forall x :: x in pool ==> r <= x
  }

  lemma {:induction false} OldestExists(pool: set<RecordId>)
    requires pool != {}
    ensures exists r :: IsOldest(r, pool)
    decreases |pool|
  {
    var y :| y in pool;
    if pool == {y} {
      assert IsOldest(y, pool);
    } else {
      OldestExists(pool - {y});
      var r :| IsOldest(r, pool - {y});
      var best := if r <= y then r else y;
      forall x | x in pool ensures best <= x {
        assert x == y || x in pool - {y};
      }
      assert IsOldest(best, pool);
    }
  }
}
