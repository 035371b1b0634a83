/**
 The change journal as one consumer reads it: numbered entries of an epoch,
 oldest first, at most so many at a time.
 */
module Journal {
  import opened SweepPacking

  /**
   One journal row; its event carries its number.  The service does not store
   the serial: it tells apart rows that get the same number at different times.
   */
  datatype Entry = Entry(event: Event, epoch: nat, serial: nat)

  type Entries = map<nat, Entry>

  /** The number is the table's key. */
  predicate IsNumbered(journal: Entries) {
    forall n :: n in journal ==> journal[n].event.sequence == n
  }

  /** Later rows of an item have later versions, so no two rows share an identity. */
  predicate IsJournal(journal: Entries) {
    && IsNumbered(journal)
    && forall m, n :: m in journal && n in journal && m < n && SameItem(journal[m].event, journal[n].event) ==>
         journal[m].event.version < journal[n].event.version
  }

  /** One more than the largest version the journal still has of the item. */
  ghost predicate IsNextVersion(journal: Entries, e: Event) {
    && e.version > 0
    && (forall n :: n in journal && SameItem(journal[n].event, e) ==> journal[n].event.version < e.version)
    && (e.version == 1 || exists n :: n in journal && SameItem(journal[n].event, e) && journal[n].event.version + 1 == e.version)
  }

  /** The largest number in the journal, zero when it is empty: the next entry is one higher. */
  ghost predicate IsNewest(journal: Entries, newest: nat) {
    && (newest in journal || (journal == map[] && newest == 0))
    && (forall n :: n in journal ==> n <= newest)
  }

  predicate IsAhead(journal: Entries, epoch: nat, start: nat, n: nat) {
    n in journal && journal[n].epoch == epoch && start < n
  }

  function CursorAfter(rows: seq<Event>, start: nat): nat {
    if rows == [] then start else rows[|rows| - 1].sequence
  }

  /** The oldest entries after the start, all of them unless the limit was reached. */
  ghost predicate IsScan(rows: seq<Event>, journal: Entries, epoch: nat, start: nat, limit: nat) {
    && |rows| <= limit
    && (forall i :: 0 <= i < |rows| ==> IsEntry(rows[i], journal, epoch, start))
    && (forall i, j :: 0 <= i < j < |rows| ==> rows[i].sequence < rows[j].sequence)
    && (forall n :: IsAhead(journal, epoch, start, n) ==> IsCovered(rows, journal, start, limit, n))
  }

  predicate IsEntry(e: Event, journal: Entries, epoch: nat, start: nat) {
    IsAhead(journal, epoch, start, e.sequence) && journal[e.sequence].event == e
  }

  /** The entry was read, or lies past a full scan. */
  predicate IsCovered(rows: seq<Event>, journal: Entries, start: nat, limit: nat, n: nat)
    requires n in journal
  {
    journal[n].event in rows || (|rows| == limit && CursorAfter(rows, start) < n)
  }

  /** Entries of the epoch exist, but the one after the start is gone. */
  ghost predicate HasGap(journal: Entries, epoch: nat, start: nat) {
    && (exists n :: n in journal && journal[n].epoch == epoch)
    && (forall n :: n in journal && journal[n].epoch == epoch ==> start + 1 < n)
  }

  lemma {:induction false} OldestExists(numbers: set<nat>) returns (oldest: nat)
    requires numbers != {}
    ensures oldest in numbers && forall n :: n in numbers ==> oldest <= n
    decreases |numbers|
  {
    var n :| n in numbers;
    oldest := n;
    if numbers != {n} {
      var other := OldestExists(numbers - {n});
      oldest := if other < n then other else n;
    }
    assert forall m :: m in numbers ==> m == n || m in numbers - {n};
  }

  lemma {:induction false} NewestExists(journal: Entries) returns (newest: nat)
    ensures IsNewest(journal, newest)
    decreases |journal|
  {
    if journal == map[] {
      newest := 0;
    } else {
      var n :| n in journal;
      var fewer := journal - {n};
      assert forall m :: m in journal ==> m == n || m in fewer;
      var rest := NewestExists(fewer);
      newest := if rest < n then n else rest;
    }
  }

  /** Read the oldest entries of the epoch after the start, in order. */
  method ReadOldest(journal: Entries, epoch: nat, start: nat, limit: nat) returns (rows: seq<Event>)
    requires IsNumbered(journal)
    ensures IsScan(rows, journal, epoch, start, limit)
  {
    rows := [];
    var ahead := set n | n in journal && IsAhead(journal, epoch, start, n);
    while |rows| < limit && ahead != {}
      invariant |rows| <= limit
      invariant ahead == set n | n in journal && IsAhead(journal, epoch, CursorAfter(rows, start), n)
      invariant forall i :: 0 <= i < |rows| ==> IsEntry(rows[i], journal, epoch, start)
      invariant forall i :: 0 <= i < |rows| ==> rows[i].sequence <= CursorAfter(rows, start)
      invariant forall i, j :: 0 <= i < j < |rows| ==> rows[i].sequence < rows[j].sequence
      invariant forall n :: IsAhead(journal, epoch, start, n) ==> n in ahead || journal[n].event in rows
      decreases limit - |rows|
    {
      ghost var least := OldestExists(ahead);
      assert least in ahead && forall n :: n in ahead ==> least <= n;
      var oldest :| oldest in ahead && forall n :: n in ahead ==> oldest <= n;
      ghost var before := ahead;
      ghost var read := rows;
      rows := rows + [journal[oldest].event];
      ahead := set n | n in journal && IsAhead(journal, epoch, oldest, n);
      forall n | IsAhead(journal, epoch, start, n) ensures n in ahead || journal[n].event in rows {
        assert n in before || journal[n].event in read;
      }
    }
  }

  /** Whether the entry just after the start was compacted away. */
  method LooksForGap(journal: Entries, epoch: nat, start: nat) returns (gap: bool)
    ensures gap <==> HasGap(journal, epoch, start)
    ensures gap <==> (exists n :: n in journal && journal[n].epoch == epoch)
                     && forall n :: 0 <= n <= start + 1 ==> n !in journal || journal[n].epoch != epoch
  {
    var numbers := set n | n in journal && journal[n].epoch == epoch;
    gap := numbers != {} && forall n :: n in numbers ==> start + 1 < n;
    if gap {
      ghost var least := OldestExists(numbers);
    }
    assert forall n :: n in journal && journal[n].epoch == epoch ==> n in numbers;
  }

  /** The journal determines the scan. */
  lemma ScanIsUnique(rows: seq<Event>, others: seq<Event>, journal: Entries, epoch: nat, start: nat, limit: nat)
    requires IsScan(rows, journal, epoch, start, limit) && IsScan(others, journal, epoch, start, limit)
    ensures rows == others
  {
    var k := AgreeUpTo(rows, others);
    if k < |rows| && k < |others| {
      NextRowAgrees(rows, others, journal, epoch, start, limit, k);
    } else if k == |rows| {
      NothingFollows(rows, others, journal, epoch, start, limit);
    } else {
      NothingFollows(others, rows, journal, epoch, start, limit);
    }
  }

  /** The length of the longest common beginning. */
  lemma {:induction false} AgreeUpTo(rows: seq<Event>, others: seq<Event>) returns (k: nat)
    ensures k <= |rows| && k <= |others| && forall i :: 0 <= i < k ==> rows[i] == others[i]
    ensures k < |rows| && k < |others| ==> rows[k] != others[k]
  {
    if rows == [] || others == [] || rows[0] != others[0] {
      k := 0;
    } else {
      var rest := AgreeUpTo(rows[1..], others[1..]);
      k := rest + 1;
      forall i | 0 <= i < k ensures rows[i] == others[i] {
        assert i > 0 ==> rows[1..][i - 1] == others[1..][i - 1];
      }
      assert k < |rows| && k < |others| ==> rows[k] == rows[1..][rest] && others[k] == others[1..][rest];
    }
  }

  lemma NextRowAgrees(rows: seq<Event>, others: seq<Event>, journal: Entries, epoch: nat, start: nat, limit: nat, k: nat)
    requires IsScan(rows, journal, epoch, start, limit) && IsScan(others, journal, epoch, start, limit)
    requires k < |rows| && k < |others|
    requires forall i :: 0 <= i < k ==> rows[i] == others[i]
    ensures rows[k] == others[k]
  {
    var e, f := rows[k], others[k];
    assert IsEntry(e, journal, epoch, start) && IsEntry(f, journal, epoch, start);
    assert forall i :: 0 <= i < k ==> rows[i].sequence < e.sequence;
    assert forall i :: 0 <= i < k ==> others[i].sequence < f.sequence;
    NotLater(rows, f, journal, epoch, start, limit, k);
    NotLater(others, e, journal, epoch, start, limit, k);
    assert e.sequence == f.sequence;
  }

  /** Once its first rows lie before an entry, the next row is not later than the entry. */
  lemma NotLater(rows: seq<Event>, e: Event, journal: Entries, epoch: nat, start: nat, limit: nat, k: nat)
    requires IsScan(rows, journal, epoch, start, limit) && IsEntry(e, journal, epoch, start)
    requires k <= |rows| && forall i :: 0 <= i < k ==> rows[i].sequence < e.sequence
    ensures k < |rows| ==> rows[k].sequence <= e.sequence
    ensures k == |rows| ==> |rows| == limit
  {
    assert IsCovered(rows, journal, start, limit, e.sequence);
    if e in rows {
      var i :| 0 <= i < |rows| && rows[i] == e;
      assert k <= i;
    }
  }

  lemma NothingFollows(rows: seq<Event>, others: seq<Event>, journal: Entries, epoch: nat, start: nat, limit: nat)
    requires IsScan(rows, journal, epoch, start, limit) && IsScan(others, journal, epoch, start, limit)
    requires |rows| <= |others| && forall i :: 0 <= i < |rows| ==> rows[i] == others[i]
    ensures |rows| == |others|
  {
    if |rows| < |others| {
      assert IsEntry(others[|rows|], journal, epoch, start);
      NotLater(rows, others[|rows|], journal, epoch, start, limit, |rows|);
    }
  }
}
