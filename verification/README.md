# A verified model of a personal memory service

The service keeps its state in tables that several actors update one
transaction at a time: canonical writers, one indexer, leased workers and an
administrator.  This project models its protocols in Dafny and proves what they
promise over whole runs.  Each component has two halves: the tables and the
object whose methods carry out the transactions, each proved equal to a
specification function; and the runs, in which every actor takes steps in any
order, fails or stops between them, and an invariant holds at every point.

| file | models |
|---|---|
| `Wrappers.dfy`, `Dependencies.dfy` | optional values; transitive reading of a two-column dependency table |
| `SemanticTables.dfy`, `SemanticIndexing.dfy`, `SemanticRuns.dfy`, `SemanticVectors.dfy`, `SemanticReady.dfy`, `SemanticDrain.dfy`, `SemanticExamples.dfy` | the multi-model work queue behind the vector index |
| `Journal.dfy`, `SweepPacking.dfy` | the change journal and its packing into batches |
| `Awareness.dfy`, `AwarenessRuns.dfy`, `AwarenessAttention.dfy`, `AwarenessJournal.dfy`, `AwarenessRetention.dfy`, `AwarenessScripts.dfy`, `AwarenessBearable.dfy`, `AwarenessReplay.dfy`, `AwarenessExamples.dfy` | one consumer of the journal: fenced leases, the scan position, the processed watermark |
| `Deliveries.dfy`, `DeliveryRuns.dfy` | notification intents and the workers that send them |
| `SourceHeads.dfy`, `SourceHeadRuns.dfy`, `SourceHeadProgress.dfy`, `SourceHeadOrder.dfy`, `SourceHeadPermutations.dfy` | which revision of a source item is current and visible |
| `SourceCommits.dfy`, `SourceCommitRuns.dfy`, `SourceCommitLeases.dfy` | stream leases and the atomic page commit |
| `Cascade.dfy`, `CascadeRuns.dfy` | the retirement cascade over claims, links, curated entries, analyses and lessons |
| `Hindsight.dfy`, `HindsightRuns.dfy` | tracking of remote copies |
| `Ownership.dfy`, `OwnershipRuns.dfy` | construction, warm-up and shutdown of the indexing owner |
| `Totals.dfy`, `Diffusion.dfy`, `DiffusionPaths.dfy`, `Propagation.dfy` | bounded activation over the record-entity graph |
| `Curated.dfy`, `CuratedRuns.dfy` | versioned curated memory |
| `Lineage.dfy` | fan-in of provenance groups |

`dafny verify dfyconfig.toml` checks the whole project.

## How to read it

Identifiers and clocks are numbers, digests are injective (a digest is the
value it digests), a `BEGIN IMMEDIATE` block is one step, a raised error leaves
the state as it was.  Calls to other systems may take effect, not take effect,
or take effect without an answer.  Arithmetic in the diffusion is over reals.

A run is a sequence of actions, each enabled where it is taken.  A main result
speaks about `After(s, actions)` for every run from an initial state, or from
every state that satisfies the invariant.

Where the code does not meet a promise in every case, the project gives the
exact condition under which it does, as an equivalence, and an input or run for
which it does not:

- A completed record is un-completed when the clean-up after it fails
  (`personal_memory/semantic.py:448-460`); if nothing else queues it, the index
  reports ready without it.
- Restoring an item signals its forgotten records for indexing
  (`personal_memory/source_sync.py:478-486`); a completed one is then skipped
  and its vectors stay, and one that is being embedded gets vectors nobody
  erases.
- Journal numbers and transition versions continue from the largest ones
  present (`personal_memory/changes.py:163-170`), and compaction may remove the
  newest entry, of the journal or of an item, even when it is not forced
  (`personal_memory/awareness.py:1004-1035`).  A number that comes back lies at
  or behind the consumers' positions; an identity that comes back names a batch
  that is known, and the insert is ignored (`personal_memory/awareness.py:372-383`).
  Either way the entry is never analysed and no flag is up.  After a reset in
  that state the watermark goes back behind completed batches.
- An administrator's replay moves the scan position back but not the watermark
  (`personal_memory/awareness.py:1047-1081`).  Unless what it leaves open lies
  close to the new position, the watermark goes ahead of reopened work or of the
  cursor, at once or at a later completion, until sweeps have caught up.
- A suppression is recorded under its range with a plain insert
  (`personal_memory/awareness.py:407-413`).  A sweep that reads the same range
  again after a replay is rolled back, exactly when that range is on record and
  something in it is passed over; if the range fills the scan, every later
  sweep is.
- Revalidating an attempted intent from outside its worker in quiet hours
  re-queues it (`personal_memory/awareness.py:966-1001`); in the repository only
  the worker itself does so.
- An old revision that is delivered again is retired with its descendants
  (`personal_memory/source_sync.py:543-544`), the current one among them when it
  names the old one as its parent.  The same deliveries can therefore end with
  different visible records, depending on their order.
- The repair pass looks at recorded, pending and active lessons
  (`personal_memory/lifecycle.py:147-155`), as its text says when it speaks of
  active artifacts; a superseded lesson on retired evidence keeps its state.
- The wait for the warm-up thread is bounded (`personal_memory/retrieval.py:258-261`),
  and the warm-up's state check and its thread start are not one step
  (`personal_memory/retrieval.py:280-298`).  A thread may outlive a clean
  shutdown or start after it, and a later close returns at once.  The method's
  own text promises the opposite.
- A configured damping is not clamped (`personal_memory/retrieval.py:379-386`)
  although the function's text says so; outside zero to one the masses leave
  their bounds.

## Model

| member | source | states |
|---|---|---|
| `Dependencies.ClosureIsReachability` | personal_memory/lifecycle.py:26-29 | the recursive query over a dependency table finds exactly the records reachable from its root |
| `Dependencies.ClosureIsLeast` | personal_memory/store.py:509-511 | nothing outside a closed set around the seeds is ever reached |
| `Dependencies.ClosureOfUnion` | personal_memory/lifecycle.py:57-60 | walking from several roots together reaches what walking from each reaches |
| `SemanticRuns.IndexCoverage` | personal_memory/semantic.py:403-469 | in every interleaving of writers with the indexer, its failures and crashes, as long as no failure handler takes a completion away for good: each registered model has completed each live visible record, or owes it, or the shared row asks to index it |
| `SemanticRuns.GhostsAreQueued` | personal_memory/semantic.py:531-591 | as long as every restore is of stored records: whatever a registered model still holds of a record that is not live and visible has a retirement waiting, also after a hide during embedding or a crash after the chunks were stored |
| `SemanticReady.ReadyIsHonest` | personal_memory/semantic.py:652-675 | as long as completions and leftovers stay in sight: `ready` means the active model completed every live visible record and no registered model stores vectors or marks of anything else |
| `SemanticReady.PendRunExactly` | personal_memory/semantic.py:281-336 | over any run, each leftover keeps its own or a shared row at every point exactly when no distribution skips and no opening drops the only row that would erase it |
| `SemanticReady.ReadyIsHonestForStoredRestores` | personal_memory/semantic.py:652-675 | for that it is enough that every restore is of stored records |
| `SemanticReady.ReadyAndHonestExactly` | personal_memory/semantic.py:652-675 | at a moment of readiness the answer is honest exactly when coverage holds and leftovers are in sight |
| `SemanticVectors.VectorsAreAsEmbedded` | personal_memory/semantic.py:593-624 | over any run, failures, crashes and concurrent writers included: what is stored of a record for a model is exactly the starts of its last embedding since the last erasure, and whatever is completed was embedded |
| `SemanticVectors.ReadyIsComplete` | personal_memory/semantic.py:652-675 | where readiness is honest it is so about vectors: of every live visible record every start of its embedding is stored, and of nothing else anything |
| `SemanticRuns.GhostStepExactly` | personal_memory/source_sync.py:478-486 | a step keeps every ghost accounted for exactly when what it restores is stored, or has neither leftovers nor is being embedded |
| `SemanticRuns.GhostRunExactly` | personal_memory/source_sync.py:478-486 | over any run, ghosts are accounted for at every point exactly when every restore satisfies that |
| `SemanticRuns.UnstoredRestoreLeavesGhost` | personal_memory/source_sync.py:478-486 | any other restore leaves an unaccounted ghost, at once or one step later, when the record being embedded gets its vectors |
| `SemanticExamples.RestoredForgottenLeavesGhost` | personal_memory/source_sync.py:478-486 | a concrete run: after forget and restore the index reports ready and keeps the forgotten record's vector |
| `SemanticExamples.RestoredDuringEmbeddingLeavesGhost` | personal_memory/source_sync.py:478-486 | a concrete run: a record without vectors is forgotten and restored while it is embedded, and the vectors arrive unaccounted for |
| `SemanticRuns.CleanupFailureBreaksExactly` | personal_memory/semantic.py:448-460 | the failure branch breaks coverage if and only if it un-completes a live record that nothing else would queue again |
| `SemanticRuns.CoverageRunExactly` | personal_memory/semantic.py:403-469 | over any run, coverage holds at every point exactly when no failure branch does that |
| `SemanticExamples.CleanupFailureLosesRecord` | personal_memory/semantic.py:448-460 | a concrete run: the clean-up after a completion fails, and the index reports ready with its only record not completed |
| `SemanticRuns.CoverageStep` | personal_memory/semantic.py:281-336 | every single step, including opening a model over legacy data, keeps coverage and the clock invariants |
| `SemanticIndexing.SemanticIndex.SignalRow` | personal_memory/semantic.py:64-80 | one desired state per record, replaced at the next tick of the clock |
| `SemanticIndexing.SemanticIndex.Enqueue` | personal_memory/semantic.py:83-91 | all records of one write are signalled, at increasing revisions |
| `SemanticIndexing.SemanticIndex.ModelUpsert` | personal_memory/semantic.py:94-104 | only an obligation that is newer than the given revision stays; otherwise it is set to that revision, due at once and without attempts |
| `SemanticIndexing.SemanticIndex.RetireRecord` | personal_memory/semantic.py:382-401 | chunks, marks and obligations of the record go for all models |
| `SemanticIndexing.SemanticIndex.Activate` | personal_memory/semantic.py:281-312 | every unfinished model is reconciled: missing live records become its obligations, leftovers of gone records become retirements |
| `SemanticIndexing.SemanticIndex.DistributeDue` | personal_memory/semantic.py:424-440 | the oldest due signals, at most a batch, become an obligation of every registered model that has not completed them, and are consumed |
| `SemanticIndexing.SemanticIndex.SelectDue` | personal_memory/semantic.py:403-440 | a pass takes the due signals of a kind, oldest revision first, and leaves one out only for a full batch of older ones |
| `SemanticIndexing.SemanticIndex.SelectOwed` | personal_memory/semantic.py:441-447 | likewise for the model's own due obligations |
| `SemanticIndexing.SemanticIndex.IndexRecord` | personal_memory/semantic.py:531-591 | an embedding stores one vector for each of its starts and touches no other; a gone record loses everything; success completes the record and takes the obligation at the revision processed, failure is reported in the state the handler then sees |
| `SemanticIndexing.SemanticIndex.BackOffRow` | personal_memory/semantic.py:453-460 | the completion mark goes, and only the attempted revision is delayed, with one attempt more |
| `SemanticIndexing.SemanticIndex.Sync` | personal_memory/semantic.py:403-469 | a whole pass equals the specified composition over rows selected oldest first |
| `SemanticDrain.PassDrains` | personal_memory/semantic.py:403-469 | an undisturbed pass over due rows strictly decreases twice the shared rows plus the model's obligations while that is positive |
| `SemanticDrain.PassesReachReady` | personal_memory/semantic.py:652-675 | as many passes as the backlog counts empty the queues that `ready` tests |
| `SemanticRuns.NewerRevisionSurvives` | personal_memory/semantic.py:531-591 | over any run, an obligation leaves a queue only because its record is gone, or a shared row that stays asks for it again, or it was completed at exactly the revision processed; what an acknowledgment or erasure takes from the active model's queue is the processed record at the revision that was read, in the unguarded branches too |
| `SemanticRuns.RevisionsNeverFall` | personal_memory/semantic.py:94-104 | an obligation that stays never returns to an older revision |
| `SweepPacking.GroupRows` | personal_memory/awareness.py:325-337 | each group is one conversation of a source, or one item without a conversation, under one decision, in journal order; no two groups are the same, none is left out |
| `SweepPacking.Pack` | personal_memory/awareness.py:361-405 | batches of one decision and one source, at most `cap` parts, no group twice, within the budget unless a single event, cut only where the next part did not fit, all events in order |
| `SweepPacking.BatchesAreFull` | personal_memory/awareness.py:361-405 | a batch ends only where decision or source change, where it has `cap` parts, or where the next part would exceed the budget |
| `SweepPacking.Materialize` | personal_memory/awareness.py:321-415 | suppressed plus batched is scanned, each kept event in exactly one batch, the cursor on the last scanned row; in the events' own fields: prompts hold exactly the attended live arrivals, digests exactly the uncertain arrivals and the backfill notices of a background consumer, and what is passed over is exactly the rest |
| `Awareness.NormalizingKeepsClaimable` | personal_memory/awareness.py:236-251 | holding, reopening and resuming change no batch's claimability |
| `Awareness.NormalizedIsNormal` | personal_memory/awareness.py:425-458 | after the recovery statements whatever may run is pending, whatever a stalled source holds back is held, and nothing else has changed |
| `Awareness.AwarenessConsumer.HasClaimable` | personal_memory/awareness.py:279-298 | the probe answers whether some batch may be claimed |
| `Awareness.AwarenessConsumer.Claim` | personal_memory/awareness.py:419-482 | a lease is granted exactly when the consumer is enabled and the probe, asked at the same instant, says yes; another source goes first, then what is more urgent, then what is older; the grant takes the next fence, counts the attempt and ends after the given time |
| `Awareness.AwarenessConsumer.Pick` | personal_memory/awareness.py:459-467 | the first candidate in that order, or none exactly when there is none |
| `Awareness.AwarenessConsumer.AdvanceDone` | personal_memory/awareness.py:501-513 | just below the earliest unfinished batch, or up to the last completed one |
| `Awareness.AwarenessConsumer.CompleteBatch` | personal_memory/awareness.py:547-580 | accepted exactly under the held lease, completes the batch and moves the watermark |
| `Awareness.AwarenessConsumer.DeferBatch` | personal_memory/awareness.py:583-605 | accepted exactly under the held lease; retried after the given time while attempts are left, quarantined when they are used up |
| `Journal.ReadOldest` | personal_memory/awareness.py:321-324 | the scan is the oldest entries of the epoch after the start, in order, all of them unless the limit was reached |
| `Journal.ScanIsUnique` | personal_memory/awareness.py:321-324 | the journal determines the scan |
| `Awareness.AwarenessConsumer.Sweep` | personal_memory/awareness.py:301-416 | nothing at all while the journal or the consumer is off; otherwise it scans from the cursor or the journal's starting boundary, flags a gap when the entry after that is gone, re-pauses, packs the scan as `Materialize` says and inserts only batches whose identity is not known; rolled back exactly when it passed something over and the suppression of this range is on record |
| `Awareness.AwarenessConsumer.Compact` | personal_memory/awareness.py:1004-1044 | refused across unread or unfinished work unless forced; forced, it cancels the work it cuts into and flags the consumer |
| `Awareness.AwarenessConsumer.Replay` | personal_memory/awareness.py:1047-1081 | refused ahead of the cursor; otherwise the cursor goes back, and exactly the finished or suppressed batches that reach the given row and start at or before the old cursor are reopened, keeping fence and attempts |
| `Awareness.AwarenessConsumer.StartEpoch` | personal_memory/reset.py:84-95 | a reset cancels what is not finished and starts a new epoch with position and watermark at the newest row, flagged |
| `AwarenessJournal.SkippingRunExactly` | personal_memory/awareness.py:301-416 | over any run, replays and resets included, every owed row is ahead of the scan position, or was read and lies in an unfinished batch that will hand it out, or is settled (passed over on purpose, handed out with a grant that completed, or given up), at every point, exactly when every new entry is numbered ahead of that position and every owed row a sweep keeps is packed under an identity no batch has, or is dealt with already |
| `AwarenessJournal.EverythingScannedIsDealt` | personal_memory/awareness.py:301-304 | under that condition this holds of each owed row at or below the cursor, row by row and not by value |
| `AwarenessJournal.GapsAreFlagged` | personal_memory/awareness.py:1004-1044 | under that condition, whatever owed row a compaction or a reset takes from the consumer before it is settled, the resync flag is up until an administrator's replay |
| `AwarenessRetention.RetainingItemsSkipsNothing` | personal_memory/changes.py:163-170 | while compaction leaves a later row of every item it takes a row of, neither numbers nor identities come back and the condition holds over every run, replays and resets included |
| `AwarenessRetention.RetainingNewestKeepsPace` | personal_memory/reset.py:93-95 | while it leaves the newest entry and nobody replays, resets keep the watermark's pace |
| `AwarenessJournal.OverlookedForGood` | personal_memory/awareness.py:321-324 | an unsettled row at or behind the position that no unfinished batch has stays so: no later sweep, claim or completion reaches it |
| `AwarenessExamples.CompactionHidesArrival` | personal_memory/changes.py:163-170 | a concrete run: after an unforced compaction of the only, finished entry an equal one gets its number and its identity again and is overlooked, with no flag |
| `AwarenessExamples.RecycledIdentityIsSkipped` | personal_memory/awareness.py:372-383 | a concrete run: numbers stay ahead and the newest entry is kept, but an item's only entry is compacted, its next one gets the same identity, and the insert of its batch is ignored |
| `AwarenessJournal.WatermarkIsSafe` | personal_memory/awareness.py:501-513 | for any order of appends, sweeps, claims, deferrals, completions, compactions and resets, under that condition, while resets keep pace and nobody replays: the watermark stays at or behind the cursor and below every unfinished batch, and each owed row at or below it was passed over, or handed out with a grant that completed, or given up and flagged |
| `AwarenessRuns.SteadyStepExactly` | personal_memory/reset.py:93-95 | apart from replays only a reset can disturb a consumer or take its watermark back, and exactly when the newest remaining entry lies below what the watermark or a completed batch covers |
| `AwarenessRuns.WatermarkNeverRecedes` | personal_memory/awareness.py:547-580 | without a replay or such a reset it never moves back |
| `AwarenessReplay.HarmlessReplayStaysSafe` | personal_memory/awareness.py:1047-1081 | after a harmless replay the watermark stays right over every later run, whatever the journal holds |
| `AwarenessReplay.ReplayEndangersExactly` | personal_memory/awareness.py:1047-1081 | the watermark stays right over every later run and every journal exactly when the replay is harmless: the watermark is not ahead of the new position, what is left open starts above it and at most two past the position, what can be claimed ends at most one past the position, and such a batch is held back by a quarantined or outdated one or all that can be claimed lies within the position |
| `AwarenessReplay.ReplayEndangersHereExactly` | personal_memory/awareness.py:1047-1081 | and over the journal as it is, unless a quarantined or outdated batch starts three or more past the new position |
| `AwarenessReplay.CatchingUpRestores` | personal_memory/awareness.py:501-513 | after any replay: once sweeps have reached the position before it, the next accepted completion makes the watermark right, and it stays right |
| `AwarenessReplay.BlockedForGood` | personal_memory/awareness.py:407-413 | when the next scan is full, passes something over and its range is on record, no sweep completes any more and the position never moves, whatever is appended, claimed, completed or deferred |
| `AwarenessExamples.ReplayBlocksSweeps` | personal_memory/awareness.py:407-413 | a concrete run: the replay of an entry that a full scan passed over ends that way |
| `AwarenessExamples.ReplayPassesCursor` | personal_memory/awareness.py:1047-1081 | a concrete run: a replay under a lease leaves the watermark right, and the completion of that lease moves it past the cursor |
| `AwarenessRuns.AcceptedLeaseIsLatest` | personal_memory/awareness.py:485-498 | an accepted completion or deferral carries the newest grant of its batch, all other grants lower fences; replays included |
| `AwarenessAttention.PromptsGoFirst` | personal_memory/awareness.py:459-467 | in every reachable state a digest is granted only while no prompt of a source whose turn it is may run |
| `AwarenessAttention.AcceptedInTime` | personal_memory/awareness.py:485-498 | over any run a completion or deferral is accepted strictly before the end its grant was given, which is that of the batch's last grant |
| `AwarenessAttention.ExpiredMayRun` | personal_memory/awareness.py:236-251 | once that end is reached the batch may run again, unless a hold on its source forbids it |
| `AwarenessAttention.GivenUpAfterAttempts` | personal_memory/awareness.py:583-605 | a deferral quarantines a batch exactly when it was granted as often as the consumer allows |
| `Deliveries.DeliveryQueue.QueueDelivery` | personal_memory/awareness.py:837-879 | refused, for the reason it names, for an unknown, incomplete, foreign or outdated batch and for a consumer without delivery; otherwise one intent per key, held in silent hours unless urgent, and a known key changes nothing |
| `Deliveries.DeliveryQueue.NextDelivery` | personal_memory/awareness.py:882-909 | refused outside its scope; otherwise the oldest queued intent within it becomes attempted, or there is none |
| `Deliveries.DeliveryQueue.ConfirmDelivery` | personal_memory/awareness.py:912-926 | a receipt is accepted exactly for attempted or confirmed intents |
| `Deliveries.DeliveryQueue.RevalidateDelivery` | personal_memory/awareness.py:966-1001 | cancelled exactly when the policy or the evidence no longer allows it, held in silent hours, otherwise unchanged |
| `Deliveries.DeliveryQueue.ReconcileDeliveries` | personal_memory/awareness.py:929-963 | attempts without a receipt become uncertain, expired holds are released or cancelled |
| `Deliveries.QuietIsSilent` | personal_memory/awareness.py:820-834 | the quiet test is the clock's: silent from the window's start until its end comes round, over midnight or not, and all day when they are one |
| `DeliveryRuns.SendsOnlyWhatMayBeSent` | personal_memory/awareness_worker.py:215-239 | over any run a worker sends only what its own check, made since it claimed the intent, found allowed: owner, policy, evidence and silent hours |
| `DeliveryRuns.DispatchRunExactly` | personal_memory/awareness_worker.py:215-239 | over any run the invariant behind this holds at every point exactly when no revalidation from outside holds an attempted intent that was sent or is still carried by a worker |
| `DeliveryRuns.AtMostOnce` | personal_memory/awareness_worker.py:215-239 | over any interleaving of workers, crashes, quiet holds, reconciliation and replays without such a revalidation each key is dispatched at most once |
| `DeliveryRuns.SentNeverQueuedAgain` | personal_memory/awareness.py:929-1001 | nor is it ever queued or held again once dispatched |
| `DeliveryRuns.OutsideRevalidationBreaksExactly` | personal_memory/awareness.py:966-1001 | an outside revalidation breaks this if and only if it holds an attempted intent that was sent or is still carried by a worker |
| `DeliveryRuns.OutsideRevalidationSendsTwice` | personal_memory/awareness.py:966-1001 | a concrete run in which it sends the same key twice |
| `SourceHeads.ItemSync.UpsertItem` | personal_memory/source_sync.py:488-546 | content first, visibility by the head rule, nothing at all when a record is refused |
| `SourceHeads.ItemSync.RemoveItem` | personal_memory/source_sync.py:448-479 | removal of an unknown, removed, older or live item, each as the head rule says |
| `SourceHeads.ItemSync.RestoreItem` | personal_memory/source_sync.py:448-487 | restoration likewise; refused for a head without content |
| `SourceHeads.ItemSync.ApplyOperation` | personal_memory/source_sync.py:439-546 | one page operation equals its specification, with its verdict |
| `SourceHeadProgress.NumberNeverFalls` | personal_memory/source_sync.py:419-437 | over any run of an integer or timestamp stream the head's number or moment never falls while it has one |
| `SourceHeadProgress.NumberIsLostTo` | personal_memory/source_sync.py:419-437 | and it loses it only to an upsert without a version, from a role of its rank |
| `SourceHeadProgress.LargerNumberMoves` | personal_memory/source_sync.py:419-437 | a larger number or moment moves the head to it, a smaller one leaves the head alone |
| `SourceHeadProgress.LiveHeadIsNeverDisplaced` | personal_memory/source_sync.py:419-437 | over any run, with an opaque order or without versions, no backfill with another token displaces what a live role delivered |
| `SourceHeadProgress.LiveRoleDecides` | personal_memory/source_sync.py:419-437 | there a live role decides the head |
| `SourceHeadProgress.BackfillNeverRevives` | personal_memory/source_sync.py:517-524 | the content of a backfill never brings a removed item back |
| `SourceHeadProgress.VerdictIsWhatHappened` | personal_memory/source_sync.py:439-546 | the reported verdict is what happened to the head |
| `SourceHeadProgress.AppliedTakesHead` | personal_memory/source_sync.py:488-546 | an applied upsert makes its last record that was not forgotten the head, and exactly its records that were not forgotten current; any other leaves heads and current records alone |
| `SourceHeadRuns.StepKeepsHeadsExactly` | personal_memory/source_sync.py:439-546 | one action keeps the visibility rule for every item if and only if what it hides spares the due records of every item whose head it does not move |
| `SourceHeadRuns.RunKeepsHeadsExactly` | personal_memory/source_sync.py:439-546 | over a whole run, derived records included, the rule holds at every point exactly when every step spares what is due |
| `SourceHeadRuns.VisibleIsCurrent` | personal_memory/source_sync.py:560-567 | when no record of the namespace is derived from another, after any sequence of operations, roles, versions, forgets and outside retirements the visible revisions of an item are its current records that were not forgotten while it is live, and none otherwise |
| `SourceHeadRuns.RedeliveryHidesDerivedHead` | personal_memory/source_sync.py:543-544 | a concrete run: an old revision delivered again hides the current one derived from it |
| `SourceHeadOrder.LargestVersionWins` | personal_memory/source_sync.py:419-437 | for admitted live deliveries with versions of the stream's integer or timestamp order, distinct and different from the one the item stands at, records with parents included: the largest decides head version and state, and its records are visible except exactly those that later history took along |
| `SourceHeadOrder.OrderDecidesExactly` | personal_memory/source_sync.py:517-546 | two arrivals of the same deliveries end with the same head version and state, and with the same visible records exactly when history took the same of the latest ones in both |
| `SourceHeadPermutations.OrderDoesNotMatter` | personal_memory/source_sync.py:517-546 | when no other revision that a delivery carries leads to a record of the latest one, every admitted order ends with exactly the latest records visible |
| `SourceHeadPermutations.EveryOrderShowsLatestExactly` | personal_memory/source_sync.py:517-546 | for deliveries that are admitted in every order (contents agree, parents are stored beforehand) all orders end that way if and only if nothing else they carry leads to the latest records |
| `SourceHeadPermutations.UnderivedReachNothing` | personal_memory/source_sync.py:543-544 | the condition holds for a namespace in which no record is derived from another |
| `SourceHeadPermutations.TwoOrdersEndDifferently` | personal_memory/source_sync.py:543-544 | a concrete pair of runs: the same deliveries in two orders end with the current revision visible and with nothing visible |
| `SourceCommits.StreamSync.Claim` | personal_memory/source_sync.py:243-277 | refused on an inactive connection and while another owner's lease runs; a running lease of the same owner is renewed under its fence, any other claim raises it; the lease ends after the given time |
| `SourceCommits.StreamSync.Release` | personal_memory/source_sync.py:279-289 | only the holder with the current fence releases |
| `SourceCommits.StreamSync.CommitPage` | personal_memory/source_sync.py:321-404 | the checks in their order, the end of the lease among them; a committed page moves records, receipt, cursor and version together, everything else moves nothing |
| `SourceCommits.StreamSync.RestartStream` | personal_memory/source_sync.py:303-317 | progress resets under a new version and without a lease |
| `SourceCommits.StreamSync.Configure` | personal_memory/source_sync.py:111-148 | a new generation, no leases, and a rescan of every stream when the scope changed |
| `SourceCommits.StreamSync.Pause` | personal_memory/source_sync.py:196-206 | pausing fences: a new generation and no leases |
| `SourceCommits.StreamSync.Disconnect` | personal_memory/source_sync.py:212-225 | disconnecting likewise |
| `SourceCommits.StreamSync.StartEpoch` | personal_memory/reset.py:73-84 | a memory reset pauses, fences and forgets the receipts of the old epoch |
| `SourceCommitRuns.CommitIsFenced` | personal_memory/source_sync.py:343-355 | a lease that is answered carries the highest fence of its stream, all copies with that fence have one owner, and a committed page was read from the stream's own cursor |
| `SourceCommitRuns.AppliedAtMostOnce` | personal_memory/source_sync.py:354-360 | within one epoch no operation is applied twice |
| `SourceCommitRuns.ReplayReturnsFirstOutcome` | personal_memory/source_sync.py:354-360 | a committed operation is answered with the outcome of its one application, or as a conflict, and changes nothing |
| `SourceCommitRuns.StreamIsItsHistory` | personal_memory/source_sync.py:388-404 | version and cursor are exactly what complete commits and rescans say: each adds one, the cursor is the last complete page's next state |
| `SourceCommitLeases.AnsweredInTime` | personal_memory/source_sync.py:343-347 | over any run a page is committed or answered strictly before the last grant or renewal of its lease ends |
| `SourceCommitLeases.OverIsNotHeld` | personal_memory/source_sync.py:343-347 | from that instant on every page under the lease is refused as not held, at every later point of every run |
| `SourceCommitLeases.GoneWorkerIsReplaced` | personal_memory/source_sync.py:256-277 | once the time of every other owner's lease on the stream is over, a claim on an active connection is granted with a fence above all of theirs |
| `SourceCommitLeases.RefusedForRunningLease` | personal_memory/source_sync.py:256-277 | a claim is refused only for somebody else's lease that is the stream's newest and still runs |
| `SourceCommitLeases.TakenOutForGood` | personal_memory/source_sync.py:196-225 | a lease taken out by a release, rescan, pause, disconnection, reconfiguration or reset never commits or answers again |
| `SourceCommitLeases.OutcomeIsItsVerdicts` | personal_memory/source_sync.py:362-387 | the outcome of a page has one verdict for each operation, on what the operations before it left |
| `SourceCommitLeases.ArchiveIsItsPages` | personal_memory/source_sync.py:321-404 | over any run the archive is exactly what the operations of the committed pages make of it in the order they landed: all of a page or nothing, nothing twice, nothing under a lost lease |
| `Cascade.Archive.Retire` | personal_memory/lifecycle.py:46-77 | retiring record by record takes exactly what rests on the descendants, table by table, and nothing else; a replacement spares its own descendants |
| `Cascade.Archive.Forget` | personal_memory/store.py:504-540 | likewise for forgetting, with claims retracted and their wording erased |
| `Cascade.Archive.MakeClaim` | personal_memory/store.py:374-421 | only on live evidence, superseding only an active claim about the same topic, which stops being current; a repeated request changes nothing |
| `Cascade.Archive.Learn` | personal_memory/learning.py:49-118 | the checks of outcomes, lessons and evaluations, only from available parents and live evidence, resting on all of it; a known key is answered from what is stored |
| `Cascade.Archive.Promote` | personal_memory/learning.py:120-144 | refused unless another actor promotes a pending lesson on a passing evaluation of its content in place of the expected active one; the promoted lesson also rests on its evaluation; a repeated request changes nothing |
| `Cascade.Archive.Resolve` | personal_memory/intelligence.py:99-109 | superseded only in favour of another belief that still stands |
| `Cascade.Archive.Attend` | personal_memory/intelligence.py:201-218 | further evidence must be live |
| `Cascade.Archive.Withdraw` | personal_memory/learning.py:146-152 | a lesson is withdrawn with everything derived from it |
| `Cascade.Archive.Repair` | personal_memory/lifecycle.py:114-166 | the pass, seed by seed and record by record, equals its closed form; a current claim on a forgotten record is retracted, one on a hidden record retired with its wording |
| `CascadeRuns.NoStaleConclusions` | personal_memory/lifecycle.py:46-77 | in every reachable archive every active claim, open link, current curated entry, stored citation and living lesson rests only on live visible evidence, and no living lesson on a dead one |
| `CascadeRuns.NothingIsRevived` | personal_memory/source_sync.py:478-486 | over any run, un-hiding included, nothing that lost its standing regains it |
| `CascadeRuns.CorrectedIsNeverCurrent` | personal_memory/store.py:374-421 | in every reachable archive a claim that a stored claim corrects is not current, is about the same topic, and is corrected by no other |
| `CascadeRuns.CorrectionsAreALine` | personal_memory/store.py:374-421 | the corrections of a claim form one line, and nothing but its end is current |
| `CascadeRuns.LessonsAreEarned` | personal_memory/learning.py:120-144 | in every reachable archive a family has at most one active lesson and no two lessons that count claim one revision; every lesson that is or was active was promoted by another actor than proposed it, over a lesson of an earlier revision, on a passing evaluation of exactly its content against that lesson, asserted by another actor than its proposer; lessons are drawn from outcomes alone |
| `CascadeRuns.DeletedStaysClosed` | personal_memory/store.py:170-179 | deleted records are closed under dependents in every reachable archive |
| `CascadeRuns.RepairEstablishes` | personal_memory/lifecycle.py:114-166 | from any archive the pass leaves claims, links, entries and open lessons on live evidence |
| `CascadeRuns.RepairIsIdempotent` | personal_memory/lifecycle.py:80-89 | a second pass finds nothing to do |
| `CascadeRuns.RepairSparesSound` | personal_memory/lifecycle.py:114-166 | an archive with nothing left over is not changed by the pass |
| `CascadeRuns.RepairMissesExactly` | personal_memory/lifecycle.py:147-155 | exactly which archives it leaves with a living lesson on retired evidence |
| `CascadeRuns.RepairLeavesReplacedLesson` | personal_memory/lifecycle.py:147-155 | a concrete archive it leaves that way |
| `Hindsight.Adapter.PerformClear` | personal_memory/hindsight.py:62-79 | the obligation outlives every failure, and tracking is dropped only after confirmation |
| `Hindsight.Adapter.EraseAll` | personal_memory/hindsight.py:101-114 | without a reported failure none of the gone records is tracked any more |
| `Hindsight.Adapter.Select` | personal_memory/hindsight.py:89-100 | the oldest live records that are neither stored nor delayed, in order; one is left out only for a full batch of older ones |
| `Hindsight.Adapter.RetainBatch` | personal_memory/hindsight.py:138-169 | journaled before it is sent; nothing arrives untracked, however much of it arrives; what is not confirmed stays pending, and success means everything was confirmed |
| `Hindsight.Adapter.IndexPass` | personal_memory/hindsight.py:89-169 | no untracked copy on any path; without a reported failure nothing that was gone at the start is left remotely, and of what was selected exactly what was still live, in the same epoch, is stored |
| `HindsightRuns.NothingIsOrphaned` | personal_memory/hindsight.py:62-203 | at every point of every run, crashes included, what the engine may hold is tracked; no pending deletion means it holds live visible records only |
| `HindsightRuns.ClearStaysOwed` | personal_memory/hindsight.py:81-88 | an owed bank clear stays owed, with all tracking, until its confirmation is stored |
| `Ownership.Hybrid.Close` | personal_memory/retrieval.py:228-278 | amid any steps of other threads: a clean close has released the lease with no initializer and no index thread left, and the lease is kept, or the close left incomplete, exactly when an initializer outlasted the budget or a thread was still alive when it looked |
| `Ownership.Hybrid.StartWarmup` | personal_memory/retrieval.py:280-298 | a tracked thread is returned exactly when the service was running at the check, and is started for it exactly when no live one was found |
| `Ownership.Hybrid.EnsureSemantic` | personal_memory/retrieval.py:179-226 | a load begins only while running, and what it finds when it lands decides: published with its index thread only into a running service, otherwise no trace but the recorded failure |
| `OwnershipRuns.StepIsRelied` | personal_memory/retrieval.py:163-226 | every step of one thread is one the others can rely on: closing is for good and nothing starts afterwards |
| `OwnershipRuns.LeaseIsHandedOverClean` | personal_memory/retrieval.py:228-278 | once the lease is released, then and ever after no initializer is in progress, every index thread has stopped and no further one starts |
| `OwnershipRuns.ClosedMeansStopped` | personal_memory/retrieval.py:271-278 | a service that reports closed has given up the lease and stopped its writers |
| `OwnershipRuns.LaterCloseReleases` | personal_memory/retrieval.py:257-267 | ownership retained by an incomplete close is released by a later one |
| `OwnershipRuns.ClosedStaysColdExactly` | personal_memory/retrieval.py:280-298 | once closed, no warm-up thread is alive then or ever after if and only if none was alive, admitted or about to start |
| `OwnershipRuns.CloseLeavesColdExactly` | personal_memory/retrieval.py:228-278 | at the start of a close: every way it can end leaves no warm-up thread behind if and only if that holds there |
| `OwnershipRuns.PatientCloseReaps` | personal_memory/retrieval.py:258-261 | when the bounded wait is never cut short, a close that starts with nothing but the tracked thread leaves none behind |
| `OwnershipRuns.SlowWarmupSurvivesClose` | personal_memory/retrieval.py:258-261 | a concrete kind of run: a warm-up that outlasts the grace survives a clean close, after which no close does anything |
| `OwnershipRuns.WarmupStartsAfterClose` | personal_memory/retrieval.py:280-298 | a concrete kind of run: a warm-up thread starts after the whole shutdown |
| `Diffusion.Expand` | personal_memory/retrieval.py:423-438 | expanding only the last frontier visits exactly what lies within the hop bound over permitted records |
| `DiffusionPaths.ReachIsPaths` | personal_memory/retrieval.py:423-438 | visited is exactly what a path of at most so many links over permitted records reaches from a seed, and the entities read are those of records within one link less |
| `DiffusionPaths.PersonalIsProportional` | personal_memory/retrieval.py:442-443 | positive seeds share the whole mass in the ratio of their scores, the others have none |
| `DiffusionPaths.FlowsExactlyAlongLinks` | personal_memory/retrieval.py:446-470 | a hop leaves every record its share of the teleport, and more exactly when a record with mass shares an entity with it |
| `Totals.Scatter` | personal_memory/retrieval.py:447-468 | every receiver gets exactly the sum of its equal shares |
| `Totals.ReceivedIsPassed` | personal_memory/retrieval.py:447-468 | conservation: what is received is exactly what was passed on |
| `Diffusion.DiffusionIsBounded` | personal_memory/retrieval.py:444-470 | with damping between zero and one no mass is negative after any hop, the total lies between one minus the damping and one, and what reached records other than the seeds is at most the damping |
| `Diffusion.ReachIsUnique` | personal_memory/retrieval.py:423-438 | the neighbourhood is determined by graph, seeds, bound and permission |
| `Diffusion.DiffusionIsUnique` | personal_memory/retrieval.py:444-470 | graph, seeds and damping determine every mass |
| `Propagation.Hop` | personal_memory/retrieval.py:446-470 | the two loops and the teleport are that hop |
| `Propagation.Propagate` | personal_memory/retrieval.py:388-489 | the leads are exactly the permitted non-seed records with enough mass after the hops, ranked by score and then by record, each with the first entity and seed that explain it when there is one |
| `Propagation.LeadsCarryTheMass` | personal_memory/retrieval.py:472-489 | whatever neighbourhood and masses meet the description, the leads are their records outside the seeds above the threshold, with those masses |
| `Propagation.AnswerIsUnique` | personal_memory/retrieval.py:388-489 | graph, seeds, permission and settings determine the answer, its order and its explanations included |
| `Propagation.DampingDecides` | personal_memory/retrieval.py:444-470 | the dampings that keep every walk's masses bounded are exactly those between zero and one |
| `Propagation.ConfiguredDampingDecides` | personal_memory/retrieval.py:379-386 | a configured number keeps every walk's masses bounded exactly when it lies between zero and one by itself: it is not clamped |
| `Curated.Match` | personal_memory/curated.py:96-102 | the first entry containing the text, or none exactly when there is none |
| `Curated.CuratedMemory.Rewrite` | personal_memory/curated.py:155-175 | the lists an edit goes through: each operation replaces or removes the first of its matches, which are all one text, or adds a line unless it is there, and every other line stays as and where it is; it ends with the first refusal, which is for dead evidence, no match or differing matches |
| `Curated.CuratedMemory.Apply` | personal_memory/curated.py:134-211 | an answered request gets its answer; a fresh edit is accepted only in its epoch, on the expected version, on live evidence and within the budget; each refusal names what was wrong and changes nothing |
| `Curated.CuratedMemory.Reset` | personal_memory/curated.py:214-248 | all targets empty together, each one version later, only in the right epoch and from the expected versions, or none |
| `Curated.CuratedMemory.Invalidate` | personal_memory/curated.py:251-266 | exactly the current entries that cite the record end, in a version of their own, and a shelf without one is untouched |
| `CuratedRuns.EditPublishesFold` | personal_memory/curated.py:155-211 | an accepted edit publishes exactly the folded list, one version later, within the budget, changing no past version |
| `CuratedRuns.PastNeverChanges` | personal_memory/curated.py:68-78 | the entries as of any existing version never change, texts and evidence included |
| `CuratedRuns.NewestIsListed` | personal_memory/curated.py:68-78 | the newest version is what is listed, each entry once, never above the target's limit |
| `CuratedRuns.ReplayReturnsFirstAnswer` | personal_memory/curated.py:144-149 | an answered request, edit or reset, gets its first answer again at any later time and changes nothing |
| `CuratedRuns.ReuseIsRefused` | personal_memory/curated.py:226-229 | and its name is refused for any other well-formed input |
| `Lineage.Ledger.CompactParents` | personal_memory/lineage.py:82-109 | at most a hundred roots, every group at most a hundred parents, and opening the layers gives the exposures exactly; a refused group refuses the capture |
| `Lineage.Ledger.GroupLayer` | personal_memory/lineage.py:94-108 | one layer of groups in order, strictly shorter than what it groups; none only when the archive refuses a group, which was forgotten or has a parent that is not live |
| `Lineage.EveryLeafReachesRoot` | personal_memory/lineage.py:82-109 | every exposed record is an ancestor of some root |
| `Lineage.ForgettingReachesCapture` | personal_memory/store.py:504-540 | over any run of the archive, groups, other records and forgetting before and after: once a record the session was exposed to is forgotten, the capture stored with the compacted roots is forgotten |
| `Lineage.Ledger.Bind` | personal_memory/lineage.py:64-70 | the first parents recorded for a capture stay its parents |
| `Lineage.Ledger.StoreCapture` | personal_memory/lineage.py:64-109 | a stored capture descends from everything its session had been exposed to when its parents were bound, amid any writes of others in between |

## Left out

- The in-memory row map and the accelerator of the index: agreement is proved for the durable tables. A record hidden while the index is constructed and restored before its retirement is taken is not published again in memory, because distribution skips completed records.
- Two indexing passes at once: the pass lock and the process lease are taken as given, and the not-live branch, which erases obligations without looking at their revision, relies on them.
- Embedding, chunk boundaries and vector arithmetic: a chunk is its model, record and start, and embedding succeeds or fails.
- Failure details, readiness rows, audit entries and the receipts of processing, deferral and exposure: reporting only, each replaced when it is written again. The receipt of a suppression is modelled, because writing it twice is an error.
- The transition descriptions of a page and the classification of novelty: a journal event is appended by any caller, with the number and the version that the journal gives it.
- Group keys of conversations: modelled as distinct values, not as concatenated strings that could collide.
- Packet building, analysis calls, proposals and exposure in the awareness worker: the worker is any caller of claim, complete and defer, and stored analyses appear in the cascade only.
- Several consumers under one compaction: each run follows one consumer; the check against the least cursor of all appears as the check against its own, which refuses less.
- The digest that keys a delivery: the key is its separate fields.
- Archive retention: the visibility rule is stated for mirror connections; the operations model both.
- Attachment and projection jobs, coverage rows, event inbox and quarantine entries of a page: part of the digested page, without effect in the model.
- One connection at a time: receipts of other connections are not modelled; their operation names are assumed different.
- Durable deletion journal: tombstones are the deleted records and the blocked items; recovery of that journal at opening is not modelled.
- Beliefs, tasks, measurements and domains: one kind of artifact stands for all of them, with resolution and further evidence; what they say, their intervals and their events are not modelled.
- A claim's subject, predicate and object: one topic stands for subject and predicate.
- The row numbers by which Hindsight orders records: records are numbered in the order they were ingested.
- Identity intervals and their conflicts: a link is its evidence and its status.
- CascadeRuns.RepairEstablishes: stored analyses are not part of the repair pass, so it says nothing about citations.
- SourceHeadPermutations.EveryOrderShowsLatestExactly: deliveries whose parents arrive among the deliveries themselves are refused in some orders, so the equivalence over all orders is for parents stored beforehand; LargestVersionWins and OrderDecidesExactly cover every admitted order without that.
- Repeated versions, missing versions and the opaque order: the results about arrival order leave them out, as the source then falls back to roles; SourceHeadProgress says what holds for them, and the run results cover them. Parsing a version into its number or moment is an input.
- Late effects of remote requests that were already answered with an error, and the engine's own contents from before the tracking existed.
- Ownership.Hybrid.EnsureSemantic: the initialization lock is implicit, one construction at a time; the runs model it.
- Index threads and model loads that never end: a thread stops at any time or not at all, and waiting ends by its budget.
- Diffusion.Expand: the database's choice among more links than the degree caps allow is an input.
- Floating point: masses are exact reals, and the threshold for a lead is compared exactly.
- The table of curated revisions, positions as numbers, and stripping or bounding of texts and evidence lists: entries are kept in listing order and inputs arrive normalised.
- Lineage.Ledger.StoreCapture: sessions blocked for untracked exposure are refused before it and are not modelled.
- SQL, schema migration, full-text search, authentication, importers, HTTP, command line, backup and secrets.
