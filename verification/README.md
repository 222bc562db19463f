# Verified model of the audit storage and deferred replay core

This project models, in Dafny, the parts of the daemon that are hardest to get right, and proves what they are for.

* **Audit catalog** (`internal/auditstorage`): pruning by age and size with bounded memory (`Pruning`, `PrunePlanning`,
  `PruningPasses`), the crash-safe reset (`CatalogReset`), segment numbering and completion (`SegmentNames`, `Segments`,
  `SegmentReissue`), the paged query merge (`QueryMerge`), the external merge sort of blocked cleanup paths (`CleanupSort`) and
  the expiry instant (`Expiry`).
* **Deferred replay scheduler** (`internal/daemon`): the protocol as a state machine (`ReplayModel`), its dispatch accounting
  (`ReplayAccounting`), the proof that no pending receipt is forgotten (`ReplayCoverage`, `ReplayShape`, `ReplaySafety`) and its
  observable conditions (`ReplayDiscipline`, `ReplayRetention`), that deadlines are not passed over (`ReplayClock`) and nobody is
  stuck (`ReplayProgress`), the runs in which one is forgotten (`ReplayFindings`,
  `ReplayLateSubmit`, `ReplayRetention`), the queue as the daemon runs it (`ReplayQueue`), the registry of shared file handles
  (`FileOwners`) and the sessions that cache a borrow (`RecoverySessions`).
* **Audit logger** (`internal/audit`): the deduplication cache as a heap structure (`DedupCache`) against a simple timestamped LRU
  (`DedupSpec`), and the queue with its batching worker (`AuditQueue`).
* **Configuration rewriter** (`internal/config`): the line scanner for multi-line strings (`TomlLines`), where it leaves the
  standard (`TomlStrings`), the recognition of header lines (`TomlHeader`), the table rewrite (`TomlTable`) and the block that is
  written (`TomlUpdate`).

`Sorting`, `TextOrder` and `Basics` hold the sorting function, the text order and the optional values that the specifications refer to.

Code that changes things in place is modelled by classes and methods with loops; each such method is tied by its contract to a
function or a property of the old state. Protocols are modelled as steps, one per critical section or durable operation, and the
theorems speak of every state of every run. Crashes are a budget of durable operations that runs out at any point.

## What the proofs found

* *A pending receipt can be forgotten after the clock steps back.* When a recovery pass reaches the end of a file and the next
  future receipt is in flight, `recoverPage` sets no deadline, relying on the end of that dispatch. A claim does not clear
  `next_attempt_at`, so after a step back the receipt in flight can look like a future one and then complete; a second future
  receipt of the file is left with nothing that brings it back. `ReplayFindings.ClockStepBackForgetsAReceipt` is such a run.
  `ReplayFindings.FileEndIsFirmExactly` says exactly when that branch is safe whatever outstanding attempts do, and
  `ReplaySafety.NoReceiptIsForgotten` holds for all runs in which no attempt completes a receipt that a pass read as the file's
  first future one. `ReplayDiscipline.ForwardRunsForgetNothing` derives that from what an observer can check: pass instants and
  retries move forward in time, an attempt that scheduled a retry does not complete, and receipts are dispatched only when due.
* *The same happens without a step back when a submit comes late.* A recovery pass can find a committed receipt before its hook
  submits it; if that attempt schedules a retry and ends before the submit, the receipt goes into flight although it is not due, a
  pass takes it for the next future one, and its completion leaves the file's other future receipts behind
  (`ReplayLateSubmit.LateSubmitForgetsAReceipt`). The run meets every other condition above, so that condition is needed.
* *A file judged unretained is not rescanned when it is retained again.* `Retains` is two-sided: it fails after a file's end and
  before its start. Workers, listings and cancellations judge it at their own clock readings and give receipts up without a mark.
  Three families of runs leave a pending receipt of a retained file covered by nothing. In
  `ReplayRetention.UnseenReadingForgetsAReceipt` a worker's reading lies outside the window, past the end or before the start,
  while the scheduler's readings stay inside and never step back. In `ReplayRetention.ReachedStartForgetsAReceipt` the clock, as
  the scheduler itself reads it, is before the start and then reaches it (a rotation heals this, so it takes a reconciliation that
  fails or comes late). In `ReplayRetention.LongerRetentionForgetsAReceipt` a reload lengthens retention.
  `ReplayRetention.JudgementStandsExactly` says when a judgement stands: until a rescan of the file is ordered, by a step back
  that the scheduler sees, a noted rotation, a reset, a due deadline, an end of exclusion or a mark.
  `ReplayRetention.RetainedIsCovered` covers every retained file whose judgements were followed by such an order or were made
  with the scheduler's last reading past the file's end; `ReplayRetention.GivingUpIsExact` is the exact condition of one give-up.
* *An interrupted first initialization can lose track of a family.* `EnsureCurrent` without a saved state publishes the database
  before it saves the state; a crash between the two followed by a start with another base path leaves files that no state
  mentions (`CatalogReset.InterruptedFirstUseLosesAFamily`); a reset from no state does the same. `CatalogReset.FirstUseIsExact`
  and `CatalogReset.EveryFamilyStaysRecorded` give the exact condition.
* *A finalized path can be issued again.* After a crash between publishing and saving, the orphan segment can be finalized and
  pruned, and its number is then issued again (`SegmentReissue.FinalizedPathIsReissued`). An identity that is not current can be
  issued again exactly when its number is beyond the recorded sequence (`SegmentReissue.ReissuedExactly`). The new file is a
  different one, so the completion theorems hold of files, not of paths.
* *The order of unrecognized files differs between the two pruning passes* (by identity only, or by identity and path); it makes
  no difference to the outcome (`Pruning.FullPruneIgnoresTieOrder`).
* *A closing run of four quotes misleads the line scanner.* TOML v1.0.0 (section "String") lets a multi-line string end with up to
  two quotes of its own; the scanner closes at the first three and takes a fourth for the start of another string, so a later line
  can be taken for text (`TomlStrings.FourQuotesMislead`). `TomlStrings.AlikeExactly` says exactly where the two part, and
  `TomlStrings.ScannerMeetsStandard` when a line ends alike all the same.

## Model

| member | source | states |
|---|---|---|
| Pruning.BoundedPruneRefinesFullPrune | internal/auditstorage/prune_batch.go:110-165 | for every family, policy, lock state and at most 100 targets, pruning only the 102 oldest files plus the targets removes, defers and fails exactly as pruning the whole family |
| Pruning.PrefixBlocks | internal/auditstorage/traversal.go:14-18 | once more than 102 files are looked at, the oldest 102 contain one that blocks size pruning while the family is over its limit |
| Pruning.UnchosenFile | internal/auditstorage/traversal.go:14-18 | pigeonhole: among 102 files of a family at most 100 are targets and one is current, so one is neither |
| Pruning.SizePruneIsOldestFirst | internal/auditstorage/prune.go:89-124 | a retained file is deleted only while the total exceeds the limit and only after every older file except the current one was deleted |
| Pruning.FoldTotal | internal/auditstorage/prune.go:89-124 | the running total falls by exactly the bytes of the files deleted |
| Pruning.SizePruneIsEffective | internal/auditstorage/prune.go:89-124 | with everything selected and nothing locked the total ends within the limit or only the current file is left, and every expired file is gone |
| Pruning.FullPruneIgnoresTieOrder | internal/auditstorage/prune.go:46-78 | any two orders of files with no identity give the same outcome |
| Pruning.FoldIsCareful | internal/auditstorage/prune.go:89-124 | every pass acts on chosen files only, never on a locked one and never on the retained current one; every chosen file that is not retained goes or is deferred; a retained one goes only while what is left is over the limit, and over files in age order only with every file of smaller identity, the retained current one excepted |
| Pruning.StoppedByFile | internal/auditstorage/prune.go:89-124 | a retained file that could go but stays while the family ends over its limit stands behind one that could not go |
| TextOrder.LessIsFirstDifference | internal/auditstorage/traversal.go:160-167 | identities and paths compare by their first difference, a text coming after its own beginnings |
| PrunePlanning.PlanAndExecutionAgree | internal/auditstorage/prune_batch.go:19-73 | executing a plan deletes exactly its unlocked targets and defers exactly its locked ones, in plan order |
| PrunePlanning.BatchMakesProgress | internal/auditstorage/prune_batch.go:19-73 | whenever an unlocked expired file exists, executing the plan deletes something |
| PrunePlanning.RoundsClearExpired | internal/auditstorage/prune_batch.go:100-165 | as many rounds of planning and executing as there are files delete every unlocked expired file |
| PrunePlanning.TakeIsOldest | internal/auditstorage/traversal.go:143-167 | the first files of the sorted listing have no identity greater than any file left out, unrecognized files first and ties by path |
| PrunePlanning.TargetsArePlanned | internal/auditstorage/prune_batch.go:19-73 | a plan has at most 100 visited files, never the retained current one; a retained file only while the family would be over its limit and with every older file, none of them locked; of the locked files that are not retained the oldest and no other, and every unlocked one that is not retained, unless the batch is full |
| PrunePlanning.MergedIsRestrict | internal/auditstorage/traversal.go:152-158 | merging, sorting and compacting two selections of a family lists exactly their union in family order |
| PruningPasses.LowerBound | internal/auditstorage/traversal.go:143-150 | binary search returns the position that splits smaller from not smaller files |
| PruningPasses.InsertMaintenanceFile | internal/auditstorage/traversal.go:143-150 | the result is the first `limit` files of the insertion |
| PruningPasses.KeepSmallest | internal/auditstorage/traversal.go:143-150 | inserting with truncation keeps the k smallest of everything seen |
| PruningPasses.VisitFile | internal/auditstorage/traversal.go:110-141 | one visited file turns the survey of the files seen into the survey of one more |
| PruningPasses.PruningInventory | internal/auditstorage/traversal.go:110-141 | one pass in any visiting order yields the 102 files of smallest identity, the 100 smallest unlocked ones and the smallest locked one that are not retained, and the exact total |
| PruningPasses.PlanLoop | internal/auditstorage/prune_batch.go:19-73 | the planning loop with its early stop computes the plan of all files |
| PruningPasses.PruneBatchCandidates | internal/auditstorage/prune_batch.go:19-73 | returns the targets of the plan for the files visited, which is as `Planned` describes it in terms of identities, age and locks |
| PruningPasses.FindTarget | internal/auditstorage/prune_batch.go:167-189 | true exactly for a file that a target names with the same identity |
| PruningPasses.SameTargetMeaning | internal/auditstorage/prune_batch.go:167-189 | a chosen file has the identity of a target of its name, and one that has it under all of them is chosen |
| PruningPasses.SelectExisting | internal/auditstorage/prune_batch.go:119-129 | keeps exactly the targets that still have bytes on disk |
| PruningPasses.Directory.RemoveBucket | internal/auditstorage/catalog.go:626-673 | deletes the file unless it is locked or the removal fails, and changes nothing else |
| PruningPasses.Directory.PruneMeasuredFiles | internal/auditstorage/prune.go:89-124 | the loop's result and its effect on the directory are those of the pruning fold: careful, and oldest first for files in age order |
| PruningPasses.Directory.DeleteTargets | internal/auditstorage/prune_batch.go:132-165 | the bounded loop's result and effect are those of the prune specification over the files listed |
| PruningPasses.Directory.PruneBatchFiles | internal/auditstorage/prune_batch.go:110-165 | what is removed, deferred and left in the directory is what pruning the whole family would remove, defer and leave: only visited targets of unchanged identity, never a locked one or the retained current one, all that are not retained, retained ones only while over the limit and smallest identity first |
| PruningPasses.BatchListing | internal/auditstorage/prune_batch.go:110-131 | pruning the merged listing of the oldest files and the selected targets has the outcome of pruning the whole sorted family |
| CatalogReset.Storage.RemoveBucket | internal/auditstorage/catalog.go:626-673 | refused without effect exactly when a handle is open; otherwise the database and its sidecars go in order, one durable step each, until all are gone or the steps run out |
| CatalogReset.RemoveMeaning | internal/auditstorage/catalog.go:626-673 | a finished removal leaves exactly the files of other databases; files of databases in use stay |
| CatalogReset.RemoveExactly | internal/auditstorage/catalog.go:626-673 | the specification of a removal does exactly that: what goes, in which order, what it costs, and when it is refused or cut short |
| CatalogReset.RemoveAllMeaning | internal/auditstorage/catalog.go:503-520 | removing several databases keeps all others and those in use, is refused only for one in use, and costs one step per file |
| CatalogReset.Storage.CleanStaging | internal/auditstorage/catalog.go:503-520 | removes leftover staging databases in order, exactly as far as the budget allows |
| CatalogReset.Storage.DeleteFamily | internal/auditstorage/catalog.go:565-589 | repeats directory passes until none of the family is left; other families are untouched |
| CatalogReset.Storage.DeletePending | internal/auditstorage/catalog.go:565-589 | only files of pending families go, those of databases in use stay, it is refused only for one in use, and when it finishes no file of any pending family is left |
| CatalogReset.Storage.Initialize | internal/auditstorage/catalog.go:205-271 | keeps an existing database or publishes a new one through staging, exactly as far as the budget allows |
| CatalogReset.PublishMeaning | internal/auditstorage/catalog.go:205-271 | a database that exists stays as it is, a new one appears whole under its own name, a crash leaves at most its staging file, and it is refused exactly for a database in use |
| CatalogReset.Storage.Reset | internal/auditstorage/catalog.go:273-308 | for every crash point: without a step nothing changes; otherwise a pending record with the new base and interval names exactly the doomed families, and files of databases in use and of other families stay; it finishes only when no doomed database is in use and then leaves exactly the other families and the new bucket under the new record; it is refused only for a database in use |
| CatalogReset.Storage.EnsureCurrent | internal/auditstorage/catalog.go:169-203 | the disk and the answer are exactly those of the specification for every budget of durable steps |
| CatalogReset.EnsuringMeaning | internal/auditstorage/catalog.go:169-203 | refusals are exactly for a pending reset and another policy and change nothing; other families and databases in use are untouched; the record is saved last, exactly when there was none or selection changed it |
| CatalogReset.EnsuringDisk | internal/auditstorage/catalog.go:169-203 | only staging files go and only the bucket or its staging file appears; a finished call leaves the bucket and no leftover staging database; it is refused only for a database in use; and with the bucket there it has nothing to do |
| CatalogReset.PreservedMembers | internal/auditstorage/state_stream.go:207-224 | the rewritten pending array holds exactly the old entries and the additions |
| CatalogReset.PreservedOrder | internal/auditstorage/state_stream.go:207-224 | the additions come last in their order, and every family is named as often as before |
| CatalogReset.EveryFamilyStaysRecorded | internal/auditstorage/catalog.go:273-308 | in every history of interrupted calls the record names every family on disk from its creation on, if and only if the call that created it found no other family |
| CatalogReset.TrackedKept | internal/auditstorage/state_stream.go:182-224 | no call, interrupted anywhere, makes a record lose a family |
| CatalogReset.PendingUntilFinished | internal/auditstorage/catalog.go:122-137 | once a reset is pending every open, read and initialization is refused and no pending family is dropped until a reset finishes |
| CatalogReset.FinishedResetLeavesOnlyTheNewBucket | internal/auditstorage/catalog.go:273-308 | a finished reset leaves exactly the new database if and only if every family on disk was doomed, which a record that accounts for the disk guarantees |
| CatalogReset.InterruptedFirstUseLosesAFamily | internal/auditstorage/catalog.go:169-203 | two calls of the method, the first interrupted before its save, after which a family is on no record |
| CatalogReset.FirstUseIsExact | internal/auditstorage/catalog.go:169-203 | whichever call creates the record, the record accounts for the disk if and only if no file of another family was there |
| Segments.SelectCurrent | internal/auditstorage/segments.go:42-80 | with a record, the recorded bucket is selected exactly when it is the newest listed file of the window and usable; otherwise the number after everything listed or recorded, or failure at the largest number |
| Segments.SelectsExactly | internal/auditstorage/segments.go:28-80 | the selection in every case, with and without a record, from the newest file of the window, its size, completion and the numbers seen |
| Segments.SteadyStateIsKept | internal/auditstorage/catalog.go:169-203 | selecting the recorded bucket again changes no file and not the record |
| Segments.EnsureExactly | internal/auditstorage/catalog.go:169-271 | a call leaves the selected file, new and empty if there was none, the record unless cut short before, and its answer |
| Segments.SelectIsFresh | internal/auditstorage/segments.go:42-80 | the selection is the saved current segment or a segment never returned before with a larger number, and never a completed file |
| SegmentNames.PaddedOrder | internal/auditstorage/segments.go:82-85 | zero-padded numbers compare as text exactly as they do as numbers |
| SegmentNames.IdOrder | internal/auditstorage/segments.go:46-50 | within a window the larger identity as text is the larger segment number, the unsuffixed first file included |
| SegmentNames.IdExactly | internal/auditstorage/segments.go:76-85 | an identity is its window, or its window, a dash and the number in twenty decimal digits |
| Segments.RetiredNeverCurrentAgain | internal/auditstorage/catalog.go:169-203 | in every run, with any clock, pruning and crash, a bucket that was moved off is never returned again and new numbers exceed all earlier ones |
| Segments.MovedOffForGood | internal/auditstorage/catalog.go:169-203 | a bucket that the record has moved off, by a call that returned or crashed after saving, is never selected or current again |
| Segments.OpenedIsIncomplete | internal/auditstorage/catalog.go:343-373 | whatever a step opens for writing is not completed |
| Segments.CompletedStaysClosed | internal/auditstorage/completion.go:43-112 | in every run a finalized file is never opened for writing again, never current, and has no writer |
| Segments.FinalizeExactly | internal/auditstorage/completion.go:43-112 | each answer of finalization has its exact cause, and only the last changes anything |
| Segments.HandlesMove | internal/auditstorage/catalog.go:343-440 | which files can be opened to read or write, pruned or grown, and what that changes |
| Segments.CompletionIsGuarded | internal/auditstorage/completion.go:43-112 | in every run a file turns complete exactly when it is finalized while recorded as not current, held by no reader or writer and free of pending receipts |
| Segments.EveryCompletionIsGuarded | internal/auditstorage/completion.go:43-112 | every complete file of every run has a moment at which it was completed under those guards, and has been the same complete file since |
| SegmentReissue.ReissuedExactly | internal/auditstorage/segments.go:42-80 | in every reachable state an identity that is not current can be issued by some continuation if and only if its number is beyond the recorded sequence |
| SegmentReissue.CompletedReissuedExactly | internal/auditstorage/completion.go:43-112 | the same for the path of a completed file |
| SegmentReissue.FinalizedPathIsReissued | internal/auditstorage/segments.go:42-80 | a reachable state with a finalized orphan whose path is issued again for a new file once it is pruned |
| QueryMerge.BeforeIsStrictTotal | internal/auditstorage/merge.go:37-50 | the merge order is a strict total order |
| QueryMerge.SummaryHeap.constructor | internal/auditstorage/merge.go:88-88 | an empty heap |
| QueryMerge.SummaryHeap.Push | internal/auditstorage/merge.go:52-62 | keeps the heap order and adds exactly the item |
| QueryMerge.SummaryHeap.Pop | internal/auditstorage/merge.go:64-82 | returns the root, keeps the heap order and removes exactly it |
| QueryMerge.SiftDownFromRoot | internal/auditstorage/merge.go:64-82 | restores heap order with the same items |
| QueryMerge.RootIsFirst | internal/auditstorage/merge.go:37-82 | no item of a heap comes before its root |
| QueryMerge.LoadHeap | internal/auditstorage/merge.go:88-100 | loads the first page of every non-empty bucket |
| QueryMerge.PutBack | internal/auditstorage/merge.go:119-132 | advances within the page, fetches the next page, or drops an exhausted bucket |
| QueryMerge.Merge | internal/auditstorage/merge.go:84-135 | the rows yielded are drop(offset) then take(limit) of all rows of all buckets, latest time first, then highest sequence, identifier and bucket |
| QueryMerge.WindowIsSlice | internal/auditstorage/merge.go:37-50 | the sorted listing holds every row of every bucket and nothing else, newest first, and the window is its slice |
| CleanupSort.ReadBody | internal/auditstorage/cleanup_sort.go:84-97 | reading a written run yields its paths one by one and then its end |
| CleanupSort.DecodeEncode | internal/auditstorage/cleanup_sort.go:67-82 | the run length is read back as written |
| CleanupSort.OpenWritten | internal/auditstorage/cleanup_sort.go:67-133 | a run written anywhere in a file opens to exactly its lines and its end offset |
| CleanupSort.RunLayout | internal/auditstorage/cleanup_sort.go:99-133 | a run is its length in eight bytes, least significant first, and its lines |
| CleanupSort.OpenExactly | internal/auditstorage/cleanup_sort.go:67-82 | opening fails exactly on a short header or a length beyond the largest offset; a run cut short is read as far as it goes |
| CleanupSort.WriteSortRun | internal/auditstorage/cleanup_sort.go:99-133 | appends the framed run, whatever was in the file |
| CleanupSort.MergedPermutes | internal/auditstorage/cleanup_sort.go:135-161 | merging loses and duplicates nothing |
| CleanupSort.MergedSorted | internal/auditstorage/cleanup_sort.go:135-161 | merging sorted runs gives a sorted run |
| CleanupSort.MergeSortRuns | internal/auditstorage/cleanup_sort.go:135-161 | streams two framed runs into one framed run of their merge |
| CleanupSort.MergeSortPass | internal/auditstorage/cleanup_sort.go:163-192 | the output file holds the pairwise merges in order, ceil(n/2) runs |
| CleanupSort.PathOrderIsStrictTotal | internal/auditstorage/traversal.go:160-165 | comparing by bucket identity and then path is a strict total order |
| CleanupSort.EmittedInOrder | internal/auditstorage/traversal.go:160-165 | what a sorter emits has bucket identities in ascending order and paths of one identity in ascending order |
| CleanupSort.CleanupSorter.constructor | internal/auditstorage/cleanup_sort.go:194-206 | an empty sorter |
| CleanupSort.CleanupSorter.Add | internal/auditstorage/cleanup_sort.go:227-236 | buffers at most 100 paths and loses none |
| CleanupSort.CleanupSorter.Spill | internal/auditstorage/cleanup_sort.go:238-250 | a full buffer becomes one more run |
| CleanupSort.CleanupSorter.Flush | internal/auditstorage/cleanup_sort.go:252-272 | writes the sorted buffer as one more run, unless it is empty |
| CleanupSort.CleanupSorter.MergeOnce | internal/auditstorage/cleanup_sort.go:285-303 | one pass halves the run count, rounding up |
| CleanupSort.CleanupSorter.MergeAll | internal/auditstorage/cleanup_sort.go:285-303 | ends with exactly one run |
| CleanupSort.CleanupSorter.Finish | internal/auditstorage/cleanup_sort.go:274-313 | emits exactly the sorted arrangement of every path added |
| CleanupSort.Emit | internal/auditstorage/cleanup_sort.go:315-328 | visits exactly the paths of the run, in order |
| Expiry.NoOverflow | internal/auditstorage/catalog.go:95-112 | a valid policy's retained span and look-back fit in a duration |
| Expiry.ValidExactly | internal/auditstorage/catalog.go:95-112 | the policies that validation admits, without its division |
| Expiry.StartIsFloor | internal/auditstorage/catalog.go:84-93 | the window start is the latest boundary not after now, for negative Unix times too |
| Expiry.AlignedIsBoundary | internal/auditstorage/catalog.go:441-448 | the remainder test is true exactly on window boundaries |
| Expiry.RetainedExactly | internal/auditstorage/catalog.go:441-448 | a bucket is retained exactly when it is on a boundary, has started and now is before start + retained × interval |
| Expiry.DispatchAgrees | internal/daemon/replay_scheduler.go:180-196 | the dispatcher takes exactly the retained ones among started aligned buckets, and its timeout ends at the expiry instant |
| Expiry.RetryAgrees | internal/daemon/deferred_intake.go:270-279 | a clamped retry is never due after the expiry, the bucket is retained until it is due, and a retry that was clamped is due exactly at expiry |
| Expiry.RetryWithoutExpiry | internal/daemon/deferred_intake.go:270-279 | without a bucket or a bound by age a retry is due after its delay |
| Expiry.SubExactly | internal/daemon/replay_scheduler.go:180-196 | differences of times are exact within a duration and saturate beyond |
| ReplayAccounting.EveryRunIsAccounted | internal/daemon/replay_scheduler.go:132-178 | in every run the in-flight map is the disjoint union of channel and work in hand, no receipt is worked on twice, byte credit is the exact sum and at most 1 MiB, blocked credit has an outstanding dispatch and reserved credit a pass |
| ReplayAccounting.NoPhantom | internal/daemon/recovery.go:488-493 | recording completion never creates an in-flight entry |
| ReplayAccounting.LedgerTake | internal/daemon/deferred_service.go:112-132 | taking work after rotating the channel keeps the accounting |
| ReplayAccounting.LedgerFinish | internal/daemon/replay_scheduler.go:161-178 | ending a dispatch finds its own entry and returns exactly its credit |
| ReplayAccounting.AccountedDrain | internal/daemon/deferred_service.go:257-290 | cancelling files returns exactly the credit of the dispatches dropped |
| ReplayAccounting.AccountedKept | internal/daemon/deferred_service.go:40-290 | every step of every kind keeps the accounting |
| ReplayShape.ShapeKept | internal/daemon/recovery.go:51-180 | generations, acknowledgements, flags and the examined page stay consistent under every step |
| ReplaySafety.PassCovers | internal/daemon/recovery.go:287-353 | moving the pass between files, acknowledging it or abandoning it leaves no receipt uncovered |
| ReplaySafety.AcknowledgeCovers | internal/daemon/recovery.go:163-180 | acknowledging a pass leaves every receipt covered by something that outlasts the pass |
| ReplaySafety.FutureOwnedCovers | internal/daemon/recovery.go:398-418 | the file end that sets no deadline leaves the receipts covered by the flagged dispatch |
| ReplaySafety.WorldCovers | internal/daemon/recovery.go:88-136 | clock steps in either direction, due deadlines, rotation, judgements at any reading, policy changes and deletion leave no receipt in scope uncovered |
| ReplaySafety.OrderKept | internal/daemon/recovery.go:51-136 | whatever step moves a generation, the move is acknowledged neither already nor by the pass that is running |
| ReplaySafety.OrderedIsSafe | internal/daemon/recovery.go:88-136 | an ordered rescan covers every receipt of the files it includes, those judged unretained before too |
| ReplaySafety.InvKept | internal/daemon/recovery.go:51-180 | every step keeps every in-scope receipt covered |
| ReplaySafety.NoReceiptIsForgotten | internal/daemon/recovery.go:355-507 | in every run every pending receipt of a non-excluded file, not judged unretained since a rescan of it was last ordered, is in flight, being submitted, has a deadline or is owed a rescan |
| ReplayClock.DueIsOrdered | internal/daemon/recovery.go:66-136 | in every run, once a deadline is set for a file, the first clock reading at or after it finds a rescan of the file ordered since, or a rotation still to be noted |
| ReplayClock.TickOwesRescan | internal/daemon/recovery.go:115-136 | in every run, after a clock reading at or after the deadline that covers a receipt its file is owed a rescan |
| ReplayClock.NothingOverdue | internal/daemon/recovery.go:115-136 | no deadline that has passed is left after a clock reading |
| ReplayClock.PassBegins | internal/daemon/recovery.go:138-155 | a pass begins with the generations of the moment and visits all files exactly when a historical rescan is owed |
| ReplayClock.NoteExactly | internal/daemon/recovery.go:88-102 | a rotation is noted once, moves both generations and hands the old deadline over |
| ReplayClock.MarkExactly | internal/daemon/recovery.go:80-86 | a mark moves the generation of the side the file is on |
| ReplayClock.DeferExactly | internal/daemon/recovery.go:104-113 | the deadline of the side the file is on becomes the earlier one |
| ReplayClock.AcknowledgeExactly | internal/daemon/recovery.go:163-180 | an acknowledgement settles exactly the generations that did not move during a valid pass |
| ReplayModel.ClockExactly | internal/daemon/recovery.go:115-136 | a clock reading moves generations exactly by a step back and by each due deadline, clears due deadlines and keeps later ones |
| ReplayProgress.WorkersMove | internal/daemon/deferred_service.go:180-257 | a worker always has a next step, and which ways an attempt can end |
| ReplayProgress.AttemptsWrite | internal/daemon/deferred_intake.go:240-290 | a claim leaves the next attempt, a retry sets it and ends the claim, a completion takes the receipt out |
| ReplayProgress.AttemptsSettle | internal/daemon/deferred_service.go:180-257 | what a settled attempt leaves: nothing, a deadline, the mark of completion or a moved generation |
| ReplayProgress.FreeWorkersMove | internal/daemon/deferred_service.go:112-132 | a free worker takes a probe exactly when one is due, otherwise the first dispatch that no storage transition holds back |
| ReplayProgress.ProbesTakeTurns | internal/daemon/deferred_service.go:112-132 | after a dispatch is taken, a probe that is owed and not held up comes next |
| ReplayProgress.PassMoves | internal/daemon/recovery.go:287-338 | a pass at rest goes on to the current file, the listing, the next listed file or its end |
| ReplayProgress.RowDecides | internal/daemon/recovery.go:368-388 | what is done with a row, case by case |
| ReplayProgress.PageEnds | internal/daemon/recovery.go:389-405 | what follows a page, case by case |
| ReplayProgress.PageIsRead | internal/daemon/recovery.go:364-391 | a page has at most a hundred rows and is full at a hundred |
| ReplayProgress.DeadlineIsEarliest | internal/daemon/recovery.go:398-404 | the deadline read at a file's end is the earliest next attempt of its receipts that are not yet due |
| ReplayProgress.FileEnds | internal/daemon/recovery.go:398-405 | what leaving a file does with its first future receipt |
| ReplayProgress.FilesAreLeft | internal/daemon/recovery.go:195-259 | when a file is skipped, and that an error sets the deadline of its side |
| ReplayDiscipline.OrderlyIsAssumed | internal/daemon/recovery.go:398-418 | a step that an observer finds orderly never completes a receipt that a pass relies on |
| ReplayDiscipline.ForwardIsAssumed | internal/daemon/recovery.go:398-418 | runs that move forward in time satisfy the assumption of the main theorem |
| ReplayDiscipline.ForwardRunsForgetNothing | internal/daemon/recovery.go:355-507 | no receipt in scope is forgotten when passes and retries move forward, attempts that scheduled a retry do not complete and receipts are dispatched when due |
| ReplayLateSubmit.LateSubmitForgetsAReceipt | internal/daemon/replay_scheduler.go:123-159 | a run that meets all of these conditions but the last and forgets a receipt |
| ReplayRetention.RetainedIsCovered | internal/daemon/recovery.go:204-207 | whatever clock and policy did, every pending receipt of a file retained at the last reading is covered if each judgement of the file was followed by an ordered rescan or made with the last reading past the file's end |
| ReplayRetention.ForwardRetainedIsCovered | internal/daemon/recovery.go:204-207 | the same under the observable conditions |
| ReplayRetention.WindowIsRetention | internal/auditstorage/catalog.go:441-453 | the retention test is membership in the window from the file's start to its end, for files on a boundary |
| ReplayRetention.JudgementStandsExactly | internal/daemon/recovery.go:88-136 | in every run a file is out of scope as unretained if and only if some step judged it so and no rescan of it was ordered since |
| ReplayRetention.ClockForward | internal/daemon/recovery.go:115-136 | without an ordered rescan the scheduler's clock readings have not stepped back |
| ReplayRetention.GivingUpIsExact | internal/daemon/deferred_service.go:203-208 | after a receipt is given up, any later reading that is not a step back finds it covered while its file is retained if and only if the file is not retained then or something else brings the receipt back |
| ReplayRetention.UnseenReadingForgetsAReceipt | internal/daemon/deferred_service.go:203-208 | for every window and every reading outside it, before the start or past the end: a run whose scheduler readings stay inside and that forgets a receipt |
| ReplayRetention.ReachedStartForgetsAReceipt | internal/auditstorage/recovery.go:82-104 | for every window: a run that passes over the file before its start and forgets its receipt when the start is reached |
| ReplayRetention.LongerRetentionForgetsAReceipt | internal/daemon/audit_rotation.go:161-181 | for every window that has ended and every longer one: a reload that forgets a receipt |
| ReplayFindings.FileEndIsFirmExactly | internal/daemon/recovery.go:398-405 | the branch without a deadline covers the file's receipts firmly if and only if a deadline or rescan was due or no other future receipt is idle |
| ReplayFindings.ClockStepBackForgetsAReceipt | internal/daemon/recovery.go:115-136 | a reachable state in which a pending receipt in scope is covered by nothing |
| ReplayQueue.Processor.constructor | internal/daemon/deferred_intake.go:83-110 | an empty queue with the bounded capacity |
| ReplayQueue.Processor.Dispatch | internal/daemon/replay_scheduler.go:132-159 | enqueues exactly when no shutdown has begun, the receipt is not in flight, and neither a pause, credit reserved for recovery, an excluded file, a full queue or channel nor the 1 MiB budget refuses it; for a submitted receipt it is the model's submit |
| ReplayQueue.Processor.Rotate | internal/daemon/deferred_service.go:123-131 | takes the first admissible dispatch, putting those before it at the back, or restores the channel |
| ReplayQueue.Processor.TakeWork | internal/daemon/deferred_service.go:112-132 | a probe exactly when the daemon is ready and one is due, else the first dispatch that no transition holds back, else nothing and no change |
| ReplayQueue.Processor.FinishDispatch | internal/daemon/replay_scheduler.go:161-178 | the entry and its bytes go, the wait for bytes ends, and exactly a flagged incomplete dispatch moves the generation of its side |
| ReplayQueue.Processor.OwnsReceipt | internal/daemon/recovery.go:408-418 | answers and flags exactly the receipt in flight |
| ReplayQueue.Processor.MarkComplete | internal/daemon/recovery.go:488-493 | marks exactly that entry complete |
| ReplayQueue.Processor.RecoveryTick | internal/daemon/recovery.go:115-136 | a step back and each due deadline move generations by one, due deadlines are cleared, later ones stay, nothing else changes |
| ReplayQueue.Processor.DispatchRetained | internal/daemon/replay_scheduler.go:110-121 | readiness orders a pass over all files and then reads the clock |
| ReplayQueue.Processor.AcknowledgePass | internal/daemon/recovery.go:163-180 | acknowledges exactly the generations that did not move during the pass |
| ReplayQueue.Processor.AdmitRecovered | internal/daemon/recovery.go:420-442 | success is the model's admission within the byte budget and keeps the accounting with the receipt in hand; lack of bytes means that something is in flight |
| ReplayQueue.Processor.DrainChannel | internal/daemon/deferred_service.go:292-302 | empties the channel and returns it in order |
| ReplayQueue.Processor.Refill | internal/daemon/deferred_service.go:285-287 | puts the works back in order without ever finding the channel full |
| ReplayQueue.Processor.RemoveMatching | internal/daemon/deferred_service.go:272-284 | drops exactly the dispatches of the given files and returns exactly their credit |
| ReplayQueue.Processor.DrainMatching | internal/daemon/deferred_service.go:271-288 | performs the model's drain in place |
| ReplayQueue.Processor.CancelFiles | internal/daemon/deferred_service.go:257-290 | drops exactly the dispatches of the files, keeps the order of the others and the accounting, and moves the historical generation exactly when a file is no longer excluded |
| ReplayQueue.Processor.CancelExpired | internal/daemon/retention_admission.go:26-41 | a dispatch stays exactly when its file is retained at the reading given, those that go return their credit, and the accounting holds |
| ReplayQueue.Processor.Grow | internal/daemon/deferred_service.go:43-50 | a larger channel takes over the queued works in order |
| ReplayQueue.Processor.Configure | internal/daemon/deferred_service.go:40-63 | capacity, limit and flags are set, and generations move exactly for files no longer excluded and for a rotation not yet noted |
| ReplayQueue.Processor.ClearQueue | internal/daemon/deferred_service.go:244-254 | discards channel and map together and keeps the accounting |
| FileOwners.InvKept | internal/daemon/file_owner.go:23-90 | every step keeps the count of each owner equal to its outstanding references and each handle's state right |
| FileOwners.OneHandlePerFile | internal/daemon/file_owner.go:23-62 | in every run no path has two open handles |
| FileOwners.BorrowedIsOpen | internal/daemon/file_owner.go:23-90 | in every run a borrower's handle is open, is the registered one of its path, and the count is the number of borrows |
| FileOwners.ClosedExactlyOnce | internal/daemon/file_owner.go:64-83 | in every run a handle is closed at most once, and with no reference left nothing is registered or open |
| FileOwners.ClosesOnLastRelease | internal/daemon/file_owner.go:64-83 | a close starts if and only if the step releases the last reference |
| FileOwners.EveryoneMoves | internal/daemon/file_owner.go:23-90 | whoever has begun an open, a borrow or a close can go on |
| FileOwners.BorrowersMove | internal/daemon/file_owner.go:23-62 | a borrow opens a file nobody has or shares an open one at once, and waits only for whoever is opening or closing it |
| RecoverySessions.MoveKept | internal/daemon/recovery_session.go:26-131 | every move, storage transitions included, keeps track of every reference |
| RecoverySessions.NoReferenceIsLost | internal/daemon/recovery_session.go:59-84 | in every run each outstanding reference is with exactly one caller, pending release or session, and a session never overwrites one it caches |
| RecoverySessions.QuietServiceHoldsNothing | internal/daemon/recovery_session.go:26-131 | when callers and sessions are done no file is open |
| RecoverySessions.IdleOwnersAreReleased | internal/daemon/recovery_session.go:114-134 | exactly the sessions away from the file that cache it give it up |
| RecoverySessions.TransitionReleasesAway | internal/daemon/recovery_session.go:86-105 | a transition takes from every session the file its worker is not at |
| RecoverySessions.PrepareReleases | internal/daemon/recovery_session.go:45-57 | when preparing for a file makes a session give up its cache |
| RecoverySessions.SessionsClose | internal/daemon/recovery_session.go:26-43 | closing a session's cache gives up exactly that session's |
| RecoverySessions.RosterMoves | internal/daemon/deferred_service.go:75-178 | who may come, be given another file, or go |
| RecoverySessions.SessionsMove | internal/daemon/recovery_session.go:59-84 | a worker with a borrow in view goes on, and an answer is cached exactly when the file was historical when asked for and no transition is on or has begun since |
| DedupSpec.SeenExactly | internal/audit/dedup.go:46-50 | after every history a fingerprint is found exactly when last remembered within the time to live and not dropped by capacity since |
| DedupSpec.EvictionNeedsCapacity | internal/audit/dedup.go:52-69 | capacity drops a fingerprint only after at least that many distinct others were used since |
| DedupSpec.RecentIsFound | internal/audit/dedup.go:46-69 | a recent fingerprint with fewer than capacity others since is always found |
| DedupCache.Cache.constructor | internal/audit/dedup.go:24-34 | an empty cache with an empty history |
| DedupCache.Cache.RemoveExpiration | internal/audit/dedup.go:71-84 | unlinks one entry anywhere and leaves the rest linked in order |
| DedupCache.Cache.AppendExpiration | internal/audit/dedup.go:61-67 | links an entry at the end |
| DedupCache.Cache.RemoveKey | internal/audit/dedup.go:26-28 | removing a key from the index unlinks its entry and keeps list and index equal |
| DedupCache.Cache.DropExpired | internal/audit/dedup.go:36-44 | removes entries from the front until the first is fresh |
| DedupCache.Cache.Expire | internal/audit/dedup.go:36-44 | looking only at the front drops exactly the expired entries |
| DedupCache.Cache.Renew | internal/audit/dedup.go:55-57 | a held entry gets its new expiry and leaves the list |
| DedupCache.Cache.Add | internal/audit/dedup.go:68-68 | touches a held key or adds one and evicts the least recently used beyond capacity |
| DedupCache.Cache.Insert | internal/audit/dedup.go:54-68 | the new table is the simple LRU's |
| DedupCache.Cache.Seen | internal/audit/dedup.go:46-50 | the answer is exactly that of the history, and the cache stays equal to the simple LRU |
| DedupCache.Cache.Remember | internal/audit/dedup.go:52-69 | the cache stays equal to the simple LRU after remembering |
| DedupCache.Cache.Purge | internal/audit/dedup.go:86-88 | unlinks every entry in any order and leaves an empty cache |
| AuditQueue.CountBatch | internal/audit/session.go:459-470 | counts the longest prefix that fits the item and byte limits, with its exact size |
| AuditQueue.FitMeaning | internal/audit/session.go:459-470 | the prefix fits, and one more event would not |
| AuditQueue.FitIsProper | internal/audit/session.go:459-470 | a batch of a non-empty queue is never empty and within limits |
| AuditQueue.EventLogger.constructor | internal/audit/session.go:170-238 | an empty logger |
| AuditQueue.EventLogger.Log | internal/audit/session.go:270-299 | accepts exactly the events that fit, arrive before stopping and are not remembered duplicates; counts exactly the dropped ones |
| AuditQueue.EventLogger.TakeBatch | internal/audit/session.go:449-474 | waits, exits only with an empty queue after stopping, or takes the longest fitting prefix |
| AuditQueue.EventLogger.FinishWrite | internal/audit/session.go:475-477 | a batch is passed to the store once |
| AuditQueue.EventLogger.CloseContext | internal/audit/session.go:410-437 | every accepted event has been passed to the store exactly once, in order, in non-empty batches within limits |
| TomlLines.AdvanceIsLexer | internal/config/toml_key.go:26-71 | the searching scanner with backward escape counting ends every line in the state of a one-byte-at-a-time automaton |
| TomlLines.CountBackslashes | internal/config/toml_key.go:93-99 | the length of the run of backslashes before the index |
| TomlLines.AdvanceState | internal/config/toml_key.go:26-71 | the loop computes the scanner's and the automaton's state |
| TomlLines.StructuralLines | internal/config/toml_key.go:16-24 | marks exactly the lines that begin outside a multi-line string |
| TomlTable.StructuralIsTextual | internal/config/toml_key.go:16-24 | a line is structural if and only if the automaton run over all the text before it is outside multi-line strings |
| TomlStrings.AlikeExactly | internal/config/toml_key.go:26-71 | scanner and standard read one more character alike if and only if it does not end a run of exactly four closing quotes and is not a sixth |
| TomlStrings.ScannerMeetsStandard | internal/config/toml_key.go:26-71 | on every line with no quote after the place where the two first part, the scanner ends as the standard does if and only if that place is not a sixth quote |
| TomlStrings.FourQuotesMislead | internal/config/toml_key.go:26-71 | a line on which they differ |
| TomlHeader.ReaderIsSound | internal/config/toml_key.go:101-133 | a recognized header begins with a bracket, and the empty line does not |
| TomlHeader.HeaderIsRecognized | internal/config/toml_key.go:101-238 | a header is recognized for every dotted path in every spelling of its keys (bare, single-quoted, double-quoted), with any space around brackets, dots and keys and with or without a comment |
| TomlHeader.PathIsRead | internal/config/toml_key.go:147-211 | the text of a path in any spelling reads as its names |
| TomlHeader.LiteralHeaderIsHeader | internal/config/toml_key.go:188-211 | every name without a single quote has a recognized single-quoted header |
| TomlHeader.BasicHeaderIsHeader | internal/config/toml_key.go:188-211 | a name without escapes has a recognized double-quoted header when the language reads the quoted text as the name |
| TomlHeader.HeaderExactly | internal/config/toml_key.go:101-238 | a line is the header of a path if and only if it is that path in brackets, in some spelling, with optional space and comment |
| TomlHeader.SpelledHeadsOnly | internal/config/toml_key.go:101-238 | a spelled header is the header of no other path |
| TomlHeader.ArrayIsNoHeader | internal/config/toml_key.go:101-133 | a line that opens an array of tables is the header of no table |
| TomlHeader.BracketExactly | internal/config/update.go:208-228 | the bracket test is true exactly of lines whose first visible character is an opening bracket |
| TomlHeader.PlainHeaderIsHeader | internal/config/update.go:199-199 | the header line that is written is recognized |
| TomlTable.FindTable | internal/config/update.go:208-228 | finds the table's range exactly when the table is declared |
| TomlTable.TableUnique | internal/config/update.go:208-228 | a text has at most one such range |
| TomlTable.ReplaceTopLevelTable | internal/config/update.go:208-241 | replaces exactly that range, and changes nothing when the table is not declared |
| TomlTable.SplitJoin | internal/config/update.go:209-209 | joined lines split into themselves |
| TomlTable.JoinSplit | internal/config/update.go:209-209 | split text joins to itself |
| TomlTable.OutsideIsKept | internal/config/update.go:208-241 | lines outside the table are kept byte for byte and in order, and keep their structural classification |
| TomlTable.RewriteIsIdempotent | internal/config/update.go:208-255 | the rewritten text declares the table and rewriting it again gives the same text |
| TomlUpdate.BlockIsWellFormed | internal/config/update.go:199-205 | the block that is written begins with a recognized header, opens nothing else and leaves no string open, whatever its texts hold |
| TomlUpdate.BlockReadsBack | internal/config/update.go:199-205 | the block heads the table and reads back as exactly the settings it was written for, in order |
| TomlUpdate.UpdateIsIdempotent | internal/config/update.go:208-270 | with the real recognizer and block, the rewritten text declares the table and rewriting it again gives the same text |
| TomlUpdate.WriteTable | internal/config/update.go:208-241 | replaced exactly when a structural line heads the table; what is replaced is the header and what follows it up to the next line that opens anything else, so every line that heads another path is kept; and the table is then still declared |

## Left out

- The database files' contents, SQL, the intake store's queries, JSON, fsync, file locks and permissions: databases are files with a size, an inode and a completion mark; the store's queries appear as contracts (a page is the first rows of a range in order; the first future receipt is the earliest one); lock availability is an input.
- Pruning: sizes and locks are one consistent snapshot during a pass; a target is identified by its inode; 64-bit overflow of totals and errors while probing locks are not modelled; a failed removal is (`broken`). Targets outside the family contribute nothing.
- Reset: `Purge`, the deferred-file list and the recorded cleanup error are not modelled; families are told apart by base path.
- Segments: saves that only change the retention count are not modelled.
- QueryMerge.Merge: I/O errors and cancellation are not modelled, the page callback obeys its contract (full pages until the last), and rows equal under the source's comparison are ordered by identifier.
- CleanupSort.CleanupSorter.Finish: the JSON encoding of a path is reduced to escaping quotes, backslashes and newlines; the total length stays below the largest file offset; temporary file creation and removal are not modelled.
- ReplaySafety.NoReceiptIsForgotten: assumes that no attempt completes a receipt which a pass read as its file's first future one, because without it the claim is false (`ReplayFindings.ClockStepBackForgetsAReceipt`, `ReplayLateSubmit.LateSubmitForgetsAReceipt`); a file judged unretained leaves the scope until a rescan of it is ordered, because otherwise the claim is false (`ReplayRetention.UnseenReadingForgetsAReceipt`, `ReplayRetention.ReachedStartForgetsAReceipt`, `ReplayRetention.LongerRetentionForgetsAReceipt`); a judgement uses the retention policy in force at that moment; a file missing from disk has no pending receipts.
- PruningPasses.FindTarget: the identity of a target is its inode; the separate identity path of a database of which only sidecars are left is not modelled.
- PruningPasses.Directory.RemoveBucket: deletes a database with its sidecars in one step; the steps in between are modelled in `CatalogReset`.
- AuditQueue.EventLogger.Log: level filtering and events that cannot be encoded are not modelled.
- AuditQueue.EventLogger.CloseContext: the shutdown deadline, which cancels writes, is not modelled; a cancelled write counts as passed to the store.
- Scheduler: what a shutdown does beyond refusing submits, panics, an unusable configuration, the number of workers, reuse of a path by a reset and wrap-around of 64-bit generations are not modelled; a check and the clearing step that follows it within the probe are one step; a rotation is noted before the next one, as the lifecycle lock enforces; one entry's size fits the byte budget.
- RecoverySessions.NoReferenceIsLost: the current file changes only during a storage transition or while no worker is active, as rotation and reset arrange.
- FileOwners: cancellation while waiting for another goroutine is the caller's choice not to continue and has no step of its own; the error of a failed close is not kept.
- DedupCache: the clock does not run backwards within a cache, as the process clock does not; the LRU package is modelled by its contract inside the cache class.
- AuditQueue: event normalization, level filtering and the durable write path (`LogNormalizedDurable`) are not modelled; a failed batch write counts as passed to the store.
- TomlTable.FindTable: stated for any recognizer of header lines; `TomlHeader` supplies the one the code uses.
- TomlHeader: the language's reading of double-quoted keys is a parameter; the escapes of `%q` other than quote, backslash and line end are not modelled in `TomlUpdate`.
- Expiry: calendar formatting of bucket names is not modelled; times are not bounded to 64-bit seconds.
- gRPC, command-line handling, rule evaluation, inference, configuration validation and logging would add only easy members.
