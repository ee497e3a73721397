# Verification model

This project models the parts of the repository whose correctness depends on order, repetition and
interruption, and proves what they keep.

**The PoRep indexer.** `AbstractPoRepIndexerRunner.execute` cuts the chain into block ranges, folds the logs
of each range into a few database operations and commits them together with a run record. `IndexerRunner`
has the range selection and the transaction over abstract tables; `IndexerRuns` is the step system of all its
runs (ticks, awaits, failures, restarts, deployments); `IndexerProgress` says what each commit sets going and
how far one tick gets; `IndexerExecution` is the runner object and its catching up. `ProvidersAndDealsTables`, `ProvidersAndDealsIndexer` and `ProvidersAndDealsReplay` have the
tables with their keys and references, the operations of a batch, and the comparison with replaying the
events one at a time; `FilecoinPayIndexer` and `FilecoinPayReplay` do the same for payment rails.
`ProvidersAndDealsOrder` and `FilecoinPayOrder` say what the order of the logs within a batch can change, and
`ProvidersAndDealsHistory` when a deal's state is that of its latest change; `ProvidersAndDealsContents` and
`FilecoinPayContents` say what every stored row holds, by the fields of the events alone. `IndexedTables` joins the halves:
in every state the run loop can reach, it says exactly when the committed tables are the replay of the
indexed chain. `BigIntUpdates` has the merging of pending increments and decrements, `GroupedUpdates` the
fold-per-group against replay, for any rows and events, and `LastWrites` the value written last.

**The aggregation scheduler** (`AggregationTasks`), **concurrent memoisation** (`Cacheable`), **allocations by
period** (`AllocatorEntries`, `AllocatorHistory`), the **week-by-week synchronisation** (`WeeklyAccSync`), **rounded cumulative
histories** (`PoRepHistory`) and **histogram completion** (`HistogramHelper`, `HistogramWeeks`) follow the same pattern: the
source's loop or object as a method or class, a specification it is proved against, and the properties of
that specification. `Sequences` and `Wrappers` hold shared definitions.

What the environment is assumed to do is a hypothesis of the theorems: the chain head and the clock do not
go back, blocks once indexed are not reorganised, the origin block of a version has been mined when that
version is deployed, version numbers only grow, and one process runs the indexer at a time.

Where the code and its evident intention differ, the model follows the code:

- The comparator that sorts the fetched logs compares objects with `>` and so defines no order
  (`IndexerRunner.ComparatorAcceptsEveryOrder`). The sort is therefore an arbitrary permutation in the model.
  Counters, payments, keys and state-change rows do not depend on it; the other columns come out as in the
  chain exactly when the sort keeps the last write to each (`ProvidersAndDealsOrder.SortedBatchesAreReplayIff`,
  with `UnpausedStoredAsPaused` for a batch where it does not).
- For the same reason a deal's state can differ from its latest change by block
  (`ProvidersAndDealsHistory.HistoryMayDisagree`); `BatchHistoryAgreesIff` says exactly when it does not.
- One-time payments replace a pending change of a rail's fixed lockup instead of joining it
  (`FilecoinPayReplay.TwoPaymentsInOneBatch`); the theorems say exactly when fold and replay agree.
- Merged multiplications start from zero (`BigIntUpdates.MergedMultiplicationAgreesIff`); the indexers only use
  increments and decrements.
- The mutex of a cache key is dropped from its map while others wait for it. At most one computation follows
  from an invariant over all interleavings exactly when nothing throws, no result is null and no entry
  expires (`Cacheable.AtMostOneIff`); after any of these two callers can compute at once (`TwoComputeAfter`).
- One transaction accepts a batch in which an event precedes the registration of its provider, which no
  event-by-event replay accepts (`ProvidersAndDealsReplay.BatchMayHideDisorder`).
- The histogram loop steps by the span of one bucket and never ends when that span is not positive
  (`HistogramHelper.LoopEndsIff`).

## Model

| member | source | states |
|---|---|---|
| `IndexedTables.ReachableTablesAreReplay` | src/po-rep-indexer/runners/abstract-po-rep-indexer.runner.ts:61-160 | In every state that cron ticks, head and clock movements, fetches, commits, failures, restarts and deployments can reach, and however each batch was sorted: replaying every event from the origin block to the last indexed block one at a time succeeds, and gives the committed tables exactly when the last value written into every column of every row is the same in the order of committing as in the chain; so it does when the committed ranges were left in chain order. Registrations and proposals come first in the chain |
| `IndexedTables.ReachableTablesAreConsistent` | src/po-rep-indexer/runners/po-rep-providers-and-deals.runner.ts:305-382 | However batches were sorted, in every reachable state each provider's committed and pending bytes are the balance of all indexed logs; each deal's state has its row among the state changes, or is PROPOSED without any; and it is that of a latest change by block exactly when the last of the deal's changes to be committed has the greatest block, as it has in ascending chain order |
| `IndexedTables.ReachableTablesHold` | src/po-rep-indexer/runners/po-rep-providers-and-deals.runner.ts:116-513 | In every reachable state, by the fields of the indexed events alone: a provider, a deal and a state change are stored exactly when they have their one registration, proposal or entering event; organization, block, client, manifest, size and requirements are those of it; every other column is the last value written by a log of the right contract, or the default; counters are sums; known terms are those of the market contract |
| `IndexedTables.ReachableRailsAreReplay` | src/po-rep-indexer/runners/filecoin-pay-indexer.runner.ts:71-131 | However batches were sorted, in every reachable state the rails are those of the replayed chain; a rail equals the replayed one exactly when the last values written into its columns are the same in both orders and the lockup events that the batches kept balance those of the chain; in chain order every column but the fixed lockup is right |
| `IndexedTables.ReachablePaymentsAreLogs` | src/po-rep-indexer/runners/filecoin-pay-indexer.runner.ts:133-183 | However logs are sorted and batches cut, in every reachable state the payment rows are a rearrangement of the rows of the indexed payment logs, so any amount summed over rows (per rail or in total) equals the sum over the logs |
| `IndexedTables.ReachableRailsHold` | src/po-rep-indexer/runners/filecoin-pay-indexer.runner.ts:71-239 | In every reachable state, by the fields of the indexed events alone: a rail is stored exactly when it was created, with payer, payee and block of its creation and the last value written into every column since; its fixed lockup is what the last change in each batch makes of it; every payment row is stored as often as events have exactly its rail, kind, block and amounts, so each amount adds up per rail and kind |
| `IndexedTables.ProvidersAndDealsIsValid` | src/po-rep-indexer/runners/po-rep-providers-and-deals.runner.ts:82-114 | The deployed origin block, a batch of a day of blocks and the cleanup of this indexer meet what the run loop relies on: committing after a cleanup forgets whatever was stored |
| `IndexedTables.FilecoinPayIsValid` | src/po-rep-indexer/runners/filecoin-pay-indexer.runner.ts:42-69 | The same for the payment-rails indexer, with half a day of blocks |
| `IndexerRuns.EveryBlockIsIndexedOnce` | src/po-rep-indexer/runners/abstract-po-rep-indexer.runner.ts:61-160 | Over every run with a head and clock that do not go back: at most one execution is past the guard, and exactly when the guard says so; the committed ranges of the version are contiguous from the origin, hold at most a batch, never pass the head; a block is covered by a committed range exactly when it lies between the origin and the last indexed block, and by only one |
| `IndexerRuns.NextKeepsInv` | src/po-rep-indexer/runners/abstract-po-rep-indexer.runner.ts:64-159 | Every single step of any interleaving (tick, read, fetch, commit, failure, restart, deployment, head or clock movement) keeps the run loop's invariant |
| `IndexerRuns.TablesAreTheBatches` | src/po-rep-indexer/runners/abstract-po-rep-indexer.runner.ts:126-142 | In every reachable state the tables are the committed batches applied in order to empty tables; each batch holds exactly the logs of its range, which its record counts; and the ranges laid end to end are the logs of all blocks from the origin to the last indexed one, block by block |
| `IndexerProgress.CommitReschedules` | src/po-rep-indexer/runners/abstract-po-rep-indexer.runner.ts:126-159 | A commit adds its record exactly when the database takes the batch and the date is free; then exactly one fresh execution is under way if the head its run had read is above the new last block, and none otherwise; a refused commit stores nothing and leaves none under way |
| `IndexerProgress.TickCatchesUp` | src/po-rep-indexer/runners/abstract-po-rep-indexer.runner.ts:61-160 | One tick on an idle indexer, followed by runs at a fixed head without failure or further tick: as long as the database takes the batches, the k-th run commits the k-th batch of blocks; before max(1, ceil(N / batch)) runs one more is always under way, after them every block up to the head is indexed and nothing is under way |
| `IndexerProgress.GuardFollows` | src/po-rep-indexer/runners/abstract-po-rep-indexer.runner.ts:61-72 | A tick starts one run exactly when none is under way; a failure or a restart leaves none, and nothing is stored by any of them |
| `IndexerRuns.DeployedTablesWait` | src/po-rep-indexer/runners/abstract-po-rep-indexer.runner.ts:90-93 | After a deployment, whatever runs, fails or restarts, tables and run records stay as they were until the new version's first commit |
| `IndexerRuns.RunGrows` | src/po-rep-indexer/runners/abstract-po-rep-indexer.runner.ts:126-142 | Over any stretch of any run, records are only added, and the tables change only together with a new record |
| `IndexerRuns.PlanTilesIff` | src/po-rep-indexer/runners/abstract-po-rep-indexer.runner.ts:90-99 | The range planned at a given head continues the tiling exactly when that head is not below the last indexed block: why the head must not go back |
| `IndexerRuns.PlanContinues` | src/po-rep-indexer/runners/abstract-po-rep-indexer.runner.ts:90-99 | A range planned on current records starts at the next unindexed block, is no longer than a batch, does not pass the head, and asks for a cleanup exactly for a version without records |
| `IndexerRuns.LastRunIsLastOf` | src/po-rep-indexer/runners/abstract-po-rep-indexer.runner.ts:78-87 | The run found by latest date is the last one that was committed for the version |
| `IndexerRunner.TiledOnce` | src/po-rep-indexer/runners/abstract-po-rep-indexer.runner.ts:90-99 | Ranges that tile the chain from the origin cover each block up to the last indexed one exactly once and no other block |
| `IndexerRunner.BatchesHoldTheChain` | src/po-rep-indexer/runners/abstract-po-rep-indexer.runner.ts:110-122 | Whatever permutation the sort makes, each batch holds exactly the logs of its range, and together they hold those of the indexed blocks, each once |
| `IndexerRunner.RangesAreTheChain` | src/po-rep-indexer/runners/abstract-po-rep-indexer.runner.ts:110-115 | The logs fetched for tiled ranges, laid end to end, are the chain itself |
| `IndexerRunner.LogsAreBlocks` | src/po-rep-indexer/runners/abstract-po-rep-indexer.runner.ts:110-115 | A fetched range holds all logs of each of its blocks, block by block |
| `IndexerRunner.ComparatorAcceptsEveryOrder` | src/po-rep-indexer/runners/abstract-po-rep-indexer.runner.ts:119-122 | The comparator answers 'less' both ways round for any two distinct log objects, so every arrangement counts as sorted and no order is promised |
| `IndexerExecution.CatchUpTakesCeil` | src/po-rep-indexer/runners/abstract-po-rep-indexer.runner.ts:94-99 | At a fixed head and without failures, catching up commits max(1, ceil(N / batch)) runs for N unindexed blocks, leaves none unindexed and stops rescheduling |
| `IndexerExecution.TransactionProgresses` | src/po-rep-indexer/runners/abstract-po-rep-indexer.runner.ts:96-144 | A run reschedules itself exactly when more blocks than one batch were left, and each commit lowers what is left by a batch or to zero |
| `IndexerExecution.CeilRoundsUp` | src/po-rep-indexer/runners/abstract-po-rep-indexer.runner.ts:96-99 | The count of batches used above is the quotient rounded up |
| `IndexerExecution.Runner.Execute` | src/po-rep-indexer/runners/abstract-po-rep-indexer.runner.ts:61-160 | One call does nothing while another is under way; otherwise it commits run after run until the head is reached or one fails, and releases the guard. The tables stay the batches of the version's records on empty tables, the cleanup coming first when the version had none; a call that does not fail leaves every block up to the head indexed |
| `IndexerExecution.CatchUpKeepsStore` | src/po-rep-indexer/runners/abstract-po-rep-indexer.runner.ts:61-160 | The same of catching up, whether it fails half-way or not |
| `ProvidersAndDealsReplay.BatchIsReplayExactly` | src/po-rep-indexer/runners/po-rep-providers-and-deals.runner.ts:116-129 | For every batch and every stored state: replay equals the one transaction, failures included, if no event comes before the creation of its row, and otherwise fails; so the two agree exactly when the batch is in order or its transaction fails |
| `ProvidersAndDealsIndexer.BatchIsReplayInWriteOrder` | src/po-rep-indexer/runners/po-rep-providers-and-deals.runner.ts:116-129 | For every batch without exception, failures included, the transaction is the replay of the same logs with registrations first, then registry updates, proposals, deal updates |
| `ProvidersAndDealsReplay.WriteOrderIsChainOrder` | src/po-rep-indexer/runners/po-rep-providers-and-deals.runner.ts:116-129 | For logs in order, writing class by class has the same outcome as replaying in chain order |
| `ProvidersAndDealsReplay.StepsCommute` | src/po-rep-indexer/runners/po-rep-providers-and-deals.runner.ts:116-129 | Two events of different classes commute, in success and in failure, unless one creates the row of the other |
| `ProvidersAndDealsReplay.OutOfOrderNeverReplays` | src/po-rep-indexer/runners/po-rep-providers-and-deals.runner.ts:116-129 | An event that precedes the creation of its own row makes event-by-event replay fail on every stored state |
| `ProvidersAndDealsReplay.BatchMayHideDisorder` | src/po-rep-indexer/runners/po-rep-providers-and-deals.runner.ts:116-129 | A concrete batch (a pause before its registration) that one transaction accepts and event-by-event replay refuses |
| `ProvidersAndDealsReplay.BatchesAreReplay` | src/po-rep-indexer/runners/po-rep-providers-and-deals.runner.ts:116-129 | Cutting an ordered log sequence into batches anywhere never changes the committed tables, nor whether they can be committed |
| `ProvidersAndDealsReplay.BatchesAreReplayInWriteOrder` | src/po-rep-indexer/runners/po-rep-providers-and-deals.runner.ts:116-129 | For logs in any order, any number of batches is the replay of what each batch writes, in that order |
| `ProvidersAndDealsHistory.BatchesHistoryAgreesIff` | src/po-rep-indexer/runners/po-rep-providers-and-deals.runner.ts:336-382 | After any batches, sorted anyhow: a deal's state is recorded among its changes, or PROPOSED without any; and it is that of a latest change by block exactly when the last of its changes to be committed has the greatest block |
| `ProvidersAndDealsHistory.BatchHistoryAgreesIff` | src/po-rep-indexer/runners/po-rep-providers-and-deals.runner.ts:336-382 | For every batch, sorted anyhow, and every deal: the committed state is that of a latest change exactly when the last of the deal's changes in the batch has the greatest block, in the batch and among the stored rows; without a change, exactly when it was before |
| `ProvidersAndDealsHistory.ChainOrderAgrees` | src/po-rep-indexer/runners/po-rep-providers-and-deals.runner.ts:336-382 | In ascending chain order every deal's state is that of a latest change, and of the only one unless two changes of the deal share a block |
| `ProvidersAndDealsHistory.HistoryMayDisagree` | src/po-rep-indexer/runners/po-rep-providers-and-deals.runner.ts:336-382 | Two batches from empty tables, the second sorted backwards, that commit a deal as ACCEPTED while its latest change is COMPLETED |
| `ProvidersAndDealsHistory.ReplayOnDeal` | src/po-rep-indexer/runners/po-rep-providers-and-deals.runner.ts:359-381 | Any replay keeps the stored changes, records each of the deal's new ones with its block and no others, and leaves the deal in the state of the last |
| `ProvidersAndDealsReplay.BatchesKeepCounters` | src/po-rep-indexer/runners/po-rep-providers-and-deals.runner.ts:394-438 | After any batches, cut and sorted anyhow, each provider's committed and pending bytes are the sum of the committed minus the released amounts of all logs |
| `ProvidersAndDealsContents.BatchesHold` | src/po-rep-indexer/runners/po-rep-providers-and-deals.runner.ts:116-513 | After any batches, cut and sorted anyhow, every provider, deal and state change is stored as the fields of the events say, in the order of committing; the filters of the updates let through all fourteen registry and all seven market events, of their own contract only |
| `ProvidersAndDealsOrder.SortedBatchIsReplayIff` | src/po-rep-indexer/runners/abstract-po-rep-indexer.runner.ts:119-124 | One batch fetched in chain order and sorted anyhow: the transaction fails exactly when replaying the chain does, and stores what that stores exactly when the sort leaves the last value written into every overwritten column of every provider, capabilities row and deal the same |
| `ProvidersAndDealsOrder.SortedBatchesAreReplayIff` | src/po-rep-indexer/runners/abstract-po-rep-indexer.runner.ts:119-142 | The same for any number of batches: exactly when the last value written into every column is the same in the order of committing as in the chain |
| `ProvidersAndDealsOrder.PermutedBatchAgreesIff` | src/po-rep-indexer/runners/po-rep-providers-and-deals.runner.ts:116-129 | Two orders of the same logs are committed or refused together on every stored state, and leave the same tables exactly when they write the same values last; counters, keys and state-change rows never depend on the order |
| `ProvidersAndDealsOrder.EachKeepsLastWrites` | src/po-rep-indexer/runners/abstract-po-rep-indexer.runner.ts:119-124 | It is enough that the sort keeps the last writes of every batch |
| `ProvidersAndDealsOrder.UnpausedStoredAsPaused` | src/po-rep-indexer/runners/po-rep-providers-and-deals.runner.ts:449-458 | A pause and a later unpause in one batch, sorted the other way round: the transaction stores the provider as paused, replaying the chain as not paused |
| `ProvidersAndDealsOrder.WriteOrdersInOrder` | src/po-rep-indexer/runners/po-rep-providers-and-deals.runner.ts:116-129 | Batches cut from an ordered chain, sorted anyhow, are written in an order that again has creations before what needs them |
| `ProvidersAndDealsReplay.CommitAfterCleanup` | src/po-rep-indexer/runners/po-rep-providers-and-deals.runner.ts:105-114 | A batch committed with the cleanup gives what it gives on empty tables, whatever was stored |
| `ProvidersAndDealsIndexer.CleanupEmptiesTables` | src/po-rep-indexer/runners/po-rep-providers-and-deals.runner.ts:105-114 | The cleanup empties every table, and its deletion order never violates a foreign key |
| `ProvidersAndDealsTables.ExecuteKeepsReferences` | prisma/schema.prisma:711-778 | No operation that the database accepts leaves a capability, deal, requirement, term or state change whose provider or deal is not there |
| `ProvidersAndDealsIndexer.CreationsReplayRegistrations` | src/po-rep-indexer/runners/po-rep-providers-and-deals.runner.ts:131-165 | The two multi-row inserts succeed together exactly when the registrations can be replayed one at a time, with the same rows and defaults |
| `ProvidersAndDealsIndexer.UpdatesReplayRegistryLogs` | src/po-rep-indexer/runners/po-rep-providers-and-deals.runner.ts:167-232 | One update per provider and one per capabilities row, in whatever order the groups are listed, are the replay of the registry events, missing rows included |
| `ProvidersAndDealsIndexer.CreationsReplayProposals` | src/po-rep-indexer/runners/po-rep-providers-and-deals.runner.ts:234-303 | The three inserts for proposals succeed together exactly when the proposals can be replayed, with the terms read from the market contract |
| `ProvidersAndDealsIndexer.UpdatesReplayMarketLogs` | src/po-rep-indexer/runners/po-rep-providers-and-deals.runner.ts:305-382 | One update per deal together with the inserted state-change rows is the replay of the deal events, repeated states and unknown deals included |
| `ProvidersAndDealsIndexer.ProviderUpdateIsReplay` | src/po-rep-indexer/runners/po-rep-providers-and-deals.runner.ts:384-473 | The single update folded from a provider's logs, applied to any row, is applying the logs one at a time |
| `ProvidersAndDealsIndexer.DealUpdateIsReplay` | src/po-rep-indexer/runners/po-rep-providers-and-deals.runner.ts:475-513 | The same for a deal |
| `ProvidersAndDealsIndexer.LastCapabilitiesIsReplay` | src/po-rep-indexer/runners/po-rep-providers-and-deals.runner.ts:222-231 | Writing only the last capabilities of a group keeps all that replaying the group would keep |
| `ProvidersAndDealsIndexer.StateChangesSnoc` | src/po-rep-indexer/runners/po-rep-providers-and-deals.runner.ts:359-381 | One more state-change log adds its row, or makes the insert fail exactly when that deal already has that state |
| `GroupedUpdates.GroupedIsReplay` | src/po-rep-indexer/runners/po-rep-providers-and-deals.runner.ts:184-197 | One folded update per group, in any order of the groups, equals replaying the events on the table whenever folding a group equals replaying it on its row |
| `GroupedUpdates.ReplayTableRows` | src/po-rep-indexer/runners/po-rep-providers-and-deals.runner.ts:184-197 | Replay changes each row by its own events only, in their order |
| `GroupedUpdates.InsertRowsPermuted` | src/po-rep-indexer/runners/po-rep-providers-and-deals.runner.ts:270-302 | A multi-row insert succeeds or fails, and stores the same, in every order of its rows |
| `BigIntUpdates.MergeMeansSequence` | src/utils/prisma.ts:54-98 | However increments and decrements are bracketed, applying the merged update is applying them one after another |
| `BigIntUpdates.MergeIgnoresOrderAndBrackets` | src/utils/prisma.ts:54-98 | Any permutation and any bracketing of the same increments and decrements merge to the same update |
| `BigIntUpdates.MergeAllIsNet` | src/utils/prisma.ts:83-97 | A merged tree is the one increment or decrement by the net amount |
| `BigIntUpdates.MergeCounters` | src/utils/prisma.ts:70-98 | One merge of two counters never throws and writes the net amount as an increment, or as a decrement when it is negative |
| `BigIntUpdates.MergeFailsIff` | src/utils/prisma.ts:66-159 | A merge is refused exactly when two objects of operations are not all of the later one's leading family (additions before products before quotients) |
| `BigIntUpdates.MergeWrites` | src/utils/prisma.ts:66-159 | A merge that is not refused writes the net amount of additions, zero for products and quotients, and else the later update alone |
| `BigIntUpdates.LaterValueWins` | src/utils/prisma.ts:66-68 | A later plain value or set replaces whatever was pending |
| `BigIntUpdates.MergeKeepsAmountsNonNegative` | src/utils/prisma.ts:91-97 | Merging non-negative amounts leaves a single non-negative increment or decrement |
| `BigIntUpdates.MergedMultiplicationAgreesIff` | src/utils/prisma.ts:41-51 | Because products start from zero, a merged multiplication always writes zero; it agrees with multiplying twice exactly when the value or a factor is zero |
| `BigIntUpdates.MergedDivisionIsRefused` | src/utils/prisma.ts:129-156 | A merged division is always a division by zero, which the database refuses |
| `FilecoinPayReplay.BatchIsReplayButLockup` | src/po-rep-indexer/runners/filecoin-pay-indexer.runner.ts:71-131 | For every batch with rails created before their events: the transaction fails exactly when replay does, every column but the fixed lockup agrees, and a rail agrees wholly exactly when its logs in the batch keep the lockup it had |
| `FilecoinPayIndexer.LockupAgreesIff` | src/po-rep-indexer/runners/filecoin-pay-indexer.runner.ts:185-239 | For any logs and stored rail, the folded fixed lockup equals the replayed one exactly when there is no lockup event, or the last one overwrites, or the last is a one-time payment and the lockup events before it leave the stored value unchanged |
| `FilecoinPayIndexer.LockupAlwaysAgreesIff` | src/po-rep-indexer/runners/filecoin-pay-indexer.runner.ts:225-235 | The fold is right for every stored value exactly for batches whose last lockup event overwrites, or is a payment before which there are only payments of nothing |
| `FilecoinPayIndexer.FoldIsReplayButLockup` | src/po-rep-indexer/runners/filecoin-pay-indexer.runner.ts:185-239 | Folding a rail's logs into one update gives every other column the value replay gives |
| `FilecoinPayIndexer.LockupUnchangedIff` | src/po-rep-indexer/runners/filecoin-pay-indexer.runner.ts:225-235 | A run of events leaves every lockup unchanged exactly when its lockup events are payments of nothing |
| `FilecoinPayReplay.TwoPaymentsInOneBatch` | src/po-rep-indexer/runners/filecoin-pay-indexer.runner.ts:225-235 | Two payments of 10 from a lockup of 100 are stored as 90 in one batch, where replay and two batches give 80 |
| `FilecoinPayReplay.BatchesAreReplayButLockup` | src/po-rep-indexer/runners/filecoin-pay-indexer.runner.ts:71-131 | Cutting the logs into batches anywhere changes no column but the fixed lockup, and not even that when every batch is safe; a wrong lockup never spreads to another column |
| `FilecoinPayOrder.SortedRailBatchesAreReplayIff` | src/po-rep-indexer/runners/filecoin-pay-indexer.runner.ts:71-131 | Any number of batches cut from an ordered chain, each sorted anyhow: committed exactly when replaying the chain succeeds, with the same rails; a rail's columns agree exactly as far as their last writes do, its lockup is the balance of the one event a batch keeps where replay has the balance of all, and the rail is right exactly when both agree |
| `FilecoinPayOrder.StoredLockup` | src/po-rep-indexer/runners/filecoin-pay-indexer.runner.ts:225-235 | The stored lockup after any batches is what the kept events, at most one a batch, make of the lockup before |
| `FilecoinPayOrder.ReplayLockupIsBalance` | src/po-rep-indexer/runners/filecoin-pay-indexer.runner.ts:189-235 | A run of lockup events leaves the last overwritten value, or the stored one, less the payments since |
| `FilecoinPayOrder.PermutedRailsAgreeIff` | src/po-rep-indexer/runners/filecoin-pay-indexer.runner.ts:109-131 | Two orders of the same logs create the same rails, and agree on a rail but for its lockup exactly when they write the same values last |
| `FilecoinPayReplay.BatchEffect` | src/po-rep-indexer/runners/filecoin-pay-indexer.runner.ts:71-77 | What one transaction does for logs in any order: it fails exactly when a created rail repeats, skips rails that are not stored, and appends the batch's payments |
| `FilecoinPayReplay.BatchesKeepPayments` | src/po-rep-indexer/runners/filecoin-pay-indexer.runner.ts:133-183 | After any batches, each possible payment row is stored as often as there are logs that stand for it |
| `FilecoinPayReplay.PaymentsMatchAnyOrder` | src/po-rep-indexer/runners/filecoin-pay-indexer.runner.ts:133-183 | That correspondence holds for every arrangement of the indexed logs |
| `FilecoinPayReplay.PaymentsAreLogs` | src/po-rep-indexer/runners/filecoin-pay-indexer.runner.ts:133-183 | Such rows are a rearrangement of the logs' rows, and every amount sums to the same |
| `FilecoinPayReplay.OneTimePaymentsAddUp` | src/po-rep-indexer/runners/filecoin-pay-indexer.runner.ts:138-154 | Every stored one-time payment's total is its net amount plus network fee plus commission |
| `FilecoinPayContents.BatchesHold` | src/po-rep-indexer/runners/filecoin-pay-indexer.runner.ts:71-239 | After any batches, cut and sorted anyhow, every rail holds what its creation says and what the events since say, told by their fields |
| `FilecoinPayContents.PaymentsAreEvents` | src/po-rep-indexer/runners/filecoin-pay-indexer.runner.ts:133-183 | A settlement is stored with its settled total and net payee amount, a one-time payment with the sum of its parts: each row as often as there are events with exactly its rail, kind, block and amounts, and every amount adds up per rail and kind |
| `FilecoinPayContents.FoldWritesLast` | src/po-rep-indexer/runners/filecoin-pay-indexer.runner.ts:185-239 | The update folded from a rail's logs writes the last value of each column, and only the last change of the fixed lockup |
| `FilecoinPayReplay.CommitAfterCleanup` | src/po-rep-indexer/runners/filecoin-pay-indexer.runner.ts:64-69 | A batch committed with the cleanup gives what it gives on empty tables |
| `AggregationTasks.RunAggregations` | src/aggregation/aggregation-tasks.service.ts:102-184 | For any runners and any pattern of failures: at most as many passes as runners, every runner executed at most as often as it is listed, each after its dependencies were filled by earlier ones and after at most three attempts; without an error nothing that could start is left; with one, the failed runner had three failures and the filled tables are those of the runners that completed |
| `AggregationTasks.ExecuteWithRetries` | src/aggregation/aggregation-tasks.service.ts:186-212 | One to three calls, all but the last failing, ending in a success or in the third failure |
| `AggregationTasks.RunPass` | src/aggregation/aggregation-tasks.service.ts:110-174 | One pass over the list keeps the job's promises, and a pass that executes nothing leaves no pending runner that could start |
| `AggregationTasks.RunOne` | src/aggregation/aggregation-tasks.service.ts:129-172 | Starting a runner either completes it, fills its tables and removes it, or ends the job with everything else unchanged |
| `AggregationTasks.ExecutedIsLeastFixpoint` | src/aggregation/aggregation-tasks.service.ts:109-183 | With nothing left to start, the executed runners are the least set closed under 'all tables it depends on are filled by a member' |
| `AggregationTasks.ExecutedIgnoresListOrder` | src/aggregation/aggregation-tasks.service.ts:112-117 | Two complete jobs over rearrangements of one list execute the same runners |
| `AggregationTasks.DependenciesAreFirst` | src/aggregation/aggregation-tasks.service.ts:113-117 | Each executed runner's dependencies are among the tables filled by the runners executed before it |
| `AggregationTasks.ThrowsIffThreeFailures` | src/aggregation/aggregation-tasks.service.ts:152-156 | A job throws exactly when one of the runners it started failed three times |
| `AggregationTasks.AggregationTasksService.RunAggregationJob` | src/aggregation/aggregation-tasks.service.ts:67-100 | A tick during a job changes nothing; any other releases the guard and reports healthy exactly when nothing threw, even if impossible dependencies kept runners from starting |
| `Cacheable.CalledAtMostOnce` | src/utils/cacheable.ts:56-87 | Under every interleaving of the callers of one key, if the method yields a value and the entry does not expire, the method is called at most once and every finished caller returned the value that call resolved with, although the mutex leaves the map while others wait on it |
| `Cacheable.FinishedWasTold` | src/utils/cacheable.ts:60-87 | Whatever the environment does, a caller that returns a result returns one that a call of the method resolved with, and one that fails met the failure itself |
| `Cacheable.ThrowReleases` | src/utils/cacheable.ts:84-87 | A throw, of the method or of storing its result, leaves the cache alone, fails its caller and hands the mutex on |
| `Cacheable.AtMostOneIff` | src/utils/cacheable.ts:56-87 | At most one caller has the method under way, and it is called at most once, in all runs that an environment allows, exactly when that environment admits no throw, no null result and no expiry |
| `Cacheable.SomeoneCanGoOn` | src/utils/cacheable.ts:58-87 | No deadlock: while a caller has not finished, the holder of its mutex can take a step |
| `Cacheable.NextKeepsLocks` | src/utils/cacheable.ts:20-25 | Whatever happens, failures and expiry included, every queue holds unfinished callers once each, and only the head of a queue is past waiting |
| `Cacheable.NextKeepsInv` | src/utils/cacheable.ts:56-87 | Each step keeps: before the value is cached all callers queue for one mutex and only its holder computes; afterwards nobody does |
| `Cacheable.TwoComputeAfter` | src/utils/cacheable.ts:84-87 | After a throw, after a null result and after an expiry alike, a run in which two callers compute at once and the method is called three times |
| `Cacheable.CachedMethod.AcquireMutex` | src/utils/cacheable.ts:20-25 | Finding or creating the key's mutex and queueing for it is the model's arrival step |
| `Cacheable.CachedMethod.ReadCache` | src/utils/cacheable.ts:61-61 | The holder's read of the cache is the model's step |
| `Cacheable.CachedMethod.UseOrCompute` | src/utils/cacheable.ts:63-70 | A hit leaves without a call, a miss makes exactly one |
| `Cacheable.CachedMethod.Settle` | src/utils/cacheable.ts:70-76 | A result waits to be stored, an error leaves at once |
| `Cacheable.CachedMethod.StoreResult` | src/utils/cacheable.ts:76-83 | The result is cached and becomes the caller's outcome |
| `Cacheable.CachedMethod.ReleaseMutex` | src/utils/cacheable.ts:84-87 | Release hands the mutex on and deletes the key's entry, whichever mutex it names |
| `AllocatorHistory.GetAllocationsByAllocator` | src/service/allocator/allocator.service.ts:1250-1313 | For all rows the loop ends. With empty periods, week dates step by seven days from the first Monday, month dates through every start of a month from the first one, up to the first date not before the last row. For week-sorted rows every entry has the figures of its rows: totals and clients up to its date, new clients and allocations since the entry before |
| `AllocatorEntries.EntriesHaveAllDates` | src/service/allocator/allocator.service.ts:1236-1306 | With empty periods the dates start at the first Monday or start of a month (or the row's own date on a first) and leave none out: seven days later, or the next start of a month with none in between; only the last date covers all rows |
| `AllocatorEntries.EntriesSay` | src/service/allocator/allocator.service.ts:1250-1313 | For week-sorted rows, with or without empty periods: each entry's total, each listed client's total, the clients listed once, those new since the entry before, and the allocations since it, one a row, are those of the rows |
| `AllocatorEntries.EntriesAreCumulative` | src/service/allocator/allocator.service.ts:1250-1313 | For week-sorted rows, each entry's total is the sum of exactly the rows not later than its date and the sum of its clients' totals, and dates strictly increase |
| `AllocatorEntries.EntriesAccountForEveryRow` | src/service/allocator/allocator.service.ts:1257-1313 | With or without empty periods, the new allocations laid end to end are the input rows, and the new clients laid end to end are all clients, each once |
| `AllocatorEntries.WithoutEmptyIsFiltered` | src/service/allocator/allocator.service.ts:1257-1258 | Leaving empty periods out is filtering the full result to the entries that have allocations |
| `AllocatorEntries.PeriodsAreConsecutive` | src/service/allocator/allocator.service.ts:1278-1308 | Periods follow each other without gap from the first row to the last, with growing dates, each holding exactly the rows up to its date |
| `AllocatorEntries.WeeksStartOnMonday` | src/service/allocator/allocator.service.ts:1236-1241 | The first week's date is the first Monday within seven days at the same time of day, and stepping a week stays on Mondays |
| `AllocatorHistory.UpdateResult` | src/service/allocator/allocator.service.ts:1257-1276 | Appends the entry of the finished period, or nothing for an empty one that is not wanted |
| `AllocatorHistory.AccumulateRow` | src/service/allocator/allocator.service.ts:1279-1295 | One more row keeps the running sum, the client lists, the totals per client and the period's allocations equal to what the rows so far say |
| `WeeklyAccSync.MergeReplacesTheWeek` | src/aggregation/runners/client-provider-distribution-weekly-acc.runner.ts:80-98 | The three-clause MERGE is replacing exactly that week's rows by the staged ones |
| `WeeklyAccSync.CompleteRunIsExact` | src/aggregation/runners/client-provider-distribution-weekly-acc.runner.ts:25-103 | After any history of runs, interrupted between weeks or not, a run that completes leaves in each week from the first to the current one exactly the source's rows, and nothing elsewhere |
| `WeeklyAccSync.RunKeepsUpToDate` | src/aggregation/runners/client-provider-distribution-weekly-acc.runner.ts:25-103 | Any run, complete or not, leaves all weeks before the next resume week equal to the source |
| `WeeklyAccSync.RunsKeepUpToDate` | src/aggregation/runners/client-provider-distribution-weekly-acc.runner.ts:25-103 | The same after any number of runs |
| `WeeklyAccSync.ClientProviderDistributionWeeklyAccRunner.Run` | src/aggregation/runners/client-provider-distribution-weekly-acc.runner.ts:25-103 | The weeks done are those from the resume week up to where the run stopped, without a gap; each holds the source's rows and all other weeks are untouched |
| `WeeklyAccSync.ClientProviderDistributionWeeklyAccRunner.SyncWeek` | src/aggregation/runners/client-provider-distribution-weekly-acc.runner.ts:60-99 | Succeeds exactly for rows of distinct client and provider; then the week holds exactly those rows and every other week what it held; otherwise nothing changes |
| `WeeklyAccSync.StagedAreRows` | src/aggregation/runners/client-provider-distribution-weekly-acc.runner.ts:60-78 | Staging succeeds exactly for rows with distinct keys, and then holds exactly them |
| `WeeklyAccSync.ClientProviderDistributionWeeklyAccRunner.LatestStored` | src/aggregation/runners/client-provider-distribution-weekly-acc.runner.ts:25-37 | The resume week is the latest stored one, or the very first when nothing is stored |
| `PoRepHistory.HistoryAddsUp` | src/service/po-rep/po-rep.service.ts:464-510 | Although every step rounds the rounded total again, each cumulative total is exactly the sum of the displayed volumes so far, never falls, and stays within half a cent per entry of what all base units so far are worth, token by token; each displayed volume is the window's worth to the nearest cent |
| `PoRepHistory.VolumeIsWorth` | src/service/po-rep/po-rep.service.ts:471-493 | A window's volume exists exactly when every row's token has decimals and a rate other than zero, and is the sum over the tokens of all their base units times the rate over ten to the decimals |
| `PoRepHistory.VolumeIgnoresOrder` | src/service/po-rep/po-rep.service.ts:471-493 | Neither the order of a window's rows nor that of the tokens matters |
| `PoRepHistory.HistoryFailsIff` | src/service/po-rep/po-rep.service.ts:471-483 | The history fails exactly when a row's token, in any window, lacks decimals or a rate other than zero |
| `PoRepHistory.RoundingAddsUp` | src/service/po-rep/po-rep.service.ts:495-507 | Rounding a rounded total plus a non-negative volume is adding the rounded volume |
| `PoRepHistory.RoundingNeedsNonNegativeVolumes` | src/service/po-rep/po-rep.service.ts:502-506 | A negative volume for which that fails |
| `HistogramHelper.ReturnedWeeksTileRange` | src/service/histogram-helper/histogram-helper.service.ts:14-52 | For rows on one grid, every returned week has the whole grid of buckets, the same in every week, adjacent buckets meeting from the low end to the top; its counts add up to its total, and counts and datacap are those of its rows; weeks come in order |
| `HistogramWeeks.ReturnedWeeksAreRows` | src/service/histogram-helper/histogram-helper.service.ts:14-73 | For all rows that can be completed: exactly their weeks are returned, each once and in order, without the last one while it is not over unless it is wanted; each holds its rows' buckets and total, and one empty bucket for every step of the range that has none; the range ends at the given or else the greatest top, in steps as wide as a bucket with the latter |
| `HistogramHelper.CompletedTilesRange` | src/service/histogram-helper/histogram-helper.service.ts:92-109 | The same for one week: completing adds only empty buckets, and loses nothing |
| `HistogramHelper.CompletedKeepsBuckets` | src/service/histogram-helper/histogram-helper.service.ts:92-109 | For any week, on a grid or not, completing keeps every bucket, the total, the sum of counts and the sum of datacap |
| `HistogramHelper.CompletedIsOnGrid` | src/service/histogram-helper/histogram-helper.service.ts:92-109 | A week on the grid stays strictly ascending on it and gains every missing top |
| `HistogramHelper.SpanIsGridSpan` | src/service/histogram-helper/histogram-helper.service.ts:114-130 | On a grid, the span read off the bucket with the greatest top is the grid's |
| `HistogramHelper.SortSorts` | src/service/histogram-helper/histogram-helper.service.ts:105-107 | Sorting orders by key and keeps every element |
| `HistogramHelper.SortIsStable` | src/service/histogram-helper/histogram-helper.service.ts:74-76 | Weeks or buckets with equal keys keep their order |
| `HistogramHelper.GetAllBucketsTopValues` | src/service/histogram-helper/histogram-helper.service.ts:132-158 | Watched for any number of steps, the loop has either collected all tops above the low end, from the range's top downwards, or is still running |
| `HistogramHelper.LoopEndsIff` | src/service/histogram-helper/histogram-helper.service.ts:152-155 | The loop ends exactly when its step is positive or there is nothing to step through |
| `HistogramHelper.CompletionEndsIff` | src/service/histogram-helper/histogram-helper.service.ts:79-112 | Completion ends exactly for weeks whose span is positive or whose range is empty, and then has completed them all |
| `HistogramHelper.WithMissingBuckets` | src/service/histogram-helper/histogram-helper.service.ts:79-112 | All weeks are completed, each on its own, with the tops and the span of the whole set, unless the collection of the tops is still running |
| `HistogramHelper.GetWeeklyHistogramResult` | src/service/histogram-helper/histogram-helper.service.ts:14-52 | For all rows: a result, if there is one yet, is the rows grouped by week, completed, sorted by week, without the current week unless it is wanted |

## Left out

- Fetching logs over RPC, Prisma, SQL generation, logging, metrics, timers and the sleep between retries: logs come from an abstract chain, a transaction is one atomic step.
- A transaction whose commit succeeds while the client sees an error, and several processes on one database: a failure in the model writes nothing, and one process runs at a time.
- A node that answers an empty block range with an error: in the model an empty range has no logs.
- Reorganisations of the chain; the choice between archive and recent node; token metadata look-ups.
- Head block and last run, awaited together, are read in one step.
- Contract addresses are one of the two known contracts; other addresses are not among the fetched logs.
- The terms of all deals, read from the market contract, are a constant of the run: the source relies on their not changing.
- The order of `Object.entries` is any enumeration of the groups, not numeric order.
- 64-bit and decimal column widths: all quantities are unbounded integers, and a 64-bit overflow, which the database would refuse, is not modelled.
- Numbers mixed with bigints in `src/utils/prisma.ts`: all amounts are integers.
- `@Cacheable` for several keys: keys do not interact, so one key is modelled; key hashing is left out, and a time to live is an expiry that may happen at any moment.
- Payment rows have no surrogate key in the model; they are compared as a multiset.
- The name of a client in an allocation entry is looked up elsewhere and does not take part.
- The client set and the per-client record of the allocation loop are a list without repetition and a map; the loop's accumulators are one record value.
- The calendar is abstract: it names the day of the month of every moment, and the next start of a month is the first midnight after it that falls on a first.
- Weeks of the synchronisation are counted integers; time zones and the alignment of the first week are not modelled.
- NULL in the MERGE comparison: the columns are not nullable.
- 20-digit `Decimal` precision and the conversion to doubles: amounts are reals, only the rounding to hundredths is kept.
- `getDealsValueHistory` repeats the fold of the payments history and is not modelled twice.
- HistogramHelper.GetAllBucketsTopValues: requires a bucket when there are weeks, as grouped weeks always have; `patience` bounds how long the loop is watched; a low end given as null is not modelled, and bucket values are integers.
- HistogramHelper.WithMissingBuckets: the same precondition; weeks are completed in place in a sequence, so aliasing between weeks is not modelled.
- HistogramHelper.GetWeeklyHistogramResult: the order of `groupBy` keys is order of first appearance.
- IndexerExecution.Runner.Execute: the awaits of one call and the interleaving of several are in `IndexerRuns`; here the head stays fixed during catching up.
- AggregationTasks.RunAggregations: a runner's own effects on its tables are not modelled, only whether each call succeeds.
- Report checks, compliance scores, controllers, name and URL look-ups, and the runners that delete and recreate a table.
