# Beacon-chain indexer: the bookkeeping of slots

The indexer stores what a beacon node says about each slot in Postgres tables, and keeps two work tables:
`known_gaps` for slots it owes and `historic_process` for ranges it was asked to load. Its promise is that there
are no undetected gaps. Several activities share these tables: a head tracker that starts one task per head
message, a handler for `chain_reorg` events, and batch pipelines that check out work rows, spread their slots over
workers, book the errors and remove finished rows. This project models that bookkeeping and proves what it keeps:
which slots are stored, which are owed, which fork of a slot is canonical.

`dafny verify dfyconfig.toml` checks everything.

## How it is laid out

| file | content |
|---|---|
| `Machine.dfy` | uint64 slots, 64-bit int products and sums with their wrap-around |
| `Tables.dfy` | the six tables as maps, keyed by their `ON CONFLICT` columns; referential integrity |
| `KnownGaps.dfy` | how a gap is cut into rows: machine arithmetic, exact arithmetic, coverage, gaps whose start lies beyond their end |
| `Reorgs.dfy` | one reorg transaction and the algebra of many |
| `SlotWrite.dfy` | what one attempt at a slot does under faults; the CheckDb shortcut |
| `SlotEffects.dfy` | what an attempt leaves in the tables, said of its arguments, the reply and the tables before it alone |
| `HistoricOrder.dfy` | order and repeats of historic slots processed one after another, with and without the CheckDb shortcut |
| `WorkQueue.dfy` | eligibility, locking and releasing of work rows |
| `StartUpGap.dfy` | the gap recorded at every start |
| `Pipeline.dfy` | one batch pipeline as a step relation, and why every step is sound |
| `Indexer.dfy` | everything together on shared tables: runs, the invariant, the main promises |
| `EventEffects.dfy` | what each event of a run does to the tables, the work rows and the head tracker, and what it leaves alone |
| `Checkouts.dfy` | exclusive checkout over whole runs, and which rows are never retried |
| `Canonical.dfy` | at most one proposed row per slot over whole runs |
| `Runs.dfy` | joining stretches of runs |
| `RunOrder.dfy` | whole runs of interleaved workers leave what the finished slots, taken one by one, leave |
| `OneByOne.dfy` | every sequence of slots is finished by some run; hence exactly when the interleaving matters |
| `CrashSafety.dfy` | exactly which work rows are ever removed, and which of them a crash at their removal can hurt |
| `Progress.dfy` | pipelines come to rest: bounded work between check-outs, no deadlock |
| `Restarts.dfy` | any number of sessions one after another, with pipelines beside the head tracker |
| `PipelinedSessions.dfy` | conditions on the inputs alone under which no pipeline gets ahead of the head tracker |
| `Reachable.dfy` | integrity and the CheckDb shortcut in every reachable state |
| `Uninterrupted.dfy` | the machine's steps, taken in a row, are the calls the code makes; how errors are booked |
| `Witnesses.dfy` | a concrete run in which the start-up gap is never written |
| `DatabaseWrite.dfy`, `SlotProcessing.dfy`, `BatchProcess.dfy`, `HeadTracking.dfy` | the imperative code itself as classes and methods with loops, proved to do exactly what the functions above say |

The functions say what a call does to the tables. The methods are the program's own statements, branches and loops,
take a fault of their own for every transaction, look-up or pass, and are proved equal to the functions for all of
them. The state machine of `Pipeline.dfy` and `Indexer.dfy` is built from the same functions. The theorems of
`Indexer`, `EventEffects`, `Checkouts`, `Reachable`, `RunOrder`, `CrashSafety` and `Progress` are about its runs, those
of `Canonical` and `Restarts` about runs with the restrictions named in their rows. `SlotEffects` and `EventEffects` say
what the functions do without naming them: of the inputs, and of the rows before and after.

## Modelling decisions

- A transaction is a private copy of the tables that is committed or dropped, and takes effect at its commit
  (serializable). A failed statement aborts its transaction, so the faults of one transaction are one number: how
  many statements succeed before one fails. Where the code calls `log.Fatal`, or uses a transaction that never
  began, the process ends (`Fatal`); a run has no further events of that process, and the method contracts say
  exactly when it happens.
- The CheckDb test is a separate, earlier step from the transaction, so other activities come in between. A send on
  an unbuffered channel and its receive are one step. A query of a remover that fails blocks that remover for good
  in the code; here it simply takes no further step.
- Runs hold any number of pipelines over both work tables and any node identifiers, pipelines joining at any time
  (each with its lock release, which may fail), rows inserted from outside, head messages good and bad, reorg events
  with any slot (the code goes on with a slot it could not parse), and the steps of all head tasks, interleaved
  freely. They are not cancelled. Every node has a configuration of its own, and so has the head tracker. A pipeline that joins under the node identifier of an earlier one does not end the
  earlier one: its workers and error handler stay, and if they take no further step the slots they hold count as "in
  hand" for ever. `Indexer.NoSlotIsLost` counts such slots; `Indexer.NoSlotIsLostAtRest` does not allow them.
- The theorems over runs assume that everyone has block or state processing on: with both off and CheckDb on, an attempt
  reports success without writing anything. `SlotWrite.AttemptAccountsForSlot` states that exactly.
- Roots, bytes and messages are compared and tested for emptiness only. The multihash key of a root is a
  constructor, hence injective. The two work tables share a row type; priority is counted from the column's
  default, which the repository does not show. The key of `historic_process` is taken to be its two slots.
- The increment is any nonzero 64-bit int; with zero the program divides by zero.

## What the proofs found

- The comment on `transactKnownGaps` (pkg/beaconclient/databasewrite.go:433-435) describes disjoint chunks; the code
  makes chunks that share their end slots. The model follows the code.
- The chunk counter is an int computed from a uint64. From 2^63 rows on it is not positive and the gap is dropped
  without a row; the rows cover the gap exactly when it fits.
- A first head at slot 0 wraps the start-up gap to the end of the slot range. On an empty database a first head at
  slot 1 leaves slot 0 unrecorded.
- The start-up gap is measured by a query that the task for the first head makes; a later head whose task commits
  before that query hides the whole gap.
- The CheckDb shortcut differs from the full write exactly when only states are processed and the slot has a state
  row under the empty root without a slots row under it. A head message with a block root and no state root makes
  such rows.
- With only state processing on, all states go under the empty root's multihash key, so the first one stored
  wins and the final tables depend on the order.
- A second root for a slot leaves one proposed row exactly when the fork branch runs.
- Workers may interleave in any way, fail, repeat slots and use the CheckDb shortcut: the stored tables depend on the
  set of finished slots alone if and only if equal roots carry equal bytes (or the set cannot be finished at all).
- With CheckDb on and only states processed, a slot that starts with a state row under the empty root and no slots row
  under it is finished again and again without ever getting that row. For all other slots, and whenever blocks are
  processed, CheckDb makes no difference to what a run leaves.
- A work row is removed when its two end slots are stored. However many workers the pipelines have, some run removes
  any row of three or more slots that ends below 2^64-1 while an inner slot is with a worker or the error handler only,
  so a crash at that moment loses it; rows of one or two slots are safe. With a gap increment of 1 a crash at any moment
  loses nothing.
- A range of more than one slot that ends at 2^64-1 never leaves the distributor's loop; all others do. Such a row and a
  reversed row, once in a work table, stay there for ever.
- A dispatched row whose ends are not both stored stays locked until its node restarts. So a `known_gaps` row of one
  slot that failed is not retried before that, and the raised priority has no effect in the meantime.
- A good head at or below the previous one, for example another fork of the same slot, that follows a bad message makes
  the gap run from the previous head past 2^64-1 round to its own slot: with an ordinary increment nearly every
  future slot becomes a known gap.
- The counter of bad head messages is not reset by the first good head, nor by one that follows a head at slot 0, so
  it may count bad messages from before the previous good head.

## Model

| member | source | states |
|---|---|---|
| Machine.PlusIntIsModular | pkg/beaconclient/consensus.go:37-43 | A slot plus an int product that overflowed is still the exact sum modulo 2^64, for every increment and counter. |
| KnownGaps.MachineRefinesExact | pkg/beaconclient/databasewrite.go:443-468 | For a well-ordered gap whose chunk counter fits an int, the wrapping loop builds max(1, ceil((end-start)/increment)) rows and each bound equals its unbounded value. |
| KnownGaps.CounterOverflowRecordsNothing | pkg/beaconclient/databasewrite.go:455-461 | If the counter does not fit, it comes out non-positive and not one row is built: the gap is silently dropped. |
| KnownGaps.ChunkRowsCoverExactly | pkg/beaconclient/databasewrite.go:436-480 | The rows hold exactly [start,end], a shared inner boundary in two rows and every other slot in one; each spans at most the increment; starts and ends strictly ascend, so keys are distinct. |
| KnownGaps.GapRecordedIffCountFits | pkg/beaconclient/databasewrite.go:436-480 | The rows reach exactly the gap's slots if and only if ceil((end-start)/increment) < 2^63. |
| KnownGaps.WrappedGapReaches | pkg/beaconclient/databasewrite.go:436-480 | A gap whose start lies beyond its end, of more than one row and with a fitting counter: its rows hold exactly the slots of the whole rows before the wrap and of the rows after it; the one row that straddles 2^64-1 is reversed and holds nothing. |
| KnownGaps.WrappedGapRecordsIff | pkg/beaconclient/databasewrite.go:436-480 | Such a gap records something if and only if it takes more than one row and its counter fits. |
| KnownGaps.CounterCanOverflow | pkg/beaconclient/databasewrite.go:455-461 | A concrete gap (0 to 2^64-1, increment 1) for which nothing is recorded. |
| KnownGaps.CountFitsFromThree | pkg/beaconclient/databasewrite.go:455-459 | Any increment whose uint64 value is at least 3 never overflows the counter. |
| KnownGaps.InsertGapsIsUnion | pkg/beaconclient/databasewrite.go:503-518 | Upserting the rows one by one adds exactly the missing keys with the new row and leaves every existing row as it was. |
| KnownGaps.RecordedGapCovers | pkg/beaconclient/databasewrite.go:436-480 | Recording a gap whose counter fits makes covered exactly what was covered before plus the gap's own slots. |
| KnownGaps.SingleSlotGap | pkg/beaconclient/databasewrite.go:443-452 | A [slot,slot] gap is one row for every increment, also negative ones. |
| Reorgs.ReorgReforks | pkg/beaconclient/databasewrite.go:344-381 | A fault-free reorg in one equation: the named row proposed, its rivals forked, other slots untouched, and a [slot,slot] gap exactly when the named row is absent. |
| Reorgs.AtMostOneRowProposed | pkg/beaconclient/databasewrite.go:366-375 | The proposed update touches one row or none, so the branch for too many rows cannot be reached. |
| Reorgs.StatusByLastEvent | pkg/beaconclient/databasewrite.go:344-381 | After any sequence of reorgs each row's status is decided by the last event naming its slot, and nothing else about the row changes. |
| Reorgs.ReorgsOnlyAddGaps | pkg/beaconclient/databasewrite.go:344-381 | Any sequence of reorgs changes statuses and adds gaps, and keeps every gap row unchanged. |
| Reorgs.AbsentRootsAreRecorded | pkg/beaconclient/databasewrite.go:375-377 | The gaps added by a sequence of reorgs are exactly the [slot,slot] rows of events whose root is not in the table. |
| Reorgs.ReorgsCommute | pkg/beaconclient/databasewrite.go:344-381 | Events on different slots commute in every table. |
| Reorgs.ReorgRepeats | pkg/beaconclient/databasewrite.go:344-381 | Repeating an event changes nothing. |
| SlotWrite.CheckPreviousFrame | pkg/beaconclient/processslot.go:374-407 | The fork and jump check changes statuses and gaps only; no slots key, block, state or byte is touched. |
| SlotWrite.CommitKeepsIntegrity | pkg/beaconclient/databasewrite.go:192-340 | A commit keeps referential integrity (block rows have their slots row, state rows a slots row of their slot, both resolve in public.blocks), keeps all slots rows and adds its own. |
| SlotWrite.StoredImpliesKnown | pkg/beaconclient/processslot.go:199-222 | "Slot already in the DB" is true: some slots row is for the slot. |
| SlotWrite.AttemptIsAtomic | pkg/beaconclient/processslot.go:114-279 | With a fault at any statement: no success, no change; any change is the whole commit of slot, block, state, statuses and jump gaps; success of an uncancelled attempt with some processing on means the slot is in the slots table. |
| SlotWrite.AttemptAccountsForSlot | pkg/beaconclient/processslot.go:282-293 | An attempt with its caller's error handling that does not end the process leaves the slot stored or as a [slot,slot] gap, if and only if it was so before, or it was neither cancelled nor run with CheckDb on and both processing flags off. |
| SlotWrite.StoredWriteIsNoOp | pkg/beaconclient/processslot.go:226-266 | Writing a historic slot whose slots, block and state rows are all there changes nothing. |
| SlotWrite.CheckDbRefinesFullWrite | pkg/beaconclient/processslot.go:199-247 | For any tables with integrity, a historic attempt leaves the same result with the shortcut as without it if and only if blocks are processed too or a bare state row for the slot comes with a bare slots row. |
| SlotWrite.CommitKeepsBareStates | pkg/beaconclient/processslot.go:437-477 | That condition is kept by the commit of every job except one of a head message with a block root but an empty state root while blocks are not fetched. |
| SlotWrite.BareStateHeadBreaksShortcut | pkg/beaconclient/processslot.go:199-222 | Such a head message really leads to tables on which shortcut and full write differ. |
| SlotEffects.HistoricBlockIsStored | pkg/beaconclient/processslot.go:410-494 | A successful historic attempt with something to write and a block in the reply: the slots row under the block's own root (epoch slot/32, the block's state root, proposed), the signed_block row with its parent, eth1 hash and nonzero payload, the state row under its state root, and both byte strings under the keys of these roots; rows that were there win, and nothing else changes. |
| SlotEffects.HeadBlockIsStored | pkg/beaconclient/processslot.go:410-494 | The same for a head, under the message's block and state root; its new row ends proposed, and no row changes but for its status. |
| SlotEffects.SkippedSlotIsStored | pkg/beaconclient/processslot.go:315-323 | A 404 or unusual success leaves one skipped slots row under the empty root and nothing else. |
| SlotEffects.BareSlotIsStored | pkg/beaconclient/processslot.go:437-477 | With block processing off: the slots row and the state under the roots of the call, which are empty for historic slots, and nothing else. |
| SlotEffects.StoredBlockIsLeftAlone | pkg/beaconclient/processslot.go:199-222 | With CheckDb on, a slot whose block and state rows, as far as they are asked for, are there under these roots is left alone. |
| SlotEffects.FailuresAreNamed | pkg/beaconclient/processslot.go:114-279 | Which error an attempt reports, for every reply and fault: an unusable reply or a failing statement of the slot's own rows, a failing CheckDb query, or a commit that would have succeeded; a failure changes nothing; with a begun transaction the process ends only in the check of the previous slot. |
| SlotEffects.LinkByFields | pkg/beaconclient/processslot.go:374-407 | What the check of the previous slot finds, by the two slots, the previous root and the block's parent alone. |
| SlotEffects.SkippedSlotsAreRecorded | pkg/beaconclient/processslot.go:392-397 | A head with a block that skips slots, the previous head being known: exactly the slots strictly between become covered, by fresh "headGaps" rows, if the chunk counter fits; no status changes. |
| SlotEffects.UnknownParentReforksPrevious | pkg/beaconclient/processslot.go:398-403 | A head one slot on whose block names another parent than the previous root: that root becomes the previous slot's one proposed row and its rivals forked, or a [previous,previous] "reorg" gap is recorded if it is absent. |
| SlotEffects.AdjacentHeadSettlesNothing | pkg/beaconclient/processslot.go:404-406 | If the parent is the previous root, neither a status nor a gap changes. |
| SlotEffects.SameSlotReforks | pkg/beaconclient/processslot.go:381-386 | A second head for the slot becomes its proposed row, the others are forked. |
| SlotEffects.NotChecked | pkg/beaconclient/processslot.go:256-258 | No check, hence no status or gap changed, for historic slots, skipped ones, ones without a block, and heads without a known previous slot and root. |
| HistoricOrder.FullSlotMerges | pkg/beaconclient/databasewrite.go:192-340 | The slot transaction is a merge of the slot's own rows into the tables in which existing rows win. |
| HistoricOrder.SameSetSameTables | pkg/beaconclient/processslot.go:296-299 | Fault-free attempts one after another with CheckDb off: from any tables, two sequences over the same set of slots, in any order and with any repeats, leave the same tables, if equal roots carry equal bytes. (RunOrder.FinishedSetDecides is the same for interleaved workers, faults and CheckDb.) |
| HistoricOrder.OrderIrrelevantIff | pkg/beaconclient/databasewrite.go:30-50 | For such sequences the result depends only on the set of slots if and only if equal roots carry equal bytes among the node's replies. (OneByOne.InterleavingIrrelevantIff is the same for runs.) |
| HistoricOrder.StatesOnlyDependsOnOrder | pkg/beaconclient/processslot.go:437-477 | With block processing off every state is filed under the empty root's key, so any two slots with different states make the result depend on the order. |
| HistoricOrder.HistoricSkipsBlind | pkg/beaconclient/processslot.go:199-247 | From any tables with integrity, fault-free attempts with the shortcut leave what the same attempts without it leave, once the slots are dropped that a bare state row without a bare slots row makes the shortcut take for stored; which slots these are never changes. |
| HistoricOrder.HistoricIgnoresCheckDbIff | pkg/beaconclient/processslot.go:199-247 | A sequence of attempts leaves the same tables with the shortcut as without if and only if blocks are processed or no slot of it with a usable reply has such a row at the start. |
| RunOrder.RunIsHistoric | pkg/beaconclient/processhistoric.go:100-120 | At every moment of every run of batch processing by nodes with one configuration, with any pipelines, workers, faults and interleaving, the stored tables are those that the slots finished so far, processed one after another in the order they finished without CheckDb, would leave; with CheckDb on and only states processed the slots are left out that start with a bare state row and no bare slots row. Commits by others between a CheckDb test and its write are included. |
| RunOrder.FinishedSetDecidesIff | pkg/beaconclient/processslot.go:296-299 | Two such runs from the same stored tables, with different pipes, rows, faults or CheckDb settings, that finished the same set of slots, with equal roots carrying equal bytes, end with equal slots, blocks, states and bytes if and only if CheckDb is set alike, or blocks are processed, or no finished slot starts with a bare state row without a bare slots row. |
| OneByOne.AnySequenceIsFinished | pkg/beaconclient/capturehistoric.go:93-179 | Any sequence of slots the node answers for, repeats included, is finished in exactly this order by some run of the pipeline's own steps from empty tables. |
| OneByOne.InterleavingIrrelevantIff | pkg/beaconclient/databasewrite.go:192-340 | With all nodes configured alike, all runs that finish a given set of slots from the same tables, whatever these are, leave the same tables if and only if equal roots carry equal bytes among the node's replies for them, or some slot of the set has no usable reply, so that no run finishes it. |
| WorkQueue.ReleaseFreesOwnRows | pkg/beaconclient/processhistoric.go:49-51 | A release makes eligible exactly the node's own rows on top of the free ones, leaves every other row alone and keeps locks and owners paired. |
| Pipeline.AdvanceHandsOut | pkg/beaconclient/capturehistoric.go:132-141 | The distributor's loop variable moves by one, stays in its range, and a range is finished only after its last slot was sent. |
| Pipeline.StepsSendTheRange | pkg/beaconclient/capturehistoric.go:132-141 | A range that does not reach 2^64-1, or is one slot, is sent slot by slot in ascending order by the pipeline's distributor steps, which then finish. |
| Pipeline.SendingEndsIff | pkg/beaconclient/capturehistoric.go:132-141 | The distributor finishes a well-ordered range if and only if it is one slot or ends below 2^64-1. |
| Pipeline.CommitKeepsRows | pkg/beaconclient/databasewrite.go:192-340 | No slot commit, fork or jump check included, removes or rewrites a work row. |
| Pipeline.SettledErrorIsAccounted | pkg/beaconclient/processknowngaps.go:98-118 | Whatever the error handler ends up doing, also after a failed look-up or update, the failed slot is stored or has its [slot,slot] row and no row is gone. |
| Pipeline.DeleteIsSound | pkg/beaconclient/processhistoric.go:243-258 | Deleting a row whose two end slots are stored keeps every slot that was stored or a one-slot gap so, and every slot of the deleted row had been handed to a worker. |
| Pipeline.StepIsSound | pkg/beaconclient/capturehistoric.go:93-179 | Every step of a pipeline keeps integrity, hands on every slot it has in hand until it is stored or a one-slot gap, never un-stores a slot, and removes a row only by a remover. |
| StartUpGap.HighestBounds | pkg/beaconclient/databasewrite.go:83-83 | The queried highest slot is an upper bound of all stored slots and itself stored unless 0. |
| StartUpGap.StartUpAdds | pkg/beaconclient/databasewrite.go:533-538 | The start-up gap adds exactly the slots above the highest stored one and below the first head, plus slot 0 when the highest is 0 and the head is above 1. |
| StartUpGap.StartUpIsSafe | pkg/beaconclient/databasewrite.go:521-547 | If nothing up to the highest stored slot is missing (an empty table will do), then everything below the first head is recorded afterwards if and only if that head is not slot 1 or slot 0 was recorded; nothing at or above the head is added. |
| StartUpGap.StartUpRecordsIff | pkg/beaconclient/databasewrite.go:521-547 | An unrecorded slot below the first head gets recorded if and only if it is above the slot that is highest at the moment of the query (or is slot 0 on an empty table and the head is above 1). |
| StartUpGap.FirstHeadAtZeroOverflows | pkg/beaconclient/databasewrite.go:533-534 | With a first head at slot 0 the subtraction wraps: for every increment, exactly the slots above the highest stored one (all, if that is 0) up to 2^64-1 become gaps, if the chunk counter fits and the highest is not 2^64-1, and none otherwise. |
| Indexer.TaskPays | pkg/beaconclient/processslot.go:282-293 | No step of a head task forgets a slot it owes: its own ends up stored or a gap, the skipped ones covered, unless the task ends without recording its jump. |
| Indexer.JumpIsRecordedIff | pkg/beaconclient/processslot.go:392-397 | A commit covers an uncovered slot between the previous head and its own if and only if it is a head's, previous slot and root are known, the slot is not skipped and has a block, and the chunk counter fits. |
| Indexer.StepKeepsInv | pkg/beaconclient/capturehistoric.go:93-179 | Every event of head tracker, reorg handler, head tasks, pipelines, restarts and outside insertions keeps the whole invariant. |
| Indexer.RunKeepsInv | pkg/beaconclient/processevents.go:28-80 | The invariant holds in every state of every run, under any interleaving. |
| Indexer.NoSlotIsLost | pkg/beaconclient/capturehistoric.go:93-179 | In every reachable state every slot of every row that was ever in a work table is stored, covered by a known_gaps or historic_process row, or held by a worker or error handler. |
| Indexer.NoSlotIsLostAtRest | pkg/beaconclient/capturehistoric.go:93-179 | With workers and error handlers idle only the tables are left to account for it. |
| Indexer.RemovedRowsAreHandled | pkg/beaconclient/processhistoric.go:230-269 | When a row is removed, though only its two ends were checked, each of its slots is stored, a one-slot gap, or in the hands of a worker or error handler. |
| CrashSafety.ShortRowIsStored | pkg/beaconclient/processhistoric.go:243-258 | In every run, a row of at most two slots is removed only when all its slots are stored. |
| CrashSafety.UnsendableRowsStay | pkg/beaconclient/capturehistoric.go:119-142 | In every run a reversed row, or one of several slots that ends at 2^64-1, is never removed from its table. |
| CrashSafety.RowIsRemovableIff | pkg/beaconclient/processhistoric.go:230-269 | For any number of workers, some run removes a row if and only if it is neither of these. |
| CrashSafety.InnerSlotsCanBeLost | pkg/beaconclient/processhistoric.go:243-258 | For every number of workers, every row that is neither of these, in either table, and every set of at most that many of its inner slots there is a run that removes the row while each of them is neither stored nor covered and only with a worker or the error handler. |
| CrashSafety.CrashSafeIff | pkg/beaconclient/processhistoric.go:230-269 | For any number of workers: the tables alone account for all slots of a row whenever any run removes it, if and only if the row has at most two slots or ends at 2^64-1. |
| CrashSafety.UnitChunksAreShort | pkg/beaconclient/databasewrite.go:436-480 | Every gap cut with increment 1, wrapped or not, is cut into rows of at most two slots. |
| CrashSafety.CrashLosesNothing | pkg/beaconclient/processhistoric.go:230-269 | With increment 1 and rows of at most two slots from outside, the tables alone account, in every reachable state, for every slot of every row that was ever in a work table. |
| Progress.WeightFalls | pkg/beaconclient/capturehistoric.go:93-179 | Every step of a pipeline, also a failing one, except a check-out and a poll that waits for a slot brings it nearer to rest, unless it holds an endless range. |
| Progress.WorkIsBounded | pkg/beaconclient/capturehistoric.go:93-179 | In every run, whatever fails and whoever else takes steps in between, the steps of a pipeline between two of its check-outs, waiting polls aside, are bounded by a number computed from its state. |
| Progress.RunComesToRest | pkg/beaconclient/capturehistoric.go:93-179 | No deadlock: every run can be continued by fault-free steps of any one pipeline with a worker and no endless range, whatever the node answers, until its workers, distributor and handler are idle and no remover waits whose two ends are stored. |
| Indexer.EverOnlyGrows | pkg/beaconclient/processhistoric.go:230-269 | The record of rows these promises speak of holds every row of every earlier state. |
| EventEffects.ReorgTakesEffect | pkg/beaconclient/processevents.go:28-39 | In every run a chain_reorg event at once makes the named row proposed and the slot's other rows forked, or records a fresh [slot,slot] gap if the named row is absent; no other row of any table changes. |
| EventEffects.RowsFollowReorgs | pkg/beaconclient/databasewrite.go:344-381 | Over any stretch of a run in which no head of the slot or of the following one commits, every slots row stays as it is but for its status, which is that of the last chain_reorg event naming the slot. |
| EventEffects.RowsChangeOnlySo | pkg/beaconclient/processhistoric.go:34-51 | Exactly what happens to a work row under every event: a check-out locks it for the node, its remover deletes it, a failed retry notes the error and adds one to the priority, a joining pipeline of its holder frees it; all other columns and events leave it alone. |
| EventEffects.RowsSayWhy | pkg/beaconclient/databasewrite.go:436-480 | In every run, which events add a work row, under which key, and with which error, entry process and defaults. |
| EventEffects.CheckoutTakesTheBest | pkg/beaconclient/processhistoric.go:34-38 | A check-out takes an unlocked row ending at or above the minimum, none of which has a smaller priority, and offers it to the distributor. |
| EventEffects.GoodMessageRecords | pkg/beaconclient/processevents.go:56-63 | A good message in a run adds the stretch since the previous head to the gaps exactly if bad ones are pending, and changes nothing else. |
| EventEffects.RunHearsMessages | pkg/beaconclient/processevents.go:42-80 | In every run the tracker's fields and the arguments of its tasks are those its messages so far give, whatever else happens. |
| EventEffects.TasksWorkOnMessages | pkg/beaconclient/processevents.go:72-78 | In every run the n-th task has exactly the slot, block and state root of the n-th good message, the slot and block of the good message before it, and the increment; the tracker knows the first, last and highest good head. |
| EventEffects.ReversedEndsAreKept | pkg/beaconclient/capturehistoric.go:119-131 | In every run, when the distributor is through with a reversed range, both its ends are stored, gaps of their own, or in hand. |
| Indexer.HeadsAreCovered | pkg/beaconclient/processevents.go:42-80 | With head tasks committing in any order while pipelines drain known_gaps: every slot from the first to the highest head is stored, covered, in hand, owed by a pending task, or inside the jump of a task that ended without recording it. |
| Indexer.SettledHeadsAreRecorded | pkg/beaconclient/processevents.go:42-80 | With all tasks ended, every jump recorded and the pipelines at rest, each slot from the first to the highest head is stored or covered by known_gaps. |
| Checkouts.StepKeepsLocks | pkg/beaconclient/processhistoric.go:34-51 | A locked row stays locked under every event other than its deletion or the restart of the node that holds it. |
| Checkouts.LocksHaveOwners | pkg/beaconclient/processhistoric.go:42-51 | In every reachable state checked_out holds exactly when checked_out_by is set. |
| Checkouts.RowsAreDispatchedOnce | pkg/beaconclient/processhistoric.go:126-227 | Between two dispatches of the same row, by whichever pipelines, the row was deleted or released by a restart of its holder. |
| Checkouts.FailedRowsAreNotRetried | pkg/beaconclient/processknowngaps.go:97-119 | After its dispatch a row one of whose ends is not stored is in its table and locked, and is not dispatched again, unless a node holding it restarts. |
| Canonical.ReorgIsCanonical | pkg/beaconclient/processevents.go:28-39 | A chain_reorg event at any moment keeps at most one proposed row per slot and adds no row. |
| Canonical.CommitIsCanonical | pkg/beaconclient/processslot.go:381-403 | A commit onto a fresh slot, of a skipped slot or through the fork branch keeps at most one proposed row per slot. |
| Canonical.CommittedHeadIsProposed | pkg/beaconclient/processslot.go:381-386 | A committed head that has a block is proposed, if its slot had no row before or the fork branch ran. |
| Canonical.SecondForkIsCanonicalIff | pkg/beaconclient/processslot.go:256-258 | A second root committed beside a proposed row leaves one proposed row if and only if the fork branch runs: it does not with blocks off or with a previous slot 0 or an empty previous root. |
| Canonical.AtMostOneForkIsCanonical | pkg/beaconclient/processslot.go:374-407 | In every state of a run with heads committed one at a time and any reorg events and bad messages in between, every slot has at most one proposed row. |
| Canonical.CommittedHeadIsCanonical | pkg/beaconclient/processslot.go:374-407 | Right after the commit of a head that has a block, its root is the one proposed row of its slot. |
| Restarts.SessionLeavesNoGap | pkg/beaconclient/databasewrite.go:525-525 | A session with any pipelines beside the head tracker starts from tables with nothing missing up to a bound on the stored slots (empty tables will do, unless the first head is slot 1). If it comes to rest, recorded every jump, its start-up gap fits the chunk counter and no slot was stored ahead of the front (the bound until the start-up gap is written, the highest head from then on), it ends with every slot up to the bound and the highest head recorded and nothing stored beyond. |
| Restarts.RestartsLeaveNoGap | pkg/beaconclient/databasewrite.go:525-525 | So does any number of such sessions, one after another on the same tables; only the first has to start well. |
| PipelinedSessions.SessionsWithinStayBehind | cmd/full.go:79-110 | No pipeline gets ahead of the front if only the inputs stay behind it: all rows at the start and all reorg events and rows from outside; a good head after bad ones is above the previous one; and no head task writes while the start-up gap is owed. |
| PipelinedSessions.PipelinedRestartsLeaveNoGap | cmd/head.go:67-83 | With known-gaps and historic processing running beside the head tracker from boot, any number of sessions whose inputs stay behind the front, each at rest at its end with all jumps recorded, leaves nothing up to the bound and the highest heads unrecorded, and no work row beyond. |
| Reachable.ReachableTablesHaveIntegrity | pkg/beaconclient/databasewrite.go:192-340 | Referential integrity in every reachable state, statement by statement. |
| Reachable.ReachableTablesAreBacked | pkg/beaconclient/processslot.go:199-222 | In every reachable state the condition of the CheckDb refinement holds, if it did at the start and no head message gives a block root with an empty state root while blocks are off. |
| Reachable.CheckDbIsInvisible | pkg/beaconclient/processslot.go:199-247 | In every reachable state a historic attempt, under any configuration, leaves the same tables and outcome with CheckDb as without; if only states are processed, in the states of the row above. |
| Uninterrupted.WorkerMakesAnAttempt | pkg/beaconclient/processhistoric.go:100-120 | A worker's query and write steps, not interrupted, leave the tables of exactly one attempt and the worker idle or about to report that attempt's error. |
| Uninterrupted.TaskIsProcessHeadSlot | pkg/beaconclient/processslot.go:282-293 | A head task's steps, not interrupted, do exactly start-up gap, attempt and gap for a failed attempt. |
| Uninterrupted.GapErrorIsBooked | pkg/beaconclient/processknowngaps.go:91-122 | A known-gaps worker's error, reported, looked up and settled: its slot's row is added fresh with error and reason, or gets the error and one more priority unless look-up or update fails; everything else is as before and the handler listens again. |
| Uninterrupted.HistoricErrorIsBooked | pkg/beaconclient/processhistoric.go:71-81 | A historic worker's error adds its slot's row to known_gaps unless it is there, and never changes an existing row. |
| Uninterrupted.ReversedRangeIsRaised | pkg/beaconclient/capturehistoric.go:119-131 | For a reversed range the start and then the end go to the error handler, with the reason for a wrong order, and the distributor waits again. |
| Witnesses.StartUpGapCanBeMissed | pkg/beaconclient/processslot.go:284-286 | A run in which a later head commits before the first task's query for the highest slot: the start-up gap is never written. |
| DatabaseWrite.TransactKnownGaps | pkg/beaconclient/databasewrite.go:436-480 | The chunking loop upserts exactly the specified rows, and ends the process if and only if a statement fails before all are in. |
| DatabaseWrite.WriteKnownGaps | pkg/beaconclient/databasewrite.go:484-500 | All rows of the gap committed, or the process ends with the tables unchanged; exactly when it does. |
| DatabaseWrite.WriteStartUpGaps | pkg/beaconclient/databasewrite.go:521-547 | The start-up gap as specified, or the process ends with the tables unchanged; exactly when it does. |
| DatabaseWrite.UpdateProposed | pkg/beaconclient/databasewrite.go:418-431 | Marks exactly the named row proposed; the count is 1 or 0. |
| DatabaseWrite.TransactReorgs | pkg/beaconclient/databasewrite.go:344-381 | The three branches together do the specified reorg, or end the process, exactly when a statement fails. |
| DatabaseWrite.WriteReorgs | pkg/beaconclient/databasewrite.go:384-400 | A reorg committed whole, or the process ends with the tables unchanged. |
| DatabaseWrite.DatabaseWriter.TransactSignedBeaconBlocks | pkg/beaconclient/databasewrite.go:250-265 | Bytes and block row of a nonempty block, or an error; no statement for an empty one. |
| DatabaseWrite.DatabaseWriter.TransactBeaconState | pkg/beaconclient/databasewrite.go:315-330 | Bytes and state row of a nonempty state, or an error; no statement for an empty one. |
| DatabaseWrite.DatabaseWriter.TransactFullSlot | pkg/beaconclient/databasewrite.go:192-230 | All rows of the slot as specified, only the slots row of a skipped one; success exactly when no statement fails. |
| SlotProcessing.ProcessSlot.GetSignedBeaconBlock | pkg/beaconclient/processslot.go:302-343 | A block, a skipped slot (404 or another success code), or an error that also marks the slot skipped. |
| SlotProcessing.ProcessSlot.FetchAll | pkg/beaconclient/processslot.go:150-190 | Both queries leave the object holding exactly the specified reply, with an error if and only if the specification has one. |
| SlotProcessing.ProcessSlot.CreateWriteObjects | pkg/beaconclient/processslot.go:410-435 | A writer holding exactly the job's rows. |
| SlotProcessing.ProcessSlot.CheckPreviousSlot | pkg/beaconclient/processslot.go:374-407 | The five-way comparison does the specified fork, jump or mismatch handling, and ends the process exactly when one of its statements fails. |
| SlotProcessing.NothingRequired | pkg/beaconclient/processslot.go:199-222 | The two look-ups answer the specified CheckDb test. |
| SlotProcessing.WriteSlot | pkg/beaconclient/processslot.go:226-266 | The transaction, under any fault, has exactly the specified outcome and effect. |
| SlotProcessing.ProcessFullSlot | pkg/beaconclient/processslot.go:114-279 | The whole function has exactly the specified outcome and effect for every reply, fault and flag. |
| SlotProcessing.ProcessHeadSlot | pkg/beaconclient/processslot.go:282-293 | Start-up gap for the very first head, attempt, gap for a failed attempt; when the process ends, exactly; otherwise the head's slot is stored or a gap of its own. |
| BatchProcess.SelectRow | pkg/beaconclient/processhistoric.go:35-38 | Some eligible row of least priority. |
| BatchProcess.GetBatchProcessRow | pkg/beaconclient/processhistoric.go:126-227 | With no other writer the loop ends, having dispatched every eligible row once in nondecreasing priority and locked exactly those, unless five passes failed, which is counted exactly; in that case no row left has a smaller priority number than one dispatched. |
| BatchProcess.StartBatch | pkg/beaconclient/capturehistoric.go:100-104 | Release and checkout together: unless the release fails, the rows dispatched are among those free or locked by this node before, all of them unless five passes failed, each once and in priority order, and are locked by the node afterwards; another node's rows are unchanged. |
| BatchProcess.Distribute | pkg/beaconclient/capturehistoric.go:119-142 | A well-ordered range goes out ascending, each slot once, strictly before it becomes removable; a reversed one raises exactly two errors and never does. |
| BatchProcess.SentAsOftenAsHeld | pkg/beaconclient/capturehistoric.go:137-140 | Over any rows a slot is sent as often as rows hold it. |
| BatchProcess.GapIsSentExactly | pkg/beaconclient/databasewrite.go:461-478 | Over all rows of one gap each of its slots is sent once, and once more per shared boundary. |
| BatchProcess.ErrorIsBooked | pkg/beaconclient/processknowngaps.go:97-119 | One error, whatever fails: its row is there afterwards; one that was there is raised by one and gets the error if look-up and update work and is unchanged otherwise; no other row changes. |
| BatchProcess.RaisesAreFailures | pkg/beaconclient/processknowngaps.go:113-119 | Faults only suppress raises; without them every failure but the one that inserts the row raises it. |
| BatchProcess.ErrorsAreBooked | pkg/beaconclient/processknowngaps.go:91-122 | After any sequence of failures, with any look-ups and updates failing, a row is there if and only if it was before or its slot failed, its priority has risen by exactly the failures that found it present, and no lock has changed. |
| BatchProcess.BookReceived | pkg/beaconclient/processknowngaps.go:97-119 | The handler's branches book one error as the pipeline's look-up and settling steps do, or end the process with nothing changed, exactly when an insert is chosen and fails. |
| BatchProcess.HandleProcessingErrors | pkg/beaconclient/processknowngaps.go:91-122 | The error loop, with faults of its own for every error, books all of them, or ends the process at the first whose insert fails with those before it booked. |
| HeadTracking.BadStretchIsRecorded | pkg/beaconclient/processevents.go:56-63 | Exactly what a good message after bad ones adds to the gaps once a head has been seen: above the previous head, the slots from it up to its own if the chunk counter fits; at or below it, the slots of the wrapped gap from the previous head past 2^64-1 round to its own. |
| HeadTracking.StretchIsExactIff | pkg/beaconclient/processevents.go:56-63 | That is the stretch between the two heads and nothing else if and only if the head is above the previous one and the counter fits, or it is not and no row, or a single reversed one, comes out. |
| HeadTracking.LateHeadFloodsGaps | pkg/beaconclient/processevents.go:56-63 | A head at or below the previous one after a bad message makes every slot above the previous head a known gap, up to one increment from 2^64-1, if the counter fits. |
| HeadTracking.ErrorsSinceReset | pkg/beaconclient/processevents.go:44-63 | For every sequence of messages, the error counter is the number of bad ones after the last message that could reset it: a good one whose preceding good head exists and was not slot 0. |
| HeadTracking.TasksFollowMessages | pkg/beaconclient/processevents.go:42-80 | For every sequence of messages: one task per good message, with exactly its slot, block and state root, the slot and block of the good one before it (0 and empty for the first), the increment and the head flag; the fields hold the first, last and highest good head. |
| HeadTracking.BeaconClient.OnGoodHead | pkg/beaconclient/processevents.go:56-78 | One message: the stretch recorded or the process ended, exactly when; the task spawned with the old fields; the fields moved on. |
| HeadTracking.BeaconClient.HandleHead | pkg/beaconclient/processevents.go:42-80 | Any finite stretch of messages, with a fault of its own for every gap, leaves the specified tables, fields and tasks, or ends the process at the first message whose gap meets its fault, with the earlier ones handled. |

## Left out

- Queries to the beacon node, the event stream and its reconnects, and JSON decoding: the reply and the message are inputs.
- SSZ decoding, hash-tree roots and the forks of the block format: a block is a record of its roots, its parent, its bytes and its payload.
- The multihash encoding itself: it is taken to be injective and never to fail, so the error of `CreateDatabaseWrite` does not occur.
- The Postgres driver and SQL text; slots of 2^63 and more, which a signed column would refuse; waiting for locks; transactions left open by the checkout loop until it returns.
- Interleaving of other transactions between the statements of one transaction, in particular two check-outs that both read a row before either locks it.
- Starting, stopping, command line, configuration, logging, metrics and timing; a sleep is a step that comes later.
- Cancellation and crashes inside a run, including one that comes between the start of an attempt and its queries; for a crash `CrashSafety.CrashSafeIff` says at which removals the tables alone no longer account for a slot, and `CrashSafety.CrashLosesNothing` when they always do; `SlotWrite.AttemptAccountsForSlot` says what a cancelled attempt forgets.
- The check that the mode is "head" or "historic": only these two values are ever passed.
- Running the block and the state query at the same time: they write different fields, so they run one after the other here.
- The goroutines of a pipeline as methods: the workers' loop and the removers' polling loop are steps of `Pipeline.dfy` on values; update in place and aliasing are not captured there.
- `CaptureHistoric` and `ProcessKnownGaps` beyond the call of the batch processing; `StopHistoric`'s release is the same statement as the one at start.
- A commit that reports an error but took effect: a failed commit leaves the tables as they were.
- The error texts of failed fork and proposed updates: they are placeholders here and are never committed.
- Canonical.AtMostOneForkIsCanonical: heads below the previous one are excluded, because the code only logs them, and so are batch pipelines, which add proposed rows without a fork check.
- Restarts.RestartsLeaveNoGap: the sessions end at rest, and a slot stored ahead of the front is excluded, because the next start-up gap begins at the highest stored slot; `Witnesses.StartUpGapCanBeMissed` shows that a head task writing while the start-up gap is owed really loses it.
- RunOrder.RunIsHistoric: all pipelines of such a run have the same configuration; nodes that process different parts of a slot leave different rows for it.
- BatchProcess.GetBatchProcessRow: ends when no row is eligible, where the code sleeps and looks again.
- HeadTracking.BeaconClient.HandleHead: covers any finite stretch of the message stream; the code's loop never ends.
- SlotProcessing.ProcessSlot.GetSignedBeaconBlock: the identifier the block is asked for is part of the query that is left out.
