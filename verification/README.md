# fold: a verified model of ordered webhook delivery

`fold` delivers webhooks in order per subscriber: rows are enqueued with a sequence per subscriber,
claimed by workers only at the head of their subscriber's line, posted, and marked. A subscriber
whose delivery is exhausted is suspended, its backlog is retained within bounds, and resuming
replays it. In memory this is one object under a mutex; in SQL it is shared by several nodes, each
of which owns partitions by generation, hands them over, or has them taken by force.

This project models the two stores, the ownership protocol, the dispatcher with its workers, and
the arithmetic and assignment beside them, and proves what they are for.

- `Deliveries.dfy`, `StoreSpec.dfy`: rows, tables, and every change a store makes as a function on
  tables, with the condition under which a store makes it; histories of such changes.
- `Queues.dfy`, `Refinement.dfy`, `StoreRuns.dfy`: the abstract first-in first-out line with a
  mode, the simulation of every change by one of its moves, and what holds over whole histories.
- `StoreLaws.dfy`: what the changes of a history mean for single rows, read off the tables: how a row
  ends, when it is claimed again, what it carries.
- `Sorting.dfy`, `Retention.dfy`, `Claiming.dfy`, `Batches.dfy`, `MemoryStore.dfy`: the in-memory
  store as a class over maps with its loops. A store carries the history of its changes, and its
  invariant is that the history is legal and leads exactly to its maps.
- `BatchRuns.dfy`: when an enqueue is all or nothing, when retention bounds hold, and what the
  assumption on the clock is for.
- `Tokens.dfy`, `Ownership.dfy`, `OwnershipRuns.dfy`: claim tokens, the ownership transactions, and
  epochs, fencing, agreement of stamps and draining over whole runs.
- `PostgresQueries.dfy`, `PostgresClaims.dfy`, `PostgresStore.dfy`: the SQL store as classes, a
  shared database and any number of stores over it. A database carries the log of its transactions.
- `Fleet.dfy`, `FleetRuns.dfy`, `FleetOnce.dfy`, `FleetPosts.dfy`, `FleetWork.dfy`,
  `FleetPaths.dfy`, `FleetClaims.dfy`, `FleetDrains.dfy`, `FleetEmpties.dfy`: workers of any number of
  processes that hold batches while everything else happens; order on the wire, nothing after a
  success, bounded posts and work, that there is always somebody who can go on, and that from every
  such state the whole fleet can be drained.
- `FleetEnds.dfy`: what a posted delivery comes to, and what a failure for good means for the wire.
- `FleetReset.dfy`, `FleetSteal.dfy`, `FleetChecks.dfy`: exactly which recoveries and takeovers keep
  the wire in order, and how a caller can tell.
- `Partition.dfy`, `Assign.dfy`, `Backoff.dfy`: who claims which partition, and retry delays.
- `FleetSteps.dfy`, `Process.dfy`, `Dispatcher.dfy`: the dispatcher as a class over a memory store,
  proved to be a fleet, so that order on the wire is part of its invariant.

Assumptions. Each SQL statement or transaction, and each method under a mutex, is one atomic step.
This includes a SQL claim together with its checks of the ownership table: the code locks delivery
rows but not owner rows (store/postgres/postgres.go:345). An enqueue never reads a time before the
creation time of a stored row. Delivery ids and process incarnations come from outside and need not
be assumed fresh: a duplicate id is refused, and stamps are fenced by generation.

Where code and documentation differ, the model follows the code. The store interface says that an
enqueue is atomic (store/store.go:58); in memory it is not (`BatchRuns.AtomicExactly`). The backoff
is documented as at most a tenth over the schedule (internal/backoff/backoff.go:8-11); for caps near
the 64-bit limit the sum wraps (`Backoff.DelaysInRange`). README.md:78 says that after a resize
drained workers cannot complete under a stale ownership map; they mark with the generation of their
claim (worker.go:115-117), and such a mark is accepted after any resize (`FleetSteps.HeldIsHeld`).
Recovery resets rows claimed at the cutoff
in memory and only before it in SQL; each store is modelled as it is.

## Model

| member | source | states |
|---|---|---|
| StoreRuns.QueueAfter | store/memory/memory.go:101-542 | Refinement: after every legal history of changes, the tables mirror the abstract per-subscriber queue that made the corresponding moves, one move or none per change. |
| Refinement.Simulates | store/memory/memory.go:101-542 | One step of the refinement: every change that a store makes is allowed as a move of the queue and keeps tables and queue in correspondence. |
| Queues.MoveKeepsSound | store/store.go:57-90 | Every move keeps the queue's own invariant (strict modes, conservation), and the front advances by exactly what is finished or cut off. |
| StoreRuns.Window | store/memory/memory.go:190-254 | In every reachable state the waiting sequences of a subscriber are exactly an interval ending at its counter; sequences are unique; only the lowest row can be in flight or have been tried; every ended row lies below. |
| StoreRuns.Modes | store/memory/memory.go:141-146 | A suspended subscriber has nothing pending or in flight and every retained row has its full retry budget; a running one has nothing retained. |
| StoreRuns.NoGapWhileRunning | store/memory/memory.go:380-386 | A subscriber that is not suspended, known to the store or not, has no gap and no drops on record. |
| StoreRuns.SuspendedUntilReopened | store/memory/memory.go:303-388 | Over any history only a reopening of the subscriber ends its suspension. |
| StoreRuns.NothingWhileSuspended | store/memory/memory.go:303-339 | From a suspension to the next reopening the subscriber has no pending or in-flight row, whatever else happens. |
| StoreRuns.FrontNeverFalls | store/memory/memory.go:190-254 | Over any history the first waiting sequence of a subscriber never moves back, also across recovery, takeover, suspension and reopening. |
| StoreRuns.AtFront | store/memory/memory.go:230-254 | Claims and completions happen at the front, and a completion moves the front to the next sequence. |
| StoreRuns.DurableOrder | store/memory/memory.go:164-260 | Over any history the claims of a subscriber never go back in sequence, its completions strictly increase, and nothing is claimed at or below a completed sequence. |
| StoreRuns.EndedIsFinal | store/memory/memory.go:496-514 | Over any history a delivered or dead-lettered row stays stored exactly as it is. |
| StoreRuns.Conservation | store/memory/memory.go:342-388 | Sequences handed out are exactly the rows stored, plus the rows dropped since the last reopening, plus the drops that earlier reopenings reported. |
| StoreRuns.TrimKeepsNewest | store/memory/memory.go:462-494 | Retention keeps exactly the min(maxCount, n) highest sequences of the n rows within the age bound, a suffix of what was retained, and the drop count rises by the number removed. |
| StoreLaws.StoredAt | store/memory/memory.go:127-148 | A stored row is what was enqueued, under the next sequence of its subscriber, due at once, untried and unclaimed, retained or pending by mode. |
| StoreLaws.ClaimedAt | store/memory/memory.go:203-253 | A claim takes only rows that are pending, whose next attempt is not in the future, with nothing earlier of their unsuspended subscriber pending or in flight; it stamps them with owner, generation and time, counts an attempt, and touches no other row. |
| StoreLaws.EndedAs | store/memory/memory.go:496-514 | Over any history a row that was marked is stored with exactly the status and error of its mark for ever after, and one that exhausted its attempts dead-lettered with its error. |
| StoreLaws.RetryWaits | store/memory/memory.go:280-300 | Over any history the first claim of a row after a retry comes no earlier than the time that the retry has set, and its attempts go on from the retry's. |
| StoreLaws.ReopenedAt | store/memory/memory.go:373-379 | A resume puts each retained row of the subscriber back in line, due from now on, attempts unchanged, and touches no other. |
| StoreLaws.RecoveredAt | store/memory/memory.go:405-431 | A released row keeps its attempts and the time of its next one. |
| StoreLaws.CarriesBody | store/store.go:20-50 | As long as it is stored a row carries the id, subscriber, partition and body that were enqueued, under the sequence and creation time that it got then. |
| BatchRuns.AtomicExactly | store/memory/memory.go:101-155 | An in-memory enqueue, which the interface calls atomic (store/store.go:58), is all or nothing exactly when no row of the batch is refused or the first one is. |
| BatchRuns.PartialBatch | store/memory/memory.go:110-120 | A concrete batch that is refused at its second row and leaves its first row stored. |
| BatchRuns.InsertionsRetain | store/memory/memory.go:141-149 | Storing rows of a batch adds to a suspended subscriber's retained rows exactly those for it; a batch refused before retention can exceed the bound by this much. |
| BatchRuns.TrimWithinBound | store/memory/memory.go:462-486 | After retention at most maxCount rows of the subscriber are retained and none is beyond the age bound; this is so after every suspension and before every reopening. |
| BatchRuns.TrimsWithinBound | store/memory/memory.go:150-152 | After a successful enqueue every suspended subscriber of the batch is within the count bound, in whatever order they were gone through. |
| BatchRuns.AgeOrderExactly | store/memory/memory.go:462-486 | Retention leaves no hole in a subscriber's line, under any bounds and at any time, exactly when the creation times of its retained rows follow their sequences; hence the assumption on the clock. |
| Retention.RankIsNewer | store/memory/memory.go:475-485 | In the sorted list of retained rows the distance from the end is the number of newer rows that retention would keep. |
| Retention.LoopDropsExactly | store/memory/memory.go:479-485 | Dropping the aged rows and then the lowest sequences until the bound is met drops exactly the rows that have maxCount newer kept rows, or are aged. |
| Retention.TrimOutlives | store/memory/memory.go:462-486 | Retention, read off the maps: a row goes exactly when it is retained, of that subscriber, and too old or with maxCount newer young ones beside it. |
| Retention.SuspendExhausts | store/memory/memory.go:303-339 | An exhausted delivery, read off the maps: the row dead-lettered with its error, the subscriber suspended, its pending rows retained within bounds, and the drops on record. |
| Retention.ReopenResumes | store/memory/memory.go:342-388 | A resume, read off the maps: retention, what is left retained pending from now on, a clean record, and the gap that was on it. |
| Claiming.FindHeads | store/memory/memory.go:190-201 | The head map holds the lowest pending or in-flight sequence of every subscriber that has one. |
| Claiming.HeadMapIsHeadOfLine | store/memory/memory.go:216-219 | Being at the head in the map is the same as having no earlier pending or in-flight row, the form the SQL store uses. |
| Claiming.FindCandidates | store/memory/memory.go:203-221 | The scan lists, without repetition, exactly the eligible rows. |
| Claiming.OneClaimablePerSubscriber | store/memory/memory.go:230-239 | In every reachable state two claimable rows of one subscriber are the same row, so the skip of a subscriber already served never fires. |
| Claiming.FirstAndDueIsClaimable | store/memory/memory.go:203-221 | A row can be claimed exactly when it is pending, its next attempt is not in the future, its subscriber is not suspended, and nothing earlier of the subscriber is pending or in flight. |
| Claiming.ExactIsFair | store/memory/memory.go:190-254 | An exact claim, read off the maps: only takable rows, stamped; the others untouched; and a takable row is left only by a full batch, all of whose subscribers come before its own. |
| Sorting.BeforeMeans | store/memory/memory.go:223-228 | One string comes before another when it has the smaller character, or none, at the first place where they differ. |
| Claiming.SortingRanks | store/memory/memory.go:223-228 | The sorted candidates are strictly ascending by subscriber. |
| Claiming.NotServed | store/memory/memory.go:236-238 | No candidate's subscriber has been served by an earlier step of the claim loop. |
| Claiming.TakenIsExact | store/memory/memory.go:190-254 | What the claim loop has taken when it stops is the first min(limit, n) of the n eligible rows, one per subscriber, stamped, and in subscriber order. |
| Claiming.TakenIsClaim | store/memory/memory.go:241-253 | What the claim loop has done to the rows is one legal claim of exactly those rows and touches no other. |
| MemoryStore.HoldError | store/memory/memory.go:516-531 | A mark is refused unless the row is in flight under exactly the presented owner and generation. |
| MemoryStore.Store.constructor | store/memory/memory.go:55-63 | A new store is empty and has no history. |
| MemoryStore.Store.DropRetained | store/memory/memory.go:488-494 | Deletes one row and charges its subscriber one drop and a gap. |
| MemoryStore.Store.DropAged | store/memory/memory.go:464-474 | Removes exactly the aged retained rows, in any map order, charges each once, and collects exactly the others. |
| MemoryStore.Store.DropExcess | store/memory/memory.go:475-485 | The drop loop ends in exactly the tables that retention asks for. |
| MemoryStore.Store.ApplyRetention | store/memory/memory.go:462-486 | Retention as a whole: tables and drop count are those of the specification. |
| MemoryStore.Store.EnqueueRow | store/memory/memory.go:111-148 | Stores one row with the next sequence, retained or pending by mode, or refuses it for the first of three reasons. |
| MemoryStore.Store.EnqueueRows | store/memory/memory.go:110-149 | The insertion loop stores the rows up to the first refused one and collects exactly the suspended subscribers met on the way. |
| Batches.FaultMeans | store/memory/memory.go:111-120 | A row of a batch is refused for lack of an id, for lack of a subscriber, or because its id is stored or earlier in the batch; the first of these that applies is the reason. |
| Batches.InsertionsAre | store/memory/memory.go:110-148 | The changes of an accepted batch are the insertions of its rows, in order. |
| Batches.SuspendedAmongMeans | store/memory/memory.go:141-149 | The subscribers to apply retention to are the suspended ones of the batch. |
| MemoryStore.Store.RetainEach | store/memory/memory.go:150-152 | Applies retention once to each subscriber touched, in some order. |
| MemoryStore.Store.Enqueue | store/memory/memory.go:101-155 | Stores the rows up to the first refused one; retention follows only if none is refused, once for every suspended subscriber of the batch. The new state is the one this history leads to, on the error path too. |
| MemoryStore.Store.Claim | store/memory/memory.go:164-260 | The claim is exact; its two errors and its two empty answers change nothing. |
| MemoryStore.Store.ClaimSome | store/memory/memory.go:190-254 | The body of the claim under the mutex: the exact batch in the first eligible rows by subscriber. |
| MemoryStore.Store.ClaimEach | store/memory/memory.go:230-254 | The claim loop takes the first min(limit, n) candidates, and neither of its skips ever happens. |
| MemoryStore.Store.MarkTerminal | store/memory/memory.go:496-514 | Ends the row and clears its claim if the claim is presented; otherwise the right error and no change. |
| MemoryStore.Store.MarkDelivered | store/memory/memory.go:270-272 | The row is delivered, without error or claim, and no other row changes; or the mark is refused. |
| MemoryStore.Store.MarkDeadLetter | store/memory/memory.go:275-277 | The row is dead-lettered with the error, without claim, and no other row changes; or the mark is refused. |
| MemoryStore.Store.MarkFailed | store/memory/memory.go:280-300 | Puts the row back with its attempt count, next time and error, under the guard of every mark. |
| MemoryStore.Store.ExhaustAndSuspend | store/memory/memory.go:303-339 | Dead-letters the row, suspends its subscriber, retains what was pending and applies retention; a refused one changes nothing, suspension included. |
| MemoryStore.Store.SuspendRow | store/memory/memory.go:311-336 | Everything but retention is one change of the row, its subscriber and the pending rows. |
| MemoryStore.Store.ParkPending | store/memory/memory.go:324-336 | The loop retains exactly the pending rows of the subscriber. |
| MemoryStore.Store.Resume | store/memory/memory.go:342-388 | Applies retention, reports the gap as it then is, requeues what is retained and starts a clean slate. |
| MemoryStore.Store.ReopenRows | store/memory/memory.go:361-385 | Everything after retention is one change of the retained rows and the record. |
| MemoryStore.CollectRetained | store/memory/memory.go:363-368 | Lists exactly the retained rows of the subscriber. |
| MemoryStore.Store.Requeue | store/memory/memory.go:373-379 | The loop requeues exactly the retained rows of the subscriber, attempts unchanged. |
| MemoryStore.Store.RecoverStale | store/memory/memory.go:405-431 | Returns to pending exactly the in-flight rows claimed at or before the cutoff and counts them. |
| MemoryStore.Store.ReleaseStale | store/memory/memory.go:413-427 | The loop releases exactly the stale rows and counts them, in any map order. |
| MemoryStore.Store.PendingOrInFlight | store/memory/memory.go:434-447 | Counts the pending and in-flight rows. |
| MemoryStore.Store.RetainedCount | store/memory/memory.go:450-460 | Counts the retained rows of a subscriber. |
| MemoryStore.Store.IsSuspended | store/memory/memory.go:391-402 | Reports the subscriber's mode. |
| Tokens.ParseWorkerExact | partition.go:96-104 | A worker name is accepted exactly in the form in which it is printed, within 64 bits. |
| Tokens.WorkerIndexRoundTrip | partition.go:74-105 | For any node and incarnation whatever, a worker reads its own index back from its token. |
| Tokens.DistributedOwnerExact | store/postgres/ownership.go:368-389 | The three-part parser returns a node exactly for the tokens that are printed with that node and a slash-free, non-empty node and incarnation. |
| Tokens.TokensDistinct | partition.go:78-85 | Tokens of different workers, incarnations or nodes never collide. |
| Tokens.PrintedTokens | partition.go:74-85 | The printed form of tokens with and without a node. |
| OwnershipRuns.EpochStep | store/postgres/ownership.go:159-181 | One transaction raises a partition's generation by one exactly when its owner changes, and never lowers it. |
| OwnershipRuns.OneOwnerPerEpoch | store/postgres/ownership.go:186-307 | Over any run generations never fall and no generation of a partition belongs to two nodes. |
| OwnershipRuns.OneHandoffPerEpoch | store/postgres/ownership.go:159-181 | At most one completion or steal leaves each generation of a partition. |
| OwnershipRuns.ForceIsIdempotent | store/postgres/ownership.go:186-192 | Repeating a takeover that succeeded changes nothing, however many claims, marks and operations on other partitions come between. |
| OwnershipRuns.GoodOwnersKept | store/postgres/schema.sql:49-62 | Every transaction keeps the table's CHECK constraints, node names without slashes and generations within 64 bits. |
| OwnershipRuns.StampsKept | store/postgres/postgres.go:319-360 | Every transaction keeps the agreement of the stamps on in-flight rows with the owner rows. |
| OwnershipRuns.StampsAlwaysAgree | store/postgres/postgres.go:319-360 | Seeded before any claim, every in-flight row carries at all times its partition's current generation and a token of its current owner. |
| OwnershipRuns.DrainingOnlyDrains | store/postgres/ownership.go:124-172 | While a partition is draining its in-flight rows only become fewer, and its handoff can complete exactly when none is left and the generation can still rise. |
| OwnershipRuns.DrainWasStarted | store/postgres/ownership.go:105-140 | Over any run: a partition that is draining was put into that drain by one BeginHandoff that named its present owner and its present next node while it was active, and its owner row has not changed since. |
| OwnershipRuns.HandoffGoesToNext | store/postgres/ownership.go:143-184 | Over any run: a completed handoff gives the partition to the node that its BeginHandoff named, under the next generation, with nothing of it in flight. |
| OwnershipRuns.StaleStampsAreFenced | store/postgres/ownership.go:268-301 | Once a partition has left a generation, no row of it is ever again held under a claim of that generation, by whatever owner and however much later. |
| OwnershipRuns.RunTablesReached | store/postgres/postgres.go:175-695 | Through every run of claims, marks and ownership transactions the delivery tables are what the recorded changes lead to, so all theorems about histories hold of the SQL store. |
| OwnershipRuns.LogDeterminesState | store/postgres/ownership.go:29-308 | The log of transactions leaves no doubt about the state of the database. |
| PostgresQueries.RetainedIsSuspended | store/postgres/postgres.go:866-873 | Recording a gap always finds the subscriber's row, so the INSERT half of the upsert never happens. |
| PostgresQueries.DropAged | store/postgres/postgres.go:793-825 | Removes exactly the aged retained rows and charges each once. |
| PostgresQueries.ApplyRetention | store/postgres/postgres.go:788-857 | The two queries and two loops of the transaction end in the tables that retention asks for, the same as in memory. |
| PostgresQueries.FreshSequence | store/postgres/schema.sql:35 | In every reachable state the next sequence is free: the uniqueness constraint on (subscriber_id, sequence) never refuses an insert. |
| PostgresQueries.EnqueueRow | store/postgres/postgres.go:192-250 | One row of the batch inside the transaction: the change made in memory, or the refusal for the same reason. |
| PostgresQueries.EnqueueRows | store/postgres/postgres.go:192-250 | The loop of the transaction stops at the first refused row and otherwise has inserted all. |
| PostgresClaims.SelectClaimable | store/postgres/postgres.go:333-346 | The query returns exactly the unlocked rows that the grant allows and that are due, at the head of their line and not suspended, in order of partition, subscriber and sequence. |
| PostgresClaims.MatchesRanked | store/postgres/postgres.go:343 | Rows that match are of different subscribers, so the order of the query is strict. |
| PostgresClaims.TakeBatch | store/postgres/postgres.go:332-359 | The claim takes exactly the first min(limit, n) matching rows, stamps each from its owner row or from the caller, and changes no other row. |
| PostgresClaims.BatchIsShare | store/postgres/postgres.go:332-405 | A SQL claim, read off the tables: only unlocked rows that are first in line and due, without owner rows from the caller's list under its generation and otherwise from active partitions of its node under theirs; others untouched; a row is left only by a full batch of earlier ones. |
| PostgresStore.GrantIsAllowed | store/postgres/postgres.go:319-360 | Whatever a granted claim takes is authorized by, and stamped from, active owner rows of the claimant's node, or by the caller's list when there are no owner rows. |
| PostgresStore.FlagCannotDisable | store/postgres/postgres.go:103-108 | Setting or clearing a store's flag makes no difference to any claim exactly when there are owner rows. |
| PostgresStore.MarksAgree | store/postgres/postgres.go:764-783 | The two stores refuse the same marks; where the store in memory says what is wrong with the row, this one says that the claim is stale. |
| PostgresStore.EndedMarkIsRefused | store/postgres/postgres.go:764-783 | A row that has ended is never marked again, whoever tries and however much later, in either store. |
| PostgresStore.StaleMarkIsRefused | store/postgres/postgres.go:764-783 | In a database whose log took a partition past a generation, every later mark with that generation on any of its rows is refused as stale. |
| PostgresStore.Database.Commit | store/postgres/postgres.go:258-260 | Committing a transaction on the delivery tables extends the log by its changes and installs what they lead to. |
| PostgresStore.Store.constructor | store/postgres/postgres.go:64-82 | Opening a database that has owner rows puts the store in distributed mode. |
| PostgresStore.Store.Refresh | store/postgres/postgres.go:87-96 | Owner rows switch distributed mode on, and nothing switches it off. |
| PostgresStore.Store.Enqueue | store/postgres/postgres.go:175-263 | All or nothing: a batch with a refused row changes nothing, sequences included; otherwise all rows are stored and retention is applied once per suspended subscriber. |
| PostgresStore.Store.Claim | store/postgres/postgres.go:272-409 | With owner rows or the flag only a three-part token of an owner with complete metadata may claim, and then exactly; every refusal leaves the database as it was. Any claim that asks for rows switches distributed mode on if there are owner rows. |
| PostgresStore.Store.CheckOwnershipMetadata | store/postgres/postgres.go:411-433 | Passes exactly when there are owner rows and every pending or in-flight row lies in an owned partition. |
| PostgresStore.Store.MarkTerminal | store/postgres/postgres.go:739-786 | Ends the row if the claim is presented, otherwise refuses and changes nothing. |
| PostgresStore.Store.MarkDelivered | store/postgres/postgres.go:436-438 | The row is delivered, without error or claim, and no other row changes; or the mark is refused. |
| PostgresStore.Store.MarkDeadLetter | store/postgres/postgres.go:441-443 | The row is dead-lettered with the error, without claim, and no other row changes; or the mark is refused. |
| PostgresStore.Store.MarkFailed | store/postgres/postgres.go:446-496 | Puts the row back for a retry, under the guard of every mark. |
| PostgresStore.Store.ExhaustAndSuspend | store/postgres/postgres.go:499-581 | One transaction: dead-letter, suspend, retain what was pending, apply retention; a stale claim suspends nobody. |
| PostgresStore.Store.SuspendRows | store/postgres/postgres.go:527-569 | Its three updates together are the one change that suspends. |
| PostgresStore.Store.Resume | store/postgres/postgres.go:584-651 | Applies retention, reports the gap and reopens; a subscriber without a row has nothing to reopen. |
| PostgresStore.Store.ReopenRows | store/postgres/postgres.go:620-641 | Its two updates together are the one change that reopens. |
| PostgresStore.Store.RecoverStale | store/postgres/postgres.go:672-695 | Returns to pending exactly the in-flight rows claimed strictly before the cutoff and counts them. |
| PostgresStore.Store.EnsureOwners | store/postgres/ownership.go:14-26 | Seeds every partition for one node, or refuses. |
| PostgresStore.Store.EnsureOwnerAssignments | store/postgres/ownership.go:29-102 | Seeds exactly the missing partitions and switches distributed mode on; a partition of another node or a bad name refuses the whole and changes nothing. |
| PostgresStore.Store.ScanOwners | store/postgres/ownership.go:55-82 | The scan finds a conflict exactly when some partition belongs to another node, and otherwise the partitions that exist. |
| PostgresStore.Store.InsertOwners | store/postgres/ownership.go:84-95 | The loop inserts exactly the missing rows at generation 1, active. |
| PostgresStore.Store.BeginHandoff | store/postgres/ownership.go:105-140 | Succeeds exactly when the partition is active under the node named as its owner and the names are good, and then only its row changes, to draining towards the other node; which refusal applies otherwise. |
| PostgresStore.Store.CompleteHandoff | store/postgres/ownership.go:143-184 | Hands over exactly when the partition is draining and nothing of it is in flight. |
| PostgresStore.Store.ForceTakeover | store/postgres/ownership.go:193-308 | Aborts a drain, steals and resets everything in flight, does nothing, or refuses, exactly as decided from the owner row and the expected generation. |
| FleetRuns.StepKeeps | worker.go:53-135 | Every step of workers, stores and operators that resets no held row keeps the invariant: held rows are in flight exactly as claimed, no row is held twice, the wire is ordered and not ahead of any frontier. |
| FleetRuns.WireNeverGoesBack | worker.go:83-135 | In every run that resets no row still held by a worker the posts of a subscriber never go back in sequence, across workers, nodes, resizes and handoffs. |
| FleetOnce.SuccessIsFinal | worker.go:113-135 | In every run that resets only rows which nobody holds and which have not been posted successfully, after a successful post everything later posted to the subscriber has a higher sequence, also when marks are lost, or workers die and their unposted rows are recovered. |
| FleetEnds.SettleEndsBy | worker.go:115-145 | What a mark comes to, read off the maps: delivered; dead-lettered with the subscriber suspended, at once on a permanent failure and otherwise on the last attempt; or pending again with the same attempts until its next one. |
| FleetEnds.FailureIsFinal | worker.go:121-129 | In every run that resets no held row: after a permanent failure or one on the last attempt has been marked, nothing at or below its sequence is ever posted to the subscriber again, and nothing at all until the subscriber is resumed. |
| FleetReset.ResetGoesBack | README.md:80 | From every state: if a held row is reset that its worker has yet to post, or whose claim can be made again, steps without resets lead on to a wire that goes back. |
| FleetReset.GentleExactly | README.md:80 | A step takes no held row away if and only if no continuation without resets sends the wire back; for every step without owner rows, and for every step but a takeover with claims that agree with the owner rows. |
| FleetSteal.TakeoverExactly | README.md:80 | A takeover keeps the wire in order, whatever follows without resets and under fresh ids, if and only if every held row that it resets has been posted already: the marks of such rows are fenced. |
| FleetChecks.RecoveryExactly | README.md:78 | For the caller of a recovery: order is kept, whatever follows without resets, if and only if every row in a worker's hands was claimed after the cutoff. |
| FleetChecks.MemoryRecoveryIsGentle | store/memory/memory.go:405-431 | In memory a recovery takes no held row away exactly when every held row was claimed after the cutoff. |
| FleetChecks.SqlRecoveryIsGentle | store/postgres/postgres.go:672-695 | In SQL a row that was claimed at the cutoff itself is not taken away either. |
| FleetChecks.StealIsGentle | store/postgres/ownership.go:268-301 | A takeover that steals takes no held row away exactly when no row of its partition is held. |
| FleetChecks.ResetReorders | README.md:80 | For every subscriber a run without resets leads to a held row whose recovery leads on to a wire that goes back. |
| FleetPosts.AttemptsBounded | worker.go:126-129 | In every run that resets no held row, the attempt count of a row is at most maxAttempts plus the number of times that it was reset, and less while it waits to be claimed again. |
| FleetPosts.PostsBounded | worker.go:113-129 | In every such run the posts of a delivery on the wire are at most maxAttempts plus the number of times that it was reset. |
| FleetWork.ChangeUsesBudget | worker.go:113-145 | While nothing new arrives, every claim and every mark of a subscriber strictly lowers its budget, and nothing raises it. |
| FleetWork.WorkIsBounded | worker.go:113-145 | While nothing is enqueued, resumed or reset, the number of claims and marks of a subscriber is at most what its budget falls by, however they interleave and whatever came before. |
| FleetWork.LimitRises | worker.go:126-129 | The limit of attempts that the budget counts with is maxAttempts plus the most resets of any one row so far. |
| FleetWork.BudgetRange | worker.go:113-145 | The budget is at least 0, at most a claim and a mark per attempt of every unfinished row plus one, and 0 exactly when nothing is left to do. |
| FleetDrains.FirstRow | store/memory/memory.go:190-221 | In every reachable state the first unfinished row of a subscriber is in flight, or can be claimed whenever it is due. |
| FleetDrains.NeverStuck | worker.go:83-135 | In every run that resets no held row, loses no mark and in which no worker leaves with rows in hand, the first unfinished row of a subscriber is held by a worker that can post or mark, or can be claimed at every time from its next attempt on. |
| FleetDrains.SomebodyMayClaim | store/postgres/postgres.go:319-360 | That claim is allowed to somebody: to anybody without owner rows, otherwise to a worker of the owner unless the partition is being handed over. |
| FleetDrains.IdleMeansDrained | fold.go:487-510 | When in such a run every worker is idle and nothing can be claimed, a subscriber has nothing unfinished, or its first row waits for its next attempt. |
| FleetDrains.IdleWorkerMayGrab | worker.go:95-111 | In such a run an idle worker whose token the owner rows grant the first unfinished row's partition may claim that row as soon as it is due, unless somebody holds it who can go on. |
| FleetDrains.WorkComesToAnEnd | worker.go:83-145 | As long as a subscriber has anything unfinished, fewer claims and marks than its budget allowed have been made for it since nothing was enqueued, resumed or reset any more. |
| FleetEmpties.EverythingDrains | fold.go:456-500 | Draining: from every state in which everything in flight is in somebody's hands, whatever the posts come to, however long retries wait and whatever retention drops, steps that reset nothing, lose no mark and leave nothing behind lead to a state with nothing unfinished; no subscriber has more claims and marks on the way than its budget. Workers may join on the way; with owner rows, drains are aborted and missing owners seeded where needed. |
| FleetEmpties.RunsDrain | fold.go:456-500 | Every run that resets no held row, loses no mark and in which no worker leaves with rows in hand can be drained so at any point, with maxAttempts plus the most resets of a row as limit of attempts. |
| Partition.CheckClaim | partition.go:37-46 | Accepts exactly the in-range, duplicate-free claims, and names an offending partition otherwise. |
| Partition.BuildOwnership | partition.go:21-72 | Fails exactly without workers or on a bad claim; otherwise deals the universe out in turns, in both directions of the map. |
| Partition.DealTo | partition.go:61-68 | One worker's pass over the universe collects exactly its turns and names it there, and nowhere else. |
| Partition.ExclusiveOwnership | partition.go:107-117 | The two directions of the map invert each other for every token and every number, and exactly the partitions dealt out have an owner, which is one of the workers. |
| Partition.OwnersDisjoint | partition.go:61-68 | No two tokens share a partition. |
| Partition.OverlapGivesAll | partition.go:48-55 | Where partitions overlap every worker is given all of them. |
| Partition.Balanced | partition.go:56-69 | Any two workers' lists differ in length by at most one and repeat nothing. |
| Partition.DealtSize | partition.go:62-67 | The exact number of partitions that each worker is dealt. |
| Partition.DealtAt | partition.go:61-68 | A worker is dealt the places of the universe from its index on in steps of the worker count. |
| Partition.InTurn | partition.go:61-68 | The owner of the i-th place of the universe is worker i modulo the worker count. |
| Assign.PartitionOf | internal/hash/hash.go:11-18 | A subscriber's partition is what is left of its hash sum when whole rounds of the partition count are taken off. |
| Assign.SharePartition | internal/hash/hash.go:11-18 | Two subscribers share a partition if and only if their sums differ by whole rounds. |
| Assign.PartitionsForNode | assign.go:28-42 | The list of a node is every nodeCount-th partition from its index; empty when the arguments are invalid. |
| Assign.OwnerAssignmentsForNodes | assign.go:46-58 | The array of owners is the assignment by remainder. |
| Assign.ListsMatchAssignments | assign.go:26-58 | A partition is in a node's list exactly when its assigned owner is that node. |
| Assign.NodePartitionsInOrder | assign.go:26-42 | The list of a node goes up from its index in steps of the node count. |
| Assign.NodeServesSubscriber | assign.go:15-24 | A subscriber's node is the one in whose list its partition is, under every hash. |
| Assign.NodesCover | assign.go:19-42 | Every partition is in exactly one node's list, unless there are no nodes: then in none, although NodeIndex still says 0. |
| Assign.AssignmentsSeed | assign.go:44-58 | The assignments seed an empty owner table, the seeded owner matches the node's list, and each list is a claim that a dispatcher accepts. |
| Backoff.WrapCaught | internal/backoff/backoff.go:31-35 | The test next < delay catches exactly the doublings that wrap. |
| Backoff.Schedule | internal/backoff/backoff.go:25-40 | The doubling loop computes min(max, base * 2^(attempt-1)) in wrapping 64-bit arithmetic, for every attempt and configuration. |
| Backoff.Delay | internal/backoff/backoff.go:14-44 | The result is the schedule plus a jitter of at most a tenth of it, wrapped to 64 bits. |
| Backoff.ScheduleMonotone | internal/backoff/backoff.go:8-11 | A later attempt never waits less. |
| Backoff.ScheduleDoubles | internal/backoff/backoff.go:16-40 | The first attempt waits the base, every further one twice as long up to the cap; one second and fifteen minutes by default. |
| Backoff.DelaysInRange | internal/backoff/backoff.go:42-43 | Every delay of every attempt lies between the schedule and a tenth more exactly when the cap and a tenth of it fit in 64 bits. |
| Backoff.LongestDelayWraps | internal/backoff/backoff.go:42-43 | The largest cap and a jitter of one nanosecond give a negative delay. |
| FleetSteps.LedOnce | worker.go:53-135 | Wherever steps without resets lead from a process that has posted nothing, on a new or a used store, order is kept and nothing follows a success. |
| FleetSteps.HeldIsHeld | worker.go:113-120 | A row in a worker's hands is still claimed exactly as it was claimed, so the mark with the claim-time generation is accepted. |
| FleetSteps.MemoryClaims | store/memory/memory.go:190-254 | An exact claim of the store in memory is a batch that the fleet's workers may hold: claimable rows of the listed partitions, stamped, of different subscribers. |
| FleetSteps.SqlClaims | store/postgres/postgres.go:332-359 | So is a batch of the SQL store without owner rows, so that what is proved of a process holds over either store. |
| Processes.ExclusiveClaims | fold.go:305-355 | Under one generation no partition is claimed by two owners. |
| Processes.EveryPartitionServed | fold.go:285-287 | After every Start and any series of grows and shrinks, until Close, the owner of each partition served has a live goroutine. |
| Processes.WorkGoesOn | worker.go:83-135 | A running process that has left nothing behind never gets stuck: once the first unfinished row of a subscriber in its partitions is due, some goroutine has rows in hand, or is idle and has that row among the eligible ones of its next claim. |
| Processes.ResizeIsComplete | fold.go:305-355 | A new map under a new generation with goroutines for the added workers keeps the whole invariant, coverage included. |
| Processes.WireInOrder | fold.go:305-355 | What a dispatcher's subscribers have seen never goes back in sequence, and nothing at or below a success follows it. |
| Processes.ExcessMayGo | worker.go:99-104 | A goroutine whose index is out of range may leave without uncovering any worker, also when another has the same token. |
| Processes.GrabIsComplete | worker.go:95-111 | A claim under the current map and generation keeps the whole invariant, and the record of claims follows the map of each generation. |
| Processes.MarkIsComplete | worker.go:113-145 | A mark that makes exactly the changes its outcome calls for keeps the whole invariant. |
| Dispatching.Dispatcher.New | fold.go:164-250 | Builds a valid dispatcher of generation 1 exactly when the claim is in range and duplicate-free and, over a memory store, no node is named. |
| Dispatching.Dispatcher.Start | fold.go:263-293 | Recovers exactly the stale claims, starts one goroutine per worker, and keeps the invariant; or refuses. |
| Dispatching.Dispatcher.SpawnFrom | fold.go:349-363 | The loop gives each added worker a goroutine and leaves all others as they are. |
| Dispatching.Dispatcher.Resize | fold.go:309-355 | Which refusal applies; otherwise the process is the resized one: the new map over the same partitions, exclusive and whole as before, the next generation, goroutines for the added workers only, and every goroutine and earlier epoch as before. So resizes can be chained. |
| Processes.FlipIsSound | fold.go:344-347 | Changing map, worker count and generation together keeps everything but that the added workers are alive. |
| Dispatching.Dispatcher.ClaimBatch | worker.go:95-111 | A goroutine leaves exactly when its index is beyond the worker count; otherwise it claims exactly the eligible rows of its current partitions under the current generation. |
| Dispatching.Dispatcher.Send | worker.go:114 | A post appends to the wire, with any outcome, and keeps the order of the wire. |
| Dispatching.Dispatcher.Mark | worker.go:115-145 | Marks with the claim-time generation, and never fails: a success is delivered; a permanent failure, or one on the last attempt, is dead-lettered with its subscriber suspended; any other is pending again after its backoff. The batch shrinks by one row. |
| Dispatching.BackoffInRange | worker.go:131-137 | The next attempt after a retry lies between the schedule of the attempt and a tenth more from now. |
| Dispatching.Dispatcher.MarkRow | worker.go:115-145 | The three marks by outcome are exactly the changes that the fleet's worker makes. |
| Dispatching.Dispatcher.Dispatch | fold.go:367-418 | Which refusal applies; otherwise one row per subscriber, in the partition that is left of its hash sum, and what the store did with the rows: all stored and retention applied, or those before the first refused one. |
| Dispatching.Dispatcher.Resume | fold.go:427-440 | Resumes in the store, reports its gap, and keeps the invariant of the process. |
| Dispatching.Dispatcher.Close | fold.go:443-453 | Sets the flag under the invariant; workers go on until cancelled. |
| Dispatching.Dispatcher.Cancel | worker.go:83-86 | After Close a goroutine may end with whatever it holds, and the invariant stays. |

## Left out

- HTTP transport, response classification, signatures and JSON encoding: a post has any outcome.
- The text of SQL, pgx, migrations, advisory locks and read-committed anomalies: a statement or a
  transaction is one atomic change. Two claims that race on one owner row, or a claim that races with
  a handoff between its check and its update, are outside the model.
- MemoryStore.Store.Claim: does not model that looking up a subscriber that was never seen creates
  an empty entry for it, which no other operation can tell from its absence.
- PostgresStore.Store.Claim: rows locked by other transactions are any set given from outside; the
  order in which the rows come back is not promised; subscriber names compare byte by byte, where
  the database compares by its collation.
- Gap markers and error texts: only the drop counts are kept. Event id, URL, payload, type and
  secret of a delivery are one opaque body.
- Widths of sequences, dispatcher generations and counters (64 bits): unbounded here. Generations
  of owner rows and the takeover's expected + 1 are modelled with their width.
- Switches that disable a guard for experiments (DisableHOL, SkipSuspendGate,
  BypassDrainingClaimGate, SkipInFlightReset, SkipMarkOwnerGenCheck): all off.
- Notifications, timers, idle waits, worker statistics, context cancellation of a single call.
- Dispatching.Dispatcher.Close: does not model the wait for an empty queue and the cancellation that
  follow: `Close` sets the flag, and each goroutine may then be cancelled on its own.
- Dispatching.Dispatcher.Dispatch: does not model that the closed flag is read before the rows are
  stored, with other calls in between (fold.go:371-417). Storing them later, in any state, keeps the
  invariant (`StoreRows`), but after `Close` the queue may fill again.
- The FNV hash and random identifiers: any function, any strings.
- Dispatching.Dispatcher.New: does not model a dispatcher object over the SQL store, so never one
  with a node name. Processes over the SQL store without owner rows are covered as values by
  `Process.dfy`, whose claims may come from either store, and several processes over one store are
  workers of the fleet in `Fleet.dfy`, with one maxAttempts.
- FleetReset.GentleExactly: one direction only where a claim made before the owner rows were seeded is
  still in flight. There, gentle resets keep the order and resets of rows that are still to be posted
  can break it (`FleetReset.ResetGoesBack`); resets of posted rows whose claim does not agree with
  the owner rows are left open. Waiting rows must have partition numbers from 0 up, as dispatched
  rows have: a row without a possible owner stops every claim (store/postgres/postgres.go:411-433).
- FleetSteal.TakeoverExactly: under the same two conditions. Continuations enqueue nothing under the
  id of a row in somebody's hands.
- FleetEmpties.EverythingDrains: builds a way to drain for every behaviour of subscribers and clocks;
  that a scheduler takes it, and that time passes until a retry is due, is not modelled. With owner
  rows it needs partition numbers from 0 up, as above.
- FleetRuns.WireNeverGoesBack: a post and its mark are steps of a worker; that a post takes time on
  the network, so that a subscriber may see two posts at once after a crash, is not modelled.
- Fencing of tokens without a node: legacy tokens and generation 1 are reused after a restart
  (fold.go:238), so the fencing theorems are about owned partitions.
- The Erlang bridge, examples, scripts and the benchmark baselines.
