# Boros, verified

Boros takes Cardano transactions over gRPC, keeps them in an SQLite table, sends them to
peers and follows the chain until they are confirmed.  This project models its core in Dafny
and proves what the parts keep, alone and together, for every input and every interleaving.

`dafny verify dfyconfig.toml` checks everything.

## The files

| file | what it models |
|---|---|
| `Storage.dfy` | the `tx` table, its reads and its writes |
| `Monitor.dfy` | what a chain event does to the table, including panics, crashes and replays |
| `Query.dfy` | the generated UNION ALL query that fetches the next batch |
| `Priority.dfy` | rounded quotas and the leftover cascade, for every iteration order |
| `Ingest.dfy` | what a unit does to the table and the output port |
| `Backlog.dfy` | the length of the output port over many rounds, and when its capacity underflows |
| `Pipeline.dfy` | submit handler, ingest worker and monitor on one table, one atomic step per storage call |
| `Lifecycle.dfy` | what holds over every run of that pipeline |
| `Serial.dfy` | between restarts that pipeline refines one whose chain events are indivisible |
| `Replay.dfy` | what restarts do to an event while ingest goes on |
| `Scenarios.dfy` | runs from the empty table in which the monitor halts or repeats itself |
| `Undo.dfy` | what the adapter's undo of a block does to chain soundness |
| `Chaining.dfy` | the lock manager of chained queues: tokens, request channel, unlock channel, timeout |
| `LockRules.dfy` | whose unlock ends a grant, and how many unlocks one grant lets through |
| `Submit.dfy` | batch admission by the submit handler |
| `Handlers.dfy` | any number of submit handlers at work on the lock managers at the same time |
| `Mempool.dfy`, `Peer.dfy` | the bounded mempool of a peer connection and the protocol responder |

Code that changes things step by step is a method or a class, proved against functions on
values; the theorems are about those functions and about runs built from them.  Answers of the
outside world (decoding, validation, signing, tip, clock, which timeout fires) are parameters,
so the theorems hold for all of them.

## Main results

* **Interleaving.** No worker ever overwrites a row that changed since it read it
  (`NoUpdateIsEverLost`), although nothing locks rows.  Between restarts of the monitor every run
  is a run of a pipeline in which each chain event happens at once when it reads its rows, and a
  restart takes back exactly the writes still owed (`EventsAreIndivisible`).  Ingest can tell the
  difference, and only by this: it plans and fetches without the rows the event is still to send
  back to Pending (`IngestMissesExactly`, `PlanMissesExactly`).
* **Rows.** In every run each step changes a row exactly as `TransitionExactly` says, column by
  column; a single event does what `EventMeaning` says.
* **Chain.** Every Confirmed row sits in a block of the followed chain at its slot
  (`ConfirmedIsOnChain`), and a written rollback leaves nothing above its point
  (`RollbackIsComplete`).
* **Replay.** On a table nobody else touches an event may be replayed any number of times
  (`CrashReplay`).  With ingest at work this still holds for the rows it confirms or leaves alone,
  and every row it has to retry is requeued (`EventReachedEveryRow`).  But it is not exactly once:
  a row is requeued again, or the replay panics, exactly when the monitor restarts before its
  cursor is written and ingest has meanwhile launched the row again at a slot that is stale for
  the block or ahead of it (`HitAgainExactly`); `ReplayHalts` and `ReplayRequeues` are such runs.
* **Where the monitor gets stuck.** A rolled-back row has no slot and roll-forward unwraps it:
  roll-forward panics exactly on such rows, or with overflow checks on rows launched ahead of
  the block (`DefinedExactly`, `PanicsExactly`), after having stored its confirmations
  (`PanicReplay`), and no roll-forward completes while such a row waits (`RolledBackRowsBlock`).
  `RolledBackHalts` is a run from the empty table that gets there.
* **Scheduler.** What the cascade leaves over is the largest surplus of a tail of the order
  (`LeftoverIsBestTail`); every plan follows the configured weights to within half a row
  (`PlanMeaning`).  Since the order is that of a hash map, it matters that every order
  uses all it can exactly when no queue with quota to spare meets one that wants more
  (`EveryOrderOptimal`).  With one pending queue the capacity never underflows; with n queues in
  every round the port can first exceed its capacity by any length up to the smaller of n / 2 and
  CAP, and by no other (`OverrunExactly`), so a run reaches the underflow exactly when n is at
  least 2 (`UnderflowExactly`).
* **Locks.** Service in order, mutual exclusion and one contiguous validity interval per token
  hold in every run.  That a grant is ended by its own holder's unlock needs exactly four rules
  about checks that pass, timeouts and unlocks (`RulesExactly`).  The submit handler keeps one of
  them, that every unlock follows a passed check (`HandlersPair`); three are left to the clients,
  and all three are needed (`ClientRulesExactly`).  A submit by the holder of a lock can send all
  its unlocks before the next request is served exactly up to 65 transactions, and nothing can
  stop or delay it exactly up to 64: one more, and a timeout leaves it waiting
  (`SubmitFinishesExactly`).
* **Mempool window.** Both sides of a connection see the same window exactly as long as every
  request leaves the outstanding and newly announced ids within the mempool's capacity
  (`WindowsAgreeExactly`); with a disciplined remote side they do, and each requested body is the
  one asked for (`OutstandingBodies`).

## Where code and expectation differ

The model follows the code.

* A transaction that names no queue is stored in the default queue without a token check and
  without an unlock, even when the default queue is chained (`ChainedRowsChecked`).
* `Event::Rollback(p)` is taken as the monitor takes it: keep slots up to `p`.  The adapter passes
  the undone block's own point (src/ledger/u5c/mod.rs:243-249), so the rows confirmed in that block
  stay Confirmed: chain soundness survives an undo exactly when there are none (`UndoExactly`).
* The sort in `quota` is lost when its result is collected into a hash map.
* After a storage error, or when the client has gone, the token just issued stays valid until
  the next request replaces it.

## Assumptions

* Slots are below 2^63, so that storing them in a signed column changes nothing.
* Rounding a share in single precision gives a nearest integer, ties either way.
* A restart of the monitor meets the event again that was in progress.  That is so when the stage
  retries its unit and when the process starts again from a written cursor, as in the runs of
  `Scenarios.dfy`; with none written the adapter starts at the tip (src/ledger/u5c/mod.rs:219) and
  may skip the event.  After a stream error the stage starts again from the cursor read when the
  process started (src/pipeline/monitor.rs:58), between events; what it then receives again is
  covered, since any event may be delivered at any time and any number of times.
* A unit of the ingest worker is executed once; a row of a failed unit is picked up by a later one.
* Lock tokens are fresh.

## Model

| member | source | states |
|---|---|---|
| Storage.InsertExact | src/storage/sqlite.rs:80-129 | A batch goes in exactly when its ids are distinct and new; then the table gains exactly these rows, without a slot, and no other row changes |
| Storage.WriteAllIsWriteBack | src/storage/sqlite.rs:310-343 | Row-by-row updates of distinct rows equal one simultaneous write, so their order is irrelevant |
| Storage.State | src/storage/sqlite.rs:259-278 | A queue appears exactly when it has rows of that status, with their number |
| Storage.SqliteTransaction.Create | src/storage/sqlite.rs:80-129 | All rows or none are inserted; success exactly when all keys are new |
| Storage.SqliteTransaction.Find | src/storage/sqlite.rs:131-153 | Lists each row with the status once |
| Storage.SqliteTransaction.FindToRollback | src/storage/sqlite.rs:155-181 | Lists each Confirmed row above the slot once |
| Storage.SqliteTransaction.Latest | src/storage/sqlite.rs:183-209 | A row of the queue that none of the queue is younger than; none exactly when the queue is empty |
| Storage.SqliteTransaction.Update | src/storage/sqlite.rs:280-308 | Sets raw, status and slot of the row with that id; an unknown id changes nothing |
| Storage.SqliteTransaction.UpdateBatch | src/storage/sqlite.rs:310-343 | The updates of a batch, applied in order in one database transaction |
| Monitor.EventExact | src/pipeline/monitor.rs:65-133 | The successive batch writes of an event equal one row-by-row change: in block Confirmed at its slot, stale and not in block back to Pending, Confirmed above a rollback point back to InFlight, all else unchanged |
| Monitor.EventMeaning | src/pipeline/monitor.rs:67-132 | After an event that gets through, column by column: an in-flight row of the block is Confirmed at its slot; one outside it, launched s slots before the block, is Pending without a slot exactly when s exceeds the configured distance; one ahead of it by d, without overflow checks, exactly when 2^64 - d does; a Confirmed row above a rollback point is InFlight without a slot; nothing else changes |
| Monitor.StaleExactly | src/pipeline/monitor.rs:91-101 | A row is old enough exactly when its slot plus the distance is below the block's, or it is ahead and the wrapped difference is large enough |
| Monitor.BatchesCommute | src/pipeline/monitor.rs:76-106 | The confirm and retry batches touch different rows and may be applied in either order or at once |
| Monitor.DefinedExactly | src/pipeline/monitor.rs:91-96 | An event panics exactly when it is a roll-forward and an in-flight row has no slot or, with overflow checks, a later slot than the block |
| Monitor.CrashReplay | src/pipeline/monitor.rs:65-141 | After any number of attempts stopped after any number of writes, replaying the event gives the table of one uninterrupted run |
| Monitor.PanicReplay | src/pipeline/monitor.rs:76-106 | A replay after a panic gets through exactly when the in-flight rows outside the block have an age; otherwise it panics again and changes nothing |
| Monitor.RollForwardAfterRollback | src/pipeline/monitor.rs:91-132 | A roll-forward right after a rollback gets through exactly when the rollback took nothing back and the in-flight rows have an age |
| Monitor.AheadOfBlock | src/pipeline/monitor.rs:93-101 | Without overflow checks a row launched d slots ahead of the block is requeued exactly when 2^64 - d exceeds the configured distance |
| Monitor.Worker.Execute | src/pipeline/monitor.rs:65-142 | Runs an event to its end or its panic; the cursor is written exactly when it ends |
| Monitor.Worker.RollForward | src/pipeline/monitor.rs:67-109 | The roll-forward branch, batch by batch |
| Query.BuildQuery | src/storage/sqlite.rs:211-254 | Arm i of the union compares the status with `$1` and asks for entry i of the limits by its two running parameter numbers, as bound |
| Query.StatusRoundTrip | src/storage/mod.rs:49-74 | A status survives being stored as text, and no other text is read as it |
| Query.SelectOldest | src/storage/sqlite.rs:233-243 | The oldest rows of the queue whose status has the text asked for, up to the limit, by age |
| Query.OldestUnique | src/storage/sqlite.rs:238-242 | Without ties in age an arm has one possible result |
| Query.NextMeaning | src/storage/sqlite.rs:211-257 | For every order of the limits: no row twice, of each queue exactly its oldest rows up to the limit, no younger row before a strictly older one, nothing else |
| Query.NextComplete | src/storage/sqlite.rs:211-257 | A row of a listed queue with the status is in the batch, or the limit of its queue was reached with rows that are no younger; the rows of a queue come by age |
| Query.OrderIrrelevant | src/storage/sqlite.rs:217-253 | Without ties two iteration orders fetch the same rows of each queue |
| Query.Next | src/storage/sqlite.rs:211-257 | Running the generated query returns one of its possible results |
| Priority.Quota | src/queue/priority.rs:20-28 | The rounded share is a nearest integer, and 0 without any weight |
| Priority.QuotaSum | src/queue/priority.rs:20-31 | Twice the distance between the sum of the quotas and the capacity is at most the number of queues; one queue gets the capacity; no weight, no quota |
| Priority.ComputeLimits | src/queue/priority.rs:55-64 | The loop computes the limits and the leftover of the cascade |
| Priority.CascadeConserves | src/queue/priority.rs:55-64 | Used limits and final leftover add up to the quotas |
| Priority.LeftoverIsBestTail | src/queue/priority.rs:55-64 | The final leftover is the maximum, over all tails of the order including the empty one, of quota minus count |
| Priority.LimitBounds | src/queue/priority.rs:59-62 | A limit lies between min(count, quota) and count |
| Priority.TotalBounds | src/queue/priority.rs:55-64 | The total lies between the sum of min(count, quota) and min(sum of quotas, sum of counts) |
| Priority.NoOverflow | src/queue/priority.rs:59-63 | No intermediate quota exceeds the sum of the quotas |
| Priority.OptimalExactly | src/queue/priority.rs:55-64 | An order uses all it can exactly when no proper tail has a larger positive surplus than the whole |
| Priority.RichFirstIsOptimal | src/queue/priority.rs:55-64 | Visiting the queues with quota to spare first uses all it can |
| Priority.EveryOrderOptimal | src/queue/priority.rs:29-64 | Every order uses all it can exactly when no queue with quota to spare occurs together with one that wants more than its quota |
| Priority.BatchExact | src/queue/priority.rs:38-67 | A batch fetched from a table that still has the counted rows has exactly the computed size, in total and per queue |
| Priority.Shares | src/queue/priority.rs:38-55 | One share per queue with rows, with its count, weight (1 when unconfigured) and quota |
| Priority.PlanMeaning | src/queue/priority.rs:20-55 | A plan has exactly the queues with rows; each has its configured weight, 1 when it is not configured, the number of its rows, and a quota within half a row of that weight's part of the capacity, out of the configured or default weights of those queues |
| Priority.MoreWeightMoreQuota | src/queue/priority.rs:20-28 | In one plan a queue with more weight never gets less quota |
| Priority.Next | src/queue/priority.rs:33-68 | A round returns exactly the sum of the quotas minus the leftover, at most half the number of queues above the capacity |
| Ingest.MessagesAreLaunched | src/pipeline/ingest.rs:119-129 | The messages sent are the raw bytes stored with the rows put in flight, in order, but for one last message when fetching the tip fails |
| Ingest.UnitEffect | src/pipeline/ingest.rs:87-130 | On any table, a row of a unit gets raw, status and slot of its verdict if that writes and stays otherwise or when the unit stopped before it; a copy that matches the table becomes what its verdict says |
| Ingest.UnitBytes | src/pipeline/ingest.rs:87-129 | A row that changes stores the signed bytes when the server signs for its queue and its own otherwise; in flight it has the tip as its slot; nothing but raw bytes, status and slot changes |
| Ingest.MessageExactly | src/pipeline/ingest.rs:87-121 | A row adds one message, with those bytes, exactly when it was reached, signed if required, decoded, passed both checks and was taken by the port; its message comes after those of the rows before it |
| Ingest.ReexecutionLosesConfirmation | src/pipeline/ingest.rs:82-133 | A second execution of a unit takes back a confirmation exactly when it reaches the row and its verdict writes |
| Ingest.UntouchedRow | src/pipeline/ingest.rs:87-130 | Rows outside the unit do not change |
| Ingest.LaunchedExactly | src/pipeline/ingest.rs:87-130 | A row ends in flight exactly when it was reached, its queue is configured, it was signed if required and all checks, the send and the tip succeeded; Failed exactly when it decoded and a check failed |
| Ingest.OkExactly | src/pipeline/ingest.rs:87-132 | A unit succeeds exactly when no row stops it |
| Ingest.Worker.ProcessRow | src/pipeline/ingest.rs:88-129 | One row: what is written, what is sent, and whether the unit goes on, as its verdict says |
| Ingest.Worker.Execute | src/pipeline/ingest.rs:82-133 | The loop writes the rows and sends the messages of that description |
| Backlog.Capacity | src/pipeline/ingest.rs:61-62 | The capacity is the difference to CAP modulo 2^16 of the port's length; with overflow checks it panics exactly when that length, cut to 16 bits, exceeds CAP |
| Backlog.CapacityWithin | src/pipeline/ingest.rs:61-62 | Up to CAP messages the capacity is what is left; for up to CAP more it panics with overflow checks and is just below 2^16 without |
| Backlog.BatchBound | src/pipeline/ingest.rs:61-76 | A batch of n queues exceeds the capacity it is made for by at most n / 2 and never more than doubles it |
| Backlog.OneQueueStaysWithin | src/pipeline/ingest.rs:61-76 | Over any number of rounds with at most one pending queue each, the port never leaves its capacity and nothing panics |
| Backlog.FirstOverrun | src/pipeline/ingest.rs:61-76 | With at most n queues per round, a run stays within CAP or its first length above CAP exceeds it by at most n / 2 and CAP |
| Priority.QuotaSumDouble | src/queue/priority.rs:20-31 | The rounded quotas together are at most twice the capacity |
| Backlog.OvershootExactly | src/queue/priority.rs:20-31 | Some table with n queues and 8-bit weights makes the rounded quotas exceed a capacity of at most CAP by a given positive number, exactly when that is at most n / 2 and CAP |
| Backlog.OverrunExactly | src/pipeline/ingest.rs:61-76 | Some run from the empty port with n queues in every round, no row being pending twice, first exceeds CAP by a given length, exactly when that is at most n / 2 and CAP |
| Backlog.UnderflowExactly | src/pipeline/ingest.rs:61-66 | Some run from the empty port with n queues in every round, no row being pending twice, ends in the underflow panic, exactly when n is at least 2 |
| Pipeline.NoLostUpdate | src/pipeline/ingest.rs:87-130 | In every state of the pipeline, the copies a step writes back are the rows in the table |
| Pipeline.Ownership | src/pipeline/monitor.rs:70-127 | Ingest changes Pending rows only, the monitor InFlight and Confirmed rows only, other steps change no row |
| Pipeline.KeepUpToTruncates | src/pipeline/monitor.rs:110-119 | Where the blocks up to the rollback point come first, keeping them cuts the chain there |
| Lifecycle.StepKeepsInv | src/pipeline/monitor.rs:65-142 | Every step of every worker keeps the invariant of the pipeline |
| Lifecycle.RunKeepsInv | src/pipeline/monitor.rs:65-142 | The invariant holds in every state of every run |
| Lifecycle.NoUpdateIsEverLost | src/pipeline/monitor.rs:70-127 | In every run, what a worker writes back was computed from the row in the table at that moment, and nothing else changes |
| Lifecycle.TransitionExactly | src/pipeline/monitor.rs:67-132 | In every run, what each step makes of each row, column by column, with the slot arithmetic of retries and rollbacks and the bytes and slot of launches |
| Lifecycle.ArrivalExactly | src/storage/sqlite.rs:80-129 | In every run, rows appear by submission only, all of a request or none, as submitted and without a slot |
| Lifecycle.ChainFollows | src/pipeline/monitor.rs:67-119 | A delivered block joins the followed chain; a delivered rollback leaves of it the blocks up to its point |
| Lifecycle.ConfirmedIsOnChain | src/pipeline/monitor.rs:76-89 | In every run, a Confirmed row has a slot and the followed chain has a block at it with the row's id, unless a rollback below it is about to be written |
| Lifecycle.RollbackIsComplete | src/pipeline/monitor.rs:110-132 | When a rollback to p is written no Confirmed row is above p, whatever happened between its read and its write |
| Lifecycle.StatusTellsCause | src/pipeline/monitor.rs:80-125 | Status and slot fit the latest transition; InFlight without slot exactly after a rollback; Pending and Failed without slot; Validated never |
| Lifecycle.RowsAreConserved | src/storage/sqlite.rs:280-343 | Rows are never deleted, queue and creation time never change, Failed is final |
| Lifecycle.BatchAsPlanned | src/queue/priority.rs:38-67 | The fetched batch has the size computed from the earlier count, whatever other workers did in between |
| Lifecycle.BatchFollowsPlan | src/pipeline/ingest.rs:68-76 | In every run, the batch fetched and then worked on has the size of the plan made before it: its quotas without what the cascade left over |
| Lifecycle.UnitInOrder | src/pipeline/ingest.rs:82-132 | In every run, the rows a unit still has to process are the last ones of the batch it fetched |
| Lifecycle.PanicsExactly | src/pipeline/monitor.rs:91-96 | In every run, the rows a roll-forward reads make it panic exactly when one was rolled back or, with overflow checks, launched ahead of the block |
| Lifecycle.RolledBackRowsBlock | src/pipeline/monitor.rs:91-106 | In every run, no roll-forward gets past its confirmations while a rolled-back row has no block |
| Lifecycle.RolledBackRowWaits | src/pipeline/monitor.rs:110-125 | Only a block that includes it changes a rolled-back row, to Confirmed at that block |
| Replay.EventReachedEveryRow | src/pipeline/monitor.rs:65-141 | Before the cursor is written, after any restarts and interleaving: rows in the block or launched within the configured distance are as one uninterrupted application leaves them and were never requeued, and every row outside the block launched longer ago was requeued at least once |
| Replay.HitAgainExactly | src/pipeline/monitor.rs:91-139 | An event that has requeued a row and reads its rows again was restarted in between, and it requeues the row again or panics on it exactly when ingest has launched it since at a slot that is stale for the block or, with overflow checks, ahead of it |
| Replay.RequeuedTwice | src/pipeline/monitor.rs:91-139 | Requeueing a row twice for one event takes a restart and a row in flight and stale |
| Replay.ReplayPanicsExactly | src/pipeline/monitor.rs:91-139 | An event whose batches were all written panics on its replay exactly with overflow checks and when some row is in flight at a later slot than the block |
| Replay.CursorIsLastDone | src/pipeline/monitor.rs:134-139 | In every run, the cursor is slot and hash of the last event that was completed |
| Scenarios.AppliedThenReplayed | src/pipeline/monitor.rs:91-139 | A run in which a first block leaves a cursor, the next event is applied, ingest launches the requeued row again and the monitor restarts before that event's cursor is written and reads it |
| Scenarios.ReplayHalts | src/pipeline/monitor.rs:91-139 | With overflow checks that run goes on to halt the monitor on the event it had applied |
| Scenarios.ReplayRequeues | src/pipeline/monitor.rs:91-139 | Without them it goes on to requeue the row a second time |
| Scenarios.RolledBackHalts | src/pipeline/monitor.rs:91-132 | A run from the empty table in which a row is confirmed and rolled back, the next block panics, and so does its replay, which changes nothing |
| Undo.UndoExactly | src/ledger/u5c/mod.rs:243-249 | After the adapter undoes the last block the table is sound on the remaining chain exactly when no row was confirmed in that block |
| Undo.RollbackBelowIsSound | src/pipeline/monitor.rs:110-132 | A rollback to a point below the block would always leave it sound |
| Undo.UndoFails | src/ledger/u5c/mod.rs:243-249 | One row confirmed in the only block, which is undone: it stays Confirmed off the chain |
| Undo.UndoInRun | src/ledger/u5c/mod.rs:243-249 | The same condition for every state of every run in which the monitor is between events |
| Serial.SerialStep | src/pipeline/monitor.rs:65-142 | One step of the interleaved pipeline is one step of the pipeline with indivisible events, in which ingest plans and fetches on the table without the writes still owed; a restart puts exactly the rows still owed back to what was read, none of which ingest holds, and replaying leads to the same table |
| Serial.EventsAreIndivisible | src/pipeline/monitor.rs:65-142 | Every run is a run of the pipeline in which an event happens at its read, ingest plans and fetches without the writes still owed, and a restart takes back what is still owed |
| Serial.IngestMissesExactly | src/pipeline/monitor.rs:91-106 | With the event applied, the Pending rows are those of the table, unchanged, and the retries still owed |
| Serial.CountMissesExactly | src/queue/priority.rs:38-55 | Ingest's count of a queue is the one with the event applied exactly when no retry is owed to that queue |
| Serial.PlanMissesExactly | src/queue/priority.rs:38-64 | A plan of ingest is a plan with the event applied exactly when no retry is owed |
| Chaining.RunKeeps | src/queue/chaining.rs:59-105 | In every run: the valid token is the last issued; arrivals are replies, then the served request, then the queue; the k-th reply answers with the k-th token issued, and the grants sent are those on record; delivered grants are the ended ones and the held one; ended grants are those taken by signals and timeouts; signals sent are those consumed, in order, and those buffered |
| Chaining.TokenValidOnce | src/queue/chaining.rs:66-71 | A token is valid during one contiguous stretch and never again |
| Chaining.TokenEndsExactly | src/queue/chaining.rs:59-105 | A valid token ends exactly when it is removed after its wait or replaced by the next request's; a failed answer leaves it valid |
| Chaining.OnlyLastTokenValid | src/queue/chaining.rs:147-153 | Only the last token issued is valid, and it is the one of the request being served |
| Chaining.ServiceInOrder | src/queue/chaining.rs:59-105 | Replies follow arrivals one to one, and when a client is answered every earlier grant has ended by unlock or timeout |
| Chaining.RepliesMatch | src/queue/chaining.rs:59-96 | In every run, the k-th reply goes to the k-th request and, if it is a grant, carries the k-th token issued |
| Chaining.AnswerCarriesToken | src/queue/chaining.rs:84-96 | A client that is answered is sent the token in the map at that moment, issued for its own request, the oldest not answered yet |
| LockRules.RunKeepsUse | src/queue/chaining.rs:59-105 | In every run that keeps the four rules, whatever wrong tokens are refused in it, at most one submit is under way, it is the holder's, and its signal is the only one |
| LockRules.OwnSignalEndsGrant | src/queue/chaining.rs:97-104 | If a token passes one check only, and while its lock is held, no timeout falls between check and consumed unlock and no unlock is sent without a passed check, then every signalled end is the holder's own and no signal is buffered unless a lock is held |
| LockRules.TimeoutDuringSubmit | src/queue/chaining.rs:97-104 | A timeout between check and unlock lets a later grant be ended by the stray signal, the other rules being kept |
| LockRules.CheckAfterTimeout | src/queue/chaining.rs:101-103 | So does a check between the timeout and the removal of the token |
| LockRules.TwoTransactionsOneToken | src/server/submit.rs:89-119 | So does a request with two transactions for one token |
| LockRules.UnaskedSignal | src/queue/chaining.rs:133-141 | So does an unlock without a passed check: the manager itself does not prevent it, the submit handler does (`Handlers.HandlersPair`) |
| LockRules.RulesExactly | src/queue/chaining.rs:97-104 | A set of the rules makes every signalled end the holder's own exactly when it is all four |
| LockRules.CanFinishExactly | src/queue/chaining.rs:49-104 | In any state, a submit that owes k unlocks can send them all before another request is taken exactly when they fit the channel beside what it holds, but for one more while a grant has not ended |
| LockRules.NeverStuckExactly | src/queue/chaining.rs:49-104 | Without foreign unlocks nothing can stop it from that, and it never waits for room, exactly when they fit the channel beside what it holds |
| LockRules.SubmitFinishesExactly | src/queue/chaining.rs:49-104 | From the holder of a lock with an empty channel: it can finish exactly when k is at most 65, it cannot get stuck exactly when k is at most 64, it never waits exactly when k is at most 64 |
| LockRules.ReachIsRun | src/queue/chaining.rs:59-105 | A list of possible actions that keeps some rules is a run that keeps them |
| Chaining.StepIsLocal | src/queue/chaining.rs:66-71 | A step on one queue is that queue's step and changes no other queue |
| Chaining.Projection | src/queue/chaining.rs:46-110 | What a queue sees of a run of all queues is a run of its own |
| Chaining.TxChaining.Lock | src/queue/chaining.rs:119-131 | The request is appended for a chained queue with room, waits while the channel is full and is refused exactly for other queues |
| Chaining.TxChaining.Unlock | src/queue/chaining.rs:133-141 | A signal is buffered for a chained queue with room, waits while the channel is full and is refused exactly for other queues |
| Chaining.TxChaining.IsChainedQueue | src/queue/chaining.rs:143-145 | True exactly for the queues configured as chained, whatever has been locked and unlocked since |
| Chaining.TxChaining.IsValidToken | src/queue/chaining.rs:147-153 | True exactly for the token in the map |
| Chaining.TxChaining.TakeRequest | src/queue/chaining.rs:59-71 | Takes the oldest request and publishes its token |
| Chaining.TxChaining.AnswerRequest | src/queue/chaining.rs:73-96 | Answers once; after a failure the token stays |
| Chaining.TxChaining.AwaitRelease | src/queue/chaining.rs:97-104 | Ends the wait by the oldest signal or by timeout |
| Chaining.TxChaining.RemoveToken | src/queue/chaining.rs:98-103 | Removes the token of that queue only |
| Submit.AdmitExact | src/server/submit.rs:55-104 | A request stops at its first item that does not decode or gets as far as a wrong token; otherwise exactly the items that are valid or validated later are picked |
| Submit.SkippedExactly | src/server/submit.rs:56-85 | An item is skipped exactly when it decodes, fails validation, and names no queue, a queue that is not signed, or an unknown one while the default queue is not signed or not configured |
| Submit.StoredExactly | src/server/submit.rs:87-100 | A stored item presented the token in the map if it names a chained queue, none counting as empty, and is stored as it came: its bytes under its hash, Pending, without a slot, in the queue it names or the default one, at that time |
| Submit.PicksInOrder | src/server/submit.rs:55-104 | The picked items keep the order of the request |
| Submit.SignalsPerQueue | src/server/submit.rs:89-119 | A chained queue is unlocked as often as stored transactions name it, others never |
| Handlers.HandlersPair | src/server/submit.rs:89-119 | What a queue sees of any run of concurrent handlers is a run of its own in which every unlock is sent for a passed check of its own |
| Handlers.PairedIsHandled | src/server/submit.rs:45-122 | Every run of a queue in which unlocks follow passed checks is what the queue sees of some run of handlers |
| Handlers.ClientRulesExactly | src/server/submit.rs:89-119 | In runs of handlers, a set of the three client rules makes every signalled end the holder's own exactly when it is all three |
| Handlers.PassedAreSignals | src/server/submit.rs:89-119 | The unlocks of an admitted request are its passed checks, in order |
| Handlers.RequestOnLock | src/server/submit.rs:89-100 | In every run of handlers, a stored transaction that names a chained queue presented the token that was valid at the moment it was looked at |
| Handlers.RequestFinishesExactly | src/server/submit.rs:114-119 | In every run of handlers, a stored request owes a queue one unlock per stored transaction that names it, can send them before another request is taken exactly when they fit the channel, but for one more while a grant has not ended, and can neither get stuck nor wait exactly when they fit without that |
| Submit.ChainedRowsChecked | src/server/submit.rs:89-100 | Every stored row of a chained queue had its token checked, exactly unless the default queue is chained and a stored transaction names no queue |
| Submit.AcceptedRequest | src/server/submit.rs:109-121 | An accepted request adds exactly its rows under the returned ids; it is accepted exactly when these are distinct and new |
| Submit.SubmitService.Consider | src/server/submit.rs:56-100 | Decoding, validation and token check of one item and the row it becomes |
| Submit.SubmitService.SubmitTx | src/server/submit.rs:45-122 | References match the stored rows one to one, unlocks are those of the stored chained transactions, and every error leaves the table unchanged and unlocks nothing |
| Mempool.Mempool.Receive | src/network/mempool.rs:74-96 | Appends, pushing out the oldest entry exactly when full |
| Mempool.Mempool.ReceiveRaw | src/network/mempool.rs:98-114 | The entry carries hash and era of its bytes; undecodable bytes change nothing |
| Mempool.Mempool.Acknowledge | src/network/mempool.rs:116-137 | Drops the oldest entries; panics exactly when there are fewer |
| Mempool.Mempool.FindInflight | src/network/mempool.rs:139-146 | The first entry with the hash |
| Peer.CollectTransactions | src/network/peer.rs:331-376 | Stops at the first outcome that gives the number of messages asked for, or some together with a pause, and returns all messages until then; fails exactly when, after a pause with nothing, the next thing that comes is an error; waits exactly when nothing in the feed settles it |
| Peer.MessagesExact | src/network/peer.rs:346-351 | Every message of the feed is returned once, in the order of the feed |
| Peer.DecodeExact | src/network/mempool.rs:98-114 | The entries taken in are those of the payloads that decode, in order, with their hash and era |
| Peer.AnnouncedExactly | src/network/peer.rs:315-322 | In every run, the k-th id announced has hash, era and size, cut to 32 bits, of the bytes the k-th entry serves |
| Peer.ServeExact | src/network/peer.rs:187-221 | A request for ids evicts exactly what does not fit beside the entries left |
| Peer.RunKeepsWindow | src/network/peer.rs:187-268 | In every run the mempool is the received transactions without the acknowledged and evicted ones, at most CAP, and the announced ids are those of the received ones |
| Peer.NothingEvictedExactly | src/network/mempool.rs:80-88 | Nothing has been evicted exactly when every request so far fitted within CAP |
| Peer.WindowsAgreeExactly | src/network/peer.rs:187-268 | The mempool equals the announced but unacknowledged ids, in order, exactly when every request so far left the outstanding and the newly announced ids within CAP |
| Peer.AcknowledgeAll | src/network/peer.rs:190-194 | A remote side that acknowledges all it knows of makes the responder panic exactly when some earlier request did not fit within CAP |
| Peer.DisciplinedWindow | src/network/peer.rs:187-268 | With a remote side that keeps to the outstanding ids and to CAP, nothing is evicted, nothing panics and the windows agree |
| Peer.BodiesExact | src/network/peer.rs:269-288 | One body per id exactly when all are in flight, and then each decodes to the id at its place |
| Peer.OutstandingBodies | src/network/peer.rs:269-302 | In every run with a disciplined remote side, outstanding ids yield exactly one matching body each, in order |
| Peer.Responder.HandleTxIds | src/network/peer.rs:187-221 | Acknowledges, takes in and announces as the protocol step says, or panics |
| Peer.Responder.HandleTxs | src/network/peer.rs:269-302 | Replies with the bodies found, in request order |

## Left out

- Re-execution of an ingest unit after an error that asks for a retry: the stage runtime is not part of this model. `ReexecutionLosesConfirmation` says what a second execution would do.
- The bytes that a lock grant carries beside its token: they are those of the row `Latest` finds.
- Decoding, hashing, signing and ledger validation: foreign libraries, here arbitrary answers.
- The SQL engine, connection pool, `updated_at` and transaction dependencies, which no caller sets.
- Slots from 2^63 on, which the signed column would turn negative.
- Storage, channel and lock failures of the surrounding runtime, other than those named above.
- Real time: timeouts may fire at any moment. The non-blocking request discards what an outer timeout interrupts; it appears as a request with fewer payloads.
- When a send that waits for room in a channel goes through: any later moment with room is possible.
- `lock_state` beyond the two calls it makes, peer discovery, peer manager, configuration, logging, broadcast notifications and generated code are out of scope.
- Truncation of a batch count to 16 bits: `NoOverflow` says when it cannot happen.
- Whether a transaction launched after a block was read is found in that block: it is not, the monitor only looks at rows that are in flight when it reads.
