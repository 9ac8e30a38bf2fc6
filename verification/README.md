# The reliable-dispatch core of the execution engine, as a Dafny model

The engine takes test cases from a catalogue, stores an execution record and an outbox
message for each in one transaction, publishes the message to RabbitMQ, and writes the
outcome back. A relay picks up messages whose fast path never finished. The model covers
the parts where the hard properties only show over whole runs:

- **The outbox protocol** (`Domain`, `Store`, `StoreEffects`, `Statements`, `Relay`,
  `Protocol`, `Invariant`, `Safety`, `RelayProgress`, `RelaySettling`, `Waiting`, `Contents`,
  `FastPath`, `Answers`, `Outcomes`, `Witnesses`). Two tables, any number of fast-path calls and relay passes that act on copies
  they read earlier, the executor's callback, a clock, and crashes between any two steps.
  Each transaction body is one atomic step, or no change when it errors.
- **The repositories and entry points** (`Repository`, `Engine`, `Slices`,
  `BatchResult`, `Backoff`). Classes whose methods update stored rows, in-memory records
  and slices in place, with loops as in the source. Each method is proved against the
  function that `Protocol` uses as its step.
- **The publisher-confirm collector** (`Confirms`, `Publisher`). Two event queues read in
  any order, an in-place compaction, and every early exit.
- **The channel pool** (`ChannelPool`). Borrowers, releases that mend broken channels and
  a reconnect loop (drain, dial, commit), interleaved at every critical section of the
  mutex. The class `Client` has one method per critical section; each keeps the fields
  equal to the shared part of a ghost state of the whole pool and takes one of its steps.
- **The batch pipeline** (`Pipeline`, `PipelineSafety`, `PipelineProgress`,
  `PipelineErrors`, `PipelineLoad`). Producer, workers, closer and aggregator over two
  bounded channels with one cancellation.

How the parts meet: `Publisher.BatchRun` ensures `Protocol.HonestResult`, which is what
the protocol assumes of a publish. `ChannelPool.RunBorrowed` shows that a batch on a
borrowed channel is a publish step of the pool, which leaves unconfirmed messages only on
a broken channel. `FastPath.FrameConservesIds` gives the frames that `Pipeline` assumes of
a worker. `Engine.PassIsSteps`, `Engine.ChunkIsSteps` and `Engine.CaseIsSteps` say that the
imperative entry points take exactly the steps of one actor of `Protocol`, whatever the
others do in between. `Answers` says what the entry points' frames and replies mean;
`Outcomes` says which message is stored how, and what the caller is told, read off the
broker's answer and the fields of the rows alone.

Assumptions: lease tokens are fresh, all relays share one configuration, the outbox is
enabled, a transaction is atomic and serializable, the scan yields disjoint batches, the
broker returns an unroutable message before it confirms it and confirms each message
once, and the executor's callback follows the status machine and never writes
DISPATCH_FAILED.

`dafny verify dfyconfig.toml` checks the whole project.

## Claims that do not hold

Each is stated with a concrete input or run, and with the exact condition under which the
claim does hold.

- "Success means routable" fails on the early exits of `waitConfirms`
  (`Confirms.EarlyExitKeepsReturned`, `Confirms.SuccessMeans`); the comment at
  executor_client.go:703-705 describes the normal exit only.
- "A connected client lends only channels of its current connection" fails
  (`ChannelPool.StaleChannelLent`). The comment at executor_client.go:300-301 says that a
  channel in use during a disconnect is dropped on release; the code drops it only if its
  batch left it broken. Exactly the channels released unbroken into a pool with room, on
  another connection than theirs and not while the loop is still draining, are the stale
  ones (`ChannelPool.StaleExactly`); without such a release the claim holds in every run
  (`ChannelPool.FreshUnlessLate`).
- "A message is claimed at most MaxAttempts times" fails when a relay crashes
  (`Witnesses.AttemptsMayExceedMax`, `Witnesses.ClaimExceedsExactly`), although
  outbox_relay.go:20 describes MaxAttempts as a maximum. It holds in every run without a
  takeover (`RelayProgress.ClaimsBounded`), so in every run in which each relay pass
  commits (`RelayProgress.CommittedClaimsBounded`).
- "Nil means that everything scanned was dispatched" fails when the caller cancels
  (`PipelineProgress.CancelMayReturnNil`): exactly when the producer gives up an offer, or
  its scan is interrupted before the last page (`PipelineProgress.NilCompleteExactly`).
- "About 2 * WorkerCount batches are held at the peak" (the comment at
  dispatch_app_service.go:312-313) leaves out the batches that the workers and the producer
  hold: 3 * WorkerCount + 1 are reached (`PipelineLoad.BoundsAreReached`) and never exceeded
  (`PipelineSafety.InFlightBounded`).
- "A version mismatch leaves the tables alone" fails for a chunk with new cases
  (`Witnesses.MismatchMayAddRows`, `FastPath.MismatchKeepsNewRows`).
- "The backoff is the capped doubling for every configuration" fails for caps above 2^62,
  where a doubling can wrap to a negative delay (`Backoff.LargeCapOverflows`,
  `Backoff.LoopMeetsDelay`).

## Model

| member | source | states |
|---|---|---|
| Safety.TablesAgree | execution-engine/internal/usecase/dispatch_app_service.go:189-213 | in every reachable state, under any interleaving of fast paths, relays, callbacks and crashes, DISPATCH_FAILED is stored only together with a DEAD message, and a DEAD message belongs to a record that has left WAIT |
| Safety.NoLostMessage | execution-engine/internal/infrastructure/persistence/mysql/outbox_repository.go:97-134 | every committed record has exactly one message, with its case and version; it is PUBLISHED and the broker acknowledged a publish of it, or DEAD, or every large enough claim after a known time takes it |
| Safety.PendingHasAttemptsLeft | execution-engine/internal/usecase/outbox_relay.go:141-164 | a PENDING message has attempts below MaxAttempts in every reachable state, stale holders and crashes included; attempts is the number of claims that took the row |
| Safety.LeaseFencing | execution-engine/internal/infrastructure/persistence/mysql/outbox_repository.go:171-189 | a relay write-back commits exactly when none of its claimed rows was touched since the claim; then each of them and no other leaves PROCESSING with the claimed attempts, otherwise both tables stay as they were |
| Safety.RelayOutcome | execution-engine/internal/usecase/outbox_relay.go:166-180 | per claimed row of a committed pass, in every reachable state: acknowledged is PUBLISHED, failed with attempts left is PENDING at the pass's retry time, which is no earlier than the row's own backoff when the doublings fit in 64 bits, exhausted is DEAD with the record out of WAIT |
| Safety.RetriesAreTimed | execution-engine/internal/usecase/outbox_relay.go:140-148 | in every reachable state, when the doublings fit in 64 bits, the retry time of a published pass covers the backoff of each row it retries |
| Safety.RetryIsExact | execution-engine/internal/usecase/outbox_relay.go:140-180 | when the doublings fit, the retry time of a committed pass is its clock plus the delay of the largest attempt among its failed rows, exactly; with one failed row that is the row's own delay |
| Safety.RelayStatuses | execution-engine/internal/usecase/outbox_relay.go:151-170 | a committed pass moves the records of its dead rows from WAIT to DISPATCH_FAILED and no other status |
| Relay.LargestCoversRetries | execution-engine/internal/usecase/outbox_relay.go:140-164 | the attempt that sets the backoff of a pass is at least that of every row it retries |
| Relay.LargestIsOfFailed | execution-engine/internal/usecase/outbox_relay.go:140-148 | that attempt is no smaller than that of any claimed row which the answer does not report, and is one of theirs, or one |
| Relay.WithDefaults | execution-engine/internal/usecase/outbox_relay.go:25-46 | each value that cannot be used, and no other, is replaced by its default |
| Safety.FastPathFencing | execution-engine/internal/usecase/dispatch_app_service.go:489-500 | a chunk write-back commits exactly when all its rows are still PENDING; then acknowledged rows are PUBLISHED and failed rows are DEAD, straight away and without a retry, the records of failed rows move from WAIT to DISPATCH_FAILED and no other status moves; otherwise nothing changes |
| Safety.SingleFencing | execution-engine/internal/usecase/dispatch_app_service.go:189-213 | a single write-back commits exactly when its message is still PENDING and, after a failed publish, the record still in WAIT; then the message is PUBLISHED with an acknowledgement, or DEAD with the record DISPATCH_FAILED; otherwise nothing changes |
| Safety.LeaseIsExclusive | execution-engine/internal/infrastructure/persistence/mysql/outbox_repository.go:99-132 | a claim takes a PENDING row only when its available_at, and a PROCESSING row only when its lease, is no later than the clock it has read, which is never ahead of the clock; it gives the row a token no earlier claim had, a full lease and one more attempt |
| Waiting.GraceHolds | execution-engine/internal/usecase/dispatch_app_service.go:406-418 | over every run: a message that phase one has stored is in no claim that reads the clock before its available_at, when the doublings fit in 64 bits |
| Waiting.BackoffHolds | execution-engine/internal/usecase/outbox_relay.go:166-180 | over every run: a message that a committed pass has put back is in no claim that reads the clock before the retry time of that pass, when the doublings fit |
| Safety.OneClaimPerToken | execution-engine/internal/infrastructure/persistence/mysql/outbox_repository.go:93-132 | in every reachable state a PROCESSING row is the copy that exactly one claim handed out, and no two relays hold the same token |
| Safety.StatusPerStep | execution-engine/internal/infrastructure/persistence/mysql/execution_repository.go:122-190 | each step moves a stored status along an edge of the status machine or leaves it; the engine itself only writes DISPATCH_FAILED over WAIT, whatever status its in-memory copies carry |
| Safety.HistoryIsPath | execution-engine/internal/domain/vo/execution_status.go:30-39 | in every run each record's stored history is a path of the status machine from WAIT to its current status, of at most three entries |
| Safety.SettledForEver | execution-engine/internal/infrastructure/persistence/mysql/execution_repository.go:153-190 | over any run, terminal statuses and PUBLISHED or DEAD messages never change again, and a request and case keep their execution id |
| Contents.RunKeepsContent | execution-engine/internal/infrastructure/persistence/mysql/outbox_repository.go:115-132 | over any run no message changes its execution, case, case name, version or outbox id |
| Contents.PassSendsStored | execution-engine/internal/usecase/outbox_relay.go:119-128 | a message that a chunk call has added is sent, by every later pass that takes it, as what the call carried: the case, its name at that time and the version |
| Invariant.StepKeepsInv | execution-engine/internal/usecase/dispatch_app_service.go:133-213 | every step of every actor, the callback, the clock and a crash keeps the protocol invariant that the safety theorems read off |
| Invariant.RelayWriteBackEffect | execution-engine/internal/usecase/outbox_relay.go:166-180 | what a committed relay write-back did to every row of both tables, and what it found in them |
| Invariant.ChunkWriteBackEffect | execution-engine/internal/usecase/dispatch_app_service.go:489-500 | what a committed chunk write-back did to every row of both tables, and what it found in them |
| Invariant.SingleWriteBackEffect | execution-engine/internal/usecase/dispatch_app_service.go:189-213 | a committed single write-back found a PENDING message and changed only that row and, on failure, a record that was in WAIT |
| Domain.HistoriesAreShort | execution-engine/internal/domain/vo/execution_status.go:19-39 | the status machine has no cycle and a terminal status ends a history |
| Domain.StatusEdges | execution-engine/internal/domain/vo/execution_status.go:19-39 | the six edges of the status machine; a status is terminal exactly if it has none |
| Witnesses.AttemptsMayExceedMax | execution-engine/internal/infrastructure/persistence/mysql/outbox_repository.go:115-130 | a concrete run with a crashed relay in which a row is claimed more than MaxAttempts times |
| Witnesses.ClaimExceedsExactly | execution-engine/internal/infrastructure/persistence/mysql/outbox_repository.go:97-130 | a claim puts a row above MaxAttempts if and only if it takes over an expired lease on a row that had used its attempts |
| Witnesses.MismatchMayAddRows | execution-engine/internal/usecase/dispatch_app_service.go:439-445 | a concrete run in which a version-mismatch chunk leaves a new record and message behind |
| FastPath.MismatchKeepsNewRows | execution-engine/internal/usecase/dispatch_app_service.go:439-445 | a version-mismatch chunk leaves the tables alone if and only if all its cases were already stored under the request |
| RelayProgress.ClaimsBounded | execution-engine/internal/usecase/outbox_relay.go:100-180 | in every run in which no claim takes over an expired lease, each row is claimed at most MaxAttempts times |
| RelayProgress.CommitsMeanNoTakeover | execution-engine/internal/infrastructure/persistence/mysql/outbox_repository.go:97-134 | a run in which every relay pass ends with a write-back that commits takes no lease over: every leased row has a relay at work on it, and one that was overtaken could not commit |
| RelayProgress.CommittedClaimsBounded | execution-engine/internal/usecase/outbox_relay.go:100-180 | if every relay pass of a run commits, each row is claimed at most MaxAttempts times |
| RelayProgress.RunSpends | execution-engine/internal/infrastructure/persistence/mysql/outbox_repository.go:83-136 | in runs without a takeover every claim is paid from a budget of MaxAttempts minus attempts over the unsettled rows, which nothing ever refills |
| RelayProgress.TakeoverDefeatsHolder | execution-engine/internal/infrastructure/persistence/mysql/outbox_repository.go:171-189 | once a row has been taken over, the earlier pass never commits, however the run goes on |
| RelaySettling.SettlesUnderTraffic | execution-engine/internal/usecase/outbox_relay.go:100-195 | from every reachable state, rows stranded PROCESSING by a crashed relay and rows above MaxAttempts included: after MaxAttempts committed passes per message (or just as many as the messages need), each of whose claims met no lock and found one of the oldest messages due unless all of those had ended, all of those messages are PUBLISHED or DEAD and stay so, whatever new messages, fast paths, callbacks, crashes and other passes ran before, between, during and after those passes |
| RelaySettling.CommittedPassesSettle | execution-engine/internal/usecase/outbox_relay.go:100-195 | from every reachable state: as long as the listed messages have not all ended, each committed pass that claims one of them has lowered what they need by at least one, whatever else ran; after as many such passes as they need, all of them have ended |
| RelaySettling.DueTakesListed | execution-engine/internal/infrastructure/persistence/mysql/outbox_repository.go:99-107 | a claim that meets no lock takes one of the oldest messages whenever one of them is due |
| RelaySettling.PassesSettle | execution-engine/internal/usecase/outbox_relay.go:100-195 | from every reachable state, passes that run alone as time advances leave every message PUBLISHED or DEAD, after at most as many passes as the messages need |
| RelaySettling.EnoughPasses | execution-engine/internal/usecase/outbox_relay.go:100-195 | MaxAttempts passes per message are always enough |
| RelaySettling.CanSettle | execution-engine/internal/usecase/outbox_relay.go:100-195 | such passes exist from every reachable state: there is always a next pass that finds every unsettled message due, and a list of them that settles everything |
| RelaySettling.DueRoundsSettle | execution-engine/internal/usecase/outbox_relay.go:100-195 | from every reachable state there are passes as SettlesUnderTraffic asks for, no more than the oldest messages need, that leave all of them ended |
| RelaySettling.PassIsRound | execution-engine/internal/usecase/outbox_relay.go:100-180 | a pass that runs alone is a committed claim, publish and write-back of the state machine: nobody has touched its rows |
| Relay.PlanPartitions | execution-engine/internal/usecase/outbox_relay.go:132-164 | every claimed id goes to exactly one of success, retry and dead, by acknowledgement and by the attempts of its claimed copy |
| Relay.RetryNotEarly | execution-engine/internal/usecase/outbox_relay.go:176-195 | when the doublings fit in 64 bits, the common retry time is no earlier than now plus the backoff of each retried row's own attempts |
| Relay.CommonToken | execution-engine/internal/usecase/outbox_relay.go:109-117 | the token checks: a token comes back exactly if all claimed messages carry one non-empty token |
| Relay.SplitFailures | execution-engine/internal/usecase/outbox_relay.go:119-164 | the split loop computes the plan, whose attempt Relay.LargestIsOfFailed pins, and one in-memory record per dead id, already marked DISPATCH_FAILED |
| Backoff.LoopMeetsDelay | execution-engine/internal/usecase/outbox_relay.go:183-195 | for Initial up to Max, the 64-bit loop equals min(Initial * 2^(n-1), Max) for every n if and only if its doublings do not overflow on the way to the cap |
| Backoff.SafeCap | execution-engine/internal/usecase/outbox_relay.go:183-195 | it does for every cap up to 2^62: the doublings fit, and the loop returns the intended delay of every attempt |
| Backoff.LargeCapOverflows | execution-engine/internal/usecase/outbox_relay.go:183-195 | a concrete cap above 2^62 with which the loop goes wrong |
| Backoff.DelayMonotone | execution-engine/internal/usecase/outbox_relay.go:183-195 | more attempts never wait less |
| Backoff.DelayDoubles | execution-engine/internal/usecase/outbox_relay.go:183-195 | the first intended delay is Initial and each further one is twice the one before it, up to the cap |
| Backoff.RetryBackoff | execution-engine/internal/usecase/outbox_relay.go:183-195 | the loop returns what the 64-bit doubling with a cap computes, wrap-around included |
| Store.SelectionIsUnique | execution-engine/internal/infrastructure/persistence/mysql/outbox_repository.go:99-107 | the rows a claim takes are determined by the table, the clock, the limit and the locked rows |
| Store.SelectionMeans | execution-engine/internal/infrastructure/persistence/mysql/outbox_repository.go:99-107 | on the fields of the rows: a claim takes PENDING rows whose available_at is reached and PROCESSING rows whose lease has run out, oldest first and none that is locked, and all of these when the limit is not used up |
| Store.LastNameWins | execution-engine/internal/domain/service/execution_service.go:34-42 | the name under a case id is that of the last case of the chunk with this id |
| Statements.AddMeans | execution-engine/internal/infrastructure/persistence/mysql/execution_repository.go:28-48 | a record whose request and case are stored changes nothing and comes back as stored; any other is stored as it is under the next id |
| Statements.AddMessagesMean | execution-engine/internal/infrastructure/persistence/mysql/outbox_repository.go:42-76 | a batch of messages keeps what is stored, stores each new execution's first message as it is, and numbers them in the order of the batch, which is the order in which relays take them |
| Statements.StatusesMean | execution-engine/internal/infrastructure/persistence/mysql/execution_repository.go:153-190 | an error exactly if a status other than WAIT is listed for a missing row; otherwise exactly the listed rows in WAIT take a status listed for them |
| Statements.UpdateMeans | execution-engine/internal/infrastructure/persistence/mysql/outbox_repository.go:171-189 | an error exactly if a listed row is missing, is not free (no token) or is not leased under the token; otherwise exactly the listed rows change, in state, lease, token, published_at and available_at only |
| StoreEffects.PersistChunkEffect | execution-engine/internal/usecase/dispatch_app_service.go:406-418 | phase one of a chunk always succeeds on well-formed tables, keeps every stored row, adds a WAIT record together with a PENDING message for each new case, and reads back what is stored |
| StoreEffects.SingleIsChunk | execution-engine/internal/usecase/dispatch_app_service.go:133-153 | phase one of a single case is phase one of a chunk of one case |
| StoreEffects.NewRowsCarry | execution-engine/internal/usecase/dispatch_app_service.go:406-418 | each new row carries the request, version and grace of the call and the id and name of the last case with its id; it belongs to a case the request did not know, and each such case has got one |
| StoreEffects.BatchAddMeans | execution-engine/internal/infrastructure/persistence/mysql/execution_repository.go:50-99 | BatchAdd errors exactly on mixed requests, and otherwise hands back in order the stored row of each request and case, or for records without a request the record under consecutive new ids |
| FastPath.SameRequestSameExecution | execution-engine/internal/infrastructure/persistence/mysql/execution_repository.go:50-99 | every call with the same request id and case id gets the same execution id, whatever happens between the calls |
| FastPath.SettledChunkReplays | execution-engine/internal/usecase/dispatch_app_service.go:436-459 | re-running a chunk whose messages are all settled changes nothing in the whole system, publishes nothing, and reports PUBLISHED ids as success and DEAD ids as failed, in order |
| FastPath.ReplaySorts | execution-engine/internal/domain/entity/outbox_message.go:63-72 | the replay sorts a chunk, in order, by its stored messages: taken or published, dead, and still to publish |
| FastPath.MarkedCopiesAgree | execution-engine/internal/domain/service/execution_service.go:50-65 | the copies that a chunk writes back never carry two different statuses for one id |
| FastPath.FrameConservesIds | execution-engine/internal/usecase/dispatch_app_service.go:401-515 | every progress frame lists each execution id of its chunk exactly once across success and failed, or lists none and carries an error, whatever the executor answered |
| FastPath.PendingTasks | execution-engine/internal/domain/entity/execution_task.go:17-32 | every pending record of a read-back chunk gets its task, in order, with the execution id, case id and version of its stored message; it is the one a relay would send if and only if the case still has the name that the message kept |
| FastPath.TasksCarryCases | execution-engine/internal/usecase/dispatch_app_service.go:461-466 | the chunk publishes, for each pending record in order, the task of its own case under the case's own name |
| FastPath.AssembledMeans | execution-engine/internal/domain/entity/execution_task.go:17-32 | exactly the records with a case name have a task |
| FastPath.BatchAssemble | execution-engine/internal/domain/entity/execution_task.go:17-32 | the assembling loop, which skips a record without a case name |
| FastPath.CreateBatchRecords | execution-engine/internal/domain/service/execution_service.go:34-42 | the loop that creates a WAIT record per case, in order, with the call's request and version; the name under each case id is that of the last case with this id |
| FastPath.DispatchBatch | execution-engine/internal/domain/service/execution_service.go:50-65 | the loop that marks failed records in place and skips illegal moves |
| FastPath.SplitReplay | execution-engine/internal/usecase/dispatch_app_service.go:436-459 | the replay loop, including its early return on a different version |
| BatchResult.CompletePartitions | execution-engine/internal/usecase/dispatch_app_service.go:555-582 | any executor answer (overlapping, repeated, foreign or missing ids) over distinct records becomes a duplicate-free partition in record order; failure wins and unknown ids are failed |
| BatchResult.CompleteBatchResult | execution-engine/internal/usecase/dispatch_app_service.go:555-582 | the in-place version, reusing both input slices, computes that partition |
| Repository.UniqueInt64s | execution-engine/internal/infrastructure/persistence/mysql/outbox_repository.go:199-210 | keeps first occurrences; the count is the number of distinct values |
| Repository.Database.Add | execution-engine/internal/infrastructure/persistence/mysql/execution_repository.go:28-48 | insert or ignore, then overwrite the aggregate with the stored row |
| Repository.Database.BatchAdd | execution-engine/internal/infrastructure/persistence/mysql/execution_repository.go:50-99 | the batch insert with its mixed-request error, read-back loop and missing-row error |
| Repository.Database.Save | execution-engine/internal/infrastructure/persistence/mysql/execution_repository.go:122-147 | conditional on WAIT; an error only when the row is missing |
| Repository.Database.BatchUpdateStatus | execution-engine/internal/infrastructure/persistence/mysql/execution_repository.go:153-190 | grouping, conditional updates and missing-row check; with one status per id the outcome is independent of the group order |
| Repository.Database.AddOutbox | execution-engine/internal/infrastructure/persistence/mysql/outbox_repository.go:28-39 | insert or ignore one message and read the stored row back |
| Repository.Database.BatchAddMessages | execution-engine/internal/infrastructure/persistence/mysql/outbox_repository.go:42-76 | insert or ignore, then overwrite every message with its stored row |
| Repository.Database.ClaimPending | execution-engine/internal/infrastructure/persistence/mysql/outbox_repository.go:83-136 | leases the due rows with the smallest ids up to the limit (100 if none is set) and hands out copies equal to what is now stored: every leased row was PENDING with its available_at reached or PROCESSING with its lease run out, and only its state, attempts, lease and token change |
| Repository.Database.UpdateByIds | execution-engine/internal/infrastructure/persistence/mysql/outbox_repository.go:171-189 | the compare-and-update: it succeeds exactly when every listed row met the guard |
| Repository.Database.PersistChunkTx | execution-engine/internal/usecase/dispatch_app_service.go:405-429 | phase one of a chunk as a transaction, rolled back on error |
| Repository.Database.PersistSingleTx | execution-engine/internal/usecase/dispatch_app_service.go:133-157 | phase one of a single case as a transaction, rolled back on error |
| Repository.Database.ChunkWriteBackTx | execution-engine/internal/usecase/dispatch_app_service.go:489-500 | phase three of a chunk as a transaction, rolled back when a row was missed |
| Repository.Database.SingleWriteBackTx | execution-engine/internal/usecase/dispatch_app_service.go:189-213 | phase three of a single case: the stored record is read again, so a failure over a record that left WAIT rolls back |
| Repository.Database.RelayWriteBackTx | execution-engine/internal/usecase/outbox_relay.go:166-180 | the write-back of a pass as a transaction, rolled back when a row was missed |
| Repository.AllWritten | execution-engine/internal/infrastructure/persistence/mysql/execution_repository.go:165-189 | the grouped conditional updates add up to one conditional write per id |
| Domain.ExecutionRecord.Transit | execution-engine/internal/domain/entity/execution_record.go:65-75 | legal moves change the status and, when terminal, the finish time; illegal ones nothing |
| Domain.ExecutionRecord.MarkAsDispatchFailed | execution-engine/internal/domain/entity/execution_record.go:44-48 | succeeds exactly from WAIT |
| Domain.ExecutionRecord.MarkAsFailed | execution-engine/internal/domain/entity/execution_record.go:50-54 | succeeds exactly from WAIT or RUNNING |
| Domain.ExecutionRecord.MarkAsRunning | execution-engine/internal/domain/entity/execution_record.go:56-63 | succeeds exactly from WAIT and then sets the execution time |
| Engine.DispatchOnce | execution-engine/internal/usecase/outbox_relay.go:100-181 | a relay pass for every configuration, with whatever others commit between its claim and its write-back: which rows it claims, the tables it leaves for every answer of the executor, and an error exactly if it had claimed something and its write-back does not commit |
| Engine.PassIsSteps | execution-engine/internal/usecase/outbox_relay.go:100-181 | those tables are what a claim, a publish and a write-back of one actor of the state machine leave, with any steps of the others in between |
| Engine.DispatchOneBatch | execution-engine/internal/usecase/dispatch_app_service.go:392-516 | one chunk, with whatever others commit between its two transactions: the tables it leaves and the frame it reports |
| Engine.ChunkIsSteps | execution-engine/internal/usecase/dispatch_app_service.go:392-516 | those tables are what the steps of one actor of the state machine leave, with any steps of the others in between |
| Answers.FramesStayTrue | execution-engine/internal/usecase/dispatch_app_service.go:436-515 | the frame that dispatchOneBatch reports when its write-back commits, with any steps of others before and after the publish and any steps afterwards: each id it lists as success is published with an acknowledgement or was taken by a relay, each id it lists as failed is DEAD with its record out of WAIT |
| Answers.AloneIsCall | execution-engine/internal/usecase/dispatch_app_service.go:461-500 | from every reachable state, a chunk that publishes and runs alone always commits its write-back, whatever the broker answers |
| Answers.ReplayedFramesStayTrue | execution-engine/internal/usecase/dispatch_app_service.go:436-459 | the frame it reports for a chunk with nothing left to publish, or of another version, stays true in the same sense over every later run |
| Engine.ExecuteCase | execution-engine/internal/usecase/dispatch_app_service.go:111-217 | a single case, with whatever others commit between its two transactions: the tables it leaves and its reply; without a version or a case it is refused and nothing changes, otherwise it names an execution |
| Engine.CaseIsSteps | execution-engine/internal/usecase/dispatch_app_service.go:111-217 | those tables are what the steps of one actor of the state machine leave, with any steps of the others in between |
| Answers.RepliesStayTrue | execution-engine/internal/usecase/dispatch_app_service.go:163-217 | when its write-back commits, a single call replies without an error, and the reply stays true, with any steps of others between its phases and after it |
| Answers.AloneSingleCommits | execution-engine/internal/usecase/dispatch_app_service.go:189-213 | a single call that publishes and runs alone commits if and only if the publish succeeded or the stored record is still in WAIT |
| Answers.ReplayedRepliesStayTrue | execution-engine/internal/usecase/dispatch_app_service.go:163-185 | so does the reply of a retry that is answered from the stored message |
| Outcomes.SingleAnswers | execution-engine/internal/usecase/dispatch_app_service.go:156-166 | the reply of a single call that publishes nothing, by the stored row: an error for another version, WAIT for a published or leased message, DISPATCH_FAILED for a dead one; exactly a PENDING message of the same version is published |
| Outcomes.SingleOutcome | execution-engine/internal/usecase/dispatch_app_service.go:163-217 | a single call that publishes, with any steps of others in between: without a broker error and a failed id it answers WAIT and its message is PUBLISHED; otherwise it answers DISPATCH_FAILED, its message is DEAD and its record, and no other, DISPATCH_FAILED; it has an error, and changes nothing, exactly if the message has left PENDING or, after a failed publish, the record WAIT |
| Outcomes.ChunkAnswers | execution-engine/internal/usecase/dispatch_app_service.go:436-515 | what the frame of a chunk lists, case by case: success for stored rows that are published, leased, or PENDING and reported by the broker; failed for dead rows and PENDING ones that are not reported; nothing but an error when a stored version differs |
| Outcomes.ChunkOutcome | execution-engine/internal/usecase/dispatch_app_service.go:461-515 | what the write-back of a chunk leaves, with any steps of others in between: if all its messages are still PENDING, reported ones PUBLISHED, the others DEAD with their records moved from WAIT to DISPATCH_FAILED, and a frame error exactly if the broker answered with one; otherwise no change and a frame error |
| Outcomes.PassOutcome | execution-engine/internal/usecase/outbox_relay.go:119-181 | what a relay pass leaves, with any steps of others in between: if its rows are as it claimed them, reported ones PUBLISHED, unreported ones PENDING (when the doublings fit, at exactly its clock plus the delay of the largest failed attempt) or, without attempts left, DEAD; otherwise no change and an error |
| Confirms.SelectOrderIrrelevant | execution-engine/internal/infrastructure/mq/rabbitmq/executor_client.go:632-739 | on the normal exit success is exactly the acknowledged, never returned ids in confirm order and failed the others, for every interleaving of the two queues |
| Confirms.RoutableMeans | execution-engine/internal/infrastructure/mq/rabbitmq/executor_client.go:632-739 | success on the normal exit means that the first confirm among the events was an ack and no event returned the id |
| Confirms.CollectorPlaces | execution-engine/internal/infrastructure/mq/rabbitmq/executor_client.go:632-700 | where each id is placed, said without the collector: by its first confirm and by the returns read before it |
| Confirms.FinishPartitions | execution-engine/internal/infrastructure/mq/rabbitmq/executor_client.go:706-738 | the final drain and the compaction only move ids: nothing is lost or listed twice |
| Confirms.GiveUpPartitions | execution-engine/internal/infrastructure/mq/rabbitmq/executor_client.go:634-661 | an early exit fails everything that still waits: nothing is lost or listed twice |
| Confirms.SuccessMeans | execution-engine/internal/infrastructure/mq/rabbitmq/executor_client.go:634-701 | without the drain an id sits in success if and only if an ack of it was read, as a first confirm, before any return of it, even when several messages carry one id |
| Confirms.EarlyExitKeepsReturned | execution-engine/internal/infrastructure/mq/rabbitmq/executor_client.go:634-661 | a concrete early exit with a returned id in success |
| Publisher.MoveReturned | execution-engine/internal/infrastructure/mq/rabbitmq/executor_client.go:724-738 | the compaction of the success slice in its own backing array |
| Publisher.WaitConfirms | execution-engine/internal/infrastructure/mq/rabbitmq/executor_client.go:619-739 | the collector loops over the two queues: the answer for what was read, a broken channel exactly on early exits, and an early exit only for a cancelled caller, the deadline, a closed channel or an ended confirm stream |
| Publisher.AllConfirmed | execution-engine/internal/infrastructure/mq/rabbitmq/executor_client.go:619-739 | after the normal exit the confirm of every message of the batch has arrived and been read, whatever the broker does and whatever an earlier batch left in the queues |
| Publisher.NothingLeft | execution-engine/internal/infrastructure/mq/rabbitmq/executor_client.go:619-739 | with a broker that keeps its word, moreover nothing about the batch is queued or still to come |
| Publisher.PublishAll | execution-engine/internal/infrastructure/mq/rabbitmq/executor_client.go:550-588 | the publish loop: each task that can be encoded takes the next sequence number in order, until a cancelled caller or a failed publish, which breaks the channel, ends it; exactly then there is an error |
| Publisher.AnswerReports | execution-engine/internal/infrastructure/mq/rabbitmq/executor_client.go:619-739 | which ids the collector's answer has in success, by the reads and the events seen, for duplicate ids too |
| Publisher.BatchRun | execution-engine/internal/infrastructure/mq/rabbitmq/executor_client.go:535-614 | on every exit success and failed together hold each task id once, even if an earlier batch left events on the channel, and an error exactly if the publish loop was cut short or some id failed; on an early exit success is exactly the sent ids with an ack that was read, as a first confirm, before any return of the id; on the normal exit exactly the sent ids whose first confirm was an ack and that were never returned in what was seen; on a channel that stays unbroken every message of the batch is confirmed, and on a clean channel with a broker that keeps its word it is clean again |
| Publisher.Execute | execution-engine/internal/infrastructure/mq/rabbitmq/executor_client.go:510-528 | a single publish succeeds exactly if the message was sent, its first confirm was an ack, no return of it was seen and the batch did not give up; then the broker has acknowledged it |
| ChannelPool.PooledChannelsReusable | execution-engine/internal/infrastructure/mq/rabbitmq/executor_client.go:383-495 | in every run of borrowing, publishing, releasing, mending, disconnecting, reconnecting and closing, a pooled channel has no unresolved sequence number, is in the pool once and held by no one, no channel has two borrowers, and the pool never exceeds its capacity |
| ChannelPool.RunBorrowed | execution-engine/internal/infrastructure/mq/rabbitmq/executor_client.go:535-614 | a batch on a borrowed channel is a publish step of that pool, whatever the broker does and whatever was left on the channel: the sequence numbers it leaves unconfirmed are on a broken channel, and with a broker that keeps its word it leaves nothing else on a clean channel that stays unbroken |
| ChannelPool.PooledChannelsClean | execution-engine/internal/infrastructure/mq/rabbitmq/executor_client.go:383-495 | with a broker that keeps its word, in every run a pooled channel has no event of an earlier batch queued or to come |
| ChannelPool.StaleExactly | execution-engine/internal/infrastructure/mq/rabbitmq/executor_client.go:289-398 | in every run of a new client, while it is connected: the pooled channels of other connections are exactly those that release put back unbroken, after the drain or under another connection, and that nobody has taken out since |
| ChannelPool.FreshUnlessLate | execution-engine/internal/infrastructure/mq/rabbitmq/executor_client.go:289-398 | without such a release the pool of a connected client never holds a channel of another connection, however often the connection was lost |
| ChannelPool.LateReturnSurvives | execution-engine/internal/infrastructure/mq/rabbitmq/executor_client.go:299-398 | such a release leaves a stale channel that stays in the pool, over every later reconnect, until it is taken out |
| ChannelPool.StaleChannelLent | execution-engine/internal/infrastructure/mq/rabbitmq/executor_client.go:289-453 | a concrete run of a new client: a channel is lent, the connection lost, the pool drained, the channel released, the connection replaced, and the next borrower gets the channel of the lost connection |
| ChannelPool.Client.TakeChannel | execution-engine/internal/infrastructure/mq/rabbitmq/executor_client.go:430-437 | the borrower gets the channel at the head of the pool, with nothing unresolved, that nobody else holds |
| ChannelPool.Client.ReleaseChannel | execution-engine/internal/infrastructure/mq/rabbitmq/executor_client.go:442-464 | the first critical section of release: the channel is in the pool, reusable and held by nobody, exactly if it is unbroken, the client open and the pool has room; the caller goes on to mend exactly the broken channels of an open client |
| ChannelPool.Client.PutMended | execution-engine/internal/infrastructure/mq/rabbitmq/executor_client.go:481-494 | the second critical section: a replacement is pooled exactly if the client is open with room and still on the replacement's connection, so mending never leaves a stale channel |
| ChannelPool.Client.Reconnect | execution-engine/internal/infrastructure/mq/rabbitmq/executor_client.go:374-398 | it commits exactly if the client is open and no other disconnect came between; then the channels it adds are of the new connection, and a drained pool is exactly the dialed channels |
| PipelineSafety.NeverPanics | execution-engine/internal/usecase/dispatch_app_service.go:318-387 | in every run, with cancellation, a failing callback or a failing scan at any point, no send happens on a closed channel, no channel is closed twice and the wait group stays non-negative |
| PipelineSafety.NoDeadlock | execution-engine/internal/usecase/dispatch_app_service.go:310-387 | in every reachable state some goroutine can step unless all have returned |
| PipelineSafety.InFlightBounded | execution-engine/internal/usecase/dispatch_app_service.go:312-363 | at most 3 * WorkerCount + 1 batches of cases are held at any time, and at most WorkerCount frames wait for the callback |
| PipelineLoad.BoundsAreReached | execution-engine/internal/usecase/dispatch_app_service.go:312-385 | both bounds are reached in one run, for every number of workers, with enough pages and a slow callback |
| PipelineSafety.ScannedPagesOnly | execution-engine/internal/usecase/dispatch_app_service.go:318-363 | in every run, what is queued or dispatched is a scanned page, whole, under its own index |
| PipelineErrors.FirstErrorWins | execution-engine/internal/usecase/dispatch_app_service.go:310-387 | the call returns the error of the first goroutine that returned one, read off the steps, and nil if none did; a cancellation error only if the caller cancelled, so the workers that a failed scan or callback stops never hide that failure |
| PipelineProgress.RunsEnd | execution-engine/internal/usecase/dispatch_app_service.go:310-387 | the goroutines of a call take at most 8 * batches + 3 * workers + 7 steps, whatever the scheduler does |
| PipelineProgress.CanFinish | execution-engine/internal/usecase/dispatch_app_service.go:310-387 | from every reachable state the call can be run to its end |
| PipelineProgress.RunConserves | execution-engine/internal/usecase/dispatch_app_service.go:318-387 | for every weight, the batches sent so far are all somewhere, each once: queued, with a worker, on the way to the callback, called back or dropped |
| PipelineProgress.NilMeansExactlyOnce | execution-engine/internal/usecase/dispatch_app_service.go:318-387 | a nil return means that the callback ran exactly once for each batch that entered the channel and for nothing else |
| PipelineProgress.NilMeansComplete | execution-engine/internal/usecase/dispatch_app_service.go:318-387 | if the caller never cancelled, a nil return covers all scanned batches: indices 0 to k-1 once each, sizes adding up to the scanned cases |
| PipelineProgress.CancelMayReturnNil | execution-engine/internal/usecase/dispatch_app_service.go:336-356 | a concrete run in which the caller cancels and the call returns nil with a batch unscanned |
| PipelineProgress.NilCompleteExactly | execution-engine/internal/usecase/dispatch_app_service.go:328-356 | on a nil return every page was called back once if and only if the producer's callback was not cut short: it gave up no offer, and its scan was not interrupted before the last page |
| PipelineProgress.RunningTotals | execution-engine/internal/usecase/dispatch_app_service.go:373-385 | TotalDispatched is the running sum of successes and at most TotalPlanned, without wrapping, when the scanned cases are within the count and fit in 32 bits |
| Pipeline.DispatchGivesFrame | execution-engine/internal/usecase/dispatch_app_service.go:392-516 | what a worker makes of a batch is a well-formed frame, whatever the store and the executor did |

## Left out

- SQL text, GORM, MySQL isolation levels and auto-increment gaps: a transaction is one step on two maps, and SKIP LOCKED is the set of rows that other transactions hold at the claim.
- The scan itself (FindInBatches): it yields given batches, or fails, or is interrupted.
- The AMQP library, dialing and heartbeats: a channel is the list of events that the broker will send on it, and a publish that fails may or may not have reached the broker.
- JSON encoding: which tasks cannot be encoded, where the caller cancels the publish loop and which publish fails are inputs of the loop (`Publisher.Fate`).
- Randomness: request ids and lease tokens are parameters; a missing request id has been replaced by a fresh one before the protocol starts (dispatch_app_service.go:591-604).
- Timestamps other than available_at, lease_until and whether published_at is set: execution records store no times, and the finish time that BatchUpdateStatus persists is not part of the tables.
- Error texts, last_error and logging: a batch-level error is one bit.
- Clock skew between engines: every relay reads one clock, possibly late.
- The limit on concurrent batch calls (batchSlots) and the count query: both precede the pipeline.
- The outbox-disabled mode and its branch of replayDispatchedStatus.
- gRPC, configuration loading, server lifecycle, object mapping and value-object trimming: plumbing.
- Client.Close timing and reconnect liveness: they depend on the network and on deadlines.
- How borrow chooses between its ready alternatives: a borrower may take a channel whenever the pool has one, which allows every behaviour of the source and more.
- Repository.Database.BatchUpdateStatus: when copies of one id carry different statuses, the order of the groups decides; the contract then only says that each row took one of them. FastPath.MarkedCopiesAgree shows that this does not happen.
- Publisher.WaitConfirms: the failed list is a sequence, not a slice with a shared backing array; the source never reuses it.
- Frames and replies with an error: they promise nothing about the stored rows, and the model does not either.
- Exactly-once delivery: the engine promises at-least-once only.
