# A model of the MongoDB Rust driver

The driver keeps state across whole runs: sessions and transactions, a retry loop, change streams that
resume by themselves, batched writes that merge partial outcomes, connections that are lent and returned.
This project models that code and proves what it does over every run, every interleaving and every input.

`dafny verify dfyconfig.toml` checks the project.

## How it is built

| file | module | what it models |
|---|---|---|
| `Errors.dfy` | `Errors` | the error type, its classification along the source chain, redaction |
| `Session.dfy` | `Sessions` | sessions, transactions, clocks, transaction numbers; the class `ClientSession` updates them in place |
| `Executor.dfy` | `Executor` | the executor as a machine: one step per decision, reading its inputs from outside and leaving events behind |
| `ExecutorLoop.dfy` | `ExecutorLoop` | the executor as the source writes it, loops over a `ClientSession`, proved to do what the machine does |
| `Protocol.dfy`, `SessionRuns.dfy`, `Pins.dfy`, `Dropped.dfy` | same names | an observer that accepts every run of the machine, and what that says about the log of a session |
| `Retries.dfy`, `Progress.dfy` | same names | which errors make an operation try again, in every run; what a call sends and what a reply leaves behind |
| `SessionPool.dfy`, `TokenBucket.dfy`, `Client.dfy`, `ClientRuns.dfy` | `SessionPool`, `TokenBucket`, `Clients`, `ClientRuns` | a client: many sessions, the pool they come from, the tasks that abort and return them, the retry bucket |
| `ChangeStream.dfy` | `ChangeStreams` | change streams against a server log |
| `InsertMany.dfy`, `BulkWrite.dfy` | `InsertMany`, `BulkWrites` | the two batched writes |
| `Utf8.dfy`, `JsonPrinter.dfy`, `Bson.dfy` | same names | truncation at character boundaries, the streaming printer, raw BSON |
| `Connection.dfy`, `Generation.dfy`, `GridFs.dfy` | `Connections`, `Generations`, `GridFs` | streamed replies, pool generations, GridFS chunks |
| `Machines.dfy`, `Wrappers.dfy` | same names | running a machine over a list of inputs; `Option` and `Result` |

Three habits run through the project. What the driver does not decide (a reply, a lost connection, how many
documents fit a batch, whether a clock says that a session expired) comes in as an input, and theorems hold
for all inputs. Code that loops and assigns is a method, proved equal to a function; the theorems are about
the function. A claim about a run speaks of its log only: `Since(log, p, q)` says that an event `p` happened
and no event `q` after it.

## Where the code and its promises part

Each of these has a concrete run and, where the promise holds otherwise, the exact condition.

- A change stream that is polled again after a failed resume reads on with the old cursor and skips what was
  in a lost reply (`ChangeStreams.PollingAfterFailedResumeSkips`). A resume whose command is built twice, for
  a retry, has no resume token the second time and starts over (`ChangeStreams.RetriedResumeRepeats`). In
  every other case the events are contiguous: `ChangeStreams.FaithfulExactlyWhenSteady`.
- A batch of a bulk write that is built twice counts its models twice, and one that fails to build part way
  counts models that are in no command; the models behind it are never sent
  (`BulkWrites.RetriedBatchSkipsAModel`, `BulkWrites.AllAttemptedSentExactlyWhen`). A fatal error that
  comes with a bulk write error is forgotten if an earlier batch failed, and the run goes on
  (`BulkWrites.FatalErrorEndsExactlyWhen`).
- An ordered `insert_many` stops at a batch that has only a write concern error, so a later refusal goes
  unreported (`InsertMany.ConcernHidesRefusal`, `InsertMany.WriteErrorsDoNotDependOnBatches`).
- Closing the last connection to a service forgets the service's generation, and a connection that was being
  established meanwhile can pass for fresh although the service was cleared
  (`Generations.ClearedConnectionPassesForFresh`). Exactly which connections are judged rightly is
  `Generations.JudgedRightlyExactlyWhen`.
- A connection that goes back to the pool in the middle of a stream is accepted
  (`Connections.HandOverMidStreamMixesReplies`, `Connections.HandOverIsSafeExactlyWhen`).
- An operation that is dropped before it returns leaves its transaction to be opened again, by another operation
  (`Dropped.DroppedOperationOpensAgain`, `SessionRuns.OneOperationOpens`).
- After an error took the mongos pin away, a transaction is not pinned again, and neighbouring commands can go
  to different servers (`Pins.NeighboursMayPart`, `Pins.ServerIsForcedExactlyWhenPinned`). An abort drops its
  pin before a retry, but the server it asked for was read before that (`Pins.AbortStaysOnItsMongos`); the
  comment at `driver/src/operation/abort_transaction.rs:78-81` says otherwise.
- Check-in is meant to clear expired sessions out of the pool but tests the session being returned
  (`SessionPool.CheckInKeepsExpired`, `SessionPool.CheckInClearsExactlyWhen`).
- Redaction does not reach an error that another one carries: a GridFS abort error, the I/O error that a
  GridFS stream makes of a driver error, or a user's custom value (`Errors.RedactMissesCarried`,
  `Errors.RedactCleansDeepIff`).

## Model

| member | source | states |
|---|---|---|
| SessionRuns.TransactionFlags | driver/src/client/executor.rs:869-903 | in every run, a command carries startTransaction exactly when a transaction was started and neither its first operation nor the transaction ended since, and autocommit exactly when a transaction was started and not reset since; a command that does not name the session carries neither |
| SessionRuns.OneOperationOpens | driver/src/client/executor.rs:398-443 | a command that opens a transaction belongs to the operation that began last since the start, and that is the only operation that began since then exactly when none was dropped in between |
| SessionRuns.OpenersAreOneOperation | driver/src/client/executor.rs:398-443 | two commands that open the same transaction belong to one operation, if none was dropped in between |
| Dropped.DroppedOperationOpensAgain | driver/src/client/executor.rs:431-443 | a run in which a dropped operation and the next one both open the same transaction |
| Dropped.AbandonedLeavesNothing | driver/src/client/executor.rs:431-443 | an operation that opened a transaction and was dropped leaves the session exactly as it was |
| SessionRuns.SecondCommandNeedsExcuse | driver/src/client/executor.rs:531-541 | inside a transaction an operation sends a second command only after an overload retry or a reauthentication |
| SessionRuns.TransactionNumbers | driver/src/client/session.rs:346-364 | the transaction number of every command: that of the transaction it belongs to, or the one its own operation was given, the same on every attempt, or none |
| SessionRuns.NumbersGrow | driver/src/client/executor.rs:524-548 | a transaction or retryable write gets a number above all earlier ones of the session, and an operation at most one |
| SessionRuns.RecoveryTokens | driver/src/client/executor.rs:882-901 | a command carries a recovery token exactly when it goes to a mongos after commit or abort, and it is that of the last ok mongos reply of the transaction |
| SessionRuns.SameMongos | driver/src/client/executor.rs:473-496 | once a command opened a transaction on a mongos, every command goes there until the pin is lost |
| SessionRuns.ClusterTimesAreGossiped | driver/src/client/executor.rs:915-920 | every command carries a cluster time at least as late as each one processed before |
| SessionRuns.ClocksAreMaxima | driver/src/client/session.rs:295-309 | after replies in any order both clocks of a session are the maxima of the times processed |
| SessionRuns.RetriesAreBounded | driver/src/client/executor/retry.rs:91-188 | the retry loop of an operation turns back at most once more than the larger retry limit |
| SessionRuns.NoTransactionIsBare | driver/src/client/session.rs:127-158 | outside transactions a session holds no pin, no options and no recovery token |
| Retries.RetriedExactlyWhen | driver/src/client/executor/retry.rs:91-160 | in every run, a failed connection or command whose error does not ask for a new login is followed at once by a retry with that error exactly when the error deserves one, else by the end of the operation, unless the operation made a result of it; what deserves one is spelled out by kinds, labels and the thirteen codes |
| Retries.RetriesAreDeserved | driver/src/client/executor/retry.rs:100-116 | no operation in any run goes back to the top of the loop for another error |
| Retries.TriesAgainExactlyWhen | driver/src/client/executor.rs:451-541 | after such an error the operation gets another command ready on the next connection exactly when the errors so far leave it a try, the bucket grants an overload retry, and the server can serve it; otherwise it ends |
| Retries.RunsAreFine | driver/src/client/executor.rs:445-612 | the observer of errors and tries agrees to every event of every run |
| Progress.OperationSends | driver/src/client/executor.rs:347-548 | an operation that finds a server sends one command, to the pinned server or connection if there is a pin, with a fresh number exactly if it is a retryable write outside transactions on a server that can retry writes; a transaction that is over is left first |
| Progress.StartStarts | driver/src/client/session/action.rs:25-118 | a transaction starts exactly when none is under way and it is supported, under the next number and without the old recovery token |
| Progress.CommitSends | driver/src/client/session/action.rs:463-497 | a commit after an operation of the transaction, and every commit of that commit, sends commitTransaction in the transaction, under its number and where it is pinned |
| Progress.CommitSendsNothing | driver/src/client/session/action.rs:448-462 | any other commit sends nothing |
| Progress.AbortSends | driver/src/client/session/action.rs:503-548 | an abort after an operation of the transaction sends abortTransaction under its number, where the transaction was pinned |
| Progress.AbortSendsNothing | driver/src/client/session/action.rs:503-548 | any other abort sends nothing |
| Progress.LabelsAreExactly | driver/src/client/executor.rs:1186-1228 | exactly which labels the driver adds to an error in each state of a transaction, and that it changes nothing else |
| Progress.OperationIsSentAgain | driver/src/client/executor.rs:445-612 | a read outside transactions that lost its connection or got one of the thirteen codes, and a retryable write that lost its connection or got a retryable error, is sent again as soon as there is a server, the write under its number |
| Progress.CommitIsSentAgain | driver/src/client/executor.rs:445-612 | so is a commit, under the transaction's number |
| Progress.AbortIsSentAgain | driver/src/client/executor.rs:445-612 | so is an abort, and only the first one goes over the connection that was pinned |
| Progress.OverloadIsSentAgain | driver/src/client/executor.rs:451-541 | after an overload that can be retried the command is sent again, inside transactions too, while tries are left and the bucket grants them |
| Progress.LoginSendsAgain | driver/src/client/executor.rs:790-807 | after a new login the command is sent again over the same connection and under the same number |
| Progress.TimesAreTakenIn | driver/src/client/executor.rs:981-1022 | every reply's times reach the session's clocks, whether it reports success or failure |
| Progress.TokenIsTakenIn | driver/src/client/executor.rs:1024-1047 | an ok mongos reply inside a transaction replaces the recovery token |
| Progress.SuccessEnds | driver/src/client/executor.rs:563-567 | an ok reply that the operation accepts ends it |
| Progress.LostConnectionTaints | driver/src/client/executor.rs:724-728 | a session whose command lost its connection is marked dirty, nothing unmarks it, and only the answer to a command marks it |
| ClientRuns.DroppedGoesTo | driver/src/client/session.rs:406-451 | a dropped session whose transaction is in progress is kept for a task that can abort it, and any other goes back |
| ClientRuns.DroppedTransactionIsAborted | driver/src/client/session.rs:426-451 | that task sends abortTransaction under the transaction's number as soon as there is a server |
| ClientRuns.NeverHandedOutAgain | driver/src/client/session/pool.rs:42-59 | after a command lost its connection, in every continuation of every run of the client its server session is never pooled and never given to a session that is opened |
| Protocol.RunsAreAccepted | driver/src/client/executor.rs:347-807 | every run of the executor from a mirrored state is accepted event by event by the observer, and mirrored at its end |
| Protocol.StepIsGood | driver/src/client/executor.rs:445-807 | every single step of the executor keeps the invariant between session and observer |
| Pins.ServerIsForcedExactlyWhenPinned | driver/src/client/executor.rs:473-496 | the server of the next command is forced exactly when a command of the transaction reached a mongos and the pin was not lost since |
| Pins.NeighboursMayPart | driver/src/client/executor.rs:1186-1228 | a run in which two neighbouring commands of one transaction, with no error between them, go to different mongos |
| Pins.LostReplyUnpins | driver/src/client/executor.rs:1186-1228 | losing the reply to the opening command leaves the transaction in progress and without a pin |
| Pins.UnpinnedGoesAnywhere | driver/src/client/executor.rs:473-496 | in a transaction that lost its pin the next command goes wherever selection sends it, and the pin does not come back |
| Pins.AbortStaysOnItsMongos | driver/src/client/executor.rs:388-396 | an abort of a pinned transaction is sent to its mongos on every attempt |
| ExecutorLoop.AddLabelsAndUpdatePin | driver/src/client/executor.rs:1186-1228 | labels an error and unpins the session as the machine does |
| ExecutorLoop.ParseResponse | driver/src/client/executor.rs:981-1047 | folds a reply into the session as the machine does |
| ExecutorLoop.AdvanceClocks | driver/src/client/executor.rs:1004-1022 | folds the three times of a reply into the session |
| ExecutorLoop.BuildCommand | driver/src/client/executor.rs:809-927 | builds the machine's command, pins the session where it pins, and leaves the session alone where it fails |
| ExecutorLoop.ExecuteOnConnection | driver/src/client/executor.rs:615-807 | the reauthentication loop on one connection is the run of the machine on the same inputs, up to the end or to an input that is missing |
| ExecutorLoop.SelectAndConnect | driver/src/client/executor.rs:453-548 | selecting a server and checking out a connection is one step of the machine |
| ExecutorLoop.ExecuteWithRetry | driver/src/client/executor.rs:445-612 | the retry loop is the run of the machine on the same inputs, up to the end or to an input that is missing |
| ExecutorLoop.ExecuteOperation | driver/src/client/executor.rs:347-443 | an operation, from its validation on, is the run of the machine on the same inputs |
| ExecutorLoop.StartTransactionCall | driver/src/client/session/action.rs:25-118 | starting a transaction is a step of the machine, and says whether it did |
| ExecutorLoop.CommitTransactionCall | driver/src/client/session/action.rs:444-497 | committing is the run of the machine on the same inputs, whether or not a command is sent |
| ExecutorLoop.AbortTransactionCall | driver/src/client/session/action.rs:499-548 | aborting is the run of the machine on the same inputs, whether or not a command is sent |
| Sessions.ClientSession.GetTxnNumberForOperation | driver/src/client/session.rs:352-364 | gives the number of the transaction, or a new one for a retryable write, or none, and advances the session accordingly |
| Sessions.ClientSession.AdvanceClusterTime | driver/src/client/session.rs:295-301 | the session's cluster time becomes the later of the two |
| Sessions.ClientSession.AdvanceOperationTime | driver/src/client/session.rs:303-309 | the session's operation time becomes the later of the two |
| Sessions.ClientSession.ResetTransaction | driver/src/client/session.rs:152-158 | nothing of the transaction is left, and nothing else changes |
| Clients.ClientsAreSafe | driver/src/client/session.rs:406-451 | in every interleaving of operations, drops, check-ins and check-outs each session id has one owner, no dirty session is pooled, the bucket holds at most its capacity, and no write or transaction gets a number that anything before used on that session id |
| Clients.ClientStepIsGood | driver/src/client.rs:439-457 | every step of a client, whoever takes it, keeps that invariant |
| Clients.AdmittedRetriesArePaidFor | driver/src/client.rs:785-822 | over any stretch of any run, ten tokens for each overload retry admitted are covered by the tokens at its start, the first-try successes, eleven for each retried success and the other retry errors |
| Clients.StepBooksExactly | driver/src/client.rs:785-822 | every step of a client changes the bucket by exactly the tokens its events stand for, up to the capacity |
| Clients.SuccessIsBooked | driver/src/client/executor.rs:563-566 | a reply that the operation accepts is booked as a success, of a retry if it was one |
| Clients.BucketIsAsked | driver/src/client/executor.rs:457-459 | an overload retry asks the bucket, and ends the operation if there are fewer than ten tokens |
| Clients.StepNumbers | driver/src/client/executor.rs:524-548 | the transaction numbers that a step of one session can issue or send, which is what the interleaving argument rests on |
| TokenBucket.Bucket.Take | driver/src/client.rs:791-802 | takes ten tokens, and admits, exactly when there are ten, in 16 bits |
| TokenBucket.Bucket.Success | driver/src/client.rs:804-814 | deposits one token, or eleven after a retry, up to the capacity, without overflow of 16 bits |
| TokenBucket.Bucket.RetryError | driver/src/client.rs:816-822 | deposits one token up to the capacity |
| SessionPool.ServerSessionPool.CheckOut | driver/src/client/session/pool.rs:23-40 | gives the first session that is not about to expire and drops those before it; makes a new one only if there is none |
| SessionPool.CheckOutTakesTheFirst | driver/src/client/session/pool.rs:23-40 | the functional form of a check-out does the same |
| SessionPool.ServerSessionPool.CheckIn | driver/src/client/session/pool.rs:42-59 | puts a clean session in front of the old pool, leaves the pool alone for a dirty one, and empties it if the session being returned is about to expire |
| SessionPool.CheckInClearsExactlyWhen | driver/src/client/session/pool.rs:42-59 | after check-in no expired session is pooled exactly when there was none before or the whole pool was thrown away |
| SessionPool.CheckInKeepsExpired | driver/src/client/session/pool.rs:48-54 | a check-in that leaves an expired session in the pool |
| SessionPool.Skipped | driver/src/client/session/pool.rs:27-36 | the sessions skipped at check-out are all about to expire, and the next one is not |
| ChangeStreams.CursorWrapper.CallNextIfAny | driver/src/change_stream/common.rs:96-130 | the loop of `next_if_any`, with its resume, computes `NextIfAny` on the stream's fields, and tells the end, an empty reply, a document and a failure apart as `CallTells` says |
| ChangeStreams.CallTells | driver/src/cursor/stream.rs:112-138 | a call says that the stream ended exactly if nothing is held or buffered and the cursor was closed before, that there is nothing yet exactly if the reply it looked at was empty, and otherwise hands out the first document it looked at or the failure it met |
| ChangeStreams.CursorFollowsServer | driver/src/cursor/raw_batch.rs:180-210 | after a call the cursor is closed exactly if the last reply said so or the error says that the server lost it |
| ChangeStreams.CursorWrapper.CallNextEvent | driver/src/change_stream/common.rs:78-94 | `next_event` is the first `next_if_any` that brings anything but an empty batch, and ends only on a closed cursor that is used up |
| ChangeStreams.EndsAtTheEnd | driver/src/change_stream/common.rs:78-94 | the functional form of `next_event` ends only there |
| ChangeStreams.NextEventIsNext | driver/src/change_stream/common.rs:78-94 | while the server answers, `next_event` returns the document at the stream's position, through any number of empty replies |
| ChangeStreams.WatchStands | driver/src/change_stream/event.rs:31-43 | a new stream stands where its start option says, and its initial token says so too or is not there yet |
| ChangeStreams.OneCall | driver/src/change_stream/common.rs:96-145 | the effect of any call, in every case: which document it brings, where the stream stands after it, and which token it caches |
| ChangeStreams.FaithfulExactlyWhenSteady | driver/src/change_stream/common.rs:80-145 | over any run with any failures, the events are the log from the start point on, without gap or repetition, and the cached token separates them from the rest, exactly when no call read on after a lost reply and no resume was built twice from another place |
| ChangeStreams.CarefulRunsAreSteady | driver/src/change_stream/common.rs:105-128 | a caller who stops at the first failure, with resumes that are built once, always has a steady run |
| ChangeStreams.PollingAfterFailedResumeSkips | driver/src/change_stream/common.rs:115-125 | a run that skips a document after a lost reply and a failed resume |
| ChangeStreams.RetriedResumeRepeats | driver/src/operation/aggregate/change_stream.rs:65-93 | a run that hands out a document twice because the command that resumed was built twice |
| ChangeStreams.ResumesFromItsPlace | driver/src/operation/aggregate/change_stream.rs:68-77 | a resume asks for startAfter until a document was returned, if the stream was opened with it, and for resumeAfter otherwise, with the current position as token |
| JsonPrinter.RawDocToJson | driver/src/bson_util.rs:393-481 | the explicit-stack printer, with its failures, returns what the recursive printer gives under the limit; it terminates on the number of nodes left |
| JsonPrinter.PrintLevel | driver/src/bson_util.rs:408-467 | the inner loop prints the elements of one level up to its end, to a nested one, to a failure or to the limit, and every nested level has fewer nodes |
| JsonPrinter.PushTrunc | driver/src/bson_util.rs:368-382 | appends a piece, or what fits of it up to the next character boundary and an ellipsis |
| JsonPrinter.DocumentPrintsJson | driver/src/bson_util.rs:401-476 | the recursive printer prints the JSON text of a well-formed document, members joined by commas, the four hidden top-level keys left out |
| JsonPrinter.LimitedMeans | driver/src/bson_util.rs:368-391 | a well-formed document is printed whole if it fits; otherwise its text is cut, strictly, at the first character boundary at or after the limit |
| JsonPrinter.MalformedMeans | driver/src/bson_util.rs:393-481 | for every document, hidden elements left out: it is well formed and its text is returned or cut, or the text before its first malformed part, at any depth, decides between that failure and a cut |
| JsonPrinter.LimitedIsShort | driver/src/bson_util.rs:368-382 | at most six bytes more than the limit are returned |
| Utf8.TruncateOnCharBoundary | driver/src/bson_util.rs:318-341 | cuts at the first boundary at or after the length, keeps whole characters, and says whether anything was cut |
| Utf8.CutWellFormed | driver/src/bson_util.rs:328-340 | cutting at a boundary leaves well-formed text on both sides |
| Utf8.CeilingIsNear | driver/src/bson_util.rs:328-337 | rounding up to a boundary adds at most three bytes |
| InsertMany.InsertAll | driver/src/action/insert_many.rs:91-188 | the batch loop returns the verdict on the run of batches it used, with every failure under its global index, or the very error of the batch that failed altogether; it always ends within as many batches as there are documents |
| InsertMany.LoopTerminates | driver/src/action/insert_many.rs:112-180 | while the loop goes on, every batch so far took a document |
| InsertMany.EndsInTime | driver/src/action/insert_many.rs:112-180 | a run that ended the loop has at most as many batches as there are documents |
| InsertMany.TakeBatch | driver/src/action/insert_many.rs:116-179 | one turn of the loop: ids and errors are shifted to global indexes, and the size of the batch is recovered from its result |
| InsertMany.HandleResponse | driver/src/operation/insert.rs:129-168 | the ids of a batch that count as inserted, for ordered and unordered inserts |
| InsertMany.EveryDocumentCounts | driver/src/action/insert_many.rs:138-143 | in an unordered batch the inserted and the refused documents are all documents |
| InsertMany.BatchingDoesNotMatter | driver/src/action/insert_many.rs:106-188 | without write concern errors the outcome is that of one unbatched insert |
| InsertMany.WriteErrorsDoNotDependOnBatches | driver/src/action/insert_many.rs:106-188 | the write errors reported are those of one unbatched insert, except exactly when an ordered insert stopped at a write concern error, nothing was refused up to there and a later document would have been |
| InsertMany.SuccessMeansAll | driver/src/action/insert_many.rs:182-188 | success means that every batch was answered, nothing was refused and there was no write concern error, and the ids are those of all documents |
| InsertMany.FailureCarries | driver/src/action/insert_many.rs:158-188 | a failure carries the last write concern error and exactly the labels of the batches that reported errors |
| InsertMany.OrderedReportsTheFirst | driver/src/action/insert_many.rs:164-173 | an ordered failure reports exactly the first refused document |
| InsertMany.FailuresAreTheRefused | driver/src/action/insert_many.rs:145-156 | an unordered failure lists exactly the refused documents |
| InsertMany.FailuresAreOrdered | driver/src/action/insert_many.rs:145-156 | the list is in the order of the documents |
| InsertMany.ConcernHidesRefusal | driver/src/action/insert_many.rs:158-173 | a run in which a write concern error hides a refusal |
| BulkWrites.ExecuteInner | driver/src/action/bulk_write.rs:119-160 | the loop takes in the batches up to the first that ends it, neither `unreachable!` is reached, and what is returned is a success exactly if there was a batch and all succeeded, with their results joined, and otherwise an error with every write error, write concern error and partial result of theirs; it always ends within as many batches as there are models |
| BulkWrites.FinalReturns | driver/src/action/bulk_write.rs:152-159 | the same of the status at the end of any run |
| BulkWrites.LastFatalIsReturned | driver/src/action/bulk_write.rs:198-248 | the error that ended a run comes back, by itself or as a source, unless it was merged into an earlier one |
| BulkWrites.LoopTerminates | driver/src/action/bulk_write.rs:123-150 | there are at most as many batches as models, because a batch that lets the loop go on attempted a model and one that built nothing ends it |
| BulkWrites.TakenAddsTheBatch | driver/src/action/bulk_write.rs:198-248 | taking in a batch adds its partial result, write errors and write concern errors to the status, each once, and its fatal error unless it is merged into an earlier error |
| BulkWrites.RunReportsEverything | driver/src/action/bulk_write.rs:119-160 | over every run the status reports the sum of what all batches reported |
| BulkWrites.WriteErrorsAreTheBatches | driver/src/error/bulk_write.rs:54-60 | a write error the caller gets is that of the batch its model was sent in, and none is lost |
| BulkWrites.ResultsAreTheBatches | driver/src/results/bulk_write.rs:142-154 | so is every single insert, update and delete result of a verbose bulk write |
| BulkWrites.CountersAddUp | driver/src/results/bulk_write.rs:101-115 | each of the five counters the caller gets is the sum of that counter over the batches |
| BulkWrites.SucceedsExactlyWhen | driver/src/action/bulk_write.rs:152-159 | the bulk write succeeds exactly when there was a batch and all of them succeeded |
| BulkWrites.BatchesAreDisjoint | driver/src/action/bulk_write.rs:127-140 | no model is sent in two batches |
| BulkWrites.AllAttemptedSentExactlyWhen | driver/src/operation/bulk_write.rs:244-296 | every model counted as attempted was sent, exactly when no batch that was built more than once, or failed to build part way, left models behind |
| BulkWrites.RetriedBatchSkipsAModel | driver/src/operation/bulk_write.rs:268-275 | a successful bulk write that never sent its second model |
| BulkWrites.OrderedStopsAtWriteError | driver/src/action/bulk_write.rs:262-281 | an ordered run sends nothing after a batch with a write error |
| BulkWrites.TameUnorderedRunsFinish | driver/src/action/bulk_write.rs:123-125 | an unordered run whose batches succeed or report only write and write concern errors ends only when all models are attempted |
| BulkWrites.FatalErrorEndsExactlyWhen | driver/src/action/bulk_write.rs:237-281 | after a fatal error the run goes on exactly when the error was merged into an earlier one and nothing else stops it |
| Connections.Connection.Send | driver/src/cmap/conn.rs:217-277 | sends a request and reads its reply, with what every failure and every dropped future leaves in the flags |
| Connections.Connection.SendCancellable | driver/src/cmap/conn.rs:185-215 | a cancellation marks the connection, wherever it hits |
| Connections.Connection.Receive | driver/src/cmap/conn.rs:279-310 | reads the next message of a stream, or refuses if there is none |
| Connections.RepliesMatchRequests | driver/src/cmap/conn.rs:185-310 | in every disciplined run a reply is the first message for its own request, a received message the next one of the open stream, and no request is written while a stream is open |
| Connections.CallsEndIn | driver/src/cmap/conn.rs:185-310 | in every disciplined run, a call whose exchange goes well returns its message and leaves the connection fit, one that is turned down changes nothing, and any other leaves it unfit for the pool |
| Connections.MessagesAreChained | driver/src/cmap/conn.rs:185-310 | all messages read in a disciplined run form whole answers, one after the other |
| Connections.RunsAreTruthful | driver/src/cmap/conn.rs:185-310 | the flags of a reusable connection tell the truth about the wire |
| Connections.ReplyIsRightExactlyWhen | driver/src/cmap/conn.rs:217-277 | a reply is the right one exactly when nothing was under way before the request |
| Connections.HandOverIsSafeExactlyWhen | driver/src/cmap/conn.rs:133-162 | moving a connection keeps its flags true exactly when no stream is open |
| Connections.HandOverMidStreamMixesReplies | driver/src/cmap/worker.rs:535-550 | a connection handed over in the middle of a stream is accepted by the pool and answers with an old message |
| Connections.ReuseWhileExecutingMixesReplies | driver/src/cmap/worker.rs:545-547 | a connection used while a command is executing would answer with the old reply |
| Generations.EstablishConnection | driver/src/cmap/establish.rs:116-179 | which generation an established connection has, and which generation an error is about |
| Generations.StaleMeansCleared | driver/src/cmap/conn.rs:393-397 | in every run, a connection is stale exactly when the pool was cleared after it was requested |
| Generations.StaleMeansServiceCleared | driver/src/cmap/conn.rs:398-408 | behind a load balancer, a connection whose service was kept while it was pending is stale exactly when the service was cleared after it was requested |
| Generations.StaleExactlyWhen | driver/src/cmap/worker.rs:608-630 | in every run behind a load balancer: if the service was not forgotten since the request, a connection is stale exactly when the service was cleared since; otherwise exactly when the service's generation at the request differs from the clears since it was last forgotten |
| Generations.JudgedRightlyExactlyWhen | driver/src/cmap/worker.rs:608-630 | a connection is judged rightly, now and after anything that happens while it is open, exactly when its service was not forgotten since the request, or was not cleared since and stood at zero at the request, or was cleared since and stood below the clears since it was last forgotten |
| Generations.ClearedConnectionPassesForFresh | driver/src/cmap/worker.rs:608-630 | a run in which a cleared connection passes for fresh |
| Generations.OpenIsNotForgotten | driver/src/cmap/worker.rs:522-533 | a service with an open connection keeps its generation |
| Bson.GetOrPrependId | driver/src/bson_util.rs:226-248 | a document with an `_id` is left alone; otherwise it becomes a well-formed document, 17 bytes longer, with the new `_id` in front; on an error it is unchanged |
| Bson.PrependedId | driver/src/bson_util.rs:226-248 | the elements of the new document are the new `_id` and then the old ones, and asked again it is left alone |
| Bson.LookupFindsTheFirst | driver/src/bson_util.rs:229-230 | in a well-formed document a key is found exactly when an element has it |
| Bson.ParseEncoded | driver/src/bson_util.rs:226-248 | reading back a written list of elements gives the elements |
| Bson.NumDecimalDigits | driver/src/bson_util.rs:180-191 | the loop counts the digits of the decimal key |
| Bson.ArrayEntrySize | driver/src/bson_util.rs:160-168 | the predicted size of an entry, or an error if it does not fit |
| Bson.EntryHasPredictedSize | driver/src/bson_util.rs:160-168 | the encoded entry has the predicted size |
| Bson.SizesAddUp | driver/src/bson_util.rs:160-168 | five and the sum of the predicted sizes, from the lengths of the documents, is the size of the array |
| Bson.VecToRawArray | driver/src/bson_util.rs:170-176 | appending documents one by one gives the encoding of the array |
| Bson.ArrayReadsBack | driver/src/bson_util.rs:170-176 | the array is a well-formed document whose elements are the documents under their indexes |
| Bson.DecimalRoundTrip | driver/src/bson_util.rs:178-191 | the decimal digits of an index denote the index |
| GridFs.ExpectedLengthsFit | driver/src/gridfs.rs:78-92 | for every file whose chunks can be numbered no conversion fails, every chunk length lies between one and the chunk size, only the last may be shorter, and they add up to the length |
| GridFs.SplitConcat | driver/src/gridfs.rs:78-92 | splitting a file and putting it together is the identity |
| GridFs.SplitLengths | driver/src/gridfs.rs:85-92 | the pieces have the expected lengths |
| GridFs.CutChunks | driver/src/gridfs/upload.rs:373-398 | the whole chunks of a buffer, numbered on from where the stream is |
| GridFs.UploadStream.Write | driver/src/gridfs/upload.rs:276-317 | however the data is cut into writes, whole chunks are stored and the rest is kept; a failure deletes the chunks |
| GridFs.UploadStream.Close | driver/src/gridfs/upload.rs:328-440 | afterwards the collections hold exactly the chunks of all data written and a file document of its length |
| GridFs.GetBytes | driver/src/gridfs/download.rs:172-225 | reads batches until there are enough bytes or the cursor is done; an error is the one of the first item that is not the chunk expected next: a batch that could not be fetched, a document that is no chunk, a wrong number or a wrong length |
| GridFs.DownloadStream.Read | driver/src/gridfs/download.rs:113-166 | bytes come in order; nothing is read only at the end; the stream ends without an error only if every chunk was there, and fails only if not; a failure to fetch or decode that is reported is one the cursor met |
| GridFs.CompleteMeansWholeFile | driver/src/gridfs/download.rs:140-160 | a download that ends without an error has delivered as many bytes as the file is long |
| GridFs.DownloadGivesBackTheUpload | driver/src/gridfs/download.rs:172-225 | what an upload stores is what a download accepts, and the bytes are those that were written |
| Errors.LabelsAlongTheChain | driver/src/error.rs:269-278 | a label counts wherever it is along the source chain |
| Errors.CodeIsTheFirst | driver/src/error.rs:344-359 | the code of an error is the first along its chain, of a command or a write concern error |
| Errors.RedactIdempotent | driver/src/error.rs:503-573 | redacting twice is redacting once |
| Errors.RedactCleansChain | driver/src/error.rs:503-573 | no message or detail of a command, write, insert-many or bulk-write error is left along the source chain, however long |
| Errors.RedactCleansDeepIff | driver/src/error.rs:503-573 | nothing is left anywhere exactly when the errors that GridFS abort, I/O and custom errors carry, however deep, were clean before |
| Errors.RedactMissesCarried | driver/src/error.rs:548-573 | an error with text of the server's that sits inside any of the three stays as it is |
| Errors.RedactMissesNestedMessage | driver/src/gridfs.rs:196-200 | a command error, wrapped in an I/O error, whose message stays |
| Errors.RedactKeepsVisible | driver/src/error.rs:503-573 | labels, codes and code names stay, position by position |
| Errors.RedactKeepsDecisions | driver/src/error.rs:220-278 | sdam code, labels, retryability and resumability are the same before and after |

## Left out

- Sockets, TLS, DNS, compression, authentication exchanges, server selection and monitoring: their outcomes are inputs.
- Clocks, back-off and timeouts: whether a session is about to expire is an input; deadlines are not modelled.
- Read concern (`afterClusterTime`, `atClusterTime`), read preference, write concern and server API fields of a command.
- The convenient transaction API, causal consistency and snapshot reads beyond recording the snapshot time.
- SessionRuns.SecondCommandNeedsExcuse: the getMore and killCursors commands that a bulk write sends while it handles its reply (driver/src/operation/bulk_write.rs:94-168, 441-480) are no commands of the machine, so they are not in the log.
- Protocol.RunsAreAccepted: the same commands, which run as operations inside another one, are no runs of the machine.
- An operation can be dropped where it waits for a server, for its command to be built or for its reply; not in the middle of handling a reply.
- What an operation returns: the machine says that it ends, not with which of the errors it met (driver/src/client/executor/retry.rs:134-141).
- An implicit session is taken to exist when its operation begins; the source makes it inside the retry loop.
- Concurrency is interleaving of steps: a lock is held for a step.
- Change streams: decoding an event into a caller's type, servers that send no post-batch token, streams with two start options at once, and pinned cursors.
- Encoding of keys and scalars as JSON text; the printer takes it as given.
- Splitting of batches by size: a batch is any non-empty prefix of what is left.
- Insert and bulk write commands of auto-encrypted clients.
- BSON: converting an `_id` value into a value type, and UTF-8 checks inside strings.
- Generations are counted without bound; in the source they are 32 bits wide.
- GridFS: aborting an upload, revisions, renaming, and two polls of one pending write.
- Errors.RedactCleansChain: redaction is modelled as a function from error to error; the source rewrites the error in place.
- Event handlers, tracing and OpenTelemetry, apart from the printer they share.
- Client-side encryption, action builders, option types and the synchronous API.
