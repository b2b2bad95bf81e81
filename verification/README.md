# Notification delivery, modelled and proved

A Dafny model of a service that sends SMS and mail through PostgreSQL, Kafka and two providers, with proofs
about what its actors keep when their transactions interleave freely.

One request becomes a message row, one queue row per chunk of receivers and one target row per receiver. An
unscheduled message is enqueued at once; a scheduled one waits for the cron dispatcher. Enqueueing marks the rows
`process`, sends one Kafka record per queue from up to ten goroutines at a time, and marks what was acknowledged
`enqueued`. Workers read the records, mark the queue `sending`, call a provider and write the result. Cancellation
soft-deletes the three tables' rows of one message.

The files, bottom up:

- `Entities`, `Tables`: the rows, one function per SQL statement (always with the soft-delete filter
  `deleted_at IS NULL`), one function per transaction.
- `Snowflake`, `AesGcm`, `MitakeSms`, `Scheduling`, `Paging`: the sharp pieces around the pipeline.
- `Publish`, `Requests`: from receivers to rows, and from rows back to provider requests.
- `Goroutines`, `FanOutRefinement`, `FanOutCompleteness`: one enqueue call as a step system of its goroutines, and
  its equivalence with the plain loop over the queues.
- `Pipeline`: the whole system as one transition system over the store, the log, the enqueueing processes, the
  dispatcher's selection, pending cancellations, workers, provider calls and the clock. Every transaction is one
  step; an action that is not enabled leaves the state as it is, so a run is any sequence of actions.
- `PipelineInvariant`, `PipelineTransactions`, `PipelineSteps`, `PipelineRuns`: the invariant over all actors and
  the proof that every action keeps it. `PipelineTheorems`, `PipelineHistory`, `StatusFates`, `Conclusions`,
  `FirstBatches`, `Conservation`, `Payloads`, `StatusQueries` and `Cancellation` draw the conclusions;
  `LateEnqueue`, `DisturbedRuns` and `LateChunk` build the runs in which something expected does not happen.
- `Iteration`, `Database`, `Enqueue`, `Publisher`, `Cancellation`, `Dispatcher`, `Handlers`, `Consumer`: the service
  code itself, as classes and loops over tables updated in place, each method proved equal to the functions above.
  `ServiceRuns` (publish, enqueue, cancel), the end of `Handlers` (one record) and `LoopRuns` (the dispatch job, a
  claim) show that what these methods do, runs of the pipeline do; `Results` sets what a handler reports against what
  it has done.
  Where a method takes a set of `faults`, they are the numbers of the statements, or of the commit after them, that
  fail.

Three things the model settles differently from what one may expect:

- Statuses are not monotone. A target that a successful SMS answer does not name keeps the status it has when the
  answer is written: what was last written to it since the handler marked it, and `sending` if nothing was
  (`StatusFates.UnnamedEndsAsWritten`). It can be `enqueued`, when the last batch of the enqueue call lands under the
  worker (`LateEnqueue.UnsectionedEndsEnqueued`), `canceled` (`DisturbedRuns.CanceledBetween`), or what a second
  handler of the same record was answered (`DisturbedRuns.AnsweredTwice`). A message has the outcome of whichever of
  its queues was concluded last (`StatusFates.MessageFateExactly`).
- A chunk whose queue id is generated in a later millisecond than the shared `created_at` is never handed to a
  provider (`Cancellation.LateChunkNeverSent`): the worker's lookup is pruned by the instant in the id. Such chunks
  exist and can be lost after an ack (`LateChunk.SecondIsLate`, `LateChunk.LateChunkLost`); all other chunks of an
  unscheduled message can be delivered (`LateChunk.DeliverableExactly`).
- A record whose handler failed is lost once a later one is committed (`Consumer.RedeliveredExactly`).

The repository's table documentation lists fewer statuses than the code writes: `process`, `sent` and `failed` are
also written to messages, `process`, `sent` and `canceled` to targets, and an unknown provider code leaves the empty
string. The model follows the code with one status type for all three tables.

## Model

| member | source | states |
|---|---|---|
| `PipelineRuns.RunKeeps` | internal/services/notify.go:341-477 | in every run of publishers, fan-outs, dispatcher, workers, cancellations, crashes and the clock, the invariant over tables, log, tries and all actors holds |
| `PipelineRuns.StepKeeps` | internal/services/notify.go:428-477 | each single action keeps that invariant and changes rows only as rows may change: none disappears, identifying columns stay, canceled rows stay as they are |
| `PipelineTheorems.CancelCoherence` | internal/services/notify.go:265-300 | a message is deleted iff its status is canceled, iff all its queues are deleted, iff one of them is, iff all its targets are, iff one of them is |
| `PipelineTheorems.CanceledForGood` | internal/entities/queue.go:34 | no continuation of any run changes a deleted row of messages, queues or targets |
| `PipelineTheorems.CanceledStaysSilent` | internal/handlers/sms.go:75-105 | a canceled queue nobody is handling is never again handed to a provider, however many records it has |
| `PipelineHistory.QueueTargetAgreement` | internal/services/notify.go:436-466 | a queue that is not successful has exactly its status in all its targets; after a mail success they are sent; after an SMS success a target has a status that some successful answer of the provider gave it by name, or failed after a refused one, or else `sending` or `enqueued` |
| `PipelineHistory.DriverTraceIsKey` | internal/services/notify.go:383-393 | in every reachable state a target's driver trace is the key of a record of its own queue in the log |
| `PipelineHistory.RunHistory` | internal/handlers/sms.go:216-250 | in every run the answered statuses in the tables go back to provider calls with that answer, and the traces to records |
| `PipelineTheorems.SmsSuccessExactly` | internal/handlers/sms.go:198-256 | the success transaction gives a live target that a section names that section's status and name, and leaves every other target of the queue exactly as it was |
| `Conclusions.ConclusionExactly` | internal/handlers/mail.go:140-250 | in any reachable state a committed conclusion leaves its live message `sent` and queue `success` if the provider accepted, both `failed` if it refused, adds one event per section or one per mail batch with that outcome, and touches no other message or queue |
| `Conclusions.TargetsConcluded` | internal/handlers/mail.go:162-168 | and each live target of its queue fails with a refused batch, takes its section's status and name or the mail's `sent` and header with an accepted one, and stays if no section names it; all other targets stay |
| `Conclusions.OutcomesTold` | internal/handlers/sms.go:132-256 | in every reachable state a `sent` message has an accepted call for one of its queues and a `failed` one a refused call, a successful or failed queue one of its own, and every event is one that a call's answer gives for its queue |
| `StatusFates.TargetFateExactly` | internal/services/notify.go:436-466 | over any run a target's status is what the last step that wrote it wrote: `process` and `enqueued` by the batches of an enqueue call with its queue, `sending` by a handler, failed by a refused batch, its section's status or the mail's by an accepted one, `canceled` by cancellation |
| `StatusFates.QueueFateExactly` | internal/services/notify.go:436-447 | over any run a queue's status is what the last step that wrote it wrote; a conclusion writes `success` if the provider accepted and `failed` if it refused |
| `StatusFates.MessageFateExactly` | internal/services/notify.go:448-466 | over any run a message's status is what the last step that wrote it wrote: `process`, `enqueued` if some queue was delivered, `sent` or `failed` by the answer of whichever of its queues was concluded last, `canceled` |
| `StatusFates.UnnamedEndsAsWritten` | internal/handlers/sms.go:100-256 | whatever happens between a handler's two transactions, a target the successful answer does not name ends with what was last written to it in between, and `sending` if nothing was |
| `StatusFates.UndisturbedSends` | internal/handlers/sms.go:100-256 | so it ends `sending` when no step in between writes anything else to it |
| `LateEnqueue.UnsectionedEndsEnqueued` | internal/services/notify.go:415-423 | a reachable state in which an unnamed target of a successful queue is `enqueued`, because the last batch landed between the handler's transactions |
| `DisturbedRuns.CanceledBetween` | internal/services/notify.go:265-300 | a reachable state in which the unnamed target and its queue are `canceled`, because the cancellation fell between the handler's transactions |
| `DisturbedRuns.AnsweredTwice` | internal/handlers/sms.go:43-64 | reachable states, one for each answer to a second handler of the same record: under a successful queue the unnamed target is failed if the second batch was refused, what the second answer says if that names it, and `sending` otherwise |
| `PipelineTheorems.ScheduledIsUntouched` | internal/services/notify.go:57-60 | while a message is scheduled its queues and targets are pending, nothing was offered to the broker, nothing recorded, nothing handed over |
| `PipelineTheorems.NeverEarly` | internal/jobs/dispatch_scheduled_messages.go:43-45 | no record is in the log and no provider was called before the message's scheduled instant |
| `PipelineTheorems.AtMostOneFanOut` | internal/services/notify.go:510-523 | over a whole run a queue is offered to the broker at most three times and never after an ack; once offered, its message is never eligible for dispatch again |
| `FirstBatches.NeverEligibleAgain` | internal/jobs/dispatch_scheduled_messages.go:43-45 | a message that has left `scheduled`, by whatever step, is never eligible for dispatch again |
| `FirstBatches.AtMostOneFirstBatch` | internal/services/notify.go:348-356 | over any run the first batch of a message's enqueue calls commits at most once, publish call and dispatcher together, so even a fan-out that crashes before its first send is not repeated |
| `PipelineTheorems.FailedFirstBatch` | internal/services/notify.go:348-356 | a first batch that fails sends nothing, writes nothing and leaves every message exactly as eligible as it was |
| `PipelineTheorems.TypeRouting` | internal/services/notify.go:525-534 | every record is on `notify-sms` iff its message is an SMS, and every provider call carries only targets of messages of its own type |
| `PipelineTheorems.ProviderRouting` | internal/services/notify.go:213-224 | in every reachable state the targets of SMS messages are Mitake's and those of mail messages Sendgrid's |
| `Goroutines.StartConsistent` | internal/services/notify.go:358-363 | the fan-out starts with its counters matching its goroutines |
| `Goroutines.AdvanceGood` | internal/services/notify.go:379-393 | one goroutine's step stays within three calls and none after an ack, and stores to each map in its own step |
| `Goroutines.MoveConsistent` | internal/services/notify.go:363-396 | every move keeps semaphore and wait group equal to the goroutines that hold them, and both maps equal to what the goroutines stored |
| `FanOutRefinement.MoveRank` | internal/services/notify.go:363-397 | every move of the loop or of a goroutine decreases a measure |
| `FanOutRefinement.NeverStuck` | internal/services/notify.go:358-397 | in no state short of the join is every party blocked |
| `FanOutRefinement.ReachesJoin` | internal/services/notify.go:397 | from every consistent state some schedule passes the join |
| `FanOutRefinement.FanOutProgress` | internal/services/notify.go:358-397 | with n queues no schedule has more than 12n + 2 moves, at most ten goroutines hold a slot, and a schedule cannot be extended iff it has passed the join |
| `FanOutRefinement.SlotsFill` | internal/services/notify.go:358-371 | and that many there can be: up to ten queues are launched, all holding a slot, without waiting for any of them |
| `FanOutRefinement.JoinKeys` | internal/services/notify.go:380-413 | at the join both maps have as keys exactly the queues whose send was acked and whose key could be encoded |
| `FanOutRefinement.FanOutRefines` | internal/services/notify.go:341-426 | every interleaving that reaches the join leaves the tables, and the multiset of records, that the plain loop with the same outcomes leaves |
| `FanOutCompleteness.EveryOutcomeReached` | internal/services/notify.go:363-397 | conversely, any outcomes the retries allow are reached by some schedule of the goroutines |
| `Enqueue.WithRetry` | internal/services/notify.go:510-523 | the calls follow the broker's answers and leave one record for each kept call; a second is made iff the first fails with the context live, a third iff the second does too, none after; the result is an ack iff one of the three is acked with the context live after each before it |
| `Enqueue.RetriesExactly` | internal/services/notify.go:510-523 | the same for every way the retries can go |
| `Enqueue.TraceFoldIsSet` | internal/services/notify.go:449-458 | the per-queue target updates commute: in any order of distinct queues they come to one simultaneous update |
| `Enqueue.NotifyService.UpdateTraces` | internal/services/notify.go:448-458 | the loop over the trace map, in whatever order it ranges, is that simultaneous update, unless a statement fails |
| `Enqueue.NotifyService.BatchUpdateDatabase` | internal/services/notify.go:428-477 | all three tables are updated, or none when a statement or the commit fails |
| `Enqueue.NotifyService.ExtractBatchData` | internal/services/notify.go:498-508 | the two id lists name exactly the queues' ids and message ids |
| `Enqueue.NotifyService.SendOne` | internal/services/notify.go:373-394 | one queue's record, retries and outcome: delivered iff created, acked and its key encoded |
| `Enqueue.OutcomeDetermined` | internal/services/notify.go:373-394 | what the broker answers, when the context ends and whether id and key can be made determine one queue's outcome, calls included |
| `Enqueue.SuccessesExactly` | internal/services/notify.go:373-394 | a queue is in the success map, and in the trace map with its record's key, iff its record is created, one of three calls is acked in time, and the key encodes |
| `Enqueue.EnqueuedExactly` | internal/services/notify.go:399-423 | after the call a live queue and its targets are `enqueued`, with the record's key, iff its send delivers and the last batch commits, and `process` otherwise, with nothing else changed |
| `Enqueue.NotifyService.SendAll` | internal/services/notify.go:358-397 | the loop over the queues builds the log and both maps of the sequential specification, with the outcomes the environment determines |
| `Enqueue.NotifyService.Split` | internal/services/notify.go:400-408 | the two lists made from the success map name exactly its keys and its values, whatever the order |
| `Enqueue.NotifyService.HandleEnqueue` | internal/services/notify.go:341-426 | a failing first batch changes nothing and sends nothing; otherwise log and tables are those of the specification, and a failing second batch only loses the `enqueued` marks |
| `ServiceRuns.PublishRefines` | internal/services/notify.go:48-98 | a publish call that stores its rows is one step of the pipeline that stores the request's type, text and schedule, after which an unscheduled message's enqueue call begins |
| `ServiceRuns.FanOutRun` | internal/services/notify.go:363-397 | inside the pipeline a fan-out goes exactly where its schedule leads, its records reach the log, and nothing but the tries changes besides |
| `ServiceRuns.EnqueueRefines` | internal/services/notify.go:341-426 | whatever a whole enqueue call does, with any outcomes and any fate of its last batch, some run of the pipeline does: same tables, same multiset of records, the process gone and all else but the tries as it was |
| `ServiceRuns.CancelRefines` | internal/services/notify.go:237-301 | a cancel call that reports success leaves the store of a pipeline run after which, in every continuation, the message and all its queues and targets are deleted and canceled; any other ending changes nothing |
| `LoopRuns.DispatchRefines` | internal/jobs/dispatch_scheduled_messages.go:33-72 | whatever one run of the dispatch job does, with any mixture of passed over and fanned out messages, some run of the pipeline from selection to end does: same tables, same multiset of records, all else but the tries as it was |
| `LoopRuns.ClaimRefines` | internal/consumer/consumer.go:41-65 | whatever the loop over a claim does to the tables, a run of the pipeline does that handles the claim's records one after another, as long as no SMS answer names another queue's target |
| `Dispatcher.PreloadQueues` | internal/jobs/dispatch_scheduled_messages.go:42 | the preload lists every live queue of the message once, in any order |
| `Dispatcher.FindDue` | internal/jobs/dispatch_scheduled_messages.go:39-48 | the query lists every eligible message once, with its type and all its live queues |
| `Dispatcher.Execute` | internal/jobs/dispatch_scheduled_messages.go:33-72 | one turn per found message, in order, each from the store the last one left; a message whose transaction cannot begin or whose first batch fails is passed over and the loop goes on |
| `Dispatcher.FoundAgainExactly` | internal/jobs/dispatch_scheduled_messages.go:58-70 | of all messages, exactly those eligible before and not fanned out by the run can be found by a later one |
| `Scheduling.CheckScheduledAt` | internal/components/validator.go:48-63 | accepted iff no instant is given or it lies after now and no later than now plus the limit; up to 106751 days that is iff a message created at this moment would be eligible at its instant, which tells the two refusals apart |
| `Scheduling.AcceptedHasWindow` | internal/components/validator.go:48-63 | an accepted and then created message is eligible at exactly the instants from its scheduled one to its creation plus the limit, and there is at least one |
| `Scheduling.LimitExact` | internal/jobs/dispatch_scheduled_messages.go:35-37 | both int64 duration products are exact iff the limit is at most 106751 days |
| `Scheduling.OverflowRejects` | internal/components/validator.go:58-61 | a limit whose product wraps to a negative duration refuses every scheduled request |
| `Scheduling.DispatchHits` | internal/jobs/dispatch_scheduled_messages.go:43-45 | every cadence of instants at most P apart that starts in time hits the window iff scheduled instant + P - 1 ns does not pass its end |
| `Scheduling.AcceptedIsFound` | internal/jobs/dispatch_scheduled_messages.go:39-48 | an accepted and then created message is found by every cadence of dispatcher runs at most a gap apart iff its instant plus the gap minus one nanosecond does not pass its creation plus the limit |
| `Publish.ChunkArray` | internal/utils/helper.go:54-65 | the loop returns the consecutive slices of the given size, none for a non-positive size |
| `Publish.ChunksPartition` | internal/utils/helper.go:54-65 | chunks concatenate to the input, each has between one and `size` entries, all but the last have `size` |
| `Publish.ChunkAt` | internal/utils/helper.go:60-63 | the i-th chunk is the slice at i times the size, and there are as many chunks as such slices start inside the input |
| `Publish.PreparedIsBatch` | internal/services/notify.go:178-208 | ids are distinct, all rows share message id and creation instant, every target points at a queue of the batch, every queue has a target |
| `Publish.NothingPrepared` | internal/services/notify.go:176-178 | nothing is prepared iff there are no receivers or the limit is not positive |
| `Publish.TargetOrigin` | internal/services/notify.go:188-207 | every target row comes from one receiver of one chunk, with that chunk's queue id |
| `Publish.TargetPlace` | internal/services/notify.go:188-207 | every receiver of every chunk has its target row |
| `Publish.TargetIdsIncrease` | internal/services/notify.go:188-207 | target rows are in draw order, so their ids increase strictly |
| `Publisher.MakeTarget` | internal/services/notify.go:188-207 | one receiver sealed under the next nonce, its hash beside it, its type's provider and the next id, which advances the generator by one; an error iff the random source fails, and then no id is drawn |
| `Publisher.PrepareTargetsAndQueues` | internal/services/notify.go:154-211 | the nested loops build exactly the specified queue and target rows, or fail iff the random source fails for some receiver |
| `Publisher.StoreBatch` | internal/services/notify.go:68-84 | message, targets and queues are all stored, or nothing is: an empty slice, a taken id, a failing statement or commit |
| `Publisher.PublishMessage` | internal/services/notify.go:48-98 | exactly which of the four endings a call has and what store and log it leaves; a scheduled message is stored and not enqueued |
| `Requests.SendSms` | internal/services/sms.go:31-53 | one entry per loaded target in its place: its id's text and decrypted receiver, or the zero value where decryption fails; the payload and the verdict are those of the provider's specification |
| `Requests.SendEmail` | internal/services/mail.go:31-54 | one address per loaded target in its place, empty where decryption fails |
| `Requests.ColumnOrderFree` | internal/services/sms.go:32-43 | two listings of the same targets carry the same multiset of receivers |
| `Conservation.RequestHolds` | internal/services/sms.go:32-43 | whatever the order of loading, a queue's SMS or mail request carries exactly the receivers of its chunk |
| `Conservation.PublishedHolds` | internal/services/notify.go:178-208 | after a publish, in any continuation, each queue keeps exactly its own chunk's targets with their receivers sealed in them and those receivers' hashes |
| `Conservation.ReceiversConserved` | internal/services/notify.go:176-210 | end to end: at any later time the SMS or mail requests, after the message's type, of all its queues together carry exactly the call's receivers as a multiset, each between one and that type's limit entries |
| `Conservation.CallsCarryChunks` | internal/handlers/sms.go:61 | every provider call in any run is for all targets of its queue, as many as its chunk has receivers |
| `Payloads.PostedExactly` | internal/smser/mitake.go:31-42 | what a handler posts for the i-th queue of a published message, at any later time: for receivers without separators the payload is read as exactly that chunk's target ids and receivers, each with the whole text, iff the text has no line end |
| `AesGcm.HexRoundTrip` | internal/components/aes_gcm.go:59 | lowercase hexadecimal decodes back to the bytes, twice as many characters |
| `AesGcm.HexDecodes` | internal/components/aes_gcm.go:64-67 | decoding succeeds iff there is an even number of characters, all hexadecimal digits |
| `AesGcm.HexReencode` | internal/components/aes_gcm.go:64-67 | encoding what was decoded gives the same text in lowercase |
| `AesGcm.AesEncrypt` | internal/components/aes_gcm.go:51-60 | a nonce from the random source, the sealed text behind it, both in hexadecimal; an error iff the source fails |
| `AesGcm.AesDecrypt` | internal/components/aes_gcm.go:63-83 | not hexadecimal iff of odd length or with a character that is no digit, too short iff with fewer digits than two per nonce byte; otherwise opening the body under the nonce that the text spells decides between a plaintext and a refusal |
| `AesGcm.StoredRoundTrip` | internal/components/aes_gcm.go:51-83 | what was stored comes back, for every plaintext and nonce, assuming only that opening inverts sealing (sections 7.1 and 7.2 of NIST SP 800-38D) |
| `Snowflake.DecodeCompose` | internal/utils/helper.go:39-43 | decoding recovers the millisecond of any id of the generator's 41/10/12-bit layout and epoch, and the id fits in 64 bits |
| `Snowflake.DecodeMonotone` | internal/utils/helper.go:39-43 | a larger id never decodes to an earlier instant |
| `Snowflake.ComposeOrder` | internal/components/snowflake.go:10 | ids of one node order exactly as their millisecond and step do |
| `Snowflake.DecodeFits` | internal/utils/helper.go:43 | the nanosecond product of no int64 id leaves int64 |
| `Cancellation.CancelScheduledByMessageId` | internal/services/notify.go:237-301 | exactly when the call exits, fails, finds nothing within an hour of the instant in the id, refuses, or commits, and that only a commit changes the tables, as the cancel transaction does |
| `Cancellation.CancelMust` | internal/services/notify.go:237-263 | in a reachable state a call whose id is a number and whose lookup works succeeds iff the message is there, neither canceled nor `enqueued`, and no statement or commit fails; it is not found iff missing or canceled, refused iff `enqueued` |
| `Cancellation.WindowedCancel` | internal/services/notify.go:276-297 | the pruned cancellation equals the full one iff no live row of the message lies outside the window |
| `Cancellation.CancelFindsAll` | internal/services/notify.go:244-250 | in every reachable state the pruned lookup and the pruned cancellation are the full ones |
| `Cancellation.VisibleExactly` | internal/handlers/sms.go:76-87 | the worker sees a queue of a live message iff the instant in its id is not after `created_at` |
| `Cancellation.VisiblePrefix` | internal/services/notify.go:166-184 | the chunks the worker can see are always a prefix of the batch |
| `Cancellation.LateChunkNeverSent` | internal/handlers/sms.go:101 | a chunk with an id later than `created_at` is never handed to a provider, in any run |
| `LateChunk.DeliverableExactly` | internal/handlers/sms.go:76-87 | a chunk of an unscheduled message is handed to a provider in some run iff the instant in its id is not after `created_at` |
| `LateChunk.LateChunkLost` | internal/handlers/sms.go:75-98 | a run exists in which a late chunk is acked and marked `enqueued`; its record then finds no queue, and no continuation hands it to a provider |
| `LateChunk.SecondIsLate` | internal/services/notify.go:166-184 | late chunks exist: with a limit of one, two receivers and an id a millisecond, a publish call succeeds and its second chunk is two milliseconds late |
| `Handlers.PreloadTargets` | internal/handlers/sms.go:84 | the preload lists every live target of the queue once, in any order |
| `Handlers.FetchQueueData` | internal/handlers/sms.go:75-98 | fails, finds nothing, or finds the queue with all its live targets, and exactly when |
| `Handlers.UpdateProcessingStatus` | internal/handlers/sms.go:100-130 | targets and queue both `sending`, or nothing |
| `Handlers.FailWithoutResponse` | internal/handlers/sms.go:140-165 | the failure path after a failed lookup or first transaction: an error if its own transaction or one of its updates fails, else the process exits; the tables stay as they were either way |
| `Handlers.RowOrderFree` | internal/handlers/sms.go:216-250 | every order of the provider's rows leaves the same targets and the same multiset of events |
| `Handlers.SmsConcludes` | internal/handlers/sms.go:140-256 | both loops over the rows come to the section-wise transactions |
| `Handlers.SmsHandler.InsertFailures` | internal/handlers/sms.go:166-190 | one failed event per row, unless an insert fails |
| `Handlers.SmsHandler.CreateFailureEventAndUpdateStatus` | internal/handlers/sms.go:140-196 | queue, message and targets failed with one event per row, or nothing |
| `Handlers.SmsHandler.InsertAnswers` | internal/handlers/sms.go:216-250 | one event per row and the status of every target a section names, unless a statement fails |
| `Handlers.SmsHandler.CreateSuccessEventAndUpdateStatus` | internal/handlers/sms.go:198-256 | queue successful, message sent, targets answered row by row, or nothing |
| `Handlers.SmsHandler.HandleSendResult` | internal/handlers/sms.go:132-138 | the transaction is chosen by the batch verdict and is the pipeline's concluding transaction |
| `Handlers.SmsHandler.Handle` | internal/handlers/sms.go:43-64 | error, process exit or success and the store after each, the failure path without a response included; the provider is called iff the lookup found the queue and the first transaction committed, with the payload of the loaded targets |
| `Handlers.MailHandler.CreateFailureEventAndUpdateStatus` | internal/handlers/mail.go:140-191 | all failed with one event, or nothing, or the event alone when only the commit fails |
| `Handlers.MailHandler.StampRows` | internal/handlers/mail.go:231-244 | every loaded target takes the batch's status and trace |
| `Handlers.MailHandler.CreateSuccessEventAndUpdateStatus` | internal/handlers/mail.go:193-250 | queue successful, message and targets sent with the trace, one event, or nothing |
| `Handlers.MailHandler.HandleSendResult` | internal/handlers/mail.go:132-138 | the transaction is chosen by the response's status and ends as the pipeline says |
| `Handlers.MailHandler.Handle` | internal/handlers/mail.go:43-64 | as for SMS, with the addresses of the loaded targets |
| `Handlers.HandlerStops` | internal/handlers/sms.go:57-59 | a failed first transaction ends the worker with nothing changed |
| `Handlers.HandlerRun` | internal/handlers/sms.go:43-64 | run without interruption, the pipeline's four worker steps make one provider call and leave one given store |
| `Handlers.SmsHandlerRefines` | internal/handlers/sms.go:43-64 | whatever one SMS handler call does to the tables, the pipeline's worker transactions do, and when the answer names only targets of the queue they are a run that changes nothing else but the calls |
| `Results.SmsResultExactly` | internal/handlers/sms.go:43-64 | an SMS record is handled iff its lookup and both transactions work throughout, and then queue and message have the verdict's status; an error after the first transaction leaves what that one wrote; without one it is never handled and nothing changes |
| `Handlers.MailHandlerRefines` | internal/handlers/mail.go:43-64 | whatever one mail handler call does to the tables, a run of the pipeline does that changes nothing else but the calls |
| `Results.MailResultExactly` | internal/handlers/mail.go:43-64 | likewise for mail, where the event of a refused batch stays when only the commit fails |
| `MitakeSms.BuildPayload` | internal/smser/mitake.go:39-42 | the builder loop concatenates one line per receiver |
| `MitakeSms.FormatIsHead` | internal/smser/mitake.go:97-108 | a line is id, two dollars, receiver, ten dollars, message and a line end |
| `MitakeSms.IdTextParses` | internal/smser/mitake.go:100 | an id can be read back from its decimal text, which can end neither a field nor a line |
| `MitakeSms.PayloadDecodes` | internal/smser/mitake.go:39-42 | the payload decodes to exactly its receivers, each with the whole message, iff the message has no line end; dollars do no harm |
| `MitakeSms.PayloadUnique` | internal/smser/mitake.go:97-108 | two requests with the same payload have the same receivers and the same message |
| `MitakeSms.CrlfAmbiguous` | internal/smser/mitake.go:97-108 | with line ends in the message it is ambiguous, for any two receivers and any text |
| `MitakeSms.ConvertToSmsResponse` | internal/smser/mitake.go:134-156 | one row per section with its mapped status, in whatever order the map ranges |
| `MitakeSms.NewResponse` | internal/smser/mitake.go:82-95 | the loop with its break finds the `DEFAULT` section's status wherever it stands, else failed |
| `MitakeSms.CodesExactly` | internal/smser/mitake.go:190-218 | codes 0 to 4 are sent, the other listed ones failed, any other is the empty status |
| `MitakeSms.AcceptedExactly` | internal/smser/mitake.go:82-95 | a batch succeeds iff the reply was read and its `DEFAULT` section has a code from 0 to 4 |
| `MitakeSms.SendBatchSms` | internal/smser/mitake.go:31-71 | the payload sent, and the verdict and rows for each way the provider's answer can turn out |
| `Consumer.GroupConsumer.ConsumeClaim` | internal/consumer/consumer.go:41-65 | the loop calls the handler once per record, each from the store the last call left, and leaves its partition the marks and commits of the specification; when nothing fails and all queues can be seen, it commits to the end of the claim; without a handler it marks all and commits nothing; other partitions' marks stay, and are committed once a commit goes through |
| `Consumer.GroupConsumer.SkipClaim` | internal/consumer/consumer.go:46-52 | a topic without a handler has every record of the claim marked, and only marked |
| `Consumer.SmoothClaim` | internal/consumer/consumer.go:41-65 | if every record names a queue that can be seen and nothing fails, every one is handled and mark and commit end at the later of the old mark and the claim's end |
| `Consumer.SoundStep` | internal/consumer/consumer.go:46-61 | every delivery, lost commit, commit by another partition of the session, exit and restart keeps the committed offset just after a success, with everything below attempted |
| `Consumer.AtLeastOnce` | internal/consumer/consumer.go:41-65 | over every run the committed offset never decreases; with a handler it is zero or one past a handled record, and every offset below it was attempted |
| `Consumer.BehindCommit` | internal/consumer/consumer.go:54-61 | a record below the committed offset is never attempted again |
| `Consumer.RedeliveredExactly` | internal/consumer/consumer.go:54-61 | a record can be attempted again iff its offset is not below the committed one |
| `Paging.PageRight` | internal/services/notify.go:331-333 | a page holds what it should iff its offset fits in 32 bits, or the wrapped offset is past the last row too, or there are no rows |
| `Paging.FarPageIsFirst` | internal/services/notify.go:331-333 | page 65537 of size 65536 shows the first page |
| `Paging.PagesReassemble` | internal/services/notify.go:331-333 | pages 1 to ceil(total / size) of a fixed result concatenate to the whole result when the last offset fits |
| `Paging.LengthsSumToTotal` | internal/services/notify.go:324-333 | and their lengths sum to the total |
| `Paging.PagesDisjoint` | internal/services/notify.go:331-333 | and no row is on two of them |
| `Paging.ListStatusWithPaging` | internal/services/notify.go:303-339 | the page of all targets the filters match, and how many match |
| `StatusQueries.QueryExactly` | internal/services/notify.go:303-322 | a query by the id of a published message lists, at any later time and canceled or not, exactly the targets of its receivers that hash like the one asked for, or all of them; none for the other type or a period that misses a creation instant |
| `StatusQueries.ListedExactly` | internal/services/notify.go:303-322 | any query lists a published target iff type, period and receiver fit and it names no other message |
| `StatusQueries.TotalIsReceivers` | internal/services/notify.go:303-325 | the total for a message over a period around it is the number of receivers of its publish call |

## Left out

- Statement-level isolation: every transaction, and every lookup with its preloads, is one atomic step; PostgreSQL's READ COMMITTED interleaving inside them is not modelled.
- Columns without behaviour: `updated_at`, the deletion instant (a flag here), the queue driver, sender name and address, subject, and an event's id, data and timestamps.
- Rounding of `created_at` to microseconds by its column type.
- Primary keys are `(id, created_at)` in the schema; the model's tables are keyed by id alone, which is the same while one process draws the ids.
- Id uniqueness across processes: the node number is fixed to 1 in the code, so ids are taken to be fresh and increasing within one generator only.
- More than an hour between drawing an id and reading `created_at`: a publish step assumes less, as cancellation does.
- Overlapping dispatcher processes: one dispatcher run at a time.
- Retry delays and the backoff sum; only the number of calls and the context's end are modelled.
- Kafka partitions, retention and rebalancing: one log in the pipeline, from which any worker may take any record any number of times; one partition per topic in `Consumer`, where a new session is a restart from the committed offset, and claims of one session run one after another, another claim's commit being a step of its own in the partition's life.
- The provider's answer is any set of sections and codes; over whole runs a section is assumed to name a target of the request or no target at all.
- INI parsing, HTTP, SendGrid's request format, the reason texts of the code table, and the credentials in the query parameters.
- AES-GCM and MD5 internals: a pair of functions and one function; JSON, except that a record may be malformed.
- Request validation tags, error codes and texts, gRPC and HTTP serving, command-line wiring, logging and tracing: no properties of their own.
- Partition maintenance and container setup.
- PublishMessage: does not carry the sender columns, in which alone the SMS and the mail call differ; one method stands for both.
- ListStatusWithPaging: does not model `ORDER BY`; the order is whatever sequence the database yields.
- The fetch and the first transaction are one method each for both handlers, whose texts are the same.
