# Alfred: the durable, concurrent machinery around the model calls

Alfred is an LLM gateway. Around the provider calls it keeps runs on disk and streams them to clients,
wakes scheduled tasks and delivers their notifications, serializes the turns of a conversation, guards
tools behind approvals, caches attachments and drives a bounded agent loop. This project models that
machinery in Dafny and proves what it promises, over every run, every interleaving and every input.

The models follow the program's own pieces.

- `RunJournal`, `RunFeed`, `ConversationStream`: the run change feed. A write stores a run and then
  appends its id to a journal of 512 entries; the server's loop takes a watermark and sends a snapshot or a
  coalesced replay; the client merges and later resumes from its last id. `RunFeed` is a transition
  system in which writers, the server, the wire, the client, disconnects and reconnects interleave
  freely; a run's contents are a version number.
- `SseFraming`, `SseEvents`: the client's incremental reading of the stream, from chunks to frames to events.
- `SchedulerTasks`, `SchedulerEngine`: the seven-state task machine with cycle ids as fencing tokens, the
  task store object and the engine's tick and recovery, while others call the store at every await.
- `SchedulerDelivery`, `SchedulerExecutors`: the claim protocol around an external send, with any number
  of executors that interleave and may crash at every step, and the three executors' own code, each
  beside others that act at every await.
- `ReminderCycles`: the task store and the deliveries together, over every interleaving.
- `EventChannel`: the bounded event channel with its capacity and idle waiters.
- `SessionThreads`: the worker pool, the per-session drain loop and the turn state machine together.
- `TailMutex`, `Admission`, `OutboundReservations`: the promise-chain mutex, the admission of chat turns
  under it with the lookup that tells a retry from a conflict, and the order of Telegram replies.
- `IngressDedupe`, `BlobStorage`: the Telegram dedupe window and the content-addressed blob store.
- `JsonText`, `ToolApproval`: the canonical text of a tool call and the approval store.
- `AgentLoop`: the bounded loop of provider and tool calls and the single terminal action of a scheduled turn.
- `RunRecords`, `HistoryPaging`, `TurnBudget`, `ConversationWindow`: the order of a session's runs, paging
  while runs arrive, and the window of history that goes into a prompt.
- `FeedOutcomes`, `SchedulerOutcomes`, `EventOutcomes`, `SessionOutcomes`, `AdmissionOutcomes`,
  `BlobOutcomes`, `ApprovalOutcomes`, `AgentOutcomes`, `HistoryOutcomes`: what the calls of these pieces answer and leave behind, said in the data's own fields
  and in the calls that came before, without the step functions.
- `Options`, `Decimals`, `Texts`: small shared pieces.

A protocol is a state, step functions and an invariant that every step keeps; the main results are lemmas
about every reachable state or every run. The program's objects are classes with the program's fields;
their methods are proved equal to the step functions, so what is proved about the steps holds of them. A
step is the code between two awaits. Time is an integer parameter of the step that reads the clock.

Some promises hold only under a condition, and the condition is proved to be exact.

- A notification is sent at most once, in every interleaving, if and only if no record of a successful
  send can fail and every message id that the notifier may return fits the delivery store's schema, or the
  notifier never succeeds (`SchedulerDelivery.AtMostOnceExactly`). Where `markDelivered` fails after the
  send, the failure is recorded as a failed attempt and the next attempt sends again
  (`SchedulerDelivery.SentTwice`). In every run, whatever fails, a delivery is sent at most once more than
  its record failed (`SchedulerDelivery.SendsAreAccountedFor`). The ids of the gateway's own notifiers
  always fit (`SchedulerDelivery.ShippedNotifiersSendOnce`).
- A turn is refused as already running if and only if an earlier turn's start event could not be recorded
  and no shutdown came since (`SessionThreads.RefusedExactly`): the state is set before that event is
  appended, outside the block that resets it. It does happen (`SessionThreads.RefusedAfterLostStart`).
- Framing is independent of the chunks, frames and leftover alike, if and only if the stream has no
  CR CR LF (`SseFraming.ChunkIndependentExactly`).
- The dedupe window's rule, that a message is suppressed if the previous one with its key came less than
  ttl ago and fewer than maxEntries others came since, needs a clock that does not go back
  (`IngressDedupe.ClockRollbackForgets`). Under any clock it is exactly this: the previous one was younger
  than ttl at every call since, and there were never maxEntries other keys unexpired since
  (`IngressDedupe.SuppressedUnderAnyClock`).
- A repeated request is always answered with its run, and never taken for a conflict, if and only if
  redaction is idempotent (`Admission.RetriesWorkExactly`): the stored message is redacted when the run is
  created and again whenever it is updated, but compared with a message that was redacted once.
- A guarded action is let through if and only if its session approved a request of it that was still
  waiting, that has not expired by now or by any call since, and whose approval has been neither used nor
  replaced nor cleared (`ApprovalOutcomes.LetThroughExactly`).
- The order of an object's members never changes the canonical text if and only if the key comparison
  never ties on distinct keys (`ToolApproval.OrderFreeExactly`).
- The conversation window keeps within its budget, whatever the runs, if and only if the budget is at
  least 26, the room for two cut marks (`ConversationWindow.WithinBudgetExactly`).

`dafny verify dfyconfig.toml` checks the whole project.

## Model

| member | source | states |
|---|---|---|
| `RunJournal.JournalIsContiguous` | src/runs/storage/jsonFileRunStorage.ts:22-30 | after any number of writes the journal ids are contiguous, end at the cursor, and are the tail of the runs written, at most 512 of them |
| `RunJournal.ResetIsExact` | src/runs/storage/jsonFileRunStorage.ts:32-39 | `reset` is false exactly when `after` is not past the cursor and every id after it is still in the journal |
| `RunJournal.ReplayIsComplete` | src/runs/storage/jsonFileRunStorage.ts:32-39 | without a reset the replay holds every missed write, each once, in order, with its own id |
| `RunJournal.RunStorage.WriteRun` | src/runs/storage/jsonFileRunStorage.ts:22-30 | one write stores one newer state and appends exactly one journal entry |
| `RunJournal.RunStorage.Read` | src/runs/storage/jsonFileRunStorage.ts:32-39 | the object answers a read as the journal specification does |
| `RunFeed.LatestIsCoalesce` | src/gateway/conversationStream.ts:37 | the map-and-sort of the replay is exactly the last change of every run, in id order |
| `RunFeed.Convergence` | src/gateway/conversationStream.ts:22-42 | in every interleaving of writers, server, disconnects and reconnects: a run the client holds, or that changed after its last snapshot watermark, equals the stored run once its last journal id is at or below the client cursor and no write of it is half done |
| `RunFeed.MonotoneReads` | src/tui/client.ts:65-83 | between any two moments of a run of the system the version the client holds of a run never goes back |
| `RunFeed.NothingDiscarded` | src/tui/client.ts:70-82 | the cursor filter and the missing-snapshot error never fire on a frame the server sent, so no update the client lacks is dropped |
| `RunFeed.FramesTakeEffect` | src/tui/client.ts:65-83 | in every reachable state: a snapshot makes the client hold exactly its runs with the watermark as cursor, a run frame replaces that one run, and session metadata only moves the cursor |
| `RunFeed.HeldStays` | src/tui/client.ts:65-83 | a run that the client holds it holds until the next snapshot is delivered, whatever else happens |
| `RunFeed.ReadRunsAreHeld` | src/gateway/conversationStream.ts:30-33 | every run that the server read for a snapshot is held, in that version or a newer one, once the snapshot has been delivered |
| `RunFeed.SnapshotOnlyIfNeeded` | src/gateway/conversationStream.ts:26-38 | the server sends a snapshot exactly if the client has none or an entry after its cursor is no longer kept; else the batch is the last change of every run after the cursor |
| `RunFeed.BatchIsExact` | src/gateway/conversationStream.ts:37 | a change is in the coalesced batch exactly if it comes after the cursor and is the last one of its run |
| `RunFeed.ReplayedRunExists` | src/gateway/conversationStream.ts:38-41 | a replayed change always finds its run, so no id of a batch is skipped silently |
| `RunFeed.JournalIsTail` | src/runs/storage/jsonFileRunStorage.ts:22-30 | in every reachable state the journal is the bounded tail of all writes made |
| `FeedOutcomes.DiskIsHistory` | src/runs/storage/jsonFileRunStorage.ts:22-30 | in every run of the feed the stored revision of a run is the number of its writes, the journal numbers the appended changes in order, each with the revision of that moment, and the half-done writes are those made and not yet journaled |
| `FeedOutcomes.PassesGoOn` | src/gateway/conversationStream.ts:43-56 | after the session data the server goes on from where the snapshot or the batch ended; a lost connection loses what is on the wire and nothing else, and the next one resumes at the client's cursor |
| `RunFeed.CatchesUp` | src/gateway/conversationStream.ts:22-56 | from every reachable state the stream and the client can, by their own steps, bring the client cursor up to the journal |
| `RunFeed.EventuallyConsistent` | src/gateway/conversationStream.ts:22-56 | once writers pause, those steps lead to a state where every run the client holds or that changed since its snapshot equals the stored run |
| `ConversationStream.Watcher.Receive` | src/tui/client.ts:65-83 | the client merge of one frame, and when it gives the stream up |
| `ConversationStream.StreamLoop.ReadHistory` | src/gateway/conversationStream.ts:30-33 | reading the runs for a snapshot, while writers go on, is the system's read steps |
| `ConversationStream.StreamLoop.SendBatch` | src/gateway/conversationStream.ts:36-42 | sending a coalesced batch, while writers go on, is the system's fetch and send steps |
| `ConversationStream.StreamLoop.Pass` | src/gateway/conversationStream.ts:22-56 | one pass of the loop, snapshot or replay, cursor and metadata, whatever writers do at its awaits, is a run of the system's steps: the server ends at the head of the loop with this cursor, and the wire holds what the object sent |
| `SseFraming.ChunksDoNotMatter` | src/tui/client.ts:50-56 | without CR CR LF every cut of the stream gives the frames and the leftover of the whole stream read at once |
| `SseFraming.ChunkIndependentExactly` | src/tui/client.ts:50-56 | for every stream: every cut gives the same frames and the same leftover if and only if the stream has no CR CR LF |
| `SseFraming.FramesIndependentExactly` | src/tui/client.ts:50-56 | for streams that end in a blank line, with LF or CRLF line ends, the same holds of the frames alone |
| `SseFraming.CutMatters` | src/tui/client.ts:50-52 | cut right after a CR CR LF any stream is read otherwise than at once |
| `SseFraming.GivesUpExactly` | src/tui/client.ts:50-85 | for every stream: every cut yields all the frames and the same leftover without giving up if and only if the stream has no CR CR LF and none of its prefixes leaves more than 16 MiB unfinished |
| `SseFraming.StreamReader.Accept` | src/tui/client.ts:50-56 | the normalise-and-cut loop for one chunk |
| `SseEvents.ParseFrame` | src/tui/client.ts:57-64 | the loop over a frame's lines reads the event name, the cursor and the joined data |
| `SseEvents.FrameRoundTrip` | src/tui/client.ts:57-64 | a frame reads back as the event it was written for |
| `SseEvents.StreamRoundTrip` | src/tui/client.ts:50-64 | however the written stream is cut, the client reads the written events, in order, each once, with nothing left over |
| `Decimals.DecimalInjective` | src/scheduler/taskStore.ts:183 | different cycle numbers have different decimal texts |
| `SchedulerTasks.CycleIdInjective` | src/scheduler/taskStore.ts:182-183 | equal cycle ids are the same cycle of the same task |
| `SchedulerTasks.HandleKeeps` | src/scheduler/taskStore.ts:119-322 | every store operation keeps: active status iff a cycle id is set, and then it is the id of the cycle counted last; and ids stay distinct |
| `SchedulerTasks.HeldByClaimOnly` | src/scheduler/taskStore.ts:164-192 | a cycle becomes current only by the claim that issues it, and was not counted before |
| `SchedulerTasks.UnheldIsTurnedAway` | src/scheduler/taskStore.ts:486-490 | whatever carries a cycle id nobody holds is refused or ignored and changes nothing |
| `SchedulerTasks.AcceptedEndEnds` | src/scheduler/taskStore.ts:225-271 | an accepted completion, failure or reclaim was carried by the holder and ends the cycle |
| `SchedulerTasks.TerminationEnds` | src/scheduler/taskStore.ts:273-297 | so does a cancellation or a forced expiry of the task that holds it |
| `SchedulerTasks.IssuedOnce` | src/scheduler/taskStore.ts:164-192 | over every history each cycle id is issued by at most one claim |
| `SchedulerTasks.Fenced` | src/scheduler/taskStore.ts:200-322 | once a cycle stops being current, in every continuation every operation that carries it is turned away, and it is never issued again |
| `SchedulerTasks.FinishedOnce` | src/scheduler/taskStore.ts:225-271 | over every history each cycle is accepted as finished at most once |
| `SchedulerTasks.FinishedWasIssued` | src/scheduler/taskStore.ts:225-271 | a finished cycle that was not current at the start was issued on the way |
| `SchedulerTasks.MeasureDrops` | src/scheduler/taskStore.ts:164-322 | (cycles left, status rank) strictly drops on every claim, also one refused as expired or at the limit, completion, failure, reclaim, cancel and expiry that moves the task, and never grows |
| `SchedulerTasks.TerminalAbsorbs` | src/scheduler/taskStore.ts:164-322 | terminal tasks are left exactly as they are by every operation but the forced expiry, which the engine never issues |
| `SchedulerTasks.LifecycleBound` | src/scheduler/taskStore.ts:164-322 | over every history lifecycle steps and cycles issued are bounded by what is left of the measure |
| `SchedulerTasks.TaskTerminates` | src/scheduler/taskStore.ts:178-181 | a new task gets at most min(maxCycles, 50) cycles and at most four times that, plus one, lifecycle steps |
| `SchedulerOutcomes.ClaimGranted` | src/scheduler/taskStore.ts:164-192 | a claim is granted exactly for a pending task in the version asked for that is due, unexpired and has cycles left; its cycle is the next one and its lease ends 120000 ms from now |
| `SchedulerOutcomes.ClaimRefused` | src/scheduler/taskStore.ts:164-192 | the exact condition of each refusal, in the task's fields and the clock, and which of them retire the task |
| `SchedulerOutcomes.HolderOutcome` | src/scheduler/taskStore.ts:200-223 | exactly the instance that holds the cycle marks it running and renews its lease, and what that leaves |
| `SchedulerOutcomes.CompletionOutcome` | src/scheduler/taskStore.ts:225-250 | an accepted completion leaves the task pending at the next time if and only if one is given, cycles are left and it lies before the expiry; else completed |
| `SchedulerOutcomes.FailureOutcome` | src/scheduler/taskStore.ts:252-271 | an accepted failure leaves the task pending at the retry time if and only if it is not terminal, a time is given, cycles are left and it lies before the expiry; else failed |
| `SchedulerOutcomes.CancellationOutcome` | src/scheduler/taskStore.ts:273-287 | cancelled exactly by the owner in the task's session, and only while the task has not ended |
| `SchedulerOutcomes.ReclaimOutcome` | src/scheduler/taskStore.ts:289-322 | a reclaim of the named cycle always leaves the task pending at the given time |
| `SchedulerOutcomes.SettledCompletionOutcome` | src/scheduler/taskStore.ts:289-322 | a completion found by recovery leaves the task as one by the holder would |
| `SchedulerOutcomes.SettledFailureOutcome` | src/scheduler/taskStore.ts:289-322 | a failure found by recovery fails the task exactly if it is terminal or has no retry time |
| `SchedulerOutcomes.ExpiryOutcome` | src/scheduler/taskStore.ts:289-322 | a forced expiry ends any task |
| `SchedulerOutcomes.NudgeOutcome` | src/scheduler/taskStore.ts:119-127 | exactly a pending task moves its due time, and nothing else of it |
| `SchedulerOutcomes.UnknownOutcome` | src/scheduler/taskStore.ts:164-322 | a task that is not there changes nothing and is refused or ignored |
| `SchedulerOutcomes.StoredAsTheSchemaAllows` | src/scheduler/schemas.ts:99-111 | whatever is asked, each stored task has cycle, owner and lease exactly while active, and its counts in range |
| `SchedulerEngine.TaskStore.Create` | src/scheduler/taskStore.ts:158-161 | the created task is appended and nothing else changes |
| `SchedulerEngine.TaskStore.Nudge` | src/scheduler/taskStore.ts:119-127 | only a pending task moves its due time; any other task is left as it is |
| `SchedulerEngine.TaskStore.Claim` | src/scheduler/taskStore.ts:164-192 | a due pending task gets the next cycle id and a lease; an expired or used-up one is retired; five kinds of refusal change nothing |
| `SchedulerEngine.TaskStore.MarkRunning` | src/scheduler/taskStore.ts:200-212 | only the holder of the cycle that claimed it marks it running; else the call is refused and nothing changes |
| `SchedulerEngine.TaskStore.RenewLease` | src/scheduler/taskStore.ts:214-223 | only the holder of the cycle that claimed it gets a new lease; else nothing changes |
| `SchedulerEngine.TaskStore.CompleteCycle` | src/scheduler/taskStore.ts:225-250 | only the active cycle completes; the task becomes pending again or completed, and no longer holds it |
| `SchedulerEngine.TaskStore.FailCycle` | src/scheduler/taskStore.ts:252-271 | only the active cycle fails; the task becomes pending again or failed, and no longer holds it |
| `SchedulerEngine.TaskStore.Cancel` | src/scheduler/taskStore.ts:273-287 | only the owner cancels, and only a task that is not terminal |
| `SchedulerEngine.TaskStore.Reconcile` | src/scheduler/taskStore.ts:289-322 | each of the four actions moves the task only while it holds the named cycle, but for the forced expiry |
| `SchedulerEngine.DueListIsExact` | src/scheduler/taskStore.ts:110-117 | the due list is the front, cut at the limit, of the pending tasks that are due, each as often as it is stored, earliest first |
| `SchedulerEngine.DueClaimMoves` | src/scheduler/engine.ts:108-113 | claiming a due task issues a cycle or retires the task, and makes the store's total measure smaller, so the tick loop ends |
| `SchedulerEngine.ClaimKeepsHeld` | src/scheduler/engine.ts:112 | a claim leaves every held cycle held |
| `SchedulerEngine.RecoveryEndsCycle` | src/scheduler/engine.ts:131-159 | a recovered task is not active and its old cycle is not held |
| `SchedulerEngine.RecoveryEnds` | src/scheduler/engine.ts:137-157 | whatever has become of the task since it was listed, its recovery leaves the lapsed cycle over for good |
| `SchedulerEngine.RecoveredAs` | src/scheduler/engine.ts:131-159 | a lapsed task becomes completed, failed or pending exactly by the status of its recorded run |
| `SchedulerEngine.Engine.FindCandidate` | src/scheduler/engine.ts:110 | the first due task that may start, if there is one |
| `SchedulerEngine.Engine.Tick` | src/scheduler/engine.ts:103-129 | whatever others do at its awaits: a tick ends, keeps the concurrency bound, starts only cycles that the store issued, and stops only at the bound or when none of the listed due tasks may start; with nobody else at work what it started is held at its end |
| `SchedulerEngine.Engine.ClaimListed` | src/scheduler/engine.ts:112-121 | the claim of a listed task, in the version that was listed, after whatever others did meanwhile |
| `SchedulerEngine.Engine.Recover` | src/scheduler/engine.ts:131-159 | whatever others do at its awaits: every cycle whose lease had run out is over for good at its end; with nobody else at work exactly the tasks of those cycles are moved, each as its recorded run says |
| `SchedulerDelivery.DeliveryIdInjective` | src/scheduler/deliveryStore.ts:47-49 | a delivery id determines its task, cycle and purpose |
| `SchedulerDelivery.OneSendInFlight` | src/scheduler/deliveryStore.ts:85-100 | in every interleaving and with crashes anywhere, two sends of one delivery are never in flight together |
| `SchedulerDelivery.DeliveredIsFinal` | src/scheduler/deliveryStore.ts:85-125 | `delivered` is never left |
| `SchedulerDelivery.SendsAreAccountedFor` | src/scheduler/reminder.ts:52-63 | in every run, whatever the notifier and the disk answer: at most one successful send more than failed records of one; exactly one more for a delivery recorded as delivered or a completed reminder |
| `SchedulerDelivery.SentTwice` | src/scheduler/reminder.ts:52-63 | a message id the store refuses, or one failed write of the record, leads to a second successful send of the same delivery |
| `SchedulerDelivery.AtMostOnceExactly` | src/scheduler/deliveryStore.ts:57-125 | every delivery is sent successfully at most once, in every interleaving with any crashes, if and only if no record of a successful send can fail and every message id the notifier may return fits the store, or the notifier never succeeds |
| `SchedulerDelivery.CompletedMeansSentOnce` | src/scheduler/reminder.ts:27-79 | a reminder cycle recorded as completed has exactly one successful send, if no record of a send failed |
| `SchedulerDelivery.ShippedNotifiersSendOnce` | src/scheduler/notifier.ts:55-61 | with the gateway's own notifiers (decimal message numbers from Telegram, no id from the web) a delivery is sent at most once in every run in which no record of a send fails |
| `ReminderCycles.CompletedOnceSentOnce` | src/scheduler/reminder.ts:27-79 | over both stores and every interleaving with crashes: the task store accepts the completion of a reminder cycle at most once, and then its message was sent exactly once more than the record of a send failed |
| `SchedulerExecutors.DeliveryStore.Ensure` | src/scheduler/deliveryStore.ts:57-83 | a delivery is created once, pending, and answered as it stands afterwards |
| `SchedulerExecutors.DeliveryStore.Claim` | src/scheduler/deliveryStore.ts:85-100 | granted only from pending, or from failed on a retry, and never while sending or delivered; a grant counts one attempt |
| `SchedulerExecutors.DeliveryStore.Delivered` | src/scheduler/deliveryStore.ts:102-113 | recorded as delivered; if the message id does not fit or the write fails nothing changes |
| `SchedulerExecutors.DeliveryStore.Failed` | src/scheduler/deliveryStore.ts:115-125 | recorded as failed, for a known delivery only |
| `SchedulerExecutors.RunBeside` | src/scheduler/deliveryStore.ts:163-172 | what other executors do to the deliveries does not depend on this one, and never moves it |
| `SchedulerExecutors.Worker.OthersAct` | src/scheduler/deliveryStore.ts:163-172 | at an await any steps of other executors happen; this one stays where it is, and a delivered notice stays delivered |
| `SchedulerExecutors.Worker.SendAndRecord` | src/scheduler/reminder.ts:52-63 | one send and its record, with others acting in between, are steps of the protocol; recorded exactly if sent, storable and written |
| `SchedulerExecutors.AttemptReminder` | src/scheduler/reminder.ts:39-64 | one round of the retry loop, whatever other executors do at its awaits, follows the protocol's steps; it completes the cycle only when the reminder is recorded as delivered; with nobody else at work it ends exactly if the attempt gets through, and a delivery that may not be claimed ends it as its status says |
| `SchedulerExecutors.ExecuteReminder` | src/scheduler/reminder.ts:27-79 | the reminder executor, whatever others do at its awaits, follows the protocol's steps to their end: it completes the cycle only when the reminder is recorded as delivered, and fails it if and only if it gave the delivery up; with nobody else at work a new reminder is completed by the first attempt that is sent, keepable and written, and failed if none is, and one found delivered, being sent or failed completes, fails or raises |
| `SchedulerExecutors.Notify` | src/scheduler/watch.ts:87-109 | whatever others do at its awaits, the watch notice returns only when it is recorded as delivered; with nobody else at work it returns if and only if it was delivered already, or may be claimed and the attempt gets through |
| `SchedulerExecutors.DeliverWakeExplanation` | src/scheduler/engine.ts:292-324 | three attempts, whatever others do at the awaits, each following the protocol's steps; with nobody else at work a new explanation is delivered by the first attempt that gets through |
| `EventChannel.NoLostWakeUp` | src/runs/eventChannel.ts:65-108 | whenever no flush loop runs, nothing is queued, nobody waits for capacity or idleness, and every enqueued event was sunk |
| `EventChannel.SinkOrder` | src/runs/eventChannel.ts:31-88 | events reach the sink in enqueue order, each once, and each push settles exactly once, with its own sink call |
| `EventChannel.FlushWaitsForAll` | src/runs/eventChannel.ts:39-47 | a flush returns only after every event enqueued before it was sunk |
| `EventChannel.EveryCallEnds` | src/runs/eventChannel.ts:31-108 | once no new calls arrive only boundedly many steps follow, in any order and however sink calls end, and then every push has settled and every flush returned |
| `EventOutcomes.EveryCallIsAnswered` | src/runs/eventChannel.ts:31-88 | in every run the flushes that have returned are the first flush calls made, in order, each counting the events enqueued before it, and all of them once everything is sunk; the pushes settle as their sink calls ended |
| `EventOutcomes.WaitsAtHighWatermark` | src/runs/eventChannel.ts:49-55 | a push, or a woken one, waits behind the others exactly while the queue has reached the high watermark |
| `EventOutcomes.WokenAtLowWatermark` | src/runs/eventChannel.ts:89-97 | when a sink call ends all waiting pushes are woken if the queue is down to the low watermark, and none otherwise |
| `EventOutcomes.WatermarksAre` | src/runs/eventChannel.ts:22-29 | the configured watermarks brought into range, or 400 and 65 percent |
| `EventChannel.RunEventChannel.constructor` | src/runs/eventChannel.ts:22-29 | the two watermarks, clamped |
| `EventChannel.RunEventChannel.Push` | src/runs/eventChannel.ts:31-37 | a push is admitted below the high watermark and waits otherwise; the invariant of the channel is kept |
| `EventChannel.RunEventChannel.Resume` | src/runs/eventChannel.ts:49-55 | a woken push checks the capacity again |
| `EventChannel.RunEventChannel.Enqueue` | src/runs/eventChannel.ts:33-36 | an admitted push puts its event at the end of the queue and starts the flush loop if none runs; the invariant is kept |
| `EventChannel.RunEventChannel.Flush` | src/runs/eventChannel.ts:39-47 | a flush returns at once only when nothing is queued or being sunk; else it waits for all events enqueued so far |
| `EventChannel.RunEventChannel.SinkDone` | src/runs/eventChannel.ts:72-87 | the end of a sink call settles its push, wakes waiters at the low watermark and takes the next event or ends the loop |
| `SessionThreads.SerializedTurns` | src/runtime/threadRuntime.ts:41-89 | each session's operations are dispatched one at a time, in submission order, once each: what was submitted is what settled, then the one in progress, then the queue |
| `SessionThreads.NoIdleSlot` | src/workers/inMemoryQueue.ts:7-29 | at most `concurrency` drain tasks are in the pool, none waits while a slot is free, and a session with queued operations has a drain task waiting or running |
| `SessionThreads.RefusedExactly` | src/runtime/turnRuntime.ts:138-201 | a turn is refused as already running exactly after a turn whose start event was lost with no shutdown since, and as shut down exactly after a shutdown |
| `SessionThreads.RefusedAfterLostStart` | src/runtime/turnRuntime.ts:138-158 | for any two turns of a session there is a run where the first loses its start event and the second is refused as already running |
| `SessionThreads.ShutdownAbsorbs` | src/runtime/turnRuntime.ts:239-256 | a dispatched shutdown is final, although a turn's end resets the state; otherwise the state between operations is idle, unless a start was lost |
| `SessionThreads.CancelsOwnRun` | src/runtime/turnRuntime.ts:204-219 | an interrupt or cancel targets its own run unless an earlier turn's start event was lost |
| `SessionThreads.EveryOpSettles` | src/runtime/threadRuntime.ts:56-89 | once nothing new is submitted and the pool has a slot, only boundedly many steps follow, in any order and whatever calls answer, and then every operation has settled |
| `SessionThreads.AnsweredExactly` | src/runtime/turnRuntime.ts:138-256 | over every run: a turn is answered completed or aborted exactly as its own execution came back, or throws what its own calls threw; every other operation is answered with the state that the log before it, or the shutdown itself, gives |
| `SessionOutcomes.StartedInOrder` | src/workers/inMemoryQueue.ts:7-29 | in every run the pool has started the drain tasks in the order they were handed to it, each once, and the others wait in that order |
| `SessionOutcomes.StateInProgress` | src/runtime/turnRuntime.ts:138-201 | while a turn is in progress its state is running with its run as the active one until the execution comes back, and then completed or aborted as that came back |
| `SessionThreads.InMemoryQueue.Add` | src/workers/inMemoryQueue.ts:7-10 | the task goes to the end of the backlog, and the oldest starts if a slot is free |
| `SessionThreads.InMemoryQueue.ScheduleNext` | src/workers/inMemoryQueue.ts:12-29 | starts the oldest task if a slot is free |
| `SessionThreads.InMemoryQueue.Finished` | src/workers/inMemoryQueue.ts:25-28 | frees the slot and starts the next task |
| `SessionThreads.TurnRuntime.Dispatch` | src/runtime/turnRuntime.ts:100-164 | a dispatch up to its first await |
| `SessionThreads.TurnRuntime.Continue` | src/runtime/turnRuntime.ts:160-256 | each handler from one await to the next, with its failures |
| `SessionThreads.ThreadRuntime.Accept` | src/runtime/threadRuntime.ts:41-64 | queues the operation and hands a drain task to the pool if the session has none |
| `SessionThreads.ThreadRuntime.TakeNext` | src/runtime/threadRuntime.ts:66-86 | the head of the drain loop dispatches the next operation or leaves the loop |
| `TailMutex.ExclusiveAndFifo` | src/runner/chatService.ts:103-137 | for each key: at most one holder, grants in call order, and nobody is granted before every earlier caller released |
| `TailMutex.EntryIffInUse` | src/runner/chatService.ts:116-126 | the map has an entry exactly while somebody holds or waits for the key |
| `TailMutex.NoStrandedWaiter` | src/runner/chatService.ts:106-114 | while somebody waits, the key is held or the oldest waiter can be granted |
| `TailMutex.GrantableExactly` | src/runner/chatService.ts:106-114 | in every run a caller can go on exactly if it waits and every earlier caller of its key has released |
| `TailMutex.OneStageOn` | src/runner/chatService.ts:103-137 | each call moves its own ticket one stage on, and no other |
| `TailMutex.SessionMutex.Register` | src/runner/chatService.ts:106-112 | `acquire` takes its place synchronously |
| `TailMutex.SessionMutex.Resume` | src/runner/chatService.ts:114 | the caller holds the key once the promise before it has resolved |
| `TailMutex.SessionMutex.ReleaseTicket` | src/runner/chatService.ts:117-126 | releasing twice does nothing; the entry goes only if it is still the caller's own |
| `Admission.OneRunPerRequest` | src/runner/chatService.ts:669-686 | at most one run is ever stored for a session, principal and request id, however calls overlap, fail or repeat |
| `Admission.RetriesGetTheSameRun` | src/runner/chatService.ts:673-679 | every call of one request that is answered with a run gets the same run |
| `Admission.ExecutionInAdmissionOrder` | src/runner/chatService.ts:680-685 | admitted runs of a session execute in the order they were stored, a later one not before the earlier one has ended |
| `Admission.AnsweredExactly` | src/runner/chatService.ts:669-686 | in every run: a lookup that does not fail answers with a stored run exactly if one of this request with the same redacted message was stored, rejects exactly if it failed, the session is missing or the message differs, and else goes on to create |
| `Admission.RetriesWorkExactly` | src/runner/chatService.ts:674-677 | a retry of a stored request is answered with its run in every run of the gate if and only if redaction is idempotent |
| `Admission.RetryConflicts` | src/runs/runStore.ts:115-131 | a text that redaction changes twice: the retry is rejected as a conflict once the run has been updated |
| `AdmissionOutcomes.EntersExactly` | src/runner/chatService.ts:103-114 | in every run a call enters exactly when every earlier call of its session is done |
| `AdmissionOutcomes.CreatesExactly` | src/runner/chatService.ts:680-685 | a run is stored, with the redacted message, unless the call fails before the write; it takes the next execution place and is answered exactly if nothing fails |
| `AdmissionOutcomes.LeavesWithItsAnswer` | src/runner/chatService.ts:129-136 | a call leaves with its answer and touches nothing else |
| `AdmissionOutcomes.TurnsTakeTurns` | src/runner/chatService.ts:129-136 | in every run a turn begins exactly when every earlier place of its session has ended, and touches no other |
| `Admission.ChatAdmission.HandleTurn` | src/runner/chatService.ts:670 | a call takes its place in the admission order |
| `Admission.ChatAdmission.FindStored` | src/runs/runStore.ts:98-104 | the search finds a run of the request if there is one |
| `Admission.ChatAdmission.Look` | src/runner/chatService.ts:671-679 | a failed lookup and a different message are rejected, an existing run of the same message is answered, and only else does the call go on to create; the invariant is kept |
| `Admission.ChatAdmission.Store` | src/runner/chatService.ts:680-685 | storing the run and taking its execution place happen together, or the admission fails |
| `Admission.ChatAdmission.UpdateRun` | src/runs/runStore.ts:115-131 | an update of a stored run redacts its message again; the invariant is kept |
| `Admission.ChatAdmission.Left` | src/runner/chatService.ts:129-136 | the mutex is released however the call ended; the invariant is kept |
| `OutboundReservations.RepliesInArrivalOrder` | src/channels/telegram/adapter.ts:379-404 | a chat's replies go out one at a time in the order their places were reserved, each only after it was claimed; a place never claimed holds back every later one |
| `OutboundReservations.BeginsExactly` | src/channels/telegram/adapter.ts:379-404 | in every run a place can be delivered to exactly if it was claimed, waits, and every earlier place of its chat has ended |
| `OutboundReservations.MovesOn` | src/channels/telegram/adapter.ts:379-404 | each move takes its own place one stage on, and no other |
| `OutboundReservations.TelegramOutbox.ReserveOutboundDelivery` | src/channels/telegram/adapter.ts:379-385 | reserving takes the next place of the chat |
| `OutboundReservations.TelegramOutbox.Use` | src/channels/telegram/adapter.ts:387-392 | a place can be used once |
| `OutboundReservations.TelegramOutbox.FinishDelivery` | src/channels/telegram/adapter.ts:395-402 | the place ends however the delivery did |
| `IngressDedupe.SuppressedUnderAnyClock` | src/channels/telegram/adapter.ts:64-92 | under any clock, a message is suppressed if and only if its key's previous message was younger than ttl at every call since, this one included, and fewer than maxEntries other keys were unexpired at every time since |
| `IngressDedupe.FewKeysSuppress` | src/channels/telegram/adapter.ts:64-92 | under any clock, a previous message that stayed young suppresses if fewer than maxEntries other keys came since |
| `IngressDedupe.SuppressedExactly` | src/channels/telegram/adapter.ts:64-92 | under a clock that does not go back, a message is suppressed if and only if its key's previous message came less than ttl ago and fewer than maxEntries other keys came since |
| `IngressDedupe.WindowIsBounded` | src/channels/telegram/adapter.ts:64-92 | under any clock the map never exceeds maxEntries and holds no key twice; its entries are latest calls, in call order, each younger than ttl at every call since; in time order too if the clock never goes back |
| `IngressDedupe.ClockRollbackForgets` | src/channels/telegram/adapter.ts:86-92 | a concrete history where the rule for steady clocks fails once the clock has gone back |
| `IngressDedupe.TelegramIngressDeduper.constructor` | src/channels/telegram/adapter.ts:58-62 | the given bounds, one where less is given, else the defaults |
| `IngressDedupe.TelegramIngressDeduper.HasSeen` | src/channels/telegram/adapter.ts:64-84 | the object follows the specified window for every history and clock, and so both rules |
| `IngressDedupe.TelegramIngressDeduper.PruneEntries` | src/channels/telegram/adapter.ts:86-92 | exactly the entries of age ttl or more go |
| `BlobStorage.EveryRunIsHealthy` | src/channels/blobStore.ts:79-161 | from any directory and through any run of operations both caps hold, the index has exactly one entry per blob file and tells what the disk tells, and the capacity error never occurs |
| `BlobStorage.OpenIsHealthy` | src/channels/blobStore.ts:182-201 | initialization from any directory succeeds and evicts down to the caps |
| `BlobStorage.PutKeeps` | src/channels/blobStore.ts:79-114 | `put` keeps the store healthy and never meets the error for a capacity that cannot be satisfied |
| `BlobStorage.PutIsReadable` | src/channels/blobStore.ts:79-137 | a successful `put` is readable at once with the same bytes, even where files were lost or damaged |
| `BlobStorage.RestartKeepsEntries` | src/channels/blobStore.ts:182-201 | reading a healthy directory back, in any order, gives the same entries with the same MIME types and recency, and evicts none |
| `BlobStorage.VictimIsOldest` | src/channels/blobStore.ts:303-317 | the victim has the earliest access of the entries that may go, the first in the index among equals; there is none only if none may go |
| `BlobStorage.EvictIsShortest` | src/channels/blobStore.ts:236-250 | eviction removes the shortest least-recently-used sequence that restores the caps: after fewer removals the store was still over |
| `BlobStorage.EvictTakesOldest` | src/channels/blobStore.ts:236-250 | nothing that stays, but for the protected blob, was used before anything that went |
| `BlobStorage.EvictProtects` | src/channels/blobStore.ts:236-250 | the protected blob is never evicted |
| `BlobStorage.EvictSucceeds` | src/channels/blobStore.ts:236-250 | with a protected blob that fits the byte cap eviction always ends under the caps |
| `BlobOutcomes.GetOutcome` | src/channels/blobStore.ts:116-137 | a blob is read exactly if it has an entry and a file; the bytes are the file's and only that blob's recency changes; an entry whose file is gone goes with its metadata |
| `BlobOutcomes.GetMetadataOutcome` | src/channels/blobStore.ts:139-161 | the same for type and size, which are those of the entry |
| `BlobOutcomes.PutOutcome` | src/channels/blobStore.ts:79-114 | the answer and the whole store of every `put`: refused, used again, or written anew under the caps while what stays of the others is as it was |
| `BlobOutcomes.RecencyIsLastUse` | src/channels/blobStore.ts:79-161 | over any run and any clock the recency of a blob is the time of the last operation that put or read it, or what it started with |
| `BlobOutcomes.EvictedWereOldest` | src/channels/blobStore.ts:236-250 | what a `put` evicts after any run was last used no later than anything else that stays |
| `BlobOutcomes.UsedIsSpared` | src/channels/blobStore.ts:303-317 | right after a use with a later clock the victim is another blob whenever another may go, and an eviction that takes it leaves nothing it could have taken instead |
| `BlobOutcomes.CapsHold` | src/channels/blobStore.ts:252-258 | from any directory and through any run the number of entries and the sum of their sizes are within whichever caps are set, and each size is its file's |
| `BlobOutcomes.OpenOutcome` | src/channels/blobStore.ts:182-220 | opening indexes what the directory says of each blob; what it evicts leaves the disk and was used no later than anything that stays |
| `BlobStorage.BlobStore.Initialize` | src/channels/blobStore.ts:182-201 | the index is rebuilt from files and metadata files and evicted down to the caps |
| `BlobStorage.BlobStore.IsOverCap` | src/channels/blobStore.ts:252-258 | either cap exceeded, zero disabling it |
| `BlobStorage.BlobStore.PickLeastRecentlyUsed` | src/channels/blobStore.ts:303-317 | the loop finds the victim |
| `BlobStorage.BlobStore.EvictUntilUnderCap` | src/channels/blobStore.ts:236-250 | the loop ends and removes what the eviction says, files included |
| `BlobStorage.BlobStore.PutBlob` | src/channels/blobStore.ts:79-114 | an intact stored blob is only touched; anything else is rewritten, indexed last and protected while others are evicted; too large or untyped content is refused |
| `BlobStorage.BlobStore.GetBlob` | src/channels/blobStore.ts:116-137 | the stored bytes, with the recency renewed; an entry whose file is gone is dropped and reported missing |
| `BlobStorage.BlobStore.GetBlobMetadata` | src/channels/blobStore.ts:139-161 | MIME type and size, with the recency renewed; an entry whose file is gone is dropped and reported missing |
| `JsonText.PrintInjective` | src/runtime/toolApprovalStore.ts:26 | the printed text of a JSON value determines it |
| `ToolApproval.CanonicalLossless` | src/runtime/toolApprovalStore.ts:18-27 | two values with the same canonical text are equal up to the order of object members, whatever the comparison |
| `ToolApproval.OrderFreeExactly` | src/runtime/toolApprovalStore.ts:20-24 | member order never changes the text if and only if the comparison never ties on distinct keys |
| `ToolApproval.TiedKeysKeepOrder` | src/runtime/toolApprovalStore.ts:21-22 | two keys that tie give two texts for equal objects |
| `ToolApproval.ActionTextDetermines` | src/runtime/toolApprovalStore.ts:29-31 | the text behind the action key determines the tool, and the input up to member order |
| `ToolApproval.ApprovedKeyInjective` | src/runtime/toolApprovalStore.ts:57-71 | the key of an approved action determines session and action, whatever the session id contains |
| `ToolApproval.ApprovalsAreOneShot` | src/runtime/toolApprovalStore.ts:39-75 | in every run an action of a session is let through at most as often as that session approved it |
| `ToolApproval.ConsumedInTime` | src/runtime/toolApprovalStore.ts:39-75 | nothing is let through that the session did not request, nor once the lifetime has passed since its request |
| `ApprovalOutcomes.LetThroughExactly` | src/runtime/toolApprovalStore.ts:39-90 | after any history an action is let through if and only if its session approved a waiting request of it that has not expired by now or by any call since, and that approval was neither used nor replaced nor cleared |
| `ApprovalOutcomes.DecidedExactly` | src/runtime/toolApprovalStore.ts:52-67 | after any history a token can be approved, or rejected, exactly if its session asked under it when no unexpired request of the action was waiting, and nothing has closed the request or reached its expiry since |
| `ApprovalOutcomes.RejectedIsNever` | src/runtime/toolApprovalStore.ts:61-67 | a rejected token approves nothing in any continuation that does not give it away again |
| `ToolApproval.ToolApprovalStore.PruneExpired` | src/runtime/toolApprovalStore.ts:82-90 | exactly the expired entries go |
| `ToolApproval.ToolApprovalStore.FindPending` | src/runtime/toolApprovalStore.ts:41-45 | the loop finds a pending request of the action if there is one |
| `ToolApproval.ToolApprovalStore.RequestApproval` | src/runtime/toolApprovalStore.ts:39-50 | an unexpired pending request of the same session and action is answered again, else the new token is pending for the lifetime |
| `ToolApproval.ToolApprovalStore.ApproveToken` | src/runtime/toolApprovalStore.ts:52-59 | only the requesting session approves an unexpired token; the token goes and its action becomes approved until the request expires |
| `ToolApproval.ToolApprovalStore.RejectToken` | src/runtime/toolApprovalStore.ts:61-67 | only the requesting session rejects an unexpired token, and the token goes |
| `ToolApproval.ToolApprovalStore.ConsumeAction` | src/runtime/toolApprovalStore.ts:69-75 | an unexpired approval of this session and action is used up; else nothing is let through |
| `AgentLoop.OneTerminalAction` | src/runtime/agentLoop.ts:298-699 | whatever provider, tools and clock do: a scheduled turn that is not cancelled ends completed, with exactly one action ever selected, and reports it; a cancelled one has selected at most one |
| `AgentLoop.ToolBudgets` | src/runtime/agentLoop.ts:553-585 | at most `limit` tool calls are executed, and in a scheduled turn at most max(0, limit - 1) that are not terminal actions |
| `AgentLoop.ObservationBoundExactly` | src/runtime/agentLoop.ts:555-565 | a number bounds the observations of every scheduled turn if and only if it is at least max(0, limit - 1): the bound is the least there is |
| `AgentLoop.TranscriptIsPaired` | src/runtime/agentLoop.ts:541-644 | at every provider call each tool-call message is followed by exactly its results, in order |
| `AgentLoop.AnswersAreGrounded` | src/runtime/agentLoop.ts:471-538 | a model text returned as the answer passed the grounding check for exactly the tools that had succeeded in the turn |
| `AgentOutcomes.RoundUnscheduled` | src/runtime/agentLoop.ts:298-540 | when a round ends a user's turn with exactly the model's text, with the fallback, with saved results, cancelled or failed, and when it goes on, each as an if and only if |
| `AgentOutcomes.RoundScheduled` | src/runtime/agentLoop.ts:298-699 | the reason and the progress text with which each round without tool calls forces a scheduled turn's action |
| `AgentOutcomes.DoubtfulIsRepairedOnce` | src/runtime/agentLoop.ts:471-500 | a doubtful text is put back to the model once with the repair instruction |
| `AgentOutcomes.FirstDoubtIsRepaired` | src/runtime/agentLoop.ts:471-500 | a turn starts with its repair unused: a doubtful text in the first of several rounds is put back and does not end the turn |
| `AgentOutcomes.CallOutcome` | src/runtime/agentLoop.ts:585-636 | what one tool call leaves, and when it succeeds |
| `AgentOutcomes.CallsRunInOrder` | src/runtime/agentLoop.ts:553-641 | the calls of a reply run in order up to the first that is over budget or ends the turn |
| `AgentOutcomes.FirstEndDecides` | src/runtime/agentLoop.ts:298-699 | the turn is as its first round that ends it says, or out of rounds |
| `AgentOutcomes.GroundedTextIsTheAnswer` | src/runtime/agentLoop.ts:471-538 | a grounded text with which the model ends a round is the answer of the turn; a doubtful one gives the fallback once the repair is used up |
| `AgentLoop.AgentTurn.SelectAction` | src/scheduler/execution.ts:3-20 | the action is written once; a second selection is refused |
| `AgentLoop.AgentTurn.ForceTerminalAction` | src/runtime/agentLoop.ts:82-126 | an action already selected is reported, else one is forced |
| `AgentLoop.AgentTurn.ExecuteTool` | src/runtime/agentLoop.ts:585-636 | one tool call: count, receipt, progress, result message |
| `AgentLoop.AgentTurn.RunTools` | src/runtime/agentLoop.ts:553-641 | the loop over the tool calls of a reply, with its two budgets and its early end |
| `AgentLoop.AgentTurn.TakeFinalText` | src/runtime/agentLoop.ts:471-538 | a final text: one repair, fallback, forced action or answer |
| `AgentLoop.AgentTurn.TakeReply` | src/runtime/agentLoop.ts:389-673 | the branches on a provider reply |
| `AgentLoop.AgentTurn.RunLoop` | src/runtime/agentLoop.ts:298-699 | the whole loop refines its specification |
| `RunRecords.SortUnique` | src/runs/runStore.ts:236 | the order in which runs are read from disk does not change the history |
| `RunRecords.SortedByTime` | src/runs/runStore.ts:236 | the sorted history is the same runs by creation time and then id, downwards or upwards |
| `HistoryPaging.CreateIsNewest` | src/runs/runStore.ts:60-66 | a new run is newer than every stored one, even when the clock has gone back |
| `HistoryPaging.UpdateKeepsOrder` | src/runs/runStore.ts:233-236 | updates never reorder the history |
| `HistoryOutcomes.CreatedAsEarlyAsMayBe` | src/runs/runStore.ts:60-66 | the creation time is the clock, or the least time after every stored run, and it is also the update time |
| `HistoryOutcomes.PageIsExact` | src/runs/runStore.ts:234-242 | refused exactly if no run has the cursor's id; else the newest runs older than the cursor's, newest first, as many as asked for between 1 and 100 or 50, with a next cursor exactly if older ones are left |
| `HistoryPaging.PagingVisitsEachRunOnce` | src/runs/runStore.ts:234-242 | following `nextCursor` with any limits while runs are created and updated reads every run of the first page's history exactly once, newest first; no cursor is refused, and the end is reached after at most as many pages as there were runs |
| `HistoryPaging.RunStore.CreateRun` | src/runs/runStore.ts:60-88 | the stored run is the given one with a creation time above all others |
| `HistoryPaging.RunStore.UpdateRun` | src/runs/runStore.ts:115-131 | only the named run changes; the order of the history stays unless the patch carries another creation time |
| `HistoryPaging.RunStore.FindIndex` | src/runs/runStore.ts:237 | the first position of a run id, or -1 |
| `HistoryPaging.RunStore.List` | src/runs/runStore.ts:234-242 | the page after the cursor, the next cursor, or the invalid-cursor error |
| `TurnBudget.TakeIsBest` | src/memory/conversationHistory.ts:9-25 | for any way of fitting a turn: the pairs are the newest turns, only the newest ever cut and only if it does not fit alone, and the next older one would not fit |
| `ConversationWindow.EligibleExactly` | src/memory/conversationHistory.ts:5-8 | a run is eligible exactly when it is a finished user turn after every `/newsession` |
| `ConversationWindow.EligibleOrdered` | src/memory/conversationHistory.ts:5-8 | the eligible runs are in chronological order |
| `ConversationWindow.WindowIsNewest` | src/memory/conversationHistory.ts:4-27 | the window is a contiguous run of the newest eligible turns, only the newest ever cut, and as many older turns are in as fit |
| `ConversationWindow.CutFits` | src/memory/conversationHistory.ts:15-18 | a turn that does not fit is cut to a budget of at least 26 |
| `ConversationWindow.WithinBudgetExactly` | src/memory/conversationHistory.ts:4-27 | the window keeps within its budget whatever the runs if and only if the budget is at least 26 |
| `HistoryOutcomes.EligibleInFields` | src/memory/conversationHistory.ts:5-8 | eligible exactly: not scheduled, neither queued nor running, and later by time and id than every `/newsession`; in that order |
| `HistoryOutcomes.AnswerIs` | src/memory/conversationHistory.ts:12 | a completed run answers with its text, any other with its status in brackets, preview and text, trimmed at the end |
| `HistoryOutcomes.FitIs` | src/memory/conversationHistory.ts:15-18 | a turn that fits is told whole; else the question is cut to half of what is left and the answer to the rest, each a front part and the mark |
| `HistoryOutcomes.EntriesAreRuns` | src/memory/conversationHistory.ts:4-27 | the entries are the newest eligible runs, oldest first, question at its creation time and answer at its update time, whole but for a newest one that does not fit |
| `ConversationWindow.FindReset` | src/memory/conversationHistory.ts:6-7 | the pass finds the last `/newsession` |
| `ConversationWindow.TakeNewest` | src/memory/conversationHistory.ts:9-25 | the loop takes what the specification takes |
| `ConversationWindow.Build` | src/memory/conversationHistory.ts:4-27 | the entries of the window with their times, user before assistant, oldest first |

## Left out

- File, network and process calls: a file write is one atomic change of state, and what a notifier, a provider, a tool or a browser answers is a parameter. An interrupted write that leaves a temporary file behind is not modelled; in the feed a run whose write never reaches the journal stays marked as half written.
- Locking between processes: one process is modelled, in which every store mutation is one step. `withFileLock`, the task and delivery stores' `mutationTail` and the blob store's `withLock` are the chain of `TailMutex`, or simpler; they are not modelled again.
- Redaction and schema trimming: texts, ids and codes are taken as already redacted and trimmed. Only `Admission` redacts, where it decides between a retry and a conflict, with the redaction itself as a parameter.
- Hashes, UUIDs and random tokens: a digest is collision-free, new ids and tokens are fresh, and a run id is its rank in id order.
- UTF-8: the stream is text; that a streaming decoder may be fed any cut of the bytes is a property of the decoder. The server's writing of an event as lines is hono's, which is not part of this model; the usual order of fields is assumed.
- The snapshot's 100-run limit as a claim of coverage: convergence is stated for runs held or changed since the snapshot. Heartbeats, notifications and session metadata carry no content in the feed.
- A hard bound on the event channel's queue: pushes yield between the capacity check and the enqueue, so the maximum can be overshot.
- SessionThreads.EveryOpSettles: asks for a pool of at least one slot, which the configuration guarantees; watchers that throw out of `emit` are not modelled, and the one the gateway registers does not throw. Progress timers are left out.
- HistoryPaging.PagingVisitsEachRunOnce: covers paging without `terminalOnly`; with it a run may enter the list between pages. Creation times are taken as integers, in the range where ISO texts compare as numbers do.
- SchedulerEngine.Engine.Tick: what others do at its awaits is any finite list of store calls, runs that end and clock readings; without an end to them a tick need not end. A rate-limited wake task at the head of the due list can hold back later tasks, as in the code. Creation limits, quotas, lease timers, the run log and transcripts are left out.
- SchedulerExecutors.DeliverWakeExplanation: the probe and the wake execution themselves are foreign calls. The list of deliveries is a map from delivery ids.
- A call of the delivery store that fails outside the record of a send ends the executor, which is the step that crashes it. A write that takes effect although its call reports a failure is not modelled.
- A notifier that fails after it has really delivered: no protocol on this side can tell, so a send counts as successful when the notifier says so.
- ToolApproval.CanonicalLossless: values are JSON values without repeated keys; `undefined` inside an input, which prints as nothing in a list, and the two zeros of a number are outside the model.
- AgentLoop: exceptions thrown by the run store end the turn without a result and are left out; the texts of outcomes are named rather than spelled out, and the grounding check is a parameter.
- Configuration, setup, the web and terminal interfaces, browser tools, provider wire formats and prompt texts: they would add only easy members or depend on foreign code.
