# task-relay: verified models of its protocols

task-relay moves an ingress event through a pipeline: a journal on disk, an inbox table, a router that
drives a task state machine, an outbox table, and projection workers that mirror the outbox to Forgejo
and Discord. Beside the pipeline run a branch lease in Redis with fencing tokens and a wait queue, a
heartbeat, a circuit breaker, nested retry loops, a file-scope matcher and a log retention sweep.

This project models those parts in Dafny and proves what they keep: over every interleaving of workers,
crashes and failed sends, over every run of events, over every journal, and for every input of the
self-contained algorithms. `dafny verify dfyconfig.toml` checks everything.

How the models are built:

- A SQL table is a map or a sequence of rows and one transaction is one atomic step. A function on
  values says what a transaction does, a class with the table as a field does it in place, and the
  method's contract ties the two together.
- A protocol is a state machine over such steps, with crash steps in between. Theorems about runs start
  from the empty state and hold for every list of steps. `Worker.ProjectionWorker.Step`,
  `Dispatcher.DispatchIsRun` and `Ingester.StepIsRun` show that the code's own loops are runs of them.
- A rebuild reads the task and then its plan before its transaction begins (projection/rebuild.py:75-95), in
  a process of its own, so each of the three is a move and events may commit between them.
- An issue is its target: its body and its labels belong to whoever writes to it last, whichever task that is.
- A journal file is its decompressed byte sequence, a Redis key is a holder with an expiry, and an
  instant is an integer.

| file | models |
|---|---|
| Common, Failures, Events | shared vocabulary; failure codes (errors.py); events, tasks and JSON values (types.py) |
| Idempotency, Outbox, Rebuild | key material, the outbox table with its queries, the rebuild of a task's rows |
| Delivery, DeliveryTheorems, DeliveryRetry, Worker | the delivery protocol, what it guarantees, its retries, and the worker's step |
| LabelLanes, LabelRuns | what label lanes show, and runs after which they show other labels than their newest row |
| Guards, StateMachine, Transitions, Router | the guards, the transition table, the handlers, run_once |
| HandlerFacts, RouterRuns, RouterTheorems | facts of single transitions, invariants over runs, the router's theorems |
| Outcomes, RouterOutcomes | what each event comes to by state and payload, beside the table, and what run_once commits for it |
| RebuildRaces | runs in which an event commits inside a rebuild, and two tasks on one issue |
| EndToEnd, EndToEndTheorems | router and workers over one outbox, and what issues then show |
| Journal, Ingester | the daily journal files and their ingestion |
| Lease, Waiters, Dispatcher, Heartbeat | the branch lease, the wait queue, dispatch and unlock, the heartbeat loop |
| Breaker, ScopeMatcher, LogRetention, RetryBudget | the four self-contained algorithms |

Assumptions the theorems rest on: a claim is reclaimed only when its worker is dead; one worker acts on
one row from its memory copy of it; a failed call has no effect later on; the comment lookup sees all
comments of the issue; digests and generated ids are injective; JSON text holds no raw newline (section
7 of RFC 8259) and parsing inverts writing; one router, one ingress writer and one breaker instance own
their state; Redis scripts are atomic. Theorems on what an issue shows are for issues that one task mirrors to:
nothing in the code prevents a second one, as `RebuildRaces.TwoTasksOneIssue` shows.

## Model

| member | source | states |
|---|---|---|
| Idempotency.KeyIdentity | task-relay/src/task_relay/router/idempotency.py:9-35 | two idempotency keys whose parts hold no separator are equal when their stored text is, for all four streams |
| Idempotency.KeyIdentified | task-relay/src/task_relay/router/idempotency.py:9-35 | for separator-free tasks the stored text determines a snapshot, label or alert key, whatever its target holds |
| Idempotency.CommentKeyShared | task-relay/src/task_relay/router/idempotency.py:25-26 | a comment of a separator-free task shares its stored key with a different key exactly when target, origin or kind holds a separator |
| Idempotency.SeparatorInTargetCollides | task-relay/src/task_relay/router/idempotency.py:25-26 | two such comments |
| Events.DecimalReadsBack | task-relay/src/task_relay/router/guards.py:44-46 | int() of the text of a number is the number, so a count or a plan revision sent as text is read as sent |
| Outbox.InsertKeepsTableOk | task-relay/src/task_relay/db/queries.py:287-332 | an outbox insert keeps keys unique and lanes exclusive, changes no row, and leaves exactly one row for its key |
| Outbox.OutboxDb.InsertOutbox | task-relay/src/task_relay/db/queries.py:287-332 | adds one unsent, unclaimed row with the draft's columns and the next id, or, where a row holds the key already, answers that row and changes nothing |
| Outbox.OutboxDb.ClaimNextOutbox | task-relay/src/task_relay/db/queries.py:335-384 | claims the lowest row that is unsent, unclaimed, due by now and in a lane in which no unsent row is claimed, and refuses only when there is none; no other row changes |
| Outbox.OutboxDb.ReclaimStaleOutbox | task-relay/src/task_relay/db/queries.py:387-405 | clears exactly the unsent claims that are at least the given time old, changes nothing else, and answers how many there were |
| Outbox.OutboxDb.MarkOutboxSent | task-relay/src/task_relay/db/queries.py:408-416 | marks one row sent and changes nothing else |
| Outbox.OutboxDb.RescheduleOutbox | task-relay/src/task_relay/db/queries.py:419-432 | sets due time and attempt count of one row and frees its claim; every other row and column stays |
| Outbox.OutboxDb.UpsertProjectionCursor | task-relay/src/task_relay/db/queries.py:435-465 | the cursor of one lane moves to the sent revision |
| Rebuild.RebuildForTask | task-relay/src/task_relay/projection/rebuild.py:76-126 | given what was read of the task before: an unknown task is an error that changes nothing; else one transaction leaves the rebuilt table and the answer counts the inserted rows |
| Rebuild.OneRowPerCurrentKey | task-relay/src/task_relay/projection/rebuild.py:68-126 | after a rebuild exactly one row has the current snapshot key and exactly one the label key |
| Rebuild.RowSurvives | task-relay/src/task_relay/projection/rebuild.py:68-126 | without force no row changes; with force no sent row and no row of another task does |
| Rebuild.ForcedLeavesOnlyCurrent | task-relay/src/task_relay/projection/rebuild.py:88-126 | after a forced rebuild the task's only unsent rows are fresh ones for the current keys |
| Rebuild.RebuiltRow | task-relay/src/task_relay/projection/rebuild.py:68-126 | every row that a rebuild adds shows the state, revision, plan revision, critical flag and URL that were read, or exactly their labels, under the task's issue, due at once and unsent |
| Rebuild.SecondRebuildInsertsNothing | task-relay/src/task_relay/projection/rebuild.py:33-65 | a second plain rebuild of an unchanged task changes nothing |
| Rebuild.SecondForcedRebuild | task-relay/src/task_relay/projection/rebuild.py:88-126 | a second forced rebuild inserts nothing exactly when both current rows have been sent |
| Delivery.StepKeepsInv | task-relay/src/task_relay/projection/worker.py:47-160 | every protocol step, failures and crashes included, keeps the delivery invariant |
| Delivery.RunKeepsInv | task-relay/src/task_relay/projection/worker.py:47-160 | so does every run, over any number of workers |
| Delivery.ForcedConverges | task-relay/src/task_relay/projection/rebuild.py:88-126 | a forced rebuild leaves a snapshot lane of its task converging exactly when the issue shows the row of the cursor or the request is above the cursor |
| DeliveryTheorems.MirrorConverges | task-relay/src/task_relay/projection/worker.py:76-114 | the body of an issue that one task mirrors to is the payload of the row that the cursor names, or an unsent row is above the cursor; once all rows are sent it is, and its revision is the highest of the lane |
| DeliveryTheorems.CursorRises | task-relay/src/task_relay/projection/worker.py:84-105 | no step lowers a cursor, and each confirmed snapshot raises it strictly to the sent revision |
| DeliveryTheorems.CommentsExactlyOnce | task-relay/src/task_relay/projection/forgejo_sink.py:55-62 | no comment is on the remote twice, and a comment row marked sent is there once |
| DeliveryTheorems.OneInFlightPerLane | task-relay/src/task_relay/db/queries.py:346-359 | at most one unsent claimed row per lane in every reachable state |
| DeliveryTheorems.ClaimOvertakes | task-relay/src/task_relay/db/queries.py:346-384 | a claim overtakes an older unsent row of its lane exactly when such a row is not due yet |
| DeliveryTheorems.ConfirmedInOrder | task-relay/src/task_relay/db/queries.py:335-405 | with rising due times and no failed send a lane is confirmed in outbox order, crashes and reclaims included |
| LabelLanes.SyncKeepsManualLabels | task-relay/src/task_relay/projection/forgejo_sink.py:77-87 | a label sync keeps every label outside the managed set and leaves exactly the desired ones inside it |
| LabelLanes.StepKeepsLabels | task-relay/src/task_relay/projection/worker.py:76-105 | every step but a forced rebuild keeps: an issue of one task carries the labels of the row confirmed last, or of an unsent row |
| LabelLanes.ForcedShown | task-relay/src/task_relay/projection/rebuild.py:88-126 | a forced rebuild keeps it exactly when the issue carries the labels of the row confirmed last, or of the row that the rebuild enqueues |
| LabelLanes.RebuildAfterConfirmIsCalm | task-relay/src/task_relay/projection/rebuild.py:88-126 | it does in every run in which no forced rebuild comes between a label send of its task that took effect and the next confirmed one |
| LabelLanes.DrainedLabels | task-relay/src/task_relay/projection/worker.py:84-105 | over all those runs, failed sends included, an issue of one task whose label lane is drained carries the labels of the row confirmed last, so those of the newest row exactly when the two desire the same |
| LabelLanes.LabelsConverge | task-relay/src/task_relay/projection/forgejo_sink.py:63-74 | with rising due times and no failed send the row confirmed last is the newest, so the issue carries its labels |
| LabelRuns.FailedSendLeavesStaleLabels | task-relay/src/task_relay/projection/worker.py:112-114 | a run with one failed send that ends with every row sent and the older labels on the issue, since only snapshots are superseded |
| LabelRuns.ForcedRebuildLosesLabels | task-relay/src/task_relay/projection/rebuild.py:88-126 | a send that failed after its effect, then a forced rebuild: it deletes the row whose labels are shown and enqueues nothing, and the only row left desires other labels |
| DeliveryRetry.BackoffRisesToCap | task-relay/src/task_relay/projection/worker.py:152-155 | delays never shrink from one failure to the next and stay between the initial delay and the cap |
| DeliveryRetry.BackoffDoubles | task-relay/src/task_relay/projection/worker.py:152-155 | the first delay is the initial one and each delay is twice the one before, both up to the cap |
| DeliveryRetry.NeverEarly | task-relay/src/task_relay/db/queries.py:346-359 | in every reachable world no worker holds a row before the row is due, and no row was sent before it was due |
| DeliveryRetry.RetryWaits | task-relay/src/task_relay/projection/worker.py:116-160 | a failed send is logged with its number, and with a fatal event exactly at the maximum or when the row is overdue by the limit; in no later world is the row held by a worker or sent at an instant before the failure plus its delay |
| DeliveryRetry.FatalByMaxAttempts | task-relay/src/task_relay/projection/worker.py:116-160 | attempt_count is the number of logged failures, and a fatal event is logged no later than the configured maximum |
| DeliveryRetry.StepLogs | task-relay/src/task_relay/projection/worker.py:47-105 | apart from failed sends a step logs a confirmed row once, the claims it frees by their number, and nothing else |
| Worker.SendRecord | task-relay/src/task_relay/projection/forgejo_sink.py:36-75 | a comment with its marker present is not posted again; otherwise the remote takes the effect unless the call failed without one |
| Worker.ProjectionWorker.Step | task-relay/src/task_relay/projection/worker.py:47-105 | one worker step is a run of the protocol, answers 0 exactly when nothing can be claimed, and raises exactly when the claimed row has no sink |
| Worker.ProjectionWorker.HandleFailure | task-relay/src/task_relay/projection/worker.py:116-150 | a failed send is the protocol's reschedule step: attempt count, backoff, failure events |
| Worker.ProjectionWorker.Finish | task-relay/src/task_relay/projection/worker.py:84-105 | confirming is one transaction: sent mark, cursor and event |
| Waiters.QueueStaysUnique | task-relay/src/task_relay/db/queries.py:488-554 | enqueue, status change, removal and requeue keep queue_order unique per branch |
| Waiters.EnqueueKeepsHead | task-relay/src/task_relay/db/queries.py:488-528 | a newcomer never displaces the head of its branch |
| Waiters.RequeueOldestActive | task-relay/src/task_relay/router/transitions.py:21-50 | requeueing makes the oldest active waiter the queued head, is idempotent, and moves nobody else |
| Waiters.DispatchableIsHead | task-relay/src/task_relay/runner/dispatcher.py:331-357 | a waiter is a dispatch candidate exactly when it is its branch's queued head and its task is plan_approved |
| Waiters.BeforeMeaning | task-relay/src/task_relay/runner/dispatcher.py:331-357 | the order of branches: the first character in which two names differ decides, and a name comes before its continuations |
| Waiters.WaiterTable.Enqueue | task-relay/src/task_relay/db/queries.py:488-511 | a second row of the same task and branch is refused; else the waiter gets the status asked for and the number after the greatest of the branch |
| Waiters.WaiterTable.PeekHead | task-relay/src/task_relay/db/queries.py:514-528 | answers the queued waiter with the least queue_order |
| Waiters.WaiterTable.UpdateStatus | task-relay/src/task_relay/db/queries.py:531-544 | changes the status of that waiter only |
| Waiters.WaiterTable.Remove | task-relay/src/task_relay/db/queries.py:547-554 | removes that waiter only |
| Waiters.WaiterTable.RequeueBranchHead | task-relay/src/task_relay/router/transitions.py:21-50 | answers the oldest active waiter, which is then the queued head with the order it had; nobody else changes |
| Waiters.WaiterTable.SelectDispatchCandidate | task-relay/src/task_relay/runner/dispatcher.py:331-357 | answers none exactly when no waiter is dispatchable, else the queued head of the first branch that has one |
| Waiters.OneCandidate | task-relay/src/task_relay/runner/dispatcher.py:331-357 | the dispatch query has a row exactly when something is dispatchable, and never two |
| StateMachine.ChosenHolds | task-relay/src/task_relay/router/router.py:79-97 | a transition is selected, or a guard's exception escapes, only where every guard before it is false; no match means all of them are |
| HandlerFacts.SpecPlaced | task-relay/src/task_relay/router/state_machine.py:114-331 | where in the table each handler occurs, with its guard: the table read backwards |
| HandlerFacts.StateFacts | task-relay/src/task_relay/router/state_machine.py:114-331 | nothing fires from done, cancelled stays cancelled, and nothing returns to new |
| HandlerFacts.ResumeFacts | task-relay/src/task_relay/router/transitions.py:336-372 | a resume target is set exactly on degradation from planning or implementing and cleared only by recovery |
| HandlerFacts.GateFacts | task-relay/src/task_relay/router/transitions.py:247-295 | the manual gate is raised only while implementing or reviewing and lowered only on the way to done |
| HandlerFacts.DoneFacts | task-relay/src/task_relay/router/guards.py:79-82 | done is entered only by a clean reviewer pass or an approval of the manual gate |
| HandlerFacts.LabelFacts | task-relay/src/task_relay/router/transitions.py:160-178 | a handler that writes no label row changes nothing that the labels show |
| Transitions.ReportedStateIsWritten | task-relay/src/task_relay/router/transitions.py:203-333 | for every table entry the state it announces is the state its handler writes |
| Outcomes.TableAgrees | task-relay/src/task_relay/router/state_machine.py:114-331 | for every task, event, plan and settings the table, with its guards and handlers, comes to what `Outcomes.OutcomeOf` says by event type, state and payload: the whole row left behind and the outbox rows written, a skip, or an exception |
| Router.RelayDb.SelectSpec | task-relay/src/task_relay/router/router.py:79-85 | the guard loop finds the first entry whose guard holds, and raises where a guard raises |
| Router.RelayDb.ApplyHandler | task-relay/src/task_relay/router/transitions.py:94-200 | task row, state_changed row and outbox rows of one transition |
| Router.RelayDb.RunOnce | task-relay/src/task_relay/router/router.py:32-114 | one call commits exactly what the event's route says, or rolls back to the state before; `RouterOutcomes` says what that is for every event |
| Router.RelayDb.RunAdmin | task-relay/src/task_relay/router/router.py:116-133 | an unlock requeues its branch's oldest active waiter, and every system admin event is marked processed and reported without a state |
| RouterOutcomes.EventOutcome | task-relay/src/task_relay/router/router.py:32-114 | for every event that names a stored task: the committed task row, the state_changed row, the outbox rows in their order with what each holds, the report and the mark are those of that outcome, or the event is skipped or rolled back as it says |
| RouterOutcomes.CancelCommits | task-relay/src/task_relay/router/state_machine.py:107-111 | a /cancel commits its task as cancelled from any state but done, and is never skipped there |
| RouterOutcomes.SkippedExactly | task-relay/src/task_relay/router/router.py:57-69 | an event on a stored task is skipped for want of a transition exactly outside the listed states of its type |
| RouterOutcomes.OpeningCreatesTask | task-relay/src/task_relay/router/router.py:135-186 | issues.opened that names no task creates one in planning with the columns that source and payload give it and the snapshot of revision one; the same event again is skipped, and an internal one is rolled back |
| RouterOutcomes.UnnamedEvent | task-relay/src/task_relay/router/router.py:38-56 | any other event that names no stored task is marked and skipped, and one whose task_id the table cannot be asked about is rolled back |
| RouterOutcomes.AdminEvent | task-relay/src/task_relay/router/router.py:116-133 | an unlock of a branch makes its oldest active waiter the queued head and reports its task; it and a system retry change nothing else but their own mark |
| RouterRuns.DraftIsNew | task-relay/src/task_relay/router/transitions.py:143-200 | every outbox row of a transition has a key that no row holds yet |
| RouterRuns.EmitAllRows | task-relay/src/task_relay/router/transitions.py:143-200 | a transition adds its own rows behind the others and changes none |
| RouterRuns.AppliedKeeps | task-relay/src/task_relay/router/transitions.py:94-140 | every applied transition keeps the router's invariant |
| RouterTheorems.RouteKeeps | task-relay/src/task_relay/router/router.py:32-114 | so does routing any event, skipped and failing ones included |
| RouterTheorems.RebuildKeeps | task-relay/src/task_relay/projection/rebuild.py:75-126 | so does a rebuild, however many events on its task were committed between its reads and its transaction |
| RouterTheorems.RouteKeepsView | task-relay/src/task_relay/projection/rebuild.py:75-80 | what a rebuild has read of a task is no newer than the task, and true of it until the next event takes effect |
| RouterTheorems.PlayKeeps | task-relay/src/task_relay/router/router.py:32-114 | so does every run of arrivals, routings, aborted routings, deliveries, new plans, and rebuilds whose two reads and one transaction are moves of their own |
| RouterTheorems.Ledger | task-relay/src/task_relay/router/transitions.py:94-140 | no event takes effect twice, the k-th effective event wrote the k-th state_changed row, and state_rev is the number of both for the task |
| RouterTheorems.OthersUnchanged | task-relay/src/task_relay/router/router.py:32-114 | an event changes no task row but its own, and the only row that can appear is one that issues.opened creates and starts |
| RouterTheorems.OutboxOnlyGrows | task-relay/src/task_relay/router/transitions.py:143-200 | an event changes no outbox row and no cursor; the rows it adds are unsent and name it and its task |
| RouterTheorems.SecondRunAppliesAgain | task-relay/src/task_relay/router/router.py:32-50 | run_once handed one event twice applies it twice: once-only rests on the processed mark and one router |
| RouterTheorems.ReachableTasks | task-relay/src/task_relay/router/state_machine.py:114-331 | no committed task is new, resume targets are planning or implementing and belong to degraded or cancelled tasks, done and the gate imply a visit to implementing |
| RouterTheorems.EventOnTask | task-relay/src/task_relay/router/transitions.py:336-372 | done rows are frozen, cancelled is absorbing, and recovery lands only in planning or plan_approved |
| RouterTheorems.ReportedStateIsCommitted | task-relay/src/task_relay/router/router.py:98-111 | the reported to_state is the state in the committed row |
| RouterTheorems.GatedTaskFinishes | task-relay/src/task_relay/router/guards.py:79-88 | a gated task reaches done by an event exactly when it is a reviewed approval in human_review_required, or a clean pass whose payload overrides the gate |
| RouterTheorems.GateLatched | task-relay/src/task_relay/router/transitions.py:247-256 | a raised gate survives every event until the task is done |
| RouterTheorems.CriticalOnRaisesGate | task-relay/src/task_relay/router/transitions.py:292-295 | critical on while implementing or reviewing raises the gate |
| RouterTheorems.ManualGateLatch | task-relay/src/task_relay/router/guards.py:161-166 | over every run without an overriding payload a raised gate stays, until a reviewed approval routed since takes the task from human_review_required to done, which is the last thing to happen to it |
| RouterTheorems.RebuildKeepsLabels | task-relay/src/task_relay/projection/rebuild.py:75-126 | after a rebuild the newest label row agrees with the task exactly when the row it inserts agrees with the task as it is by then, or, where it finds the row of its key, the newest label row it leaves does |
| RouterTheorems.PlainRebuildKeepsLabels | task-relay/src/task_relay/projection/rebuild.py:75-126 | without force, exactly when a row of its label key is there already or what it read agrees with the task |
| RouterTheorems.NewestLabelsAgree | task-relay/src/task_relay/router/transitions.py:83-91 | over every run in which each rebuild of the task meets that condition, the newest label row tells critical and cancelled as they are, and human_review_required whenever the task is there |
| RouterTheorems.UndisturbedRebuildsKeepLabels | task-relay/src/task_relay/projection/rebuild.py:75-126 | every run in which no event takes effect on the task between the reads of a rebuild and its transaction is one of them |
| RebuildRaces.StaleRebuildDeniesCritical | task-relay/src/task_relay/projection/rebuild.py:75-126 | a run that is none: /critical on commits between the reads and the transaction of a plain rebuild, and the newest label row of the critical task desires no label |
| RebuildRaces.StaleForceForgets | task-relay/src/task_relay/projection/rebuild.py:88-126 | the same run with force ends with rows of the older revision alone |
| RouterTheorems.InsertsNeverConflict | task-relay/src/task_relay/router/transitions.py:143-200 | in any reachable database no outbox insert of an event that takes effect meets the unique constraint, those of an event that creates its task included |
| EndToEnd.StepDelivers | task-relay/src/task_relay/projection/worker.py:47-160 | every worker step does to the outbox only what the router's invariants allow for |
| EndToEnd.PlayKeeps | task-relay/src/task_relay/projection/worker.py:47-160 | router transactions, the reads and transactions of rebuilds, and worker steps over one table, in any order, keep both invariants |
| EndToEnd.JointIsRun | task-relay/src/task_relay/projection/worker.py:47-160 | what the workers see of such a run, table, mirror and log, is reached by a run of the delivery protocol, so all its theorems hold of it |
| EndToEndTheorems.RebuildIsReady | task-relay/src/task_relay/projection/rebuild.py:75-126 | a forced rebuild with what it read is ready for the delivery protocol exactly when no row of the task is being sent and the issue shows the row of the cursor or what was read is above the cursor; if nothing has outdated it, exactly when no row is being sent |
| EndToEndTheorems.RebuildKeepsNewest | task-relay/src/task_relay/projection/rebuild.py:88-126 | the highest snapshot revision of the lane survives a rebuild exactly when no unsent snapshot is newer than both what was read and every sent one |
| EndToEndTheorems.CurrentViewDropsNothingNewer | task-relay/src/task_relay/projection/rebuild.py:75-126 | none is if no event has outdated what was read |
| EndToEndTheorems.WrittenIsShown | task-relay/src/task_relay/router/transitions.py:143-158 | whatever snapshot the router ever wrote for an issue of one task, and whatever happened since, rebuilds that meet that condition included: the drained issue shows one that is no older, the newest of its lane |
| EndToEndTheorems.IssueShowsTask | task-relay/src/task_relay/projection/worker.py:76-114 | a drained issue of one task with a snapshot of its present revision shows the present state and critical flag |
| EndToEndTheorems.DrainedLabelsTell | task-relay/src/task_relay/projection/forgejo_sink.py:63-74 | over joint runs with rising due times, no failed send and rebuilds that keep the labels, a drained issue of one task carries critical exactly if the task is critical, cancelled exactly if it is cancelled, and human_review_required whenever it is there |
| RebuildRaces.TwoTasksOneIssue | task-relay/src/task_relay/projection/forgejo_sink.py:125-127 | an issue opened in two events gets two tasks whose rows have one target |
| Journal.JournalWriter.RotateIfNeeded | task-relay/src/task_relay/journal/writer.py:54-62 | opens the day's file at its end, creating it empty when it is missing, or keeps the open one |
| Journal.JournalWriter.Append | task-relay/src/task_relay/journal/writer.py:32-43 | appends one line to the day's file and answers the offset at which it starts |
| Journal.Find | task-relay/src/task_relay/journal/reader.py:46-48 | the first newline at or after the cursor, or none |
| Journal.JournalReader.IterateFile | task-relay/src/task_relay/journal/reader.py:39-52 | yields the complete lines from an offset on with the position after each, and stops where one does not parse |
| Journal.JournalReader.IterateFrom | task-relay/src/task_relay/journal/reader.py:21-36 | skips the files before the position and reads the others in order |
| Journal.ReadFileAppend | task-relay/src/task_relay/journal/reader.py:39-52 | one appended line is exactly one yielded item more, or an error if it does not parse |
| Journal.TornTailUnread | task-relay/src/task_relay/journal/reader.py:44-52 | bytes after the last newline are never yielded |
| Journal.RoundTrip | task-relay/src/task_relay/journal/reader.py:21-52 | reading from the position after any k records yields the other records, in order, without an error |
| Journal.TornRoundTrip | task-relay/src/task_relay/journal/reader.py:21-52 | the same with a record cut short at the end of the journal |
| Journal.TornThenAppended | task-relay/src/task_relay/journal/reader.py:39-52 | a record appended behind one that was cut short: after the records before them every reader gets the one line they make together, or an error |
| Journal.ErrorStays | task-relay/src/task_relay/journal/reader.py:39-52 | a line that does not parse stops every reader at it, whatever is appended later |
| Journal.RestAt | task-relay/src/task_relay/journal/writer.py:32-80 | the i-th item read is the entry appended as number k + i, at the position after it |
| Ingester.JournalIngester.InsertRecord | task-relay/src/task_relay/db/queries.py:234-258 | a known delivery is ignored, a known event id raises, anything else becomes one unprocessed row behind the others |
| Ingester.JournalIngester.Step | task-relay/src/task_relay/ingester/journal_ingester.py:25-63 | inserts and moves the cursor record by record, and keeps what was committed when it raises |
| Ingester.Marked | task-relay/src/task_relay/db/queries.py:276-284 | marking sets processed_at of the rows of that event id and changes nothing else |
| Ingester.IngestRecord | task-relay/src/task_relay/db/queries.py:234-258 | an ingested record changes no row when it comes again; the next one extends the inbox by one first occurrence, or raises exactly on an event id clash |
| Ingester.MoveKeepsInv | task-relay/src/task_relay/ingester/journal_ingester.py:25-63 | appends, reads, inserts, crashes, rewinds and marks by any number of ingesters keep the invariant |
| Ingester.RunKeepsInv | task-relay/src/task_relay/ingester/journal_ingester.py:25-63 | so does every run, and the ingested prefix never shrinks |
| Ingester.ExactlyOnceIngestion | task-relay/src/task_relay/ingester/journal_ingester.py:25-63 | in every run the inbox is the first occurrence of each delivery in an ingested journal prefix, and the cursor is not past it |
| Ingester.OneRowPerDelivery | task-relay/src/task_relay/db/queries.py:234-258 | each ingested delivery has exactly one row, made from its first record |
| Ingester.RowsStay | task-relay/src/task_relay/ingester/journal_ingester.py:25-63 | no run without a mark changes an inbox row, processed_at included |
| Ingester.MoveMarks | task-relay/src/task_relay/db/queries.py:234-284 | every row that a move adds is unprocessed, and only a mark of its own event id changes an older row |
| Ingester.ProcessedExactlyWhenMarked | task-relay/src/task_relay/db/queries.py:261-284 | in every run a row is processed exactly when a mark of its event came after its insertion, and it carries the instant of the last one |
| Ingester.RewindAndReplay | task-relay/src/task_relay/ingester/journal_ingester.py:31-63 | replaying an ingested journal from any earlier position, or from none, leaves the inbox as it is and brings the cursor back to the end |
| Ingester.StepDrains | task-relay/src/task_relay/ingester/journal_ingester.py:37-63 | a step raises exactly when a new delivery reuses an event id; otherwise the whole journal is ingested |
| Ingester.StepIsRun | task-relay/src/task_relay/ingester/journal_ingester.py:37-63 | a crash after n transactions of a step leaves what those n committed |
| Lease.BranchTokens.NextBranchToken | task-relay/src/task_relay/db/queries.py:557-586 | hands out the next number of the branch, starting at one |
| Lease.RedisLease.Acquire | task-relay/src/task_relay/branch_lease/redis_lease.py:73-92 | succeeds exactly when no live key holds the branch, and then the key is the caller's until now plus the time to live |
| Lease.RedisLease.Renew | task-relay/src/task_relay/branch_lease/redis_lease.py:94-109 | exactly for its holder, the key lasts until now plus the time to live |
| Lease.RedisLease.Release | task-relay/src/task_relay/branch_lease/redis_lease.py:111-119 | deletes the key exactly for its holder |
| Lease.RedisLease.ForceRelease | task-relay/src/task_relay/branch_lease/redis_lease.py:121-127 | deletes any live key and says whether there was one |
| Lease.RedisLease.AssertReadonly | task-relay/src/task_relay/branch_lease/redis_lease.py:129-137 | true exactly for a holder with time left |
| Lease.RunKeepsInv | task-relay/src/task_relay/branch_lease/redis_lease.py:14-54 | every run of dispatchers, expiries, unlocks and late holders keeps tokens unique per branch |
| Lease.TokensNeverReused | task-relay/src/task_relay/db/queries.py:557-586 | no two grants of a branch ever carry the same token |
| Lease.HeldOrDead | task-relay/src/task_relay/branch_lease/redis_lease.py:14-54 | a pair that held the key holds it or can never hold it again |
| Lease.DeadStaysDead | task-relay/src/task_relay/branch_lease/redis_lease.py:24-54 | a dead pair stays dead, and nothing it tries succeeds or changes a key |
| Lease.LostStaysLost | task-relay/src/task_relay/branch_lease/redis_lease.py:24-54 | once a pair stops holding the key no later renew, release or assert by it succeeds or changes anything |
| Lease.HolderUndisturbed | task-relay/src/task_relay/branch_lease/redis_lease.py:14-54 | only an unlock and the holder's own renew or release touch a held key |
| Lease.LeaseLasts | task-relay/src/task_relay/branch_lease/redis_lease.py:14-34 | a lease granted or renewed and then left alone is held at every instant of the time to live and at none later, whatever else happens, and until then no acquire of the branch succeeds |
| Lease.FreedAtOnce | task-relay/src/task_relay/branch_lease/redis_lease.py:111-127 | a release by the holder and an unlock free the branch at once, and no other branch |
| Lease.HoldersSucceedOneAnother | task-relay/src/task_relay/branch_lease/redis_lease.py:24-54 | once another pair passes the fencing check of a branch, the one before never renews, releases or passes it again |
| Lease.WideTokensNeverMatch | task-relay/src/task_relay/branch_lease/redis_lease.py:24-54 | a holder's own operations succeed exactly while its token has at most 14 digits, and assert needs time left |
| Dispatcher.Dispatcher.Step | task-relay/src/task_relay/runner/dispatcher.py:72-111 | nothing happens while the breaker is open or nobody is dispatchable; else the first candidate draws a token and, on a free branch, is leased: key with its expiry, handle, one journal record with task, branch and token, and the waiter's status in its place of the queue |
| Dispatcher.Dispatcher.HandleUnlock | task-relay/src/task_relay/runner/unlock_handler.py:30-53 | frees the branch and no other, requeues its oldest active waiter with the order it had, and appends one dispatch attempt for it, or none when there is none |
| Dispatcher.DispatchIsRun | task-relay/src/task_relay/runner/dispatcher.py:84-92 | dispatching is a run of the lease protocol: one drawn token, tried once, and dispatched exactly when that is granted |
| Dispatcher.DispatchMeaning | task-relay/src/task_relay/runner/dispatcher.py:80-111 | a dispatched task was its branch's queued head; what is written is exactly its lease under the next token, the kept handle, one journal record naming them, and its waiter's leased status; a busy branch costs one token and nothing else |
| Dispatcher.UnlockAfterDispatch | task-relay/src/task_relay/router/transitions.py:21-50 | an unlock after a dispatch makes the oldest active waiter the queued head, which is the dispatched one exactly when no waiter leased before is older |
| Dispatcher.UnlockMakesDispatchable | task-relay/src/task_relay/runner/unlock_handler.py:30-53 | after an unlock the branch is free and its oldest active waiter is the candidate if it is plan_approved |
| Heartbeat.HeartbeatThread.Loop | task-relay/src/task_relay/runner/tool_runner.py:650-669 | stops the child and reports the lost lease right after the first two losses in a row, and never otherwise; a renewal that raises ends it |
| Heartbeat.RaisingEndsTheWatch | task-relay/src/task_relay/runner/tool_runner.py:658-663 | after a renewal that raises, before any two losses in a row, the child is never stopped |
| Heartbeat.HeldExactlyWhenTimely | task-relay/src/task_relay/runner/tool_runner.py:650-669 | from its grant on a lease is held without a gap exactly when no stretch without a renewal exceeds the TTL and nobody unlocks or releases it |
| Heartbeat.HeartbeatBound | task-relay/src/task_relay/runner/tool_runner.py:650-669 | from the grant on a held lease is never given up, and after a TTL that ran out or an unlock the child is stopped by the second renewal |
| Breaker.CircuitBreaker.Record | task-relay/src/task_relay/breaker/circuit_breaker.py:41-54 | only fatal codes are recorded and logged, in the bucket of their code |
| Breaker.CircuitBreaker.IsOpen | task-relay/src/task_relay/breaker/circuit_breaker.py:56-67 | for non-decreasing times open exactly when the whole log has threshold fatal records of the code in the window since its last reset |
| Breaker.OpenMeaning | task-relay/src/task_relay/breaker/circuit_breaker.py:56-67 | the whole log says open exactly for one of the four fatal codes with at least threshold records in the window, its first instant included, that no later reset covers |
| Breaker.OpenInMeaning | task-relay/src/task_relay/breaker/circuit_breaker.py:69-71 | each code is listed once for each of its places in the list of codes when the log says it is open, and not at all otherwise |
| Breaker.CircuitBreaker.OpenCodes | task-relay/src/task_relay/breaker/circuit_breaker.py:69-71 | exactly the codes that the log says are open, in their order |
| Breaker.CircuitBreaker.Reset | task-relay/src/task_relay/breaker/circuit_breaker.py:73-85 | clears one bucket or all and logs it |
| Breaker.CircuitBreaker.OverLog | task-relay/src/task_relay/breaker/circuit_breaker.py:28-39 | a new breaker over an existing log starts with empty buckets |
| Breaker.CircuitBreaker.RebuildFromEvents | task-relay/src/task_relay/breaker/circuit_breaker.py:87-118 | whatever the buckets hold, each fatal one becomes the window of the code's whole history, for any window |
| Breaker.Restart | task-relay/src/task_relay/runner/dispatcher.py:55-75 | a restarted breaker, rebuilt from the log, reports exactly the codes that the whole log says are open |
| Breaker.EmptyMisses | task-relay/src/task_relay/runner/dispatcher.py:64-70 | without the rebuild it would not |
| Breaker.RowKeepsFaithful | task-relay/src/task_relay/breaker/circuit_breaker.py:125-150 | pruned buckets keep all that any later window can see |
| Breaker.RecentSuffices | task-relay/src/task_relay/breaker/circuit_breaker.py:91-100 | reading only the recent rows, without older resets, loses nothing of the window |
| Breaker.RebuildAgreesWithLive | task-relay/src/task_relay/breaker/circuit_breaker.py:87-118 | a breaker rebuilt from the log has the in-window failures and the open codes of the live one |
| Breaker.PruneLoses | task-relay/src/task_relay/breaker/circuit_breaker.py:120-123 | a query earlier than a prune misses exactly the failures between the two cutoffs |
| ScopeMatcher.MatchMeaning | task-relay/src/task_relay/runner/adapters/executor.py:110-124 | a pattern matches exactly when each `**` can be replaced by some run of components so that the components match pairwise |
| ScopeMatcher.Normalize | task-relay/src/task_relay/runner/adapters/executor.py:66-101 | the push and pop loop computes the normal form, or none |
| ScopeMatcher.RejectionMeaning | task-relay/src/task_relay/runner/adapters/executor.py:70-83 | a relative path is rejected exactly when some prefix has more `..` than names or it resolves to nothing |
| ScopeMatcher.NormalizedMeaning | task-relay/src/task_relay/runner/adapters/executor.py:66-83 | the result has only proper names as components and leads where the path leads, from every directory |
| ScopeMatcher.NormalizingAgain | task-relay/src/task_relay/runner/adapters/executor.py:70-83 | normalising twice is normalising once exactly when the first component of the input that stays begins with no blank and the last one ends with none |
| ScopeMatcher.NormalizingTwiceDiffers | task-relay/src/task_relay/runner/adapters/executor.py:70-83 | a path for which it is not |
| ScopeMatcher.CheckFileScope | task-relay/src/task_relay/runner/adapters/executor.py:39-63 | the two lists hold the files of either verdict |
| ScopeMatcher.ListsPartition | task-relay/src/task_relay/runner/adapters/executor.py:51-64 | each file stands in exactly one list, behind exactly the earlier files with its verdict |
| ScopeMatcher.ScopeMeaning | task-relay/src/task_relay/runner/adapters/executor.py:39-63 | a file is in scope exactly when some listed file or pattern covers it component by component |
| LogRetention.LogRetention.Sweep | task-relay/src/task_relay/retention/log_retention.py:28-138 | the sweep's five phases give the reconciled rows, files, events and counts |
| LogRetention.LogRetention.Classify | task-relay/src/task_relay/retention/log_retention.py:44-54 | expired rows are to be deleted, aged rows with a path to be cleared, with the file each names |
| LogRetention.SweepReconciles | task-relay/src/task_relay/retention/log_retention.py:28-138 | from any state every remaining path names a file, every log file is named by a row, and nothing outlives its retention |
| LogRetention.FileSurvives | task-relay/src/task_relay/retention/log_retention.py:71-96 | a file survives exactly when no aged row names it and, being a log, an unexpired row does |
| LogRetention.PathSurvives | task-relay/src/task_relay/retention/log_retention.py:51-136 | a row keeps its path exactly when it is fresh and its file survives |
| LogRetention.RowsByAge | task-relay/src/task_relay/retention/log_retention.py:13-54 | a row lives exactly for 180 days and keeps its path for 30 of them, while its file is there |
| LogRetention.ReportsMeaning | task-relay/src/task_relay/retention/log_retention.py:92-136 | an orphan file is reported exactly when it is a log that only expired rows name, an orphan row exactly when it is fresh and its file is gone, with call, task and path |
| LogRetention.CountsMeaning | task-relay/src/task_relay/retention/log_retention.py:32-138 | the counts add up to the files, rows and paths that a sweep takes away |
| LogRetention.SweepAgain | task-relay/src/task_relay/retention/log_retention.py:28-138 | a second sweep at the same time changes nothing, reports nothing and counts zero |
| RetryBudget.Adapter.Call | task-relay/src/task_relay/runner/adapters/base.py:52-83 | sends and sleeps as the outcomes demand, with the same request id each time where the contract supports one |
| RetryBudget.CallBudget | task-relay/src/task_relay/runner/adapters/base.py:52-83 | for every transport at most three requests and three seconds of sleep; the call ends at its first outcome that is not retried |
| RetryBudget.KeepsFailing | task-relay/src/task_relay/runner/adapters/base.py:52-83 | a transport that keeps failing is tried once for each fatal code, three times with sleeps of one and two seconds for the two transient ones, and twice for every other |
| RetryBudget.ToolRunner.RunInProcessStage | task-relay/src/task_relay/runner/tool_runner.py:454-514 | one start record and one end record per stage, and none at the end only where a foreign exception escapes |
| RetryBudget.StageBudget | task-relay/src/task_relay/runner/tool_runner.py:57-72 | at most two calls, six requests and six seconds per stage, three of each where a timeout is not retried |
| RetryBudget.BudgetAttained | task-relay/src/task_relay/runner/tool_runner.py:470-514 | a transport that uses the whole budget up |

## Left out

What the code does not guarantee, so that it is not claimed, or is stated with its exact condition:

- DeliveryTheorems.ConfirmedInOrder: only for runs without a failed send, because a rescheduled head does not block its lane; `DeliveryTheorems.ClaimOvertakes` says exactly when a row is overtaken.
- LabelLanes.LabelsConverge: only for such runs, because label lanes have no cursor; `LabelLanes.DrainedLabels` is exact for all others, and `LabelRuns` shows two that end with other labels.
- LabelLanes.DrainedLabels: not for forced rebuilds that delete the row whose labels are shown, as `LabelLanes.ForcedShown` tells them apart; `LabelRuns.ForcedRebuildLosesLabels` is one.
- DeliveryTheorems.MirrorConverges: for issues of one task, since two of them overwrite each other's body (`DeliveryTheorems.SharedIssue`); a row of the cursor's revision with another plan revision or URL is superseded and never sent, so the issue keeps the payload that was confirmed first.
- RouterTheorems.NewestLabelsAgree: not for rebuilds that an event on their task overtakes, unless they meet the exact condition of `RouterTheorems.RebuildKeepsLabels`; `RebuildRaces.StaleRebuildDeniesCritical` is one that does not.
- EndToEndTheorems.WrittenIsShown: likewise not for forced rebuilds that drop a newer snapshot than they write, by the exact condition of `EndToEndTheorems.RebuildKeepsNewest`; `RebuildRaces.StaleForceForgets` is one.
- EndToEndTheorems.IssueShowsTask: targets are compared as text, while the sink reads them as integers, so an issue spelled `7` and `07` counts as two.
- RouterTheorems.Ledger: counts on one router that takes unprocessed events; `RouterTheorems.SecondRunAppliesAgain` shows that run_once does not look at the processed mark itself.
- RouterTheorems.ManualGateLatch: needs that no reviewer-pass payload carries a false `manual_gate_required`; `RouterTheorems.GatedTaskFinishes` is exact about that exit.
- Outcomes.TableAgrees: follows the table where its own comment differs: a /retry whose payload asks for a new plan is skipped in needs_fix (router/state_machine.py:242-253), not sent to planning.
- Breaker.CircuitBreaker.IsOpen: needs non-decreasing times; `Breaker.PruneLoses` says exactly what an earlier query misses.
- Idempotency.KeyIdentity: needs separator-free parts; `Idempotency.KeyIdentified` and `Idempotency.CommentKeyShared` say exactly which.
- Heartbeat.HeartbeatBound: for renewals that answer; `Heartbeat.RaisingEndsTheWatch` says what an exception does.
- Removal of the human_review_required label on a retry, an approved plan before every implementing, unchecked criteria blocking done through the dispatcher, and increasing acquisition order of tokens with several dispatchers: the code does none of these.

What the models idealise:

- Timestamps are integers; the SQL compares ISO texts in two spellings, and the grace deadline as text.
- One journal file is the concatenation of what its frames decompress to; compression and fsync are not modelled. A reader's files are read at one instant, while the generator opens each when it gets there.
- JSON text is an encoder and a parser that invert each other; floats, and `int()` of strings beyond a sign and decimal digits, are not modelled; `str()` of lists and objects is one opaque text.
- Generated ids, digests and task ids are injective functions.
- Worker.SendRecord: a send is one call with one outcome, and the lookups before a label update are part of it; the remote is a body and a label set per issue and a bag of comment markers; HTTP, pagination of comments, and people editing labels between a read and a write are not modelled, and neither is the effect of a Discord message.
- A forced rebuild while a row of the task is being sent, or one that would leave an issue beyond its cursor: excluded by the protocol's `RebuildReady`, which `EndToEndTheorems.RebuildIsReady` and `Delivery.ForcedConverges` make exact.
- DeliveryTheorems.CommentsExactlyOnce: compares keys as values; two comments whose parts hold a separator can share one stored key (`Idempotency.CommentKeyShared`), and then the second is taken for posted.
- No producer of task_comment rows is in the code; the delivery protocol takes such rows from any producer.
- Dispatcher.Dispatcher.Step: one uninterrupted call; a crash between the lease and the status update, or two dispatchers inside a step at once, are covered only by the lease runs, which draw and acquire in any order.
- Lease handles carry no `expires_at`, which is read after the script and used nowhere else.
- Heartbeat.HeartbeatThread.Loop: the signals sent to the child are not modelled; the child's exit is the end of the list of replies.
- Router.RelayDb.ApplyHandler: the `updated_at` column and the instant of the state_changed row, both the event's received_at, are not modelled.
- LogRetention.LogRetention.Sweep: each file has one spelling, paths name files, the log directory is absolute (a relative one would prefix stored paths twice); `log_sha256` and `log_bytes` follow `log_path`.
- Breaker.CircuitBreaker.Record: a log is configured, and this instance alone writes it.

What is not modelled at all:

- Ingress canonicalisation, the Discord gateway and webhooks, status reports, rate windows, reconciliation with running processes, the mirror check, planner scoring, worktrees and git, secrets and the CLI.
- Plan approval columns; the admin requests that system events hand to other handlers.
- Which journal event each stage result becomes after a run (runner/dispatcher.py), the lease check before a mutation, and the observer thread that watches the task's state.
