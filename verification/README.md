# Verified model of the workflow replay engine

This project models the client side of a durable workflow system: the engine that runs
workflow code against a history of events, and the pieces around it that must agree with
each other for replay to work. It is written in Dafny 4.11 and stands alone;
`dafny verify dfyconfig.toml` checks all of it.

Each part has a value-level description of the system as steps over a state, theorems about
every run of those steps, laws that say what the steps do in terms of what went in (the
operations, the events, the fields) rather than of the steps, and, where the code updates
things in place, classes whose methods are proved to take exactly those steps.

| files | what they model |
|---|---|
| `decision_machine`, `decision_meaning`, `decisions_state`, `decisions_runs`, `decisions_promises`, `decisions_helper` | the decision state machines and the helper that keeps them in a list and a map |
| `calls`, `activity_callbacks`, `event_routing`, `answers` | the calls a workflow has made, their callbacks, and history events routed to them |
| `history_batches`, `history_meaning`, `history_paging`, `history_cursor`, `history_truncation` | regrouping paged history into decision batches, and cutting it off for queries |
| `replay`, `helper_agreement`, `replay_agrees`, `workflow_environment` | calls, cancellations, side effects, versions, generated IDs and local activities, live and in replay |
| `sticky_cache`, `sticky_context` | cached execution contexts under concurrent tasks, heartbeats, failures and evictions |
| `channels`, `channel_ledger`, `selectors`, `select_invariant`, `select_runs`, `channel_theorems`, `channel_order`, `channel_answers`, `select_twice`, `channel_objects` | workflow channels, futures and Select, over all interleavings |
| `dispatcher` | the coroutine dispatcher |
| `context_tree`, `context_runs`, `context_kin`, `context_objects` | the cancellation tree of contexts |
| `heartbeats`, `retry`, `task_permits` | heartbeat batching, retry backoff, worker permits |
| `schedule_lens`, `schedule_update` | describing, mutating and updating schedules |

Where a property turned out not to hold of the code, the project has a lemma with an input
that shows it and a lemma that says exactly when it holds:

- An empty page of history between a started decision and its failure hides the failure
  (`EmptyPageHidesFailure`, `BatchesExactlyWhenSighted`).
- Asking for unhandled signals while a Select that accepted a signal has not resumed loses
  the next signal (`PeekBeforeResumeLosesASignal`, `LostExactlyWhenOverwritten`).
- A Select with one channel in both a send and a receive case can commit twice
  (`SelfSelectCommitsTwice`, `CommitsTwiceExactly`, `SelectsCommitOnceExactly`).
- A query that rebuilds a context, or a decision task that fails on one, while another
  context of the run is cached, leaves its context inconsistent (`QueryRebuildSpoils`,
  `OvertakenFailureSpoils`, `SafeExactly`).
- A version in the supported range can still panic, because the search attributes of two
  changes have one ID (`SupportedVersionPanics`, `VersionIsAnswered`).
- A decision task whose history goes on past its start cannot read it
  (`StartedDecisionCannotBeCut`, `DecisionReadsUpToStarted`).
- `MaximumAttempts` allows one attempt more than its comment says (`OneMoreThanDocumented`,
  `BoundIsReachedExactly`).

Assumptions taken from the system:

- Encoding and decoding round-trip, so values stand for their encodings.
- Workflow code is a deterministic function of what it has observed and of the replay clock.
- What the outside world decides is a parameter: side effect values, which sends are
  accepted, which pages can be fetched, what a coroutine does when it is called, the
  interval the floating point backoff formula gives.
- Removing a context from the cache and clearing it are one step. The code clears it in a
  goroutine of its own.
- A panic in the decisions helper leaves the part of its effect that came before it; in the environment it ends the workflow.

## Model

| member | source | states |
|---|---|---|
| `DecisionMachine.LegalTracesAreDisciplined` | internal/internal_decision_state_machine.go:339-422 | every trace a machine accepts starts at most once, cancels only after its initiated event (started event for a child), separates two cancels by a cancel failure, and says nothing after a cancel in Created |
| `DecisionMachine.LegalTracesStartOnce` | internal/internal_decision_state_machine.go:429-581 | a machine emits its start decision at most once |
| `DecisionMachine.LegalTracesEnableCancels` | internal/internal_decision_state_machine.go:429-581 | a cancel decision comes after the event that enables it |
| `DecisionMachine.LegalTracesSeparateCancels` | internal/internal_decision_state_machine.go:406-554 | between two cancel decisions of one machine lies a cancel-failed event |
| `DecisionMachine.LegalTracesStaySilent` | internal/internal_decision_state_machine.go:346-359 | a machine cancelled while Created never emits anything |
| `DecisionMachine.CompletedIsFinal` | internal/internal_decision_state_machine.go:385-394 | a trace that reached Completed goes on without emissions and stays Completed |
| `DecisionMeaning.StateIsWhatHappened` | internal/internal_decision_state_machine.go:339-581 | the state of an activity, timer or child is a function of which events and decisions its trace holds: whether it is over, sent, initiated, started, and asked or told to cancel since the last cancel failure |
| `DecisionMeaning.OtherStates` | internal/internal_decision_state_machine.go:583-678 | the same for signals, external cancellations, markers and upserts |
| `DecisionMeaning.AcceptedExactly` | internal/internal_decision_state_machine.go:339-581 | which events a machine accepts and which panic, by what has happened to it |
| `DecisionMeaning.CancelGoesOut` | internal/internal_decision_state_machine.go:346-370 | on every trace that a machine accepts, a cancellation asked for after the start and followed by the event it has to wait for has been requested, or is what the machine emits next |
| `DecisionMeaning.StartGoesOut` | internal/internal_decision_state_machine.go:339-359 | on every trace, a machine that nobody cancelled has emitted its start or emits it next |
| `DecisionsPromises.WantedCancelIsSent` | internal/internal_decision_state_machine.go:1033-1057 | over every run of the helper, a cancel request that is wanted has been sent or comes out of the next drain |
| `DecisionsPromises.StartIsSent` | internal/internal_decision_state_machine.go:1033-1057 | over every run, each machine ever added has sent its start, was cancelled, or its start comes out of the next drain |
| `EventRouting.EventIDsAreRemembered` | internal/internal_decision_state_machine.go:732-774 | over every run, an event ID stands for the activity, signal or cancellation that it was last named for, and for nothing if it never was |
| `EventRouting.EventReachesItsMachine` | internal/internal_decision_state_machine.go:713-1031 | an event that is accepted is told to exactly one machine: the one it names, or the one its event ID stands for |
| `DecisionsRuns.EmissionDiscipline` | internal/internal_decision_state_machine.go:660-678 | over every run of the helper, each machine that ever existed obeyed the emission discipline |
| `DecisionsRuns.IndexAndOrder` | internal/internal_decision_state_machine.go:691-711 | after every run map and list hold the same machines under unique IDs, none Completed, strictly sorted by last touch |
| `DecisionsRuns.RunKeepsInv` | internal/internal_decision_state_machine.go:313-324 | every operation of a run keeps list, map and traces consistent, panics included |
| `DecisionsRuns.DrainIsListOrder` | internal/internal_decision_state_machine.go:1033-1057 | a drain that removes machines while it walks the list still emits exactly the pending decisions in list order |
| `DecisionsRuns.DrainInTouchOrder` | internal/internal_decision_state_machine.go:1033-1057 | decisions come out in the order their machines were last touched |
| `DecisionsRuns.SecondDrainIsEmpty` | internal/internal_decision_state_machine.go:1033-1057 | an immediate second drain emits nothing and changes nothing |
| `DecisionsHelper.Helper.constructor` | internal/internal_decision_state_machine.go:680-689 | starts as the empty helper state |
| `DecisionsHelper.Helper.GetDecision` | internal/internal_decision_state_machine.go:691-702 | moves the machine found to the back of the list; an unknown ID panics and changes nothing |
| `DecisionsHelper.Helper.AddDecision` | internal/internal_decision_state_machine.go:704-711 | appends a new machine to list and map; a duplicate ID panics and changes nothing |
| `DecisionsHelper.Helper.MoveState` | internal/internal_decision_state_machine.go:313-324 | moves a machine on and drops it from list and map when it completes |
| `DecisionsHelper.Helper.GetDecisions` | internal/internal_decision_state_machine.go:1033-1057 | the loop that removes while iterating equals the value-level drain and returns exactly the pending decisions in order |
| `DecisionsHelper.Helper.HandleActivityTaskScheduled` | internal/internal_decision_state_machine.go:732-736 | records the event ID and delivers the initiated event, as one step of the system; `EventRouting` says who hears it and `DecisionMeaning` what state that leads to |
| `DecisionsHelper.Helper.HandleActivityTaskClosed` | internal/internal_decision_state_machine.go:726-730 | delivers completion to the activity the event ID belongs to |
| `DecisionsHelper.Helper.HandleActivityTaskCanceled` | internal/internal_decision_state_machine.go:743-747 | delivers cancellation to the activity the event ID belongs to |
| `DecisionsHelper.Helper.HandleExternalCancelInitiated` | internal/internal_decision_state_machine.go:888-899 | routes by cancellation ID to a child or to a cancellation machine |
| `DecisionsHelper.Helper.HandleExternalCancelRequested` | internal/internal_decision_state_machine.go:901-913 | completes a cancellation machine; a child is only touched |
| `DecisionsHelper.Helper.HandleExternalCancelFailed` | internal/internal_decision_state_machine.go:915-928 | a child gets the failure, a cancellation machine completes |
| `DecisionsHelper.Helper.HandleSignalInitiated` | internal/internal_decision_state_machine.go:956-960 | records the event ID and delivers the initiated event |
| `DecisionsHelper.Helper.HandleSignalClosed` | internal/internal_decision_state_machine.go:962-972 | completes the signal the event ID belongs to |
| `DecisionsHelper.Helper.Perform` | internal/internal_decision_state_machine.go:713-1031 | any operation of the helper takes its step and keeps the invariant of all runs; a drain returns the pending decisions in order |
| `ActivityCallbacks.CallbacksFireOnce` | internal/internal_event_handlers.go:243-290 | over every run of any number of calls of all kinds, with events routed by event ID, no call has its callback fired twice |
| `ActivityCallbacks.ActivityCallbackFollowsMachine` | internal/internal_event_handlers.go:507-519 | for every activity of every run: with WaitForCancellation the callback has fired exactly when the machine is done, without it at the latest then; before the start decision went out only a local cancellation can have fired it, and a waiting activity is never told so afterwards |
| `ActivityCallbacks.CallbackFiresExactly` | internal/internal_event_handlers.go:1012-1082 | for every call of every run: its callback has fired if and only if its trace holds something that answers a call of its kind |
| `Answers.EventTells` | internal/internal_event_handlers.go:821-955 | for every kind of event the notice that the workflow gets: which call, which outcome, with which result, and none where the call was answered before |
| `Answers.CancelTells` | internal/internal_event_handlers.go:507-600 | a cancelled timer is told at once, an activity if it does not wait or is done, a child never |
| `Answers.CanceledIsDone` | internal/internal_decision_state_machine.go:415-422 | a cancelled event that is accepted completes its activity |
| `ActivityCallbacks.LiveKeepsInv` | internal/internal_event_handlers.go:1012-1082 | requests, events and drains keep machines, callback data and firings consistent for all calls at once |
| `Calls.ReceiveAgrees` | internal/internal_event_handlers.go:821-955 | an event finds the same machine in two helpers that differ in markers and upserts only, and ends in the same panic or the same callbacks |
| `Calls.CancelCallAgrees` | internal/internal_event_handlers.go:507-519 | so does taking a call back |
| `HelperAgreement.StepAgrees` | internal/internal_decision_state_machine.go:713-1031 | every event leaves two such helpers in agreement: the same machines in the same states and order |
| `HelperAgreement.AddAgrees` | internal/internal_decision_state_machine.go:704-711 | what can be added to the one can be added to the other |
| `HelperAgreement.DrainAgrees` | internal/internal_decision_state_machine.go:1033-1057 | drained, they hand out the same decisions in the same order, markers and upserts aside, and then differ in nothing |
| `HelperAgreement.ProperExactly` | internal/internal_decision_state_machine.go:1033-1057 | what is compared of a drain is every decision that is neither a marker nor an upsert, in order |
| `HistoryPaging.BatchesExactlyWhenSighted` | internal/internal_task_handlers.go:225-245 | the batches are those of the concatenated stream if and only if no empty page hides a failed decision from the lookahead |
| `HistoryPaging.BatchesDoNotDependOnPaging` | internal/internal_task_handlers.go:328-395 | with no empty page followed by more pages, batches and binary checksums are a function of the concatenated stream: cut after each started decision that did not fail, noise removed |
| `HistoryPaging.PagingDoesNotMatter` | internal/internal_task_handlers.go:283-297 | two such pagings of one stream give the same batches, or both fail |
| `HistoryPaging.RunSucceedsIffComplete` | internal/internal_task_handlers.go:312-326 | reading to the end succeeds if and only if the event IDs are contiguous and reach lastEventID |
| `HistoryMeaning.VisibleExactly` | internal/internal_task_handlers.go:328-395 | which events are handed on, by kind: all but scheduled, timed out and failed decisions and starts that the next event takes back, in their order |
| `HistoryMeaning.BatchIsOneDecision` | internal/internal_task_handlers.go:328-395 | every batch but the last ends with a started decision, and none has one before its end |
| `HistoryPaging.BatchesFlatten` | internal/internal_task_handlers.go:328-395 | the batches put together are the visible events |
| `HistoryPaging.EmptyPageHidesFailure` | internal/internal_task_handlers.go:227-232 | a concrete stream with an empty page in which a failed start is handed on as a decision |
| `HistoryPaging.BatchesCount` | internal/internal_task_handlers.go:328-395 | each blind spot lets exactly one failed start through |
| `HistoryBatches.ScanConsumes` | internal/internal_task_handlers.go:328-395 | a batch never holds more events than the cursor used up |
| `HistoryCursor.DeliveriesAt` | internal/internal_task_handlers.go:283-297 | batch k goes out with its own checksum and with exactly the markers inside batch k+1 |
| `HistoryCursor.History.constructor` | internal/internal_task_handlers.go:190-206 | the cursor starts at the first loaded event and takes its expected ID from it |
| `HistoryCursor.History.LoadMoreEvents` | internal/internal_task_handlers.go:247-257 | appends a page; the first event ever loaded sets the expected ID |
| `HistoryCursor.History.IsNextDecisionFailed` | internal/internal_task_handlers.go:225-245 | looks one event ahead, loading at most one page |
| `HistoryCursor.History.CollectBatch` | internal/internal_task_handlers.go:328-395 | the loop over loaded events returns exactly the batch of the scan, with its markers, or fails with it |
| `HistoryCursor.History.NextDecisionEvents` | internal/internal_task_handlers.go:283-297 | returns the next batch of the stream with the markers of the one after it; an error means that the run cannot succeed |
| `HistoryCursor.History.ReadAll` | internal/internal_task_handlers.go:904-921 | reading to the end delivers all batches of the stream in order, or fails exactly when the stream does |
| `HistoryTruncation.QuerySeesUpToMax` | internal/internal_task_pollers.go:1054-1063 | a query task sees exactly the events up to its last one, once each and in order |
| `HistoryTruncation.PageCutsDoNotMatter` | internal/internal_task_pollers.go:1054-1074 | the same however the server cuts pages |
| `HistoryTruncation.DecisionReadsUpToStarted` | internal/internal_task_pollers.go:1044-1052 | a decision task can read its history if and only if nothing follows its start, or the cut falls on a completed decision inside a page; then it sees the events up to its start |
| `HistoryTruncation.StartedDecisionCannotBeCut` | internal/internal_task_pollers.go:1039-1052 | history that goes on past a started decision cannot be read by its task |
| `HistoryTruncation.HistoryIterator.constructor` | internal/internal_task_pollers.go:915-951 | for a query the last event ID is one less than the next one |
| `HistoryTruncation.HistoryIterator.GetNextPage` | internal/internal_task_pollers.go:953-972 | gives the current page, cut where it must be, and moves the token on |
| `HistoryTruncation.HistoryIterator.ResetAndDrain` | internal/internal_task_pollers.go:978-980 | starting over and paging to the end gives what the pages give together |
| `ReplayAgrees.ReplayAgreesWithLive` | internal/internal_event_handlers.go:615-725 | for every workflow of activity, timer, child, signal, side effect, version, local activity and cancel calls, every side effect outcome and every split into decision tasks: if the live run does not panic, replaying the recorded history shows the same values, versions, IDs, callback answers and clock in the same order, hands out the same decisions but for markers and upserts, and leaves the same counter, versions, machines and callback data |
| `ReplayAgrees.CacheLossIsInvisible` | internal/internal_task_handlers.go:922-974 | a worker that rebuilt the workflow by replay after any number of decisions goes on to the same observations and decisions and records the same history |
| `ReplayAgrees.DecisionAgrees` | internal/internal_task_handlers.go:922-982 | one replayed decision, markers loaded first, local activity markers applied after, and drained at its end, ends where the live one did |
| `ReplayAgrees.ReceivesAgree` | internal/internal_task_handlers.go:936-961 | the events before a decision fire the same callbacks on both sides |
| `ReplayAgrees.PlainAgrees` | internal/internal_event_handlers.go:476-600 | calls and cancellations of calls are answered alike, the immediate answer to a cancelled activity or timer included |
| `ReplayAgrees.VersionTakesNoID` | internal/internal_event_handlers.go:655-663 | whether live or in replay, and through the upsert it makes, GetVersion never takes a sequence number |
| `ReplayAgrees.RepeatedEffectPanics` | internal/internal_decision_state_machine.go:793-802 | two side effects of one decision never share an ID: a counter that wrapped around to an earlier one panics on its marker |
| `ReplayAgrees.VersionSim` | internal/internal_event_handlers.go:615-669 | a version chosen live is the one replay finds; a default version leaves no marker and replay chooses it again |
| `ReplayAgrees.SideEffectSim` | internal/internal_event_handlers.go:689-725 | replay finds under the same ID the value the live run recorded |
| `ReplayAgrees.LocalsSim` | internal/internal_event_handlers.go:1129-1162 | local activity markers are applied at the points where the live run delivered the results |
| `WorkflowEnvironments.NextID` | internal/internal_event_handlers.go:470-474 | incrementing an int32 steps through the wrapped IDs |
| `WorkflowEnvironments.WorkflowEnvironment.GenerateSequence` | internal/internal_event_handlers.go:470-474 | returns the counter and increments it with wrap-around |
| `WorkflowEnvironments.WorkflowEnvironment.ExecuteActivity` | internal/internal_event_handlers.go:476-505 | the ID is the given one, or the next sequence number, which only then is used up; panics exactly if there is an activity under it; the callback is registered unfired |
| `Answers.CallIsMade` | internal/internal_event_handlers.go:476-505 | a call is made exactly if there is none under its ID; it is then Created and unanswered, and the counter moved only if the ID was generated |
| `Answers.CallsOfActions` | internal/internal_event_handlers.go:476-600 | which kind of call, under which ID, each action makes |
| `Answers.GeneratedIDsDiffer` | internal/internal_event_handlers.go:470-474 | sequence numbers less than 2^32 apart have different IDs |
| `WorkflowEnvironments.WorkflowEnvironment.NewTimer` | internal/internal_event_handlers.go:564-590 | a negative timer fails and a zero timer fires at once, without an ID; any other is registered under the next ID |
| `WorkflowEnvironments.WorkflowEnvironment.ExecuteLocalActivity` | internal/internal_event_handlers.go:521-528 | becomes pending under the next ID |
| `WorkflowEnvironments.WorkflowEnvironment.RequestCancelLocalActivity` | internal/internal_event_handlers.go:546-550 | a local activity that is still wanted is asked to stop; the workflow still waits for it |
| `WorkflowEnvironments.WorkflowEnvironment.RequestCancel` | internal/internal_event_handlers.go:507-600 | moves the machine of an activity, timer or child, and answers an activity or timer at once where the step of the model says so |
| `WorkflowEnvironments.WorkflowEnvironment.React` | internal/internal_event_handlers.go:1012-1082 | fires a callback at most once and never into the already-handled panic |
| `WorkflowEnvironments.WorkflowEnvironment.ProcessEvent` | internal/internal_event_handlers.go:821-955 | an event finds its machine by ID or by event ID, moves it and may fire its callback |
| `WorkflowEnvironments.WorkflowEnvironment.CompleteDecisionTask` | internal/internal_task_handlers.go:1179-1188 | hands out exactly the pending decisions in order, marks them as sent and puts them on record |
| `WorkflowEnvironments.WorkflowEnvironment.UpsertSearchAttributes` | internal/internal_event_handlers.go:324-342 | an upsert for a version change consumes no ID |
| `WorkflowEnvironments.WorkflowEnvironment.GetVersion` | internal/internal_event_handlers.go:615-669 | a known change keeps its version; otherwise it is -1 in replay and, live, the custom version, else the minimum if asked for, else the maximum; panics exactly if that is outside the range or cannot be recorded; live a first version other than -1 leaves exactly one new marker with it, any other call none |
| `Answers.VersionIsAnswered` | internal/internal_event_handlers.go:615-669 | the same on values: the version, the panic condition, the marker, and the version the change has from then on |
| `Answers.SupportedVersionPanics` | internal/internal_event_handlers.go:324-342 | version -2 of change "c" and version 2 of change "c-" share a search attribute ID: the second call panics though its version is supported |
| `WorkflowEnvironments.WorkflowEnvironment.SideEffect` | internal/internal_event_handlers.go:689-725 | live returns the value and records one marker with it under the next ID; in replay returns the loaded result of that ID and records none; panics exactly if there is no result or the marker ID is taken |
| `Answers.SideEffectIsAnswered` | internal/internal_event_handlers.go:689-725 | the same on values |
| `WorkflowEnvironments.WorkflowEnvironment.Preload` | internal/internal_event_handlers.go:1088-1127 | loads side effect and version markers, later ones over earlier ones |
| `WorkflowEnvironments.WorkflowEnvironment.HandleLocalActivityMarker` | internal/internal_event_handlers.go:1129-1162 | a result that is waited for reaches the workflow, ends the wait and moves the clock on, never back; any other is ignored |
| `StickyCache.CacheAgreesWithReplay` | internal/internal_task_handlers.go:691-753 | over every run in which each task other than a full-history query is safe when it is processed, a context is destroyed with previousStartedEventID 0 or has applied exactly events 1 to it |
| `StickyCache.CachedIsTaken` | internal/internal_task_handlers.go:704-726 | a decision task or a partial query gets exactly the context in the cache, if there is one, and nothing else changes |
| `StickyCache.OthersMakeOne` | internal/internal_task_handlers.go:727-745 | any other task gets a fresh context and all events, cached exactly for a decision task on a worker that keeps contexts, or fails if history cannot be fetched |
| `StickyCache.FullQueryIsAlone` | internal/internal_task_handlers.go:704-745 | over every run nobody else has the context of a full-history query, it is not in the cache, and processing it is always safe |
| `StickyCache.SafeExactly` | internal/internal_task_handlers.go:511-533 | a task is safe if and only if every way its processing can go keeps all shared contexts consistent: nothing is cached, or a query has no events to apply, or a decision task has the cached context |
| `StickyCache.UnsafeSpoils` | internal/internal_task_handlers.go:511-533 | for every task that is not safe, an outcome that leaves its context inconsistent |
| `StickyCache.WorkIsGood` | internal/internal_task_handlers.go:831-877 | a decision task with any number of heartbeat tasks under one lock, each processed to its end, leaves the context consistent |
| `StickyCache.BeginIsGoodExactly` | internal/internal_task_handlers.go:880-916 | the first task under the lock leaves the context consistent exactly when a decision task applied all its events, or a query none |
| `StickyCache.EnterIsConsistent` | internal/internal_task_handlers.go:1217-1235 | after the staleness checks the first event of the task is the next one for the context |
| `StickyCache.QueryRebuildSpoils` | internal/internal_task_handlers.go:762-776 | a query that rebuilds an evicted context while another one is cached leaves all events applied and previousStartedEventID 0 |
| `StickyCache.OvertakenFailureSpoils` | internal/internal_task_handlers.go:511-533 | a decision task that fails on an evicted context clears the cached one instead of its own |
| `StickyCache.OvertakenHappens` | internal/internal_task_handlers.go:691-753 | the state both of these start from is reachable |
| `StickyContext.WorkflowContext.ClearState` | internal/internal_task_handlers.go:598-613 | destroys the event handler and forgets previousStartedEventID |
| `StickyContext.WorkflowContext.CreateEventHandler` | internal/internal_task_handlers.go:615-631 | starts over with a new event handler |
| `StickyContext.WorkflowContext.ResetStateIfDestroyed` | internal/internal_task_handlers.go:762-776 | a destroyed context starts over from the first event, or fails if history cannot be fetched |
| `StickyContext.WorkflowContext.ResetIfStale` | internal/internal_task_handlers.go:1217-1235 | a context whose next event is not the first of the task starts over |
| `StickyContext.WorkflowContext.ProcessWorkflowTask` | internal/internal_task_handlers.go:880-916 | one heartbeat task: reset if stale, then apply its events |
| `StickyContext.WorkflowContext.Handle` | internal/internal_task_handlers.go:779-877 | everything under the lock, the loop over heartbeat tasks included, as the step system has it |
| `StickyContext.ContextCache.ProcessTask` | internal/internal_task_handlers.go:810-817 | locking, processing and unlocking together are the step of the system |
| `StickyContext.ContextCache.GetOrCreateWorkflowContext` | internal/internal_task_handlers.go:691-753 | a decision task or partial query takes exactly the cached context, any other task makes a fresh one, and only a decision task puts it into the cache |
| `StickyContext.ContextCache.Unlock` | internal/internal_task_handlers.go:511-533 | after a failure the context under the run ID in the cache is cleared, which need not be the one unlocked |
| `Heartbeats.WindowSendsWhatItOwes` | internal/internal_task_handlers.go:1464-1497 | over every run: inside a window batched calls send nothing; its end, or a flush, sends the last batched value, else the last value reported if there was a background beat, else nothing, all read off the operations |
| `Heartbeats.OneWindowAtATime` | internal/internal_task_handlers.go:1499-1551 | at most one window is open, with exactly one goroutine waiting for it unless the invoker was closed |
| `Heartbeats.FieldsAreTheHistory` | internal/internal_task_handlers.go:1464-1551 | lastDetailsReported is the last value reported and detailsToReport what is owed, both read off the operations of the run |
| `Heartbeats.OwedIsLastBatched` | internal/internal_task_handlers.go:1486-1497 | what a window owes is its last BatchHeartbeat value |
| `Heartbeats.OwedWithoutBatched` | internal/internal_task_handlers.go:1464-1484 | with background beats only it is the last reported value, with none nothing |
| `Heartbeats.SendsOutsideAWindow` | internal/internal_task_handlers.go:1464-1497 | over every run: outside a window a batched value is sent as it is and a background beat repeats what is due, else the last value reported; a window opens exactly if the send was accepted |
| `Heartbeats.UnsentValueStaysDue` | internal/internal_task_handlers.go:1520-1548 | a value that could not be sent at the end of a window is what the next background beat sends |
| `Heartbeats.CadenceInvoker.BatchBeat` | internal/internal_task_handlers.go:1486-1497 | the step of a batched beat |
| `Heartbeats.CadenceInvoker.BackgroundBeat` | internal/internal_task_handlers.go:1464-1484 | the step of a background beat |
| `Heartbeats.CadenceInvoker.SendAndScheduleNextRun` | internal/internal_task_handlers.go:1499-1551 | sends the value; if that is accepted a window opens, nothing is held back and the value is the last reported one; otherwise nothing else changes |
| `Heartbeats.CadenceInvoker.EndWindow` | internal/internal_task_handlers.go:1520-1548 | the end of a window closes it and reports what was held back |
| `Heartbeats.CadenceInvoker.CloseInvoker` | internal/internal_task_handlers.go:1592-1604 | closing flushes what is held back if asked to |
| `Retries.RetriesExactlyWhen` | internal/internal_task_handlers.go:1110-1147 | for every outcome of the float computation the backoff is -1 or positive, positive exactly when attempts, expiration, interval and error reason allow it, and then the computed interval cut to MaximumInterval, or that where the computation overflowed |
| `Retries.GetRetryBackoff` | internal/internal_task_handlers.go:1110-1147 | the branches and the loop over reasons compute that backoff, with that delay |
| `Retries.StopsWhereBackoffSays` | internal/internal_workflow_testsuite.go:1127-1165 | the loop goes on exactly when the backoff is positive |
| `Retries.ExecutionsAreBounded` | internal/internal_workflow_testsuite.go:1127-1165 | a retry loop from attempt 0 runs at most MaximumAttempts + 1 times |
| `Retries.BoundIsReachedExactly` | internal/internal_workflow_testsuite.go:1127-1165 | it runs that often if and only if every failure before is retriable |
| `Retries.OneMoreThanDocumented` | internal/client.go:560-565 | with MaximumAttempts 1 a failing activity runs twice, where the comment promises no retry |
| `ChannelOrder.DeliveredInSendOrder` | internal/internal_workflow.go:686-725 | for every interleaving of sends, receives and peeks without Select, delivered ++ prefetched ++ buffered ++ waiting values are the values sent, in order |
| `ChannelTheorems.ValuesLeaveInSendOrder` | internal/internal_workflow.go:778-799 | with Selects too, values that left ++ buffer ++ live waiting senders are the standing sends in order |
| `ChannelTheorems.ValuesAreConserved` | internal/internal_workflow.go:619-725 | every value that left was handed over, is prefetched, is with a Select about to resume, or was overwritten |
| `ChannelTheorems.WaitingIsJustified` | internal/internal_workflow.go:686-799 | over every run the buffer keeps within its size, a sender waits only at a full buffer, a receiver only at an empty channel without waiting senders, declining callbacks included |
| `ChannelAnswers.ReceiveExactly` | internal/internal_workflow.go:686-725 | a receive gets a value exactly if one is prefetched, buffered or offered by a sender that accepts, and which; who is woken up, who is queued, and when there is no more |
| `ChannelAnswers.SendExactly` | internal/internal_workflow.go:778-799 | a send succeeds exactly if a receiver accepts or there is room, and where the value then is |
| `ChannelAnswers.SelectTakesFirstReady` | internal/internal_workflow.go:1042-1148 | a Select goes on with the first of its cases that is ready when it is called, and waits exactly if none is |
| `ChannelTheorems.SelectCommitsOnce` | internal/internal_workflow.go:1042-1162 | over every run nothing fires twice for one call, a Select runs at most one case function, the one whose callback accepted, and leaves no callback queued after it returned |
| `ChannelTheorems.FutureCaseRunsOnce` | internal/internal_workflow.go:1112-1146 | a future case runs at most once over the life of its selector |
| `ChannelTheorems.LostExactlyWhenOverwritten` | internal/internal_workflow.go:1061-1064 | a step loses a value if and only if a Select resumes a receive case while the prefetch slot is taken |
| `ChannelOrder.PeekBeforeResumeLosesASignal` | internal/internal_workflow.go:1309-1320 | looking for unhandled signals between a Select accepting one and resuming loses the next one |
| `ChannelOrder.SelectWaits` | internal/internal_workflow.go:1052-1088 | the state that run starts from is what a Select on an empty channel leads to |
| `ChannelOrder.SelfSelectCommitsTwice` | internal/internal_workflow.go:1073-1111 | a Select that sends to and receives from one channel accepts its own value and commits twice |
| `SelectTwice.CommitsTwiceExactly` | internal/internal_workflow.go:1052-1111 | trying a case commits twice if and only if the first callback it wakes up on its channel belongs to the same Select |
| `SelectTwice.SelectsCommitOnceExactly` | internal/internal_workflow.go:1042-1162 | from idle channels, no run lets a call fire twice if and only if no selector has a channel in both a send and a receive case |
| `SelectTwice.CanCommitTwice` | internal/internal_workflow.go:1042-1162 | for any selector that has one, whatever its other cases and the buffer sizes, a run that commits twice |
| `SelectRuns.RunKeepsInv` | internal/internal_workflow.go:1042-1162 | every interleaving of channel, future and Select steps keeps the invariant the laws rest on |
| `SelectInvariant.ShiftKeepsInv` | internal/internal_workflow.go:686-743 | a receive or send on one channel, firing at most one callback, keeps the invariant on all of them |
| `ChannelLedger.ReceiveKeeps` | internal/internal_workflow.go:686-725 | a receive keeps waiting discipline, order and conservation, up to the value it took |
| `ChannelLedger.SendKeeps` | internal/internal_workflow.go:778-799 | a send keeps waiting discipline, order and conservation |
| `ChannelLedger.FiredElsewhere` | internal/internal_workflow.go:1056-1067 | a callback that fires on another channel keeps this one in order, though it may kill callbacks queued here |
| `ChannelLedger.WithdrawKeeps` | internal/internal_workflow.go:727-743 | taking a Select's callback off a queue keeps the channel in order and leaves no copy |
| `ChannelObjects.Channel.ReceiveAsyncImpl` | internal/internal_workflow.go:686-725 | prefetch slot, then buffer with refill from the first sender that accepts, then blocked senders, else wait |
| `ChannelObjects.Channel.SendAsyncImpl` | internal/internal_workflow.go:778-799 | first blocked receiver that accepts, then buffer, else wait |
| `ChannelObjects.Channel.RemoveReceiveCallback` | internal/internal_workflow.go:727-734 | removes the first occurrence of the callback |
| `ChannelObjects.Channel.RemoveSendCallback` | internal/internal_workflow.go:736-743 | removes the first occurrence of the callback |
| `ChannelObjects.Channel.Close` | internal/internal_workflow.go:801-809 | calls every waiting callback in order and pops none |
| `ChannelObjects.Runtime.PeekSignals` | internal/internal_workflow.go:1309-1320 | takes a value and puts it into the prefetch slot |
| `ChannelObjects.Runtime.ReceiveFrom` | internal/internal_workflow.go:619-684 | a receive gives the caller the next value, or leaves its callback |
| `ChannelObjects.Runtime.SelectCase` | internal/internal_workflow.go:1042-1148 | the loop over cases stops at the first that is ready and leaves callbacks for those before it |
| `ChannelObjects.Runtime.ResumeSelect` | internal/internal_workflow.go:1154-1159 | runs the case whose callback accepted, with its value prefetched |
| `ChannelObjects.Runtime.ReturnFromSelect` | internal/internal_workflow.go:1046-1050 | takes the callbacks of every case off their channels |
| `ChannelObjects.Runtime.SetFuture` | internal/internal_workflow.go:357-368 | setting a future closes its channel and calls its waiters |
| `Dispatchers.PassesCallInCreationOrder` | internal/internal_workflow.go:937-983 | every completed pass calls each live coroutine exactly once in creation order, those spawned during it included, and keeps exactly those that did not end |
| `Dispatchers.ReturnsWhenAllBlocked` | internal/internal_workflow.go:950-982 | a normal return leaves nobody or follows the first pass in which all stayed blocked, none ended and none was spawned |
| `Dispatchers.Dispatcher.Visit` | internal/internal_workflow.go:954-975 | calling and removing in place keeps the list as kept ++ still to call |
| `Dispatchers.Dispatcher.GiveTurns` | internal/internal_workflow.go:950-977 | the index loop over the shrinking and growing list is a pass over a queue |
| `Dispatchers.Dispatcher.ExecuteUntilAllBlocked` | internal/internal_workflow.go:937-983 | the outer loop runs the passes of the reference, no more and no fewer |
| `ContextRuns.CancellationReachesSubtree` | internal/context.go:350-383 | at every point of every run, whatever is derived from a cancelled context has an error and its done channel was closed exactly once |
| `ContextKin.ErrIsFirstCancellation` | internal/context.go:350-383 | at every point of every run the error of a context is the reason of the first cancellation of a context it was derived from, by the operations alone, and there is none without one |
| `ContextKin.KinIsDerivation` | internal/context.go:193-252 | what a context hears on the tree is what the operations derived it from |
| `ContextKin.ChildHearsCancellation` | internal/context.go:193-239 | a child made by WithCancel has an error after any cancellation, earlier or later, of what its parent was derived from |
| `ContextRuns.MadeIsDerivedFrom` | internal/context.go:193-212 | WithCancel derives from itself and all its parent hears, a disconnected context from itself alone, WithValue from all its parent hears; other contexts keep what they hear |
| `ContextRuns.MadeLooksUp` | internal/context.go:467-487 | only WithValue changes what a key means, and only for that key |
| `ContextRuns.OneStep` | internal/context.go:350-383 | a cancel reaches exactly the live contexts that follow the cancelled one, and no operation changes any other context's fate |
| `ContextRuns.LateChildIsCancelled` | internal/context.go:223-239 | a child attached to a cancelled context is cancelled at once with its parent's error |
| `ContextRuns.ExecutionKeepsTree` | internal/context.go:193-252 | every operation keeps live followers in their leader's list and cancelled leaders without live followers |
| `ContextRuns.ErrOfNearest` | internal/context.go:254-269 | Done is non-nil exactly when parentCancelCtx succeeds, and Err is the error of the context it finds |
| `ContextTree.ShiftKeepsTree` | internal/context.go:287-306 | removing in place, with the slice length kept, drops no live child |
| `ContextTree.ChildrenCoverSubtree` | internal/context.go:371-376 | the child lists reach every live context below |
| `ContextObjects.Contexts.ParentCancelCtx` | internal/context.go:254-269 | finds the nearest context that can be cancelled, exactly when Done is non-nil |
| `ContextObjects.Contexts.RemoveChildFromSlice` | internal/context.go:287-306 | the first occurrence is shifted over and the last element repeats |
| `ContextObjects.Contexts.CancelTree` | internal/context.go:350-383 | the recursion over copied child lists cancels exactly the subtree, each context once |
| `ContextObjects.Contexts.CancelFunc` | internal/context.go:193-197 | the returned function cancels the subtree and leaves a consistent tree |
| `ContextObjects.Contexts.WithCancel` | internal/context.go:193-197 | the child hears what its parent hears and itself, and has the error and the values of its parent; it joins a list or is cancelled at once |
| `ContextObjects.Contexts.NewDisconnectedContext` | internal/context.go:209-212 | the child hears only its own cancellation, has no error, and keeps the values of its parent |
| `ContextObjects.Contexts.WithValue` | internal/context.go:467-487 | the value is found under its key, all others as in the parent, and so is the error |
| `TaskPermits.PermitsAreConserved` | internal/internal_worker_base.go:265-361 | before shutdown the permits held are those of pollers past acquisition, queued polled tasks, the task in the dispatcher's hand and polled tasks being processed; afterwards what is missing was lost to the shutdown |
| `TaskPermits.PermitsAreReturnedOnce` | internal/internal_worker_base.go:375-396 | no permit is returned twice or while someone has it; before shutdown every other one is with someone, a panic in a task notwithstanding |
| `TaskPermits.ProcessingIsBounded` | internal/internal_worker_base.go:265-313 | polled tasks being processed never outnumber the largest quota there has been |
| `TaskPermits.FixedQuota` | internal/internal_worker_base.go:265-313 | without resizing that is the quota |
| `TaskPermits.MissingPermitsLeaked` | internal/internal_worker_base.go:325-332 | over every run, a permit granted is leaked exactly when it is neither returned nor with anybody; without a shutdown none is |
| `ScheduleLens.UpdateThenDescribe` | internal/internal_schedule_client.go:166-205 | after an update that is not refused, sent or not, the next describe returns exactly what the callback made, if and only if every changed field was set to a value that survives the wire |
| `ScheduleLens.NothingSentExactly` | internal/internal_schedule_client.go:166-205 | nothing is sent if and only if every field is unchanged or cleared, empty search attributes included |
| `ScheduleLens.RefusedExactly` | internal/internal_schedule_client.go:176-200 | an update is refused, and with which error, exactly for a changed spec without a cron expression, a changed action that starts nothing, or one that fails a check |
| `ScheduleLens.OnlyChangesAreSent` | internal/internal_schedule_client.go:166-205 | a request has exactly the fields that changed; all others stay as they are on the wire |
| `ScheduleLens.SpecIsSent` | internal/internal_schedule_convert_thrift.go:152-162 | a changed spec goes out field by field, the jitter in seconds rounded up |
| `ScheduleLens.ActionIsSent` | internal/internal_schedule_convert_thrift.go:344-387 | a changed action goes out field by field, with the default decision timeout and timeouts rounded up to seconds |
| `ScheduleLens.PoliciesAreSent` | internal/internal_schedule_convert_thrift.go:285-297 | changed policies go out field by field, enums by name and the catch-up window rounded up |
| `ScheduleLens.SecondsRoundUp` | internal/internal_schedule_convert_thrift.go:136-148 | a duration goes out as the least number of seconds that is not less, within the int32 range |
| `ScheduleLens.UnchangedSendsNothing` | internal/internal_schedule_client.go:201-204 | a callback that changes nothing sends nothing, whatever the schedule |
| `ScheduleLens.ClearingIsIgnored` | internal/internal_schedule_client.go:169-175 | whatever else changed, each of the four top-level fields that the callback cleared is still there afterwards |
| `ScheduleLens.SecondsRoundTrip` | internal/internal_schedule_convert_thrift.go:136-148 | a duration survives exactly when it is a whole number of seconds that fits an int32 |
| `ScheduleLens.StartRoundTrip` | internal/internal_schedule_convert_thrift.go:344-387 | an action survives exactly with whole seconds, a decision timeout, a non-zero backoff coefficient, and no empty input, memo or search attributes |
| `ScheduleLens.PoliciesRoundTrip` | internal/internal_schedule_convert_thrift.go:285-297 | policies survive exactly with valid enums and whole seconds |
| `ScheduleLens.SpecRoundTrip` | internal/internal_schedule_convert_thrift.go:152-162 | a spec survives exactly with a jitter of whole seconds |
| `ScheduleLens.RetryRoundTrip` | internal/internal_schedule_convert_thrift.go:164-180 | a retry policy survives exactly with whole seconds and a non-zero coefficient |
| `ScheduleUpdates.BuildRequest` | internal/internal_schedule_client.go:176-205 | the branches build exactly the request of the lens: the changed fields, nothing, or the first error |
| `ScheduleUpdates.CopyBytes` | internal/internal_schedule_convert_thrift.go:437-444 | a copy has equal contents, keeps nil apart from empty, and is new memory |
| `ScheduleUpdates.CopyByteMap` | internal/internal_schedule_convert_thrift.go:455-464 | a copied map has equal contents, keeps nil apart from empty, and is new memory down to its slices |
| `ScheduleUpdates.UpdateFromDescribe` | internal/internal_schedule_convert_thrift.go:402-433 | what the callback gets has the contents of the description, without an action that starts nothing, and shares no memory with it |
| `ScheduleUpdates.Update` | internal/internal_schedule_client.go:148-205 | whatever the callback writes to the memory it can reach, the baseline stays as it was and the request is the one for what the callback made |

## Left out

- RPC, metrics, logging, tracing, reflection, encoders, the registry and generated code: input and output, or libraries.
- Comparing replayed decisions with history events. That replay hands out the decisions of the live run is proved for all but markers and search attribute upserts, since replay does not record version markers again.
- MutableSideEffect: markers are loaded per decision, so two calls with one ID in one decision can differ between live and replay. A SideEffect whose function fails records no marker and is not modelled either.
- `getDecisions(false)` and the history strings of the decision machines: the engine always drains with marking, and the strings are for debugging.
- The attributes carried by decisions, and of events all but IDs and one result: they are passed through.
- ReplayAgrees.ReplayAgreesWithLive: is about live runs that end every decision task: a workflow that panics ends there, and one that never blocks has no history to replay. Validation of search attributes is left out.
- ChannelTheorems.ValuesAreConserved: channels that carry values are never closed in the model. A Select woken by Close prefetches a nil value, and waiting senders panic.
- ChannelTheorems.SelectCommitsOnce: Selects without a default function, and one Select at a time per selector. A default function runs while callbacks are still registered; two coroutines in Select on one selector could both run a future case.
- A receive that cannot decode a value drops it and receives again; in the model that value counts as received. ReceiveAsync with a target that is not a pointer loops and is not modelled.
- Futures chained to futures: chaining to one that is ready does not close the channel.
- Dispatchers.Dispatcher.ExecuteUntilAllBlocked: does not model the goroutine hand-over behind a coroutine call, stack traces and closing the dispatcher.
- ContextObjects.Contexts.CancelTree: contexts are named by creation order instead of by pointer, and the mutexes are not modelled; the child list of a parent is not claimed to shrink, since the code drops the shortened slice.
- StickyCache.CacheAgreesWithReplay: one workflow run at a time; a task that makes a new context puts it into the cache in the same step, and an eviction comes before or after the processing of a task, not during it.
- Heartbeats.CadenceInvoker.EndWindow: the length of a window is not modelled; a window may end at any time.
- TaskPermits.PermitsAreConserved: rate limiters and poller permits are only delays, except that a poller permit can be refused after shutdown.
- Retries.RetriesExactlyWhen: time is unbounded; saturation of times near the end of the representable range is not modelled.
- ScheduleLens.UpdateThenDescribe: the rounding error of converting nanoseconds to floating point seconds is not modelled, and times are in UTC. State, info and the schedule-level memo are not part of an update.
- ScheduleUpdates.Update: ends before the call of the server; an error of the describe or of the callback is returned without a request.
- Activity and workflow pollers other than their permits, sessions, local activity scheduling, the test environment, and the other schedule calls: plumbing, or easy next to what is here.
