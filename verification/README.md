# Verified model of n8n's execution lifecycle and its helpers

The files here model the parts of n8n's `packages/cli/src` in which several things happen to the same state: the table of
active executions with its concurrency slots, the protocol by which waiting executions are resumed from several processes
over one database, the hand-over of a child's result to a waiting parent, the timers that resume, and five smaller cores
with loops that are easy to get wrong (credential overwrites, credential repair, webhook registration, time
limits, activation retries and key paths). `dafny verify dfyconfig.toml` checks everything.

How the main part is built:

- `ConcurrencyQueue`, `ConcurrencyControl`: the queue of slots and the service around it, as classes, and the queue over
  whole runs.
- `ExecutionTable`: one process as a value, and the code between two awaits of `ActiveExecutions` as functions on it. A
  record keeps its identity through the `add` call that made it, so a settle handler can look at a record that is no
  longer in the table.
- `ActiveExecutions`: the same code on mutable record objects, each method proved to do the step of `ExecutionTable`.
- `ResumeProtocol`: any number of processes, engines, timers, stops and shutdowns interleaving over the status column.
  `CallHistories`, `SingleEngine` and `CapacityRuns` say what holds in every run, `ResumeSafety` what the tables add in
  runs without leaky stops; `ExecutionOutcomes`, `Carryover` and `ShutdownDrain` are the guarantees, and `FailingRuns` are
  runs that break them where the code does.
- `SettledPromises` says over every run which of a stop, a shutdown and an engine's end settles a promise, and how.
- `StopFinality` adds to the protocol which engines have been cancelled, and says when a stopped execution stays stopped.
- `ChildResults` and `WaitTracker` are state machines of their own: what a child hands over does not depend on the table,
  and a timer's firing is one of the arbitrary resume attempts of `ResumeProtocol`.

## What the code does not do

Each of these is proved about the code as it is, with the exact condition or a concrete run.

- Stopping an execution whose record is marked waiting and whose promise is still pending drops the record: the promise is
  never settled and the slot is never given back (`StopOrphansExactlyWhen`, `OrphanNeverSettles`,
  `StopWhileWaitingOrphans`). The comment in `stopExecution` assumes the promise has settled by then.
- A stop cancels the engine only if it is attached to the current record and that is not marked waiting, and the engine's
  save has no condition on the row. An execution stopped after its engine has marked it and before it has saved is waiting
  again afterwards and can be resumed (`StopIsFinalExactlyWhen`, `StoppedExecutionIsResumed`); a stop that finds a started,
  unmarked engine is final (`StopOfRunningEngineIsFinal`).
- Between the save of 'waiting' and `finalizeExecution` a resume can install a new record; completing the first engine then
  settles the new record, because `finalizeExecution` goes by id (`OutcomeSettlesExactlyWhen`,
  `LateCompletionSettlesTheNewRecord`).
- `processError` ignores every error whose message contains "cancelled", whatever threw it. When starting the engine throws
  one, or the engine's promise rejects with one (an error of a node does not get there), and nobody has stopped it, the
  promise stays pending (`OutcomeSettlesExactlyWhen`, `CancelLikeErrorLeavesPending`).
- Cancelling a queued execution lets the next one in although no slot came free, so the concurrency limit is exceeded
  (`CancellationRespectsLimitExactlyWhen`, `CancellationExceedsLimit`, `CancellationExceedsExactlyWhen`).
- `shutdown` disables the concurrency service before it calls `removeAll`, which then returns at once: queued executions are
  neither removed nor cancelled in the database (`ActiveExecutions.ShutdownPass`, `RemoveAllDoesNothingExactlyWhen`). What the
  comment beside it promises does hold: they are never let through (`ThrottledCallsNeverContinue`).
- On an enabled service `removeAll` would let every other queued execution in, because each removal resolves the next
  (`EmptyingLetsEveryOtherIn`), and would leave an execution queued that is queued three times (`AllRemovedLeavesRepeats`).
- A child's write to its parent has no status condition. A write that lands in a later waiting period brings back the
  earlier period's stack (`LateWriteBringsBackTheOldStack`, `WriteKeepsOwnStackExactlyWhen`), and a child that reads just
  before its parent waits resumes it without having written anything (`EarlyReadResumesWithTheInput`,
  `OwnWriteLandsExactlyWhen`).
- The conditional update tests the status and then writes the data that its caller had read before it queued for a slot. When
  the parent has been resumed and waits again meanwhile, the update wins and brings back the earlier period's stack, although
  nothing was written late (`LateUpdateBringsBackTheOldStack`, `UpdateStartsOwnStackExactlyWhen`).
- After stepping down from leadership and taking over again, executions that had a timer get no new one
  (`StepDownSilencesExactlyWhen`, `SilentEntriesStaySilent`); a direct start leaves the old timer running
  (`DirectStartLeavesTwoTimers`).
- An execution's time limit counts from its first start only when the wait tracker resumes it. A webhook, a form or a chat
  message passes no start, so that its resume counts the whole limit anew, any number of times (`HardStopStaysExactlyWhen`,
  `RestartsReachTheBound`, `ResumeWithoutStartMovesTheStop`).
- `addWebhooks` stores by upsert, so it takes over the row of another workflow with the same method and path, and its
  rollback then deletes it (`OthersAreUntouchedExactlyWhen`, `TakenPathIsLost`).
- A sub-workflow treats a parent deadline of zero as no deadline (`NotLaterThanParentExactlyWhen`).
- Which credential entries hold merged values depends on the enumeration order (`MemoDependsOnOrder`); with two parents so
  does the lookup (`TwoParentsDependOnOrder`), unless the settings that compete for the field agree
  (`AgreeingSettingsFixTheLookup`).

## Model

| member | source | states |
|---|---|---|
| ResumeProtocol.ResumesNeverExceedEntries | packages/cli/src/active-executions.ts:98-121 | in every stretch of every interleaving over any number of processes, successful resumes of an execution never exceed its entries into waiting, plus one if it was waiting at the start |
| ResumeProtocol.AtMostOneResumePerEntry | packages/cli/src/active-executions.ts:111-121 | after an entry into waiting and before the next, at most one conditional update succeeds, and none when the row did not wait |
| ResumeProtocol.FirstOfTwoWins | packages/cli/src/active-executions.ts:111-121 | of two callers racing for one waiting execution, on any processes, the first to reach the row wins and becomes the holder, and the second loses |
| ResumeProtocol.RowSaysWhatWasSaved | packages/cli/src/execution-lifecycle/shared/shared-hook-functions.ts:92-115 | after an engine's save, through any run of any processes in which nobody writes the row, the row says the saved status |
| ResumeProtocol.RowAfterStep | packages/cli/src/active-executions.ts:62-125 | a row becomes 'new' when created, 'running' when set up, started or won, 'error' by a failure that is saved, 'canceled' by a stop, and is left alone by every other step and by steps of other executions |
| CallHistories.LoserOnlyThrows | packages/cli/src/active-executions.ts:117-125 | whatever happens next, a call that lost can only throw that the execution is already resuming, and one that won can only install its record |
| SingleEngine.AtMostOneEngine | packages/cli/src/active-executions.ts:98-121 | from the start, in every run over any number of processes, stops and shutdowns included: at most one call or record of an execution is about to run it or has a live engine, and none while its row waits |
| SingleEngine.StepKeepsCore | packages/cli/src/active-executions.ts:62-244 | every step of every process keeps it that whoever claims an execution is its holder, and that a row says 'waiting' only when the holder's engine has saved |
| SingleEngine.WaitingIsUnclaimed | packages/cli/src/active-executions.ts:111-121 | while a row waits, no call of any process is about to run the execution and no engine is running it |
| ResumeSafety.StepKeepsInv | packages/cli/src/active-executions.ts:62-244 | besides, every step but a shutdown and a leaky stop keeps every table consistent: entries not marked waiting belong to the holder, and the holder's entry is marked when its row waits |
| ResumeSafety.RunKeepsInv | packages/cli/src/workflow-runner.ts:384-475 | the invariant holds after every run without shutdown and without a stop of a waiting record whose promise is pending |
| ResumeSafety.WaitingEntriesWait | packages/cli/src/active-executions.ts:111-140 | when a row waits, every process's entry for the execution is marked waiting |
| ResumeSafety.ReplacedEntryWaits | packages/cli/src/active-executions.ts:128-140 | a winner only ever replaces a waiting entry |
| ResumeSafety.MarkHitsOwnRecord | packages/core/src/execution-engine/node-execution-context/base-execute-context.ts:110-115 | an engine that marks its execution as waiting by id marks its own record, if that is in the table, and changes no other |
| TableInvariants.HandleDeletesOwnRecord | packages/cli/src/active-executions.ts:148-157 | in a consistent table, a handler that deletes by id deletes the entry of the record it was made for |
| TableInvariants.HandleKeeps | packages/cli/src/active-executions.ts:142-158 | a settle handler leaves the table consistent: latest unsettled records stay, replaced ones are waiting, queued promises match their calls |
| TableInvariants.InstallKeeps | packages/cli/src/active-executions.ts:127-140 | installing over a waiting entry, or none, leaves the table consistent |
| ExecutionOutcomes.UnsettledExecutionIsInTable | packages/cli/src/active-executions.ts:127-158 | in every run from the start, without shutdown or leaky stop, an execution whose latest promise is unsettled is in the table under that record |
| ExecutionOutcomes.HandlerRemovesOnlyItsOwn | packages/cli/src/active-executions.ts:142-158 | in such runs a handler of a waiting record changes no entry, and any other handler removes exactly its own record's entry and response mode |
| ExecutionOutcomes.OutcomeSettlesExactlyWhen | packages/cli/src/workflow-runner.ts:102-113 | an engine's end settles its record's promise exactly when it was settled already, or the error is not cancel-like and the record is still in the table |
| ExecutionOutcomes.EveryOutcomeSettles | packages/cli/src/workflow-runner.ts:386-485 | from the start, when cancel-like errors follow a stop and no record is replaced before its promise settles: every ended engine's promise is settled, its handler has run or can run, and after that the slot is back and any record not left waiting is out of the table |
| ExecutionOutcomes.UnsettledOutcomeIsExplained | packages/cli/src/workflow-runner.ts:386-485 | from the start, in every run, stops, shutdowns and replacements included: an ended engine whose promise is pending either threw a cancel-like error or has a record that left the table unsettled |
| ExecutionOutcomes.StopOrphansExactlyWhen | packages/cli/src/active-executions.ts:195-222 | a stop leaves the record unsettled and off the table exactly when it is waiting with its promise pending; otherwise its promise is settled |
| ExecutionOutcomes.InstallOrphansExactlyWhen | packages/cli/src/active-executions.ts:129-140 | installing leaves the replaced record unsettled and off the table exactly when its promise is pending |
| ExecutionOutcomes.OrphanNeverSettles | packages/cli/src/active-executions.ts:212-216 | a record that has left the table unsettled stays so in every continuation and keeps its slot |
| SettledPromises.PromiseTellsWhoWasFirst | packages/cli/src/active-executions.ts:195-244 | from the start, in every run, stops, shutdowns and replacements included: a record's promise is rejected exactly when a stop or a cancelling shutdown was the first to find it in the table pending and not marked waiting, and resolved exactly when the end of an engine of its execution was |
| SettledPromises.StopRejects | packages/cli/src/active-executions.ts:195-222 | a stop rejects a pending promise of a record not marked waiting and leaves a settled one; a waiting record is dropped with its response mode, its promise as it is |
| SettledPromises.FinalizeResolves | packages/cli/src/active-executions.ts:225-244 | finalizing resolves a pending promise and leaves a settled one |
| SettledPromises.PassRejects | packages/cli/src/active-executions.ts:309-328 | after a cancelling pass a promise is rejected exactly when it was, or was pending in the table under a record not marked waiting |
| SettledPromises.PassLetsGo | packages/cli/src/active-executions.ts:309-328 | any other pass removes exactly the entries that are waiting or new, settles nothing and leaves the response modes |
| SettledPromises.InstalledRecord | packages/cli/src/active-executions.ts:129-140 | a new record runs with a pending promise; it starts now, or when the record it replaces did, with that one's response promise |
| SettledPromises.StatusIsSet | packages/cli/src/active-executions.ts:292-294 | the current record gets the status it is given, and keeps the rest |
| FailingRuns.LateCompletionSettlesTheNewRecord | packages/cli/src/workflow-runner.ts:455-464 | a run without stops in which completing one engine settles the record of the resume that replaced it, and its handler removes the execution before it runs |
| FailingRuns.StopWhileWaitingOrphans | packages/cli/src/active-executions.ts:212-216 | a run from the start in which a stop between marking and completing takes the record out of the table with its promise pending |
| FailingRuns.CancelLikeErrorLeavesPending | packages/cli/src/workflow-runner.ts:107-113 | a run from the start without any stop in which starting the engine throws a cancel-like error, or its promise rejects with one, and its promise stays pending, with no handler to run |
| StopFinality.StopOfRunningEngineIsFinal | packages/cli/src/executions/execution.service.ts:633-651 | from the start, after any run and before any continuation: once a stop finds a started engine on the process's current record, not marked waiting, the row never waits again |
| StopFinality.ShutdownOfRunningEngineIsFinal | packages/cli/src/active-executions.ts:309-328 | the same of a cancelling shutdown of the process |
| StopFinality.StopBeforeTheStartIsMissed | packages/cli/src/workflow-runner.ts:383-429 | a stop after the record is installed and before its engine is attached cancels nothing, and some continuation leaves the row waiting |
| StopFinality.StopIsFinalExactlyWhen | packages/cli/src/active-executions.ts:212-219 | after a stop of an execution that is not queued, some continuation leaves its row waiting exactly when a call or engine that has not saved still claims it and the stop does not cancel that engine: not started, marked waiting, or not on the process's current record |
| StopFinality.FinalStaysFinal | packages/core/src/execution-engine/workflow-execute.ts:1446-1452 | when only cancelled engines claim an execution that does not wait, that stays so in every continuation, stops and shutdowns included |
| StopFinality.StoppedExecutionIsResumed | packages/cli/src/execution-lifecycle/shared/shared-hook-functions.ts:107 | a run from the start in which the save of an engine that marked its execution before the stop makes the canceled row wait, and a caller then wins the resume |
| CapacityRuns.CapacityIsConserved | packages/cli/src/active-executions.ts:62-163 | before shutdown, in every run: each queue's limit is its capacity plus the slots of calls that reserved and have not released plus the calls that wait |
| CapacityRuns.CapacityComesBack | packages/cli/src/active-executions.ts:122-158 | from a fresh start, once every call has thrown, was dropped or had its handler run, the queue has its whole capacity and is empty |
| CapacityRuns.LimitHolds | packages/cli/src/concurrency/concurrency-queue.ts:22-55 | from a fresh start, before shutdown: the calls that hold a slot never exceed their queue's limit in any run in which no cancellation finds others queued |
| CapacityRuns.ModesStayWithinTheirLimits | packages/cli/src/concurrency/concurrency-control.service.ts:203-221 | in such runs the webhook, trigger and chat calls with a place are at most the production limit, and the evaluation calls at most the evaluation limit |
| CapacityRuns.LimitedModesWaitExactlyWhen | packages/cli/src/concurrency/concurrency-control.service.ts:121-125 | such a call waits exactly when the service is enabled and its mode's queue exists without a free place; the other queue is as before |
| CapacityRuns.OtherModesAreUnlimited | packages/cli/src/concurrency/concurrency-control.service.ts:203-213 | a manual, integrated, error, cli, internal or retry call reserves at once, and neither it nor its end nor its removal touches a queue |
| CapacityRuns.CancellationExceedsExactlyWhen | packages/cli/src/executions/execution.service.ts:633-637 | a cancellation takes a queue over its limit exactly when all its slots are in use and the execution is queued beside others |
| CallHistories.SlotIsGivenBackOnce | packages/cli/src/concurrency/concurrency-capacity-reservation.ts:30-36 | a call that has given its slot back never has one again, so no slot is released twice |
| CallHistories.RunFollows | packages/cli/src/active-executions.ts:62-158 | in every run, stops and shutdowns included, each call moves only forward through its phases, no record is un-marked waiting, no promise un-settled, no start time changed |
| Carryover.CarriedAcrossResumes | packages/cli/src/active-executions.ts:129-157 | along any number of wait and resume cycles, start time, response promise and response mode stay those of the execution until it leaves the table |
| Carryover.SetValuesAreCarried | packages/cli/src/active-executions.ts:173-178 | a response promise attached, or a response mode set, is the one every later record has until it is set again; the rest of what is carried is unchanged |
| ShutdownDrain.RunKeepsDrainable | packages/cli/src/active-executions.ts:142-158 | in every run, leaky stops and earlier passes included: a handler that has run had a settled promise, and left an entry only for a waiting record |
| ShutdownDrain.PassSettlesEveryEntry | packages/cli/src/active-executions.ts:309-328 | after a cancelling pass in regular mode exactly the waiting entries are gone, and every remaining promise is settled with a handler that will delete |
| ShutdownDrain.TableEmptiesOnceHandlersRan | packages/cli/src/active-executions.ts:309-342 | from the start, after any run, stops and earlier passes included, then such a pass, then any run without new records or waits: the table is empty once no handler is left to run, so the wait loop ends |
| ShutdownDrain.ThrottledCallsNeverContinue | packages/cli/src/active-executions.ts:310-315 | once the service is disabled, a throttled call is never let through, in any run |
| ActiveExecutions.ActiveExecutions.Reserve | packages/cli/src/active-executions.ts:92-101 | the reservation on mutable state is the step that begins a call |
| ActiveExecutions.ActiveExecutions.Reject | packages/cli/src/active-executions.ts:122-125 | the catch block gives the slot back once and lets the next queued call continue |
| ActiveExecutions.ActiveExecutions.Install | packages/cli/src/active-executions.ts:127-162 | a fresh record object replaces the entry and takes over its start time and response promise; the old object is unchanged |
| ActiveExecutions.ActiveExecutions.OnSettled | packages/cli/src/active-executions.ts:142-158 | the closure reads the status of the object it captured, releases, and deletes by id |
| ActiveExecutions.ActiveExecutions.StopExecution | packages/cli/src/active-executions.ts:195-222 | a waiting entry is dropped with its response mode, any other is rejected in place |
| ActiveExecutions.ActiveExecutions.FinalizeExecution | packages/cli/src/active-executions.ts:225-244 | only the current record's promise is resolved, at most once |
| ActiveExecutions.ActiveExecutions.SetStatus | packages/cli/src/active-executions.ts:292-294 | the current record's status changes, or nothing does when there is none |
| ActiveExecutions.ActiveExecutions.AttachResponsePromise | packages/cli/src/active-executions.ts:173-178 | the current record gets the response promise, or nothing changes when there is none |
| ActiveExecutions.ActiveExecutions.GetStatus | packages/cli/src/active-executions.ts:296-298 | lookups by id see the current record |
| ActiveExecutions.ActiveExecutions.ShutdownPass | packages/cli/src/active-executions.ts:309-330 | the loop over the entries, one stop or deletion at a time, comes to the whole-table step; `removeAll` then changes no queue and no row is cancelled |
| ActiveExecutions.OrderDoesNotMatter | packages/cli/src/active-executions.ts:317-328 | the loop's result depends only on which executions it has visited, not on their order |
| ConcurrencyControl.ConcurrencyControlService.Throttle | packages/cli/src/concurrency/concurrency-control.service.ts:121-125 | a webhook, trigger or chat call enters the production queue, an evaluation call the evaluation queue, and only when the service is enabled and that queue exists; any other call is let through, and no other queue changes |
| ConcurrencyControl.ConcurrencyControlService.Release | packages/cli/src/concurrency/concurrency-control.service.ts:130-134 | a webhook, trigger or chat call gives a place back to the production queue, an evaluation call to the evaluation queue, whose head is let through; any other call changes nothing |
| ConcurrencyControl.ConcurrencyControlService.Create | packages/cli/src/concurrency/concurrency-control.service.ts:46-80 | fails exactly when a limit is zero; otherwise one empty queue for each positive limit, and enabled exactly when there is one and the mode is not queue mode |
| ConcurrencyControl.ConcurrencyControlService.RemoveAll | packages/cli/src/concurrency/concurrency-control.service.ts:150-168 | each queue is emptied by removing every execution found in it in turn, and the given rows are cancelled, if the service is enabled; otherwise nothing changes |
| ConcurrencyControl.RemoveAllDoesNothingExactlyWhen | packages/cli/src/concurrency/concurrency-control.service.ts:150-159 | the queues stay as they are exactly when the service is disabled or nobody waits |
| ConcurrencyControl.RemoveAllEmptiesExactlyWhen | packages/cli/src/concurrency/concurrency-control.service.ts:150-159 | with somebody waiting and no execution queued twice, every queue is empty afterwards exactly when the service is enabled |
| ConcurrencyQueue.EmptyingLetsEveryOtherIn | packages/cli/src/concurrency/concurrency-queue.ts:45-75 | removing everybody in turn leaves nobody waiting but gives back only half of the places: every other one is let in |
| ConcurrencyQueue.AllRemovedLeavesRepeats | packages/cli/src/concurrency/concurrency-queue.ts:45-59 | an execution queued three times is still queued afterwards |
| ConcurrencyQueue.Queue.Remove | packages/cli/src/concurrency/concurrency-queue.ts:45-55 | the first promise of the execution leaves, one place is added, and the next promise is resolved |
| ConcurrencyQueue.SlotsAreAccountedFor | packages/cli/src/concurrency/concurrency-queue.ts:22-76 | in every run: limit = capacity + slots in use + waiting, nobody waits beside a free slot, slots are granted in order of arrival, and the limit is exceeded by at most the counted cancellations |
| ConcurrencyQueue.LimitHoldsWithoutOvertakes | packages/cli/src/concurrency/concurrency-queue.ts:22-43 | without a cancellation that finds others queued, the limit holds in every run |
| ConcurrencyQueue.CancellationRespectsLimitExactlyWhen | packages/cli/src/concurrency/concurrency-queue.ts:45-55 | a cancellation respects the limit exactly when the execution is not queued or is the only one queued |
| ConcurrencyQueue.CancellationExceedsLimit | packages/cli/src/concurrency/concurrency-queue.ts:45-55 | one slot, three arrivals, the second cancelled: two run at once |
| ChildResults.ChildResumeStartsWithAChildsOutput | packages/cli/src/workflow-helpers.ts:369-401 | within one waiting period with nothing left over from an earlier one, for any number of children completing before or during the run, in any interleaving: a child with output that gets to resume a parent with a non-empty stack starts it with some completed child's output as head data and the rest unchanged |
| ChildResults.OnePeriodIsTimely | packages/cli/src/wait-tracker.ts:97-168 | within one such period every write and every winning update carries a stack of that period |
| ChildResults.EveryResumeStartsWithSomePeriod | packages/cli/src/wait-tracker.ts:97-168 | in every run from the start, however late its writes and updates: a resume starts with a stack the running parent saved, or with that of some waiting period's entry with some child's output or none, and with the head that the caller itself has put there if it is a webhook, a form or a chat message; with some child's output if the caller's write landed in the period it resumes |
| ChildResults.TimelyResumesStartWithTheLastWrite | packages/cli/src/webhooks/webhook-helpers.ts:350-395 | when no write and no winning update carries a stack of an earlier period, a resume starts with that period's own stack, its head data replaced by the last write before the re-read, if any, and then its head by the caller's own edit, if any |
| ChildResults.TimelyResumeEntryByEntry | packages/cli/src/active-executions.ts:98-121 | in such runs, entry by entry: only the first entry may differ from the period's own; it is the caller's own if it edits, and otherwise has the last written output as data, or the period's own when nothing was written |
| ChildResults.EditedResumeStartsWithTheEdit | packages/cli/src/webhooks/webhook-helpers.ts:390-395 | in every run, however late: a webhook, a form or a chat message that resumes the parent starts it with the entry it has put at the head |
| ChildResults.WebhookHandsOverWhatItReceived | packages/cli/src/webhooks/waiting-webhooks.ts:67-69 | a run: a webhook resumes a waiting parent, which starts with what the webhook received at the head and the rest as it was |
| ChildResults.RereadTakesTheRow | packages/cli/src/wait-tracker.ts:97-112 | a re-read refuses exactly a finished parent, or an empty stack for a caller that edits, and otherwise takes the row's stack with the caller's entry at the head if it edits |
| ChildResults.ReadReplacesTheHeadData | packages/cli/src/workflow-helpers.ts:374-396 | a child with output that reads a waiting parent with a non-empty stack holds that stack with its output as the head's data and nothing else changed; any other child writes nothing |
| ChildResults.OnlyAWaitingParentIsResumed | packages/cli/src/active-executions.ts:111-121 | a parent that does not wait is resumed by nobody in any run in which it does not wait again |
| ChildResults.EndedParentIsRefusedLate | packages/cli/src/wait-tracker.ts:108-112 | a finished parent is refused at the re-read, a canceled one only by the update |
| ChildResults.WriteKeepsOwnStackExactlyWhen | packages/cli/src/workflow-helpers.ts:385-400 | a write into a waiting row leaves the period's own stack with the child's output exactly when the stack the child read is that one up to the head data |
| ChildResults.UpdateStartsOwnStackExactlyWhen | packages/cli/src/active-executions.ts:98-121 | a winning update starts the parent with the period's own stack up to the head data, or up to the head when the caller edits it, exactly when the stack behind the caller's re-read is that one |
| ChildResults.OwnWriteLandsExactlyWhen | packages/cli/src/workflow-helpers.ts:374-400 | a child with output that resumes its parent has had its own write land exactly when the parent waited with a non-empty stack when the child read it |
| ChildResults.LateWriteBringsBackTheOldStack | packages/cli/src/workflow-helpers.ts:397-400 | a write that lands in a later period makes the next resume start with the earlier stack |
| ChildResults.LateUpdateBringsBackTheOldStack | packages/cli/src/active-executions.ts:101-115 | an update that waited for its slot while the parent was resumed and waited again starts the parent with the earlier stack, with no late write |
| ChildResults.EarlyReadResumesWithTheInput | packages/cli/src/workflow-helpers.ts:381-383 | a child that reads just before the parent waits resumes it with its original stack |
| WaitTracker.WaitTracker.GetWaitingExecutions | packages/cli/src/wait-tracker.ts:59-87 | one timer for each found execution without an entry, in order |
| WaitTracker.WaitTracker.StopTracking | packages/cli/src/wait-tracker.ts:171-180 | the timers of all entries are cleared and the entries stay |
| WaitTracker.PollArmsExactlyWhen | packages/cli/src/wait-tracker.ts:75-86 | a poll arms a timer for an execution exactly when it was found and had no entry, and gives it exactly one |
| WaitTracker.PollSetsTheDelay | packages/cli/src/wait-tracker.ts:77-84 | the timer that a poll makes for an execution runs for the time to wait of the first row found for it, less now |
| WaitTracker.TimersFireOnce | packages/cli/src/wait-tracker.ts:80-95 | in every run a timer starts its execution at most once, and not after it has been cleared |
| WaitTracker.StepsOfTheTracker | packages/cli/src/wait-tracker.ts:97-99 | firing, stopping and starting remove the execution's entry, a start leaves every timer, and stepping down does nothing unless a takeover came before |
| WaitTracker.SilentEntriesStaySilent | packages/cli/src/wait-tracker.ts:77-84 | an entry without an armed timer stays so through any polls and takeovers, until the execution is stopped or started otherwise |
| WaitTracker.StepDownSilencesExactlyWhen | packages/cli/src/wait-tracker.ts:171-177 | stepping down silences an entry exactly when its own timer is the only one armed for the execution |
| WaitTracker.StopSilencesExactlyWhen | packages/cli/src/wait-tracker.ts:89-95 | a stop prevents every timer from starting the execution exactly when its entry's timer is the only one armed |
| WaitTracker.DirectStartLeavesTwoTimers | packages/cli/src/wait-tracker.ts:97-99 | a start by other means leaves the timer armed, and the next poll arms a second one |
| CredentialsOverwrites.GetIsNearest | packages/cli/src/credentials-overwrites.ts:102-222 | single inheritance, any table, any enumeration order: after `setPlainData` the lookup gives each field the value of the nearest type on the chain whose original entry sets it |
| CredentialsOverwrites.OrderDoesNotMatter | packages/cli/src/credentials-overwrites.ts:102-116 | two enumeration orders give the same lookup |
| CredentialsOverwrites.RewritingTwiceIsRewritingOnce | packages/cli/src/credentials-overwrites.ts:56-130 | a table that was already rewritten, saved and loaded again resolves identically, in any orders |
| ExposedSettings.GetDefinesInheritedFields | packages/cli/src/credentials-overwrites.ts:177-222 | any number of parents: a field is defined exactly when the type or a strict ancestor sets it, with the value of one of them |
| ExposedSettings.GetFindsAnExposedSetting | packages/cli/src/credentials-overwrites.ts:102-222 | any number of parents, any order: a field is found exactly when the type or an ancestor sets it, and its value is from an exposed setting, one that no other setting hides on some way up to it |
| ExposedSettings.AgreeingSettingsFixTheLookup | packages/cli/src/credentials-overwrites.ts:102-116 | any number of parents: two enumeration orders find the same value, or none, when the exposed settings of the field agree |
| ExposedSettings.WhenSettingsAgree | packages/cli/src/credentials-overwrites.ts:192-222 | they agree when all settings of the field on the type and its ancestors do, and always under single inheritance |
| ExposedSettings.OwnSettingFixesTheLookup | packages/cli/src/credentials-overwrites.ts:177-222 | any number of parents, any order: a field that the type itself sets is found with that value |
| ExposedSettings.ListingIsGrounded | packages/cli/src/credential-types.ts:26-38 | in the listing of ancestors, each name is a direct parent of the type or of a name before it |
| ExposedSettings.ParentsFirstStoresEverything | packages/cli/src/credentials-overwrites.ts:102-116 | any number of parents: when every listed type has an entry and comes after its parents, each stored entry has exactly the fields that the type or an ancestor sets, with the values of exposed settings |
| CredentialsOverwrites.MemoDependsOnOrder | packages/cli/src/credentials-overwrites.ts:107-114 | on a chain of three the stored entries differ between two orders |
| CredentialsOverwrites.TwoParentsDependOnOrder | packages/cli/src/credentials-overwrites.ts:192-222 | with two parents the lookup itself differs between two orders |
| CredentialsOverwrites.ApplyTwiceIsApplyOnce | packages/cli/src/credentials-overwrites.ts:139-175 | applying overwrites to applied data changes nothing, for skip-listed types too |
| CredentialsOverwrites.ApplyKeepsEnteredValues | packages/cli/src/credentials-overwrites.ts:139-175 | a value the user has entered is never replaced, and what is filled in is the overwrite |
| CredentialsOverwrites.ApplyFillsExactly | packages/cli/src/credentials-overwrites.ts:139-175 | key by key: an entered value stays, and where the data have nothing, null or the empty string the overwrite is filled in; for a skip-listed type with an entered value that differs from its overwrite the data come back unchanged |
| CredentialsOverwrites.Overwrites.GetOverwrites | packages/cli/src/credentials-overwrites.ts:177-207 | the recursive method with its memo returns and marks what the resolution function says |
| CredentialsOverwrites.Overwrites.SetPlainData | packages/cli/src/credentials-overwrites.ts:102-116 | the loop that overwrites the table it resolves from leaves the rewritten table |
| CredentialsOverwrites.Overwrites.ApplyOverwrite | packages/cli/src/credentials-overwrites.ts:139-175 | the copy-and-fill loop gives what the lookup and the skip list prescribe |
| CredentialTypes.GetParentTypes | packages/cli/src/credential-types.ts:26-38 | the loop over the array it grows terminates on every acyclic graph and returns the listing |
| CredentialTypes.ListingIsStrictAncestors | packages/cli/src/credential-types.ts:26-38 | with any number of parents the listing holds exactly the strict ancestors |
| CredentialTypes.ListingStartsWithChain | packages/cli/src/credential-types.ts:26-38 | on a chain it starts with the chain, nearest first, and then only repeats it |
| CredentialRepair.RepairIsOutcome | packages/cli/src/workflow-helpers.ts:190-306 | the pass with its two caches gives each entry a result defined without caches, from the entry and those before it |
| CredentialRepair.RepairTwiceIsRepairOnce | packages/cli/src/workflow-helpers.ts:190-306 | a second pass over its own output, with an unchanged database, changes nothing |
| CredentialRepair.RepairedIdsAreSound | packages/cli/src/workflow-helpers.ts:204-303 | in any order, an id is the one it came with or that of a stored credential of the same type in the project, and an id that exists is kept |
| CredentialRepair.StaleIdIsReplacedExactlyWhen | packages/cli/src/workflow-helpers.ts:258-303 | a stale id is replaced exactly when one credential of the type in the project has the entry's name and no other has, and no earlier entry with that id has a name that is not unique; it becomes that credential's id and name |
| CredentialRepair.NameIsResolvedExactlyWhen | packages/cli/src/workflow-helpers.ts:211-256 | a bare name or null id gets an id exactly when one credential of the type in the project has that name and no other has, whatever comes before; it becomes that credential's id and name |
| CredentialRepair.RepairedNamesAreSound | packages/cli/src/workflow-helpers.ts:228-303 | an entry with the id of a stored credential of its type has that credential's name; one left without an id keeps its own name; one with an id that is not stored has a reference that an entry of its type, up to itself, came in with |
| CredentialRepair.ReplaceInvalidCredentials | packages/cli/src/workflow-helpers.ts:190-306 | the nested loops over nodes and entries change the workflow's references as the pass says, and nothing else |
| Webhooks.WebhookStore.AddWebhooks | packages/cli/src/active-workflow-manager.ts:155-239 | the rows and the outcome of the insert loop, whichever webhook fails and however the removal ends |
| Webhooks.AllOrNothing | packages/cli/src/active-workflow-manager.ts:155-300 | outside start-up and leadership change, with a removal that gets through: all webhooks have rows of the workflow, or it has none |
| Webhooks.FailedRemovalLeavesNothingExactlyWhen | packages/cli/src/active-workflow-manager.ts:245-300 | when the removal fails too, nothing is left exactly when the workflow had no rows and none was written |
| Webhooks.OthersAreUntouchedExactlyWhen | packages/cli/src/webhooks/webhook.service.ts:126-136 | other workflows' rows are untouched exactly when no written webhook has the method and path of one |
| Webhooks.TakenPathIsLost | packages/cli/src/webhooks/webhook.service.ts:126-152 | a second workflow that fails after claiming a path takes the first one's row with it |
| Webhooks.LastWriterWins | packages/cli/src/webhooks/webhook.service.ts:126-136 | the last stored webhook with a method and path decides the row |
| Webhooks.StoredPath | packages/cli/src/active-workflow-manager.ts:172-184 | character by character: the stored path lacks at most one slash in front and one behind |
| Webhooks.StoredRow | packages/cli/src/active-workflow-manager.ts:172-189 | the row has the node's webhook id and one segment more than the stored path has slashes exactly when a segment of the path starts with a colon and the node has an id |
| Webhooks.AbortedExactlyWhen | packages/cli/src/active-workflow-manager.ts:195-207 | a call is aborted exactly by a failure that is not a failed query at start-up or after a change of leader |
| Webhooks.RowIsWrittenExactlyWhenStored | packages/cli/src/active-workflow-manager.ts:191-207 | a tolerated failure of the node's set-up leaves the row, a tolerated failure to store it leaves the table as before |
| Deadlines.HardStopStaysExactlyWhen | packages/cli/src/workflow-runner.ts:431-453 | over any resumes of an execution: every stop is at the first start plus the limit, or at the resume if that has passed, exactly when every resume passes the first start or is at it |
| Deadlines.StopStaysExactlyWhen | packages/cli/src/workflow-runner.ts:344-452 | the timer never stops the execution before the limit counted from the first start nor after the soft deadline; it is at the one exactly when the first start is passed, at the other exactly when it is not, or the resume is at it |
| Deadlines.RestartsPutOffTheStop | packages/cli/src/workflow-runner.ts:431-453 | over resumes each no later than the stop in force, the stop is at least the first start plus the limit, and at most one limit later for each resume that passes no start |
| Deadlines.RestartsReachTheBound | packages/cli/src/webhooks/webhook-helpers.ts:653-662 | that bound is reached for every number of such resumes |
| Deadlines.ResumeWithoutStartMovesTheStop | packages/cli/src/chat/chat-execution-manager.ts:177-184 | a limit of 100 s and a resume after 60 s: stopped at the first start plus 160 s without the start, plus 100 s with it |
| Deadlines.SoftDeadlineInSeconds | packages/cli/src/workflow-runner.ts:344-373 | the soft deadline is 1000 times the workflow's own limit, or without one the default, at most the cap, after now; there is none for a limit that is not positive |
| Deadlines.SubworkflowDeadlineInSeconds | packages/cli/src/workflow-execute-additional-data.ts:381-392 | a sub-workflow without a positive limit has its parent's deadline; any other the smaller of its start plus 1000 times its limit and its parent's |
| Deadlines.NestedDeadlineIsMinimum | packages/cli/src/workflow-execute-additional-data.ts:381-392 | at every depth the deadline is the minimum of the root deadline and each enclosing start plus timeout |
| Deadlines.NestingNeverOutlivesTheRunner | packages/cli/src/workflow-runner.ts:367-373 | however deep the nesting, no deadline is after the one the runner set; without one, a deadline exists exactly when some level has a limit |
| Deadlines.NotLaterThanParentExactlyWhen | packages/cli/src/workflow-execute-additional-data.ts:381-392 | a sub-workflow's deadline is no later than its parent's exactly when the parent's is not a falsy zero that is dropped |
| ActivationQueue.Queue.AfterFailure | packages/cli/src/active-workflow-manager.ts:909-943 | a failed retry of a queued workflow doubles its delay up to one day, isolate errors leave it, and a removed entry is reported |
| ActivationQueue.DelayIsCappedPower | packages/cli/src/active-workflow-manager.ts:909-953 | after any failures of which k are not isolate errors the delay is the smaller of 1000 * 2^k and one day |
| ActivationQueue.DelayReachesOneDay | packages/cli/src/active-workflow-manager.ts:919-936 | the delay never decreases and equals one day exactly from k = 17 on |
| KeyPaths.GetAllKeyPaths | packages/cli/src/utils.ts:104-125 | the recursive method appends the listed paths to what it was given |
| KeyPaths.PlacesAreHits | packages/cli/src/utils.ts:104-125 | the listed places are exactly the object-property strings that pass the filter, in document order, each once |
| KeyPaths.PathsArePlaces | packages/cli/src/utils.ts:104-125 | the appended strings are the printed paths of those places, in that order |
| KeyPaths.ReadPrinted | packages/cli/src/utils.ts:107-116 | keys that are non-empty and have no dot or bracket: a reader gets back the steps of every printed path |
| KeyPaths.NoLeadingZero | packages/cli/src/utils.ts:107-108 | an index is printed without a leading zero |
| KeyPaths.ItemsAreCountedFromZero | packages/cli/src/utils.ts:104-125 | two values with their printed paths: items count from zero in brackets, and a key after them has a dot |
| KeyPaths.ListedPathsNameTheirStrings | packages/cli/src/utils.ts:104-125 | with such keys, distinct in each object, the listed paths are pairwise distinct and each leads back to its string |
| KeyPaths.DotsCollide | packages/cli/src/utils.ts:112-116 | with a dot in a key two different strings get the same path |

## Left out

- ExecutionOutcomes.EveryOutcomeSettles: carries one condition more than the code's design names, that no record is replaced before its promise settles; `LateCompletionSettlesTheNewRecord` shows that the code needs it, and `UnsettledOutcomeIsExplained` holds without any condition.
- CredentialTypes.GetParentTypes: takes an acyclic `extends` graph, witnessed by a rank; on a cycle the original does not end.
- Webhooks.AllOrNothing: speaks about the workflow's own rows; the other workflows' rows are the subject of `OthersAreUntouchedExactlyWhen`.
- ExposedSettings.AgreeingSettingsFixTheLookup: one direction only. Exposed settings that disagree need not make the lookup depend on the order; the listing's own order may decide.
- StopFinality.StopIsFinalExactlyWhen: the write to the row follows the stop at once. Marking an execution that has left the table throws inside the node; the model lets that engine wait all the same, as it does when the node catches the error. Attaching an engine whose record has left the table throws too, and an error is saved while the engine goes on; in the model it only goes on.
- The saves of progress that a running engine makes after each node; they write 'running'.
- The HTTP side of an execution: streaming, response bodies, heartbeats, and what settles a response promise.
- The data that a promise carries, and the engine object that `attachWorkflowExecution` stores and a stop cancels; engines are steps in any order their hooks allow.
- Queue mode's job handling, and everything that happens on a worker.
- Creating an execution and reserving its slot are one step, although two awaits lie between them.
- Rows are never deleted: executions that are not saved, and pruning.
- Start-up recovery, which writes rows of executions that a crash left behind.
- Response modes that a shutdown without cancelling leaves behind; nothing reads them afterwards.
- CredentialsOverwrites.GetIsNearest: one registry stands for both sources of inheritance, the `extends` of the credential class and that of the known-credentials table; the lookup theorems assume that the two agree.
- ConcurrencyControl.RemoveAllEmptiesExactlyWhen: speaks about queues in which no execution is queued twice; with repeats whether a queue empties depends on their places, and `AllRemovedLeavesRepeats` shows one that does not.
- The concurrency service's telemetry and events.
- The reservation object's flag: the phase of an `add` call says whether it has a slot to give back.
- In `ActiveExecutions`, the phase of a call between its awaits is ghost state, since in the original it is the suspended function.
- Time: timers and polls happen at any moment, and `setTimeout` overflow is not modelled.
- In `ChildResults`, the parent's other columns and the rest of its run data; a parent row that disappears.
- Leader election and the multi-main publish path.
- Webhook caching, the nullable columns of a webhook row, and static data saved on removal.
- JavaScript property names such as `constructor` used as credential names in the repair caches.
- Registering nodes and credential types; the table of known types is given.
- Logging, telemetry, audit events and error message texts.
