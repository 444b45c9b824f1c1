# Verified model of the workflow backend

This project models the state-heavy parts of the DSentr backend in Dafny and proves what they
guarantee over all inputs, all runs and all interleavings of steps.

| files | what they model |
|---|---|
| `Graphs`, `NodeExecution`, `Executor`, `Walks`, `NodeLaws` | parsing a workflow graph, executing one node, the explicit-stack loop of `execute_run`, what every iteration keeps, and what each kind of node does in a run |
| `Secrets`, `PauseResume`, `Runs`, `RunStart`, `RunLaws`, `Resumption`, `Branching` | a whole run: filling in secrets, set-up from the snapshot, outcome writes, pausing at a delay node and resuming, conditional branches |
| `Scenarios` | three stored runs, executed and resumed, that show what a pause can do |
| `RunQueue`, `RunHistory`, `RunLeases`, `RunOrder` | the table of runs, its SQL statements as atomic steps, and histories of many workers |
| `Quota` | the run quota ledger of a workspace and its billing windows |
| `Schedules` | the next-run computation and the schedule row |
| `Sessions` | the session cache in front of the session table |
| `Templating` | template text with placeholders, and the context lookup behind it |
| `Runaway` | the per-workspace switch inside arbitrary JSON settings |
| `Wrappers`, `Sets`, `JsonValues`, `Text` | options, sizes of sets, JSON values, trimming and splitting of text |

Everything outside the modelled code is a parameter: node handlers and delay plans (functions of
the node and the context), polls (a function of the number of ids popped so far), hash-map iteration order,
fresh ids, success or failure of each storage call, the clock, Unicode lower-casing, RFC 3339 and
JSON printing. A node runs at most once per segment, so handlers given as functions cover every
behaviour the real ones can show.

## What the code does not do

Six statements one might expect are false of the code. Each has a concrete input and the exact
condition under which the code does meet it.

- Pausing and resuming need not do the work of the uninterrupted run: a pause saves only the
  delay node's successors, so whatever else was on the stack is lost
  (`Scenarios.PauseLosesTheSibling`). However often a run pauses, the same nodes are executed if
  and only if, at its last pause, every graph node that some pause left on the stack was executed
  already or lies below the successors saved (`PauseResume.PauseThenResumeCoversTheRun`,
  `Resumption.PausedRunDoesTheWholeRun`). A pause also forgets what was visited; no node of an
  earlier execution runs in the last one if and only if none of them lies below the saved
  successors (`PauseResume.RunsOnceAcrossThePause`).
- A resumed run need not start from the saved successors: when the delay node has none, the run
  starts over from its named start node, for ever (`Scenarios.LeafDelayRunsForever`). It starts
  from them if and only if there are some and none of them reads as a secret, which the next
  execution fills in first, or there are none and no start node is named
  (`Resumption.ResumedRunStarts`).
- The resumed context need not be the paused one: with two triggers it can gain a key, depending
  on hash order (`Scenarios.TwoTriggersCanGainAKey`), and an output that reads as a reference to a
  secret is replaced (`Resumption.OutputComesBackAsASecret`). It is the paused one if and only if
  no output reads as a secret, and there is no trigger payload or its key is there already
  (`Resumption.ResumedRunContext`).
- The next run stored by a firing need not be a whole interval after the last run it records,
  because the worker records the time of firing but computes from the time it was due
  (`Schedules.GapCanBeShort`, `Schedules.GapAfterFiring`).
- A due time can get more than one run even from a single worker
  (`Schedules.OneDueTimeFiredTwice`): it does if and only if a firing failed after it had created
  its run and a later one created another (`Schedules.TwoRunsForOneDueTime`). Of two attempts in a
  row, both are for the same due time if and only if the first failed
  (`Schedules.RefiresExactlyAfterAFailure`).
- A second release of one ticket can uncount another that is still out
  (`Quota.DoubleReleaseBreaksConservation`). It is harmless if and only if the period has no row,
  which means that no ticket of it is out (`Quota.SecondReleaseIsHarmless`).

## Model

| member | source | states |
|---|---|---|
| Graphs.FromSnapshot | backend/src/engine/graph.rs:29-65 | the parser returns the graph a snapshot denotes, and nothing exactly when an array or a mandatory string is missing |
| Graphs.EntriesMean | backend/src/engine/graph.rs:34-62 | a node entry gives its id, type and data, null without data; an edge entry its source, target, id and handle, the last two only when they are strings |
| Graphs.FillEdges | backend/src/engine/graph.rs:43-62 | grouping edges by source keeps, for each source, the order of the edge list, and fails exactly on a malformed edge |
| Graphs.OutgoingIsFilter | backend/src/engine/graph.rs:67-72 | `outgoing` is the order-preserving filter of the snapshot's whole edge list, also for ids without edges |
| Graphs.LastNodeWins | backend/src/engine/graph.rs:36-41 | of several node entries with one id the last is kept |
| NodeLaws.ConditionTakesItsSide | backend/src/engine/executor.rs:653-690 | in every run, a condition whose code answers with a Boolean result and selects no existing node records that answer and leads to the targets of the edges with "cond-true" or "cond-false" for it, in edge order, and to nothing else |
| NodeLaws.AnswerIsPassedOn | backend/src/engine/executor.rs:420-492 | in every run, formatter, trigger, condition and action nodes record what their code answers and lead to the existing node it selects, or else to all targets in edge order |
| NodeLaws.DelayWaitsAsPlanned | backend/src/engine/executor.rs:386-418 | in every run, a delay node waits or goes on as planned, with all its targets |
| NodeLaws.OtherKindsAreSkipped | backend/src/engine/executor.rs:445-445 | in every run, a node of any other kind is recorded as skipped and leads to all its targets |
| NodeLaws.ErrorsStopOrPass | backend/src/engine/executor.rs:577-600 | in every run, a reported error is fatal with its message, unless the kind is exactly "action" and stopOnError is false; then all targets follow |
| NodeLaws.NothingElseFails | backend/src/engine/executor.rs:385-600 | a node fails only by reporting an error, and waits only if it is a delay |
| NodeLaws.NextNodeReadsOutputs | backend/src/engine/executor.rs:472-482 | each node finds the outputs of the one before it under that one's label (trimmed, and in lower case) or id, and all other keys as that one found them |
| NodeLaws.PollsEndTheWalk | backend/src/engine/executor.rs:268-340 | the first poll that finds the lease lost or the run canceled ends the walk before the node it was made for, and no other poll does |
| Text.TrimIs | backend/src/engine/executor.rs:614-627 | trimming takes off exactly the Unicode white space around a text |
| NodeExecution.OutputsReadableByLabel | backend/src/engine/executor.rs:472-482 | outputs are stored under the trimmed label and its lower-case form, and no other key changes |
| Runs.RunLoop | backend/src/engine/executor.rs:267-611 | the stack loop terminates on every graph, ends in the state of the stack machine and of the recursive depth-first visit, and logs every node as it runs and then the writes of the outcome |
| Executor.Iterate | backend/src/engine/executor.rs:267-602 | one iteration: polls first, then the visited check, the dangling check, and the node's own outcome |
| Executor.StackIsRecursion | backend/src/engine/executor.rs:267-603 | the explicit stack executes the same nodes in the same order with the same contexts and the same stop as the recursive visit that takes the start list last to first and successors left to right |
| Executor.DescendConcat | backend/src/engine/executor.rs:490-492 | visiting a concatenation of ids is visiting its parts in turn |
| Walks.PopKeepsInv | backend/src/engine/executor.rs:342-349 | each iteration keeps: visited graph nodes are the executed ones, none twice; start ids and chosen successors are visited or on the stack; all of these were reached |
| Walks.ExecutesAtMostOnce | backend/src/engine/executor.rs:342-345 | no node is executed twice in a segment |
| Walks.DrainExecutesExactlyReachable | backend/src/engine/executor.rs:342-349 | when the loop drains, the executed nodes are exactly the graph nodes reachable from the start list through the successors chosen |
| PauseResume.DrainedRunsThePlan | backend/src/engine/executor.rs:342-349 | for any fixed choice of successors per node, an execution that drains runs exactly the graph nodes planned below its start list |
| PauseResume.NothingLostDecides | backend/src/engine/executor.rs:521-543 | over any number of pauses, the condition known at the last one (left-over graph nodes executed by then, or planned below the successors saved) is equivalent to all left-overs being executed in the end |
| PauseResume.PauseThenResumeCoversTheRun | backend/src/engine/executor.rs:494-556 | for any fixed choice of successors per node, a run that pauses any number of times and then drains executes, all in all, what the uninterrupted run executes (and that run drains) if and only if that condition holds; always when nothing was ever left |
| PauseResume.RunsOnceAcrossThePause | backend/src/engine/executor.rs:521-556 | no node of an earlier execution runs in the last one if and only if none of them is planned below the successors it starts from |
| Scenarios.SnapshotReadsBack | backend/src/engine/graph.rs:29-72 | round trip: a workflow with distinct node ids, written as a snapshot, is parsed back with the same nodes and the same edges in order |
| Scenarios.PauseLosesTheSibling | backend/src/engine/executor.rs:521-543 | a snapshot of four nodes, whatever their data: on any host that waits at its delay, and any that resumes it, its two executions finish as succeeded without running a sibling that runs on any host that does not wait |
| Scenarios.LeafDelayRunsForever | backend/src/engine/executor.rs:198-217 | a snapshot whose pause has no successors to save: on any succession of hosts that wait at the delay, every one of infinitely many executions runs the start node and the delay and pauses again |
| Scenarios.TwoTriggersCanGainAKey | backend/src/engine/executor.rs:104-123 | a snapshot with two triggers: on any host that waits at its delay, what the pause writes is read back with the paused context in one hash order, and with one more key in another |
| Runs.RetryWithBackoff | backend/src/engine/executor.rs:721-765 | success exactly if one of three attempts succeeds, stopping at the first; the waits double from 100 ms |
| Runs.ExecuteRun | backend/src/engine/executor.rs:71-612 | the whole execution yields the result and the ordered writes of the specification built on the recursive walk |
| RunLaws.SingleOutcome | backend/src/engine/executor.rs:545-611 | never two outcome writes; exactly one, as the last act, when storage calls succeed or the run reports finished or paused |
| RunLaws.SucceededMeansDrained | backend/src/engine/executor.rs:577-611 | "succeeded" exactly when the walk drained, and then every node that reported an error had kind exactly "action" and stopOnError false |
| RunLaws.NodeErrorLeavesADeadLetter | backend/src/engine/executor.rs:577-590 | any other node error is the last node of the run, followed by a dead letter and a failed status with the message reported |
| RunLaws.PausedMeansDelay | backend/src/engine/executor.rs:385-424 | a walk pauses only at a delay node that waits until a storable time, and saves exactly its outgoing targets |
| RunLaws.WaitingPausesOrFails | backend/src/engine/executor.rs:494-556 | a delay node that waits is the last node of the execution, which pauses until then with its targets saved, or, when the time cannot be stored, leaves a dead letter and a failed status |
| RunLaws.PolledAwayMeansCanceled | backend/src/engine/executor.rs:282-318 | a run whose poll finds it canceled, or its lease lost, is marked canceled after the nodes it ran, with the reason in the second case |
| RunStart.FreshRunStartsAtTriggers | backend/src/engine/executor.rs:217-231 | a run never paused that names no start node starts at every trigger once, or at one node when there is no trigger |
| RunStart.NamedRunStartsThere | backend/src/engine/executor.rs:194-216 | a run never paused that names a start node starts there |
| RunStart.PausedRunStartsAtSaved | backend/src/engine/executor.rs:200-212 | a paused run starts at exactly the texts among its saved ids |
| RunStart.PayloadGoesToNamedTrigger | backend/src/engine/executor.rs:104-123 | the payload goes under the key of the trigger named as start, unless the run already has that key |
| RunStart.PayloadGoesToFirstTrigger | backend/src/engine/executor.rs:104-123 | without a named trigger it goes under the key of the first trigger in hash order |
| RunStart.PayloadWithoutTrigger | backend/src/engine/executor.rs:104-123 | without any trigger it goes under "trigger"; without a payload nothing is added |
| RunStart.PauseKeepsTheRest | backend/src/engine/executor.rs:521-543 | a pause writes the resume time as text and changes nothing else but the context, the saved ids and the named start |
| Resumption.ResumedRunStarts | backend/src/engine/executor.rs:198-217 | for any graph, hash order and secrets of the next execution, the start list it reads is the saved one if and only if there were successors, none reading as a secret, or there were none and no start node is named |
| Secrets.HydrateFixes | backend/src/utils/secrets.rs:488-524 | filling in secrets leaves a value alone if and only if no string in it stands for a stored secret with another plaintext |
| Secrets.HydratedIsSettled | backend/src/utils/secrets.rs:488-524 | when no plaintext is itself a reference, one filling-in leaves nothing for a second |
| Secrets.OnlyReferencesAreFilledIn | backend/src/utils/secrets.rs:488-524 | a text "group:service:name" that names a stored secret is replaced by its plaintext, and no text without exactly two colons is |
| Resumption.HydrationKeepsContext | backend/src/engine/executor.rs:72-86 | filling in secrets again on resume keeps the paused context if and only if no output in it reads as a stored secret with another plaintext |
| Resumption.WhatHydrationCanChange | backend/src/engine/executor.rs:72-86 | with the same secrets, none of them a reference itself, only the context and the time stamp of a paused snapshot can change; its graph and saved successors stay |
| Resumption.OutputComesBackAsASecret | backend/src/engine/executor.rs:72-86 | an output of the form group:service:name that the resumed run reads back as a plaintext |
| Resumption.ResumedRunContext | backend/src/engine/executor.rs:104-123 | for any graph, hash order and secrets of the next execution, the context it starts with is the paused one if and only if no output reads as a secret, and there is no trigger payload or its key is already present |
| Resumption.ResumesWhereItPaused | backend/src/engine/executor.rs:521-556 | with at most one trigger and some successor, the paused snapshot is walked over the same graph from the saved successors and the paused context, on any host and hash order; filling in secrets leaves it alone when it holds no reference |
| Resumption.PauseWritesWhatIsContinued | backend/src/engine/executor.rs:521-556 | an execution that pauses reports so, having logged its nodes and then the snapshot the next execution continues from |
| Resumption.PausedRunDoesTheWholeRun | backend/src/engine/executor.rs:104-233 | the executions of a stored run that pauses any number of times do the work of the uninterrupted run if and only if nothing is lost at its pauses, whatever hosts and hash orders, and whatever filling in secrets makes of node data and context |
| Branching.UntakenBranchesAreNotExecuted | backend/src/engine/executor.rs:653-690 | when no node that ran selected an existing node, a node all of whose edge paths from the start use an edge against the answer of an executed condition is never executed |
| RunQueue.RunRepository.CreateWorkflowRun | backend/src/db/postgres_workflow_repository.rs:448-511 | inserts a fresh queued run with the snapshot and key given, or returns the run that holds the idempotency key in its scope, or rejects an unknown workflow or user |
| RunQueue.RunRepository.ClaimNextEligibleRun | backend/src/db/postgres_workflow_repository.rs:1102-1157 | claims an eligible run that no eligible run precedes by priority and age, leasing it for the seconds asked and counting the attempt, and nothing exactly when none is eligible |
| RunQueue.RunRepository.RenewRunLease | backend/src/db/postgres_workflow_repository.rs:1159-1180 | extends the lease of the worker that holds it, and silently does nothing otherwise |
| RunQueue.RunRepository.PauseWorkflowRun | backend/src/db/postgres_workflow_repository.rs:655-680 | requeues the run with its new snapshot and resume time and clears its lease, whatever its status |
| RunQueue.RunRepository.CompleteWorkflowRun | backend/src/db/postgres_workflow_repository.rs:631-653 | sets the status whatever it was and keeps an earlier finish time |
| RunQueue.RunRepository.CancelWorkflowRun | backend/src/db/postgres_workflow_repository.rs:792-812 | cancels a queued or running run of the user and workflow, and no other |
| RunQueue.RunRepository.CancelAllRunsForWorkflow | backend/src/db/postgres_workflow_repository.rs:964-981 | cancels exactly the queued and running runs of the user's workflow |
| RunQueue.RunRepository.PurgeOldRuns | backend/src/db/postgres_workflow_repository.rs:1182-1194 | deletes exactly the finished runs created more than the given days ago, and their dead letters |
| RunQueue.RunRepository.RequeueExpiredLeases | backend/src/db/postgres_workflow_repository.rs:1089-1100 | requeues exactly the running runs with an expired lease and counts them |
| RunQueue.RunRepository.DeleteWorkflow | backend/src/db/postgres_workflow_repository.rs:283-296 | deletes the owner's workflow with its runs and dead letters, and nothing when it is not theirs |
| RunQueue.RunRepository.DeleteUser | backend/src/db/postgres_user_repository.rs:778-806 | deletes the user, the workflows owned by the user or in the user's workspaces, and the runs and dead letters of any of these |
| RunQueue.RunRepository.InsertDeadLetter | backend/src/db/postgres_workflow_repository.rs:1196-1218 | inserts the letter exactly when its run, workflow and user exist |
| RunQueue.RunRepository.RequeueDeadLetter | backend/src/db/postgres_workflow_repository.rs:1245-1327 | turns an owned dead letter into a new queued run with a refreshed allowlist and deletes it; when the delete fails the run is there, the letter stays and an error is returned |
| RunHistory.StepKeepsTableOk | backend/src/db/postgres_workflow_repository.rs:448-1194 | every step keeps: queued rows hold no lease, running rows hold one, finished rows have a finish time, keys are unique, rows belong to existing workflows and users, dead letters to existing runs |
| RunLeases.ClaimsAreSeparated | backend/src/db/postgres_workflow_repository.rs:1089-1157 | between two claims of a run there is a pause of it, or a requeue after the latest expiry claimed or renewed |
| RunLeases.NoClaimBeforeExpiry | backend/src/db/postgres_workflow_repository.rs:1089-1180 | an unpaused run is not claimed again before the latest granted expiry has passed |
| RunLeases.RunningHoldsItsLease | backend/src/db/postgres_workflow_repository.rs:1120-1130 | a running run's lease names the worker of its latest claim and the latest granted expiry; a queued run has none |
| RunLeases.AttemptCountsClaims | backend/src/db/postgres_workflow_repository.rs:1125-1125 | the attempt counter is the number of claims of the run |
| RunLeases.NotClaimedBeforeResume | backend/src/db/postgres_workflow_repository.rs:655-680 | a paused run is not claimed before its resume time |
| RunLeases.TerminalIsSticky | backend/src/db/postgres_workflow_repository.rs:631-680 | a terminal status changes only by a pause or another completion |
| RunOrder.EarlierRunsGoFirst | backend/src/db/postgres_workflow_repository.rs:1107-1119 | a never-paused run of the same workflow, created earlier with at least the same priority, is not left queued by a claim |
| RunOrder.ClaimTakesTheBest | backend/src/db/postgres_workflow_repository.rs:1102-1119 | a claim takes a queued, due run of a workflow below its limit; any other such run has a lower priority, or the same and was created no earlier |
| RunOrder.NothingToClaim | backend/src/db/postgres_workflow_repository.rs:1102-1119 | a claim comes back empty if and only if there is no such run |
| RunOrder.KeysAreUnique | backend/migrations/202510221_1_add_workspace_id_to_workflow_runs.sql:14-18 | in every reachable table no two runs of a workflow share an idempotency key within a workspace or, outside of any, for one user |
| RunOrder.ClaimRespectsCap | backend/src/db/postgres_workflow_repository.rs:1112-1116 | right after a claim the workflow's running count is within its limit at that moment |
| RunOrder.RunningWithinCap | backend/src/db/postgres_workflow_repository.rs:1068-1132 | if the limit is never lowered while the workflow exists, the running count never exceeds it in any reachable table |
| RunOrder.Census | backend/src/db/postgres_workflow_repository.rs:448-1194 | runs created = queued + running + finished + deleted, at every point of every history |
| RunOrder.OnlyTheseDelete | backend/src/db/postgres_workflow_repository.rs:1182-1194 | a run is deleted only by a purge, when finished and past the retention time, or with its workflow or user, and its dead letters go with it |
| RunOrder.KeyedCreateIsIdempotent | backend/src/db/postgres_workflow_repository.rs:478-509 | creating again under one key changes nothing and one run only bears the key |
| RunOrder.RequeuedOnceWhenDeleted | backend/src/db/postgres_workflow_repository.rs:1245-1327 | a dead letter already requeued gives another run if and only if it was not deleted |
| Quota.QuotaService.TryIncrement | backend/src/db/postgres_workspace_repository.rs:644-722 | counts one run, and one overage exactly when the count passes the limit |
| Quota.QuotaService.ReleaseUsage | backend/src/db/postgres_workspace_repository.rs:754-822 | takes one run off, never below zero, and drops an empty row |
| Quota.QuotaService.ConsumeWorkspaceRunQuota | backend/src/state.rs:219-346 | a metered workspace gets the ticket of the increment made; others get none and nothing changes |
| Quota.QuotaService.ReleaseWorkspaceRunQuota | backend/src/state.rs:348-360 | releases the ticket under the period it was issued for |
| Quota.AlwaysConserved | backend/src/db/postgres_workspace_repository.rs:644-822 | in every reachable state each period's counters are its outstanding and its flagged tickets, a missing row meaning none |
| Quota.OverageCoversTheExcess | backend/src/db/postgres_workspace_repository.rs:669-684 | under a fixed limit at most that many unflagged tickets are out, so overage covers the excess |
| Quota.ConsumeThenReleaseIsNeutral | backend/src/state.rs:348-360 | consuming and releasing at once restores the whole ledger |
| Quota.SecondReleaseIsHarmless | backend/src/db/postgres_workspace_repository.rs:754-822 | releasing a ticket that is no longer out keeps the ledger conserved if and only if no ticket of its period is out, that is, the period has no row |
| Quota.DoubleReleaseBreaksConservation | backend/src/db/postgres_workspace_repository.rs:754-822 | two consumes and two releases of the first ticket: the second ticket is out and nothing counts it |
| Quota.CountedInItsWindow | backend/src/state.rs:445-460 | for contiguous cycles each synced in its own window, a ticket gets the start of the window holding its consume time, whichever of the two windows is stored |
| Quota.ConsumeCountsItsTicket | backend/src/state.rs:233-245 | a consume counts one run under its ticket's period and touches no other period |
| Quota.TicketCountsItsPeriod | backend/src/state.rs:233-272 | in every reachable state a new ticket counts the tickets of its workspace and period that are out, itself included, and is flagged when that passes the limit |
| Quota.MonthlyWithoutCycle | backend/src/state.rs:445-460 | without a billing cycle a ticket is for the calendar month of its consume |
| Quota.CycleDecidesPeriod | backend/src/state.rs:445-460 | with one it is for the cycle's start until the cycle ends, and for its end from then on |
| Quota.MonthAccumulates | backend/src/state.rs:445-460 | without a cycle, two consumes in one calendar month, with nothing of the workspace issued or released between, get consecutive run counts under one period |
| Quota.ReleaseHitsTheIssuingPeriod | backend/src/state.rs:348-360 | a release, even after rollover, takes one run off the issuing period and touches no other |
| Schedules.StepUntil | backend/src/utils/schedule.rs:114-130 | the stepping loop terminates and returns the closed form, or nothing exactly when that passes the representable maximum; it panics exactly when it must add an interval too long for a duration |
| Schedules.ComputeNextRun | backend/src/utils/schedule.rs:84-133 | returns the closed form for every start, last run and clock, and panics exactly when an interval too long for a duration is added |
| Schedules.ScheduleStore.Trigger | backend/src/worker/mod.rs:540-558 | marks the firing with the next time counted from the due time, or leaves the row when that panics |
| Schedules.ScheduleStore.Sync | backend/src/routes/workflows/helpers.rs:118-196 | stores the next time counted from the recorded last run, or disables the schedule when there is none |
| Schedules.FirstDueIsLeast | backend/src/utils/schedule.rs:114-130 | the closed form is the least base + k*d at or after now |
| Schedules.FiringStoresTheNextTime | backend/src/worker/mod.rs:540-558 | a firing of "every n minutes, hours, days or weeks" stores the first time, a whole number of those after the due time, that is not past, when that is representable |
| Schedules.FiringBeforeTheStart | backend/src/utils/schedule.rs:108-123 | with the start further ahead it stores the start or its first repetition that is not past |
| Schedules.FiringOnTime | backend/src/worker/mod.rs:540-558 | a firing made exactly when due stores the time exactly one such interval later |
| Schedules.FiringWithoutRepeat | backend/src/utils/schedule.rs:57-66 | without a positive count of a known unit a firing is the last one |
| Schedules.TooLongPanics | backend/src/utils/schedule.rs:84-101 | an interval too long for a duration makes a firing fail, and a save too once the start is past or a run recorded |
| Schedules.FirstSave | backend/src/routes/workflows/helpers.rs:154-170 | the first save stores the start, or its first repetition that is not past |
| Schedules.SaveAfterRun | backend/src/routes/workflows/helpers.rs:154-170 | a later save counts the intervals from the recorded last run, and keeps that |
| Schedules.OnTimeSeries | backend/src/utils/schedule.rs:84-133 | over on-time firings the n-th due time is the start plus n times the interval |
| Schedules.OnTimeExists | backend/src/utils/schedule.rs:84-133 | and such a history exists for every n |
| Schedules.DueTimesIncrease | backend/src/worker/mod.rs:540-558 | over any firings, failed firings, saves of any configuration and disables, each firing is due at least a minute after every earlier completed one |
| Schedules.DueTimesApart | backend/src/worker/mod.rs:540-558 | it is due d later when no configuration in force since then repeats more often than every d, and never before the time of the earlier firing, so missed times are skipped |
| Schedules.FailedFiringStaysDue | backend/src/worker/mod.rs:532-555 | after a firing that failed before the row was marked, the schedule stays due at the same time until a firing completes or it is saved or disabled |
| Schedules.RefiresExactlyAfterAFailure | backend/src/worker/mod.rs:532-555 | two attempts in a row are for the same due time if and only if the first failed |
| Schedules.TwoRunsForOneDueTime | backend/src/worker/mod.rs:499-558 | over any history, a due time gets more than one run if and only if a firing failed after it had created one and a later firing created another |
| Schedules.OneDueTimeFiredTwice | backend/src/worker/mod.rs:532-555 | a history in which a failed firing and a completed one each create a run for the one due time |
| Schedules.OneShotFiresOnce | backend/src/db/postgres_workflow_repository.rs:1575-1599 | a schedule without a repeat is disabled by its first completed firing and not fired again, even after further saves, until a configuration with a repeat is saved |
| Schedules.GapAfterFiring | backend/src/worker/mod.rs:540-558 | the stored next run is an interval after the recorded last run if and only if the firing was exactly on time or the start is an interval ahead |
| Schedules.GapCanBeShort | backend/src/worker/mod.rs:540-558 | a late firing whose next run is half an interval after the recorded one |
| Schedules.GapAfterSave | backend/src/routes/workflows/helpers.rs:154-170 | after a save the next run is at least an interval after the recorded last run |
| Sessions.SessionService.GetSession | backend/src/session.rs:135-237 | the cached read, with eviction, refill and purge of expired entries |
| Sessions.SessionService.PersistSession | backend/src/session.rs:298-360 | writes table and cache, or neither when storage fails |
| Sessions.SessionService.DeleteSession | backend/src/session.rs:260-296 | evicts the cached copy, and deletes the row when storage answers |
| Sessions.StepRefines | backend/src/session.rs:135-426 | each call keeps the cache coherent and acts on the table and answers as a cacheless service does, unless it reports a failure |
| Sessions.CacheIsInvisible | backend/src/session.rs:135-426 | over any calls and storage failures, every successful answer is that of the table alone |
| Sessions.PersistStores | backend/src/session.rs:298-360 | a persist stores the session for exactly the hours asked, keeping an earlier creation time |
| Sessions.FoundUntilItExpires | backend/src/session.rs:125-237 | a stored session is found until it expires and not after, over any other calls and storage failures |
| Sessions.DeletedIsNotFound | backend/src/session.rs:260-296 | a deleted session is not found before it is stored again, over any other calls |
| Sessions.SweepDropsTheExpired | backend/src/main.rs:850-873 | a sweep drops exactly the rows that expired before it |
| Templating.TemplStr | backend/src/engine/templating.rs:3-26 | the scanning loop terminates and equals rendering the split, without looking into substituted text |
| Templating.PlaceholderIsFilled | backend/src/engine/templating.rs:8-21 | any number of "{{", any white space, an expression, any white space, "}}" is replaced by what the lookup of the bare expression answers, or by nothing |
| Templating.SplitIsTheOnlyReading | backend/src/engine/templating.rs:6-23 | every text has exactly one reading as literals and placeholders, and the split is it |
| Templating.SplitKeepsText | backend/src/engine/templating.rs:6-23 | joining the parts of the split gives the text back |
| Templating.NothingToFill | backend/src/engine/templating.rs:18-25 | text without "}}" after the first "{{" is unchanged |
| Templating.RenderConcat | backend/src/engine/templating.rs:3-26 | rendering distributes over a join that leaves no placeholder open and forms no new "{{" |
| Templating.LookupCtx | backend/src/engine/templating.rs:28-52 | the lookup loop equals following the dotted path step by step |
| Templating.DottedPathsCompose | backend/src/engine/templating.rs:28-52 | a dotted path is followed one side after the other |
| Templating.NumbersIndexLists | backend/src/engine/templating.rs:34-42 | a decimal number within a machine word, with or without a plus sign, takes that element of a list; other text takes none |
| Templating.NamesSelectFields | backend/src/engine/templating.rs:28-52 | "name.12" takes element 12 of the list under "name" |
| Templating.QuotesComeOff | backend/src/engine/templating.rs:43-47 | a path past a scalar gives its text without exactly the quotes around it |
| Runaway.Settings.SetEnabled | backend/src/runaway_protection.rs:42-78 | the in-place edit of settings of any shape yields the specified value |
| Runaway.GetAfterSet | backend/src/runaway_protection.rs:20-78 | get after set returns what was set, for every JSON value |
| Runaway.OthersUntouched | backend/src/runaway_protection.rs:20-78 | setting one workspace never changes the answer for another |
| Runaway.LastSetWins | backend/src/runaway_protection.rs:42-78 | the second of two sets for one workspace leaves no trace of the first |
| Runaway.SetsCommute | backend/src/runaway_protection.rs:42-78 | sets for distinct workspaces commute |
| Runaway.WhatSettingsMean | backend/src/runaway_protection.rs:20-40 | a bare flag holds for every workspace; flags by workspace hold for theirs, then "default", then on |
| Runaway.OnUnlessSwitchedOff | backend/src/runaway_protection.rs:20-40 | protection is on when the settings have no entry of a known shape |
| Runaway.OtherSettingsStay | backend/src/runaway_protection.rs:42-78 | setting a workspace leaves all other settings alone |

## Left out

- The leaseless claim (`claim_next_queued_run`), which takes no lease and ignores the concurrency limit.
- Postgres isolation, row locking and SKIP LOCKED: each repository call is one atomic step.
- RunQueue.RunRepository.RequeueDeadLetter: reading the letter, reading the workflow and inserting the run are one step, and deleting the letter another; a letter deleted between the reading and the insert is not modelled.
- DashMap locking in the session cache: `get_session` evicts while it still holds a reference to the entry; here every call is atomic.
- Session rows: reading back a stored row is taken to succeed whenever the statement did; a decoding error after a write took effect is not modelled.
- Creation of workflows, users and workspaces, clearing of dead letters, heartbeats, listings and counts of the run repository: easy members. Which workspaces a deleted user owns is a parameter of the deletion; a deletion the database refuses is no step.
- Runs.ExecuteRun: run events written before the loop are one storage call, not one per event; the event about rejected allowlist entries and the node-run rows are left out, since the source ignores whether they are written.
- Bodies of actions, conditions, delays and formatters, and the egress allowlist of a run: handlers are functions of the node and the context.
- Loading and decrypting the secrets of a run's owner: it succeeds with some store or fails with a message.
- Quota.QuotaService.ConsumeWorkspaceRunQuota: the Stripe usage report that follows an overage is I/O and does not touch the ledger; 64-bit overflow of the counters is not modelled.
- Schedules.ComputeNextRun: time zones and date parsing are not modelled, the start is an integer; the two timestamp conversions are folded into one representable maximum.
- Schedules.DueTimesIncrease: Notion polling schedules, which compute their next run differently; listing a due schedule and firing it is one step, so two workers that both listed it before either marked it are not modelled.
- Templating.LookupCtx: the JSON text of a non-string value is an abstract function.
- The worker loop, HTTP routes, OAuth, mail, Stripe, plan tiers, the two front ends and the test doubles.
