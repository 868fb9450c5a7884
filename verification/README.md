# Minion control plane: verified model

Minion runs software-engineering tasks: a control plane queues a task, a worker provisions a
sandbox, an agent works in it with tools, and a durable event log records what happened. This
project models the four places where that system is hardest to get right and proves what they
guarantee for every input, every interleaving and every run.

1. **Task lifecycle** (`TaskStates`, `TaskRepository`, `WorkQueue`, `Protocol`, `ProtocolSafety`,
   `LifecycleRuns`, `NoLostWork`, `LossConditions`, `FailureHandler`, `RetryWorkspace`,
   `TaskOutcomes`, `Scenarios`, `OwnSteps`, `Undisturbed`, `Orchestrator`). Workers of any number of processes take at-least-once deliveries
   and race through versioned updates with cancels, retries, crashes, reclaimed entries and startup
   scans. `Protocol` is the transition system: a row read and the guarded commit that follows it are
   separate steps, and so is everything else between two awaits. `Orchestrator` is the same
   coroutines as code, try block, handlers and all, proved to take only steps of that system while
   others act at every await.
2. **Event log** (`EventLog`, `Replay`). Appends whose row lock may not be honoured, `list_after`,
   a polling cursor and the replay-then-live WebSocket.
3. **Bounded memory and the completion gate** (`SummaryText`, `Compaction`, `ContextMemory`,
   `CompactionRuns`, `Remembered`, `ToolCalls`, `AgentLoop`, `AgentSteps`). Summaries are real strings:
   trimming, truncation, joining, printing the watermark and searching for it again are the functions the source applies.
4. **Repository index** (`PageRank`, `RankTheorems`, `Ordering`, `Text`, `Dependencies`, `ImportNames`,
   `Impact`, `IndexCache`) and **warm slots** (`SlotPool`, `WarmProvider`, `TaskWorkspaces`).

Classes carry the fields the source mutates and their methods are proved against specification
functions or against the transition system; the theorems are lemmas about those. An await in a
method is a call that lets any other participant act (`Suspend`, `Interfere`) and from which any
exception may come. What such a method promises whatever happens is not all: where the constant
`undisturbed` says that nobody else acts and no await raises, it also promises that it gets there,
and in which state.

## What was found on the way

Promises that the code keeps only under a condition, each with a lemma that gives the exact
condition and, where the failure needs a run, a reachable one.

- Work can be lost in three ways and no other: by a retry while an earlier execution is unwinding or
  a cancel is about to signal (`LossConditions.RetryLosesWorkExactly`), by a KeyError or RuntimeError
  that the failure handler swallows while the row is active
  (`LossConditions.SwallowLosesWorkExactly`), and by a request that dies between its commit and its
  put when nothing else will bring the task back (`LossConditions.DroppedPutLosesWorkExactly`).
  Without these nothing is lost (`NoLostWork.WorkIsNeverLost`). All are reachable
  (`Scenarios.UnwindingHappens`, `SignalHappens`, `SwallowHappens`, `DroppedPutHappens`).
- `InvalidStateTransition` is no `RuntimeError`, so a lost race inside the failure handler kills the
  worker and leaves the entry pending, exactly when the row moved since the handler read it
  (`FailureHandler.LostRaceKillsExactly`, `Scenarios.LostRaceHappens`).
- The directory of a FAILED task is where the retry's `attach` looks if and only if no execution that
  held it left its finally block early or crashed (`RetryWorkspace.RetryFindsWorkspaceExactly`,
  `Scenarios.StrandingHappens`); otherwise its slot is lost as well
  (`TaskWorkspaces.RetryAttachesExactly`).
- The cached object of a file is keyed by its bytes alone, while extraction also looks at the suffix
  (`IndexCache.CacheIsTransparentExactly`, `IndexCache.SuffixesMatter`).
- Compacting in several steps differs from compacting once exactly when white space precedes a batch
  boundary inside the kept text (`Compaction.IncrementalIsOneShotExactly`); truncating early is
  harmless (`Compaction.TruncatingEarlyIsHarmless`).
- The watermark is searched for from the front of the summary, so a payload that quotes a marker is
  parsed instead of the real one (`SummaryText.WatermarkParsesExactly`,
  `CompactionRuns.QuotedMarkerMisleads`).
- Compacted ranges tile the log exactly when every store worked on the current watermark, and a store
  lowers the watermark exactly when it aims below it (`CompactionRuns.CompactionsTileExactly`,
  `CompactionRuns.WatermarkFallsExactly`, `CompactionRuns.OverlapMovesWatermarkBack`); the summary
  stays that of its watermark all the same (`CompactionRuns.SummaryDependsOnWatermarkOnly`).
- Important events beyond the first 10,000 of a range are dropped
  (`CompactionRuns.NothingDroppedExactly`, `CompactionRuns.ImportantEventDropped`).
- The completion gate sees a tool's success only among the first 10,000 events of the log: a task
  whose evidence comes later can never finish (`AgentLoop.GateOpensExactly`,
  `AgentLoop.EvidenceIsIgnoredExactly`, `AgentLoop.LateEvidenceIsRefused`).
- The WebSocket is gap-free exactly when the replayed page reaches the first live message
  (`Replay.WebSocketIsGapFreeExactly`, `Replay.LongBacklogIsCut`).
- An entry of a task that is CANCELLING or WAITING_FOR_USER, once a worker executes it undisturbed,
  has the agent work to its end and the task FAILED, since neither status may complete
  (`Orchestration.Orchestrator.Execute`, predicate `Undisturbed.Concluded`).
- A prompt budget below 2 does not bound the prompt (`ContextMemory.PromptIsBounded`, `ContextMemory.PromptKeepsBothEnds`).

## Model

| member | source | states |
|---|---|---|
| TaskStates.AbsorbingStays | src/minion/state_machine.py:11-37 | a path of allowed transitions and self-loops that visits COMPLETED or CANCELLED stays there |
| TaskStates.PathNeverRestarts | src/minion/state_machine.py:11-37 | nothing on a path of allowed transitions ever returns to CREATED |
| TaskStates.FailedIsLeftByRetry | src/minion/state_machine.py:11-37 | after FAILED a path stays there or goes to QUEUED |
| TaskStates.TableReadBackwards | src/minion/state_machine.py:11-37 | a transition is allowed exactly from the statuses its target can be entered from |
| TaskStates.AbsorbingHasNoWayOut | src/minion/state_machine.py:11-37 | no way leads out exactly of COMPLETED and CANCELLED, and only the retry out of FAILED |
| TaskStates.CompletedWentThrough | src/minion/state_machine.py:11-37 | a path comes to COMPLETED only through QUEUED, PROVISIONING and RUNNING |
| TaskRepository.CommitContinuesPath | src/minion/repositories.py:87-136 | whatever stale row the caller saw, a successful versioned update continues the table's real status path by one allowed step and one version |
| TaskRepository.CommitStores | src/minion/repositories.py:103-128 | a committed update stores environment, error and result as passed and keeps what was not passed; a retry forgets error and result, however old the caller's copy |
| TaskRepository.TaskTable.Transition | src/minion/repositories.py:87-136 | unknown task, forbidden target and changed version are rejected without effect; otherwise exactly one row moves, by one version, along the transition table, and holds what was passed |
| TaskRepository.TaskTable.ReplaceEnvironment | src/minion/repositories.py:138-152 | only the environment column changes, so every versioned update that was going to succeed or fail still does |
| TaskRepository.TaskTable.ListActive | src/minion/repositories.py:154-167 | the startup scan sees exactly the tasks that left CREATED and are not over |
| WorkQueue.RedisStreamWorkQueue.PutTask | src/minion/queue.py:74-75 | a put adds one unread entry under an identifier never used before |
| WorkQueue.RedisStreamWorkQueue.Get | src/minion/queue.py:77-108 | a delivery is a stale pending entry if there is one, else the oldest unread one; it stays pending until acknowledged |
| WorkQueue.RedisStreamWorkQueue.AckEntry | src/minion/queue.py:110-112 | an acknowledgement removes exactly that entry, leaves all others as they are, and does nothing the second time |
| ProtocolSafety.StepKeepsSafe | src/minion/orchestrator.py:98-435 | every step of executions, workers, requests, scans and crashes keeps status path, terminal agreement, logged evidence and safe destruction |
| LifecycleRuns.TransitionsAreLinearizable | src/minion/repositories.py:87-152 | in every run the committed statuses of a task form a path from CREATED, the version counts its steps, and later paths extend earlier ones |
| LifecycleRuns.FinishedForever | src/minion/state_machine.py:11-37 | a task seen COMPLETED or CANCELLED keeps that status for the rest of the run |
| LifecycleRuns.TerminalEventsAgree | src/minion/orchestrator.py:142-380 | TASK_COMPLETED in the log means COMPLETED now and forever, TASK_CANCELLED means CANCELLED forever, and no log holds both |
| LifecycleRuns.CompletionIsBacked | src/minion/orchestrator.py:336-366 | a COMPLETED task has ok `run_command` and `git_diff` events in its log, before every TASK_COMPLETED, and both tools really succeeded |
| LifecycleRuns.DestroyedMeansFinished | src/minion/orchestrator.py:413-431 | a workspace is deleted only for a task that is COMPLETED or CANCELLED for good |
| LifecycleRuns.CrashForgetsMemoryOnly | src/minion/orchestrator.py:172-194 | a crash forgets the executions, requests and duplicates of its own process; row, log, stream and other processes stay |
| TaskOutcomes.StepKeepsFilled | src/minion/repositories.py:103-128 | every step keeps a result in the row exactly while COMPLETED and an error exactly while FAILED |
| TaskOutcomes.OutcomesAreStored | src/minion/repositories.py:103-128 | in every run a task has a result if and only if it is COMPLETED and an error if and only if it is FAILED |
| OwnSteps.CancellationIsRecorded | src/minion/orchestrator.py:369-431 | every uninterrupted run of the cancellation handler on a CANCELLING row ends CANCELLED, with TASK_CANCELLED logged, the workspace deleted and the cancellation raised |
| OwnSteps.FailureIsRecorded | src/minion/orchestrator.py:382-431 | every uninterrupted run of the failure handler on a task that is not over ends FAILED with an error, with TASK_FAILED logged, the workspace kept and no exception |
| OwnSteps.CompletionIsRecorded | src/minion/orchestrator.py:338-431 | every uninterrupted run after the agent's return on a RUNNING task ends COMPLETED with a result, with TASK_COMPLETED logged and the workspace deleted |
| OwnSteps.HandlersFinish | src/minion/orchestrator.py:369-431 | from every point of the handlers and the finally block such a run exists |
| NoLostWork.StepKeepsKept | src/minion/orchestrator.py:98-194 | every guarded step keeps the work of an active task covered; the guard speaks of committing retries, swallowed errors and requests that die before their put, and of nothing else |
| NoLostWork.WorkIsNeverLost | src/minion/orchestrator.py:98-194 | in every guarded run a QUEUED, PROVISIONING or RUNNING task has an entry to be delivered, an execution that will look at it again, a put about to happen, or the death of a worker or process since the last scan; the death of a request is no excuse |
| LossConditions.UnwindingLosesActive | src/minion/orchestrator.py:172-194 | whatever else would still come back to an active task, it can be lost while one of its executions is on the way out |
| LossConditions.RetryLosesWorkExactly | src/minion/orchestrator.py:129-194 | in every kept state of a FAILED task a retry can end in a lost task if and only if an execution is unwinding or a cancel is about to signal |
| LossConditions.SwallowLosesWorkExactly | src/minion/orchestrator.py:382-411 | in every kept state the swallowing of KeyError and RuntimeError in the failure handler can lose the task if and only if its row is still QUEUED, PROVISIONING or RUNNING |
| LossConditions.DroppedPutLosesWorkExactly | src/minion/orchestrator.py:112-114 | in every kept state a submit, retry or scan that dies between its commit or read and its put can lose the task if and only if the task is active and that put was all there was to bring it back |
| FailureHandler.LostRaceKillsExactly | src/minion/orchestrator.py:382-411 | in every run the step that records a failure kills its execution if and only if somebody committed a transition since the handler read the row |
| FailureHandler.DeadWorkerLeavesEntry | src/minion/orchestrator.py:172-194 | a killed worker cannot acknowledge: its death leaves stream and row as they are |
| RetryWorkspace.StepKeepsLocated | src/minion/orchestrator.py:253-435 | every step keeps directories and executions in agreement: what an execution holds is in its slot and nothing else is |
| RetryWorkspace.StrandedExactly | src/minion/orchestrator.py:413-435 | a directory is stranded exactly by a step that leaves the finally block without the release or crashes the process that holds it |
| RetryWorkspace.RetryFindsWorkspaceExactly | src/minion/orchestrator.py:129-435 | in every run a FAILED task that was RUNNING and has no execution left names an undeleted environment, and it is where attach looks if and only if no step ever ended an execution that held it without a release; a stranded directory stays so until the archiving at the next start |
| RetryWorkspace.NothingDeletedBeforeTheEnd | src/minion/orchestrator.py:413-431 | as long as a task can be retried or resumed none of its workspaces has been deleted |
| TaskWorkspaces.AllocateMirrors | src/minion/runtime/workspace.py:358-379 | allocating moves task and provider together: the new directory is in a slot on both sides |
| TaskWorkspaces.AttachMirrors | src/minion/runtime/workspace.py:381-408 | so does a successful attach |
| TaskWorkspaces.ReleaseMirrors | src/minion/runtime/workspace.py:410-424 | so does the release at the end of an execution, kept or destroyed |
| TaskWorkspaces.RetryAttachesExactly | src/minion/runtime/workspace.py:381-408 | with a slot free the attach of a retry finds the directory exactly when the environment is in the persistent root; a stranded one is not found and its workspace keeps a slot |
| Scenarios.TaskCanComplete | src/minion/orchestrator.py:98-435 | from creation, guarded steps lead to a COMPLETED task with its event logged, its workspace deleted and its entry acknowledged |
| Scenarios.TaskCanBeCancelled | src/minion/orchestrator.py:142-431 | and to a RUNNING task that is cancelled: CANCELLED, reported, its workspace deleted and its entry acknowledged |
| Scenarios.UnwindingHappens | src/minion/orchestrator.py:129-194 | a reachable state in which a retry can lose the task because an execution is unwinding |
| Scenarios.SignalHappens | src/minion/orchestrator.py:129-194 | a reachable state in which it can because a cancel is about to signal |
| Scenarios.SwallowHappens | src/minion/orchestrator.py:382-411 | a reachable state in which a swallowed error can lose the task |
| Scenarios.DroppedPutHappens | src/minion/orchestrator.py:98-116 | a reachable state in which the death of the submit loses the task |
| Scenarios.LostRaceHappens | src/minion/orchestrator.py:382-411 | a reachable run in which a cancel wins the race, the worker dies and the entry stays pending |
| Scenarios.StrandingHappens | src/minion/orchestrator.py:413-435 | a reachable run after which the directory that a FAILED task names is stranded in a slot |
| Orchestration.Orchestrator.constructor | src/minion/orchestrator.py:98-111 | a new task starts as its creating request leaves it |
| Orchestration.Orchestrator.Suspend | src/minion/orchestrator.py:172-194 | at an await others may do anything except take this coroutine's own steps; it may find itself signalled, and history and log only grow |
| Orchestration.Orchestrator.Transition | src/minion/repositories.py:87-136 | the update inside an execution succeeds exactly when the cached row allows it and is current, and then moves row and history by one |
| Orchestration.Orchestrator.NeverStarts | src/minion/orchestrator.py:184-194 | a cancellation before the first step ends the coroutine outside its try block, with the row as it was |
| Orchestration.Orchestrator.ReadFirst | src/minion/orchestrator.py:259-271 | a task already over is left alone, and only such a task; a QUEUED one goes on to be claimed, any other is resumed |
| Orchestration.Orchestrator.ClaimQueued | src/minion/orchestrator.py:270-271 | going on means the row is PROVISIONING and this execution holds that row |
| Orchestration.Orchestrator.GetWorkspace | src/minion/orchestrator.py:273-290 | going on means there is a workspace: the one the row names, moved out of the persistent root, or one with an unused identifier and its allocation event logged |
| Orchestration.Orchestrator.AnnounceWorkspace | src/minion/orchestrator.py:285-290 | going on means the allocation is the last event; if the append fails the execution still holds the workspace |
| Orchestration.Orchestrator.BindWorkspace | src/minion/orchestrator.py:292-304 | a PROVISIONING task is RUNNING with this workspace, a resumed one names it; undisturbed, a current row does get there |
| Orchestration.Orchestrator.RunAgent | src/minion/orchestrator.py:336 | the agent hands over a result only with evidence in the log, else the run fails |
| Orchestration.Orchestrator.Complete | src/minion/orchestrator.py:338-367 | a normal end means the row is COMPLETED and TASK_COMPLETED is in the log; undisturbed, exactly a task that may complete gets there, with this result in its row and event |
| Orchestration.Orchestrator.HandleFailure | src/minion/orchestrator.py:382-411 | a failure handler that returns normally leaves a task that is or was terminal, unless it swallowed a KeyError or RuntimeError; undisturbed, a task not over is FAILED with this error and reported |
| Orchestration.Orchestrator.HandleCancellation | src/minion/orchestrator.py:369-380 | a cancellation handler never returns normally; undisturbed, a CANCELLING task is CANCELLED and reported, any other left alone |
| Orchestration.Orchestrator.Finalize | src/minion/orchestrator.py:413-435 | cleanup never turns an abnormal end into a normal one; undisturbed, a held workspace is deleted for a COMPLETED or CANCELLED task and kept for any other |
| Orchestration.Orchestrator.Execute | src/minion/orchestrator.py:253-435 | every path through try, handlers and finally is a run of the transition system, and a normal return without a swallowed error means the task has been COMPLETED, FAILED or CANCELLED; undisturbed, an active task with evidence ends COMPLETED with its result, any other that is not over FAILED with the error, and one that is over is left alone |
| Orchestration.Orchestrator.WorkOn | src/minion/orchestrator.py:172-194 | one round of the worker loop: an entry counts as a duplicate exactly when this process runs the task, any other is executed to its end; a normal outcome means the task has been terminal unless an error was swallowed, a fatal one is a death on record; undisturbed, the entry is gone afterwards and no other |
| Orchestration.Orchestrator.Enqueue | src/minion/orchestrator.py:112-116 | the ends of submit and retry: an entry is returned only if it is in the stream, unread, and QUEUED has been committed; undisturbed, it is returned exactly when the transition is allowed |
| Orchestration.Orchestrator.Retry | src/minion/orchestrator.py:129-140 | a task that is not FAILED is untouched; otherwise success means a new unread entry; undisturbed, a FAILED task is QUEUED without error and result and has one more entry |
| Orchestration.Orchestrator.RequestCancel | src/minion/orchestrator.py:142-161 | a finished task is untouched; otherwise success means CANCELLING was committed and the execution of this process is signalled or over, or the row is CANCELLED and the log says so; undisturbed, one of the two happens exactly to a task that was queued once and is not over |
| Orchestration.Orchestrator.Reconcile | src/minion/orchestrator.py:163-170 | the startup scan puts a new unread entry for a task it finds active or waiting, cancels one it finds CANCELLING and leaves any other alone; undisturbed, it does |
| EventLog.StepAppends | src/minion/events.py:92-131 | a step appends one event at the end exactly when it commits an append whose read is still current, and otherwise leaves the log alone |
| EventLog.AlwaysGapFree | src/minion/models.py:101-108 | in every reachable state, aborted appends included, the committed sequences are exactly 1..last, even with no row lock |
| EventLog.AppendsAreLinearizable | src/minion/events.py:92-131 | the log is the list of successfully committed events in commit order |
| EventLog.AnswerIsSlice | src/minion/events.py:133-154 | filter, order and limit have exactly one answer on a gap-free table, the slice after the cursor |
| EventLog.EventStore.ReadSequence | src/minion/events.py:99-103 | an unknown session is an error, else the next number is one beyond the log |
| EventLog.EventStore.CommitAt | src/minion/events.py:104-131 | a commit at the next number appends the event, a stale number is rejected by the index without effect |
| EventLog.EventStore.Append | src/minion/events.py:92-131 | under the lock every append succeeds and returns its position |
| Replay.PollingIsExact | src/minion/events.py:133-154 | polling from the last returned sequence while others append yields every event once and in order, whatever the page sizes |
| Replay.PollingAdvances | src/minion/events.py:133-154 | a poll with a positive limit advances until the end of the log |
| Replay.TaskEvents | src/minion/api.py:149-172 | for any lost, duplicated or reordered live messages what is sent strictly increases above `after`, and a live message is sent exactly when it is the highest so far |
| Replay.WebSocketIsGapFreeExactly | src/minion/api.py:156-170 | with an in-order live feed the client misses nothing if and only if the replayed page reaches the first live message |
| Replay.LongBacklogIsCut | src/minion/api.py:156-170 | a client more than 500 events behind gets the next 500 and what is live, and nothing in between |
| SummaryText.DecimalParsesBack | src/minion/runtime/context.py:378-386 | printing a number and parsing it gives the number |
| SummaryText.ValueIsPositional | src/minion/runtime/context.py:378-386 | digits count by position, in tens |
| SummaryText.MarkersOfJoin | src/minion/runtime/context.py:467-472 | joining lines makes a marker only where a line had one |
| SummaryText.WatermarkParsesExactly | src/minion/runtime/context.py:378-386 | the stored watermark parses back if and only if the body in front has no marker or its first marker shows the same number |
| SummaryText.BodyIsRecovered | src/minion/runtime/context.py:462-466 | removing the final marker always gives the body back |
| Compaction.TruncationCommutes | src/minion/runtime/context.py:467-477 | truncating before appending changes nothing once the result is truncated again |
| Compaction.NewSummaryIsStamped | src/minion/runtime/context.py:467-477 | a compaction stores the last 12,000 characters, left-stripped, under its watermark |
| Compaction.KeptExactly | src/minion/runtime/context.py:473-477 | what is kept is the longest end of at most 12,000 characters that does not begin with white space |
| Compaction.StoredText | src/minion/runtime/context.py:467-481 | the stored summary, character for character, down to its watermark line |
| Compaction.TruncatingEarlyIsHarmless | src/minion/runtime/context.py:462-477 | after any compactions at any watermarks the body is one truncation of the untruncated text |
| Compaction.IncrementalIsOneShotExactly | src/minion/runtime/context.py:462-477 | batchwise compaction equals one compaction of all lines if and only if no batch boundary within the kept text follows white space |
| Compaction.TidyLinesAreClean | src/minion/runtime/context.py:418-460 | lines without trailing white space always give equality |
| Compaction.BoundarySpaceIsLost | src/minion/runtime/context.py:462-477 | any two one-line batches whose first line ends in white space differ from the one-shot body |
| Compaction.MergingMakesNoMarker | src/minion/runtime/context.py:467-473 | a body has a marker only if the body before it or a new line had |
| ContextMemory.LinesSplit | src/minion/runtime/context.py:418-460 | lines of adjacent ranges are the lines of the whole range |
| ContextMemory.DueExactly | src/minion/runtime/context.py:390-412 | a compaction is due exactly from the threshold on, when more events lie beyond the watermark than stay in view |
| ContextMemory.ContextManager.MaybeCompact | src/minion/runtime/context.py:388-487 | both early returns change nothing; otherwise the summary is that of the range up to the watermark whatever arrived meanwhile, and the log gains one CONTEXT_COMPACTED |
| ContextMemory.ContextManager.RecentEvents | src/minion/runtime/context.py:501-516 | the events shown are numbered without a gap, lie beyond the watermark, are at most as many as the setting, and are all events beyond the floor when at most 1000 are |
| ContextMemory.WindowIsSuffixExactly | src/minion/runtime/context.py:501-516 | the window is contiguous, beyond the watermark and no longer than the setting; it ends with the log exactly when at most 1000 events lie beyond its floor, and meets the summary exactly when the watermark is not behind |
| ContextMemory.PromptIsBounded | src/minion/runtime/context.py:572-585 | an oversized prompt is cut to budget plus elision mark exactly when the budget is at least 2 |
| ContextMemory.PromptKeepsBothEnds | src/minion/runtime/context.py:572-585 | it keeps the first and last half of the budget around the mark; a budget below 2 repeats the whole text |
| CompactionRuns.MergeInSteps | src/minion/runtime/context.py:467-472 | merging tidy lines in two steps is merging them in one |
| CompactionRuns.CompactionIsCanonical | src/minion/runtime/context.py:388-481 | compacting the one-shot summary of w gives the one-shot summary of the new watermark |
| CompactionRuns.SummaryDependsOnWatermarkOnly | src/minion/runtime/context.py:388-481 | for any interleaving of appends and overwriting compactors over tidy lines the summary is the one-shot summary of the watermark it shows, which leaves the recent events out |
| CompactionRuns.WatermarkFallsExactly | src/minion/runtime/context.py:388-481 | the watermark after a due store is the one its draft aimed at, so it falls if and only if that is below the one the summary shows |
| CompactionRuns.LastRangeEndsAtWatermark | src/minion/runtime/context.py:396-421 | in every run over tidy lines the watermark is the end of the last compacted range, overlaps or not |
| CompactionRuns.CompactionsTileExactly | src/minion/runtime/context.py:396-421 | in every run over tidy lines the compacted ranges are consecutive, disjoint, nonempty and cover exactly 1..watermark if and only if every store worked on the current watermark |
| CompactionRuns.CompactionsTile | src/minion/runtime/context.py:396-421 | so they do when every executor between read and store has read the current summary |
| CompactionRuns.OverlapMovesWatermarkBack | src/minion/runtime/context.py:388-481 | from any sound state in which a compaction is due, two overlapping ones can lower the watermark |
| CompactionRuns.QuotedMarkerMisleads | src/minion/runtime/context.py:378-481 | a reachable run in which a user message quoting a marker makes the summary claim the quoted number |
| CompactionRuns.NothingDroppedExactly | src/minion/runtime/context.py:413-421 | a range is summarised whole if and only if nothing important lies beyond its first 10,000 events |
| CompactionRuns.ImportantEventDropped | src/minion/runtime/context.py:413-421 | a reachable run whose summary of events 1..10,001 is a bare watermark although event 10,001 is important, whichever important event that is |
| Remembered.EventLeavesLine | src/minion/runtime/context.py:418-460 | which events leave a line, and the line to the character: number, name and the first 1200 characters of payload or output |
| Remembered.CompactedIsRemembered | src/minion/runtime/context.py:388-481 | in every reachable state whose lines fit into 12,000 characters the summary shows the line of every event up to the watermark that leaves one |
| Remembered.CommandOutputIsRemembered | src/minion/runtime/context.py:439-481 | such a summary shows what a successful `run_command` put out |
| ToolCalls.MutatingIsOrdered | src/minion/runtime/tools.py:424-619 | no mutating tool is parallel safe or a control tool |
| ToolCalls.OrderedRunsAlone | src/minion/runtime/agent.py:113-168 | when a call that is not parallel safe begins nothing else is running, and nothing happens until it returns |
| ToolCalls.MutationsStayOrdered | src/minion/runtime/agent.py:113-168 | mutating calls begin in the order the model issued them and none is skipped |
| AgentLoop.OrderedTurnIsSequential | src/minion/runtime/agent.py:121-132 | a turn with a mutating, unknown or MCP call is never run as a batch |
| AgentLoop.BatchExactly | src/minion/runtime/agent.py:121-132 | a turn is run as a batch if and only if it has several calls and all are of the read-only tools |
| AgentLoop.EvidenceIsReal | src/minion/runtime/agent.py:68-95 | evidence in the log is that of successful executions of both tools |
| AgentLoop.GateOpensExactly | src/minion/runtime/context.py:323-372 | for every log and all arguments the gate opens if and only if a summary and a text are given and both tools succeeded within the first 10,000 events; it accepts the given summary and exactly the nonempty texts |
| AgentLoop.EvidenceIsIgnoredExactly | src/minion/runtime/context.py:323-372 | on a log with evidence a complete call is refused exactly when the first success of a tool comes after the first 10,000 events |
| AgentLoop.LateEvidenceIsRefused | src/minion/runtime/context.py:336-338 | a log with evidence on which no call is ever accepted, however the log goes on |
| AgentLoop.CodingAgent.FinishTask | src/minion/runtime/context.py:323-372 | the loops over texts and history decide exactly as the gate |
| AgentLoop.CodingAgent.RunExternalCall | src/minion/runtime/agent.py:68-111 | going on means exactly this call has run to its end and its result is in the log as it came out, a checkpoint with its own event; every success in the log stays one of a tool that worked |
| AgentLoop.CodingAgent.RunControlCall | src/minion/runtime/agent.py:142-164 | a control call ends the run only as an accepted `finish_task`, with its own summary and texts and with evidence in the log; one that was ready is never passed over |
| AgentLoop.CodingAgent.RunBatch | src/minion/runtime/agent.py:133-141 | for every interleaving of starts, returns and recordings a completed batch records a permutation of its calls, each result as it came out |
| AgentLoop.CodingAgent.ExecuteTurnTools | src/minion/runtime/agent.py:113-168 | a sequential turn's results are a prefix of its calls, a completed turn's a permutation, with every call announced and every external result in the log as it came out; only an accepted `finish_task` of the turn ends the run; undisturbed, a turn is cut short only by a `finish_task` without summary |
| AgentLoop.CodingAgent.Run | src/minion/runtime/agent.py:170-223 | for every model and tool behaviour a run takes at most max_steps steps, runs exactly the calls of the turns it took, mutations in issued order, and returns only with real evidence in the log and with summary and texts of a `finish_task` call of its last turn; no ready call before that was passed over, and undisturbed it fails only out of steps or for want of a summary |
| AgentSteps.OthersAreFollowed | src/minion/runtime/agent.py:52-168 | every step of others, silent or not, keeps the agent in step, and acts of others account for what it emits |
| AgentSteps.DeedIsFollowed | src/minion/runtime/agent.py:52-168 | whatever the agent writes next, one step of the execution writes it, for a tool's result after the tool ran |
| AgentSteps.LogsAgree | src/minion/runtime/agent.py:170-223 | over every interleaving of the agent's deeds, running tools and steps of others the log of the task is the log the agent knows |
| AgentSteps.ResultLetsExecutionFinish | src/minion/orchestrator.py:336-357 | the evidence a returning run guarantees is what lets the execution go on to COMPLETED |
| SlotPool.StepKeepsSound | src/minion/runtime/workspace.py:355-424 | every step of claim, allocate, attach and release, failures included, keeps slots and directories consistent |
| SlotPool.SlotsAreConserved | src/minion/runtime/workspace.py:355-424 | over all interleavings every slot is in exactly one of the pool, one operation or one live workspace, and a pooled slot is empty |
| SlotPool.OnePlaceAtATime | src/minion/runtime/workspace.py:381-424 | an environment is in at most one slot or the persistent root, and release never removes an existing target |
| SlotPool.OnlyDiscardedIsLost | src/minion/runtime/workspace.py:358-424 | a directory disappears exactly when its workspace is destroyed or its population fails |
| SlotPool.KeptIsAttachable | src/minion/runtime/workspace.py:381-424 | a kept environment can be attached again in a slot of its own |
| WarmProvider.DockerEnvironmentProvider.Allocate | src/minion/runtime/workspace.py:358-379 | success hands out a slot that holds just this environment, failure leaves nothing on disk and returns the slot; undisturbed, with a slot waiting it is the first of the queue, and success depends on the copy alone |
| WarmProvider.DockerEnvironmentProvider.Attach | src/minion/runtime/workspace.py:381-408 | no persistent directory gives none without effect, success moves it into a slot, an unhealthy one is moved back; undisturbed, success depends on move and health alone and takes the first slot |
| WarmProvider.DockerEnvironmentProvider.Release | src/minion/runtime/workspace.py:410-424 | the slot goes to the end of the pool, empty; the directory is gone or persistent; other workspaces are untouched |
| PageRank.BuildIncoming | src/minion/runtime/code_index.py:343-349 | the incoming lists are the reversed edges, with multiplicity |
| PageRank.Pass | src/minion/runtime/code_index.py:350-361 | one pass of the loops is the one-step map |
| PageRank.Compute | src/minion/runtime/code_index.py:335-362 | the loops compute the iterated map from the uniform start |
| RankTheorems.Exchange | src/minion/runtime/code_index.py:350-361 | summing over incoming edges equals summing over outgoing ones |
| RankTheorems.RankFloor | src/minion/runtime/code_index.py:350-362 | every rank is at least 0.15/n after any number of iterations |
| RankTheorems.UnimportedRankExactly | src/minion/runtime/code_index.py:350-362 | after at least one iteration a file has rank exactly 0.15/n if and only if no indexed file imports it |
| RankTheorems.MassAtMostOne | src/minion/runtime/code_index.py:350-362 | the total rank never exceeds 1 |
| RankTheorems.MassExactlyOne | src/minion/runtime/code_index.py:350-362 | after at least one iteration the total is 1 if and only if no file is dangling and no edge leaves the node list |
| RankTheorems.NextContracts | src/minion/runtime/code_index.py:350-362 | one iteration shrinks the L1 distance of any two rank vectors by 0.85 |
| RankTheorems.Converges | src/minion/runtime/code_index.py:350-362 | after k iterations the ranks are within 0.85^k of the initial distance to a fixed point |
| RankTheorems.FixedPointUnique | src/minion/runtime/code_index.py:350-362 | there is at most one fixed point |
| Dependencies.Resolve | src/minion/runtime/code_index.py:294-333 | the lookup index gives target as an edge of source exactly when they differ and some token of source yields the target's stem, slash module or dotted module, sorted and without duplicates |
| ImportNames.FileNames | src/minion/runtime/code_index.py:301-306 | stem, slash module and dotted module of `dir/base.ext` |
| ImportNames.WordImportExactly | src/minion/runtime/code_index.py:309-324 | a bare word names exactly the files whose stem or module it is |
| ImportNames.DottedImportExactly | src/minion/runtime/code_index.py:309-324 | a dotted import names exactly the files that its last component, its package or the whole of it names |
| ImportNames.PathImportExactly | src/minion/runtime/code_index.py:309-324 | a path import names exactly the files that the whole path or its last component names, and after a final `index` also those of the directory |
| ImportNames.SuffixedImport | src/minion/runtime/code_index.py:309-324 | a path import with suffix names the files with its stem |
| ImportNames.LeadingDotsAreIgnored | src/minion/runtime/code_index.py:311 | leading dots and slashes make no difference |
| ImportNames.CaseIsIgnored | src/minion/runtime/code_index.py:303-311 | the case of letters makes no difference |
| ImportNames.DottedImportIsEdge | src/minion/runtime/code_index.py:294-333 | a dotted import is an edge to every other indexed file with its last component as stem |
| ImportNames.PackageImportIsEdge | src/minion/runtime/code_index.py:294-333 | in this repository's own layout `minion.runtime.agent` is an edge to src/minion/runtime/agent.py |
| Impact.LayerIsDistance | src/minion/runtime/code_index.py:605-630 | a layer is exactly the files at one shortest reverse-dependency distance |
| Impact.MatchesExactly | src/minion/runtime/code_index.py:595-603 | a target means a file exactly when it is part of its path or one of its symbols, whatever the case |
| Impact.StoppedBallIsClosure | src/minion/runtime/code_index.py:613-629 | a search that finds nothing new has found the whole reverse closure |
| Impact.FrontierSuffices | src/minion/runtime/code_index.py:613-629 | looking at the last layer only finds all new dependents |
| Impact.ImpactAnalysis | src/minion/runtime/code_index.py:589-636 | layers are the sorted distance classes up to min(depth, 5), and an early stop yields the whole closure |
| Ordering.OrderIsUnique | src/minion/runtime/code_index.py:294-333 | a set of paths has one sorted listing |
| Ordering.LexicalExactly | src/minion/runtime/code_index.py:331 | names are ordered by the first character in which they differ, a prefix first |
| Ordering.OrderMeans | src/minion/runtime/code_index.py:620-626 | higher ranks come first, equal ranks by name |
| Ordering.Sort | src/minion/runtime/code_index.py:294-333 | sorting lists exactly the set, in order |
| IndexCache.BuildKeepsObjects | src/minion/runtime/code_index.py:364-452 | a build overwrites no stored object and adds exactly the contents it meets |
| IndexCache.BuildCounts | src/minion/runtime/code_index.py:364-452 | parsed plus reused is the number of indexed files, and the store grows by the parsed ones |
| IndexCache.ParsedAreNewContents | src/minion/runtime/code_index.py:364-452 | parsed is the number of distinct contents not stored before |
| IndexCache.CacheIsTransparentExactly | src/minion/runtime/code_index.py:364-452 | a build over any store equals a cold parse if and only if every file's bytes extract alike under its own path and under the path they were first seen at, in the store or earlier in the tree |
| IndexCache.BuiltIsColdExactly | src/minion/runtime/code_index.py:364-452 | the same for whole manifests: facts, edges and ranks |
| IndexCache.ConsistentCacheIsTransparent | src/minion/runtime/code_index.py:364-452 | equal bytes only under equal suffixes make the store invisible |
| IndexCache.SuffixesMatter | src/minion/runtime/code_index.py:269-292 | for any bytes under any two suffixes some extraction makes the second file inherit wrong facts |
| IndexCache.ManifestIsUnique | src/minion/runtime/code_index.py:364-452 | a tree has one manifest, whatever the store held |
| IndexCache.ManifestSaysExactly | src/minion/runtime/code_index.py:269-292 | a manifest has a tracked file exactly when it is a regular text file of at most 1,000,000 bytes with no zero among its first 8192, and then says digest, size and what its own text yields |
| IndexCache.OrderFollowsTree | src/minion/runtime/code_index.py:364-452 | files are listed in tracking order |
| IndexCache.ManifestIsNearFixpoint | src/minion/runtime/code_index.py:335-362 | its 20 iterations bring the ranks within 3.9 percent of the initial distance to any fixed point |
| IndexCache.ManifestMass | src/minion/runtime/code_index.py:335-452 | the ranks of any manifest, whatever the store, sum to 1 exactly when every file resolves a dependency |
| IndexCache.RepositoryContextIndex.EnsureIndex | src/minion/runtime/code_index.py:364-452 | over any history of builds an indexed commit is built once, the counters and stored contents are as promised, and its manifest is that of a cold build if and only if its files extracted alike over the store of that moment |

## Left out

- Orchestration.Orchestrator.HandleCancellation: that CANCELLED is committed and logged is promised when nobody else acts; with others acting a handler may be interrupted or lose the row, and OwnSteps says what its own steps come to.
- Orchestration.Orchestrator.Suspend: a crash of the own process simply ends the method; what follows a crash is in Protocol only, as is the step in which shutdown stops an execution.
- Orchestration.Orchestrator.GetWorkspace: the look-up of the directory and the attach or allocation are one step of the task; a directory that comes back in between is not waited for.
- Replay.WebSocketIsGapFreeExactly: assumes an in-order live feed; arbitrary feeds are the subject of Replay.TaskEvents.
- CompactionRuns.SummaryDependsOnWatermarkOnly: assumes lines with no marker and no trailing white space, and no important event beyond a range's first 10,000; the exact conditions are separate lemmas. The tiling and watermark lemmas assume the same.
- IndexCache.RepositoryContextIndex.EnsureIndex: assumes a worktree that matches its HEAD; the locked build is one step that stores its objects at the end, and file locks, JSON encoding and corrupt-file recovery are not modelled.
- Protocol models coroutines on values because their steps interleave at every await; one task at a time, since tasks meet only in processes, crashes and startup scans, which LifecycleRuns adds.
- In the failure handler KeyError and RuntimeError are swallowed and every other error kills the worker; which storage error has which type is left open.
- The publisher, the environment table, heartbeats and pre-indexing appear only as events and as exceptions that may come out of an await.
- When one call of a parallel batch raises, `asyncio.gather` leaves its siblings running; the model ends the turn there.
- The in-memory queue and event bus; delivery after the visibility timeout is an arbitrary redelivery of a pending entry.
- Moves between slot and persistent root are atomic and removals effective; each workspace is released once. Container creation, shutdown and the archiving of stale slots at the next start are left out, so a stranded directory stays stranded here until then.
- Ranks are reals, SHA-256 is injective, and extraction of symbols, imports and previews is an arbitrary function of suffix and bytes.
- Text operations treat letters and digits as ASCII: `lower()` and the regular expression's digit class know more.
- JSON encoding is taken as given text; payload fields are the ones the event vocabulary names.
- Negative settings for thresholds and windows.
- Routing, authentication, configuration, metrics, migrations, Docker, Git, GitHub, MCP and model calls, skills, command policy, search, overview and symbol context.
