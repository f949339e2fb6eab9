# Multi-agent research service: verification model

A Dafny model of a service that answers a user's query with LLM agents. A query becomes a
database row and a durable workflow; the workflow runs one of two engines (a LangGraph graph
with checkpoints, or CrewAI roles one after another), and its activities may crash between any
two effects, be retried, or run twice at once. The model covers the protocols that keep this
consistent, the tool-calling loop of the agents, and the lexical scanner in front of the
read-only SQL tool.

Objects that the source updates in place are classes, its loops are loops, and its pure code
is functions. Where several callers interleave, the protocol is a transition system: one step is
one effect (a lookup, an insert, a publication, one read or one save of a store, one database
session), a run is any sequence of enabled steps, and results are stated for every run.

| file | what it holds |
|---|---|
| `SqlGrammar`, `SqlScanner`, `SqlValidator` | segments of SQL text and their rendering; the scanner loop; the select validator and the row limit |
| `PendingWrites`, `WriteProtocol`, `CheckpointSaver` | merging of pending writes; concurrent compare-and-swap saves; the saver object and its retry loop |
| `TaskGraph`, `CheckpointRun`, `CheckpointResume` | the LangGraph graph and what a run computes; crash and resume over the saver; what each attempt runs and saves itself |
| `Orchestration`, `WorkflowSchedules` | the workflow generator; its schedules as words of a grammar |
| `TaskRows`, `DurableTask`, `TaskRuns`, `TaskCompletion` | the row's status machine and sessions; all interleavings of attempts, workflow and API, and what holds in every run of them; what returned and published |
| `UndisturbedTask`, `UndisturbedRun`, `RoleActivity`, `AttemptBounds` | what an attempt does when left alone, and that such a task completes; a role activity as it runs; retry policies |
| `RoutingCommits`, `EngineAgreement` | which engine the row names, over all runs; routing attempts one at a time, and two that overlap |
| `PauseProtocol`, `PauseDuration`, `PauseResume` | pausing and resuming, interleaved with the task and with failures; the calls as they run |
| `ToolLoop`, `ToolCallRows` | the tool-calling loop; the rows of its calls |
| `RuntimeState`, `TokenUsage`, `TokenConservation` | the locked merge of runtime state; token sums; conservation of reported usage |
| `Keys`, `Broadcaster`, `EventHandler` | idempotency keys; fan-out to subscribers; deduplication of event deliveries |
| `Wrappers`, `Sequences`, `EngineChoices` | shared option and result types, facts about sequences, and the engine names |

Four promises turned out not to hold in general. For each there is a lemma that builds a failing run,
and one that says over all runs exactly when the promise is kept:

- Two first writers of pending writes that both find no blob save without an etag, and one call's
  entries are lost (`FirstWritersCanLoseEntries`). Everything saved survives if and only if no save
  of the run is blind (`SavesSurviveExactly`).
- Overlapping attempts of `select_engine` can leave the row with one engine and the workflow with
  the other, from the start of every automatic task (`EveryTaskCanDisagree`). They agree if and only
  if the last routing session to commit decided as the accepted one (`RowAgreesExactly`).
- Overlapping reports of token usage lose one of them (`OverlappingReportsLoseOne`). The stored usage
  is the sum of all saved reports if and only if no report is saved between the read and the save of
  another (`UsageIsConservedExactly`).
- A pause in which nothing fails need not last: a router in flight sets the row back to running while
  the workflow stays suspended (`RouterUnpausesPausedTask`). `AgreesExactly` says over all runs when
  row and workflow agree, `PauseLastsExactly` before the fact which pauses last, and
  `CallLeavesAgreementExactly` which failing calls leave the two apart.

Two consequences of the code that a reader might not expect, and that the model keeps: a retry of
`initialize_task` after its commit announces nothing, because the row is no longer queued; and a
LangGraph result without a report still finalizes the row, with a stub text.

## Model

| member | source | states |
|---|---|---|
| `SqlGrammar.LexOfRender` | apps/mcp-server/src/mcp_server/tools/readonly_sql.py:61-90 | reading the rendered text of any well-formed list of segments (code, quoted literals with doubled quotes, line and block comments) gives the segments back |
| `SqlGrammar.RenderOfLex` | apps/mcp-server/src/mcp_server/tools/readonly_sql.py:61-90 | every text is the rendering of the segments read from it, and these are well formed; a last literal or comment may be unclosed |
| `SqlGrammar.ReadingIsUnique` | apps/mcp-server/src/mcp_server/tools/readonly_sql.py:61-90 | two well-formed segment lists with the same text are the same |
| `SqlScanner.StripSqlLiteralsAndComments` | apps/mcp-server/src/mcp_server/tools/readonly_sql.py:61-90 | the nested index loops terminate on every text and compute the blanking of its segments |
| `SqlScanner.StripOfRender` | apps/mcp-server/src/mcp_server/tools/readonly_sql.py:61-90 | on rendered segments the scanner returns the code, one space per literal and the kept newlines |
| `SqlScanner.StripsSegmentBySegment` | apps/mcp-server/src/mcp_server/tools/readonly_sql.py:61-90 | segment by segment, on any well-formed text: a code character stays, a literal becomes one space, a comment nothing |
| `SqlScanner.StripIsShort` | apps/mcp-server/src/mcp_server/tools/readonly_sql.py:61-90 | the result is never longer than the text and has no quote character |
| `SqlValidator.ValidatesExactlySingleSelects` | apps/mcp-server/src/mcp_server/tools/readonly_sql.py:93-110 | a statement is accepted and returned if and only if it has no semicolon, starts with select or with and has no forbidden whole word in its scan, and the query is this statement between white space, with at most one semicolon behind it |
| `SqlValidator.RefusesExactlyForbiddenWords` | apps/mcp-server/src/mcp_server/tools/readonly_sql.py:93-110 | a query is refused for a word if and only if its one statement is a query in whose code this is the first forbidden whole word |
| `SqlValidator.RefusesExactlyOtherStatements` | apps/mcp-server/src/mcp_server/tools/readonly_sql.py:93-103 | the other refusals, each if and only if: there is no single statement, it is blank, or it does not begin with a query word |
| `SqlValidator.ValidationIsAFixpoint` | apps/mcp-server/src/mcp_server/tools/readonly_sql.py:93-110 | validating an accepted statement again returns it unchanged |
| `SqlValidator.HiddenTextIsIgnored` | apps/mcp-server/src/mcp_server/tools/readonly_sql.py:61-110 | what stands in literals and comments has no influence on the keyword checks |
| `SqlValidator.WholeWordsStandAlone` | apps/mcp-server/src/mcp_server/tools/readonly_sql.py:107-109 | a keyword matches exactly where it stands with no word character touching it |
| `SqlValidator.FirstWordExactly` | apps/mcp-server/src/mcp_server/tools/readonly_sql.py:101 | the first word is exactly what stands before the first white space |
| `SqlValidator.RunQuery` | apps/mcp-server/src/mcp_server/tools/readonly_sql.py:113-141 | only an accepted statement reaches the database; the page is the first rows of what it selects, its columns those of the first row, and `truncated` says exactly whether there are more; each database exception has its error and its code, and a refused query is an invalid input |
| `PendingWrites.MergePendingWrites` | apps/api/src/persistence/checkpointer.py:81-107 | the loop with its key index computes the merge of the entries one after another: the existing entries, and behind them, in order, exactly the call's new writes, each with its own channel and value, the call's id and path, and its channel's special index or its place in the call |
| `PendingWrites.MergeStoresNewWrites` | apps/api/src/persistence/checkpointer.py:92-107 | the same of the merge: a write is stored if and only if its index is negative, or neither stored for this task nor that of an earlier write of the call |
| `PendingWrites.NewWritesAreFound` | apps/api/src/persistence/checkpointer.py:92-107 | a new write with a non-negative index is what is found under its key |
| `PendingWrites.MergeAppends` | apps/api/src/persistence/checkpointer.py:81-107 | existing entries stay a prefix |
| `PendingWrites.FirstWriteWins` | apps/api/src/persistence/checkpointer.py:101-104 | a stored key keeps its entry, and a new key gets the call's first entry for it |
| `PendingWrites.MergeStoresAll` | apps/api/src/persistence/checkpointer.py:92-107 | every non-negative key of the call is stored |
| `PendingWrites.MergeKeepsUniqueKeys` | apps/api/src/persistence/checkpointer.py:101-104 | non-negative keys stay unique |
| `PendingWrites.MergesCommute` | apps/api/src/persistence/checkpointer.py:81-107 | merges of different LangGraph tasks commute as maps from keys to entries |
| `PendingWrites.RepeatedMergeIsNoOp` | apps/api/src/persistence/checkpointer.py:101-104 | merging again changes nothing if and only if no index is negative |
| `WriteProtocol.RunsAreLinearizable` | apps/api/src/persistence/checkpointer.py:151-175 | over all interleavings without a blind save the blob is what the successful calls leave one at a time in the order of their saves, each saves at most once, and a call that returned has saved |
| `WriteProtocol.EntriesOnlyGrow` | apps/api/src/persistence/checkpointer.py:151-167 | later blobs extend earlier ones |
| `WriteProtocol.ReturnedKeysStay` | apps/api/src/persistence/checkpointer.py:138-167 | the keys of a call that returned are in every later blob |
| `WriteProtocol.ConflictsMeanProgress` | apps/api/src/persistence/checkpointer.py:168-181 | a call that raises after three conflicts stored nothing, and at least three saves of other writers succeeded while it ran |
| `WriteProtocol.ExistingBlobNeverBlind` | apps/api/src/persistence/dapr_client.py:75-98 | once the blob exists, every save carries an etag |
| `WriteProtocol.SaveKeepsExactlyWithEtag` | apps/api/src/persistence/dapr_client.py:85-98 | a save that goes through keeps the stored entries of another LangGraph task if and only if it carries an etag |
| `WriteProtocol.SavesSurviveExactly` | apps/api/src/persistence/dapr_client.py:75-98 | over all runs from no blob, with calls of different LangGraph tasks: every key that any call saved is still stored if and only if no save was blind |
| `WriteProtocol.FirstWritersCanLoseEntries` | apps/api/src/persistence/dapr_client.py:85-98 | a run of two first writers that both return, in which one's entries are gone |
| `CheckpointSaver.DaprCheckpointSaver.AgetTuple` | apps/api/src/persistence/checkpointer.py:43-79 | a lookup by id, and the latest lookup through the index, which finds a checkpoint whenever the index names one |
| `CheckpointSaver.DaprCheckpointSaver.Aput` | apps/api/src/persistence/checkpointer.py:109-136 | whatever id is used, the thread's latest lookup then returns the checkpoint, and other threads are unchanged |
| `CheckpointSaver.DaprCheckpointSaver.AputWrites` | apps/api/src/persistence/checkpointer.py:138-181 | the retry loop against peers that save between a read and a save, and its two errors; a call that returns has stored exactly its new writes |
| `CheckpointSaver.CallRaisesExactlyOnThreeConflicts` | apps/api/src/persistence/checkpointer.py:151-181 | a call raises if and only if the blob exists and a peer saves in each attempt; what it leaves in either case |
| `CheckpointSaver.CallStoresItsWrites` | apps/api/src/persistence/checkpointer.py:151-167 | a call that returns has stored, behind what the peers of its failed attempts stored, exactly its new writes with their own channels and values |
| `CheckpointSaver.LoopIsARun` | apps/api/src/persistence/checkpointer.py:151-181 | the retry loop is a run of the concurrent protocol with the same blob and outcome |
| `CheckpointSaver.PutIsTwoSteps` | apps/api/src/persistence/checkpointer.py:123-130 | `aput` is the two saves that crash-and-resume runs interleave |
| `TaskGraph.RunVisitsAssignedRoles` | apps/api/src/orchestration/langgraph_engine/graph.py:88-100 | a run visits plan, role selection, the assigned ones of researcher and analyst in that order, writer and persist-result |
| `TaskGraph.NodesWriteTheirOwn` | apps/api/src/orchestration/langgraph_engine/nodes.py:34-166 | each node writes its own fields and its name, appends to the tool calls, and leaves all else as it was |
| `TaskGraph.RunComputesFinalState` | apps/api/src/orchestration/langgraph_engine/nodes.py:34-166 | the final state in closed form: who sees whose notes and subtask, and which calls are tagged with which step |
| `TaskGraph.RoleSelectionKeepsRegistered` | apps/api/src/orchestration/langgraph_engine/nodes.py:55-74 | a role is selected if and only if it is the writer, or was asked for and is registered |
| `TaskGraph.RoleSelectionIsIdempotent` | apps/api/src/orchestration/langgraph_engine/nodes.py:55-74 | selecting again changes nothing when the registry has the writer |
| `CheckpointRun.EveryReturnIsTheUninterruptedResult` | apps/api/src/workflows/activities/task_activities.py:499-514 | whatever crashed, was resumed or ran twice, every attempt that returns has the state of an uninterrupted run |
| `CheckpointRun.IndexNeverDangles` | apps/api/src/persistence/checkpointer.py:60-72 | the index names a blob that exists, and a thread with a checkpoint keeps having one |
| `CheckpointRun.LookupSeesOldOrNew` | apps/api/src/persistence/checkpointer.py:109-136 | at the blob's save the latest lookup returns the previous or the new checkpoint; at the index's save it returns the new one if and only if nobody wrote another under the same id in between |
| `CheckpointRun.RetryCompletes` | apps/api/src/workflows/activities/task_activities.py:499-514 | from every reachable state a new attempt, left alone, returns the uninterrupted result |
| `CheckpointResume.StoredCheckpointsAreOfTheRun` | apps/api/src/workflows/activities/task_activities.py:499-514 | whatever crashed or ran twice, every stored checkpoint is one that an uninterrupted run makes |
| `CheckpointResume.AttemptsRunExactlyTheRest` | apps/api/src/workflows/activities/task_activities.py:499-514 | in every run: an attempt that found a checkpoint and returns has run exactly the nodes that the latest one left, and one that found none the whole graph; either has saved each checkpoint that it made, in order |
| `CheckpointRun.ResultFailsExactlyOnEmptyText` | apps/api/src/orchestration/langgraph_engine/engine.py:66-75 | a result fails if and only if the writer's text is empty |
| `Orchestration.TaskOrchestration.Send` | apps/api/src/workflows/task_workflow.py:59-198 | the generator object, resumed with one outcome, is where replaying the longer history leads, and yields that activity, of which `InputsAreRecordedResults` says what it carries |
| `WorkflowSchedules.ReplayHistory` | apps/api/src/workflows/task_workflow.py:59-198 | a new generator that is sent a recorded history yields exactly the activities scheduled by it |
| `WorkflowSchedules.Recover` | apps/api/src/workflows/task_workflow.py:59-198 | after a restart the new generator first yields again what the lost one has yielded, and on the same history it ends in the same state |
| `WorkflowSchedules.SchedulesAreWords` | apps/api/src/workflows/task_workflow.py:73-198 | every run schedules a prefix of a word of the grammar, or a non-empty one followed by mark_failed |
| `WorkflowSchedules.WordsAreSchedules` | apps/api/src/workflows/task_workflow.py:73-198 | every such word is scheduled by some history |
| `WorkflowSchedules.ManualChoiceIsNeverRouted` | apps/api/src/workflows/task_workflow.py:87-111 | a manual choice never schedules the router |
| `WorkflowSchedules.AttemptsAreBounded` | apps/api/src/workflows/constraints.py:24-43 | the policies of all activities that a run schedules allow at most 22 attempts together |
| `AttemptBounds.RunsMakeFewAttempts` | apps/api/src/workflows/constraints.py:24-43 | in every run whose attempts keep the policies, finalize and mark_failed have at most two attempts, each other activity at most three, and the run at most 22 |
| `WorkflowSchedules.AttemptBoundIsMet` | apps/api/src/workflows/constraints.py:24-43 | a schedule whose policies allow 22 |
| `WorkflowSchedules.InputsAreRecordedResults` | apps/api/src/workflows/task_workflow.py:73-198 | over all histories, field by field: each scheduled activity has its place in the schedule, the engine requested or routed, and its inputs: each role the subtask that the router's recorded decision gives that role and none for a manual choice, the analyst the recorded notes, the writer those and the analysis, finalize the report, mark_failed the first failure or unreadable result |
| `WorkflowSchedules.EndsAfterFinalizeOrFailure` | apps/api/src/workflows/task_workflow.py:175-198 | a workflow that schedules nothing more has all results up to that of finalize, or has raised after mark_failed ended |
| `TaskRows.TaskRepository.UpdateTaskStatus` | apps/api/src/persistence/repository.py:61-83 | a legal update sets the status and the given fields only, an illegal one raises, a missing row is not an error |
| `TaskRows.TaskRepository.RecordStep` | apps/api/src/persistence/repository.py:92-117 | write once per key |
| `TaskRows.TaskRepository.RecordAuditEvent` | apps/api/src/persistence/repository.py:137-166 | write once per key |
| `TaskRows.InitializeTask` | apps/api/src/workflows/activities/task_activities.py:253-277 | the session, as a change of the row; `InitializeStartsExactly` says which |
| `TaskRows.SelectEngine` | apps/api/src/workflows/activities/task_activities.py:552-560 | the session, as a change of the row; `SelectEngineExactly` says which |
| `TaskRows.FinalizeTask` | apps/api/src/workflows/activities/task_activities.py:883-904 | the session, as a change of the row; `FinalizeSucceedsExactly` says which |
| `TaskRows.MarkTaskFailed` | apps/api/src/workflows/activities/task_activities.py:944-959 | the session, as a change of the row; `MarkFailedAlwaysSettles` says which |
| `TaskRows.PersistTaskStatus` | apps/api/src/api/services/task_service.py:331-341 | the session, as a change of the row; `PersistStatusExactly` says which |
| `TaskRows.MarkSchedulingFailed` | apps/api/src/api/services/task_service.py:192-204 | the session, as a change of the row; `SchedulingFailedExactly` says which |
| `TaskRows.TransitionsExactly` | apps/api/src/persistence/state_machine.py:5-29 | from which statuses each status may be reached |
| `TaskRows.UpdateChangesExactly` | apps/api/src/persistence/repository.py:61-83 | a legal update sets the status and each given field and keeps all others; an illegal one raises |
| `TaskRows.InitializeStartsExactly` | apps/api/src/workflows/activities/task_activities.py:253-277 | only a queued task is started, then it runs, with the engine of a manual choice; a missing one raises |
| `TaskRows.SelectEngineExactly` | apps/api/src/workflows/activities/task_activities.py:552-560 | routing fails exactly for a task that is over; otherwise the row runs under the chosen engine, with the reason |
| `TaskRows.FinalizeSucceedsExactly` | apps/api/src/workflows/activities/task_activities.py:887-904 | the answer is a success if and only if the task runs or has succeeded; then it has succeeded, a well-formed row stores exactly the answered report, and nothing else changed |
| `TaskRows.PersistStatusExactly` | apps/api/src/api/services/task_service.py:331-341 | pausing succeeds exactly for a running or paused task, resuming for one that is not over; only the status changes |
| `TaskRows.SchedulingFailedExactly` | apps/api/src/api/services/task_service.py:192-204 | the compensation fails a waiting or running task and leaves others alone |
| `TaskRows.SessionsAreGood` | apps/api/src/persistence/state_machine.py:5-29 | every session makes a legal change, keeps report exactly with success, never changes a success, and fixes the requested engine |
| `TaskRows.MarkFailedAlwaysSettles` | apps/api/src/workflows/activities/task_activities.py:944-959 | marking never raises; it fails a task that has not ended, changing nothing else, and answers with the status that the task then has |
| `TaskRuns.RolesHaveOneOutput` | apps/api/src/workflows/activities/task_activities.py:176-250 | in every run a role's stored output never changes, and every attempt that returns, returns it |
| `TaskRuns.RolesCompleteAtMostOnce` | apps/api/src/workflows/activities/task_activities.py:210-236 | at most one completion per role is published, and only for a stored output |
| `TaskRuns.AttemptInputsAreStored` | apps/api/src/workflows/task_workflow.py:120-181 | every attempt carries what was recorded before its activity; analyst, writer and finalize work on the stored outputs before them |
| `TaskRuns.StatusChangesAreLegal` | apps/api/src/persistence/state_machine.py:5-29 | in every run, with pausing and resuming in between, every change of the row is legal |
| `TaskRuns.SuccessIsFinal` | apps/api/src/workflows/activities/task_activities.py:944-959 | a committed success is never changed, by failure marking or anything else |
| `TaskRuns.SuccessfulReport` | apps/api/src/workflows/activities/task_activities.py:883-904 | a row has a report if and only if it succeeded, and it is the stored writer output, a recorded LangGraph report, or the stub for an empty one |
| `TaskRuns.ManualEngineIsKept` | apps/api/src/workflows/activities/task_activities.py:271-276 | for a manual request the row's engine is unset or the requested one, and the router is never scheduled |
| `TaskCompletion.CompletedWorkflowsHaveSucceeded` | apps/api/src/workflows/activities/task_activities.py:883-920 | in every reachable state: a workflow that has completed has a row that has succeeded, and the recorded result of finalize, the last one, is the report that the row stores |
| `TaskCompletion.FinalizeReturnsTheStoredReport` | apps/api/src/workflows/activities/task_activities.py:891-920 | every finalize attempt that returns, however often it ran, returns the report that the succeeded row stores |
| `TaskCompletion.EventsAreTrue` | apps/api/src/workflows/activities/task_activities.py:906-912 | every published event is one of a scheduled activity; a task whose start was published is not queued, and one whose success was published has succeeded |
| `TaskCompletion.AttemptsAnnounceTheirEvents` | apps/api/src/workflows/activities/task_activities.py:562-577 | what an attempt announces is the event of its activity, and for the router the decision that it returns |
| `TaskCompletion.StartAndSuccessArePublishedOnce` | apps/api/src/workflows/activities/task_activities.py:253-300 | however often initialize and finalize are retried or overlap, a start and a success are published at most once |
| `UndisturbedTask.AttemptAlonePerforms` | apps/api/src/workflows/activities/task_activities.py:253-970 | from every state of the task, an attempt of the pending activity that is left alone does exactly what its activity should do to row, outputs and bus, and returns or raises |
| `UndisturbedRun.UndisturbedTasksComplete` | apps/api/src/workflows/task_workflow.py:59-198 | every task that has a row can complete, whatever was requested and answered: the row succeeds under the engine requested or chosen with the report of the writer or the graph, and the events are published in order, each once |
| `RoleActivity.ActivityRuntime.RunRole` | apps/api/src/workflows/activities/task_activities.py:601-656 | a role's attempt as it runs is the sequence of effects that the runs above interleave |
| `RoleActivity.ActivityRuntime.CommitStep` | apps/api/src/workflows/activities/task_activities.py:191-250 | the commit of an output: look again, insert, announce, or load the peer's output |
| `RoleActivity.AttemptReturnsTheStoredOutput` | apps/api/src/workflows/activities/task_activities.py:191-250 | an attempt returns the stored output or raises; it raises if and only if a peer inserts just before its flush and the flush raises; the next attempt returns the peer's output |
| `RoleActivity.FreshAttempt` | apps/api/src/workflows/activities/task_activities.py:191-250 | who stores the output when a peer inserts at any point, and that only the one who inserted announces |
| `RoutingCommits.RowNamesTheLastCommit` | apps/api/src/workflows/activities/task_activities.py:552-560 | in every run of an automatic task, whatever overlaps, the row names the decision of the last routing session that committed |
| `RoutingCommits.PendingEngineIsKnown` | apps/api/src/orchestration/engine_router.py:46-81 | in every run an engine activity runs under langgraph or crewai |
| `RoutingCommits.RowAgreesExactly` | apps/api/src/workflows/task_workflow.py:87-111 | in every run: the accepted attempt has one commit, which decides the engine of the pending activity; the row names that engine if and only if the last routing session to commit decided alike |
| `EngineAgreement.SerialAttemptsAgree` | apps/api/src/workflows/task_workflow.py:87-111 | when routing attempts run one at a time, whatever they decided and whatever else overlaps, the row names the engine of every engine activity |
| `EngineAgreement.OverlappingAttemptsCanDisagree` | apps/api/src/workflows/activities/task_activities.py:538-577 | from any running row that waits for the router, overlapping attempts can leave row and workflow with different engines |
| `EngineAgreement.EveryTaskCanDisagree` | apps/api/src/workflows/activities/task_activities.py:538-577 | such a run from the start of every automatic task that has a row |
| `PauseProtocol.AgreesExactly` | apps/api/src/api/services/task_service.py:238-341 | over all runs, with overlapping calls, attempts and failures: the row is paused if and only if a stored pause stands, which only a stored resume, a routing session and a failure marking end; row and workflow agree if and only if a suspension and a pause both stand, or neither |
| `PauseDuration.PauseLastsExactly` | apps/api/src/workflows/activities/task_activities.py:552-560 | a pause lasts until the next call, whatever the task does, if and only if neither the pending activity nor an attempt in flight is the router or mark_failed before its commit |
| `PauseResume.RouterUnpausesPausedTask` | apps/api/src/workflows/activities/task_activities.py:552-560 | a run from the start of every automatic task that has a row: a pause succeeds, no call fails, and the row runs on while the workflow stays suspended |
| `PauseResume.StoredCallsAgreeExactly` | apps/api/src/api/services/task_service.py:238-314 | over all runs in which calls run one at a time and store their status: between calls, row and workflow disagree if and only if a session has un-paused the row since the last call |
| `PauseResume.CallLeavesAgreementExactly` | apps/api/src/api/services/task_service.py:238-314 | a call that began in agreement, with any steps of the task in between that do not un-pause the row, ends in agreement exactly as its way of ending says; an undo restores it if and only if the call had changed the workflow and the status was not stored after all |
| `PauseResume.TaskService.PauseTask` | apps/api/src/api/services/task_service.py:238-275 | a call stores a pause if and only if the task runs or is paused, and scheduler and database perform; each way of ending says what it leaves of the workflow and of the row, field by field; when row and workflow agree afterwards; the call is a run of the protocol |
| `PauseResume.TaskService.ResumeTask` | apps/api/src/api/services/task_service.py:277-314 | the same for resuming, which is allowed unless the task is over |
| `ToolLoop.RunToolLoop` | apps/api/src/agents/tool_loop.py:76-189 | the nested loops compute the recursive run of rounds, for every model, server and round limit |
| `ToolLoop.RunsAreBoundedRounds` | apps/api/src/agents/tool_loop.py:90-189 | a conversation is the input, at most `max_rounds` rounds of requests with one result per call in order, and one reply without calls, to which the model is asked without tools exactly when there were none or the rounds are used up; no rounds without tools; one record per call; one reply more than rounds |
| `ToolLoop.EveryCallIsTold` | apps/api/src/agents/tool_loop.py:126-179 | over every run and every requested call: one that is not on offer is recorded with the authorization error and no summary, and its result text is the JSON of that error; one on offer is recorded and answered as what the server said to just this call |
| `ToolLoop.InvocationsAreTheOfferedCalls` | apps/api/src/agents/tool_loop.py:133-153 | each requested call reaches the server as often as it was requested if it is on offer, and never otherwise |
| `ToolLoop.OfferIsAllowed` | apps/api/src/mcp_client/schema.py:34-42 | a tool is on offer if and only if it was discovered and is in the role's allowlist |
| `ToolLoop.DefinitionsAreDiscovered` | apps/api/src/agents/tool_loop.py:47-73 | what is on offer are the names, descriptions and schemas of the discovered tools in the allowlist, all of them and nothing else |
| `ToolLoop.InvokedToolsAreAllowed` | apps/api/src/agents/tool_loop.py:47-73 | in every run only tools of the allowlist are invoked |
| `ToolCallRows.ToolCallTable.PersistMissingToolCalls` | apps/api/src/workflows/activities/task_activities.py:391-445 | the loop over the relevant calls records each unless its key is taken; a failed session changes nothing |
| `ToolCallRows.ToolCallTable.RecordToolCall` | apps/api/src/persistence/repository.py:180-208 | write once per key |
| `ToolCallRows.PersistingAgainIsNoOp` | apps/api/src/workflows/activities/task_activities.py:427-445 | persisting the same calls again, at any later time, changes nothing |
| `ToolCallRows.CallsShareRowsExactly` | apps/api/src/persistence/idempotency.py:25-37 | two calls share a row if and only if task, engine, tool, start and argument hash are the same, and the step: the call's own, or the persisting one if it has none |
| `ToolCallRows.RowsHoldFirstCalls` | apps/api/src/workflows/activities/task_activities.py:436-439 | the row of a new key holds the first call with it that is untagged or of the persisting step, and that step's row |
| `ToolCallRows.RunStoresItsToolCalls` | apps/api/src/workflows/activities/task_activities.py:452-467 | after an uninterrupted graph run the added keys are exactly those of the final state's calls |
| `RuntimeState.DaprStateStore.MergeTaskRuntimeState` | apps/api/src/persistence/dapr_state.py:31-38 | the stored map has the patch's values, and the old ones for its other keys; other maps are unchanged |
| `RuntimeState.MergesFoldInLockOrder` | apps/api/src/persistence/dapr_state.py:31-35 | over all interleavings the stored state is the merge of the patches whose saves took effect, in the order of the lock, also of those whose save raised nevertheless |
| `RuntimeState.NoKeyIsDropped` | apps/api/src/persistence/dapr_state.py:31-35 | keys are never dropped, and a saved patch's keys are there |
| `RuntimeState.OrderOfCompatiblePatchesIsIrrelevant` | apps/api/src/persistence/dapr_state.py:31-35 | patches that do not disagree on a key give the same state in any order and number |
| `TokenUsage.SumIsCommutativeMonoid` | apps/api/src/observability/task_tokens.py:51-98 | merging usage is associative and commutative, with the empty usage as unit |
| `TokenUsage.SumAllSwap` | apps/api/src/observability/task_tokens.py:71-98 | reports may be swapped anywhere in a sequence |
| `TokenUsage.SumIsComponentwise` | apps/api/src/observability/task_tokens.py:51-98 | from any start: each counter is the start plus the known reports, and known if and only if the start or some report knows it |
| `TokenUsage.MergedStatusTells` | apps/api/src/observability/task_tokens.py:57-98 | whatever is merged: the status is known exactly if all three counters are, unknown exactly if none is, partial otherwise; a counter is known exactly if either side knows it |
| `TokenConservation.Accumulate` | apps/api/src/observability/task_tokens.py:34-42 | a report as it runs, with other merges between its read and its merge: the stored usage is the usage it read plus its own, and the stored status tells which counters are known |
| `TokenConservation.UsageIsConservedExactly` | apps/api/src/observability/task_tokens.py:34-46 | in every run with reports of at least one token: the stored usage is the sum of all saved reports if and only if no report is saved between the read and the save of another; otherwise it is too small |
| `TokenConservation.StoredUsageIsTheSum` | apps/api/src/observability/task_tokens.py:34-46 | in every run without such an overtaking, for any usages: the stored counters are the sums, and the stored status tells which of them the start or some report knows |
| `TokenConservation.StoredStatusTells` | apps/api/src/observability/task_tokens.py:57-98 | in every run, whatever overtakes what: once a report was saved, the stored status is known exactly if all stored counters are, unknown exactly if none is; before, the stored usage is as it was |
| `TokenConservation.SerialReportsAreConserved` | apps/api/src/observability/task_tokens.py:34-46 | reports that run one at a time are conserved |
| `TokenConservation.OverlappingReportsLoseOne` | apps/api/src/observability/task_tokens.py:34-46 | from any state with a free lock: one report overtakes another, both are saved, and only the second one counts |
| `Keys.StepKeysAreInjective` | apps/api/src/persistence/idempotency.py:14-18 | two step keys are equal if and only if id, step and operation are |
| `Keys.AuditKeysAreInjective` | apps/api/src/persistence/idempotency.py:21-22 | two audit keys are equal if and only if id, step and status are |
| `Keys.ToolCallKeysAreInjective` | apps/api/src/persistence/idempotency.py:25-37 | two tool-call keys are equal if and only if all parts and the argument hashes are |
| `Keys.ColonsMakeAuditKeysCollide` | apps/api/src/persistence/idempotency.py:21-22 | with a colon in a step name different events share a key |
| `Broadcaster.TaskEventBroadcaster.Subscribe` | apps/api/src/events/broadcaster.py:22-25 | a new queue, open from here on |
| `Broadcaster.TaskEventBroadcaster.Unsubscribe` | apps/api/src/events/broadcaster.py:27-33 | the queue's stretch of the log ends here; any other queue is left alone |
| `Broadcaster.TaskEventBroadcaster.Publish` | apps/api/src/events/broadcaster.py:35-37 | every queue ever handed out holds exactly its own events of the log, published while it was subscribed, in order |
| `Broadcaster.TaskEventBroadcaster.Close` | apps/api/src/events/broadcaster.py:39-41 | the end marker reaches every subscriber |
| `Broadcaster.SubscribersAreOpen` | apps/api/src/events/broadcaster.py:22-37 | a queue is a subscriber if and only if it was handed out for this id and has not unsubscribed |
| `EventHandler.AgentTaskEventHandler.HandlePayload` | apps/api/src/events/handler.py:28-74 | a delivery writes its row if its key is new, and then broadcasts it once |
| `EventHandler.RowsAreDelivered` | apps/api/src/events/handler.py:51-70 | a key has a row if and only if it was delivered |
| `EventHandler.RowsAreFirstDeliveries` | apps/api/src/events/handler.py:51-70 | the row has the first delivery's contents, even if its handler crashed |
| `EventHandler.BroadcastsAreFirstDeliveries` | apps/api/src/events/handler.py:69-74 | what is broadcast are the first deliveries that did not crash, in order |
| `EventHandler.RowsAreBroadcastAtMostOnce` | apps/api/src/events/handler.py:69-74 | no row is broadcast twice, and the broadcast is what the row holds |
| `EventHandler.RowsAreBroadcast` | apps/api/src/events/handler.py:69-74 | without crashes every row is broadcast |
| `EventHandler.OneRowPerOccurrence` | apps/api/src/events/handler.py:51-70 | one row for each distinct id, step and status delivered |

## Left out

- Database sessions are atomic steps: the source takes no row locks, and two sessions that read the same row at once are not modelled, except for the role output's lookup and insert.
- SuccessIsFinal: assumes atomic sessions, as above.
- SerialAttemptsAgree: requires routing attempts one at a time; `RowAgreesExactly` has the exact condition.
- StoredUsageIsTheSum: requires that only reports write the usage key, as in the source, and that none overtakes another; `UsageIsConservedExactly` has the exact condition.
- UsageIsConservedExactly: for reports with a positive counter and no negative one; a lost report of zero tokens may not show.
- MergesFoldInLockOrder: a save that raises takes effect before the lock is released, or not at all.
- SavesSurviveExactly: for calls of different LangGraph tasks that each have an entry with a non-negative index.
- PauseLastsExactly: a suspended workflow takes no outcomes, but attempts of its pending activity may still begin and go on; how the scheduler does this is not part of this model.
- CallLeavesAgreementExactly: for runs in which no session un-pauses the row; `AgreesExactly` covers the others.
- AttemptAlonePerforms: for an attempt whose publication goes through; one that is lost is not repeated.
- RunsAreLinearizable: requires that no save is blind, which holds from the first save on.
- RunStoresItsToolCalls: covers uninterrupted runs whose writes succeed; a node that runs twice gives its calls new start times, hence new keys.
- OneRowPerOccurrence: requires step names without colons, because keys collide otherwise.
- RunsMakeFewAttempts: an attempt that a worker loses without reporting counts like any other; the delays between attempts are left out.
- Agents, the router and the tool server are arbitrary functions or choices; prompts, provider adapters and structured-output parsing are not part of this model. The router's fallback only narrows its choice to one of the two engines.
- LangGraph's own scheduling: a checkpoint after each node in order, with saves that may lag; pending writes are not replayed on resume, since they are stored under the parent's id.
- Agents in `CheckpointRun` are functions of what they are handed, so that a node that runs again gives the same result.
- Exceptions of tools other than the tool client's own error end the tool loop and are not modelled; the time a record finishes is left out.
- JSON rendering is a round trip, and the JSON text of a tool error is a parameter.
- Lower-casing, white space and word characters of SQL text are parameters; input-length limits checked by the schema, and the text that wraps the statement for the row limit, are left out.
- Runtime-state merges inside activities, the step rows of LangGraph nodes and of the delayed probe: they add no state that the results depend on.
- The older `execute_step` activity and the minimal runner, which the workflow does not use.
- Runtime state across processes: the lock is per process. Its first, unlocked write comes before any merge and is part of the arbitrary start.
- The order in which waiting merges are granted the lock: any waiting call may be next.
- The conversions between the graph's working state and the domain state, field by field.
- Listing tasks and checkpoints, sessions, preferences, settings, metrics, tracing and logs: easy members without shared state.
- The React application, the calculator, the code runner and web search.
