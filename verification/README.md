# OpenCTO kernels, verified

OpenCTO is an agent runtime: messages arrive on channels, a project workflow queues and
routes them, task workflows and agent children run language-model turns and tools, and the
results are reported back. This project models the deterministic parts that everything else
leans on and proves what holds of them on every input or in every run.

`dafny verify dfyconfig.toml` checks the whole project.

## What is modelled

**The project scheduler and router** (`Project`, `ProjectLaws`, `ProjectRouting`,
`ProjectTrace`, `ProjectWorkflow`, `ProjectRenewal`, `ProjectRules`). `Project` is the machine: a queue, at most four active tasks, two owner
maps, a window of recent event ids, pending reports, and the steps that change them. A run
is any sequence of enabled steps: signals, child starts that succeed or fail, child ends,
report deliveries, continue-as-new. `ProjectWorkflow` is the workflow as a class whose
fields change in place; its methods are proved to take exactly the steps of the machine, so
the laws about runs are laws about the class. What a run sends, which wake-ups it handles and
what it asks of the server are functions of its steps (`ProjectTrace`), and the class is tied to
them. The server answers through an oracle with one rule: a child does not start while its
workflow id is still running.

**Tasks and agent children** (`Signals`, `Processes`, `NextActionActivity`, `Compression`,
`TaskMachine` to `Task`, `AgentMachine` to `Agent`). Each of the two workflows is a
deterministic machine: its input and the world decide every step. The world is a record of
functions of time: stores, waiting signals, the engine, and the wake-ups that a wait for a tool
or a child brings, one for each selector choice; the theorems quantify over all of it. A step
whose wake-ups run out is a run that still waits, so the laws hold for unfinished runs as well.
`TaskRun` and `AgentRun` are the workflows as classes whose variables change in place, proved to
be in the state of the machine after the steps taken. The laws (`TaskLaws`, `TaskEnds`,
`TaskTranscript`, `TaskReports`, `AgentLaws`, `AgentResults`, `AgentEnds`) hold after any number of steps.
They compare that state with what the run has met, which is told from the world alone: the
signals its drains and waits took (`ConsumedBy`), the processes reported (`StartedBy`), the
results made (`MadeBy`), and for agents what was summarised, shown in an answered call, and
dropped (`SummarisedBy`, `AbsorbedBy`, `DroppedBy`).

**The words of the program** (`ProjectRules`, `TaskRules`, `AgentRules`, and laws named
`...Is`, `...Are` elsewhere). Where program and specification share a definition, such as the
commands, the message an answer becomes, what the model is told about a result, or the runes a
pattern quotes, a law says what it means in other terms: case by case, field by field, or by a
function that undoes it.

**The transcript** (`Transcript`, `TranscriptBuilder`). The validator is proved to decide an
independent grammar of message lists, and the builder's output is accepted exactly when no
call id repeats inside a group. `TaskTranscript.EveryCallIsAccepted` joins this to whole runs
of a task.

**The history message** (`History`): choosing and truncating entries under a budget that is
counted in bytes and spent in runes.

**Two text machines** (`Splitter`, `Terminal`): the message splitter and the
terminal-escape stripper.

**Globs** (`Regexp`, `Glob`): the one-pass compiler from globs to regular expressions,
against a recursive matcher that never mentions regular expressions, and a parser that reads
the emitted text back.

**Dotenv** (`DotEnv`): the reader and the in-place updater.

`Text` and `Domain` hold what they share.

## Properties that fail as coded

Each is stated in the project with the exact condition under which the code keeps it.

- A renewed project workflow renews again at once, for ever: the snapshot keeps the count
  of processed events (`ProjectRenewal.StuckIff` says when, `RenewIsReached` shows a run).
- The summary and history budgets together exceed the limit when there are summaries and
  the limit lies between 1429 and 3330 (`History.BudgetsAddUpIff`).
- An interrupt drained at the start of an agent turn drops the last turn's results. A call
  shows every stored result exactly when no turn before it began with an interrupt waiting
  and results on hand (`AgentResults.LosslessIffNeverInterrupted`); a run that loses one is
  `AgentWitness.ResultIsLost`.
- A cancel that is overtaken by an interrupt before the tool answers is stored but not
  obeyed (`Signals.InterruptHidesCancel`, `Signals.ToolEndReflectsWakeups`).
- A dotenv value reads back exactly when it survives quoting: escapes are never undone
  (`DotEnv.ReadBackIffSurvives`, `DotEnv.WriteThenRead`).
- Text cleans piecewise exactly when the first piece is closed
  (`Terminal.CleanDistributesIffClosed`).
- `**` stops at a newline, because a dot does: a pattern and its expression agree on all paths
  exactly when it has no double star, or an empty class (`Glob.AgreesEverywhereIff`).

## Model

| member | source | states |
|---|---|---|
| ProjectWorkflow.ProjectWorkflow.constructor | internal/runtime/workflows/project.go:24-38 | A new workflow is the initial world of the machine: nothing queued, active, owned or pending. |
| ProjectWorkflow.ProjectWorkflow.FlushReports | internal/runtime/workflows/project.go:40-45 | Every pending report is handed over, in order, and nothing else changes; empty reports send nothing. |
| ProjectWorkflow.ProjectWorkflow.DeliverReport | internal/runtime/workflows/project.go:125-154 | One report leaves the list and is sent unless it is empty or not wanted. |
| ProjectWorkflow.ProjectWorkflow.TryContinueAsNew | internal/runtime/workflows/project.go:47-54 | Continue-as-new happens exactly when enough events are processed and no task is active, and the new execution has the old state. |
| ProjectWorkflow.ProjectWorkflow.Restart | internal/runtime/workflows/project.go:26-38 | An execution started from a snapshot has the snapshot's queue, window and count and empty maps. |
| ProjectWorkflow.ProjectWorkflow.StartChildren | internal/runtime/workflows/project.go:56-85 | Starts from the head of the queue until four tasks are active or the queue is empty; the steps taken are starts only, and the next phase says whether one succeeded. |
| ProjectWorkflow.ProjectWorkflow.StartNext | internal/runtime/workflows/project.go:57-82 | One start is one step of the machine; it succeeds exactly when the server accepts it and the workflow id is not running. |
| ProjectWorkflow.ProjectWorkflow.StartOrFail | internal/runtime/workflows/project.go:58-72 | A failed start leaves a report with the error, or with the refusal of a running id, and counts as processed; a successful one becomes active and owns its message and thread. |
| ProjectWorkflow.ProjectWorkflow.RegisterOwnership | internal/runtime/workflows/project.go:419-443 | An event's message and threads are owned by the given task afterwards, blank ids and owners excepted. |
| ProjectWorkflow.ProjectWorkflow.RememberEventId | internal/runtime/workflows/project.go:526-547 | Reports a repeated id and changes nothing, or appends a fresh one and keeps the last 1000. |
| ProjectWorkflow.ProjectWorkflow.ScheduledTaskOverlaps | internal/runtime/workflows/project.go:479-495 | True exactly when a queued event or active task has the same non-empty schedule id. |
| ProjectWorkflow.ProjectWorkflow.FirstActive | internal/runtime/workflows/project.go:505-524 | The workflow id of the active task with the least event id, or nothing when none is active. |
| ProjectWorkflow.ProjectWorkflow.HandleProjectEventSignal | internal/runtime/workflows/project.go:212-322 | One signal is one step of the machine and sends what that step sends. Which step that is for every message, word by word, is what the rows of ProjectRules say. |
| ProjectWorkflow.ProjectWorkflow.RouteEvent | internal/runtime/workflows/project.go:212-322 | The state after an event and the signals sent are those of the routing decision, which the rows of ProjectRules describe case by case. |
| ProjectWorkflow.ProjectWorkflow.ClearOwnership | internal/runtime/workflows/project.go:457-472 | Exactly the entries of the finished task leave both owner maps. |
| ProjectWorkflow.ProjectWorkflow.FinishTask | internal/runtime/workflows/project.go:95-109 | A child's end is one step of the machine. |
| ProjectWorkflow.ProjectWorkflow.Work | internal/runtime/workflows/project.go:40-112 | Some turns of the loop are a run of the machine that handles the first wake-ups in order, each by its own step and without leaving any out, but for ends of tasks that were not active; it stops only with its turns used up, or blocked with no wake-up left. What is sent is what the run sends, by the invariant. |
| ProjectRules.RepeatedIsIgnored | internal/runtime/workflows/project.go:213-219 | An event whose id is in the window changes nothing and sends nothing. |
| ProjectRules.ScheduledIsQueuedOnce | internal/runtime/workflows/project.go:231-245 | An event of a scheduled task is queued, unless a queued event or an active task has the same schedule id; then only the window takes notice. |
| ProjectRules.OpeningIsQueued | internal/runtime/workflows/project.go:246-255 | A reset or onboarding command is queued as a task of its own, whoever owns its thread. |
| ProjectRules.OnboardingIs | internal/domain/types.go:63-73 | A text is an onboarding command exactly when its first word is the command, alone or addressed to someone after an @. |
| ProjectRules.OwnedIsHandedOn | internal/runtime/workflows/project.go:257-283 | An event that belongs to a task sends that task one additional-context signal, marked as a task reply, exactly when it says anything, and is not queued. |
| ProjectRules.OwnersAre | internal/runtime/workflows/project.go:351-377 | The owner of an event is found under the message it replies to, else under the first of four keys for its thread and channel that has one. |
| ProjectRules.MainMessageIsQueued | internal/runtime/workflows/project.go:284-293 | A message in the main channel of Discord or Telegram that nobody owns becomes a task, also when its text is a command. |
| ProjectRules.CommandsAreObeyed | internal/runtime/workflows/project.go:295-321 | In every run, any other event that nobody owns cancels or interrupts the task under the least event id, exactly when its control metadata or else its text says so; without a task it does nothing, and without a command it is queued. |
| ProjectRules.LowerIs | internal/runtime/workflows/project.go:551-559 | Lower-casing maps the capital letters to the small ones and leaves other ASCII alone. |
| ProjectRules.StringLeIs | internal/runtime/workflows/project.go:513-524 | Event ids are ordered by the first rune that differs, and a text comes before its continuations. |
| ProjectRules.StartIs | internal/runtime/workflows/project.go:56-82 | A start takes the head of the queue and makes it an active task under the id made of project and event, or leaves one report of the failure. |
| ProjectRules.FinishIs | internal/runtime/workflows/project.go:95-109 | The end of a task removes it and leaves its result to be reported, if it is meant to be. |
| ProjectRules.DeliverIs | internal/runtime/workflows/project.go:125-154 | A report is sent exactly when it is wanted and has text or an attachment. |
| ProjectRenewal.RenewIsFinal | internal/runtime/workflows/project.go:47-54 | In any run that may continue as new, continuing changes nothing and is the only enabled step. |
| ProjectRenewal.StuckIff | internal/runtime/workflows/project.go:40-54 | A run is stuck in continue-as-new exactly when its reports are flushed, enough events are processed and no task is active at the start of a turn; in every other state another step is enabled. |
| ProjectRenewal.RenewIsReached | internal/runtime/workflows/project.go:40-112 | A run that gets there: one message whose task fails to start, and the same message again. |
| Project.FirstExists | internal/runtime/workflows/project.go:513-524 | The order on event ids has a least element in every non-empty set of keys. |
| Project.FirstIsUnique | internal/runtime/workflows/project.go:505-511 | The first active task does not depend on the order in which a map is walked. |
| ProjectLaws.TrimmedIdsApart | internal/runtime/workflows/project.go:497-503 | Trimmed workflow ids of one project are equal only for the same trimmed event id, and are never empty. |
| ProjectLaws.RoutedOwnerIsActive | internal/runtime/workflows/project.go:351-377 | Whatever owner routing finds, by reply or by thread, is an active task's trimmed workflow id. |
| ProjectLaws.ClearedOwnersOk | internal/runtime/workflows/project.go:457-472 | Clearing a finished task leaves only owners of tasks still active, because no other task shares its id. |
| ProjectLaws.RenewLosesNothing | internal/runtime/workflows/project.go:47-54 | When continue-as-new is taken the maps and reports missing from the snapshot are empty, so the resumed state is the state. |
| ProjectLaws.SignalKeepsInv | internal/runtime/workflows/project.go:212-322 | A signal keeps the invariant: owners, queue accounting, reports, window, schedules. |
| ProjectLaws.StartKeepsInv | internal/runtime/workflows/project.go:56-82 | A successful child start keeps the invariant. |
| ProjectLaws.FailedStartKeepsInv | internal/runtime/workflows/project.go:68-72 | A failed child start keeps the invariant. |
| ProjectLaws.FinishKeepsInv | internal/runtime/workflows/project.go:97-109 | A child's end keeps the invariant. |
| ProjectLaws.RunKeepsInv | internal/runtime/workflows/project.go:40-112 | The invariant holds in every state of every run. |
| ProjectRouting.RepliesStick | internal/runtime/workflows/project.go:257-283 | In every run with distinct source messages, a fresh ordinary event that answers the source message of an active task, or any message ever routed to it, goes to that task and becomes one of its messages. |
| ProjectRouting.TaskClaimsItsSource | internal/runtime/workflows/project.go:415-443 | The messages of an active task include its own source message. |
| ProjectRouting.RunKeepsChain | internal/runtime/workflows/project.go:415-472 | In such runs every message of an active task stays owned by it, and queued sources are claimed by nobody. |
| ProjectRouting.ThreadSticks | internal/runtime/workflows/project.go:359-377 | Once an event is registered for a task, an event of the same channel and thread is routed to that task. |
| ProjectRouting.ThreadKeysApart | internal/runtime/workflows/project.go:445-455 | Two threads share an owner key exactly when channel and thread agree, for channel ids without the separator. |
| ProjectRouting.NoDanglingOwner | internal/runtime/workflows/project.go:97-109 | In every reachable state each owner names an active task, and at continue-as-new both maps are empty. |
| ProjectRouting.SignalsTargetActiveTasks | internal/runtime/workflows/project.go:257-308 | Routed and controlling signals go to tasks that are active now; control finds no target only when none is. |
| ProjectRouting.SchedulerConserves | internal/runtime/workflows/project.go:40-112 | Queue, active and processed add up to the events queued; starts follow queue order; at most four are active; a blocked loop has an empty queue or four active; delivered then pending reports are those made, with none pending at continue-as-new. |
| ProjectRouting.SchedulesNeverOverlap | internal/runtime/workflows/project.go:231-245 | In every reachable state queued and active scheduled tasks have pairwise distinct schedule ids. |
| ProjectRouting.WindowRefinesLog | internal/runtime/workflows/project.go:526-547 | The window is the end of the full log of accepted ids, has no id twice, lets an id return only after 1000 others, and a repeated id changes nothing. |
| Signals.PersistSignals | internal/runtime/workflows/task.go:294-305 | Stores every signal with an event id, in order, with its control; a failing store leaves a proper first part. |
| Signals.StoredHaveIds | internal/runtime/workflows/task.go:294-305 | Nothing without an event id is stored, and at most one event per signal. |
| Signals.StoredIds | internal/runtime/workflows/task.go:294-305 | Signals that all have ids are stored one by one: same ids, same order. |
| Signals.StoredIs | internal/runtime/workflows/task.go:294-319 | A signal with an event id is stored as its event, marked as a cancel or an interrupt if it is one; one without is not stored. |
| Signals.Drain | internal/runtime/workflows/task.go:574-584 | Takes every waiting signal of a channel in order and adds its events to the context. |
| Signals.ExecuteToolStep | internal/runtime/workflows/task.go:464-532 | How the wait for a tool ends, given what the selector delivers, and that the context grows by exactly the consumed signals. |
| Signals.ToolWaitAt | internal/runtime/workflows/task.go:515-530 | The wait consumes wake-ups up to and with the first result, error or interrupt. |
| Signals.ToolEndIs | internal/runtime/workflows/task.go:486-530 | A wait ends with the tool's own result, with a failed result that carries the error, or with a canceled one that names the interrupt. |
| Signals.InterruptHidesCancel | internal/runtime/workflows/task.go:516-530 | An interrupt before the tool answers ends the step as interrupted, not canceled, whatever cancels came first; those are among the signals it keeps. |
| Signals.ToolEndReflectsWakeups | internal/runtime/workflows/task.go:492-530 | A tool step is interrupted exactly when an interrupt comes before any answer, and canceled exactly when a cancel comes first and no interrupt does; both show in the consumed signals. |
| Signals.InterruptEndsToolWait | internal/runtime/workflows/task.go:515-530 | The wake-ups consumed are a beginning of those delivered, and only the last can end the wait. |
| Signals.ExecuteAgentStep | internal/runtime/workflows/agent.go:464-538 | How the wait for an agent child ends, and that every consumed signal is handed on to the child, once and in order. |
| Signals.ChildResultIs | internal/runtime/workflows/agent.go:498-538 | The parent's result for a child is what the child reported, a success if it named no status, or its failure. |
| Signals.ChildEndReflectsSignals | internal/runtime/workflows/agent.go:498-538 | A child step is interrupted exactly when a consumed signal interrupts, and canceled exactly when one cancels or the child says so. |
| Processes.Merge | internal/runtime/workflows/task.go:711-728 | The loop over updates computes the merge that the next rows characterise, with ids compared as they are. |
| Processes.LastUpdateWins | internal/runtime/workflows/task.go:711-728 | Ids stay distinct, entries keep the place of their first update, and the entry of an id is its last update. |
| Processes.IdsStayApart | internal/runtime/workflows/task.go:711-728 | A task never lists an id twice, an agent never two ids that differ only in white space around them, and every reported process with an id is listed. |
| Processes.FindAfterOne | internal/runtime/workflows/agent.go:870-891 | One update changes the entry of its own id only, with ids compared as they are or trimmed. |
| NextActionActivity.CleanupTaskProcesses | internal/runtime/activities/next_action.go:451-477 | Running stop-on-finish entries take the status they were stopped with; the flags say whether any was stopped and whether any could not be. |
| NextActionActivity.CleanupAccounts | internal/runtime/activities/next_action.go:451-477 | Cleanup changes only statuses of stop-on-finish entries, and one of them is still running afterwards exactly when a failure is reported. |
| NextActionActivity.CompleteTask | internal/runtime/activities/next_action.go:373-449 | A task whose cleanup fails has failed, whatever status it asked for. |
| NextActionActivity.NextAction | internal/runtime/activities/next_action.go:15-222 | The loops compute the answer that the next row characterises. The engine is shown the history and then, entry by entry, the cycle, work item, call, tool, status, observation, error and metadata of every last result; so are the observations of the answer. |
| NextActionActivity.AnswersKeep | internal/runtime/activities/next_action.go:195-221 | An answer tells every last result, field by field, a forced final answer never asks for tools, one that asks has choices and a work item, and one that ends the task has cleaned up its processes. |
| Domain.FeedbackTells | internal/runtime/activities/tool_execution.go:68-93 | What the model is told about a result has the result's fields, and its metadata with the working directory and the result code added exactly when they are not empty. |
| NextActionActivity.PrepareTool | internal/runtime/activities/next_action.go:300-330 | The loop over the choices computes the preparation that the next two rows characterise; without a choice, a work item or the preparation of the work there is no tool answer. |
| NextActionActivity.PreparedApartIff | internal/runtime/activities/next_action_work_items.go:117-153 | Every prepared choice has a call id, its own if it came with one, and the ids of a turn are all different exactly when no two came with the same, at most one came without, and then none came with the one made for it. |
| NextActionActivity.PreparedIdIs | internal/runtime/activities/next_action_work_items.go:117-153 | Reading the call id back from a prepared choice gives the id it was prepared with, and never nothing. |
| NextActionActivity.PreparedIs | internal/runtime/activities/next_action_work_items.go:117-153 | A prepared choice is the one that came, with its call id, the work item and the batch in its metadata and every other key kept. |
| NextActionActivity.BatchLists | internal/runtime/activities/next_action_work_items.go:117-153 | Splitting the batch of a turn at its commas gives the ids its choices came with, in order. |
| NextActionActivity.EndedLeavesClean | internal/runtime/activities/next_action.go:332-396 | An answer that ends a task keeps every process in place and has failed if a stop-on-finish process still runs. |
| Task.TaskRun.Run | internal/runtime/workflows/task.go:33-249 | The run ends, in the state of the machine after the steps it took. There the context has grown by exactly the consumed signals, these are stored once and in order unless a store failed, the stored results are those the tools made, every call has shown all results made before it, told field by field, once and in order, calls are one a cycle with the forced one last and a cleanup call only at the end, and the processes are all those reported, carried by the last call. A result of the run has the status, trimmed text and attachments of the answer that ended it, and a report exactly when that answer does not ignore the task and has text or attachments. |
| Task.TaskRun.Open | internal/runtime/workflows/task.go:80-116 | A reset command is one store and ends the run; any other run stores its event unless it is resumed, and prepares onboarding if there is any. |
| Task.TaskRun.RunCycle | internal/runtime/workflows/task.go:118-206 | A cycle takes the steps of the machine: drain, ask, follow the answer; it leads to the next cycle or ends the run. |
| Task.TaskRun.TakeArrivals | internal/runtime/workflows/task.go:119-121 | All waiting context signals are added to the context and stored, before the call. |
| Task.TaskRun.MakeCall | internal/runtime/workflows/task.go:122-143 | The call carries context, history, last results and processes as they are, and an answer extends the history by its observations; nothing else changes. |
| Task.TaskRun.StoreAction | internal/runtime/workflows/task.go:144-171 | The answer is stored, then it ends the task, fails it for want of a work item or of choices, or starts its tools with no last results. |
| Task.TaskRun.RunTools | internal/runtime/workflows/task.go:171-206 | The choices are run in order, each as one step of the machine, until the run ends or a step is interrupted. |
| Task.TaskRun.DoStep | internal/runtime/workflows/task.go:173-204 | What one choice changes: its signals enter the context, its processes are merged whether or not it was canceled, its signals are stored and then, unless it was canceled, its result. |
| Task.TaskRun.KeepStep | internal/runtime/workflows/task.go:185-204 | A canceled step stores its signals but no result, and a failed store stops before what comes after it. |
| Task.TaskRun.Execute | internal/runtime/workflows/task.go:173-184 | The choice's tool decides how it is run, and only agent children are handed the signals. |
| Task.TaskRun.ExecuteAuthoring | internal/runtime/workflows/task.go:321-352 | A successful authoring child is never reported as canceled; a failed one is cleaned up, and that may fail too. |
| Task.TaskRun.CompleteAfterProcessStart | internal/runtime/workflows/task.go:684-689 | After an error a task without processes fails; one with processes makes one more call that carries the whole list. |
| Task.TaskRun.CompleteIncomplete | internal/runtime/workflows/task.go:691-709 | A canceled task asks for cleanup exactly when it has processes, with the whole list. |
| Task.TaskRun.ForceFinal | internal/runtime/workflows/task.go:208-248 | After the last cycle one forced call, and at most a cleanup call, end the run. |
| TaskLaws.ContextIsWhatSignalsAdd | internal/runtime/workflows/task.go:119-184 | After any number of steps the context is what the run began with and, in order, what each consumed signal adds. The consumed signals are a function of the world and the run: those drained and those that each wait took. |
| TaskLaws.SignalsStoredOnce | internal/runtime/workflows/task.go:294-305 | In every state of every run the stored events are the task's own event and, in order, one for each consumed signal with an id; a failed store leaves a first part and ends the run, and only the signals of a step that still waits are not yet stored. |
| TaskLaws.FailureIsOfAStore | internal/runtime/workflows/task.go:185-204 | A run counts as having failed to store only when the world refused a store before. |
| TaskLaws.EveryCallShowsEveryResult | internal/runtime/workflows/task.go:122-206 | History and last results of every call of every run tell, field by field, all results made before it, once and in order, also after interrupted batches. |
| TaskLaws.ResultsStoredAreMade | internal/runtime/workflows/task.go:185-204 | Without a failed store the stored results are exactly those of the steps that ended uncanceled, in order; otherwise a first part. |
| TaskLaws.CallsInOrder | internal/runtime/workflows/task.go:118-248 | Calls are one a cycle from 1 on, forced exactly in cycle 51, and a cleanup call comes at most once and last. |
| TaskLaws.ProcessesAreMerged | internal/runtime/workflows/task.go:711-728 | In every state the processes are the merge of everything that any step reported, canceled ones included. |
| TaskEnds.RunsEndForAReason | internal/runtime/workflows/task.go:118-248 | In every run an error has a failed store or an unanswered call behind it, an incomplete result a canceled step, any other result the reset command or the answer that ended the task, whose status, text, attachments and wish for a report it conveys; and that answer left no process running that stops with the task, unless the task failed. |
| TaskEnds.ResultConveys | internal/runtime/workflows/task.go:586-597 | The result made from an answer is complete exactly for completed and ignored answers, has its status, trimmed text and attachments, and wants a report unless the answer is ignored or empty. |
| TaskReports.AnswerIsDelivered | internal/runtime/workflows/project.go:95-154 | When a task ends on an answer, its project sends one report with that text and those attachments, after those that were pending, exactly when the answer does not ignore the task and says or brings something. |
| TaskEnds.UnfinishedHasTools | internal/runtime/workflows/task.go:163-171 | An answer that does not end the task has choices and a work item and was not forced, so the checks of the workflow never fail a run by themselves. |
| TaskEnds.ProcessesAreOffered | internal/runtime/workflows/task.go:684-709 | When a run is over and does not wait, its last call carried the merge of everything reported, or nothing was. |
| TaskTranscript.StepEchoes | internal/runtime/workflows/task.go:730-761 | Failed, child and authoring results answer the call they were made for. |
| TaskTranscript.ResultsStayApart | internal/runtime/workflows/task.go:171-206 | With usable call ids, no two results of one cycle of a run answer the same call. |
| TaskTranscript.EveryCallIsAccepted | internal/agent/llm/next_action.go:142-180 | With usable call ids, what any call of any run shows builds a transcript that the validator accepts, whatever plain messages stand around it. |
| TaskRules.ToolsAre | internal/runtime/workflows/task.go:173-184 | Agents and workflow authoring run as children, which alone are handed the signals of the wait; every other tool is an activity. |
| TaskRules.RefusedAuthoring | internal/runtime/workflows/task.go:321-335 | Authoring that cannot be prepared fails with the error, under the call that was asked for. |
| TaskRules.PlannedAuthoring | internal/runtime/workflows/task.go:335-352 | Authoring records the end of its child under the tool and call that were asked for, with the plan's metadata; a success was not canceled, and a failure that cannot be cleaned up names an error. |
| TaskRules.FiftyCycles | internal/runtime/workflows/task.go:118-248 | A run asks at most 51 times for the next action, is forced exactly the last time, and makes at most one cleanup call after that. |
| Compression.CompressAgentObservations | internal/runtime/activities/compress_agent_observations.go:12-74 | A summarisation has the trimmed text of the reply and leaves exactly the recent observations; without one summary and observations stay as they are and fit. The sizes counted are those of what was looked at, an error means too much and no usable summary, and a missing compressor shows exactly when it was wanted. |
| Compression.LimitsAre | internal/storage/storage.go:140-173 | Limits that are not positive stand for 10 observations, 24000 and 20000 bytes. |
| Compression.AgentObservationSourceChars | internal/runtime/activities/compress_agent_observations.go:76-95 | The loop adds up the sizes of all observations. |
| Compression.SourceSumConcat | internal/runtime/activities/compress_agent_observations.go:76-95 | The size of a history is the size of its older part and of its recent part. |
| Agent.AgentRun.Run | internal/runtime/workflows/agent.go:98-342 | The run ends, in the state of the machine after the steps it took. There summarised and raw observations make up all received; the context has grown by exactly the consumed signals, these are stored once and in order unless a store failed; the stored results are those the tools made, and what was shown and what was dropped are different ones of them; every call met the law of AgentResults.EveryCallAccounts; calls are one a turn, the forced one last; the processes are all those reported. |
| Agent.AgentRun.TakeSignals | internal/runtime/workflows/agent.go:99-108 | Waiting signals are added and stored first; then a cancel ends the run, and otherwise an interrupt clears the last results. |
| Agent.AgentRun.DrainSignals | internal/runtime/workflows/agent.go:550-582 | Context events, then cancels, then interrupts, all of them. |
| Agent.AgentRun.TakeSummary | internal/runtime/workflows/agent.go:110-122 | A turn goes on exactly when compression answers, with the summary it gives, trimmed, and its remaining observations. |
| Agent.AgentRun.MakeCall | internal/runtime/workflows/agent.go:124-153 | The call carries context, history, last results and processes as they are; an answer extends the history by its observations and is merged into the processes. |
| Agent.AgentRun.StoreAction | internal/runtime/workflows/agent.go:155-216 | The answer is stored, then the run returns, runs its completion tool, or uses the tools, with no last results. |
| Agent.AgentRun.DoStep | internal/runtime/workflows/agent.go:216-247 | A tool that is not allowed fails the run; one that is run adds its signals, reports its processes, and stores signals and then its annotated result unless it was canceled. |
| Agent.AgentRun.KeepCompletion | internal/runtime/workflows/agent.go:164-204 | The result of the completion tool is stored even when its signals could not be; a failed one waits for the next turn, and is the only one that does. |
| Agent.AgentRun.RunTurn | internal/runtime/workflows/agent.go:98-248 | A turn takes the steps of the machine: drain, compress, ask, follow the answer; it leads to the next turn or ends the run. |
| Agent.AgentRun.ForceFinal | internal/runtime/workflows/agent.go:250-342 | After the last turn one forced call ends the run. |
| AgentLaws.ContextIsWhatSignalsAdd | internal/runtime/workflows/agent.go:99-247 | After any number of steps the context is what the run began with and, in order, what each consumed signal adds. |
| AgentLaws.SignalsStoredOnce | internal/runtime/workflows/agent.go:99-247 | In every state the stored events are, in order, one for each consumed signal with an id; a failed store leaves a first part and ends the run. |
| AgentLaws.ResultsStoredAreMade | internal/runtime/workflows/agent.go:217-247 | Without a failed store the stored results are exactly those made, in order; otherwise a first part. |
| AgentLaws.ProcessesAreMerged | internal/runtime/workflows/agent.go:870-891 | In every state the processes are the merge of everything that answers and steps reported. |
| AgentLaws.CompressionMoves | internal/runtime/workflows/agent.go:110-122 | A compression moves the older observations into the summary and leaves exactly the recent ones, or leaves all. |
| AgentLaws.SummaryIsTheLast | internal/runtime/workflows/agent.go:110-122 | In every state of every run the summary is the trimmed text of the last reply that summarised, told from the compressor and the moments of the run, or of the input if none did. |
| AgentLaws.ObservationsConserved | internal/runtime/workflows/agent.go:110-153 | In every state of every run the summarised observations followed by the raw ones are all received: those the run began with and, field by field, every result shown in an answered call. |
| AgentLaws.SummaryOnlyGrows | internal/runtime/workflows/agent.go:110-153 | Summarised observations and absorbed, dropped and stored results only grow. |
| AgentLaws.EveryTurnFits | internal/runtime/workflows/agent.go:110-122 | Before the call of every turn the raw history fits the limits together with the summary. |
| AgentResults.CallsInOrder | internal/runtime/workflows/agent.go:98-342 | Calls are one a turn from 1 on, forced exactly after the last turn. |
| AgentResults.ResultsAccounted | internal/runtime/workflows/agent.go:98-248 | Until a run is over each stored result was absorbed by an answered call, waits for the next one, or was dropped by an interrupt, and is only one of these; when it is over, what was absorbed and what was dropped are different stored results. |
| AgentResults.EveryCallAccounts | internal/runtime/workflows/agent.go:98-342 | At every call the balance of results and the conservation of observations hold, the summary is that of the last reply that summarised, the raw history fits unless the call is forced, and nothing of it is undone later. |
| AgentResults.DroppedIff | internal/runtime/workflows/agent.go:106-108 | Nothing is dropped exactly when no turn before began with an interrupt waiting and results on hand. |
| AgentResults.LosslessIffNeverInterrupted | internal/runtime/workflows/agent.go:106-108 | A call shows every result stored before it, once and in order, exactly when no turn before it began with an interrupt waiting and results on hand. |
| AgentWitness.ResultIsLost | internal/runtime/workflows/agent.go:106-108 | A run of two turns with one interrupt: its only result is stored, no call shows it, and the run succeeds. |
| AgentEnds.RunsEndForAReason | internal/runtime/workflows/agent.go:164-342 | In every run a return carries all processes, success has an answer behind it that completed the task, and a cancel was consumed before a run ends as canceled. |
| AgentRules.TurnsAre | internal/tools/agenttool/definition.go:59-67 | An agent has the turns it asks for, fifty if it asks for none, and never more than a hundred. |
| AgentRules.OnlyAllowedToolsRun | internal/runtime/workflows/agent.go:216-230 | A choice that is not among the allowed tools, or asks for another agent, ends the run as failed and runs nothing; any other is run with the lineage added to its metadata. |
| AgentRules.CompletionIs | internal/runtime/workflows/agent.go:449-462 | The completion tool is run under the id made for the turn and outside any work item, with the lineage added. |
| AgentRules.ResultsAreAnnotated | internal/runtime/workflows/agent.go:217-247 | A result is stored as the tool gave it, with the lineage added to its metadata. |
| Transcript.ValidateToolTranscriptMessages | internal/agent/llm/next_action.go:929-962 | Accepts exactly the grammatical lists, and rejects at the first message that no continuation can repair. |
| Transcript.MessageToolCallIDs | internal/agent/llm/next_action.go:964-981 | Fails exactly when a call lacks an id or a name, and otherwise returns the set of call ids. |
| Transcript.AcceptedIffGrammatical | internal/agent/llm/next_action.go:929-962 | Nothing is left pending at the end exactly when the list splits into plain messages and complete exchanges. |
| Transcript.GrammarAccepted | internal/agent/llm/next_action.go:929-962 | Every list of the grammar is accepted. |
| Transcript.PendingParses | internal/agent/llm/next_action.go:929-962 | Every accepted beginning has a parse, with the open exchange made explicit. |
| Transcript.ExtensibleIffPending | internal/agent/llm/next_action.go:929-962 | A beginning is let through exactly when it can be completed to a grammatical list. |
| TranscriptBuilder.NextActionTranscriptMessages | internal/agent/llm/next_action.go:888-927 | One assistant message with a call per observation, then one response per observation, in order; fails exactly on an observation without call id or supported tool. |
| TranscriptBuilder.CallIdIs | internal/agent/llm/next_action.go:1109-1114 | An observation answers the call whose id it has, or else the one its metadata names. |
| TranscriptBuilder.BuildNextActionMessages | internal/agent/llm/next_action.go:106-180 | Succeeds exactly when every observation is usable and no call id repeats inside a group, and then is grammatical. |
| TranscriptBuilder.GroupLength | internal/agent/llm/next_action.go:142-167 | A group is the longest run of one batch; an observation outside a batch is alone. |
| TranscriptBuilder.BuiltAcceptedIff | internal/agent/llm/next_action.go:106-180 | Between plain messages the built transcript is grammatical exactly when no call id repeats inside a group. |
| TranscriptBuilder.TranscriptIsComplete | internal/agent/llm/next_action.go:142-167 | The transcript has exactly one call and one response per observation, in the order of the history. |
| TranscriptBuilder.InterruptedHistoryStaysDistinct | internal/agent/llm/next_action.go:142-167 | Cutting a history anywhere, also inside a batch, keeps it acceptable. |
| TranscriptBuilder.ExchangesPending | internal/agent/llm/next_action.go:888-962 | The validator ends with nothing pending on the exchanges of a history with distinct ids, and rejects the others. |
| History.TruncateText | internal/agent/llm/next_action.go:829-854 | Never more runes than the limit, and the trimmed text itself when it fits. |
| History.TruncationIs | internal/agent/llm/next_action.go:829-854 | A text that does not fit is cut to what the suffix leaves of the limit, and the suffix shows it. |
| History.EntryIs | internal/agent/llm/next_action.go:634-652 | An entry is caption, separator and cleaned body; the body is whole when it has room, 1200 runes at most for a tool, and otherwise cut. |
| History.PinnedIs | internal/agent/llm/next_action.go:409-414 | A pinned root takes at most 1200 of the budget, and is pinned exactly when that entry is not blank. |
| History.ThreadRootIndex | internal/agent/llm/next_action.go:611-628 | The first item that starts the thread, if the history is one thread's. |
| History.ConversationContextMessage | internal/agent/llm/next_action.go:359-407 | For every list of items: at most the budget's runes, entries in original order, the thread root chosen first and then the newest that fit. |
| History.SelectEntries | internal/agent/llm/next_action.go:373-396 | The chosen entries are the pinned root and each entry the walk from the newest back reaches with budget left. |
| History.WidthIs | internal/agent/llm/next_action.go:829-854 | A rune counts the fewest bytes that UTF-8 can write it in, section 3 of RFC 3629. |
| History.HistoryFitsBudget | internal/agent/llm/next_action.go:359-407 | Any selection the walk can make fits the budget in runes, although costs are counted in bytes. |
| History.RunesFit | internal/agent/llm/next_action.go:373-396 | Only the last entry chosen may cost more bytes than are left, and never more runes. |
| History.BudgetsAddUpIff | internal/agent/llm/next_action.go:445-461 | The two budgets together keep the limit exactly when there are no summaries or the limit is outside 1429 to 3330. |
| History.BudgetsOverrun | internal/agent/llm/next_action.go:445-461 | With summaries and a limit of 2000 the budgets are 1400 and 1000. |
| History.SharesAre | internal/agent/llm/next_action.go:445-461 | With summaries they get seven tenths of the limit and the history the rest, but half the limit where a share would be under a thousand. |
| Splitter.SplitText | internal/channels/text.go:13-47 | The loop computes the split that the next row characterises, and terminates. |
| Splitter.SplitIsLosslessAndBounded | internal/channels/text.go:13-47 | Chunks are trimmed, non-empty and within the limit, join to the trimmed text with white space only between them, and each cut is natural where it can be, never leaving a lone heading there. |
| Splitter.LongestPrefixByRunes | internal/channels/text.go:49-61 | The longest beginning within the limit. |
| Splitter.BestTextSplit | internal/channels/text.go:63-86 | Paragraph, then line, then sentence, then white space, else the hard limit. |
| Splitter.LastMultiLineBoundary | internal/channels/text.go:127-151 | The last paragraph boundary within the cut. |
| Splitter.LastLineBoundary | internal/channels/text.go:153-158 | The last line boundary within the cut. |
| Splitter.LastDotBoundary | internal/channels/text.go:160-173 | The last sentence end within the cut. |
| Splitter.DotBoundaryEnd | internal/channels/text.go:175-189 | A dot ends a sentence at the one place after its closing punctuation where white space follows. |
| Splitter.LastWhitespaceBoundary | internal/channels/text.go:191-200 | The last white space within the cut. |
| Splitter.IsMarkdownHeading | internal/channels/text.go:119-125 | Recognises ATX headings, section 4.2 of CommonMark 0.31: one to six hashes and a blank or the end. |
| Splitter.HeadingSafe | internal/channels/text.go:88-117 | A cut moved for a heading stays inside the text and never leaves a heading alone. |
| Splitter.HeadingSafeIs | internal/channels/text.go:88-117 | A cut is given up exactly when what stands before it is a single line and a heading. |
| Splitter.CutMovesBefore | internal/channels/text.go:88-117 | A cut moves back over the last line before it exactly when that line is a heading and not the first. |
| Splitter.CutAtEndStays | internal/channels/text.go:88-117 | A cut at either end of the text stays where it is. |
| Splitter.ClosingIs | internal/channels/text.go:202-209 | Closing punctuation is a quote or a closing bracket. |
| Text.WhiteSpaceIs | internal/channels/text.go:191-200 | White space is exactly the twenty-five runes with that property in Unicode. |
| Terminal.TerminalOutput | internal/textclean/terminal.go:6-31 | The index loop computes the output of a six-mode machine over the CR-normalised runes. |
| Terminal.SkipEscapeSequence | internal/textclean/terminal.go:33-51 | Skipping leaves the machine where reading rune by rune would, and emits nothing it would not. |
| Terminal.SkipCSISequence | internal/textclean/terminal.go:53-61 | A control sequence is skipped through its final byte, section 5.4 of ECMA-48. |
| Terminal.SkipStringSequence | internal/textclean/terminal.go:63-74 | A control string is skipped through its terminator, section 5.6 of ECMA-48, or to the end. |
| Terminal.CleanIsProjection | internal/textclean/terminal.go:6-31 | The output has no control rune but newline and tab and is a subsequence of the normalised input. |
| Terminal.PlainTextIsShown | internal/textclean/terminal.go:6-31 | From a text without escape introducers nothing but control runes is lost. |
| Terminal.LineEndingsAre | internal/textclean/terminal.go:6-12 | Every CR LF and every CR alone becomes one newline. |
| Terminal.CleanIdempotent | internal/textclean/terminal.go:6-31 | Cleaning twice is cleaning once. |
| Terminal.CleanConcat | internal/textclean/terminal.go:6-31 | Cleaning distributes over a cut after a text that leaves the machine in its ground mode, unless it splits CR LF. |
| Terminal.CleanDistributesIffClosed | internal/textclean/terminal.go:6-31 | A text can be cleaned apart from whatever follows exactly when it ends in the ground mode and not in CR. |
| Terminal.PlainTextIsClosed | internal/textclean/terminal.go:6-31 | A text without ESC and U+009B that does not end in CR is such a text. |
| Terminal.EscapeSequencesAreRemoved | internal/textclean/terminal.go:33-74 | A control sequence, a control string or a short escape sequence between two texts disappears without touching either. |
| Glob.GlobRegexp | internal/tools/glob/glob.go:284-321 | The one-pass loop emits the text of the translation, or its failure. A pattern without wildcards is emitted between anchors with a backslash before exactly the fourteen operators of regular expressions. |
| Glob.AppendCharacterClass | internal/tools/glob/glob.go:323-349 | A class is copied through its closing bracket with its negation, or fails because it has none or holds a slash. |
| Glob.TranslationPreservesMeaning | internal/tools/glob/glob.go:284-321 | The translated expression accepts exactly the paths that the recursive matcher accepts: all of them when no token is a double star, the newline-free ones otherwise. |
| Glob.CompiledGlobMeansGlob | internal/tools/glob/glob.go:284-321 | The emitted text parses as a regular expression, and that one accepts what the matcher accepts, on the same paths. |
| Glob.TranslationFailsIff | internal/tools/glob/glob.go:323-349 | Translation fails exactly on a reached class that is unterminated or contains a slash. |
| Glob.WildcardsKeepDepth | internal/tools/glob/glob.go:286-315 | Without `**` and classes a match has as many slashes as the pattern: `*` and `?` never consume one. |
| Glob.TranslationSound | internal/tools/glob/glob.go:284-321 | Whatever path the expression accepts, newlines or not, the matcher accepts. |
| Glob.AgreesEverywhereIff | internal/tools/glob/glob.go:284-321 | Expression and matcher agree on all paths exactly when no token is a double star, or some class is empty and neither accepts anything. |
| Regexp.TextReadsBack | internal/tools/glob/glob.go:284-321 | The anchored text of every printable expression parses to that expression. |
| Regexp.OperatorsAreNotLiterals | internal/tools/glob/glob.go:315-316 | The reader takes a rune for itself exactly when it is none of the fourteen operators, or has a backslash before it. |
| DotEnv.ReadDotEnvValues | cmd/opencto/configure.go:254-267 | Reads the last assignment of every name. |
| DotEnv.WriteDotEnvValues | cmd/opencto/configure.go:269-297 | The written file is the old one with assigned names rewritten in place and missing names appended, in some order; no update, no change. |
| DotEnv.RewriteAssigned | cmd/opencto/configure.go:278-286 | Every line that assigns an updated name is rewritten, and exactly the updated names assigned anywhere are noted. |
| DotEnv.AppendMissing | cmd/opencto/configure.go:287-292 | One line for every updated name not yet assigned, whatever the order of the map. |
| DotEnv.ReadBackIffSurvives | cmd/opencto/configure.go:347-355 | A value reads back as written exactly when, if it is written in quotes, it has no quote or backslash, and otherwise there is nothing to trim from it. |
| DotEnv.ParseWrittenLine | cmd/opencto/env.go:424-446 | The line written for a clean name is read as that name with the read-back value. |
| DotEnv.LineSaysNothing | cmd/opencto/env.go:424-434 | A line that is blank, a comment or without an = says nothing. |
| DotEnv.LineAssigns | cmd/opencto/env.go:424-446 | Any other line assigns what follows its first =, without a pair of quotes around it, to the name before it, without a leading export. |
| DotEnv.WrittenIs | cmd/opencto/configure.go:347-355 | A value is written as it is, or in double quotes with a backslash before exactly its backslashes and double quotes, when it has a blank, a tab, a hash, a quote or a backslash. |
| DotEnv.JoinSplit | cmd/opencto/configure.go:269-297 | Joining the lines of a file gives the file. |
| DotEnv.ReadAfterWrite | cmd/opencto/configure.go:254-297 | Reading after an update of one-line values gives the old map overridden by the read-back updates, with duplicates and any order. |
| DotEnv.WriteThenRead | cmd/opencto/configure.go:254-297 | The round trip holds exactly when every updated value is one line and survives. |
| DotEnv.UpdateKeepsOtherLines | cmd/opencto/configure.go:269-297 | Every line that assigns no updated name stays verbatim at its index. |

## Left out

- The workflow engine itself: retries, timeouts, heartbeats, replay. An activity is one
  question with one answer, success or failure, and a selector choice is a given.
- Channels, the model providers, embedding, image fetching, the command line, configuration
  files other than dotenv, and the SQLite store: input and output only.
- Prompt templates and the labels of history entries: parameters. The separator between an
  entry's label and its text has at most four characters.
- The conversation items themselves: removal of current events and of adjacent duplicates,
  and the compaction of tool messages, happen before the list that `History` receives.
- The next action document with its work items: whether it accepts an observation, and the
  work item a tool choice belongs to, are answers of the world.
- Message texts: failure messages, process notices, the reset confirmation and the report
  target of a task are given, not composed.
- Hashes and JSON codecs. Call ids of completion tools are given as a function of the turn, and
  the hash in a made call id as part of the answer; hashes have no white space to trim.
- Requested action, command, arguments and input of a tool result: no logic reads them here.
- Operating-system processes: references with a status and a scope; any scope that is not
  the project scope counts as stop-on-finish.
- Conversation compression at the start of a task, whose failure the task ignores.
- The response session of a task, and the tools used and files touched by an agent.
- Unicode case folding: lower-casing is exact where the result is ASCII.
- Bytes and invalid UTF-8: strings are sequences of runes; lengths in bytes are computed from
  runes where the code counts bytes.
- Go's regular expressions beyond what the compiler emits: literals, classes, dot, star and
  optional groups under anchors.
- The order in which Go walks a map: the updater's appended lines come in some order, over
  which the theorems quantify.
- Progress of the project workflow after continue-as-new: there is none, see above.
- A chunk that never ends in a heading: two headings in a row defeat it, and the splitter
  promises only that no chunk cut at a natural boundary is a lone heading.
- Process references of an agent child that returns an error: the parent does not see them.
- Glob.CompiledGlobMeansGlob: covers ASCII patterns whose class bodies are plain characters and
  ranges, because a class body is handed to the regular-expression parser as it is.
- Compression.AgentObservationSourceChars: the size of one observation is a parameter,
  because it adds up fields that no other logic reads.
- NextActionActivity.PrepareTool: puts only the call id, the work item and the batch of call ids
  on a choice; the text of the assistant, the run mode, the timeout, the scopes and the cycle are
  further keys that no other logic here reads.
- ProjectWorkflow.ProjectWorkflow.FirstActive: finds the least event id by one pass instead
  of sorting all of them.
- Agent.AgentRun.KeepCompletion: does not model the text of the success message.
