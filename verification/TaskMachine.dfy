// The task workflow of internal/runtime/workflows/task.go as a state machine: what each of
// its steps does, given what the world answers at that moment.
module TaskMachine {
  import opened Text
  import opened Domain
  import opened Signals
  import opened Processes
  import opened NextActionActivity
  import Project

  const MAX_CYCLES := 50

  datatype TaskInput = TaskInput(event: Event, additional: seq<Event>, resumed: bool, onboarding: bool)

  // Preparing workflow authoring either fails or plans an agent child.
  datatype Authoring = Refused(error: string) | Planned(choice: ToolChoice, metadata: Metadata)

  // What the world answers at each moment: stores, waiting context signals, the engine, what
  // a wait for a tool or a child brings, and how authoring is prepared and cleaned up.
  datatype Env = Env(
    stores: nat -> bool, arrived: nat -> seq<Event>, delivers: nat -> bool, engine: nat -> EngineReply,
    wakeups: (nat, ToolChoice, int) -> seq<Wakeup>, childStart: nat -> Option<string>,
    authoring: nat -> Authoring, cleans: nat -> bool)

  datatype RunResult = RunResult(
    completed: bool, status: Option<ActionStatus>, message: string, attachments: seq<string>, report: bool)

  // A run ends with a result or an error, or still waits with signals not yet stored.
  datatype Exit = Finished(result: RunResult) | Errored | StillWaiting(signals: seq<TaskSignal>)

  function ResultFrom(r: ActionResult): RunResult {
    var message := TrimSpace(r.message);
    RunResult(r.status == Completed || r.status == Ignored, Some(r.status), message, r.attachments,
              r.status != Ignored && (message != "" || r.attachments != []))
  }

  const Incomplete := RunResult(false, None, "", [], false)
  const ResetDone := RunResult(true, Some(Completed), "reset", ["erase"], true)

  // ---- one tool ----------------------------------------------------------------------

  predicate IsAuthoringTool(tool: string) {
    tool == "workflow_create" || tool == "workflow_update"
  }

  // Agent children are handed the signals that arrive while they run.
  predicate RunsChild(tool: string) {
    tool == "agent" || IsAuthoringTool(tool)
  }

  // What the parent records for an authoring child.
  function AuthoringResult(choice: ToolChoice, r: ToolResult, plan: Metadata): ToolResult {
    r.(tool := choice.tool, toolCallId := ChoiceCallId(choice),
       metadata := r.metadata + map["tool_call_id" := ChoiceCallId(choice)] + plan)
  }

  // How the step for one choice ends when it begins at moment t: an agent child, workflow
  // authoring by an agent child, or a tool activity.
  function StepFor(env: Env, t: nat, choice: ToolChoice, workItemId: string, cycle: int): StepEnd {
    if choice.tool == "agent" then ChildFor(env, t, choice, workItemId, cycle)
    else if IsAuthoringTool(choice.tool) then AuthoringFor(env, t, choice, workItemId, cycle)
    else ToolStepEnd(choice, workItemId, cycle, env.wakeups(t, choice, cycle))
  }

  function ChildFor(env: Env, t: nat, choice: ToolChoice, workItemId: string, cycle: int): StepEnd {
    AgentStepEnd(choice, workItemId, cycle, env.childStart(t), env.wakeups(t, choice, cycle))
  }

  // A successful authoring child is never reported as canceled; after a failed one the
  // plan is cleaned up, which may fail as well.
  function AuthoringFor(env: Env, t: nat, choice: ToolChoice, workItemId: string, cycle: int): StepEnd {
    match env.authoring(t)
    case Refused(error) => Ended(FailedExecution(choice, workItemId, cycle, error), false, false, [])
    case Planned(childChoice, plan) =>
      var end := ChildFor(env, t, childChoice, workItemId, cycle);
      if end.Waiting? then end
      else
        var result := AuthoringResult(choice, end.result, plan);
        if result.status == "succeeded" then end.(result := result, canceled := false)
        else if env.cleans(t) then end.(result := result)
        else end.(result := CleanupFailed(result))
  }

  function CleanupFailed(r: ToolResult): ToolResult {
    r.(status := "failed", resultCode := "1",
       error := if Blank(r.error) then "workflow authoring failed" else TrimSpace(r.error))
  }

  // ---- the state -----------------------------------------------------------------------

  // Where a run is: before each of these the workflow has just done what comes before it.
  // The call of cycle MAX_CYCLES + 1 is the forced one.
  datatype Phase =
    | Opening
    | Draining(cycle: int)
    | Calling(cycle: int)
    | Answered(cycle: int, next: ActionResult)
    | Using(cycle: int, choices: seq<ToolChoice>, workItemId: string, index: nat)
    | Concluding(next: ActionResult)
    | Failing
    | Stopping
    | Over(exit: Exit)

  // The workflow's variables, the activities it has issued, and where it is.
  datatype World = World(
    clock: nat, additional: seq<Event>, history: seq<Feedback>, last: seq<ToolResult>, processes: seq<Process>,
    calls: seq<Request>, storedEvents: seq<Event>, storedResults: seq<ToolResult>, storedActions: seq<ActionStatus>,
    forwarded: seq<TaskSignal>, storeFailed: bool, phase: Phase)

  function Start(input: TaskInput): World {
    World(0, input.additional, [], [], [], [], [], [], [], [], false, Opening)
  }

  // ---- the steps -------------------------------------------------------------------------

  function StoreFails(w: World, clock: nat, phase: Phase): World {
    w.(clock := clock + 1, storeFailed := true, phase := phase)
  }

  // The reset command is one store; any other run stores its event, unless it is resumed,
  // and prepares onboarding.
  function AfterOpening(input: TaskInput, env: Env, w: World): World {
    if Project.IsResetCommand(input.event.body) then
      if env.stores(w.clock) then w.(clock := w.clock + 1, phase := Over(Finished(ResetDone)))
      else StoreFails(w, w.clock, Over(Errored))
    else if !input.resumed && !env.stores(w.clock) then StoreFails(w, w.clock, Over(Errored))
    else
      var begun := if input.resumed then w else w.(clock := w.clock + 1,
                                                storedEvents := w.storedEvents + [input.event]);
      if !input.onboarding then begun.(phase := Draining(1))
      else if env.stores(begun.clock) then begun.(clock := begun.clock + 1, phase := Draining(1))
      else StoreFails(begun, begun.clock, Over(Errored))
  }

  function Arrivals(env: Env, t: nat): seq<TaskSignal> {
    SignalsOf(ContextSignal, env.arrived(t))
  }

  function AfterDraining(env: Env, w: World, cycle: int): World {
    var signals := Arrivals(env, w.clock);
    var p := Persist(signals, env.stores, w.clock + 1);
    w.(clock := p.clock, additional := w.additional + Added(signals), storedEvents := w.storedEvents + p.events,
       storeFailed := w.storeFailed || !p.ok, phase := if p.ok then Calling(cycle) else Failing)
  }

  // The activity may fail on its own, or be lost.
  function AnswerAt(env: Env, t: nat, request: Request): Option<ActionResult> {
    if env.delivers(t) then ActionFor(request, env.engine(t)) else None
  }

  function RequestOf(w: World, cycle: int): Request {
    Regular(w.additional, w.last, w.history, w.processes, cycle, cycle == MAX_CYCLES + 1)
  }

  function AfterCalling(env: Env, w: World, cycle: int): World {
    var request := RequestOf(w, cycle);
    var called := w.(clock := w.clock + 1, calls := w.calls + [request]);
    match AnswerAt(env, w.clock, request)
    case None => called.(phase := Failing)
    case Some(next) => called.(history := w.history + next.observations, phase := Answered(cycle, next))
  }

  function AfterAnswer(env: Env, w: World, cycle: int, next: ActionResult): World {
    if !env.stores(w.clock) then StoreFails(w, w.clock, Failing)
    else
      var noted := w.(clock := w.clock + 1, storedActions := w.storedActions + [next.status]);
      if IsTerminal(next) then noted.(phase := Concluding(next))
      else if cycle > MAX_CYCLES || next.choices == [] || Blank(next.workItemId) then noted.(phase := Failing)
      else noted.(last := [], phase := Using(cycle, next.choices, next.workItemId, 0))
  }

  function NextCycle(cycle: int): Phase {
    if cycle < MAX_CYCLES then Draining(cycle + 1) else Calling(MAX_CYCLES + 1)
  }

  function AfterStep(env: Env, w: World, cycle: int, choices: seq<ToolChoice>, workItemId: string, i: nat): World
    requires i < |choices|
  {
    var end := StepFor(env, w.clock, choices[i], workItemId, cycle);
    var handed := if RunsChild(choices[i].tool) then end.signals else [];
    var waited := w.(clock := w.clock + 1, additional := w.additional + Added(end.signals),
                     forwarded := w.forwarded + handed);
    if end.Waiting? then waited.(phase := Over(StillWaiting(end.signals)))
    else TakeStep(env, waited.(processes := MergeAll(true, w.processes, end.result.processes)), end,
                  if end.interrupted then NextCycle(cycle) else Using(cycle, choices, workItemId, i + 1))
  }

  // The signals of a step are stored before its result, and a canceled step stores none.
  function TakeStep(env: Env, w: World, end: StepEnd, then_: Phase): World
    requires end.Ended?
  {
    var p := Persist(end.signals, env.stores, w.clock);
    var kept := w.(clock := p.clock, storedEvents := w.storedEvents + p.events, storeFailed := w.storeFailed || !p.ok);
    if !p.ok then kept.(phase := Failing)
    else if end.canceled then kept.(phase := Stopping)
    else if !env.stores(kept.clock) then StoreFails(kept, kept.clock, Failing)
    else kept.(clock := kept.clock + 1, storedResults := w.storedResults + [end.result],
               last := w.last + [end.result], phase := then_)
  }

  function AfterConcluding(input: TaskInput, env: Env, w: World, next: ActionResult): World {
    if !input.onboarding then w.(phase := Over(Finished(ResultFrom(next))))
    else if env.stores(w.clock) then w.(clock := w.clock + 1, phase := Over(Finished(ResultFrom(next))))
    else StoreFails(w, w.clock, Failing)
  }

  // The call that only asks for the cleanup of the processes.
  function AfterCleanup(env: Env, w: World): World {
    var request := Completion(w.processes);
    var called := w.(clock := w.clock + 1, calls := w.calls + [request]);
    match AnswerAt(env, w.clock, request)
    case None => called.(phase := Over(Errored))
    case Some(next) => called.(phase := Over(Finished(ResultFrom(next))))
  }

  function Next(input: TaskInput, env: Env, w: World): World {
    match w.phase
    case Opening => AfterOpening(input, env, w)
    case Draining(cycle) => AfterDraining(env, w, cycle)
    case Calling(cycle) => AfterCalling(env, w, cycle)
    case Answered(cycle, next) => AfterAnswer(env, w, cycle, next)
    case Using(cycle, choices, workItemId, i) =>
      if i < |choices| then AfterStep(env, w, cycle, choices, workItemId, i) else w.(phase := NextCycle(cycle))
    case Concluding(next) => AfterConcluding(input, env, w, next)
    case Failing => if w.processes == [] then w.(phase := Over(Errored)) else AfterCleanup(env, w)
    case Stopping => if w.processes == [] then w.(phase := Over(Finished(Incomplete))) else AfterCleanup(env, w)
    case Over(_) => w
  }

  // The state after n steps of the run.
  function After(input: TaskInput, env: Env, n: nat): World {
    if n == 0 then Start(input) else Next(input, env, After(input, env, n - 1))
  }
}
