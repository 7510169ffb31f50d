// The agent child workflow of internal/runtime/workflows/agent.go as a state machine: what
// each of its steps does, given what the world answers at that moment.
module AgentMachine {
  import opened Text
  import opened Domain
  import opened Signals
  import opened Processes
  import opened NextActionActivity
  import opened Compression

  const DEFAULT_TURNS := 50
  const TURNS_LIMIT := 100

  function Turns(asked: int): (n: nat)
    ensures 0 < n <= TURNS_LIMIT
  {
    if asked <= 0 then DEFAULT_TURNS else if asked > TURNS_LIMIT then TURNS_LIMIT else asked
  }

  // The decoded request: the tools an agent may use and the turns it asks for.
  datatype AgentRequest = AgentRequest(allowed: seq<string>, maxTurns: int)

  datatype AgentInput = AgentInput(
    request: Option<AgentRequest>, additional: seq<Event>, observations: seq<Feedback>, summary: string,
    completionTool: Option<ToolChoice>, completionIds: int -> string, lineage: Metadata, limits: Limits)

  // What the world answers at each moment.
  datatype AgentEnv = AgentEnv(
    stores: nat -> bool, contexts: nat -> seq<Event>, cancels: nat -> seq<Event>, interrupts: nat -> seq<Event>,
    delivers: nat -> bool, engine: nat -> EngineReply, compressor: nat -> CompressorReply,
    wakeups: (nat, ToolChoice, int) -> seq<Wakeup>)

  datatype AgentExit =
    | Returned(status: string, turns: int, processes: seq<Process>)
    | Errored
    | StillWaiting(signals: seq<TaskSignal>)

  // A call for the next action carries the summary of the run beside the raw history.
  datatype AgentCall = AgentCall(request: Request, summary: string)

  predicate Allowed(choice: ToolChoice, allowed: seq<string>) {
    choice.tool != "agent" && choice.tool in allowed
  }

  function Annotated(r: ToolResult, lineage: Metadata): ToolResult {
    r.(metadata := r.metadata + lineage)
  }

  function AnnotatedChoice(c: ToolChoice, lineage: Metadata): ToolChoice {
    c.(metadata := c.metadata + lineage)
  }

  function CompletionChoice(input: AgentInput, tool: ToolChoice, turn: int): ToolChoice {
    AnnotatedChoice(tool.(toolCallId := input.completionIds(turn)), input.lineage)
  }

  // ---- the state ---------------------------------------------------------------------

  // Where a run is. The call of turn `turns + 1` is the forced one.
  datatype Phase =
    | Opening
    | Beginning(turn: int)
    | Compressing(turn: int)
    | Calling(turn: int)
    | Answered(turn: int, next: ActionResult)
    | Using(turn: int, choices: seq<ToolChoice>, workItemId: string, index: nat)
    | Completing(turn: int, tool: ToolChoice)
    | Over(exit: AgentExit)

  datatype World = World(
    clock: nat, additional: seq<Event>, history: seq<Feedback>, summary: string, last: seq<ToolResult>,
    processes: seq<Process>, calls: seq<AgentCall>, storedEvents: seq<Event>, storedResults: seq<ToolResult>,
    storeFailed: bool, phase: Phase)

  function Start(input: AgentInput): World {
    World(0, input.additional, input.observations, TrimSpace(input.summary), [], [], [], [], [], false, Opening)
  }

  function Limit(input: AgentInput): nat {
    if input.request.Some? then Turns(input.request.value.maxTurns) else 0
  }

  function ReturnOf(w: World, status: string, turns: int): Phase {
    Over(Returned(status, turns, w.processes))
  }

  // ---- the steps -----------------------------------------------------------------------

  function AfterOpening(input: AgentInput, w: World): World {
    w.(phase := if input.request.Some? then Beginning(1) else ReturnOf(w, "failed", 0))
  }

  // Context events first, then cancels, then interrupts.
  function Arrivals(env: AgentEnv, t: nat): seq<TaskSignal> {
    SignalsOf(ContextSignal, env.contexts(t)) + SignalsOf(CancelSignal, env.cancels(t))
    + SignalsOf(InterruptSignal, env.interrupts(t))
  }

  // An interrupt drops the results of the last turn, unless the run ends here.
  function AfterBeginning(env: AgentEnv, w: World, turn: int): World {
    var signals := Arrivals(env, w.clock);
    var p := Persist(signals, env.stores, w.clock + 1);
    var begun := w.(clock := p.clock, additional := w.additional + Added(signals),
                     storedEvents := w.storedEvents + p.events,
                    storeFailed := w.storeFailed || !p.ok);
    if !p.ok then begun.(phase := Over(Errored))
    else if env.cancels(w.clock) != [] then begun.(phase := ReturnOf(w, "canceled", turn - 1))
    else begun.(last := if env.interrupts(w.clock) != [] then [] else w.last, phase := Compressing(turn))
  }

  function CompressedAt(input: AgentInput, env: AgentEnv, w: World): Option<Compressed> {
    if env.delivers(w.clock)
    then CompressAgentObservations(input.limits, w.summary, w.history, env.compressor(w.clock))
    else None
  }

  function AfterCompressing(input: AgentInput, env: AgentEnv, w: World, turn: int): World {
    var later := w.(clock := w.clock + 1);
    match CompressedAt(input, env, w)
    case None => later.(phase := ReturnOf(w, "failed", turn - 1))
    case Some(c) => later.(summary := TrimSpace(c.summary), history := c.remaining, phase := Calling(turn))
  }

  function AnswerAt(env: AgentEnv, t: nat, request: Request): Option<ActionResult> {
    if env.delivers(t) then ActionFor(request, env.engine(t)) else None
  }

  function RequestOf(input: AgentInput, w: World, turn: int): Request {
    Regular(w.additional, w.last, w.history, w.processes, turn, turn > Limit(input))
  }

  function AfterCalling(input: AgentInput, env: AgentEnv, w: World, turn: int): World {
    var request := RequestOf(input, w, turn);
    var called := w.(clock := w.clock + 1, calls := w.calls + [AgentCall(request, w.summary)]);
    match AnswerAt(env, w.clock, request)
    case None => called.(phase := ReturnOf(w, "failed", turn - 1))
    case Some(next) =>
      called.(history := w.history + next.observations, processes := MergeAll(false, w.processes, next.processes),
              phase := Answered(turn, next))
  }

  // The action is stored, then the run ends, the completion tool is run, or tools are.
  function AfterAnswer(input: AgentInput, env: AgentEnv, w: World, turn: int, next: ActionResult): World {
    var noted := w.(clock := w.clock + 1);
    if !env.stores(w.clock) then noted.(storeFailed := true, phase := Over(Errored))
    else if IsTerminal(next) then
      if next.status == Completed && input.completionTool.Some?
      then noted.(phase := Completing(turn, input.completionTool.value))
      else noted.(phase := ReturnOf(w, if next.status == Completed then "succeeded" else "failed", turn))
    else if turn > Limit(input) || next.choices == [] || Blank(next.workItemId)
        then noted.(phase := ReturnOf(w, "failed", turn))
    else noted.(last := [], phase := Using(turn, next.choices, next.workItemId, 0))
  }

  // The turn after this one, the forced call after the last.
  function NextTurn(input: AgentInput, turn: int): Phase {
    if turn < Limit(input) then Beginning(turn + 1) else Calling(Limit(input) + 1)
  }

  function StepFor(input: AgentInput, env: AgentEnv, t: nat, choice: ToolChoice, workItemId: string,
        turn: int): StepEnd
  {
    ToolStepEnd(choice, workItemId, turn, env.wakeups(t, choice, turn))
  }

  // What a step has consumed and started.
  function Stepped(w: World, end: StepEnd): World {
    w.(clock := w.clock + 1, additional := w.additional + Added(end.signals),
       processes := if end.Ended? then MergeAll(false, w.processes, end.result.processes) else w.processes)
  }

  // One tool of a turn: a tool that is not allowed ends the run, and so does a cancel.
  function AfterStep(input: AgentInput, env: AgentEnv, w: World, turn: int, choices: seq<ToolChoice>,
        workItemId: string, i: nat): World
    requires i < |choices| && input.request.Some?
  {
    if !Allowed(choices[i], input.request.value.allowed) then w.(phase := ReturnOf(w, "failed", turn))
    else
      var end := StepFor(input, env, w.clock, AnnotatedChoice(choices[i], input.lineage), workItemId, turn);
      if end.Waiting? then Stepped(w, end).(phase := Over(StillWaiting(end.signals)))
      else
        TakeStep(input, env, Stepped(w, end), end, turn,
                 if end.interrupted then NextTurn(input, turn) else Using(turn, choices, workItemId, i + 1))
  }

  function TakeStep(input: AgentInput, env: AgentEnv, w: World, end: StepEnd, turn: int, then_: Phase): World
    requires end.Ended?
  {
    var p := Persist(end.signals, env.stores, w.clock);
    var kept := w.(clock := p.clock, storedEvents := w.storedEvents + p.events, storeFailed := w.storeFailed || !p.ok);
    var result := Annotated(end.result, input.lineage);
    if !p.ok then kept.(phase := Over(Errored))
    else if end.canceled then kept.(phase := ReturnOf(w, "canceled", turn))
    else if !env.stores(kept.clock) then kept.(clock := kept.clock + 1, storeFailed := true, phase := Over(Errored))
    else kept.(clock := kept.clock + 1, storedResults := w.storedResults + [result],
               last := w.last + [result], phase := then_)
  }

  // The tool that must succeed before the agent counts as done. Its result is stored even
  // when its signals could not be.
  function AfterCompleting(input: AgentInput, env: AgentEnv, w: World, turn: int, tool: ToolChoice): World {
    var end := StepFor(input, env, w.clock, CompletionChoice(input, tool, turn), "", turn);
    if end.Waiting? then Stepped(w, end).(phase := Over(StillWaiting(end.signals)))
    else TakeCompletion(input, env, Stepped(w, end), end, turn)
  }

  function TakeCompletion(input: AgentInput, env: AgentEnv, w: World, end: StepEnd, turn: int): World
    requires end.Ended?
  {
    var p := Persist(end.signals, env.stores, w.clock);
    var stored := env.stores(p.clock);
    var result := Annotated(end.result, input.lineage);
    var kept := w.(clock := p.clock + 1, storedEvents := w.storedEvents + p.events,
                   storeFailed := w.storeFailed || !p.ok || !stored,
                   storedResults := if stored then w.storedResults + [result] else w.storedResults);
    if result.status == "succeeded" then kept.(phase := ReturnOf(w, "succeeded", turn))
    else if !p.ok || !stored then kept.(phase := Over(Errored))
    else if end.canceled then kept.(phase := ReturnOf(w, "canceled", turn))
    else if turn > Limit(input) then kept.(phase := ReturnOf(w, "failed", turn))
    else kept.(last := [result], phase := NextTurn(input, turn))
  }

  function Next(input: AgentInput, env: AgentEnv, w: World): World {
    match w.phase
    case Opening => AfterOpening(input, w)
    case Beginning(turn) => AfterBeginning(env, w, turn)
    case Compressing(turn) => AfterCompressing(input, env, w, turn)
    case Calling(turn) => AfterCalling(input, env, w, turn)
    case Answered(turn, next) => AfterAnswer(input, env, w, turn, next)
    case Using(turn, choices, workItemId, i) =>
      if i < |choices| && input.request.Some? then AfterStep(input, env, w, turn, choices, workItemId, i)
      else w.(phase := NextTurn(input, turn))
    case Completing(turn, tool) => AfterCompleting(input, env, w, turn, tool)
    case Over(_) => w
  }

  // The state after n steps of the run.
  function After(input: AgentInput, env: AgentEnv, n: nat): World {
    if n == 0 then Start(input) else Next(input, env, After(input, env, n - 1))
  }
}
