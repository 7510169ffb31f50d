// What an agent does with one tool choice, and how many turns it has, in the words of the
// request, the choices and the world themselves.
module AgentRules {
  import opened Text
  import opened Domain
  import opened Signals
  import opened Processes
  import opened NextActionActivity
  import opened AgentMachine
  import opened AgentLaws

  // An agent that asks for no turns has fifty, and none has more than a hundred.
  lemma TurnsAre(input: AgentInput)
    ensures Limit(input)
         == match input.request
            case None => 0
            case Some(r) => if r.maxTurns <= 0 then 50 else if r.maxTurns > 100 then 100 else r.maxTurns
  {
  }

  // The run ends as failed at a choice that is not among the allowed ones, or that asks for
  // another agent; any other choice is run with the lineage of the agent in its metadata.
  lemma OnlyAllowedToolsRun(input: AgentInput, env: AgentEnv, w: World, r: AgentRequest)
    requires w.phase.Using? && w.phase.index < |w.phase.choices| && input.request == Some(r)
    ensures var (turn, c) := (w.phase.turn, w.phase.choices[w.phase.index]);
            if c.tool == "agent" || c.tool !in r.allowed
            then Next(input, env, w) == w.(phase := Over(Returned("failed", turn, w.processes)))
                 && StepIn(input, env, w) == None
            else
              var run := c.(metadata := c.metadata + input.lineage);
              StepIn(input, env, w)
              == Some(ToolStepEnd(run, w.phase.workItemId, turn, env.wakeups(w.clock, run, turn)))
  {
    hide ToolStepEnd, Persist, MergeAll, Added, NextTurn;
  }

  // The completion tool is run under the id made for the turn, outside any work item.
  lemma CompletionIs(input: AgentInput, env: AgentEnv, w: World)
    requires w.phase.Completing?
    ensures var (turn, tool) := (w.phase.turn, w.phase.tool);
            var run := tool.(toolCallId := input.completionIds(turn), metadata := tool.metadata + input.lineage);
            StepIn(input, env, w) == Some(ToolStepEnd(run, "", turn, env.wakeups(w.clock, run, turn)))
  {
    hide ToolStepEnd;
  }

  // A result is stored as the tool gave it, with the lineage added to its metadata.
  lemma ResultsAreAnnotated(input: AgentInput, env: AgentEnv, w: World)
    ensures |ResultMade(input, env, w)| <= 1
    ensures ResultMade(input, env, w) != [] ==>
              var was := StepIn(input, env, w).value.result;
              ResultMade(input, env, w) == [was.(metadata := was.metadata + input.lineage)]
  {
    hide StepFor;
  }
}
