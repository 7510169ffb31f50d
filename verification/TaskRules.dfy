// What a task does with one tool choice, and how often it asks, in the words of the choices
// and the world themselves.
module TaskRules {
  import opened Text
  import opened Domain
  import opened Signals
  import opened NextActionActivity
  import opened TaskMachine
  import TaskLaws

  // The id under which a choice asks for its result.
  function AskedId(c: ToolChoice): string {
    if AllSpace(c.toolCallId) then TrimSpace(Lookup(c.metadata, "tool_call_id")) else TrimSpace(c.toolCallId)
  }

  // The three agent tools run as children, which alone are handed the signals of the wait;
  // every other tool is an activity.
  lemma ToolsAre(env: Env, t: nat, c: ToolChoice, workItemId: string, cycle: int)
    ensures c.tool == "agent" ==>
              StepFor(env, t, c, workItemId, cycle)
              == AgentStepEnd(c, workItemId, cycle, env.childStart(t), env.wakeups(t, c, cycle))
    ensures c.tool !in {"agent", "workflow_create", "workflow_update"} ==>
              StepFor(env, t, c, workItemId, cycle) == ToolStepEnd(c, workItemId, cycle, env.wakeups(t, c, cycle))
    ensures RunsChild(c.tool) <==> c.tool in {"agent", "workflow_create", "workflow_update"}
  {
    hide AuthoringFor;
  }

  // Authoring that cannot be prepared fails with the error.
  lemma RefusedAuthoring(env: Env, t: nat, c: ToolChoice, workItemId: string, cycle: int)
    requires c.tool in {"workflow_create", "workflow_update"} && env.authoring(t).Refused?
    ensures var end := StepFor(env, t, c, workItemId, cycle);
            && end.Ended? && !end.canceled && !end.interrupted && end.signals == []
            && Unanswered(end.result, c, workItemId, cycle, "failed", env.authoring(t).error)
  {
    FailureIs(c, workItemId, cycle, env.authoring(t).error);
    hide FailedExecution, Unanswered;
  }

  // What is recorded for authoring: the end of its child, under the tool and the call that
  // were asked for and with the plan's metadata. A success was not canceled; a failure whose
  // plan cannot be cleaned up is a failure in any case, and names an error.
  predicate Authored(r: ToolResult, child: ToolResult, c: ToolChoice, plan: Metadata, cleaned: bool) {
    && r.cycle == child.cycle && r.workItemId == child.workItemId && r.tool == c.tool && r.toolCallId == AskedId(c)
    && r.observation == child.observation && r.workingDirectory == child.workingDirectory
    && r.processes == child.processes
    && r.metadata == child.metadata + map["tool_call_id" := AskedId(c)] + plan
    && if child.status == "succeeded" || cleaned
       then r.status == child.status && r.error == child.error && r.resultCode == child.resultCode
       else
         && r.status == "failed" && r.resultCode == "1"
         && r.error == if AllSpace(child.error) then "workflow authoring failed" else TrimSpace(child.error)
  }

  lemma PlannedAuthoring(env: Env, t: nat, c: ToolChoice, workItemId: string, cycle: int)
    requires c.tool in {"workflow_create", "workflow_update"} && env.authoring(t).Planned?
    ensures var (plan, end) := (env.authoring(t), StepFor(env, t, c, workItemId, cycle));
            var child :=
              AgentStepEnd(plan.choice, workItemId, cycle, env.childStart(t), env.wakeups(t, plan.choice, cycle));
            && (child.Waiting? ==> end == child)
            && (child.Ended? ==>
                  && end.Ended? && end.signals == child.signals && end.interrupted == child.interrupted
                  && (end.canceled <==> child.canceled && child.result.status != "succeeded")
                  && Authored(end.result, child.result, c, plan.metadata, env.cleans(t)))
  {
    var plan := env.authoring(t);
    var child := AgentStepEnd(plan.choice, workItemId, cycle, env.childStart(t), env.wakeups(t, plan.choice, cycle));
    if child.Ended? {
      AuthoredIs(child.result, c, plan.metadata);
      StatusStays(c, child.result, plan.metadata);
    }
    hide AgentStepEnd, Authored, AuthoringResult, CleanupFailed;
  }

  lemma StatusStays(c: ToolChoice, child: ToolResult, plan: Metadata)
    ensures AuthoringResult(c, child, plan).status == child.status
  {
    hide ChoiceCallId;
  }

  lemma AuthoredIs(child: ToolResult, c: ToolChoice, plan: Metadata)
    ensures var r := AuthoringResult(c, child, plan);
            && Authored(r, child, c, plan, true)
            && (child.status == "succeeded" ==> Authored(r, child, c, plan, false))
            && (child.status != "succeeded" ==> Authored(CleanupFailed(r), child, c, plan, false))
  {
    BlankIsAllSpace(c.toolCallId);
    BlankIsAllSpace(child.error);
    hide TrimSpace, AllSpace;
  }

  // A run asks at most 51 times for the next action, once a cycle, and is forced exactly the
  // last time; at most one cleanup call follows.
  lemma FiftyCycles(input: TaskInput, env: Env, n: nat)
    ensures var calls := After(input, env, n).calls;
            && |calls| <= 52
            && (forall k :: 0 <= k < |calls| ==>
                  if calls[k].Regular? then calls[k].cycle == k + 1 <= 51 else k == |calls| - 1)
            && (forall k :: 0 <= k < |calls| && calls[k].Regular? ==> (calls[k].forceFinal <==> k == 50))
  {
    TaskLaws.CallsInOrder(input, env, n);
    var w := After(input, env, n);
    hide After;
    if w.phase.Over? {
      var m := if w.calls != [] && w.calls[|w.calls| - 1].Completion? then |w.calls| - 1 else |w.calls|;
      assert forall k :: 0 <= k < m ==> w.calls[..m][k] == w.calls[k];
    }
  }
}
