// The NextAction activity: results become observations, the engine decides, and a task
// that ends has its stop-on-finish processes cleaned up.
module NextActionActivity {
  import opened Text
  import opened Domain
  import opened Signals

  datatype ActionStatus = UseTools | Completed | Blocked | FailedTask | Ignored | Unsupported(text: string)

  // What stopping a process answers: an error, or the status it has afterwards.
  datatype StopAnswer = StopError | StoppedAs(status: ProcessStatus)

  datatype Request =
    | Regular(additional: seq<Event>, lastResults: seq<ToolResult>, history: seq<Feedback>,
              processes: seq<Process>, cycle: int, forceFinal: bool)
    | Completion(processes: seq<Process>)

  // What the world answers during one activity: whether the context loads, whether the
  // observations fit the work items, the engine's output with the hash that stands in for a
  // missing call id, and what stopping processes says.
  datatype EngineReply = EngineReply(
    loads: bool, applies: bool, answers: bool, accepts: bool, prepares: bool,
    status: ActionStatus, choices: seq<ToolChoice>, workItemId: string, token: string,
    message: string, attachments: seq<string>, limitMessage: string,
    stops: nat -> StopAnswer, notice: string)

  datatype ActionResult = ActionResult(
    status: ActionStatus, observations: seq<Feedback>, choices: seq<ToolChoice>, workItemId: string,
    message: string, attachments: seq<string>, processes: seq<Process>)

  predicate IsTerminal(r: ActionResult) {
    r.status != UseTools
  }

  // ---- process cleanup -------------------------------------------------------------

  predicate NeedsStop(p: Process) {
    p.scope != ProjectScope && p.status == Running
  }

  predicate Stops(a: StopAnswer) {
    a.StoppedAs? && a.status != Running
  }

  function CleanedOne(p: Process, a: StopAnswer): Process {
    if NeedsStop(p) && Stops(a) then p.(status := a.status) else p
  }

  function CleanedAll(ps: seq<Process>, stops: nat -> StopAnswer): (r: seq<Process>)
    ensures |r| == |ps|
  {
    seq(|ps|, i requires 0 <= i < |ps| => CleanedOne(ps[i], stops(i)))
  }

  predicate AnyStopped(ps: seq<Process>, stops: nat -> StopAnswer) {
    exists i :: 0 <= i < |ps| && NeedsStop(ps[i]) && Stops(stops(i))
  }

  predicate AnyRefused(ps: seq<Process>, stops: nat -> StopAnswer) {
    exists i :: 0 <= i < |ps| && NeedsStop(ps[i]) && !Stops(stops(i))
  }

  method CleanupTaskProcesses(ps: seq<Process>, stops: nat -> StopAnswer)
    returns (updated: seq<Process>, stopped: bool, failed: bool)
    ensures updated == CleanedAll(ps, stops)
    ensures stopped == AnyStopped(ps, stops) && failed == AnyRefused(ps, stops)
  {
    if ps == [] {
      return [], false, false;
    }
    var entries := new Process[|ps|](i requires 0 <= i < |ps| => ps[i]);
    stopped, failed := false, false;
    for i := 0 to entries.Length
      invariant forall k :: 0 <= k < i ==> entries[k] == CleanedOne(ps[k], stops(k))
      invariant forall k :: i <= k < |ps| ==> entries[k] == ps[k]
      invariant stopped == exists k :: 0 <= k < i && NeedsStop(ps[k]) && Stops(stops(k))
      invariant failed == exists k :: 0 <= k < i && NeedsStop(ps[k]) && !Stops(stops(k))
    {
      var process := entries[i];
      if process.scope == ProjectScope || process.status != Running {
        continue;
      }
      var answer := stops(i);
      if answer == StopError || answer.status == Running {
        failed := true;
        continue;
      }
      entries[i] := process.(status := answer.status);
      stopped := true;
    }
    updated := entries[..];
  }

  // Cleanup keeps every entry in place and changes nothing but statuses. A stop-on-finish
  // process is left running exactly when cleanup reports a failure.
  lemma CleanupAccounts(ps: seq<Process>, stops: nat -> StopAnswer)
    ensures forall i :: 0 <= i < |ps| ==> CleanedAll(ps, stops)[i].(status := ps[i].status) == ps[i]
    ensures forall i :: 0 <= i < |ps| && !NeedsStop(ps[i]) ==> CleanedAll(ps, stops)[i] == ps[i]
    ensures AnyRefused(ps, stops) <==> exists i :: 0 <= i < |ps| && NeedsStop(CleanedAll(ps, stops)[i])
  {
    if AnyRefused(ps, stops) {
      var i :| 0 <= i < |ps| && NeedsStop(ps[i]) && !Stops(stops(i));
      assert NeedsStop(CleanedAll(ps, stops)[i]);
    }
  }

  // ---- ending a task -----------------------------------------------------------------

  method CompleteTask(status: ActionStatus, ps: seq<Process>, message: string, attachments: seq<string>,
        reply: EngineReply)
    returns (r: ActionResult)
    ensures r.processes == CleanedAll(ps, reply.stops)
    ensures r.status == if AnyRefused(ps, reply.stops) then FailedTask else status
    ensures r.attachments == attachments && r.observations == [] && r.choices == [] && r.workItemId == ""
    ensures r.message == if AnyRefused(ps, reply.stops) || AnyStopped(ps, reply.stops) then reply.notice else message
  {
    var cleaned, stopped, failed := CleanupTaskProcesses(ps, reply.stops);
    var text := if stopped || failed then reply.notice else message;
    r := ActionResult(if failed then FailedTask else status, [], [], "", text, attachments, cleaned);
  }

  // ---- preparing tool choices ---------------------------------------------------------

  // strings.Join(ids, ",")
  function Joined(ids: seq<string>): string {
    if ids == [] then "" else if |ids| == 1 then ids[0] else ids[0] + "," + Joined(ids[1..])
  }

  function OwnIds(cs: seq<ToolChoice>): seq<string> {
    seq(|cs|, i requires 0 <= i < |cs| => TrimSpace(cs[i].toolCallId))
  }

  // A choice without a call id takes one made from the work item and the cycle.
  function PreparedId(c: ToolChoice, token: string): string {
    if ChoiceCallId(c) != "" then ChoiceCallId(c) else "toolu_" + token
  }

  function Prepared(c: ToolChoice, workItemId: string, token: string, batch: string): ToolChoice {
    var id := PreparedId(c, token);
    c.(toolCallId := id,
       metadata := c.metadata["tool_call_id" := id]["work_item_id" := workItemId]["tool_call_ids" := batch])
  }

  function PreparedAll(cs: seq<ToolChoice>, workItemId: string, token: string): (r: seq<ToolChoice>)
    ensures |r| == |cs|
  {
    seq(|cs|, i requires 0 <= i < |cs| => Prepared(cs[i], workItemId, token, Joined(OwnIds(cs))))
  }

  // The call ids of a turn are usable: the given ones differ from each other, at most one
  // choice comes without, and then none comes with the made one.
  predicate UsableIds(cs: seq<ToolChoice>, token: string) {
    && (forall i, j :: 0 <= i < j < |cs| ==> ChoiceCallId(cs[i]) != ChoiceCallId(cs[j]))
    && (forall i, j :: 0 <= i < |cs| && 0 <= j < |cs| && ChoiceCallId(cs[i]) == "" ==>
          ChoiceCallId(cs[j]) != "toolu_" + token)
  }

  lemma PreparedIdIs(c: ToolChoice, workItemId: string, token: string, batch: string)
    requires Trimmed("toolu_" + token)
    ensures ChoiceCallId(Prepared(c, workItemId, token, batch)) == PreparedId(c, token) != ""
  {
    TrimSpaceOfTrimmed(PreparedId(c, token));
    hide TrimSpace;
  }

  // Every prepared choice has a call id, its own if it came with one, and the ids of a turn
  // are all different exactly when no two choices came with the same id, at most one came
  // without, and then none came with the id made for that one.
  lemma PreparedApartIff(cs: seq<ToolChoice>, workItemId: string, token: string)
    requires Trimmed("toolu_" + token)
    ensures var r := PreparedAll(cs, workItemId, token);
            && (forall i :: 0 <= i < |cs| ==> ChoiceCallId(r[i]) == PreparedId(cs[i], token) != "")
            && ((forall i, j :: 0 <= i < j < |cs| ==> ChoiceCallId(r[i]) != ChoiceCallId(r[j]))
                <==> UsableIds(cs, token))
  {
    var r := PreparedAll(cs, workItemId, token);
    forall i | 0 <= i < |cs| ensures ChoiceCallId(r[i]) == PreparedId(cs[i], token) != "" {
      PreparedIdIs(cs[i], workItemId, token, Joined(OwnIds(cs)));
    }
    hide ChoiceCallId, Prepared;
  }

  // strings.Split(s, ",")
  function Listed(s: string): (ids: seq<string>)
    ensures ids != []
  {
    if s == "" then [""]
    else
      var rest := Listed(s[1..]);
      if s[0] == ',' then [""] + rest else [[s[0]] + rest[0]] + rest[1..]
  }

  lemma {:induction false} ListedAlone(id: string)
    requires ',' !in id
    ensures Listed(id) == [id]
  {
    if id != "" {
      ListedAlone(id[1..]);
      assert id == [id[0]] + id[1..];
    }
  }

  lemma {:induction false} ListedFirst(id: string, rest: string)
    requires ',' !in id
    ensures Listed(id + "," + rest) == [id] + Listed(rest)
  {
    if id == "" {
      assert ("" + "," + rest)[1..] == rest;
    } else {
      assert (id + "," + rest)[1..] == id[1..] + "," + rest;
      ListedFirst(id[1..], rest);
      assert id == [id[0]] + id[1..];
    }
  }

  // The batch of a turn lists the ids its choices came with, in order.
  lemma {:induction false} BatchLists(ids: seq<string>)
    requires ids != [] && forall i :: 0 <= i < |ids| ==> ',' !in ids[i]
    ensures Listed(Joined(ids)) == ids
  {
    if |ids| == 1 {
      ListedAlone(ids[0]);
    } else {
      BatchLists(ids[1..]);
      ListedFirst(ids[0], Joined(ids[1..]));
    }
  }

  // A prepared choice is the choice that came, with its call id, the work item and the
  // batch in its metadata: its own id, else the one in its metadata, else the made one.
  lemma PreparedIs(cs: seq<ToolChoice>, workItemId: string, token: string, i: nat)
    requires i < |cs|
    ensures var (was, now) := (cs[i], PreparedAll(cs, workItemId, token)[i]);
            var own := if AllSpace(was.toolCallId) then TrimSpace(Lookup(was.metadata, "tool_call_id"))
                       else TrimSpace(was.toolCallId);
            && now.tool == was.tool && now.workingDir == was.workingDir
            && now.toolCallId == (if own == "" then "toolu_" + token else own)
            && now.metadata.Keys == was.metadata.Keys + {"tool_call_id", "work_item_id", "tool_call_ids"}
            && now.metadata["tool_call_id"] == now.toolCallId && now.metadata["work_item_id"] == workItemId
            && now.metadata["tool_call_ids"]
               == Joined(seq(|cs|, k requires 0 <= k < |cs| => TrimSpace(cs[k].toolCallId)))
            && (forall k :: k in was.metadata && k !in {"tool_call_id", "work_item_id", "tool_call_ids"} ==>
                  now.metadata[k] == was.metadata[k])
  {
    BlankIsAllSpace(cs[i].toolCallId);
    assert OwnIds(cs) == seq(|cs|, k requires 0 <= k < |cs| => TrimSpace(cs[k].toolCallId));
    hide TrimSpace, AllSpace, Joined;
  }

  // ---- the activity ----------------------------------------------------------------------

  // What the activity answers, or nothing if it fails.
  function ActionFor(request: Request, reply: EngineReply): Option<ActionResult> {
    match request
    case Completion(ps) => Some(EndedTask(FailedTask, [], ps, "", [], reply))
    case Regular(_, lastResults, _, ps, _, forceFinal) =>
      if !(reply.loads && reply.applies && reply.answers && reply.accepts) then None
      else
        var message := if forceFinal && Blank(reply.message) then reply.limitMessage else reply.message;
        match (if forceFinal then Blocked else reply.status)
        case Unsupported(_) => None
        case UseTools =>
          if reply.choices == [] || Blank(reply.workItemId) || !reply.prepares then None
          else
            var choices := PreparedAll(reply.choices, reply.workItemId, reply.token);
            Some(ActionResult(UseTools, FeedbackAll(lastResults), choices, reply.workItemId, "", [], []))
        case status =>
          if Blank(message) && reply.attachments == [] then None
          else Some(EndedTask(status, FeedbackAll(lastResults), ps, message, reply.attachments, reply))
  }

  function EndedTask(status: ActionStatus, observations: seq<Feedback>, ps: seq<Process>, message: string,
        attachments: seq<string>, reply: EngineReply): ActionResult
  {
    ActionResult(if AnyRefused(ps, reply.stops) then FailedTask else status, observations, [], "",
                 if AnyRefused(ps, reply.stops) || AnyStopped(ps, reply.stops) then reply.notice else message,
                 attachments, CleanedAll(ps, reply.stops))
  }

  // What every answer keeps.
  ghost predicate Answers(request: Request, reply: EngineReply, r: ActionResult) {
    match request
    case Completion(ps) =>
      r.observations == [] && r.status == FailedTask && r.processes == CleanedAll(ps, reply.stops)
    case Regular(_, lastResults, _, ps, _, forceFinal) =>
      && r.observations == FeedbackAll(lastResults) && AllTold(r.observations, lastResults)
      && (forceFinal ==> r.status in {Blocked, FailedTask})
      && (r.status == UseTools ==> !forceFinal && r.choices != [] && !Blank(r.workItemId))
      && (r.status == UseTools ==> r.choices == PreparedAll(reply.choices, reply.workItemId, reply.token))
      && (r.status != UseTools ==> r.processes == CleanedAll(ps, reply.stops))
      && (r.status != UseTools && AnyRefused(ps, reply.stops) ==> r.status == FailedTask)
  }

  // An answer carries the feedback of every last result, a forced final answer never asks
  // for tools, one that asks for tools has some and a work item, and one that ends the task
  // has cleaned up its processes.
  lemma AnswersKeep(request: Request, reply: EngineReply)
    ensures ActionFor(request, reply).Some? ==> Answers(request, reply, ActionFor(request, reply).value)
  {
    if request.Regular? {
      FeedbackTells(request.lastResults);
    }
    hide FeedbackAll, AllTold, CleanedAll, AnyStopped, Blank, PreparedAll;
  }

  // What the end of a task makes of its processes: every entry stays in place, only
  // statuses change, project processes and stopped ones stay as they were, and if a
  // stop-on-finish process is still running the task has failed.
  predicate LeftClean(before: seq<Process>, r: ActionResult) {
    && |r.processes| == |before|
    && (forall i :: 0 <= i < |before| ==> r.processes[i].(status := before[i].status) == before[i])
    && (forall i :: 0 <= i < |before| && !NeedsStop(before[i]) ==> r.processes[i] == before[i])
    && ((exists i :: 0 <= i < |before| && NeedsStop(r.processes[i])) ==> r.status == FailedTask)
  }

  lemma EndedLeavesClean(request: Request, reply: EngineReply, r: ActionResult)
    requires Answers(request, reply, r) && IsTerminal(r)
    ensures LeftClean(request.processes, r)
  {
    CleanupAccounts(request.processes, reply.stops);
    hide CleanedAll, AnyRefused;
  }

  // The activity; `shown` is the history the engine is given, if it is asked.
  method NextAction(request: Request, reply: EngineReply)
      returns (r: Option<ActionResult>, shown: Option<seq<Feedback>>)
    ensures r == ActionFor(request, reply)
    ensures request.Completion? ==> shown == None
    ensures request.Regular? ==>
              shown == if reply.loads && reply.applies then Some(request.history + FeedbackAll(request.lastResults))
                  else None
    ensures request.Regular? && shown.Some? ==>
              && request.history <= shown.value
              && AllTold(shown.value[|request.history|..], request.lastResults)
    ensures request.Regular? && r.Some? ==> AllTold(r.value.observations, request.lastResults)
  {
    if request.Regular? {
      FeedbackTells(request.lastResults);
      var fs := FeedbackAll(request.lastResults);
      assert (request.history + fs)[|request.history|..] == fs;
    }
    hide FeedbackOf, AllTold, CleanedAll, AnyRefused, AnyStopped, Blank, PreparedAll;
    r, shown := None, None;
    if request.Completion? {
      var done := CompleteTask(FailedTask, request.processes, "", [], reply);
      return Some(done), None;
    }
    if !reply.loads {
      return;
    }
    var history, observations := request.history, [];
    for i := 0 to |request.lastResults|
      invariant observations == FeedbackAll(request.lastResults[..i])
      invariant history == request.history + FeedbackAll(request.lastResults[..i])
    {
      var feedback := FeedbackOf(request.lastResults[i]);
      assert FeedbackAll(request.lastResults[..i + 1]) == FeedbackAll(request.lastResults[..i]) + [feedback];
      observations := observations + [feedback];
      history := history + [feedback];
    }
    assert request.lastResults[..|request.lastResults|] == request.lastResults;
    if !reply.applies {
      return;
    }
    shown := Some(history);
    if !reply.answers || !reply.accepts {
      return;
    }
    var status := if request.forceFinal then Blocked else reply.status;
    var choices := if request.forceFinal then [] else reply.choices;
    var message := if request.forceFinal && Blank(reply.message) then reply.limitMessage else reply.message;
    match status {
      case UseTools =>
        r := PrepareTool(choices, observations, reply);
      case Unsupported(_) =>
      case _ =>
        if !(Blank(message) && reply.attachments == []) {
          var done := CompleteTask(status, request.processes, message, reply.attachments, reply);
          r := Some(done.(observations := observations));
        }
    }
  }

  // Choices are prepared under the work item: every one gets a call id.
  method PrepareTool(choices: seq<ToolChoice>, observations: seq<Feedback>, reply: EngineReply)
    returns (r: Option<ActionResult>)
    ensures r.Some? <==> choices != [] && !Blank(reply.workItemId) && reply.prepares
    ensures r.Some? ==> r.value == ActionResult(UseTools, observations,
            PreparedAll(choices, reply.workItemId, reply.token),
                                                reply.workItemId, "", [], [])
  {
    hide Prepared, Blank, TrimSpace, Joined;
    if choices == [] || Blank(reply.workItemId) || !reply.prepares {
      return None;
    }
    var ids: seq<string> := [];
    for i := 0 to |choices|
      invariant ids == OwnIds(choices[..i])
    {
      assert OwnIds(choices[..i + 1]) == OwnIds(choices[..i]) + [TrimSpace(choices[i].toolCallId)];
      ids := ids + [TrimSpace(choices[i].toolCallId)];
    }
    assert choices[..|choices|] == choices;
    var prepared := [];
    for i := 0 to |choices|
      invariant |prepared| == i
      invariant forall k :: 0 <= k < i ==> prepared[k] == Prepared(choices[k], reply.workItemId, reply.token,
                Joined(ids))
    {
      prepared := prepared + [Prepared(choices[i], reply.workItemId, reply.token, Joined(ids))];
    }
    r := Some(ActionResult(UseTools, observations, prepared, reply.workItemId, "", [], []));
  }
}
