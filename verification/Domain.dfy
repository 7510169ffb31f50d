// The values that the workflows pass around, reduced to the fields the logic reads.
// A nil metadata map of the program is an empty map here.
module Domain {
  import opened Text

  type Metadata = map<string, string>

  function Lookup(m: Metadata, key: string): string {
    if key in m then m[key] else ""
  }

  datatype ChannelType = Discord | Telegram | OtherChannel(name: string)

  datatype Event = Event(
    id: string, channelType: ChannelType, channelId: string, threadId: string,
    body: string, metadata: Metadata, sourceId: string)

  // The event marked with what it is to the task it is sent to.
  function WithControl(e: Event, control: string): Event {
    if Blank(control) then e else e.(metadata := e.metadata["control" := TrimSpace(control)])
  }

  datatype ProcessStatus = Starting | Running | Exited | Stopped | ProcessFailed

  datatype Scope = StopOnFinish | ProjectScope

  datatype Process = Process(id: string, description: string, status: ProcessStatus, scope: Scope)

  datatype ToolResult = ToolResult(
    cycle: int, workItemId: string, toolCallId: string, tool: string, status: string,
    observation: string, error: string, workingDirectory: string, resultCode: string,
    metadata: Metadata, processes: seq<Process>)

  // agent.ExecutionFeedback, what the model is told about a tool result.
  datatype Feedback = Feedback(
    cycle: int, workItemId: string, toolCallId: string, tool: string, status: string,
    observation: string, error: string, metadata: Metadata)

  function FeedbackOf(r: ToolResult): Feedback {
    var m0 := r.metadata;
    var m1 := if r.workingDirectory != "" then m0["working_directory" := r.workingDirectory] else m0;
    var m2 := if r.resultCode != "" then m1["result_code" := r.resultCode] else m1;
    Feedback(r.cycle, r.workItemId, r.toolCallId, r.tool, r.status, r.observation, r.error, m2)
  }

  function FeedbackAll(rs: seq<ToolResult>): (fs: seq<Feedback>)
    ensures |fs| == |rs|
  {
    seq(|rs|, i requires 0 <= i < |rs| => FeedbackOf(rs[i]))
  }

  // What the model is told about a result: the same cycle, work item, call, tool, status,
  // observation and error, and the result's own metadata with the working directory and
  // the result code added where there are any.
  ghost predicate Tells(f: Feedback, r: ToolResult) {
    && f.cycle == r.cycle && f.workItemId == r.workItemId && f.toolCallId == r.toolCallId
    && f.tool == r.tool && f.status == r.status && f.observation == r.observation && f.error == r.error
    && (forall k :: k in f.metadata <==>
          || k in r.metadata
          || (k == "working_directory" && r.workingDirectory != "") || (k == "result_code" && r.resultCode != ""))
    && (forall k :: k in f.metadata ==>
          f.metadata[k] == if k == "result_code" && r.resultCode != "" then r.resultCode
                           else if k == "working_directory" && r.workingDirectory != "" then r.workingDirectory
                           else r.metadata[k])
  }

  ghost predicate AllTold(fs: seq<Feedback>, rs: seq<ToolResult>) {
    |fs| == |rs| && forall i :: 0 <= i < |rs| ==> Tells(fs[i], rs[i])
  }

  lemma FeedbackTells(rs: seq<ToolResult>)
    ensures AllTold(FeedbackAll(rs), rs)
  {
  }

  lemma FeedbackConcat(a: seq<ToolResult>, b: seq<ToolResult>)
    ensures FeedbackAll(a + b) == FeedbackAll(a) + FeedbackAll(b)
  {
    hide FeedbackOf;
  }
}
