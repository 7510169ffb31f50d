// The tool transcript of internal/agent/llm/next_action.go: the validator decides a
// grammar, and what the builder makes of an observation history is in that grammar.
module Transcript {
  import opened Text

  datatype Role = System | Human | AI | Tool

  datatype Part =
    | TextPart(text: string)
    | ToolCall(id: string, callee: Option<string>, arguments: string)
    | ToolResponse(id: string, name: string, content: string)

  datatype Message = Message(role: Role, parts: seq<Part>)

  // ---- the grammar ---------------------------------------------------------------

  datatype Block = Plain(message: Message) | Exchange(call: Message, responses: seq<Message>)

  // Every tool call of the message has an id and a function name.
  predicate CallsComplete(parts: seq<Part>) {
    forall i :: 0 <= i < |parts| && parts[i].ToolCall? ==>
      !Blank(parts[i].id) && parts[i].callee.Some? && !Blank(parts[i].callee.value)
  }

  function CallIds(parts: seq<Part>): set<string> {
    set i | 0 <= i < |parts| && parts[i].ToolCall? :: TrimSpace(parts[i].id)
  }

  predicate IsResponse(m: Message) {
    m.role.Tool? && |m.parts| == 1 && m.parts[0].ToolResponse?
  }

  function ResponseId(m: Message): string
    requires IsResponse(m)
  {
    TrimSpace(m.parts[0].id)
  }

  // A message outside any exchange, or an assistant message answered at once: as many
  // single-response tool messages as there are call ids, answering exactly those ids.
  predicate WellFormed(b: Block) {
    match b
    case Plain(m) => !m.role.AI? && !m.role.Tool?
    case Exchange(call, responses) =>
      && call.role.AI? && CallsComplete(call.parts)
      && (forall i :: 0 <= i < |responses| ==> IsResponse(responses[i]))
      && |responses| == |CallIds(call.parts)|
      && (set i | 0 <= i < |responses| :: ResponseId(responses[i])) == CallIds(call.parts)
  }

  function BlockMessages(b: Block): seq<Message> {
    match b
    case Plain(m) => [m]
    case Exchange(call, responses) => [call] + responses
  }

  function Flatten(blocks: seq<Block>): seq<Message> {
    if blocks == [] then [] else BlockMessages(blocks[0]) + Flatten(blocks[1..])
  }

  ghost predicate Grammatical(messages: seq<Message>) {
    exists blocks :: ParsesAs(messages, blocks)
  }

  ghost predicate ParsesAs(messages: seq<Message>, blocks: seq<Block>) {
    Flatten(blocks) == messages && forall i :: 0 <= i < |blocks| ==> WellFormed(blocks[i])
  }

  // Some continuation makes the messages grammatical.
  ghost predicate Extensible(messages: seq<Message>) {
    exists more :: Grammatical(messages + more)
  }

  // ---- the validator ---------------------------------------------------------------

  datatype Problem = ResultsMissing | CallWithoutId | CallWithoutFunction | NotOneResponse | UnexpectedResponse

  datatype Verdict = Accepted | Rejected(index: nat, problem: Problem)

  // The pending calls after one more message.
  function Advance(pending: set<string>, m: Message): Option<set<string>> {
    match m.role
    case AI => if pending == {} && CallsComplete(m.parts) then Some(CallIds(m.parts)) else None
    case Tool =>
      if IsResponse(m) && ResponseId(m) != "" && ResponseId(m) in pending then Some(pending - {ResponseId(m)})
      else None
    case _ => if pending == {} then Some({}) else None
  }

  function Pending(start: set<string>, messages: seq<Message>): Option<set<string>>
    decreases |messages|
  {
    if messages == [] then Some(start)
    else
      match Advance(start, messages[0])
      case None => None
      case Some(next) => Pending(next, messages[1..])
  }

  method ValidateToolTranscriptMessages(messages: seq<Message>) returns (verdict: Verdict)
    ensures verdict.Accepted? <==> Grammatical(messages)
    // a rejection names the first message that no continuation can repair, or the end
    ensures verdict.Rejected? ==>
              && verdict.index <= |messages| && Extensible(messages[..verdict.index])
              && (verdict.index < |messages| ==> !Extensible(messages[..verdict.index + 1]))
  {
    hide Grammatical, Extensible;
    var pending: set<string> := {};
    AcceptedIffGrammatical(messages);
    for index := 0 to |messages|
      invariant Pending({}, messages[..index]) == Some(pending)
    {
      var message := messages[index];
      assert messages[..index + 1] == messages[..index] + [message];
      PendingSnoc({}, messages[..index], message);
      ExtensibleIffPending(messages[..index]);
      ExtensibleIffPending(messages[..index + 1]);
      PendingPrefix(messages, index + 1);
      match message.role
      case AI =>
        if pending != {} {
          return Rejected(index, ResultsMissing);
        }
        var ids, problem := MessageToolCallIDs(message);
        if problem.Some? {
          return Rejected(index, problem.value);
        }
        pending := ids;
      case Tool =>
        if !IsResponse(message) {
          return Rejected(index, NotOneResponse);
        }
        var id := ResponseId(message);
        if id == "" || id !in pending {
          return Rejected(index, UnexpectedResponse);
        }
        pending := pending - {id};
      case _ =>
        if pending != {} {
          return Rejected(index, ResultsMissing);
        }
    }
    assert messages[..|messages|] == messages;
    if pending != {} {
      ExtensibleIffPending(messages);
      return Rejected(|messages|, ResultsMissing);
    }
    return Accepted;
  }

  method MessageToolCallIDs(message: Message) returns (ids: set<string>, problem: Option<Problem>)
    ensures problem.None? <==> CallsComplete(message.parts)
    ensures problem.None? ==> ids == CallIds(message.parts)
  {
    ids, problem := {}, None;
    var parts := message.parts;
    for i := 0 to |parts|
      invariant CallsComplete(parts[..i])
      invariant ids == CallIds(parts[..i])
    {
      assert parts[..i + 1] == parts[..i] + [parts[i]];
      if !parts[i].ToolCall? {
        CallIdsSnoc(parts[..i], parts[i]);
        continue;
      }
      var id := TrimSpace(parts[i].id);
      if id == "" {
        return {}, Some(CallWithoutId);
      }
      if parts[i].callee.None? || Blank(parts[i].callee.value) {
        return {}, Some(CallWithoutFunction);
      }
      CallIdsSnoc(parts[..i], parts[i]);
      ids := ids + {id};
    }
    assert parts[..|parts|] == parts;
  }

  lemma CallIdsSnoc(parts: seq<Part>, p: Part)
    ensures CallIds(parts + [p]) == CallIds(parts) + if p.ToolCall? then {TrimSpace(p.id)} else {}
  {
    var more := parts + [p];
    assert forall i :: 0 <= i < |parts| ==> more[i] == parts[i];
    if p.ToolCall? {
      assert more[|parts|] == p;
      assert TrimSpace(p.id) in CallIds(more);
    }
    forall id | id in CallIds(parts) ensures id in CallIds(more) {
      var i :| 0 <= i < |parts| && parts[i].ToolCall? && TrimSpace(parts[i].id) == id;
      assert more[i].ToolCall?;
    }
  }

  // ---- the validator decides the grammar ------------------------------------------------

  lemma {:induction false} PendingConcat(start: set<string>, a: seq<Message>, b: seq<Message>)
    ensures Pending(start, a + b)
         == match Pending(start, a) case None => None case Some(p) => Pending(p, b)
    decreases |a|
  {
    if a == [] {
      assert a + b == b;
    } else {
      assert (a + b)[1..] == a[1..] + b;
      var next := Advance(start, a[0]);
      if next.Some? {
        PendingConcat(next.value, a[1..], b);
      }
    }
  }

  lemma PendingSnoc(start: set<string>, a: seq<Message>, m: Message)
    ensures Pending(start, a + [m])
         == match Pending(start, a) case None => None case Some(p) => Advance(p, m)
  {
    PendingConcat(start, a, [m]);
    assert [m][1..] == [];
  }

  lemma PendingPrefix(messages: seq<Message>, k: nat)
    requires k <= |messages|
    ensures Pending({}, messages[..k]).None? ==> Pending({}, messages).None?
  {
    PendingConcat({}, messages[..k], messages[k..]);
    assert messages[..k] + messages[k..] == messages;
  }

  function ResponseIds(rs: seq<Message>): set<string>
    requires forall i :: 0 <= i < |rs| ==> IsResponse(rs[i])
  {
    set i | 0 <= i < |rs| :: ResponseId(rs[i])
  }

  // Responses that take every pending id once clear the pending set.
  lemma {:induction false} ResponsesClear(ids: set<string>, rs: seq<Message>)
    requires forall i :: 0 <= i < |rs| ==> IsResponse(rs[i])
    requires |rs| == |ids| && ResponseIds(rs) == ids && "" !in ids
    ensures Pending(ids, rs) == Some({})
    decreases |rs|
  {
    if rs != [] {
      var id := ResponseId(rs[0]);
      assert id in ids;
      var tail := rs[1..];
      ResponseIdsCons(rs);
      ResponsesAtLeast(tail);
      if id in ResponseIds(tail) {
        assert false;
      }
      assert ResponseIds(tail) == ids - {id};
      ResponsesClear(ids - {id}, tail);
    } else {
      assert ids == {};
    }
  }

  lemma ResponseIdsCons(rs: seq<Message>)
    requires rs != [] && forall i :: 0 <= i < |rs| ==> IsResponse(rs[i])
    ensures ResponseIds(rs) == {ResponseId(rs[0])} + ResponseIds(rs[1..])
  {
    forall id | id in ResponseIds(rs[1..]) ensures id in ResponseIds(rs) {
      var i :| 0 <= i < |rs[1..]| && ResponseId(rs[1..][i]) == id;
      assert ResponseId(rs[i + 1]) == id;
    }
    forall id | id in ResponseIds(rs) ensures id == ResponseId(rs[0]) || id in ResponseIds(rs[1..]) {
      var i :| 0 <= i < |rs| && ResponseId(rs[i]) == id;
      assert i > 0 ==> ResponseId(rs[1..][i - 1]) == id;
    }
  }

  lemma {:induction false} ResponsesAtLeast(rs: seq<Message>)
    requires forall i :: 0 <= i < |rs| ==> IsResponse(rs[i])
    ensures |ResponseIds(rs)| <= |rs|
  {
    if rs != [] {
      ResponseIdsCons(rs);
      ResponsesAtLeast(rs[1..]);
      SetGrows(ResponseIds(rs[1..]), ResponseId(rs[0]));
    }
  }

  lemma SetGrows(s: set<string>, x: string)
    ensures |{x} + s| <= |s| + 1
  {
    if x in s {
      assert {x} + s == s;
    } else {
      assert {x} + s == s + {x};
    }
  }

  lemma CallIdsNotBlank(parts: seq<Part>)
    requires CallsComplete(parts)
    ensures "" !in CallIds(parts)
  {
  }

  lemma BlockClears(b: Block)
    requires WellFormed(b)
    ensures Pending({}, BlockMessages(b)) == Some({})
  {
    match b
    case Plain(m) =>
      assert [m][1..] == [];
    case Exchange(call, responses) =>
      CallIdsNotBlank(call.parts);
      ResponsesClear(CallIds(call.parts), responses);
      assert ([call] + responses)[1..] == responses;
  }

  lemma {:induction false} GrammarAccepted(blocks: seq<Block>)
    requires forall i :: 0 <= i < |blocks| ==> WellFormed(blocks[i])
    ensures Pending({}, Flatten(blocks)) == Some({})
  {
    if blocks != [] {
      BlockClears(blocks[0]);
      GrammarAccepted(blocks[1..]);
      PendingConcat({}, BlockMessages(blocks[0]), Flatten(blocks[1..]));
    }
  }

  // An exchange still under way: the ids not yet answered are the pending ones.
  ghost predicate UnderWay(call: Message, got: seq<Message>, pending: set<string>) {
    && call.role.AI? && CallsComplete(call.parts)
    && (forall i :: 0 <= i < |got| ==> IsResponse(got[i]))
    && ResponseIds(got) !! pending
    && ResponseIds(got) + pending == CallIds(call.parts)
    && |got| == |ResponseIds(got)|
  }

  ghost predicate PartlyParses(messages: seq<Message>, blocks: seq<Block>, open: seq<Message>, pending: set<string>) {
    && messages == Flatten(blocks) + open
    && (forall i :: 0 <= i < |blocks| ==> WellFormed(blocks[i]))
    && (if open == [] then pending == {} else UnderWay(open[0], open[1..], pending))
  }

  lemma {:induction false} FlattenConcat(a: seq<Block>, b: seq<Block>)
    ensures Flatten(a + b) == Flatten(a) + Flatten(b)
  {
    if a == [] {
      assert a + b == b;
    } else {
      assert (a + b)[1..] == a[1..] + b;
      FlattenConcat(a[1..], b);
    }
  }

  lemma FlattenSnoc(blocks: seq<Block>, b: Block)
    ensures Flatten(blocks + [b]) == Flatten(blocks) + BlockMessages(b)
  {
    FlattenConcat(blocks, [b]);
    assert [b][1..] == [];
  }

  // An exchange with nothing pending is a finished block.
  lemma CloseExchange(messages: seq<Message>, blocks: seq<Block>, open: seq<Message>) returns (closed: seq<Block>)
    requires PartlyParses(messages, blocks, open, {})
    ensures ParsesAs(messages, closed)
  {
    if open == [] {
      return blocks;
    }
    hide WellFormed, UnderWay, Flatten;
    var b := Exchange(open[0], open[1..]);
    ExchangeDone(open[0], open[1..]);
    assert BlockMessages(b) == open;
    closed := blocks + [b];
    FlattenSnoc(blocks, b);
  }

  lemma ExchangeDone(call: Message, got: seq<Message>)
    requires UnderWay(call, got, {})
    ensures WellFormed(Exchange(call, got))
  {
    assert ResponseIds(got) == CallIds(call.parts);
  }

  lemma {:induction false} PendingParses(messages: seq<Message>) returns (blocks: seq<Block>, open: seq<Message>)
    requires Pending({}, messages).Some?
    ensures PartlyParses(messages, blocks, open, Pending({}, messages).value)
    decreases |messages|
  {
    hide PartlyParses, Advance;
    if messages == [] {
      blocks, open := [], [];
      NothingParses();
      return;
    }
    var init, m := messages[..|messages| - 1], messages[|messages| - 1];
    assert messages == init + [m];
    PendingSnoc({}, init, m);
    blocks, open := PendingParses(init);
    blocks, open := ExtendParse(init, blocks, open, Pending({}, init).value, m);
  }

  lemma NothingParses()
    ensures PartlyParses([], [], [], {})
  {
  }

  lemma ExtendParse(init: seq<Message>, blocks: seq<Block>, open: seq<Message>, pending: set<string>, m: Message)
    returns (blocks': seq<Block>, open': seq<Message>)
    requires PartlyParses(init, blocks, open, pending) && Advance(pending, m).Some?
    ensures PartlyParses(init + [m], blocks', open', Advance(pending, m).value)
  {
    hide WellFormed, UnderWay, CallsComplete, CallIds;
    if m.role.Tool? {
      blocks', open' := blocks, open + [m];
      AnswerOne(open[0], open[1..], pending, m);
      assert open'[1..] == open[1..] + [m];
      assert Flatten(blocks) + open + [m] == Flatten(blocks) + (open + [m]);
    } else {
      blocks' := CloseExchange(init, blocks, open);
      if m.role.AI? {
        open' := [m];
        NothingAnswered(m);
        assert open'[1..] == [];
      } else {
        PlainWellFormed(m);
        FlattenSnoc(blocks', Plain(m));
        blocks', open' := blocks' + [Plain(m)], [];
      }
    }
  }

  lemma PlainWellFormed(m: Message)
    requires !m.role.AI? && !m.role.Tool?
    ensures WellFormed(Plain(m))
  {
  }

  lemma NothingAnswered(call: Message)
    requires call.role.AI? && CallsComplete(call.parts)
    ensures UnderWay(call, [], CallIds(call.parts))
  {
  }

  lemma AnswerOne(call: Message, got: seq<Message>, pending: set<string>, m: Message)
    requires UnderWay(call, got, pending) && m.role.Tool? && Advance(pending, m).Some?
    ensures UnderWay(call, got + [m], pending - {ResponseId(m)})
  {
    hide CallsComplete, CallIds, ResponseIds, ResponseId;
    var id := ResponseId(m);
    ResponseIdsSnoc(got, m);
    assert id !in ResponseIds(got);
    assert ResponseIds(got) + {id} + (pending - {id}) == ResponseIds(got) + pending;
  }

  lemma ResponseIdsSnoc(rs: seq<Message>, m: Message)
    requires forall i :: 0 <= i < |rs| ==> IsResponse(rs[i])
    requires IsResponse(m)
    ensures ResponseIds(rs + [m]) == ResponseIds(rs) + {ResponseId(m)}
  {
    var more := rs + [m];
    assert more[|rs|] == m;
    assert forall i :: 0 <= i < |rs| ==> more[i] == rs[i];
  }

  lemma AcceptedIffGrammatical(messages: seq<Message>)
    ensures Pending({}, messages) == Some({}) <==> Grammatical(messages)
  {
    if Pending({}, messages) == Some({}) {
      var blocks, open := PendingParses(messages);
      var closed := CloseExchange(messages, blocks, open);
    }
    if Grammatical(messages) {
      var blocks :| ParsesAs(messages, blocks);
      GrammarAccepted(blocks);
    }
  }

  // Responses that answer the given ids.
  lemma {:induction false} Answers(ids: set<string>) returns (rs: seq<Message>)
    requires forall id :: id in ids ==> id != "" && Trimmed(id)
    ensures Pending(ids, rs) == Some({})
    decreases |ids|
  {
    if ids == {} {
      return [];
    }
    var id :| id in ids;
    var tail := Answers(ids - {id});
    var m := Message(Tool, [ToolResponse(id, "", "")]);
    rs := [m] + tail;
    TrimSpaceOfTrimmed(id);
    assert rs[1..] == tail;
  }

  lemma {:induction false} PendingIdsTrimmed(messages: seq<Message>)
    requires Pending({}, messages).Some?
    ensures forall id :: id in Pending({}, messages).value ==> id != "" && Trimmed(id)
    decreases |messages|
  {
    if messages != [] {
      var init, m := messages[..|messages| - 1], messages[|messages| - 1];
      assert messages == init + [m];
      PendingSnoc({}, init, m);
      PendingIdsTrimmed(init);
    }
  }

  lemma ExtensibleIffPending(messages: seq<Message>)
    ensures Extensible(messages) <==> Pending({}, messages).Some?
  {
    if Pending({}, messages).Some? {
      PendingIdsTrimmed(messages);
      var more := Answers(Pending({}, messages).value);
      PendingConcat({}, messages, more);
      AcceptedIffGrammatical(messages + more);
    }
    if Extensible(messages) {
      var more :| Grammatical(messages + more);
      AcceptedIffGrammatical(messages + more);
      PendingConcat({}, messages, more);
    }
  }
}
