/** Messages of the agent transcript, and what it means that tool calls are answered. */
module AgentMessages {
  import opened Options

  datatype ToolCall = ToolCall(id: string, name: string, arguments: string)

  datatype Block = TextBlock(text: string) | ThinkingBlock(text: string) | ToolCallBlock(call: ToolCall)

  datatype StopReason = Pending | Stop | Length | ToolUse | Error | Aborted | Deferred

  datatype Message =
    | User(text: string)
    | Custom(text: string)
    | Assistant(content: seq<Block>, stopReason: StopReason, errorMessage: Option<string>)
    | ToolResult(toolCallId: string, toolName: string, text: string, details: string, usage: Option<string>,
                 addedToolNames: seq<string>, isError: bool)

  /** JavaScript's truth value of an optional string: an empty one counts as absent. */
  predicate HasText(s: Option<string>) { s.Some? && s.value != "" }

  type AssistantMessage = m: Message | m.Assistant? witness Assistant([], Stop, None)

  function ToolCallsIn(content: seq<Block>): seq<ToolCall> {
    if content == [] then []
    else (if content[0].ToolCallBlock? then [content[0].call] else []) + ToolCallsIn(content[1..])
  }

  /** The tool calls a message asks for; only assistant messages ask for any. */
  function CallsOf(m: Message): seq<ToolCall> {
    if m.Assistant? then ToolCallsIn(m.content) else []
  }

  /** The calls of a message are those of its blocks, in order. */
  lemma {:induction false} CallsInOrder(a: seq<Block>, b: seq<Block>, call: ToolCall, text: string)
    ensures ToolCallsIn(a + b) == ToolCallsIn(a) + ToolCallsIn(b)
    ensures ToolCallsIn([ToolCallBlock(call)]) == [call] && ToolCallsIn([TextBlock(text)]) == ToolCallsIn([ThinkingBlock(text)]) == []
  {
    if a == [] {
      assert a + b == b;
    } else {
      assert (a + b)[1..] == a[1..] + b;
      CallsInOrder(a[1..], b, call, text);
    }
  }

  /** The run ends at such a message and none of its tool calls is executed. */
  predicate Halts(m: AssistantMessage) { m.stopReason == Error || m.stopReason == Aborted }

  predicate Answers(result: Message, call: ToolCall) {
    result.ToolResult? && result.toolCallId == call.id && result.toolName == call.name
  }

  /** Every assistant message is followed at once by the results of its tool calls, one per call and
      in the order of the calls, and no result stands anywhere else. */
  ghost predicate WellPaired(ms: seq<Message>) {
    if ms == [] then true
    else
      var calls := CallsOf(ms[0]);
      && !ms[0].ToolResult?
      && |calls| < |ms|
      && (forall k :: 0 <= k < |calls| ==> Answers(ms[1 + k], calls[k]))
      && WellPaired(ms[1 + |calls|..])
  }

  lemma {:induction false} WellPairedConcat(a: seq<Message>, b: seq<Message>)
    requires WellPaired(a)
    ensures WellPaired(a + b) <==> WellPaired(b)
    decreases |a|
  {
    hide CallsOf, Answers;
    if a == [] {
      assert a + b == b;
    } else {
      var n := 1 + |CallsOf(a[0])|;
      assert (a + b)[n..] == a[n..] + b;
      assert forall k :: 0 < k < n ==> (a + b)[k] == a[k];
      WellPairedConcat(a[n..], b);
    }
  }

  /** A message and the results of all its calls form a well-paired block. */
  lemma BlockWellPaired(m: Message, results: seq<Message>)
    requires !m.ToolResult? && |results| == |CallsOf(m)|
    requires forall k :: 0 <= k < |results| ==> Answers(results[k], CallsOf(m)[k])
    ensures WellPaired([m] + results)
  {
    var ms := [m] + results;
    assert ms[1 + |results|..] == [];
    assert forall k :: 0 <= k < |results| ==> ms[1 + k] == results[k];
  }

  /** Can be put anywhere between two blocks. */
  ghost predicate Standalone(m: Message) { !m.ToolResult? && CallsOf(m) == [] }

  ghost predicate AllStandalone(ms: seq<Message>) {
    forall i :: 0 <= i < |ms| ==> Standalone(ms[i])
  }

  lemma {:induction false} StandalonePaired(ms: seq<Message>)
    requires AllStandalone(ms)
    ensures WellPaired(ms)
  {
    if ms != [] { StandalonePaired(ms[1..]); }
  }
}
