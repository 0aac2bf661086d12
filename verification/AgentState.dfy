/** The parts of packages/agent/src/agent.ts a running loop talks to: the queues it drains and the
    state the agent rebuilds from the loop's events. */
module AgentState {
  import opened Options
  import opened AgentMessages
  import opened AgentEvents

  datatype QueueMode = All | OneAtATime

  /** What a queue hands out next: everything, or only its first message. */
  function NextBatch(messages: seq<Message>, mode: QueueMode): seq<Message> {
    if mode == All || messages == [] then messages else messages[..1]
  }

  /** A queue hands out its first messages and keeps the rest: with mode All nothing is left, with mode
      OneAtATime exactly one message leaves unless there is none. */
  predicate HandsOut(queue: seq<Message>, batch: seq<Message>, rest: seq<Message>, mode: QueueMode) {
    && queue == batch + rest
    && match mode
       case All => rest == []
       case OneAtATime => |batch| == if queue == [] then 0 else 1
  }

  lemma NextIsHandedOut(queue: seq<Message>, mode: QueueMode)
    ensures |NextBatch(queue, mode)| <= |queue| && HandsOut(queue, NextBatch(queue, mode), queue[|NextBatch(queue, mode)|..], mode)
  {
  }

  class PendingMessageQueue {
    var messages: seq<Message>
    var mode: QueueMode
    ghost var enqueued: seq<Message>
    ghost var drained: seq<Message>

    /** First in, first out: what was enqueued is what was drained followed by what is still queued. */
    ghost predicate Valid()
      reads this
    {
      enqueued == drained + messages
    }

    constructor (mode: QueueMode)
      ensures Valid() && messages == [] && enqueued == [] && this.mode == mode
    {
      this.mode := mode;
      messages, enqueued, drained := [], [], [];
    }

    method Enqueue(message: Message)
      requires Valid()
      modifies this
      ensures Valid() && messages == old(messages) + [message] && enqueued == old(enqueued) + [message]
      ensures drained == old(drained) && mode == old(mode)
    {
      messages := messages + [message];
      enqueued := enqueued + [message];
    }

    method EnqueueAll(arrivals: seq<Message>)
      requires Valid()
      modifies this
      ensures Valid() && messages == old(messages) + arrivals && enqueued == old(enqueued) + arrivals
      ensures drained == old(drained) && mode == old(mode)
    {
      for k := 0 to |arrivals|
        invariant Valid() && messages == old(messages) + arrivals[..k] && enqueued == old(enqueued) + arrivals[..k]
        invariant drained == old(drained) && mode == old(mode)
      {
        Enqueue(arrivals[k]);
      }
      assert arrivals[..|arrivals|] == arrivals;
    }

    method Drain() returns (r: seq<Message>)
      requires Valid()
      modifies this
      ensures Valid() && old(messages) == r + messages && drained == old(drained) + r
      ensures enqueued == old(enqueued) && mode == old(mode)
      ensures HandsOut(old(messages), r, messages, mode)
      ensures r == NextBatch(old(messages), mode) && (r == [] ==> messages == [])
    {
      if mode == All {
        r := messages;
        messages := [];
      } else if messages == [] {
        r := [];
      } else {
        r := [messages[0]];
        messages := messages[1..];
      }
      drained := drained + r;
    }

    /** Forgets what is queued; the account of what was enqueued and drained starts over. */
    method Clear()
      modifies this
      ensures Valid() && messages == [] && enqueued == [] && mode == old(mode)
    {
      messages, enqueued, drained := [], [], [];
    }
  }

  /** The agent's runtime state; processEvents is its only writer during a run. */
  class AgentState {
    var messages: seq<Message>
    var streamingMessage: Option<Message>
    var pendingToolCalls: set<string>
    var errorMessage: Option<string>

    function View(): AgentView
      reads this
    {
      AgentView(messages, streamingMessage, pendingToolCalls, errorMessage)
    }

    constructor (initial: seq<Message>)
      ensures View() == AgentView(initial, None, {}, None)
    {
      messages, streamingMessage, pendingToolCalls, errorMessage := initial, None, {}, None;
    }

    /** As a run begins. */
    method BeginRun()
      modifies this
      ensures View() == old(View()).(streaming := None, error := None)
    {
      streamingMessage, errorMessage := None, None;
    }

    /** As a run ends. */
    method FinishRun()
      modifies this
      ensures View() == old(View()).(streaming := None, pending := {})
    {
      streamingMessage, pendingToolCalls := None, {};
    }

    method Reset()
      modifies this
      ensures View() == AgentView([], None, {}, None)
    {
      messages, streamingMessage, pendingToolCalls, errorMessage := [], None, {}, None;
    }

    method ProcessEvent(event: Event)
      modifies this
      ensures View() == Reduce(old(View()), event)
    {
      match event
      case MessageStart(message) => streamingMessage := Some(message);
      case MessageUpdate(message) => streamingMessage := Some(message);
      case MessageEnd(message) =>
        streamingMessage := None;
        messages := messages + [message];
      case ToolStart(_, call) => pendingToolCalls := pendingToolCalls + {call.id};
      case ToolEnd(_, call, _, _) => pendingToolCalls := pendingToolCalls - {call.id};
      case TurnEnd(message, _) =>
        if message.Assistant? && HasText(message.errorMessage) { errorMessage := message.errorMessage; }
      case AgentEnd(_) => streamingMessage := None;
      case _ =>
    }
  }
}
