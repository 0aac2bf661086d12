/** The events an agent run emits. Their grammar is a monitor that reads a trace event by event and is
    defined without reference to the loop; the agent's state is a fold over the same trace. */
module AgentEvents {
  import opened Options
  import opened AgentMessages

  /** What a tool returned; `content` may be missing in results of untyped tools. */
  datatype ToolOutput = ToolOutput(content: Option<string>, details: string, usage: Option<string>,
                                   addedToolNames: seq<string>, terminate: Option<bool>)

  datatype Finalized = Finalized(call: ToolCall, result: ToolOutput, isError: bool)

  function CreateToolResultMessage(f: Finalized): Message {
    ToolResult(f.call.id, f.call.name, if f.result.content.Some? then f.result.content.value else "",
               f.result.details, f.result.usage, f.result.addedToolNames, f.isError)
  }

  /** Tool events name their call by its position in the assistant message as well as by its id. */
  datatype Event =
    | AgentStart
    | TurnStart
    | MessageStart(message: Message)
    | MessageUpdate(message: Message)
    | MessageEnd(message: Message)
    | ToolStart(index: nat, call: ToolCall)
    | ToolUpdate(index: nat, call: ToolCall, partialResult: string)
    | ToolEnd(index: nat, call: ToolCall, result: ToolOutput, isError: bool)
    | TurnEnd(message: Message, toolResults: seq<Message>)
    | AgentEnd(messages: seq<Message>)

  function MessageEnds(t: seq<Event>): seq<Message> {
    if t == [] then []
    else MessageEnds(t[..|t| - 1]) + (if t[|t| - 1].MessageEnd? then [t[|t| - 1].message] else [])
  }

  // ---- The grammar -------------------------------------------------------------------------------

  datatype CallState = Waiting | Running | Finished(outcome: Finalized)

  datatype Monitor =
    | Fresh
    | Between(ended: seq<Message>, anyTurn: bool)
    | Turn(ended: seq<Message>, open: Option<Message>, last: Option<Message>, calls: seq<CallState>, results: seq<Message>)
    | Closed(ended: seq<Message>)
    | Bad

  /** No call has been started. */
  ghost predicate Quiet(calls: seq<CallState>) { forall i :: 0 <= i < |calls| ==> calls[i] == Waiting }

  ghost predicate NoneRunning(calls: seq<CallState>) { forall i :: 0 <= i < |calls| ==> calls[i] != Running }

  function AllWaiting(n: nat): seq<CallState> { seq(n, i => Waiting) }

  /** The call at this position of the turn's last message is in the given state. */
  ghost predicate CallIs(m: Monitor, index: nat, call: ToolCall, state: CallState)
    requires m.Turn?
  {
    && m.open.None? && m.last.Some?
    && index < |m.calls| == |CallsOf(m.last.value)|
    && CallsOf(m.last.value)[index] == call
    && m.calls[index] == state
  }

  /** The message is the result of the first call whose result has not been reported. */
  ghost predicate IsNextResult(m: Monitor, message: Message)
    requires m.Turn?
  {
    && |m.results| < |m.calls|
    && m.calls[|m.results|].Finished?
    && message == CreateToolResultMessage(m.calls[|m.results|].outcome)
  }

  ghost function Step(m: Monitor, e: Event): Monitor {
    match m
    case Fresh => if e.AgentStart? then Between([], false) else Bad
    case Between(ended, anyTurn) =>
      if e.TurnStart? then Turn(ended, None, None, [], [])
      else if e.AgentEnd? && anyTurn && e.messages == ended then Closed(ended)
      else Bad
    case Turn(_, _, _, _, _) => StepTurn(m, e)
    case Closed(_) => Bad
    case Bad => Bad
  }

  ghost function StepTurn(m: Monitor, e: Event): Monitor
    requires m.Turn?
  {
    match e
    case MessageStart(x) =>
      if m.open.None? && (Quiet(m.calls) || (NoneRunning(m.calls) && IsNextResult(m, x)))
      then m.(open := Some(x)) else Bad
    case MessageUpdate(x) =>
      if m.open.Some? && Quiet(m.calls) && m.open.value.Assistant? && x.Assistant?
      then m.(open := Some(x)) else Bad
    case MessageEnd(x) =>
      if m.open.None? then Bad
      else if !Quiet(m.calls) then
        if x == m.open.value then m.(ended := m.ended + [x], open := None, results := m.results + [x]) else Bad
      else if x == m.open.value || (x.Assistant? && m.open.value.Assistant?) then
        Turn(m.ended + [x], None, Some(x), AllWaiting(|CallsOf(x)|), [])
      else Bad
    case ToolStart(i, call) =>
      if CallIs(m, i, call, Waiting) then m.(calls := m.calls[i := Running]) else Bad
    case ToolUpdate(i, call, _) =>
      if CallIs(m, i, call, Running) then m else Bad
    case ToolEnd(i, call, result, isError) =>
      if CallIs(m, i, call, Running) then m.(calls := m.calls[i := Finished(Finalized(call, result, isError))]) else Bad
    case TurnEnd(message, toolResults) =>
      if m.open.None? && m.last == Some(message) && message.Assistant? && toolResults == m.results
         && (if Halts(message) then Quiet(m.calls) && m.results == [] else |m.results| == |m.calls|)
      then Between(m.ended, true) else Bad
    case _ => Bad
  }

  ghost function Run(m: Monitor, t: seq<Event>): Monitor {
    if t == [] then m else Step(Run(m, t[..|t| - 1]), t[|t| - 1])
  }

  /** A whole run in the grammar. */
  ghost predicate Complete(t: seq<Event>) { Run(Fresh, t).Closed? }

  /** A run, or the beginning of one. */
  ghost predicate WellFormed(t: seq<Event>) { !Run(Fresh, t).Bad? }

  ghost function EndedOf(m: Monitor): seq<Message>
    requires !m.Bad?
  {
    if m.Fresh? then [] else m.ended
  }

  /** The states a monitor and an agent pass through while a trace is emitted. */
  ghost predicate Reads(trace: seq<Event>, monitors: seq<Monitor>, views: seq<AgentView>) {
    && |monitors| == |views| == |trace| + 1
    && monitors[0] == Fresh
    && forall i {:trigger trace[i]} :: 0 <= i < |trace| ==>
         monitors[i + 1] == Step(monitors[i], trace[i]) && views[i + 1] == Reduce(views[i], trace[i])
  }

  lemma ReadsGrows(trace: seq<Event>, monitors: seq<Monitor>, views: seq<AgentView>, e: Event)
    requires Reads(trace, monitors, views)
    ensures |monitors| == |views| == |trace| + 1
    ensures Reads(trace + [e], monitors + [Step(monitors[|trace|], e)], views + [Reduce(views[|trace|], e)])
  {
    hide Step, Reduce;
    var trace' := trace + [e];
    assert forall i :: 0 <= i < |trace| ==> trace'[i] == trace[i];
  }

  lemma {:induction false} ReadsIsRun(trace: seq<Event>, monitors: seq<Monitor>, views: seq<AgentView>)
    requires Reads(trace, monitors, views)
    ensures monitors[|trace|] == Run(Fresh, trace)
    ensures views[|trace|] == ReduceAll(views[0], trace)
  {
    if trace != [] {
      var n := |trace| - 1;
      ReadsIsRun(trace[..n], monitors[..n + 1], views[..n + 1]);
      assert monitors[n + 1] == Step(monitors[n], trace[n]);
    }
  }

  // ---- What the grammar says ---------------------------------------------------------------------

  lemma {:induction false} WellFormedPrefix(t: seq<Event>, k: nat)
    requires WellFormed(t) && k <= |t|
    ensures WellFormed(t[..k])
    decreases |t|
  {
    if k < |t| {
      assert t[..|t| - 1][..k] == t[..k];
      WellFormedPrefix(t[..|t| - 1], k);
    } else {
      assert t[..k] == t;
    }
  }

  lemma {:induction false} EndedIsMessageEnds(t: seq<Event>)
    requires WellFormed(t)
    ensures EndedOf(Run(Fresh, t)) == MessageEnds(t)
  {
    hide CallIs, IsNextResult, Quiet, NoneRunning, CallsOf;
    if t != [] {
      EndedIsMessageEnds(t[..|t| - 1]);
    }
  }

  function TurnBrackets(t: seq<Event>): seq<bool> {
    if t == [] then []
    else TurnBrackets(t[..|t| - 1]) +
         (if t[|t| - 1].TurnStart? then [true] else if t[|t| - 1].TurnEnd? then [false] else [])
  }

  ghost predicate Alternating(s: seq<bool>) { forall i :: 0 <= i < |s| ==> s[i] == (i % 2 == 0) }

  /** How a sequence of brackets fits the state of the grammar. */
  ghost predicate BracketsFit(brackets: seq<bool>, m: Monitor) {
    && Alternating(brackets) && |brackets| % 2 == (if m.Turn? then 1 else 0)
    && (m.Closed? || (m.Between? && m.anyTurn) ==> |brackets| >= 2)
  }

  lemma BracketStep(brackets: seq<bool>, m: Monitor, e: Event)
    requires BracketsFit(brackets, m) && !Step(m, e).Bad?
    ensures BracketsFit(brackets + (if e.TurnStart? then [true] else if e.TurnEnd? then [false] else []), Step(m, e))
  {
    hide CallIs, IsNextResult, Quiet, NoneRunning, CallsOf;
    assert brackets + [] == brackets;
  }

  lemma {:induction false} BracketsAlternate(t: seq<Event>)
    requires WellFormed(t)
    ensures Alternating(TurnBrackets(t))
    ensures |TurnBrackets(t)| % 2 == (if Run(Fresh, t).Turn? then 1 else 0)
    ensures |TurnBrackets(t)| >= 2 <== Run(Fresh, t).Closed? || (Run(Fresh, t).Between? && Run(Fresh, t).anyTurn)
  {
    hide Step;
    if t != [] {
      WellFormedPrefix(t, |t| - 1);
      BracketsAlternate(t[..|t| - 1]);
      BracketStep(TurnBrackets(t[..|t| - 1]), Run(Fresh, t[..|t| - 1]), t[|t| - 1]);
    }
  }

  lemma {:induction false} FirstAndLast(t: seq<Event>)
    requires WellFormed(t)
    ensures t != [] ==> t[0] == AgentStart
    ensures forall i :: 0 < i < |t| ==> t[i] != AgentStart
    ensures forall i :: 0 <= i < |t| - 1 ==> !t[i].AgentEnd?
    ensures Run(Fresh, t).Closed? <==> t != [] && t[|t| - 1].AgentEnd?
    ensures Run(Fresh, t).Fresh? <==> t == []
  {
    hide CallIs, IsNextResult, Quiet, NoneRunning, CallsOf;
    if t != [] { FirstAndLast(t[..|t| - 1]); }
  }

  /** A complete run is one agent_start, then turns each opened by turn_start and closed by turn_end
      (at least one), then one agent_end that lists exactly the messages that ended. */
  lemma CompleteShape(t: seq<Event>)
    requires Complete(t)
    ensures |t| >= 4 && t[0] == AgentStart && t[|t| - 1] == AgentEnd(MessageEnds(t))
    ensures forall i :: 0 < i < |t| - 1 ==> t[i] != AgentStart && !t[i].AgentEnd?
    ensures Alternating(TurnBrackets(t)) && |TurnBrackets(t)| >= 2 && |TurnBrackets(t)| % 2 == 0
  {
    FirstAndLast(t);
    BracketsAlternate(t);
    EndedIsMessageEnds(t[..|t| - 1]);
    EndedIsMessageEnds(t);
    BracketsLength(t[..|t| - 1]);
    BracketsAlternate(t[..|t| - 1]);
    assert t[..|t| - 1] != [] && t[..|t| - 1][0] == AgentStart;
  }

  lemma {:induction false} BracketsLength(t: seq<Event>)
    ensures |TurnBrackets(t)| <= |t|
    ensures t != [] && t[0] == AgentStart ==> |TurnBrackets(t)| < |t|
  {
    if t != [] { BracketsLength(t[..|t| - 1]); }
  }

  /** The tool events of one call, in order. */
  function EventsOfCall(t: seq<Event>, i: nat): seq<Event> {
    if t == [] then []
    else EventsOfCall(t[..|t| - 1], i) + OfCall(t[|t| - 1], i)
  }

  ghost predicate UpdatesOf(es: seq<Event>, call: ToolCall) {
    forall k :: 0 <= k < |es| ==> es[k].ToolUpdate? && es[k].call == call
  }

  /** The history that leads a call to a state. */
  ghost predicate History(es: seq<Event>, i: nat, call: ToolCall, state: CallState) {
    match state
    case Waiting => es == []
    case Running => es != [] && es[0] == ToolStart(i, call) && UpdatesOf(es[1..], call)
    case Finished(f) =>
      && |es| >= 2 && es[0] == ToolStart(i, call) && UpdatesOf(es[1..|es| - 1], call)
      && es[|es| - 1] == ToolEnd(i, call, f.result, f.isError) && f.call == call
  }

  function OfCall(e: Event, i: nat): seq<Event> {
    if (e.ToolStart? || e.ToolUpdate? || e.ToolEnd?) && e.index == i then [e] else []
  }

  /** The calls are those of the last message. */
  ghost predicate CallsMatch(m: Monitor)
    requires m.Turn?
  {
    if m.last.None? then m.calls == [] else |m.calls| == |CallsOf(m.last.value)|
  }

  /** These are the tool events of the call at this position, if there is one. */
  ghost predicate HistoryOf(m: Monitor, es: seq<Event>, i: nat)
    requires m.Turn? && CallsMatch(m)
  {
    if i < |m.calls| then History(es, i, CallsOf(m.last.value)[i], m.calls[i]) else es == []
  }

  /** What a tool event does to the state of its call. */
  ghost predicate Moves(before: CallState, after: CallState, e: Event) {
    match e
    case ToolStart(_, _) => before == Waiting && after == Running
    case ToolUpdate(_, _, _) => before == Running && after == Running
    case ToolEnd(_, call, result, isError) => before == Running && after == Finished(Finalized(call, result, isError))
    case _ => false
  }

  lemma ToolStep(m: Monitor, e: Event)
    requires m.Turn? && CallsMatch(m) && (e.ToolStart? || e.ToolUpdate? || e.ToolEnd?) && Step(m, e).Turn?
    ensures var now := Step(m, e);
            && CallsMatch(now) && now.last == m.last && m.last.Some? && |now.calls| == |m.calls| && !Quiet(now.calls)
            && e.index < |m.calls| && CallsOf(m.last.value)[e.index] == e.call
            && Moves(m.calls[e.index], now.calls[e.index], e)
            && forall j :: 0 <= j < |m.calls| && j != e.index ==> now.calls[j] == m.calls[j]
  {
    hide CallsOf, IsNextResult, NoneRunning;
    assert Step(m, e).calls[e.index] != Waiting;
  }

  lemma HistoryGrows(es: seq<Event>, i: nat, call: ToolCall, before: CallState, after: CallState, e: Event)
    requires History(es, i, call, before) && Moves(before, after, e)
    requires (e.ToolStart? || e.ToolUpdate? || e.ToolEnd?) && e.index == i && e.call == call
    ensures History(es + [e], i, call, after)
  {
    var es' := es + [e];
    if e.ToolUpdate? {
      assert es'[1..] == es[1..] + [e];
    } else if e.ToolEnd? {
      assert es'[1..|es'| - 1] == es[1..];
    }
  }

  lemma HistoryToolStep(m: Monitor, e: Event, es: seq<Event>, i: nat)
    requires m.Turn? && CallsMatch(m) && HistoryOf(m, es, i)
    requires (e.ToolStart? || e.ToolUpdate? || e.ToolEnd?) && Step(m, e).Turn?
    ensures CallsMatch(Step(m, e)) && HistoryOf(Step(m, e), es + OfCall(e, i), i)
    ensures Step(m, e).last == m.last
    ensures !Quiet(Step(m, e).calls)
  {
    hide CallsOf, Step, History, CallsMatch, Moves, Quiet;
    ToolStep(m, e);
    if e.index == i {
      HistoryGrows(es, i, e.call, m.calls[i], Step(m, e).calls[i], e);
    } else {
      assert es + OfCall(e, i) == es;
    }
  }

  lemma HistoryMessageStep(m: Monitor, e: Event, es: seq<Event>, i: nat)
    requires m.Turn? && CallsMatch(m) && HistoryOf(m, es, i)
    requires !(e.ToolStart? || e.ToolUpdate? || e.ToolEnd?) && Step(m, e).Turn?
    ensures CallsMatch(Step(m, e)) && HistoryOf(Step(m, e), es + OfCall(e, i), i)
    ensures !Quiet(m.calls) ==> Step(m, e).last == m.last && !Quiet(Step(m, e).calls)
  {
    hide CallsOf, IsNextResult, NoneRunning;
    assert es + OfCall(e, i) == es;
  }

  lemma NoHistory(m: Monitor, i: nat)
    requires m.Turn? && CallsMatch(m) && Quiet(m.calls)
    ensures HistoryOf(m, [], i)
  {
  }

  lemma BadStaysBad(m: Monitor, e: Event)
    ensures m.Bad? ==> Step(m, e).Bad?
  {
  }

  /** Whatever state a call of a turn has reached, its tool events so far are the history of that state. */
  lemma {:induction false} TurnHistory(m: Monitor, t: seq<Event>, i: nat)
    requires m.Turn? && CallsMatch(m) && Quiet(m.calls) && Run(m, t).Turn?
    requires forall k :: 0 <= k < |t| ==> !t[k].TurnEnd?
    ensures var now := Run(m, t); CallsMatch(now) && HistoryOf(now, EventsOfCall(t, i), i)
    ensures t != [] && t[0].ToolStart? ==> Run(m, t).last == m.last && !Quiet(Run(m, t).calls)
    decreases |t|
  {
    hide Step, HistoryOf, CallsMatch;
    if t == [] {
      NoHistory(m, i);
    } else {
      var before, e := t[..|t| - 1], t[|t| - 1];
      NoTurnEnd(m, before);
      BadStaysBad(Run(m, before), e);
      TurnHistory(m, before, i);
      assert |t| > 1 ==> before[0] == t[0];
      if e.ToolStart? || e.ToolUpdate? || e.ToolEnd? {
        HistoryToolStep(Run(m, before), e, EventsOfCall(before, i), i);
      } else {
        HistoryMessageStep(Run(m, before), e, EventsOfCall(before, i), i);
      }
    }
  }

  lemma {:induction false} NoTurnEnd(m: Monitor, t: seq<Event>)
    requires m.Turn? && forall k :: 0 <= k < |t| ==> !t[k].TurnEnd?
    ensures Run(m, t).Turn? || Run(m, t).Bad?
  {
    hide CallIs, IsNextResult, Quiet, NoneRunning, CallsOf;
    if t != [] { NoTurnEnd(m, t[..|t| - 1]); }
  }

  /** Reading a trace can stop after any part of it and go on with the rest. */
  lemma {:induction false} RunConcat(m: Monitor, a: seq<Event>, b: seq<Event>)
    ensures Run(m, a + b) == Run(Run(m, a), b)
    decreases |b|
  {
    hide Step;
    if b == [] {
      assert a + b == a;
    } else {
      RunConcat(m, a, b[..|b| - 1]);
      assert (a + b)[..|a + b| - 1] == a + b[..|b| - 1];
    }
  }

  /** These events are one start, then updates, then one end, and the result message is that of the outcome
      announced by the end. */
  ghost predicate DealtWith(es: seq<Event>, i: nat, call: ToolCall, result: Message) {
    && |es| >= 2 && es[|es| - 1].ToolEnd?
    && var f := Finalized(call, es[|es| - 1].result, es[|es| - 1].isError);
       History(es, i, call, Finished(f)) && result == CreateToolResultMessage(f)
  }

  /** From the start of a turn to its end the grammar is in that turn. */
  lemma TurnSegment(t: seq<Event>, s: nat, q: nat)
    requires WellFormed(t) && s < q < |t| && t[s].TurnStart? && t[q].TurnEnd?
    requires forall k :: s < k < q ==> !t[k].TurnEnd?
    ensures var m := Run(Fresh, t[..s + 1]);
            && m.Turn? && CallsMatch(m) && Quiet(m.calls)
            && Run(m, t[s + 1..q]) == Run(Fresh, t[..q]) && Run(Fresh, t[..q]).Turn?
            && WellFormed(t[..q]) && !Step(Run(Fresh, t[..q]), t[q]).Bad?
  {
    hide Step, Run;
    WellFormedPrefix(t, q + 1);
    WellFormedPrefix(t, q);
    WellFormedPrefix(t, s + 1);
    RunNext(t, s);
    RunNext(t, q);
    RunConcat(Fresh, t[..s + 1], t[s + 1..q]);
    assert t[..s + 1] + t[s + 1..q] == t[..q];
    TurnOpens(Run(Fresh, t[..s]), t[s]);
    NoTurnEnd(Run(Fresh, t[..s + 1]), t[s + 1..q]);
  }

  lemma RunNext(t: seq<Event>, k: nat)
    requires k < |t|
    ensures Run(Fresh, t[..k + 1]) == Step(Run(Fresh, t[..k]), t[k])
  {
    hide Step;
    assert t[..k + 1][..k] == t[..k];
  }

  lemma TurnOpens(m: Monitor, e: Event)
    requires e.TurnStart? && !Step(m, e).Bad?
    ensures var now := Step(m, e); now.Turn? && CallsMatch(now) && Quiet(now.calls)
  {
  }

  /** In every trace of the grammar, whatever is interleaved: a turn that ended without being cut short has
      dealt with every call of its message, each by one start, then its updates, then exactly one end, and
      lists the results in the order of the calls. A turn that was cut short has touched none. */
  lemma CallHistory(t: seq<Event>, s: nat, q: nat, i: nat)
    requires WellFormed(t) && s < q < |t| && t[s].TurnStart? && t[q].TurnEnd?
    requires forall k :: s < k < q ==> !t[k].TurnEnd?
    ensures var (es, calls) := (EventsOfCall(t[s + 1..q], i), CallsOf(t[q].message));
            && t[q].message.Assistant?
            && (if Halts(t[q].message) then es == [] && t[q].toolResults == []
                else && |t[q].toolResults| == |calls|
                     && if i < |calls| then DealtWith(es, i, calls[i], t[q].toolResults[i]) else es == [])
  {
    hide CallsOf, WellFormed, Run, EventsOfCall, CallIs, IsNextResult, NoneRunning, Halts;
    TurnSegment(t, s, q);
    var m := Run(Fresh, t[..q]);
    TurnHistory(Run(Fresh, t[..s + 1]), t[s + 1..q], i);
    RunSettled(t[..q]);
    assert m.last == Some(t[q].message);
  }

  // ---- The agent's own state, rebuilt from the events ---------------------------------------------

  datatype AgentView = AgentView(messages: seq<Message>, streaming: Option<Message>, pending: set<string>, error: Option<string>)

  function Reduce(v: AgentView, e: Event): AgentView {
    match e
    case MessageStart(x) => v.(streaming := Some(x))
    case MessageUpdate(x) => v.(streaming := Some(x))
    case MessageEnd(x) => v.(streaming := None, messages := v.messages + [x])
    case ToolStart(_, call) => v.(pending := v.pending + {call.id})
    case ToolEnd(_, call, _, _) => v.(pending := v.pending - {call.id})
    case TurnEnd(x, _) => if x.Assistant? && HasText(x.errorMessage) then v.(error := x.errorMessage) else v
    case AgentEnd(_) => v.(streaming := None)
    case _ => v
  }

  function ReduceAll(v: AgentView, t: seq<Event>): AgentView {
    if t == [] then v else Reduce(ReduceAll(v, t[..|t| - 1]), t[|t| - 1])
  }

  /** The ids of the calls that are running now. */
  ghost function RunningIds(m: Monitor): set<string> {
    if m.Turn? && m.last.Some? && |CallsOf(m.last.value)| == |m.calls|
    then set i | 0 <= i < |m.calls| && m.calls[i] == Running :: CallsOf(m.last.value)[i].id
    else {}
  }

  ghost predicate Settled(m: Monitor) {
    m.Turn? ==>
      && (m.last.None? ==> m.calls == [])
      && (m.last.Some? ==> |CallsOf(m.last.value)| == |m.calls|)
      && |m.results| <= |m.calls|
      && (m.open.Some? && !Quiet(m.calls) ==> IsNextResult(m, m.open.value))
      && (m.open.Some? ==> NoneRunning(m.calls))
      && (forall i :: 0 <= i < |m.results| ==>
            m.calls[i].Finished? && m.results[i] == CreateToolResultMessage(m.calls[i].outcome))
  }

  lemma {:induction false} RunSettled(t: seq<Event>)
    requires WellFormed(t)
    ensures Settled(Run(Fresh, t))
  {
    hide Step, Settled;
    if t == [] {
      NothingToSettle();
    } else {
      WellFormedPrefix(t, |t| - 1);
      RunSettled(t[..|t| - 1]);
      SettledStep(Run(Fresh, t[..|t| - 1]), t[|t| - 1]);
    }
  }

  lemma NothingToSettle()
    ensures Settled(Fresh)
  {
  }

  lemma SettledStep(m: Monitor, e: Event)
    requires Settled(m) && !Step(m, e).Bad? && !m.Bad?
    ensures Settled(Step(m, e))
  {
    hide CallsOf;
    if e.ToolStart? || e.ToolEnd? {
      assert m.calls[e.index] == (if e.ToolStart? then Waiting else Running);
    }
  }

  lemma {:induction false} ReduceMessages(v: AgentView, t: seq<Event>)
    ensures ReduceAll(v, t).messages == v.messages + MessageEnds(t)
  {
    if t != [] { ReduceMessages(v, t[..|t| - 1]); }
  }

  /** From here on no call with this id ends. */
  ghost predicate NoEndFrom(t: seq<Event>, k: nat, id: string) {
    forall j :: k <= j < |t| ==> !(t[j].ToolEnd? && t[j].call.id == id)
  }

  ghost predicate StartsAt(t: seq<Event>, k: nat, id: string) {
    k < |t| && t[k].ToolStart? && t[k].call.id == id
  }

  /** An id is marked as pending exactly if a call with it has been started that has not ended since, or it was
      marked to begin with. This holds of any events, in the grammar or not. */
  lemma {:induction false} PendingIff(v: AgentView, t: seq<Event>, id: string)
    ensures id in ReduceAll(v, t).pending <==>
              (exists k: nat :: StartsAt(t, k, id) && NoEndFrom(t, k, id)) || (id in v.pending && NoEndFrom(t, 0, id))
  {
    if t != [] {
      var n := |t| - 1;
      PendingIff(v, t[..n], id);
      forall k: nat | k <= n
        ensures NoEndFrom(t, k, id) <==> NoEndFrom(t[..n], k, id) && NoEndFrom(t, n, id)
        ensures StartsAt(t, k, id) <==> StartsAt(t[..n], k, id) || (k == n && StartsAt(t, n, id))
      {
        OneMoreEvent(t, k, id);
      }
      assert NoEndFrom(t, n, id) <==> !(t[n].ToolEnd? && t[n].call.id == id);
      if StartsAt(t, n, id) {
        assert NoEndFrom(t, n, id);
      } else if NoEndFrom(t, n, id) {
        assert forall k: nat :: StartsAt(t, k, id) && NoEndFrom(t, k, id) ==>
                                  StartsAt(t[..n], k, id) && NoEndFrom(t[..n], k, id);
        assert forall k: nat :: StartsAt(t[..n], k, id) && NoEndFrom(t[..n], k, id) ==>
                                  StartsAt(t, k, id) && NoEndFrom(t, k, id);
      }
    }
  }

  lemma OneMoreEvent(t: seq<Event>, k: nat, id: string)
    requires k < |t|
    ensures var n := |t| - 1;
            && (NoEndFrom(t, k, id) <==> NoEndFrom(t[..n], k, id) && NoEndFrom(t, n, id))
            && (StartsAt(t, k, id) <==> StartsAt(t[..n], k, id) || (k == n && StartsAt(t, n, id)))
  {
    var before := t[..|t| - 1];
    assert forall j :: 0 <= j < |before| ==> before[j] == t[j];
    if NoEndFrom(before, k, id) && NoEndFrom(t, |before|, id) {
      forall j | k <= j < |t| ensures !(t[j].ToolEnd? && t[j].call.id == id) {
        if j < |before| { assert before[j] == t[j]; }
      }
    }
  }

  /** The turn that ends here carries an error. */
  predicate FailsAt(t: seq<Event>, k: nat) {
    k < |t| && t[k].TurnEnd? && t[k].message.Assistant? && HasText(t[k].message.errorMessage)
  }

  /** The agent's error is that of the last turn that had one, and what it was before if none had. */
  lemma {:induction false} ErrorIs(v: AgentView, t: seq<Event>, k: nat)
    requires k < |t| ==> FailsAt(t, k)
    requires forall j: nat :: FailsAt(t, j) ==> j <= k < |t|
    ensures ReduceAll(v, t).error == if k < |t| then t[k].message.errorMessage else v.error
  {
    if t != [] {
      var n := |t| - 1;
      assert k != n ==> !FailsAt(t, n);
      if k != n {
        assert forall j: nat :: FailsAt(t[..n], j) ==> FailsAt(t, j);
        ErrorIs(v, t[..n], k);
      }
    }
  }

  ghost function OpenMessage(m: Monitor): Option<Message> { if m.Turn? then m.open else None }

  lemma StreamingStep(v: AgentView, m: Monitor, e: Event)
    requires v.streaming == OpenMessage(m) && !Step(m, e).Bad?
    ensures Reduce(v, e).streaming == OpenMessage(Step(m, e))
  {
    hide CallIs, IsNextResult, Quiet, NoneRunning, CallsOf;
  }

  /** The agent's transcript is what it was plus the messages that ended; a message is marked as
      streaming exactly while it is open; ids marked as pending belong to running calls, so at every
      turn_end, and whenever no turn is open, nothing is pending. */
  lemma {:induction false} ReduceTracksRun(v: AgentView, t: seq<Event>)
    requires WellFormed(t) && v.pending == {} && v.streaming == None
    ensures var (now, m) := (ReduceAll(v, t), Run(Fresh, t));
            && now.messages == v.messages + MessageEnds(t)
            && now.streaming == OpenMessage(m)
            && now.pending <= RunningIds(m)
            && (!m.Turn? ==> now.pending == {})
  {
    hide Step, Reduce, MessageEnds, Settled;
    ReduceMessages(v, t);
    if t != [] {
      var before, e := t[..|t| - 1], t[|t| - 1];
      WellFormedPrefix(t, |t| - 1);
      ReduceTracksRun(v, before);
      RunSettled(before);
      StreamingStep(ReduceAll(v, before), Run(Fresh, before), e);
      PendingStep(ReduceAll(v, before), Run(Fresh, before), e);
    }
  }

  lemma PendingStep(v: AgentView, m: Monitor, e: Event)
    requires v.pending <= RunningIds(m) && Settled(m) && !Step(m, e).Bad?
    ensures Reduce(v, e).pending <= RunningIds(Step(m, e))
    ensures e.TurnEnd? ==> v.pending == {}
  {
    hide CallsOf, IsNextResult, CreateToolResultMessage;
    if e.ToolStart? || e.ToolEnd? {
      PendingToolStep(v, m, e);
    } else if e.MessageEnd? {
      assert NoneRunning(m.calls);
    } else if e.TurnEnd? {
      assert NoneRunning(m.calls);
    }
  }

  lemma PendingToolStep(v: AgentView, m: Monitor, e: Event)
    requires v.pending <= RunningIds(m) && !Step(m, e).Bad? && (e.ToolStart? || e.ToolEnd?)
    ensures Reduce(v, e).pending <= RunningIds(Step(m, e))
  {
    hide CallsOf, IsNextResult, CreateToolResultMessage, Quiet, NoneRunning;
    var m' := Step(m, e);
    if e.ToolStart? { assert m'.calls[e.index] == Running; }
    forall id | id in RunningIds(m) && (e.ToolEnd? ==> id != e.call.id) ensures id in RunningIds(m') {
      var k :| 0 <= k < |m.calls| && m.calls[k] == Running && CallsOf(m.last.value)[k].id == id;
      assert m'.calls[k] == Running;
    }
  }
}
