/** packages/agent/src/agent-loop.ts: the turn loop. The provider, the tools, the hooks and the moments
    at which the abort signal fires and messages are queued come from an environment script, one entry
    per provider request; a script that runs out stops the loop at a turn boundary, so that every
    statement is about every finite beginning of every run. */
module AgentLoop {
  import opened Options
  import opened AgentMessages
  import opened AgentEvents
  import opened ToolBatch
  import opened AgentState

  datatype StreamEvent = StreamStart(partial: AssistantMessage) | StreamDelta(partial: AssistantMessage) | StreamTerminal

  /** What can happen while tools run side by side. */
  datatype MicroStep = Update(index: nat, partialResult: string) | Return(index: nat) | Settle(index: nat) | Abort

  /** What the two queues hold, or what is added to them. */
  datatype Queued = Queued(steering: seq<Message>, followUps: seq<Message>) {
    function Plus(more: Queued): Queued { Queued(steering + more.steering, followUps + more.followUps) }
  }

  /** One turn's script: the answer, the tools, the hooks; whether the abort signal fires before the tools
      or after them; and the messages that are queued from one poll of the queues to the next. */
  datatype TurnEnv = TurnEnv(
    stream: seq<StreamEvent>,
    final: AssistantMessage,
    sequentialConfig: bool,
    calls: nat -> CallEnv,
    schedule: seq<MicroStep>,
    nextContext: Option<seq<Message>>,
    stopAfterTurn: bool,
    stopCheck: seq<Message>,
    abortsEarly: bool,
    abortsLate: bool,
    /** Until the steering queue is polled after the turn. */
    arrivals: Queued,
    /** From there until the follow-up queue is polled, if it is. */
    afterPoll: Queued,
    /** From there on, while the stop check is awaited, if it is. */
    duringStopCheck: Queued)

  predicate RunsSequentially(t: TurnEnv, calls: seq<ToolCall>) {
    t.sequentialConfig || exists k :: 0 <= k < |calls| && t.calls(k).toolFound && t.calls(k).toolIsSequential
  }

  predicate RunsSideBySide(t: TurnEnv) {
    var calls := CallsOf(t.final);
    calls != [] && t.final.stopReason != Length && !RunsSequentially(t, calls)
  }

  /** Calls run one after the other if the configuration says so or if one of the tools asked for wants it. */
  lemma SideBySideIff(t: TurnEnv)
    requires CallsOf(t.final) != []
    ensures RunsSideBySide(t) <==>
              && t.final.stopReason != Length && !t.sequentialConfig
              && forall k :: 0 <= k < |CallsOf(t.final)| && t.calls(k).toolFound ==> !t.calls(k).toolIsSequential
  {
    hide CallsOf;
  }

  /** The signal fires while tools run side by side, or once the tools are done. */
  predicate FiresLate(t: TurnEnv) { t.abortsLate || (RunsSideBySide(t) && Abort in t.schedule) }

  /** The signal fires at some moment of the turn. */
  ghost predicate FiresIn(t: TurnEnv) {
    || t.abortsEarly || FiresLate(t)
    || (t.final.stopReason != Length && exists k :: 0 <= k < |CallsOf(t.final)| && Fires(t.calls(k)))
  }

  /** The signal fires in an earlier turn. */
  ghost predicate FiredBefore(env: seq<TurnEnv>, j: nat)
    requires j <= |env|
  {
    j > 0 && (FiredBefore(env, j - 1) || FiresIn(env[j - 1]))
  }

  // ---- What the loop does next, as a function of the queues -------------------------------------------

  /** The loop goes on with these messages, or ends; `left` is what stays in the queues. */
  datatype Decision = Next(pending: seq<Message>, source: Source, left: Queued) | End(left: Queued)

  /** The poll of the steering queue after a turn. */
  function PollAfter(queued: Queued, mode: QueueMode, t: TurnEnv): (seq<Message>, Queued) {
    var q := queued.Plus(t.arrivals);
    var batch := NextBatch(q.steering, mode);
    (batch, Queued(q.steering[|batch|..], q.followUps))
  }

  /** The agent would stop: the follow-up queue is polled, then the stop check is asked. */
  function DecideToStop(queued: Queued, mode: QueueMode, t: TurnEnv): Decision {
    var q := queued.Plus(t.afterPoll);
    var batch := NextBatch(q.followUps, mode);
    var left := Queued(q.steering, q.followUps[|batch|..]);
    if batch != [] then Next(batch, FollowUp, left)
    else if t.stopCheck != [] then Next(t.stopCheck, StopCheck, left.Plus(t.duringStopCheck))
    else End(left.Plus(t.duringStopCheck))
  }

  /** What follows a turn that ended neither the run by itself nor by a hook. */
  function Decide(queued: Queued, modes: (QueueMode, QueueMode), t: TurnEnv, continues: bool): Decision {
    var (batch, left) := PollAfter(queued, modes.0, t);
    if continues || batch != [] then Next(batch, Steering, left) else DecideToStop(left, modes.1, t)
  }

  /** The poll before the first turn. */
  function Open(queued: Queued, skip: bool, mode: QueueMode): Decision {
    var batch := if skip then [] else NextBatch(queued.steering, mode);
    Next(batch, Steering, Queued(queued.steering[|batch|..], queued.followUps))
  }

  /** Why a run ends by itself, exactly: tools ask for nothing, each queue was empty when it was polled last,
      and the stop check adds nothing. What is left in a queue has arrived after its last poll. */
  lemma EndsIff(queued: Queued, modes: (QueueMode, QueueMode), t: TurnEnv, continues: bool, left: Queued)
    ensures Decide(queued, modes, t, continues) == End(left) <==>
              && !continues && t.stopCheck == []
              && queued.steering + t.arrivals.steering == []
              && queued.followUps + t.arrivals.followUps + t.afterPoll.followUps == []
              && left == Queued(t.afterPoll.steering + t.duringStopCheck.steering, t.duringStopCheck.followUps)
  {
  }

  /** A run that ends by itself leaves empty queues if and only if nothing arrives after a queue's last poll. */
  lemma LeavesNothingIff(queued: Queued, modes: (QueueMode, QueueMode), t: TurnEnv, continues: bool, left: Queued)
    requires Decide(queued, modes, t, continues) == End(left)
    ensures left == Queued([], []) <==>
              t.afterPoll.steering == [] && t.duringStopCheck == Queued([], [])
  {
    EndsIff(queued, modes, t, continues, left);
  }

  /** What comes after a turn, by its source. While tools ask on, or steering messages are queued, these are
      handed out; once there are none, follow-ups are; and the stop check is asked only if there are none of
      these either. */
  lemma DecideSays(queued: Queued, modes: (QueueMode, QueueMode), t: TurnEnv, continues: bool, pending: seq<Message>,
                   source: Source, left: Queued)
    requires Decide(queued, modes, t, continues) == Next(pending, source, left)
    ensures Chosen(queued, modes, t, continues, pending, source, left)
  {
    NextIsHandedOut(queued.steering + t.arrivals.steering, modes.0);
    NextIsHandedOut(queued.followUps + t.arrivals.followUps + t.afterPoll.followUps, modes.1);
  }

  predicate Chosen(queued: Queued, modes: (QueueMode, QueueMode), t: TurnEnv, continues: bool, pending: seq<Message>,
                   source: Source, left: Queued)
  {
    var steering := queued.steering + t.arrivals.steering;
    var followUps := queued.followUps + t.arrivals.followUps;
    if continues || steering != [] then
      source == Steering && HandsOut(steering, pending, left.steering, modes.0) && left.followUps == followUps
    else if followUps + t.afterPoll.followUps != [] then
      && source == FollowUp && HandsOut(followUps + t.afterPoll.followUps, pending, left.followUps, modes.1)
      && left.steering == t.afterPoll.steering
    else
      && source == StopCheck && pending == t.stopCheck != []
      && left == Queued(t.afterPoll.steering + t.duringStopCheck.steering, t.duringStopCheck.followUps)
  }

  // ---- One assistant stream -------------------------------------------------------------------------

  function CloseStream(context: seq<Message>, final: AssistantMessage, added: bool): seq<Message>
    requires added ==> context != []
  {
    if added then context[|context| - 1 := final] else context + [final]
  }

  /** The context after a stream: a started message is replaced in place until it is final. */
  function StreamContext(context: seq<Message>, stream: seq<StreamEvent>, final: AssistantMessage, added: bool): seq<Message>
    requires added ==> context != []
    decreases |stream|
  {
    if stream == [] || stream[0].StreamTerminal? then CloseStream(context, final, added)
    else if stream[0].StreamStart? then StreamContext(context + [stream[0].partial], stream[1..], final, true)
    else if added then StreamContext(context[|context| - 1 := stream[0].partial], stream[1..], final, true)
    else StreamContext(context, stream[1..], final, false)
  }

  /** The events of a stream: updates only follow a start, and the final message always starts and ends. */
  function StreamTrace(stream: seq<StreamEvent>, final: AssistantMessage, added: bool): seq<Event>
    decreases |stream|
  {
    if stream == [] || stream[0].StreamTerminal? then (if added then [] else [MessageStart(final)]) + [MessageEnd(final)]
    else if stream[0].StreamStart? then [MessageStart(stream[0].partial)] + StreamTrace(stream[1..], final, true)
    else (if added then [MessageUpdate(stream[0].partial)] else []) + StreamTrace(stream[1..], final, added)
  }

  function UpdateEvents(i: nat, call: ToolCall, updates: seq<string>): seq<Event> {
    seq(|updates|, k requires 0 <= k < |updates| => ToolUpdate(i, call, updates[k]))
  }

  function EndTrace(i: nat, f: Finalized): seq<Event> {
    var message := CreateToolResultMessage(f);
    [ToolEnd(i, f.call, f.result, f.isError), MessageStart(message), MessageEnd(message)]
  }

  /** The events of one call that is dealt with on its own. */
  function CallTrace(i: nat, call: ToolCall, updates: seq<string>, f: Finalized): seq<Event> {
    [ToolStart(i, call)] + UpdateEvents(i, call, updates) + EndTrace(i, f)
  }

  lemma AssembleCall(before: seq<Event>, i: nat, call: ToolCall, updates: seq<string>, f: Finalized)
    ensures before + [ToolStart(i, call)] + UpdateEvents(i, call, updates) + EndTrace(i, f)
            == before + CallTrace(i, call, updates, f)
    ensures before + [ToolStart(i, call)] + EndTrace(i, f) == before + CallTrace(i, call, [], f)
  {
    assert UpdateEvents(i, call, []) == [];
  }

  /** The updates call k of a batch sends when calls are dealt with one at a time. */
  ghost function UpdatesAt(b: Batch, k: nat): seq<string>
    requires k < |b.calls|
  {
    if !b.truncated && !Skipped(b, k) && PrepareToolCall(b.calls[k], b.env(k), k == 0 && b.aborted).0.Prepared?
    then b.env(k).updates else []
  }

  /** A call sends updates if and only if it is executed: one that is blocked, refused or skipped sends none. */
  lemma UpdatesIff(b: Batch, k: nat)
    requires k < |b.calls|
    ensures UpdatesAt(b, k) == if Executes(b, k) then b.env(k).updates else []
  {
    SkippedIff(b, k);
    FiredFirst(b);
    hide AbortedAfter, FiredBeforeCall;
  }

  /** The partial results that have been reported of call i, in order. */
  function UpdatesIn(trace: seq<Event>, i: nat): seq<string> {
    if trace == [] then []
    else UpdatesIn(trace[..|trace| - 1], i) + UpdateIn(trace[|trace| - 1], i)
  }

  function UpdateIn(e: Event, i: nat): seq<string> {
    if e.ToolUpdate? && e.index == i then [e.partialResult] else []
  }

  lemma OneMoreUpdate(trace: seq<Event>, e: Event)
    ensures forall i :: UpdatesIn(trace + [e], i) == UpdatesIn(trace, i) + UpdateIn(e, i)
  {
    assert (trace + [e])[..|trace|] == trace;
  }

  lemma {:induction false} UpdatesConcat(a: seq<Event>, b: seq<Event>, i: nat)
    ensures UpdatesIn(a + b, i) == UpdatesIn(a, i) + UpdatesIn(b, i)
  {
    if b == [] {
      assert a + b == a;
    } else {
      var n := |b| - 1;
      assert a + b == a + b[..n] + [b[n]] && b == b[..n] + [b[n]];
      OneMoreUpdate(a + b[..n], b[n]);
      OneMoreUpdate(b[..n], b[n]);
      UpdatesConcat(a, b[..n], i);
    }
  }

  lemma {:induction false} UpdatesAreAll(k: nat, call: ToolCall, updates: seq<string>, i: nat)
    ensures UpdatesIn(UpdateEvents(k, call, updates), i) == if i == k then updates else []
  {
    if updates != [] {
      var n := |updates| - 1;
      assert UpdateEvents(k, call, updates) == UpdateEvents(k, call, updates[..n]) + [ToolUpdate(k, call, updates[n])];
      OneMoreUpdate(UpdateEvents(k, call, updates[..n]), ToolUpdate(k, call, updates[n]));
      UpdatesAreAll(k, call, updates[..n], i);
      assert updates == updates[..n] + [updates[n]];
    }
  }

  /** The updates among the events of one call that is dealt with on its own are those it sends. */
  lemma CallUpdates(k: nat, call: ToolCall, updates: seq<string>, f: Finalized, i: nat)
    requires f.call == call
    ensures UpdatesIn(CallTrace(k, call, updates, f), i) == if i == k then updates else []
  {
    hide EndTrace, UpdateEvents, UpdatesIn;
    UpdatesConcat([ToolStart(k, call)] + UpdateEvents(k, call, updates), EndTrace(k, f), i);
    UpdatesConcat([ToolStart(k, call)], UpdateEvents(k, call, updates), i);
    UpdatesAreAll(k, call, updates, i);
    StartAndEndSendNothing(k, f, i);
  }

  lemma StartAndEndSendNothing(k: nat, f: Finalized, i: nat)
    ensures UpdatesIn([ToolStart(k, f.call)], i) == UpdatesIn(EndTrace(k, f), i) == []
  {
    QuietTrace([], [ToolStart(k, f.call)], i);
    QuietTrace([], EndTrace(k, f), i);
    assert [] + EndTrace(k, f) == EndTrace(k, f) && [] + [ToolStart(k, f.call)] == [ToolStart(k, f.call)];
  }

  /** The events that were added announce calls or results, but no updates. */
  ghost predicate Announces(before: seq<Event>, after: seq<Event>) {
    before <= after && forall k :: |before| <= k < |after| ==> after[k].ToolStart? || after[k].ToolEnd?
  }

  lemma {:induction false} QuietTrace(a: seq<Event>, b: seq<Event>, i: nat)
    requires forall k :: 0 <= k < |b| ==> !b[k].ToolUpdate?
    ensures UpdatesIn(a + b, i) == UpdatesIn(a, i)
  {
    if b == [] {
      assert a + b == a;
    } else {
      var n := |b| - 1;
      assert a + b == a + b[..n] + [b[n]];
      OneMoreUpdate(a + b[..n], b[n]);
      QuietTrace(a, b[..n], i);
    }
  }

  lemma AnnouncesOnly(before: seq<Event>, after: seq<Event>)
    requires Announces(before, after)
    ensures ToolsOnly(before, after) && forall i :: UpdatesIn(after, i) == UpdatesIn(before, i)
  {
    assert after == before + after[|before|..];
    forall i ensures UpdatesIn(after, i) == UpdatesIn(before, i) {
      QuietTrace(before, after[|before|..], i);
    }
  }

  lemma {:induction false} ResultsSendNothing(trace: seq<Event>, messages: seq<Message>, i: nat)
    ensures UpdatesIn(trace + ResultTrace(messages), i) == UpdatesIn(trace, i)
  {
    if messages == [] {
      assert trace + [] == trace;
    } else {
      var n := |messages| - 1;
      var last := [MessageStart(messages[n]), MessageEnd(messages[n])];
      assert trace + ResultTrace(messages) == trace + ResultTrace(messages[..n]) + last;
      QuietTrace(trace + ResultTrace(messages[..n]), last, i);
      ResultsSendNothing(trace, messages[..n], i);
    }
  }

  /** What call i sends while tools run side by side: its updates up to the moment it returns. */
  function SentUntilReturn(schedule: seq<MicroStep>, i: nat): seq<string> {
    if schedule == [] || schedule[0] == Return(i) then []
    else (if schedule[0].Update? && schedule[0].index == i then [schedule[0].partialResult] else [])
         + SentUntilReturn(schedule[1..], i)
  }

  /** What one micro-step does to the events and to the tasks: one that is not possible now does nothing. */
  ghost predicate Takes(step: MicroStep, calls: seq<ToolCall>, before: seq<Event>, entries: seq<Entry>, after: seq<Event>,
                        entries': seq<Entry>)
    requires |entries| <= |calls|
  {
    match step
    case Abort => after == before && entries' == entries
    case Update(i, partialResult) =>
      && entries' == entries
      && after == before + if i < |entries| && entries[i].Executing? then [ToolUpdate(i, calls[i], partialResult)] else []
    case Return(i) =>
      && after == before
      && entries' == if i < |entries| && entries[i].Executing? then entries[i := Executed] else entries
    case Settle(i) =>
      if i < |entries| && entries[i].Executed? then
        Announces(before, after) && |entries'| == |entries| && entries' == entries[i := entries'[i]] && entries'[i].Settled?
      else after == before && entries' == entries
  }

  lemma TakesSend(schedule: seq<MicroStep>, k: nat, calls: seq<ToolCall>, before: seq<Event>, entries: seq<Entry>,
                  after: seq<Event>, entries': seq<Entry>)
    requires |entries| <= |calls| && k < |schedule| && Takes(schedule[k], calls, before, entries, after, entries')
    ensures forall i :: UpdatesIn(after, i) + StillSends(entries', schedule[k + 1..], i) ==
                        UpdatesIn(before, i) + StillSends(entries, schedule[k..], i)
  {
    assert schedule[k..][0] == schedule[k] && schedule[k..][1..] == schedule[k + 1..];
    match schedule[k]
    case Update(j, partialResult) =>
      assert before + [] == before;
      if j < |entries| { OneMoreUpdate(before, ToolUpdate(j, calls[j], partialResult)); }
    case Settle(j) => if j < |entries| && entries[j].Executed? { AnnouncesOnly(before, after); }
    case _ =>
  }

  /** What call i still sends, from where its task stands. */
  function StillSends(entries: seq<Entry>, schedule: seq<MicroStep>, i: nat): seq<string> {
    if i < |entries| && entries[i].Executing? then SentUntilReturn(schedule, i) else []
  }

  /** The updates of call i in a turn: none unless it is executed, and then those of its tool. */
  ghost function Sent(t: TurnEnv, b: Batch, i: nat): seq<string> {
    if !Executes(b, i) then []
    else if RunsSideBySide(t) then SentUntilReturn(t.schedule, i) else t.calls(i).updates
  }

  /** The events of the first n calls of a batch, dealt with one at a time. */
  ghost function CallTraces(b: Batch, n: nat): seq<Event>
    requires n <= |b.calls|
  {
    if n == 0 then []
    else CallTraces(b, n - 1) + CallTrace(n - 1, b.calls[n - 1], UpdatesAt(b, n - 1), OutcomeAt(b, n - 1))
  }

  /** The updates among them are those of the calls that are executed. */
  lemma {:induction false} CallTracesUpdates(trace: seq<Event>, b: Batch, n: nat, i: nat)
    requires n <= |b.calls|
    ensures UpdatesIn(trace + CallTraces(b, n), i) ==
            UpdatesIn(trace, i) + if i < n && Executes(b, i) then b.env(i).updates else []
  {
    hide CallTrace, OutcomeAt, UpdatesAt, Executes, UpdatesIn;
    if n == 0 {
      assert trace + [] == trace;
    } else {
      var last := CallTrace(n - 1, b.calls[n - 1], UpdatesAt(b, n - 1), OutcomeAt(b, n - 1));
      assert trace + CallTraces(b, n) == trace + CallTraces(b, n - 1) + last;
      UpdatesConcat(trace + CallTraces(b, n - 1), last, i);
      CallUpdates(n - 1, b.calls[n - 1], UpdatesAt(b, n - 1), OutcomeAt(b, n - 1), i);
      UpdatesIff(b, n - 1);
      CallTracesUpdates(trace, b, n - 1, i);
    }
  }

  lemma OneMoreCall(before: seq<Event>, b: Batch, k: nat)
    requires k < |b.calls|
    ensures before + CallTraces(b, k) + CallTrace(k, b.calls[k], UpdatesAt(b, k), OutcomeAt(b, k)) == before + CallTraces(b, k + 1)
  {
    hide CallTrace, UpdatesAt, OutcomeAt;
    AssociateEvents(before, CallTraces(b, k), CallTrace(k, b.calls[k], UpdatesAt(b, k), OutcomeAt(b, k)));
  }

  lemma AssociateEvents(a: seq<Event>, b: seq<Event>, c: seq<Event>)
    ensures a + b + c == a + (b + c)
  {
  }

  /** The events that report results which have all been announced before. */
  function ResultTrace(messages: seq<Message>): seq<Event> {
    if messages == [] then []
    else ResultTrace(messages[..|messages| - 1])
         + [MessageStart(messages[|messages| - 1]), MessageEnd(messages[|messages| - 1])]
  }

  /** What was added to the trace are events of tools only. */
  ghost predicate ToolsOnly(before: seq<Event>, after: seq<Event>) {
    before <= after
    && forall k :: |before| <= k < |after| ==> after[k].ToolStart? || after[k].ToolUpdate? || after[k].ToolEnd?
  }

  lemma AnnouncesStarts(a: seq<Event>, i: nat, call: ToolCall)
    ensures Announces(a, a) && Announces(a, a + [ToolStart(i, call)])
  {
  }

  lemma AnnouncesEnds(a: seq<Event>, b: seq<Event>, i: nat, f: Finalized)
    requires Announces(a, b)
    ensures Announces(a, b + [ToolEnd(i, f.call, f.result, f.isError)])
    ensures Announces(a, b + [ToolStart(i, f.call)] + [ToolEnd(i, f.call, f.result, f.isError)])
  {
  }

  /** All calls have been announced before the first result is reported, and the results come last. */
  ghost predicate ReportsLast(before: seq<Event>, after: seq<Event>, messages: seq<Message>) {
    exists announced :: ToolsOnly(before, announced) && after == announced + ResultTrace(messages)
  }

  /** How often a message is started before the stream terminates. */
  function Starts(stream: seq<StreamEvent>): nat {
    if stream == [] || stream[0].StreamTerminal? then 0
    else (if stream[0].StreamStart? then 1 else 0) + Starts(stream[1..])
  }

  /** One more event of a stream that goes on. */
  lemma StreamStep(context: seq<Message>, stream: seq<StreamEvent>, k: nat, final: AssistantMessage, added: bool,
                   trace: seq<Event>)
    requires k < |stream| && !stream[k].StreamTerminal? && (added ==> context != [])
    ensures var e := stream[k];
            var added' := added || e.StreamStart?;
            var context' := if e.StreamStart? then context + [e.partial]
                            else if added then context[|context| - 1 := e.partial] else context;
            var events := if e.StreamStart? then [MessageStart(e.partial)] else if added then [MessageUpdate(e.partial)] else [];
            && StreamContext(context', stream[k + 1..], final, added') == StreamContext(context, stream[k..], final, added)
            && trace + events + StreamTrace(stream[k + 1..], final, added') == trace + StreamTrace(stream[k..], final, added)
            && Starts(stream[k..]) == (if e.StreamStart? then 1 else 0) + Starts(stream[k + 1..])
  {
    assert stream[k..][0] == stream[k] && stream[k..][1..] == stream[k + 1..];
  }

  lemma StreamOver(context: seq<Message>, stream: seq<StreamEvent>, k: nat, final: AssistantMessage, added: bool)
    requires k <= |stream| && (k < |stream| ==> stream[k].StreamTerminal?) && (added ==> context != [])
    ensures StreamContext(context, stream[k..], final, added) == CloseStream(context, final, added)
    ensures StreamTrace(stream[k..], final, added) == (if added then [] else [MessageStart(final)]) + [MessageEnd(final)]
  {
    assert k < |stream| ==> stream[k..][0] == stream[k];
  }

  predicate OnlyDeltas(stream: seq<StreamEvent>) { forall k :: 0 <= k < |stream| ==> stream[k].StreamDelta? }

  predicate Ends(stream: seq<StreamEvent>) { stream != [] ==> stream[0].StreamTerminal? }

  function DeltaEvents(deltas: seq<StreamEvent>): seq<Event>
    requires OnlyDeltas(deltas)
  {
    seq(|deltas|, k requires 0 <= k < |deltas| => MessageUpdate(deltas[k].partial))
  }

  /** What a stream looks like from outside: deltas before a start are not reported, the start is, each delta
      after it is, and the final message ends it; without a start there is nothing but the final message. */
  lemma {:induction false} StreamTraceShape(early: seq<StreamEvent>, partial: AssistantMessage, deltas: seq<StreamEvent>,
                                            rest: seq<StreamEvent>, final: AssistantMessage)
    requires OnlyDeltas(early) && OnlyDeltas(deltas) && Ends(rest)
    ensures StreamTrace(early + rest, final, false) == [MessageStart(final), MessageEnd(final)]
    ensures StreamTrace(early + ([StreamStart(partial)] + (deltas + rest)), final, false) ==
            [MessageStart(partial)] + DeltaEvents(deltas) + [MessageEnd(final)]
  {
    var started := [StreamStart(partial)] + (deltas + rest);
    if early == [] {
      DeltasTrace(deltas, rest, final);
      assert early + rest == rest && early + started == started && started[1..] == deltas + rest;
    } else {
      assert (early + rest)[1..] == early[1..] + rest && (early + started)[1..] == early[1..] + started;
      StreamTraceShape(early[1..], partial, deltas, rest, final);
    }
  }

  lemma {:induction false} DeltasTrace(deltas: seq<StreamEvent>, rest: seq<StreamEvent>, final: AssistantMessage)
    requires OnlyDeltas(deltas) && Ends(rest)
    ensures StreamTrace(deltas + rest, final, true) == DeltaEvents(deltas) + [MessageEnd(final)]
  {
    if deltas == [] {
      assert deltas + rest == rest;
    } else {
      assert (deltas + rest)[1..] == deltas[1..] + rest;
      DeltasTrace(deltas[1..], rest, final);
      assert DeltaEvents(deltas) == [MessageUpdate(deltas[0].partial)] + DeltaEvents(deltas[1..]);
    }
  }

  lemma {:induction false} StreamContextShape(context: seq<Message>, stream: seq<StreamEvent>, final: AssistantMessage,
                                              added: bool)
    requires added ==> context != []
    ensures var after := StreamContext(context, stream, final, added);
            var kept := if added then |context| - 1 else |context|;
            && |after| == |context| + (if added || Starts(stream) > 0 then Starts(stream) else 1)
            && after[..kept] == context[..kept]
            && after[|after| - 1] == final
    decreases |stream|
  {
    if stream != [] && !stream[0].StreamTerminal? {
      if stream[0].StreamStart? {
        StreamContextShape(context + [stream[0].partial], stream[1..], final, true);
        var after := StreamContext(context, stream, final, added);
        assert after[..|context|] == context;
        var kept := if added then |context| - 1 else |context|;
        assert after[..kept] == after[..|context|][..kept];
      } else if added {
        StreamContextShape(context[|context| - 1 := stream[0].partial], stream[1..], final, true);
      } else {
        StreamContextShape(context, stream[1..], final, false);
      }
    }
  }

  /** The context grows by exactly the final message if and only if the provider starts at most one
      message per stream. */
  lemma StreamAppendsFinalIff(context: seq<Message>, stream: seq<StreamEvent>, final: AssistantMessage)
    ensures StreamContext(context, stream, final, false) == context + [final] <==> Starts(stream) <= 1
  {
    StreamContextShape(context, stream, final, false);
    var after := StreamContext(context, stream, final, false);
    if Starts(stream) <= 1 {
      assert after == after[..|context|] + [after[|context|]];
    }
  }

  // ---- The run ---------------------------------------------------------------------------------------

  /** Where a new message of the run came from. */
  datatype Source = Prompt | Steering | FollowUp | StopCheck | Model | Tool

  /** The messages of one source, in order. */
  ghost function Select(messages: seq<Message>, sources: seq<Source>, s: Source): seq<Message>
    requires |sources| == |messages|
  {
    var n := |messages|;
    if n == 0 then []
    else Select(messages[..n - 1], sources[..n - 1], s) + (if sources[n - 1] == s then [messages[n - 1]] else [])
  }

  /** The selection after messages of some source have been added. */
  ghost function Plus(selected: seq<Message>, source: Source, s: Source, more: seq<Message>): seq<Message> {
    if source == s then selected + more else selected
  }

  lemma PlusMore(selected: seq<Message>, source: Source, s: Source, a: seq<Message>, m: Message)
    ensures Plus(Plus(selected, source, s, a), source, s, [m]) == Plus(selected, source, s, a + [m])
    ensures Plus(selected, source, s, []) == selected
  {
    assert selected + a + [m] == selected + (a + [m]);
  }

  /** Before the run: nothing is selected, and no turn has produced anything. */
  lemma NothingSelected()
    ensures forall s :: Select([], [], s) == []
    ensures Chain([]) && forall given :: given + Produced([]) == given
  {
  }

  lemma SelectAppend(messages: seq<Message>, sources: seq<Source>, m: Message, s: Source)
    requires |sources| == |messages|
    ensures forall t :: Select(messages + [m], sources + [s], t) ==
                        Plus(Select(messages, sources, t), s, t, [m])
  {
    assert (messages + [m])[..|messages|] == messages && (sources + [s])[..|sources|] == sources;
  }

  datatype Entry = Settled(outcome: Finalized) | Executing | Executed {
    function CallState(): CallState { if Settled? then Finished(outcome) else Running }
  }

  /** A settled entry has the outcome of its call, any other will have it once it settles. */
  ghost predicate Promises(b: Batch, k: nat, e: Entry)
    requires k < |b.calls|
  {
    OutcomeAt(b, k) == if e.Settled? then e.outcome else FinalizeToolCall(b.calls[k], b.env(k))
  }

  ghost predicate AllPromise(b: Batch, entries: seq<Entry>) {
    |entries| <= |b.calls| && forall k :: 0 <= k < |entries| ==> Promises(b, k, entries[k])
  }

  lemma PreparedPromises(b: Batch, i: nat)
    requires i < |b.calls| && !b.truncated && !Skipped(b, i)
    ensures var aborted := i == 0 && b.aborted;
            var (preparation, abortedNow) := PrepareToolCall(b.calls[i], b.env(i), aborted);
            && (preparation.Immediate? ==>
                  Promises(b, i, Settled(Finalized(b.calls[i], preparation.result, preparation.isError))))
            && (preparation.Prepared? ==> Promises(b, i, Executing))
            && (preparation.Prepared? <==> Executes(b, i))
            && AbortedAfter(b, i) == (abortedNow || b.env(i).abortsAfter)
  {
    SkippedIff(b, i);
    FiredFirst(b);
    hide FiredBeforeCall;
  }

  lemma NothingMore(b: Batch, i: nat)
    requires i < |b.calls| && AbortedAfter(b, i)
    ensures forall k :: i < k < |b.calls| ==> !Executes(b, k)
  {
    forall k | i < k < |b.calls| ensures !Executes(b, k) {
      AbortPersists(b, i, k - 1);
      SkippedIff(b, k);
    }
  }

  lemma NothingYet(b: Batch)
    ensures FirstOutcomes(b, []) && CallTraces(b, 0) == []
  {
  }

  lemma TruncatedCall(b: Batch, i: nat)
    requires i < |b.calls| && b.truncated
    ensures OutcomeAt(b, i) == TruncatedOutcome(b.calls[i]) && UpdatesAt(b, i) == []
  {
    hide TruncatedOutcome, Skipped, CallOutcome;
  }

  lemma SkippedCall(b: Batch, i: nat)
    requires 0 < i < |b.calls| && AbortedAfter(b, i - 1) && !b.truncated
    ensures OutcomeAt(b, i) == CreateAbortedToolCallOutcome(b.calls[i]) && UpdatesAt(b, i) == [] && AbortedAfter(b, i)
  {
    hide CallOutcome, PrepareToolCall;
  }

  /** A call that is dealt with on its own. */
  lemma DealtWithAlone(b: Batch, i: nat)
    requires i < |b.calls| && !b.truncated && !Skipped(b, i)
    ensures var (preparation, abortedNow) := PrepareToolCall(b.calls[i], b.env(i), i == 0 && b.aborted);
            && OutcomeAt(b, i) == (if preparation.Immediate? then Finalized(b.calls[i], preparation.result, preparation.isError)
                                   else FinalizeToolCall(b.calls[i], b.env(i)))
            && AbortedAfter(b, i) == (abortedNow || b.env(i).abortsAfter)
            && UpdatesAt(b, i) == if preparation.Prepared? then b.env(i).updates else []
  {
    hide PrepareToolCall, FinalizeToolCall;
  }

  lemma OutcomesComplete(b: Batch, outcomes: seq<Finalized>)
    ensures AllOutcomes(b, outcomes) <==> FirstOutcomes(b, outcomes) && |outcomes| == |b.calls|
  {
  }

  lemma TruncatedFires(b: Batch)
    requires b.truncated
    ensures CallsFired(b) == b.aborted
  {
  }

  /** Where the loop of a sequential batch stands. */
  lemma FiredSoFar(b: Batch, k: nat)
    requires k <= |b.calls| && !b.truncated
    ensures k < |b.calls| ==> Skipped(b, k) == (k > 0 && AbortedAfter(b, k - 1))
    ensures k == |b.calls| ==> CallsFired(b) == if k == 0 then b.aborted else AbortedAfter(b, k - 1)
  {
  }

  lemma FirstAreSome(b: Batch, outcomes: seq<Finalized>)
    requires FirstOutcomes(b, outcomes)
    ensures |outcomes| <= |b.calls|
  {
  }

  lemma OutcomesGrow(b: Batch, outcomes: seq<Finalized>, f: Finalized)
    requires FirstOutcomes(b, outcomes) && |outcomes| < |b.calls| && f == OutcomeAt(b, |outcomes|)
    ensures FirstOutcomes(b, outcomes + [f])
  {
    hide OutcomeAt;
  }

  lemma PromisesGrow(b: Batch, entries: seq<Entry>, e: Entry)
    requires AllPromise(b, entries) && |entries| < |b.calls| && Promises(b, |entries|, e)
    ensures AllPromise(b, entries + [e])
  {
    hide Promises;
  }

  ghost predicate AllSettled(entries: seq<Entry>, outcomes: seq<Finalized>) {
    |outcomes| == |entries| && forall k :: 0 <= k < |entries| ==> entries[k] == Settled(outcomes[k])
  }

  lemma AreSettled(entries: seq<Entry>, outcomes: seq<Finalized>)
    requires |outcomes| == |entries|
    requires forall k :: 0 <= k < |entries| ==> entries[k].Settled? && entries[k].outcome == outcomes[k]
    ensures AllSettled(entries, outcomes)
  {
  }

  lemma OneMoreSettled(entries: seq<Entry>, outcomes: seq<Finalized>, f: Finalized)
    requires AllSettled(entries, outcomes)
    ensures AllSettled(entries + [Settled(f)], outcomes + [f])
  {
  }

  lemma SettledOutcomes(b: Batch, entries: seq<Entry>, outcomes: seq<Finalized>)
    requires AllPromise(b, entries) && AllSettled(entries, outcomes)
    ensures FirstOutcomes(b, outcomes)
  {
    assert forall k :: 0 <= k < |entries| ==> Promises(b, k, entries[k]);
  }

  /** The assistant message whose calls are being dealt with, and the messages that ended up to it. */
  datatype Place = Place(message: AssistantMessage, ended: seq<Message>) {
    ghost function Calls(): seq<ToolCall> { CallsOf(message) }
  }

  /** One turn of a run: the context it found, the queued messages it injected, the answer of the
      provider, its tool batch and the results, whether tool calls ask for another turn, and the
      context it left behind, which a hook may have replaced. Also whether the signal fired before its
      tools, where the injected messages came from, and what was queued as the turn began. */
  datatype TurnRecord = TurnRecord(context: seq<Message>, pending: seq<Message>, final: AssistantMessage,
                                   results: seq<Message>, batch: Batch, continues: bool, after: seq<Message>, hooked: bool,
                                   early: bool, source: Source, queued: Queued)
  {
    ghost function Request(): seq<Message> { context + pending }
    ghost function Grown(): seq<Message> { context + pending + ([final] + results) }
    ghost function Added(): seq<Message> { pending + ([final] + results) }

    /** The results are those of the batch, unless the provider failed or was aborted; then no call is
        executed or answered. */
    ghost predicate Answered() {
      && batch.calls == CallsOf(final) && batch.truncated == (final.stopReason == Length)
      && (if Halts(final) then results == [] && !continues
          else AnsweredBy(batch, results) && continues == (batch.calls != [] && !Terminates(batch)))
      && (!hooked ==> after == Grown())
    }

    /** The turn is what the script says: its answer, its tools, and the context a hook put in place. */
    ghost predicate Plays(t: TurnEnv) {
      && final == t.final && batch.env == t.calls && batch.abortsLate == FiresLate(t) && early == t.abortsEarly
      && hooked == (!Halts(t.final) && t.nextContext.Some?) && (hooked ==> after == t.nextContext.value)
    }

    ghost predicate Follows(r: TurnRecord) {
      context == r.after && !Halts(r.final) && (r.continues || pending != []) && batch.aborted == (FiredBy(r.batch) || early)
    }

    ghost predicate Begins() { batch.aborted == early }
  }

  ghost predicate Played(turns: seq<TurnRecord>, env: seq<TurnEnv>) {
    |turns| <= |env| && forall i :: 0 <= i < |turns| ==> turns[i].Plays(env[i])
  }

  /** The turns of a run: each starts where the one before left off, only the last one may have been
      cut short, and there is a reason for each but the first: tools, or queued messages. */
  ghost predicate Chain(turns: seq<TurnRecord>) {
    var n := |turns| - 1;
    turns == [] || (Chain(turns[..n]) && turns[n].Answered()
                    && if n > 0 then turns[n].Follows(turns[n - 1]) else turns[n].Begins())
  }

  lemma {:induction false} ChainAt(turns: seq<TurnRecord>, i: nat)
    requires Chain(turns) && i < |turns|
    ensures turns[i].Answered() && if i > 0 then turns[i].Follows(turns[i - 1]) else turns[i].Begins()
  {
    if i < |turns| - 1 { ChainAt(turns[..|turns| - 1], i); }
  }

  /** The messages the turns have added, in order. */
  ghost function Produced(turns: seq<TurnRecord>): seq<Message> {
    if turns == [] then []
    else Produced(turns[..|turns| - 1]) + turns[|turns| - 1].Added()
  }

  /** The turns account for every request made, for every new message after the given ones, and for
      the context as it stands. */
  ghost predicate Recorded(turns: seq<TurnRecord>, requests: seq<seq<Message>>, context: seq<Message>,
                           given: seq<Message>, newMessages: seq<Message>)
  {
    && Chain(turns) && |requests| == |turns|
    && newMessages == given + Produced(turns)
    && (forall i :: 0 <= i < |turns| ==> requests[i] == turns[i].Request())
    && (turns != [] ==> context == turns[|turns| - 1].after)
  }

  /** The turn may come after these. */
  ghost predicate GoesOn(turns: seq<TurnRecord>, r: TurnRecord) {
    if turns == [] then r.Begins()
    else
      var last := turns[|turns| - 1];
      !Halts(last.final) && (last.continues || r.pending != []) && r.batch.aborted == (FiredBy(last.batch) || r.early)
  }

  ghost predicate Unhooked(turns: seq<TurnRecord>) {
    forall i :: 0 <= i < |turns| ==> !turns[i].hooked
  }

  lemma ChainGrows(turns: seq<TurnRecord>, r: TurnRecord)
    requires Chain(turns) && r.Answered() && if turns == [] then r.Begins() else r.Follows(turns[|turns| - 1])
    ensures Chain(turns + [r]) && Produced(turns + [r]) == Produced(turns) + r.Added()
  {
    hide TurnRecord.Answered, TurnRecord.Follows;
    assert (turns + [r])[..|turns|] == turns;
  }

  predicate Stays(t: TurnEnv) { !Halts(t.final) && !t.stopAfterTurn }

  /** What the queues and the script call for after these turns. */
  ghost function Due(turns: seq<TurnRecord>, env: seq<TurnEnv>, modes: (QueueMode, QueueMode), opening: Decision): Decision
    requires |turns| <= |env|
  {
    if turns == [] then opening
    else
      var n := |turns| - 1;
      Decide(turns[n].queued, modes, env[n], turns[n].continues)
  }

  /** Every turn injects what the polls before it have found, and finds in the queues what they left. */
  ghost predicate Directed(turns: seq<TurnRecord>, env: seq<TurnEnv>, modes: (QueueMode, QueueMode), opening: Decision) {
    var n := |turns| - 1;
    turns == [] || (n < |env| && Directed(turns[..n], env, modes, opening)
                    && Due(turns[..n], env, modes, opening) == Next(turns[n].pending, turns[n].source, turns[n].queued)
                    && (n > 0 ==> Stays(env[n - 1])))
  }

  lemma NothingDirected(env: seq<TurnEnv>, modes: (QueueMode, QueueMode), opening: Decision)
    ensures Directed([], env, modes, opening) && Played([], env)
  {
  }

  lemma {:induction false} DirectedAt(turns: seq<TurnRecord>, env: seq<TurnEnv>, modes: (QueueMode, QueueMode),
                                      opening: Decision, i: nat)
    requires Directed(turns, env, modes, opening) && i < |turns|
    ensures |turns| <= |env| && Due(turns[..i], env, modes, opening) == Next(turns[i].pending, turns[i].source, turns[i].queued)
    ensures i > 0 ==> Stays(env[i - 1])
  {
    hide Due;
    var n := |turns| - 1;
    if i < n {
      DirectedAt(turns[..n], env, modes, opening, i);
      assert turns[..n][..i] == turns[..i];
    }
  }

  /** What each turn of a run injects: the first one what the run starts with, any later one what its
      predecessor has left, chosen in that order. */
  lemma TurnInjects(turns: seq<TurnRecord>, env: seq<TurnEnv>, modes: (QueueMode, QueueMode), opening: Decision, i: nat)
    requires Directed(turns, env, modes, opening) && i < |turns|
    ensures i == 0 ==> opening == Next(turns[0].pending, turns[0].source, turns[0].queued)
    ensures i > 0 ==> |turns| <= |env| && Chosen(turns[i - 1].queued, modes, env[i - 1], turns[i - 1].continues,
                                                 turns[i].pending, turns[i].source, turns[i].queued)
    ensures i > 0 ==> !env[i - 1].stopAfterTurn && env[i - 1].final.stopReason != Error
                      && env[i - 1].final.stopReason != Aborted
  {
    hide Directed, Decide, Chosen;
    DirectedAt(turns, env, modes, opening, i);
    if i > 0 {
      DecideSays(turns[i - 1].queued, modes, env[i - 1], turns[i - 1].continues, turns[i].pending, turns[i].source, turns[i].queued);
    } else {
      assert turns[..0] == [];
    }
  }

  /** With queues that hand out one message at a time every turn of a run injects at most one steering message,
      or one follow-up; and what it injects first is skipped if the run starts with queued messages. */
  lemma OneMessageATurn(turns: seq<TurnRecord>, env: seq<TurnEnv>, modes: (QueueMode, QueueMode), queued: Queued, skip: bool,
                        i: nat)
    requires Directed(turns, env, modes, Open(queued, skip, modes.0)) && i < |turns|
    ensures turns[i].source == Steering && modes.0 == OneAtATime ==> |turns[i].pending| <= 1
    ensures turns[i].source == FollowUp && modes.1 == OneAtATime ==> |turns[i].pending| == 1
    ensures turns[i].source == Steering && modes.0 == All && (i > 0 || !skip) ==> turns[i].queued.steering == []
    ensures turns[i].source == FollowUp && modes.1 == All ==> turns[i].queued.followUps == []
    ensures i == 0 ==> turns[0].source == Steering && turns[0].queued.followUps == queued.followUps
    ensures i == 0 && skip ==> turns[0].pending == [] && turns[0].queued.steering == queued.steering
    ensures i == 0 && !skip ==> HandsOut(queued.steering, turns[0].pending, turns[0].queued.steering, modes.0)
  {
    hide Directed;
    TurnInjects(turns, env, modes, Open(queued, skip, modes.0), i);
    NextIsHandedOut(queued.steering, modes.0);
  }

  lemma OneMoreDirected(earlier: seq<TurnRecord>, turns: seq<TurnRecord>, env: seq<TurnEnv>,
                        modes: (QueueMode, QueueMode), opening: Decision)
    requires Directed(earlier, env, modes, opening) && |earlier| < |env|
    requires |turns| == |earlier| + 1 && turns[..|earlier|] == earlier
    requires var r := turns[|earlier|]; Due(earlier, env, modes, opening) == Next(r.pending, r.source, r.queued)
    requires earlier != [] ==> Stays(env[|earlier| - 1])
    ensures Directed(turns, env, modes, opening)
  {
    hide Due, Stays;
  }

  lemma RecordAnswers(r: TurnRecord)
    requires r.batch.calls == CallsOf(r.final) && r.batch.truncated == (r.final.stopReason == Length) && !r.hooked
    requires if Halts(r.final) then r.results == [] && !r.continues
             else AnsweredBy(r.batch, r.results) && r.continues == (r.batch.calls != [] && !Terminates(r.batch))
    requires r.after == r.context + r.pending + ([r.final] + r.results)
    ensures r.Answered() && r.after == r.Grown() && r.Request() == r.context + r.pending
  {
    hide CallsOf, AnsweredBy, Terminates;
  }

  lemma OneMorePlayed(earlier: seq<TurnRecord>, turns: seq<TurnRecord>, env: seq<TurnEnv>)
    requires Played(earlier, env) && |earlier| < |env| && |turns| == |earlier| + 1 && turns[..|earlier|] == earlier
    requires turns[|earlier|].Plays(env[|earlier|])
    ensures Played(turns, env)
  {
    assert forall i :: 0 <= i < |earlier| ==> turns[i] == earlier[i];
  }

  lemma RecordTurn(turns: seq<TurnRecord>, requests: seq<seq<Message>>, given: seq<Message>, messages: seq<Message>,
                   r: TurnRecord)
    requires Recorded(turns, requests, r.context, given, messages) && r.Answered() && !r.hooked && GoesOn(turns, r)
    ensures Recorded(turns + [r], requests + [r.Request()], r.after, given, messages + r.pending + ([r.final] + r.results))
    ensures Unhooked(turns + [r]) <==> Unhooked(turns)
  {
    hide TurnRecord.Answered, Chain, Produced, Halts, FiredBy;
    ChainGrows(turns, r);
    var turns' := turns + [r];
    assert forall i :: 0 <= i < |turns| ==> turns'[i] == turns[i];
    assert turns'[|turns|] == r;
    Associate(messages, r.pending, [r.final] + r.results);
    Associate(given, Produced(turns), r.Added());
  }

  /** The turn as a hook leaves it that replaces the context. */
  ghost function Replaced(r: TurnRecord, replacement: seq<Message>): TurnRecord {
    r.(after := replacement, hooked := true)
  }

  lemma ReplacedAnswers(r: TurnRecord, replacement: seq<Message>)
    requires r.Answered()
    ensures Replaced(r, replacement).Answered()
  {
    hide AnsweredBy, Terminates, CallsOf, Halts;
  }

  lemma {:induction false} HookChain(turns: seq<TurnRecord>, replacement: seq<Message>)
    requires Chain(turns) && turns != []
    ensures var n := |turns| - 1;
            var turns' := turns[n := Replaced(turns[n], replacement)];
            Chain(turns') && Produced(turns') == Produced(turns)
  {
    hide TurnRecord.Answered, Halts, FiredBy;
    var n := |turns| - 1;
    var turns' := turns[n := Replaced(turns[n], replacement)];
    assert turns'[..n] == turns[..n];
    ReplacedAnswers(turns[n], replacement);
  }

  lemma HookTurn(turns: seq<TurnRecord>, requests: seq<seq<Message>>, context: seq<Message>, given: seq<Message>,
                 messages: seq<Message>, replacement: seq<Message>)
    requires Recorded(turns, requests, context, given, messages) && turns != [] && !Halts(turns[|turns| - 1].final)
    ensures var turns' := turns[|turns| - 1 := Replaced(turns[|turns| - 1], replacement)];
            && Recorded(turns', requests, replacement, given, messages) && !Unhooked(turns')
            && !Halts(turns'[|turns| - 1].final) && turns'[|turns| - 1].continues == turns[|turns| - 1].continues
  {
    hide Chain, Produced, Halts;
    var n := |turns| - 1;
    var turns' := turns[n := Replaced(turns[n], replacement)];
    HookChain(turns, replacement);
    assert turns'[n].hooked;
    forall i | 0 <= i < |turns'| ensures requests[i] == turns'[i].Request() {
      assert requests[i] == turns[i].Request();
    }
  }

  /** The context is the latest base followed by the new messages since then; only a hook makes that base
      another than the initial context, and the first turn found this with the given messages. */
  ghost predicate Accounts(turns: seq<TurnRecord>, requests: seq<seq<Message>>, context: seq<Message>, given: seq<Message>,
                           messages: seq<Message>, base: seq<Message>, since: nat, initial: seq<Message>)
  {
    && since <= |messages| && context == base + messages[since..]
    && (Unhooked(turns) ==> base == initial && since == 0)
    && Recorded(turns, requests, context, given, messages)
    && (if turns == [] then context else turns[0].context) == initial + given
  }

  lemma GivenAccounts(initial: seq<Message>, given: seq<Message>)
    ensures Accounts([], [], initial + given, given, given, initial, 0, initial)
  {
    NothingSelected();
    assert given[0..] == given;
  }

  lemma TurnAccounts(turns: seq<TurnRecord>, requests: seq<seq<Message>>, given: seq<Message>, messages: seq<Message>,
                     base: seq<Message>, since: nat, initial: seq<Message>, r: TurnRecord)
    requires Accounts(turns, requests, r.context, given, messages, base, since, initial)
    requires r.Answered() && !r.hooked && r.after == r.Grown() && GoesOn(turns, r)
    ensures Accounts(turns + [r], requests + [r.Request()], r.after, given,
                     messages + r.pending + ([r.final] + r.results), base, since, initial)
  {
    hide Recorded, Unhooked, TurnRecord.Answered, GoesOn;
    Extend(base, messages, since, r.pending, [r.final] + r.results);
    RecordTurn(turns, requests, given, messages, r);
    assert turns != [] ==> (turns + [r])[0] == turns[0];
  }

  /** The last turn as a hook leaves it. */
  ghost function Hooked(turns: seq<TurnRecord>, replacement: Option<seq<Message>>): seq<TurnRecord>
    requires turns != []
  {
    if replacement.None? then turns
    else turns[|turns| - 1 := Replaced(turns[|turns| - 1], replacement.value)]
  }

  lemma HookAccounts(turns: seq<TurnRecord>, requests: seq<seq<Message>>, context: seq<Message>, given: seq<Message>,
                     messages: seq<Message>, base: seq<Message>, since: nat, initial: seq<Message>, replacement: seq<Message>)
    requires Accounts(turns, requests, context, given, messages, base, since, initial)
    requires turns != [] && !Halts(turns[|turns| - 1].final)
    ensures var turns' := Hooked(turns, Some(replacement));
            && Accounts(turns', requests, replacement, given, messages, replacement, |messages|, initial)
            && turns'[|turns| - 1].final == turns[|turns| - 1].final && turns'[|turns| - 1].batch == turns[|turns| - 1].batch
  {
    HookTurn(turns, requests, context, given, messages, replacement);
    hide Recorded, Unhooked, Halts;
    assert |turns| > 1 ==> Hooked(turns, Some(replacement))[0] == turns[0];
  }

  /** What a caller must see to: injected messages stand alone, and hooks hand back well-paired contexts. */
  ghost predicate KeepsPairing(turns: seq<TurnRecord>) {
    forall i :: 0 <= i < |turns| ==> AllStandalone(turns[i].pending) && (turns[i].hooked ==> WellPaired(turns[i].after))
  }

  lemma RecordPairs(r: TurnRecord)
    requires WellPaired(r.context) && AllStandalone(r.pending) && r.Answered()
    requires r.hooked ==> WellPaired(r.after)
    ensures WellPaired(r.Request())
    ensures WellPaired(r.Grown()) <==> |r.results| == |CallsOf(r.final)|
    ensures !Halts(r.final) ==> |r.results| == |CallsOf(r.final)| && WellPaired(r.after)
  {
    StandalonePaired(r.pending);
    WellPairedConcat(r.context, r.pending);
    WellPairedConcat(r.context + r.pending, [r.final] + r.results);
    if !Halts(r.final) {
      ResultsAnswerCalls(r.batch, r.results, r.results);
    }
    if |r.results| == |CallsOf(r.final)| {
      BlockWellPaired(r.final, r.results);
    } else {
      assert ([r.final] + r.results)[0] == r.final;
    }
  }

  lemma {:induction false} ContextPaired(turns: seq<TurnRecord>, i: nat)
    requires Chain(turns) && KeepsPairing(turns) && i < |turns| && WellPaired(turns[0].context)
    ensures WellPaired(turns[i].context)
  {
    hide WellPaired, TurnRecord.Answered, Chain, AllStandalone, TurnRecord.Grown, TurnRecord.Request;
    if i > 0 {
      ContextPaired(turns, i - 1);
      ChainAt(turns, i - 1);
      ChainAt(turns, i);
      RecordPairs(turns[i - 1]);
    }
  }

  /** Pairing over a whole run: if the initial context is well-paired, so is every request, and the
      context at the end is well-paired unless the last turn was cut short with calls open. */
  lemma RunPairs(turns: seq<TurnRecord>, i: nat)
    requires Chain(turns) && KeepsPairing(turns) && i < |turns| && WellPaired(turns[0].context)
    ensures WellPaired(turns[i].Request())
    ensures !turns[i].hooked ==>
              (WellPaired(turns[i].after) <==> !(Halts(turns[i].final) && CallsOf(turns[i].final) != []))
  {
    ContextPaired(turns, i);
    ChainAt(turns, i);
    RecordPairs(turns[i]);
  }

  lemma {:induction false} StaysFired(turns: seq<TurnRecord>, i: nat, j: nat)
    requires Chain(turns) && i < j < |turns| && FiredBy(turns[i].batch)
    ensures turns[j].batch.aborted
  {
    hide Chain, FiredBy, TurnRecord.Answered;
    ChainAt(turns, j);
    if i < j - 1 {
      StaysFired(turns, i, j - 1);
      AbortedBatchFires(turns[j - 1].batch);
    }
  }

  /** What a turn's batch has seen of the signal by its end is what the script says about the turn. */
  lemma TurnFires(r: TurnRecord, t: TurnEnv)
    requires r.Answered() && r.Plays(t) && (r.early ==> r.batch.aborted)
    ensures FiredBy(r.batch) <==> r.batch.aborted || FiresIn(t)
  {
    FiredByIff(r.batch);
  }

  lemma SaysEarly(r: TurnRecord, t: TurnEnv)
    requires r.Plays(t)
    ensures r.early == t.abortsEarly && (t.abortsEarly ==> FiresIn(t))
  {
  }

  /** A turn finds the signal fired if and only if it fired at some moment of an earlier turn, whichever
      moment that was, or fires in this turn before its tools are looked at. */
  lemma {:induction false} AbortedIff(turns: seq<TurnRecord>, env: seq<TurnEnv>, j: nat)
    requires Chain(turns) && Played(turns, env) && j < |turns|
    ensures turns[j].batch.aborted <==> FiredBefore(env, j) || env[j].abortsEarly
  {
    hide Chain, FiredBy, FiresIn, TurnRecord.Answered, TurnRecord.Plays;
    ChainAt(turns, j);
    assert turns[j].Plays(env[j]);
    SaysEarly(turns[j], env[j]);
    if j > 0 {
      AbortedIff(turns, env, j - 1);
      ChainAt(turns, j - 1);
      assert turns[j - 1].Plays(env[j - 1]);
      SaysEarly(turns[j - 1], env[j - 1]);
      TurnFires(turns[j - 1], env[j - 1]);
    }
  }

  lemma {:induction false} FiredSince(env: seq<TurnEnv>, i: nat, j: nat)
    requires i < j <= |env| && FiresIn(env[i])
    ensures FiredBefore(env, j)
  {
    if i < j - 1 { FiredSince(env, i, j - 1); }
  }

  /** Once the abort signal has fired, at whatever moment of a turn, no later turn executes a tool, and
      neither does that turn itself if the signal fires before its tools are looked at. */
  lemma NothingRunsAfterAbort(turns: seq<TurnRecord>, env: seq<TurnEnv>, i: nat, j: nat, k: nat)
    requires Chain(turns) && Played(turns, env) && i <= j < |turns| && k < |turns[j].batch.calls|
    requires if i < j then FiresIn(env[i]) else env[j].abortsEarly
    ensures var b := turns[j].batch;
            b.aborted && (Skipped(b, k) || (k == 0 && PrepareToolCall(b.calls[0], b.env(0), true).0.Immediate?))
  {
    hide Chain, FiresIn;
    if i < j { FiredSince(env, i, j); }
    AbortedIff(turns, env, j);
    FiredBatchExecutesNothing(turns[j].batch, k);
  }

  // ---- What a run does, in terms of its script -------------------------------------------------------

  /** The signal has fired before call k of turn j is looked at. */
  ghost predicate FiredByThen(env: seq<TurnEnv>, j: nat, k: nat)
    requires j < |env|
  {
    FiredBefore(env, j) || env[j].abortsEarly || exists i :: 0 <= i < k && Fires(env[j].calls(i))
  }

  /** In every run a tool is executed if and only if the answer was not cut off by the token limit, the signal
      has not fired by then, and neither the tool, its arguments nor the hook before it stand against it. */
  lemma ExecutesIff(turns: seq<TurnRecord>, env: seq<TurnEnv>, j: nat, k: nat)
    requires Chain(turns) && Played(turns, env) && j < |turns|
    ensures Executes(turns[j].batch, k) <==>
              env[j].final.stopReason != Length && !FiredByThen(env, j, k) && Permits(env[j].calls(k))
  {
    hide Chain, FiredBefore, Fires, Permits;
    ChainAt(turns, j);
    AbortedIff(turns, env, j);
    assert turns[j].Plays(env[j]);
  }

  /** And the model is told so: the output of a tool that was executed, unless a hook has changed it, what it
      threw, or the reason why the hook before it has blocked it. */
  lemma ModelIsTold(turns: seq<TurnRecord>, env: seq<TurnEnv>, j: nat, k: nat)
    requires Chain(turns) && Played(turns, env) && j < |turns|
    requires !Halts(env[j].final) && k < |CallsOf(env[j].final)| && env[j].final.stopReason != Length
    requires !FiredByThen(env, j, k)
    ensures |turns[j].results| == |CallsOf(env[j].final)|
    ensures var r, call := turns[j].results[k], env[j].calls(k);
            && r.ToolResult? && Answers(r, CallsOf(env[j].final)[k])
            && (!Permits(call) ==> r.isError)
            && (Denies(call) ==> r.text == if HasText(call.before.reason) then call.before.reason.value
                                           else "Tool execution was blocked")
            && (Permits(call) && call.after.NoAfter? && call.execution.Returned? ==>
                  !r.isError && r.text == if call.execution.output.content.Some? then call.execution.output.content.value else "")
            && (Permits(call) && call.after.NoAfter? && call.execution.Threw? ==> r.isError && r.text == call.execution.message)
  {
    hide Chain, FiredByThen, Permits, Denies, CallsOf;
    ChainAt(turns, j);
    ExecutesIff(turns, env, j, k);
    NotFiredByThen(turns, env, j, k);
    assert turns[j].Plays(env[j]);
    assert AnsweredBy(turns[j].batch, turns[j].results);
    hide Executes, AnsweredBy, FiredBeforeCall;
    HasResults(turns[j].batch, turns[j].results);
    ResultComesTo(turns[j].batch, turns[j].results, k);
  }

  lemma HasResults(b: Batch, results: seq<Message>)
    requires AnsweredBy(b, results)
    ensures |results| == |b.calls|
  {
  }

  lemma NotFiredByThen(turns: seq<TurnRecord>, env: seq<TurnEnv>, j: nat, k: nat)
    requires Chain(turns) && Played(turns, env) && j < |turns|
    ensures FiredBeforeCall(turns[j].batch, k) <==> FiredByThen(env, j, k)
  {
    hide Chain, FiredBefore, Fires;
    AbortedIff(turns, env, j);
    assert turns[j].Plays(env[j]);
  }

  /** Tools ask for another request unless there are none or all of them ask to stop. */
  lemma ContinuesIff(turns: seq<TurnRecord>, i: nat)
    requires Chain(turns) && i < |turns|
    ensures var b := turns[i].batch;
            turns[i].continues <==> !Halts(turns[i].final) && exists k :: 0 <= k < |b.calls| && !AsksToStop(b, k)
  {
    hide Chain, CallsOf, AnsweredBy, AsksToStop, Terminates;
    ChainAt(turns, i);
    TerminatesIff(turns[i].batch);
  }

  lemma Extend(base: seq<Message>, messages: seq<Message>, since: nat, a: seq<Message>, b: seq<Message>)
    requires since <= |messages|
    ensures base + messages[since..] + a + b == base + (messages + a + b)[since..]
  {
    assert (messages + a + b)[since..] == messages[since..] + a + b;
  }

  lemma Associate(a: seq<Message>, b: seq<Message>, c: seq<Message>)
    ensures a + b + c == a + (b + c)
  {
  }

  class AgentLoop {
    const state: AgentState
    const steeringQueue: PendingMessageQueue
    const followUpQueue: PendingMessageQueue
    var context: seq<Message>
    var newMessages: seq<Message>
    var aborted: bool
    var skipInitialSteeringPoll: bool

    ghost const start: AgentView
    ghost const steeringBase: seq<Message>
    ghost const followUpBase: seq<Message>
    ghost const initial: seq<Message>
    ghost var trace: seq<Event>
    ghost var monitors: seq<Monitor>
    ghost var views: seq<AgentView>
    ghost var monitor: Monitor
    ghost var sources: seq<Source>
    ghost var requests: seq<seq<Message>>
    ghost var turns: seq<TurnRecord>
    ghost var given: seq<Message>
    ghost var base: seq<Message>
    ghost var since: nat

    /** The grammar has accepted the trace so far, and the agent's state is what the trace reduces to. */
    ghost predicate Valid()
      reads this`trace, this`monitors, this`views, this`monitor, this`sources, this`newMessages, state
    {
      && Reads(trace, monitors, views)
      && monitor == monitors[|trace|] && !monitor.Bad?
      && views[0] == start && state.View() == views[|trace|]
      && |sources| == |newMessages|
    }

    constructor (state: AgentState, steeringQueue: PendingMessageQueue, followUpQueue: PendingMessageQueue,
                 context: seq<Message>, skipInitialSteeringPoll: bool,
                 ghost steeringBase: seq<Message>, ghost followUpBase: seq<Message>)
      ensures Valid() && trace == [] && newMessages == [] && requests == [] && turns == [] && start == state.View()
      ensures base == initial == context && since == 0 && this.steeringBase == steeringBase && this.followUpBase == followUpBase
      ensures monitor == Fresh && !aborted
      ensures this.state == state && this.steeringQueue == steeringQueue && this.followUpQueue == followUpQueue
      ensures this.context == context && this.skipInitialSteeringPoll == skipInitialSteeringPoll
    {
      this.state, this.steeringQueue, this.followUpQueue := state, steeringQueue, followUpQueue;
      this.context, this.skipInitialSteeringPoll := context, skipInitialSteeringPoll;
      newMessages, aborted := [], false;
      start := state.View();
      trace, monitors, views, monitor := [], [Fresh], [state.View()], Fresh;
      sources, requests, turns, given := [], [], [], [];
      base, since, initial := context, 0, context;
      this.steeringBase, this.followUpBase := steeringBase, followUpBase;
    }

    lemma SourcesKnown()
      requires Valid()
      ensures |sources| == |newMessages|
    {
    }

    method Emit(event: Event)
      requires Valid() && !Step(monitor, event).Bad?
      modifies this`trace, this`monitors, this`views, this`monitor, state
      ensures Valid() && monitor == Step(old(monitor), event) && trace == old(trace) + [event]
    {
      hide Reads;
      ReadsGrows(trace, monitors, views, event);
      state.ProcessEvent(event);
      monitor := Step(monitor, event);
      trace, monitors, views := trace + [event], monitors + [monitor], views + [state.View()];
    }

    // ---- Tool batches ------------------------------------------------------------------------------

    /** The calls of the message are being dealt with, and these results have been reported. */
    ghost predicate InBatch(at: Place, reported: seq<Message>)
      reads this`monitor
    {
      && monitor.Turn? && monitor.open == None && monitor.last == Some(at.message)
      && |monitor.calls| == |at.Calls()|
      && monitor.results == reported && monitor.ended == at.ended + reported
    }

    /** The first calls have the given outcomes. */
    ghost predicate Have(outcomes: seq<Finalized>)
      reads this`monitor
      requires monitor.Turn?
    {
      && |outcomes| <= |monitor.calls|
      && forall k :: 0 <= k < |outcomes| ==> monitor.calls[k] == Finished(outcomes[k])
    }

    ghost predicate WaitingFrom(n: nat)
      reads this`monitor
      requires monitor.Turn?
    {
      forall k :: n <= k < |monitor.calls| ==> monitor.calls[k] == Waiting
    }

    ghost predicate Done(at: Place, done: seq<Finalized>, messages: seq<Message>)
      reads this`monitor
    {
      InBatch(at, messages) && Have(done) && |messages| == |done| && WaitingFrom(|done|)
    }

    /** As Done, but the next call has been started. */
    ghost predicate Started(at: Place, done: seq<Finalized>, messages: seq<Message>)
      reads this`monitor
    {
      && InBatch(at, messages) && Have(done) && |messages| == |done| < |at.Calls()|
      && monitor.calls[|done|] == Running && WaitingFrom(|done| + 1)
    }

    /** What the grammar guarantees about the results reported so far. */
    lemma DoneReports(at: Place, done: seq<Finalized>, messages: seq<Message>)
      requires Valid() && Done(at, done, messages)
      ensures Reports(messages, done)
    {
      ReadsIsRun(trace, monitors, views);
      RunSettled(trace);
    }

    method EmitToolResultMessage(message: Message, ghost at: Place, ghost reported: seq<Message>)
      requires Valid() && InBatch(at, reported)
      requires NoneRunning(monitor.calls) && IsNextResult(monitor, message)
      modifies this`trace, this`monitors, this`views, this`monitor, state
      ensures Valid() && InBatch(at, reported + [message]) && monitor.calls == old(monitor).calls
      ensures trace == old(trace) + [MessageStart(message), MessageEnd(message)]
    {
      assert !Quiet(monitor.calls) by { assert monitor.calls[|monitor.results|] != Waiting; }
      Emit(MessageStart(message));
      Emit(MessageEnd(message));
      assert at.ended + (reported + [message]) == at.ended + reported + [message];
    }

    method StartCall(i: nat, call: ToolCall, ghost at: Place, ghost done: seq<Finalized>, ghost messages: seq<Message>)
      requires Valid() && i == |done| < |at.Calls()| && call == at.Calls()[i] && Done(at, done, messages)
      modifies this`trace, this`monitors, this`views, this`monitor, state
      ensures Valid() && Started(at, done, messages) && trace == old(trace) + [ToolStart(i, call)]
    {
      Emit(ToolStart(i, call));
    }

    /** Ends the started call and reports its result. */
    method EndCall(i: nat, finalized: Finalized, ghost at: Place, ghost done: seq<Finalized>, ghost messages: seq<Message>)
      returns (message: Message)
      requires Valid() && i == |done| && Started(at, done, messages) && finalized.call == at.Calls()[i]
      modifies this`trace, this`monitors, this`views, this`monitor, state
      ensures Valid() && Done(at, done + [finalized], messages + [message])
      ensures message == CreateToolResultMessage(finalized)
      ensures trace == old(trace) + EndTrace(i, finalized)
    {
      Emit(ToolEnd(i, finalized.call, finalized.result, finalized.isError));
      message := CreateToolResultMessage(finalized);
      EmitToolResultMessage(message, at, messages);
    }

    /** Starts and ends a call that is never executed. */
    method ReportUnexecuted(i: nat, finalized: Finalized, ghost at: Place, outcomes: seq<Finalized>, messages: seq<Message>)
      returns (outcomes': seq<Finalized>, messages': seq<Message>)
      requires Valid() && i == |outcomes| < |at.Calls()| && finalized.call == at.Calls()[i] && Done(at, outcomes, messages)
      modifies this`trace, this`monitors, this`views, this`monitor, state
      ensures Valid() && outcomes' == outcomes + [finalized] && Done(at, outcomes', messages')
      ensures trace == old(trace) + CallTrace(i, finalized.call, [], finalized)
    {
      hide EndTrace, CallTrace, Reads;
      AssembleCall(trace, i, finalized.call, [], finalized);
      StartCall(i, finalized.call, at, outcomes, messages);
      var message := EndCall(i, finalized, at, outcomes, messages);
      outcomes', messages' := outcomes + [finalized], messages + [message];
    }

    method FailToolCallsFromTruncatedMessage(calls: seq<ToolCall>, ghost at: Place, ghost b: Batch)
      returns (outcomes: seq<Finalized>, messages: seq<Message>)
      requires Valid() && Done(at, [], []) && b.calls == calls == at.Calls() && b.truncated
      modifies this`trace, this`monitors, this`views, this`monitor, state
      ensures Valid() && AllOutcomes(b, outcomes) && Done(at, outcomes, messages)
      ensures trace == old(trace) + CallTraces(b, |calls|)
    {
      hide *;
      NothingYet(b);
      outcomes, messages := [], [];
      for i := 0 to |calls|
        invariant |outcomes| == i && FirstOutcomes(b, outcomes)
        invariant Valid() && Done(at, outcomes, messages) && trace == old(trace) + CallTraces(b, i)
      {
        OneMoreCall(old(trace), b, i);
        TruncatedCall(b, i);
        OutcomesGrow(b, outcomes, TruncatedOutcome(calls[i]));
        outcomes, messages := ReportUnexecuted(i, TruncatedOutcome(calls[i]), at, outcomes, messages);
      }
      OutcomesComplete(b, outcomes);
    }

    /** The updates a tool sends while it executes on its own. */
    method EmitUpdates(i: nat, call: ToolCall, updates: seq<string>, ghost at: Place, ghost done: seq<Finalized>,
                       ghost messages: seq<Message>)
      requires Valid() && i == |done| && Started(at, done, messages) && call == at.Calls()[i]
      modifies this`trace, this`monitors, this`views, this`monitor, state
      ensures Valid() && monitor == old(monitor) && trace == old(trace) + UpdateEvents(i, call, updates)
    {
      for k := 0 to |updates|
        invariant Valid() && monitor == old(monitor) && trace == old(trace) + UpdateEvents(i, call, updates[..k])
      {
        Emit(ToolUpdate(i, call, updates[k]));
        assert UpdateEvents(i, call, updates[..k + 1]) == UpdateEvents(i, call, updates[..k]) + [ToolUpdate(i, call, updates[k])];
      }
      assert updates[..|updates|] == updates;
    }

    /** One call from its start to its reported result. */
    method RunCall(i: nat, call: ToolCall, env: CallEnv, ghost at: Place, ghost b: Batch, done: seq<Finalized>,
                   messages: seq<Message>)
      returns (done': seq<Finalized>, messages': seq<Message>)
      requires Valid() && i == |done| < |at.Calls()| && Done(at, done, messages)
      requires b.calls == at.Calls() && call == b.calls[i] && b.env(i) == env && !b.truncated
      requires FirstOutcomes(b, done) && !Skipped(b, i) && aborted == (i == 0 && b.aborted)
      modifies this`trace, this`monitors, this`views, this`monitor, this`aborted, state
      ensures |done'| == i + 1 && FirstOutcomes(b, done') && aborted == AbortedAfter(b, i)
      ensures Valid() && Done(at, done', messages')
      ensures var updates := if PrepareToolCall(call, env, old(aborted)).0.Prepared? then env.updates else [];
              trace == old(trace) + CallTrace(i, call, updates, done'[i])
      ensures trace == old(trace) + CallTrace(i, call, UpdatesAt(b, i), OutcomeAt(b, i))
    {
      hide *;
      DealtWithAlone(b, i);
      StartCall(i, call, at, done, messages);
      var (preparation, abortedNow) := PrepareToolCall(call, env, aborted);
      var finalized: Finalized;
      if preparation.Immediate? {
        finalized := Finalized(call, preparation.result, preparation.isError);
      } else {
        EmitUpdates(i, call, env.updates, at, done, messages);
        finalized := FinalizeToolCall(call, env);
      }
      aborted := abortedNow || env.abortsAfter;
      AssembleCall(old(trace), i, call, env.updates, finalized);
      OutcomesGrow(b, done, finalized);
      var message := EndCall(i, finalized, at, done, messages);
      done', messages' := done + [finalized], messages + [message];
    }

    method ExecuteToolCallsSequential(calls: seq<ToolCall>, env: nat -> CallEnv, ghost at: Place, ghost b: Batch)
      returns (outcomes: seq<Finalized>, messages: seq<Message>)
      requires Valid() && Done(at, [], []) && calls == at.Calls() && b == Batch(calls, env, false, aborted, b.abortsLate)
      modifies this`trace, this`monitors, this`views, this`monitor, this`aborted, state
      ensures Valid() && AllOutcomes(b, outcomes) && Done(at, outcomes, messages) && aborted == CallsFired(b)
      ensures trace == old(trace) + CallTraces(b, |calls|)
    {
      hide *;
      NothingYet(b);
      FiredSoFar(b, 0);
      outcomes, messages := [], [];
      var index := 0;
      while index < |calls|
        invariant 0 <= index == |outcomes| <= |calls| && FirstOutcomes(b, outcomes)
        invariant index < |calls| ==> !Skipped(b, index) && aborted == (index == 0 && b.aborted)
        invariant aborted == if index == 0 then b.aborted else AbortedAfter(b, index - 1)
        invariant Valid() && Done(at, outcomes, messages) && trace == old(trace) + CallTraces(b, index)
      {
        OneMoreCall(old(trace), b, index);
        outcomes, messages := RunCall(index, calls[index], env(index), at, b, outcomes, messages);
        FiredSoFar(b, index + 1);
        if aborted {
          AbortPersists(b, index, |calls| - 1);
          FiredSoFar(b, |calls|);
          outcomes, messages := SkipRemaining(calls, at, b, outcomes, messages, old(trace));
          return;
        }
        index := index + 1;
      }
      FiredSoFar(b, |calls|);
      OutcomesComplete(b, outcomes);
    }

    /** Reports every remaining call as aborted, without preparing it. `before` is the trace the batch found. */
    method SkipRemaining(calls: seq<ToolCall>, ghost at: Place, ghost b: Batch, done: seq<Finalized>, reported: seq<Message>,
                         ghost before: seq<Event>)
      returns (outcomes: seq<Finalized>, messages: seq<Message>)
      requires Valid() && Done(at, done, reported) && b.calls == calls == at.Calls() && !b.truncated
      requires 0 < |done| && FirstOutcomes(b, done) && AbortedAfter(b, |done| - 1)
      requires before + CallTraces(b, |done|) == trace
      modifies this`trace, this`monitors, this`views, this`monitor, state
      ensures Valid() && AllOutcomes(b, outcomes) && Done(at, outcomes, messages)
      ensures trace == before + CallTraces(b, |calls|)
    {
      hide *;
      FirstAreSome(b, done);
      outcomes, messages := done, reported;
      for k := |done| to |calls|
        invariant |outcomes| == k && FirstOutcomes(b, outcomes) && AbortedAfter(b, k - 1)
        invariant Valid() && Done(at, outcomes, messages) && trace == before + CallTraces(b, k)
      {
        OneMoreCall(before, b, k);
        SkippedCall(b, k);
        OutcomesGrow(b, outcomes, CreateAbortedToolCallOutcome(calls[k]));
        outcomes, messages := ReportUnexecuted(k, CreateAbortedToolCallOutcome(calls[k]), at, outcomes, messages);
      }
      OutcomesComplete(b, outcomes);
    }

    // ---- The parallel phase --------------------------------------------------------------------------

    /** The entries describe the started calls; the others wait, and nothing is reported yet. */
    ghost predicate Tracks(at: Place, entries: seq<Entry>)
      reads this`monitor
    {
      && InBatch(at, []) && |entries| <= |at.Calls()| && WaitingFrom(|entries|)
      && forall k :: 0 <= k < |entries| ==> monitor.calls[k] == entries[k].CallState()
    }

    method StartEntry(call: ToolCall, ghost at: Place, entries: seq<Entry>) returns (entries': seq<Entry>)
      requires Valid() && Tracks(at, entries) && |entries| < |at.Calls()| && call == at.Calls()[|entries|]
      modifies this`trace, this`monitors, this`views, this`monitor, state
      ensures Valid() && Tracks(at, entries') && entries' == entries + [Executing]
      ensures trace == old(trace) + [ToolStart(|entries|, call)]
    {
      Emit(ToolStart(|entries|, call));
      entries' := entries + [Executing];
    }

    method EndEntry(i: nat, finalized: Finalized, ghost at: Place, entries: seq<Entry>) returns (entries': seq<Entry>)
      requires Valid() && Tracks(at, entries) && i < |entries| && !entries[i].Settled? && finalized.call == at.Calls()[i]
      modifies this`trace, this`monitors, this`views, this`monitor, state
      ensures Valid() && Tracks(at, entries') && entries' == entries[i := Settled(finalized)]
      ensures trace == old(trace) + [ToolEnd(i, finalized.call, finalized.result, finalized.isError)]
    {
      Emit(ToolEnd(i, finalized.call, finalized.result, finalized.isError));
      entries' := entries[i := Settled(finalized)];
    }

    /** Starts and prepares one call; an immediate outcome ends it at once. */
    method PrepareEntry(i: nat, call: ToolCall, env: CallEnv, ghost at: Place, ghost b: Batch, entries: seq<Entry>)
      returns (entries': seq<Entry>)
      requires Valid() && i == |entries| < |at.Calls()| && Tracks(at, entries)
      requires b.calls == at.Calls() && call == b.calls[i] && b.env(i) == env && !b.truncated
      requires AllPromise(b, entries) && !Skipped(b, i) && aborted == (i == 0 && b.aborted)
      modifies this`trace, this`monitors, this`views, this`monitor, this`aborted, state
      ensures |entries'| == i + 1 && AllPromise(b, entries') && aborted == AbortedAfter(b, i)
      ensures entries' == entries + [entries'[i]] && (entries'[i].Executing? <==> Executes(b, i))
      ensures Valid() && Tracks(at, entries') && Announces(old(trace), trace)
    {
      hide *;
      PreparedPromises(b, i);
      entries' := StartEntry(call, at, entries);
      AnnouncesStarts(old(trace), i, call);
      var (preparation, abortedNow) := PrepareToolCall(call, env, aborted);
      aborted := abortedNow || env.abortsAfter;
      if preparation.Immediate? {
        ghost var f := Finalized(call, preparation.result, preparation.isError);
        AnnouncesEnds(old(trace), trace, i, f);
        entries' := EndEntry(i, Finalized(call, preparation.result, preparation.isError), at, entries');
      }
      PromisesGrow(b, entries, entries'[i]);
      assert entries' == entries + [entries'[i]];
    }

    /** A task finishes: its outcome is computed and announced, whenever that happens to be. */
    method SettleEntry(i: nat, call: ToolCall, env: CallEnv, ghost at: Place, ghost b: Batch, entries: seq<Entry>)
      returns (entries': seq<Entry>)
      requires Valid() && i < |entries| && !entries[i].Settled? && Tracks(at, entries) && AllPromise(b, entries)
      requires b.calls == at.Calls() && call == b.calls[i] && b.env(i) == env
      modifies this`trace, this`monitors, this`views, this`monitor, state
      ensures Valid() && Tracks(at, entries') && AllPromise(b, entries') && Announces(old(trace), trace)
      ensures |entries'| == |entries| && entries' == entries[i := entries'[i]] && entries'[i].Settled?
    {
      var finalized := FinalizeToolCall(call, env);
      assert Promises(b, i, Settled(finalized)) by { assert Promises(b, i, entries[i]); }
      entries' := EndEntry(i, finalized, at, entries);
    }

    /** One micro-step of one task, or the moment the signal fires; a step that is not possible now changes
        nothing. Updates sent after the tool has returned are dropped. */
    method Interleave(step: MicroStep, calls: seq<ToolCall>, env: nat -> CallEnv, ghost at: Place, ghost b: Batch,
                      entries: seq<Entry>)
      returns (entries': seq<Entry>)
      requires Valid() && Tracks(at, entries) && AllPromise(b, entries)
      requires b.calls == calls == at.Calls() && b.env == env
      modifies this`trace, this`monitors, this`views, this`monitor, this`aborted, state
      ensures Valid() && Tracks(at, entries') && AllPromise(b, entries') && |entries'| == |entries|
      ensures ToolsOnly(old(trace), trace) && aborted == (old(aborted) || step.Abort?)
      ensures Takes(step, calls, old(trace), entries, trace, entries')
    {
      hide Reads;
      entries' := entries;
      match step
      case Abort => aborted := true;
      case Update(i, partialResult) =>
        if i < |entries| && entries[i].Executing? { Emit(ToolUpdate(i, calls[i], partialResult)); }
      case Return(i) =>
        if i < |entries| && entries[i].Executing? {
          assert Promises(b, i, entries[i]);
          entries' := entries[i := Executed];
        }
      case Settle(i) =>
        if i < |entries| && entries[i].Executed? { entries' := SettleEntry(i, calls[i], env(i), at, b, entries); }
    }

    /** Runs the tasks in the order of the schedule and waits for all of them. */
    method RunTasks(schedule: seq<MicroStep>, calls: seq<ToolCall>, env: nat -> CallEnv, ghost at: Place, ghost b: Batch,
                    started: seq<Entry>)
      returns (entries: seq<Entry>)
      requires Valid() && Tracks(at, started) && AllPromise(b, started)
      requires b.calls == calls == at.Calls() && b.env == env
      modifies this`trace, this`monitors, this`views, this`monitor, this`aborted, state
      ensures Valid() && Tracks(at, entries) && AllPromise(b, entries) && |entries| == |started|
      ensures ToolsOnly(old(trace), trace) && aborted == (old(aborted) || Abort in schedule)
      ensures forall k :: 0 <= k < |entries| ==> entries[k].Settled?
      ensures forall i :: UpdatesIn(trace, i) == UpdatesIn(old(trace), i) + StillSends(started, schedule, i)
    {
      hide Reads, Valid, Tracks, AllPromise, Takes, UpdatesIn;
      entries := started;
      TracksSome(at, started);
      assert schedule[0..] == schedule;
      for k := 0 to |schedule|
        invariant Valid() && Tracks(at, entries) && AllPromise(b, entries) && |entries| == |started|
        invariant ToolsOnly(old(trace), trace) && aborted == (old(aborted) || Abort in schedule[..k])
        invariant forall i :: UpdatesIn(trace, i) + StillSends(entries, schedule[k..], i) ==
                              UpdatesIn(old(trace), i) + StillSends(started, schedule, i)
      {
        ghost var before, tasks := trace, entries;
        entries := Interleave(schedule[k], calls, env, at, b, entries);
        TakesSend(schedule, k, calls, before, tasks, trace, entries);
        assert schedule[..k + 1] == schedule[..k] + [schedule[k]];
      }
      assert schedule[..|schedule|] == schedule;
      ghost var before := trace;
      assert forall i :: UpdatesIn(trace, i) == UpdatesIn(old(trace), i) + StillSends(started, schedule, i);
      entries := AwaitTasks(calls, env, at, b, entries);
      AnnouncesOnly(before, trace);
    }

    /** Waits for the tasks that are not settled yet. */
    method AwaitTasks(calls: seq<ToolCall>, env: nat -> CallEnv, ghost at: Place, ghost b: Batch, started: seq<Entry>)
      returns (entries: seq<Entry>)
      requires Valid() && Tracks(at, started) && AllPromise(b, started)
      requires b.calls == calls == at.Calls() && b.env == env
      modifies this`trace, this`monitors, this`views, this`monitor, state
      ensures Valid() && Tracks(at, entries) && AllPromise(b, entries) && |entries| == |started|
      ensures Announces(old(trace), trace)
      ensures forall k :: 0 <= k < |entries| ==> entries[k].Settled?
    {
      hide Reads, Valid, AllPromise;
      entries := started;
      for k := 0 to |entries|
        invariant Valid() && Tracks(at, entries) && AllPromise(b, entries) && |entries| == |started|
        invariant Announces(old(trace), trace)
        invariant forall j :: 0 <= j < k ==> entries[j].Settled?
      {
        if !entries[k].Settled? { entries := SettleEntry(k, calls[k], env(k), at, b, entries); }
      }
    }

    /** The outcomes of settled entries; calls that were never started are announced as aborted. */
    method CollectOutcomes(calls: seq<ToolCall>, ghost at: Place, ghost b: Batch, entries: seq<Entry>)
      returns (outcomes: seq<Finalized>)
      requires Valid() && Tracks(at, entries) && AllPromise(b, entries) && b.calls == calls == at.Calls() && !b.truncated
      requires forall k :: 0 <= k < |entries| ==> entries[k].Settled?
      requires |entries| < |calls| ==> |entries| > 0 && AbortedAfter(b, |entries| - 1)
      modifies this`trace, this`monitors, this`views, this`monitor, state
      ensures Valid() && AllOutcomes(b, outcomes) && InBatch(at, []) && Have(outcomes) && Announces(old(trace), trace)
    {
      hide *;
      outcomes := seq(|entries|, k requires 0 <= k < |entries| && entries[k].Settled? => entries[k].outcome);
      var all := entries;
      AreSettled(all, outcomes);
      SettledOutcomes(b, entries, outcomes);
      TracksSome(at, entries);
      for k := |entries| to |calls|
        invariant |outcomes| == |all| == k && FirstOutcomes(b, outcomes) && AllSettled(all, outcomes)
        invariant k < |calls| ==> k > 0 && AbortedAfter(b, k - 1)
        invariant Valid() && Tracks(at, all) && Announces(old(trace), trace)
      {
        var finalized := CreateAbortedToolCallOutcome(calls[k]);
        SkippedCall(b, k);
        OutcomesGrow(b, outcomes, finalized);
        AnnouncesEnds(old(trace), trace, k, finalized);
        OneMoreSettled(all, outcomes, finalized);
        ghost var before := all;
        all := StartEntry(calls[k], at, all);
        all := EndEntry(k, finalized, at, all);
        assert all == before + [Settled(finalized)];
        outcomes := outcomes + [finalized];
      }
      OutcomesComplete(b, outcomes);
      AllHave(at, all, outcomes);
    }

    lemma TracksSome(at: Place, entries: seq<Entry>)
      requires Tracks(at, entries)
      ensures |entries| <= |at.Calls()| && Announces(trace, trace)
    {
    }

    lemma AllHave(at: Place, entries: seq<Entry>, outcomes: seq<Finalized>)
      requires Tracks(at, entries) && AllSettled(entries, outcomes)
      ensures InBatch(at, []) && Have(outcomes)
    {
    }

    method ReportOutcomes(outcomes: seq<Finalized>, ghost at: Place) returns (messages: seq<Message>)
      requires Valid() && InBatch(at, []) && Have(outcomes) && |outcomes| == |at.Calls()|
      modifies this`trace, this`monitors, this`views, this`monitor, state
      ensures Valid() && Done(at, outcomes, messages) && trace == old(trace) + ResultTrace(messages)
    {
      hide Reads;
      messages := [];
      for k := 0 to |outcomes|
        invariant Valid() && InBatch(at, messages) && Have(outcomes) && |messages| == k
        invariant trace == old(trace) + ResultTrace(messages)
      {
        var message := CreateToolResultMessage(outcomes[k]);
        EmitToolResultMessage(message, at, messages);
        assert (messages + [message])[..k] == messages;
        messages := messages + [message];
      }
    }

    /** Starts and prepares the calls in source order, until the signal fires. */
    method PrepareAll(calls: seq<ToolCall>, env: nat -> CallEnv, ghost at: Place, ghost b: Batch) returns (entries: seq<Entry>)
      requires Valid() && Done(at, [], []) && calls == at.Calls() && b == Batch(calls, env, false, aborted, b.abortsLate)
      modifies this`trace, this`monitors, this`views, this`monitor, this`aborted, state
      ensures Valid() && Tracks(at, entries) && AllPromise(b, entries) && Announces(old(trace), trace)
      ensures |entries| < |calls| ==> |entries| > 0 && AbortedAfter(b, |entries| - 1)
      ensures aborted == CallsFired(b)
      ensures forall k :: 0 <= k < |calls| ==> (Executes(b, k) <==> k < |entries| && entries[k].Executing?)
    {
      hide Reads, Valid, CallOutcome, CallsOf, Promises, Executes;
      entries := [];
      while |entries| < |calls|
        invariant |entries| <= |calls| && Valid() && Tracks(at, entries) && AllPromise(b, entries)
        invariant Announces(old(trace), trace)
        invariant |entries| < |calls| ==> !Skipped(b, |entries|) && aborted == (|entries| == 0 && b.aborted)
        invariant aborted == if |entries| == 0 then b.aborted else AbortedAfter(b, |entries| - 1)
        invariant forall k :: 0 <= k < |entries| ==> (Executes(b, k) <==> entries[k].Executing?)
        decreases |calls| - |entries|
      {
        var i := |entries|;
        entries := PrepareEntry(i, calls[i], env(i), at, b, entries);
        if aborted {
          AbortPersists(b, i, |calls| - 1);
          NothingMore(b, i);
          return;
        }
      }
    }

    /** Whatever the schedule, the outcomes and messages are those of the batch. */
    method ExecuteToolCallsParallel(calls: seq<ToolCall>, env: nat -> CallEnv, schedule: seq<MicroStep>, ghost at: Place,
                                    ghost b: Batch)
      returns (outcomes: seq<Finalized>, messages: seq<Message>)
      requires Valid() && Done(at, [], []) && calls == at.Calls() && b == Batch(calls, env, false, aborted, b.abortsLate)
      modifies this`trace, this`monitors, this`views, this`monitor, this`aborted, state
      ensures Valid() && AllOutcomes(b, outcomes) && Done(at, outcomes, messages)
      ensures aborted == (CallsFired(b) || Abort in schedule)
      ensures ReportsLast(old(trace), trace, messages)
      ensures forall i :: 0 <= i < |calls| ==>
                UpdatesIn(trace, i) == UpdatesIn(old(trace), i) + if Executes(b, i) then SentUntilReturn(schedule, i) else []
    {
      hide Reads, Valid, Tracks, AllPromise, AllOutcomes, CallsFired, AbortedAfter, CallsOf, Have, Executes, SentUntilReturn,
           UpdatesIn, ResultTrace, Announces;
      var entries := PrepareAll(calls, env, at, b);
      AnnouncesOnly(old(trace), trace);
      ghost var started := entries;
      entries := RunTasks(schedule, calls, env, at, b, entries);
      ghost var before := trace;
      outcomes := CollectOutcomes(calls, at, b, entries);
      AnnouncesOnly(before, trace);
      ghost var announced := trace;
      assert ToolsOnly(old(trace), trace);
      OutcomesComplete(b, outcomes);
      messages := ReportOutcomes(outcomes, at);
      forall i | 0 <= i < |calls|
        ensures UpdatesIn(trace, i) == UpdatesIn(old(trace), i) + if Executes(b, i) then SentUntilReturn(schedule, i) else []
      {
        ResultsSendNothing(announced, messages, i);
      }
    }

    // ---- Turns -----------------------------------------------------------------------------------------

    ghost function Modes(): (QueueMode, QueueMode)
      reads steeringQueue, followUpQueue
    {
      (steeringQueue.mode, followUpQueue.mode)
    }

    ghost function InQueues(): Queued
      reads steeringQueue, followUpQueue
    {
      Queued(steeringQueue.messages, followUpQueue.messages)
    }

    /** A turn is open, no message is, and no tool has been started. */
    ghost predicate Ready()
      reads this`monitor, this`newMessages
    {
      && monitor.Turn? && monitor.open == None && Quiet(monitor.calls)
      && monitor.ended == newMessages
    }

    ghost function Selected(s: Source): seq<Message>
      reads this`newMessages, this`sources
      requires |sources| == |newMessages|
    {
      Select(newMessages, sources, s)
    }

    method Push(message: Message, ghost source: Source)
      requires |sources| == |newMessages|
      modifies this`newMessages, this`sources
      ensures old(Valid()) ==> Valid()
      ensures newMessages == old(newMessages) + [message] && |sources| == |newMessages|
      ensures Selected(Steering) == Plus(old(Selected(Steering)), source, Steering, [message])
      ensures Selected(FollowUp) == Plus(old(Selected(FollowUp)), source, FollowUp, [message])
    {
      SelectAppend(newMessages, sources, message, source);
      newMessages, sources := newMessages + [message], sources + [source];
    }

    method EmitMessage(message: Message)
      requires Valid() && monitor.Turn? && monitor.open == None && Quiet(monitor.calls)
      modifies this`trace, this`monitors, this`views, this`monitor, state
      ensures Valid() && monitor.Turn? && monitor.open == None && Quiet(monitor.calls)
      ensures monitor.ended == old(monitor).ended + [message]
    {
      hide Valid, CallsOf;
      Emit(MessageStart(message));
      Emit(MessageEnd(message));
    }

    /** Injects queued messages before the next request. */
    method InjectPending(pending: seq<Message>, ghost source: Source)
      requires Valid() && Ready()
      modifies this`trace, this`monitors, this`views, this`monitor, this`context, this`newMessages, this`sources, state
      ensures Valid() && Ready()
      ensures context == old(context) + pending && newMessages == old(newMessages) + pending
      ensures Selected(Steering) == Plus(old(Selected(Steering)), source, Steering, pending)
      ensures Selected(FollowUp) == Plus(old(Selected(FollowUp)), source, FollowUp, pending)
    {
      hide Valid, Select, Selected, Plus, Quiet, Reads;
      SourcesKnown();
      assert pending[..0] == [];
      PlusMore(Selected(Steering), source, Steering, [], User(""));
      PlusMore(Selected(FollowUp), source, FollowUp, [], User(""));
      for k := 0 to |pending|
        invariant Valid() && Ready() && |sources| == |newMessages|
        invariant context == old(context) + pending[..k] && newMessages == old(newMessages) + pending[..k]
        invariant Selected(Steering) == Plus(old(Selected(Steering)), source, Steering, pending[..k])
        invariant Selected(FollowUp) == Plus(old(Selected(FollowUp)), source, FollowUp, pending[..k])
      {
        assert pending[..k + 1] == pending[..k] + [pending[k]];
        PlusMore(old(Selected(Steering)), source, Steering, pending[..k], pending[k]);
        PlusMore(old(Selected(FollowUp)), source, FollowUp, pending[..k], pending[k]);
        EmitMessage(pending[k]);
        context := context + [pending[k]];
        Push(pending[k], source);
      }
      assert pending[..|pending|] == pending;
    }

    /** The final message takes the place of its partial version, or is started now. */
    method FinishStream(final: AssistantMessage, addedPartial: bool)
      requires Valid() && monitor.Turn? && Quiet(monitor.calls) && (addedPartial ==> context != [])
      requires if addedPartial then monitor.open.Some? && monitor.open.value.Assistant? else monitor.open == None
      modifies this`trace, this`monitors, this`views, this`monitor, this`context, state
      ensures Valid() && context == CloseStream(old(context), final, addedPartial)
      ensures trace == old(trace) + ((if addedPartial then [] else [MessageStart(final)]) + [MessageEnd(final)])
      ensures monitor == Turn(old(monitor).ended + [final], None, Some(final), AllWaiting(|CallsOf(final)|), [])
    {
      hide Reads;
      context := CloseStream(context, final, addedPartial);
      if !addedPartial { Emit(MessageStart(final)); }
      Emit(MessageEnd(final));
    }

    /** A start adds a partial message to the context, a delta after it replaces that. */
    method TakeStreamEvent(event: StreamEvent, addedPartial: bool) returns (added: bool)
      requires Valid() && !event.StreamTerminal? && monitor.Turn? && Quiet(monitor.calls) && (addedPartial ==> context != [])
      requires if addedPartial then event.StreamDelta? && monitor.open.Some? && monitor.open.value.Assistant?
               else monitor.open == None
      modifies this`trace, this`monitors, this`views, this`monitor, this`context, state
      ensures Valid() && added == (addedPartial || event.StreamStart?)
      ensures context == if event.StreamStart? then old(context) + [event.partial]
                         else if addedPartial then old(context)[|old(context)| - 1 := event.partial] else old(context)
      ensures trace == old(trace) + if event.StreamStart? then [MessageStart(event.partial)]
                                    else if addedPartial then [MessageUpdate(event.partial)] else []
      ensures monitor == if added then old(monitor).(open := Some(event.partial)) else old(monitor)
    {
      hide Reads;
      added := addedPartial;
      match event {
        case StreamStart(partial) =>
          context := context + [partial];
          added := true;
          Emit(MessageStart(partial));
        case StreamDelta(partial) =>
          if addedPartial {
            context := context[|context| - 1 := partial];
            Emit(MessageUpdate(partial));
          }
        case StreamTerminal =>
      }
    }

    /** Streams one assistant message; its partial versions live in the context until it is final. */
    method StreamAssistantResponse(stream: seq<StreamEvent>, final: AssistantMessage)
      requires Valid() && Ready() && Starts(stream) <= 1
      modifies this`trace, this`monitors, this`views, this`monitor, this`context, this`requests, state
      ensures Valid() && requests == old(requests) + [old(context)]
      ensures context == old(context) + [final] && trace == old(trace) + StreamTrace(stream, final, false)
      ensures monitor == Turn(old(newMessages) + [final], None, Some(final), AllWaiting(|CallsOf(final)|), [])
    {
      hide Reads, CallsOf, AllWaiting, StreamContext, StreamTrace, Starts, CloseStream;
      StreamAppendsFinalIff(context, stream, final);
      requests := requests + [context];
      assert stream[0..] == stream;
      var addedPartial := false;
      var k := 0;
      while k < |stream| && !stream[k].StreamTerminal?
        invariant 0 <= k <= |stream| && Valid() && (addedPartial ==> context != [])
        invariant requests == old(requests) + [old(context)]
        invariant trace + StreamTrace(stream[k..], final, addedPartial) == old(trace) + StreamTrace(stream, final, false)
        invariant Starts(stream[k..]) + (if addedPartial then 1 else 0) <= 1
        invariant StreamContext(context, stream[k..], final, addedPartial) == old(context) + [final]
        invariant monitor.Turn? && monitor == old(monitor).(open := monitor.open)
        invariant if addedPartial then monitor.open.Some? && monitor.open.value.Assistant? else monitor.open == None
      {
        StreamStep(context, stream, k, final, addedPartial, trace);
        addedPartial := TakeStreamEvent(stream[k], addedPartial);
        k := k + 1;
      }
      StreamOver(context, stream, k, final, addedPartial);
      FinishStream(final, addedPartial);
    }

    /** The batch of a turn: what the signal does is part of the script. */
    ghost function BatchOf(t: TurnEnv): Batch
      reads this`aborted
    {
      Batch(CallsOf(t.final), t.calls, t.final.stopReason == Length, aborted, FiresLate(t))
    }

    method ExecuteToolCalls(t: TurnEnv) returns (results: seq<Message>, terminate: bool)
      requires Valid() && CallsOf(t.final) != [] && !Halts(t.final)
      requires monitor == Turn(newMessages, None, Some(t.final), AllWaiting(|CallsOf(t.final)|), [])
      modifies this`trace, this`monitors, this`views, this`monitor, this`aborted, state
      ensures AnsweredBy(old(BatchOf(t)), results) && terminate == Terminates(old(BatchOf(t)))
      ensures aborted == (CallsFired(old(BatchOf(t))) || (RunsSideBySide(t) && Abort in t.schedule))
      ensures if RunsSideBySide(t) then ReportsLast(old(trace), trace, results)
              else trace == old(trace) + CallTraces(old(BatchOf(t)), |CallsOf(t.final)|)
      ensures RunsSideBySide(t) <==>
                && t.final.stopReason != Length && !t.sequentialConfig
                && forall k :: 0 <= k < |CallsOf(t.final)| && t.calls(k).toolFound ==> !t.calls(k).toolIsSequential
      ensures forall i :: 0 <= i < |CallsOf(t.final)| ==>
                UpdatesIn(trace, i) == UpdatesIn(old(trace), i) + Sent(t, old(BatchOf(t)), i)
      ensures Valid() && InBatch(Place(t.final, newMessages), results) && !Quiet(monitor.calls)
    {
      hide Reads, Valid, Done, InBatch, Quiet, CallsOf, AllWaiting, OutcomeAt, FirstOutcomes, AllOutcomes, Reports, AnsweredBy,
           Terminates, AbortedAfter, CallTraces, ReportsLast, RunsSequentially, FiresLate, CallsFired, UpdatesIn, Executes,
           SentUntilReturn;
      BatchBegins(t);
      SideBySideIff(t);
      var calls := CallsOf(t.final);
      ghost var at := Place(t.final, newMessages);
      ghost var b := BatchOf(t);
      var outcomes;
      if t.final.stopReason == Length {
        outcomes, results := FailToolCallsFromTruncatedMessage(calls, at, b);
        terminate := false;
        SkippedBatchContinues(b, 0);
        TruncatedFires(b);
      } else if RunsSequentially(t, calls) {
        outcomes, results := ExecuteToolCallsSequential(calls, t.calls, at, b);
        terminate := ShouldTerminate(outcomes);
      } else {
        outcomes, results := ExecuteToolCallsParallel(calls, t.calls, t.schedule, at, b);
        terminate := ShouldTerminate(outcomes);
      }
      if !RunsSideBySide(t) {
        forall i | 0 <= i < |calls| ensures UpdatesIn(trace, i) == UpdatesIn(old(trace), i) + Sent(t, b, i) {
          CallTracesUpdates(old(trace), b, |calls|, i);
        }
      }
      DoneReports(at, outcomes, results);
      ReportedBatch(b, outcomes, results);
      AllDone(at, b, outcomes, results);
    }

    lemma BatchBegins(t: TurnEnv)
      requires monitor == Turn(newMessages, None, Some(t.final), AllWaiting(|CallsOf(t.final)|), [])
      ensures Done(Place(t.final, newMessages), [], [])
    {
      hide CallsOf;
    }

    lemma AllDone(at: Place, b: Batch, outcomes: seq<Finalized>, messages: seq<Message>)
      requires Done(at, outcomes, messages) && AllOutcomes(b, outcomes) && b.calls == at.Calls() != []
      ensures InBatch(at, messages) && !Quiet(monitor.calls)
    {
      hide CallsOf, OutcomeAt;
      assert monitor.calls[0] == AgentEvents.Finished(outcomes[0]);
    }

    method OpenTurn()
      requires Valid() && monitor == Between(newMessages, true)
      modifies this`trace, this`monitors, this`views, this`monitor, state
      ensures Valid() && Ready()
    {
      hide Valid;
      Emit(TurnStart);
    }

    /** The first half of a turn: queued messages go in, and one request is made and answered. */
    method RequestPhase(firstTurn: bool, pending: seq<Message>, ghost source: Source, t: TurnEnv)
      requires Valid() && Starts(t.stream) <= 1 && source != Model && source != Tool
      requires if firstTurn then Ready() else monitor == Between(newMessages, true)
      modifies this`trace, this`monitors, this`views, this`monitor, this`context, this`newMessages, this`sources,
               this`requests, this`aborted, state
      ensures Valid() && requests == old(requests) + [old(context) + pending] && aborted == (old(aborted) || t.abortsEarly)
      ensures context == old(context) + pending + [t.final]
      ensures newMessages == old(newMessages) + pending + [t.final]
      ensures Selected(Steering) == Plus(old(Selected(Steering)), source, Steering, pending)
      ensures Selected(FollowUp) == Plus(old(Selected(FollowUp)), source, FollowUp, pending)
      ensures monitor == Turn(newMessages, None, Some(t.final), AllWaiting(|CallsOf(t.final)|), [])
    {
      hide Valid, Ready, Select, Selected, CallsOf, AllWaiting, StreamTrace, Starts, Quiet;
      if !firstTurn { OpenTurn(); }
      InjectPending(pending, source);
      StreamAssistantResponse(t.stream, t.final);
      SourcesKnown();
      Push(t.final, Model);
      if t.abortsEarly { aborted := true; }
    }

    /** The second half of a turn that was not cut short: its tool calls, if there are any. */
    method ToolPhase(t: TurnEnv) returns (hasMoreToolCalls: bool, results: seq<Message>)
      requires Valid() && !Halts(t.final)
      requires monitor == Turn(newMessages, None, Some(t.final), AllWaiting(|CallsOf(t.final)|), [])
      modifies this`trace, this`monitors, this`views, this`monitor, this`context, this`newMessages, this`sources,
               this`aborted, state
      ensures Valid() && context == old(context) + results && newMessages == old(newMessages) + results
      ensures Selected(Steering) == old(Selected(Steering)) && Selected(FollowUp) == old(Selected(FollowUp))
      ensures monitor == Between(newMessages, true)
      ensures var b := old(BatchOf(t));
              AnsweredBy(b, results) && aborted == FiredBy(b) && hasMoreToolCalls == (b.calls != [] && !Terminates(b))
    {
      hide Valid, Select, Selected, CallsOf, AllWaiting, InBatch, Quiet, Step, AnsweredBy, Terminates, CallsFired, CallTraces,
           ReportsLast, RunsSequentially, RunsSideBySide, Halts;
      results, hasMoreToolCalls := [], false;
      ghost var at, b := Place(t.final, newMessages), BatchOf(t);
      SourcesKnown();
      if CallsOf(t.final) != [] {
        var terminate;
        results, terminate := ExecuteToolCalls(t);
        hasMoreToolCalls := !terminate;
        PushResults(results);
      } else {
        NoTools(t, b);
        assert context + results == context && newMessages + results == newMessages;
      }
      if t.abortsLate { aborted := true; }
      TurnCanEnd(at, b, results);
      Emit(TurnEnd(t.final, results));
    }

    lemma NoTools(t: TurnEnv, b: Batch)
      requires b.calls == CallsOf(t.final) == []
      requires monitor == Turn(newMessages, None, Some(t.final), AllWaiting(|CallsOf(t.final)|), [])
      ensures InBatch(Place(t.final, newMessages), []) && AnsweredBy(b, []) && CallsFired(b) == b.aborted && !RunsSideBySide(t)
    {
    }

    lemma TurnCanEnd(at: Place, b: Batch, results: seq<Message>)
      requires InBatch(at, results) && AnsweredBy(b, results) && b.calls == at.Calls() && !Halts(at.message)
      ensures Step(monitor, TurnEnd(at.message, results)) == Between(at.ended + results, true)
    {
      hide CallsOf;
    }

    /** One turn: queued messages, one request, its tool calls. A message that ends in an error or an
        abort ends the run. */
    method RunTurn(firstTurn: bool, pending: seq<Message>, ghost source: Source, t: TurnEnv)
      returns (halted: bool, hasMoreToolCalls: bool, ghost record: TurnRecord)
      requires Valid() && Starts(t.stream) <= 1 && source != Model && source != Tool
      requires if firstTurn then Ready() else monitor == Between(newMessages, true)
      modifies this`trace, this`monitors, this`views, this`monitor, this`context, this`newMessages, this`sources,
               this`requests, this`aborted, state
      ensures Valid() && requests == old(requests) + [record.Request()]
      ensures record.Answered() && !record.hooked && record.context == old(context) && record.pending == pending
      ensures record.after == record.Grown()
      ensures record.final == t.final && record.after == context && record.continues == hasMoreToolCalls
      ensures record.batch.env == t.calls && record.batch.aborted == (old(aborted) || t.abortsEarly)
      ensures record.batch.abortsLate == FiresLate(t) && record.early == t.abortsEarly
      ensures record.source == source && record.queued == InQueues()
      ensures !halted ==> aborted == FiredBy(record.batch)
      ensures newMessages == old(newMessages) + pending + ([t.final] + record.results)
      ensures Selected(Steering) == Plus(old(Selected(Steering)), source, Steering, pending)
      ensures Selected(FollowUp) == Plus(old(Selected(FollowUp)), source, FollowUp, pending)
      ensures halted == Halts(t.final)
      ensures monitor == if halted then Closed(newMessages) else Between(newMessages, true)
    {
      hide Valid, Ready, Select, Selected, Plus, CallsOf, AllWaiting, AnsweredBy, Terminates, FiredBy, FiresLate, Halts, Starts,
           TurnRecord.Answered, TurnRecord.Grown, TurnRecord.Request;
      ghost var before, earlier := context, newMessages;
      RequestPhase(firstTurn, pending, source, t);
      ghost var b := BatchOf(t);
      var results := [];
      if Halts(t.final) {
        halted, hasMoreToolCalls := true, false;
        CutShort(t);
      } else {
        halted := false;
        hasMoreToolCalls, results := ToolPhase(t);
      }
      Associate(before + pending, [t.final], results);
      Associate(earlier + pending, [t.final], results);
      record := TurnRecord(before, pending, t.final, results, b, hasMoreToolCalls, context, false,
                           t.abortsEarly, source, InQueues());
      RecordAnswers(record);
    }

    /** Ends the turn and the run at an answer that failed or was aborted. */
    method CutShort(t: TurnEnv)
      requires Valid() && Halts(t.final)
      requires monitor == Turn(newMessages, None, Some(t.final), AllWaiting(|CallsOf(t.final)|), [])
      modifies this`trace, this`monitors, this`views, this`monitor, state
      ensures Valid() && monitor == Closed(newMessages)
    {
      hide Valid, CallsOf;
      Emit(TurnEnd(t.final, []));
      Emit(AgentEnd(newMessages));
    }

    method PushResults(results: seq<Message>)
      requires |sources| == |newMessages|
      modifies this`context, this`newMessages, this`sources
      ensures old(Valid()) ==> Valid()
      ensures |sources| == |newMessages|
      ensures context == old(context) + results && newMessages == old(newMessages) + results
      ensures Selected(Steering) == old(Selected(Steering)) && Selected(FollowUp) == old(Selected(FollowUp))
    {
      hide Reads, Select;
      for k := 0 to |results|
        invariant |sources| == |newMessages| && (old(Valid()) ==> Valid())
        invariant context == old(context) + results[..k] && newMessages == old(newMessages) + results[..k]
        invariant Selected(Steering) == old(Selected(Steering)) && Selected(FollowUp) == old(Selected(FollowUp))
      {
        assert results[..k + 1] == results[..k] + [results[k]];
        context := context + [results[k]];
        Push(results[k], Tool);
      }
      assert results[..|results|] == results;
    }

    // ---- The loop --------------------------------------------------------------------------------------

    /** Each queue has handed out what it had before the run, what the run has injected, and what the
        loop holds right now. */
    ghost predicate Queues(held: seq<Message>, source: Source)
      reads this`newMessages, this`sources, steeringQueue, followUpQueue
    {
      && steeringQueue != followUpQueue && steeringQueue.Valid() && followUpQueue.Valid()
      && |sources| == |newMessages|
      && steeringQueue.drained == steeringBase + Plus(Selected(Steering), source, Steering, held)
      && followUpQueue.drained == followUpBase + Plus(Selected(FollowUp), source, FollowUp, held)
    }

    /** Context, requests and new messages are accounted for. */
    ghost predicate Transcript()
      reads this`context, this`base, this`since, this`newMessages, this`turns, this`requests, this`given
    {
      Accounts(turns, requests, context, given, newMessages, base, since, initial)
    }

    /** Between two passes: the loop holds these messages, which it will inject first thing. */
    ghost predicate Live(held: seq<Message>, source: Source)
      reads this`trace, this`monitors, this`views, this`monitor, this`sources, this`newMessages,
            this`context, this`base, this`since, this`turns, this`requests, this`given, this`aborted,
            state, steeringQueue, followUpQueue
    {
      && Valid() && Transcript() && Queues(held, source) && source != Model && source != Tool
      && (if turns == [] then Ready() && !aborted
          else monitor == Between(newMessages, true) && !Halts(turns[|turns| - 1].final)
               && aborted == FiredBy(turns[|turns| - 1].batch))
    }

    lemma HoldsNothing(source: Source)
      requires Live([], source)
      ensures Live([], Prompt)
    {
      assert Selected(Steering) + [] == Selected(Steering) && Selected(FollowUp) + [] == Selected(FollowUp);
    }

    lemma LiveIsValid(held: seq<Message>, source: Source)
      requires Live(held, source)
      ensures Valid() && Transcript()
    {
    }

    lemma HoldsStopCheck(pending: seq<Message>)
      requires Live([], Prompt)
      ensures Live(pending, StopCheck)
    {
    }

    /** There is a reason for another turn. */
    ghost predicate Needed(pending: seq<Message>)
      reads this`turns
    {
      turns != [] ==> turns[|turns| - 1].continues || pending != []
    }

    /** The run has ended; nothing that was drained is left uninjected. */
    ghost predicate Over()
      reads this`trace, this`monitors, this`views, this`monitor, this`sources, this`newMessages,
            this`context, this`base, this`since, this`turns, this`requests, this`given, state, steeringQueue, followUpQueue
    {
      Valid() && Transcript() && Queues([], Prompt) && monitor == Closed(newMessages) && turns != []
    }

    lemma OverHasTurns()
      requires Over()
      ensures turns != [] && steeringQueue != followUpQueue && steeringQueue.Valid() && followUpQueue.Valid()
    {
    }

    method PollSteering() returns (pending: seq<Message>)
      requires Live([], Prompt)
      modifies this`skipInitialSteeringPoll, steeringQueue
      ensures Live(pending, Steering) && !skipInitialSteeringPoll
      ensures pending == if old(skipInitialSteeringPoll) then [] else old(NextBatch(steeringQueue.messages, steeringQueue.mode))
      ensures pending == [] && !old(skipInitialSteeringPoll) ==> steeringQueue.messages == []
      ensures Modes() == old(Modes())
      ensures Open(old(InQueues()), old(skipInitialSteeringPoll), old(steeringQueue.mode)) == Next(pending, Steering, InQueues())
    {
      hide Recorded, Reads, Select, CallsOf, Quiet, Step, Accounts, Valid, Halts, FiredBy;
      if skipInitialSteeringPoll {
        skipInitialSteeringPoll := false;
        pending := [];
        assert Selected(Steering) + pending == Selected(Steering);
        return;
      }
      pending := steeringQueue.Drain();
      Associate(steeringBase, Selected(Steering), pending);
    }

    method PollFollowUps() returns (pending: seq<Message>)
      requires Live([], Prompt)
      modifies followUpQueue
      ensures pending == old(NextBatch(followUpQueue.messages, followUpQueue.mode))
      ensures Live(pending, FollowUp) && (pending == [] ==> followUpQueue.messages == [])
      ensures Modes() == old(Modes())
      ensures InQueues() == Queued(old(steeringQueue.messages), old(followUpQueue.messages)[|pending|..])
    {
      hide Recorded, Reads, Select, CallsOf, Quiet, Step, Accounts, Valid, Halts, FiredBy;
      pending := followUpQueue.Drain();
      Associate(followUpBase, Selected(FollowUp), pending);
    }

    /** Messages that other parts of the program queue while the loop runs. */
    method Arrive(more: Queued, ghost over: bool)
      requires if over then Over() else Live([], Prompt)
      modifies steeringQueue, followUpQueue
      ensures if over then Over() else Live([], Prompt)
      ensures steeringQueue.enqueued == old(steeringQueue.enqueued) + more.steering
      ensures followUpQueue.enqueued == old(followUpQueue.enqueued) + more.followUps
      ensures InQueues() == old(InQueues()).Plus(more) && Modes() == old(Modes())
    {
      hide Recorded, Reads, Select, CallsOf, Quiet, Step, Accounts, Valid, Halts, FiredBy;
      steeringQueue.EnqueueAll(more.steering);
      followUpQueue.EnqueueAll(more.followUps);
    }

    /** The hook between turns, which may replace the context. */
    method PrepareNextTurn(t: TurnEnv)
      requires Live([], Prompt) && turns != []
      modifies this`context, this`base, this`since, this`turns
      ensures Live([], Prompt)
      ensures turns == Hooked(old(turns), t.nextContext) && (t.nextContext.None? ==> context == old(context))
    {
      hide Accounts, Valid, Queues, Halts, FiredBy, Ready;
      ghost var last := |turns| - 1;
      if t.nextContext.Some? {
        HookAccounts(turns, requests, context, given, newMessages, base, since, initial, t.nextContext.value);
        context := t.nextContext.value;
        base, since := context, |newMessages|;
        turns := Hooked(turns, t.nextContext);
        hide Transcript;
        assert turns != [] && |turns| - 1 == last;
      }
    }

    method Close()
      requires Live([], Prompt) && turns != []
      modifies this`trace, this`monitors, this`views, this`monitor, state
      ensures Over()
    {
      hide Accounts, Valid, Select, Selected, Halts, FiredBy, Ready;
      assert Step(monitor, AgentEnd(newMessages)) == Closed(newMessages);
      hide Step;
      Emit(AgentEnd(newMessages));
    }

    /** A turn, recorded. */
    method RecordedTurn(pending: seq<Message>, ghost source: Source, firstTurn: bool, t: TurnEnv)
      returns (halted: bool, hasMoreToolCalls: bool)
      requires Live(pending, source) && Starts(t.stream) <= 1 && firstTurn == (turns == []) && Needed(pending)
      modifies this`trace, this`monitors, this`views, this`monitor, this`context, this`newMessages, this`sources,
               this`requests, this`turns, this`aborted, state
      ensures |turns| == |old(turns)| + 1 && turns[..|turns| - 1] == old(turns)
      ensures turns[|turns| - 1].continues == hasMoreToolCalls && !turns[|turns| - 1].hooked
      ensures turns[|turns| - 1].final == t.final && turns[|turns| - 1].batch.env == t.calls
      ensures turns[|turns| - 1].batch.abortsLate == FiresLate(t) && turns[|turns| - 1].early == t.abortsEarly
      ensures turns[|turns| - 1].queued == InQueues() && turns[|turns| - 1].source == source
      ensures turns[|turns| - 1].pending == pending
      ensures halted == Halts(t.final)
      ensures if halted then Over() else Live([], Prompt)
    {
      hide Live, Over, Valid, Ready, Transcript, Accounts, Select, Selected, Plus, Starts, FiredBy, FiresLate, Halts, Step,
           TurnRecord.Answered, TurnRecord.Grown, TurnRecord.Request;
      LiveMeans(pending, source);
      ghost var steered, followedUp := Selected(Steering), Selected(FollowUp);
      ghost var earlier := newMessages;
      ghost var record;
      halted, hasMoreToolCalls, record := RunTurn(firstTurn, pending, source, t);
      SourcesKnown();
      HoldsInjected(pending, source, steered, followedUp);
      assert GoesOn(turns, record);
      TurnAccounts(turns, old(requests), given, earlier, base, since, initial, record);
      turns := turns + [record];
      assert turns[|turns| - 1] == record;
      TurnTaken(record);
    }

    /** What Live says, piece by piece. */
    lemma LiveMeans(held: seq<Message>, source: Source)
      requires Live(held, source)
      ensures Valid() && Accounts(turns, requests, context, given, newMessages, base, since, initial) && Queues(held, source)
      ensures source != Model && source != Tool
      ensures if turns == [] then Ready() && !aborted
              else monitor == Between(newMessages, true) && !Halts(turns[|turns| - 1].final)
                   && aborted == FiredBy(turns[|turns| - 1].batch)
    {
    }

    /** Nothing is held once everything that was has been injected. */
    lemma HoldsInjected(held: seq<Message>, source: Source, steered: seq<Message>, followedUp: seq<Message>)
      requires Valid() && steeringQueue != followUpQueue && steeringQueue.Valid() && followUpQueue.Valid()
      requires |sources| == |newMessages|
      requires steeringQueue.drained == steeringBase + Plus(steered, source, Steering, held)
      requires followUpQueue.drained == followUpBase + Plus(followedUp, source, FollowUp, held)
      requires Selected(Steering) == Plus(steered, source, Steering, held)
      requires Selected(FollowUp) == Plus(followedUp, source, FollowUp, held)
      ensures Queues([], Prompt)
    {
      hide Select, Reads;
    }

    lemma TurnTaken(r: TurnRecord)
      requires Valid() && Accounts(turns, requests, context, given, newMessages, base, since, initial) && Queues([], Prompt)
      requires turns != [] && turns[|turns| - 1] == r
      ensures !Halts(r.final) && monitor == Between(newMessages, true) && aborted == FiredBy(r.batch) ==> Live([], Prompt)
      ensures monitor == Closed(newMessages) ==> Over()
    {
      hide Accounts, Valid, Queues, FiredBy, Halts;
    }

    /** After a turn that was not cut short: the hook, the stop check, the next look at the queue. */
    method BetweenTurns(t: TurnEnv) returns (stopped: bool, next: seq<Message>)
      requires Live([], Prompt) && turns != []
      modifies this`context, this`base, this`since, this`turns, this`trace, this`monitors, this`views, this`monitor,
               this`skipInitialSteeringPoll, state, steeringQueue
      ensures turns == Hooked(old(turns), t.nextContext)
      ensures stopped == t.stopAfterTurn
      ensures if stopped then Over() else Live(next, Steering)
      ensures !stopped && next == [] && !old(skipInitialSteeringPoll) ==> steeringQueue.messages == []
      ensures !stopped ==> !skipInitialSteeringPoll
      ensures Modes() == old(Modes()) && (stopped ==> InQueues() == old(InQueues()))
      ensures !stopped ==>
                Open(old(InQueues()), old(skipInitialSteeringPoll), old(steeringQueue.mode)) == Next(next, Steering, InQueues())
    {
      hide Live, Over, Open;
      PrepareNextTurn(t);
      if t.stopAfterTurn {
        Close();
        return true, [];
      }
      stopped := false;
      next := PollSteering();
    }

    /** One pass through the inner loop. */
    method Iterate(pending: seq<Message>, ghost source: Source, firstTurn: bool, t: TurnEnv)
      returns (stopped: bool, hasMoreToolCalls: bool, next: seq<Message>)
      requires Live(pending, source) && Starts(t.stream) <= 1 && firstTurn == (turns == []) && Needed(pending)
      modifies this, state, steeringQueue, followUpQueue
      ensures |turns| == |old(turns)| + 1 && turns[..|turns| - 1] == old(turns) && given == old(given)
      ensures turns[|turns| - 1].continues == hasMoreToolCalls && turns[|turns| - 1].Plays(t)
      ensures turns[|turns| - 1].pending == pending && turns[|turns| - 1].source == source
      ensures turns[|turns| - 1].queued == old(InQueues()) && Modes() == old(Modes())
      ensures stopped == !Stays(t)
      ensures if stopped then Over() && InQueues() == old(InQueues()).Plus(t.arrivals) else Live(next, Steering)
      ensures !stopped && next == [] && !old(skipInitialSteeringPoll) ==> steeringQueue.messages == []
      ensures !stopped && !old(skipInitialSteeringPoll) ==>
                !skipInitialSteeringPoll && PollAfter(old(InQueues()), old(steeringQueue.mode), t) == (next, InQueues())
    {
      hide Live, Over, Needed, Starts, FiresLate, Halts;
      stopped, hasMoreToolCalls := RecordedTurn(pending, source, firstTurn, t);
      next := [];
      Arrive(t.arrivals, stopped);
      if !stopped { stopped, next := BetweenTurns(t); }
    }

    /** The inner loop: turns follow each other while tools or queued messages ask for more. It is left
        on its own only when neither does. */
    method RunTurns(queued: seq<Message>, ghost from: Source, env: seq<TurnEnv>, done: nat, ghost opening: Decision)
      returns (turn: nat, stopped: bool, exhausted: bool)
      requires Live(queued, from) && |turns| == done <= |env| && (turns == [] || queued != []) && !skipInitialSteeringPoll
      requires Played(turns, env) && forall i :: 0 <= i < |env| ==> Starts(env[i].stream) <= 1
      requires Directed(turns, env, Modes(), opening) && Due(turns, env, Modes(), opening) == Next(queued, from, InQueues())
      requires done > 0 ==> Stays(env[done - 1])
      modifies this, state, steeringQueue, followUpQueue
      ensures Played(turns, env) && done <= turn <= |env| && |turns| == turn && given == old(given)
      ensures Modes() == old(Modes()) && Directed(turns, env, Modes(), opening)
      ensures !stopped ==> !skipInitialSteeringPoll && (turn > 0 ==> Stays(env[turn - 1]))
      ensures stopped ==> Over() && turn > 0 && !Stays(env[turn - 1])
                          && InQueues() == turns[turn - 1].queued.Plus(env[turn - 1].arrivals)
      ensures !stopped && exhausted ==> turn == |env| && Valid() && Transcript()
      ensures !stopped && exhausted ==>
                Due(turns, env, Modes(), opening).Next? && Due(turns, env, Modes(), opening).left == InQueues()
      ensures !stopped && !exhausted ==>
                turn > done && Live([], Prompt) && !turns[turn - 1].continues && steeringQueue.messages == []
                && PollAfter(turns[turn - 1].queued, Modes().0, env[turn - 1]) == ([], InQueues())
    {
      hide Live, Over, Transcript, Valid, Directed, PollAfter, Stays, DecideToStop, TurnRecord.Plays, Starts, Played, InQueues;
      var pending := queued;
      ghost var source := from;
      var hasMoreToolCalls := true;
      turn := done;
      while hasMoreToolCalls || |pending| > 0
        invariant given == old(given) && Played(turns, env)
        invariant Modes() == old(Modes()) && Directed(turns, env, Modes(), opening)
        invariant Live(pending, source) && |turns| == turn && done <= turn <= |env| && !skipInitialSteeringPoll
        invariant turn > 0 ==> Stays(env[turn - 1])
        invariant turn == done ==> hasMoreToolCalls && (turns == [] || pending != [])
        invariant turn == done ==> Due(turns, env, Modes(), opening) == Next(pending, source, InQueues())
        invariant turn > done ==> turns[turn - 1].continues == hasMoreToolCalls && source == Steering
        invariant turn > done ==> PollAfter(turns[turn - 1].queued, Modes().0, env[turn - 1]) == (pending, InQueues())
        invariant turn > done && pending == [] ==> steeringQueue.messages == []
        decreases |env| - turn
      {
        assert Due(turns, env, Modes(), opening) == Next(pending, source, InQueues());
        if turn == |env| {
          LiveIsValid(pending, source);
          return turn, false, true;
        }
        ghost var earlier := turns;
        stopped, hasMoreToolCalls, pending := Iterate(pending, source, turn == 0, env[turn]);
        OneMorePlayed(earlier, turns, env);
        OneMoreDirected(earlier, turns, env, Modes(), opening);
        source, turn := Steering, turn + 1;
        if stopped { return turn, true, false; }
      }
      HoldsNothing(source);
      return turn, false, false;
    }

    /** Why a run may end: the provider failed or was aborted, a hook asked for it, or there was nothing
        left to do. In the first cases the queues hold what they held as the turn began and what has arrived
        since; in the last one each queue was empty when it was polled last, and what it holds has arrived
        after that. */
    ghost predicate EndsFor(t: TurnEnv)
      reads this`turns, steeringQueue, followUpQueue
    {
      && turns != []
      && if Stays(t) then Decide(turns[|turns| - 1].queued, Modes(), t, turns[|turns| - 1].continues) == End(InQueues())
         else InQueues() == turns[|turns| - 1].queued.Plus(t.arrivals)
    }

    /** A run that ended by itself: no tool asked for another turn, the stop check added nothing, and each queue
        holds exactly what has arrived after its last poll. */
    lemma EndReason(t: TurnEnv)
      requires EndsFor(t) && Stays(t)
      ensures !turns[|turns| - 1].continues && t.stopCheck == [] && !t.stopAfterTurn
      ensures steeringQueue.messages == t.afterPoll.steering + t.duringStopCheck.steering
      ensures followUpQueue.messages == t.duringStopCheck.followUps
      ensures steeringQueue.messages == followUpQueue.messages == [] <==>
                t.afterPoll.steering == [] && t.duringStopCheck == Queued([], [])
    {
      hide Decide;
      EndsIff(turns[|turns| - 1].queued, Modes(), t, turns[|turns| - 1].continues, InQueues());
    }

    /** The agent would stop here: follow-up messages, then the stop check, may keep it going. Messages can
        arrive before the follow-up queue is polled, and again while the stop check is awaited. */
    method LookForMore(t: TurnEnv) returns (pending: seq<Message>, ghost source: Source)
      requires Live([], Prompt)
      modifies steeringQueue, followUpQueue
      ensures Live(pending, source) && Modes() == old(Modes())
      ensures DecideToStop(old(InQueues()), old(followUpQueue.mode), t)
              == if pending == [] then End(InQueues()) else Next(pending, source, InQueues())
      ensures pending == [] ==> Live([], Prompt) && t.stopCheck == []
    {
      hide Live;
      Arrive(t.afterPoll, false);
      pending := PollFollowUps();
      source := FollowUp;
      if |pending| > 0 { return; }
      HoldsNothing(source);
      Arrive(t.duringStopCheck, false);
      pending, source := t.stopCheck, StopCheck;
      HoldsStopCheck(pending);
    }

    /** What the loop starts with: the first look at the steering queue, unless it is to be skipped. */
    ghost function Opening(arrivals: seq<Message>): Decision
      reads this`skipInitialSteeringPoll, steeringQueue, followUpQueue
    {
      Open(InQueues().Plus(Queued(arrivals, [])), skipInitialSteeringPoll, steeringQueue.mode)
    }

    /** The loop itself. It runs out of environment only between two turns; otherwise it ends for one of
        its reasons, with the grammar closed and no drained message left uninjected. */
    method RunLoop(initialSteering: seq<Message>, env: seq<TurnEnv>) returns (completed: bool)
      requires Live([], Prompt) && turns == []
      requires forall i :: 0 <= i < |env| ==> Starts(env[i].stream) <= 1
      modifies this, state, steeringQueue, followUpQueue
      ensures Played(turns, env) && given == old(given)
      ensures Modes() == old(Modes()) && Directed(turns, env, Modes(), old(Opening(initialSteering)))
      ensures if completed then Over() && EndsFor(env[|turns| - 1]) else Valid() && Transcript() && |turns| == |env|
      ensures !completed ==>
                var due := Due(turns, env, Modes(), old(Opening(initialSteering))); due.Next? && due.left == InQueues()
    {
      hide Live, Over, Starts, Valid, Transcript, Directed, PollAfter, DecideToStop, TurnRecord.Plays, Stays, Played, InQueues, Open;
      NothingDirected(env, Modes(), Opening(initialSteering));
      ghost var opening := Opening(initialSteering);
      Arrive(Queued(initialSteering, []), false);
      var pending := PollSteering();
      ghost var source := Steering;
      var turn := 0;
      while true
        invariant given == old(given) && Played(turns, env)
        invariant Live(pending, source) && |turns| == turn <= |env| && !skipInitialSteeringPoll
        invariant Modes() == old(Modes()) && Directed(turns, env, Modes(), opening)
        invariant Due(turns, env, Modes(), opening) == Next(pending, source, InQueues())
        invariant turns == [] || pending != []
        invariant turn > 0 ==> Stays(env[turn - 1])
        decreases |env| - turn
      {
        var stopped, exhausted;
        turn, stopped, exhausted := RunTurns(pending, source, env, turn, opening);
        if stopped { return true; }
        if exhausted { return false; }
        pending, source := LookForMore(env[turn - 1]);
        if |pending| == 0 { break; }
      }
      Close();
      completed := true;
    }

    // ---- A run -----------------------------------------------------------------------------------------

    /** Nothing has happened yet, and these messages have been taken from a queue or from the caller. */
    ghost predicate Unstarted(prompts: seq<Message>, source: Source)
      reads this, state, steeringQueue, followUpQueue
    {
      && Valid() && trace == [] && newMessages == [] && turns == [] && requests == [] && !aborted
      && context == base == initial && since == 0 && source != Model && source != Tool
      && start.pending == {} && start.streaming == None
      && Queues(prompts, source)
    }

    /** What a finished run has achieved: its trace is in the grammar and lists the new messages in
        order; the agent's transcript is the old one plus these, nothing is pending or streaming; and the
        loop's own context agrees with it unless a hook replaced it. */
    ghost predicate Consistent()
      reads this, state
    {
      && Complete(trace) && MessageEnds(trace) == newMessages && state.View() == ReduceAll(start, trace)
      && state.messages == start.messages + newMessages
      && state.pendingToolCalls == {} && state.streamingMessage == None
      && (Unhooked(turns) ==> context == initial + newMessages)
    }

    lemma OverIsConsistent()
      requires Over() && start.pending == {} && start.streaming == None
      ensures Consistent()
    {
      ReadsIsRun(trace, monitors, views);
      EndedIsMessageEnds(trace);
      ReduceTracksRun(start, trace);
      assert newMessages[0..] == newMessages;
    }

    /** Every request of the run was well-paired, and so is the final context unless the last message
        still asks for tools, provided the initial context was and hooks and queues keep it so. */
    lemma OverIsPaired(i: nat)
      requires Over() && WellPaired(initial) && AllStandalone(given) && KeepsPairing(turns) && i < |requests|
      ensures WellPaired(requests[i])
      ensures Unhooked(turns) ==>
                (WellPaired(context) <==> !(Halts(turns[|turns| - 1].final) && CallsOf(turns[|turns| - 1].final) != []))
    {
      hide Reads, Select, WellPaired, AllStandalone, TurnRecord.Answered;
      assert Chain(turns) && requests[i] == turns[i].Request() && context == turns[|turns| - 1].after;
      StandalonePaired(given);
      WellPairedConcat(initial, given);
      RunPairs(turns, i);
      RunPairs(turns, |turns| - 1);
    }

    /** At every moment of a run, for every turn that has ended: each call of its message has been dealt with by
        one start, then its updates, then exactly one end, and the turn lists the results in order. */
    lemma CallsDealtWith(s: nat, q: nat, i: nat)
      requires Valid() && s < q < |trace| && trace[s].TurnStart? && trace[q].TurnEnd?
      requires forall k :: s < k < q ==> !trace[k].TurnEnd?
      ensures trace[q].message.Assistant?
      ensures var (es, calls) := (EventsOfCall(trace[s + 1..q], i), CallsOf(trace[q].message));
              if Halts(trace[q].message) then es == [] && trace[q].toolResults == []
              else |trace[q].toolResults| == |calls|
                   && if i < |calls| then DealtWith(es, i, calls[i], trace[q].toolResults[i]) else es == []
    {
      hide CallsOf, Halts, Reads, DealtWith;
      ReadsIsRun(trace, monitors, views);
      CallHistory(trace, s, q, i);
    }

    /** Queue conservation: with nothing cleared, what was enqueued is what was handed out before the
        run, then what the run injected, in order, then what is still queued. */
    lemma OverConservesQueues()
      requires Over()
      ensures steeringQueue.enqueued == steeringBase + Select(newMessages, sources, Steering) + steeringQueue.messages
      ensures followUpQueue.enqueued == followUpBase + Select(newMessages, sources, FollowUp) + followUpQueue.messages
    {
    }

    method EmitPrompts(prompts: seq<Message>)
      requires Valid() && trace == []
      modifies this`trace, this`monitors, this`views, this`monitor, state
      ensures Valid() && monitor.Turn? && monitor.open == None && Quiet(monitor.calls) && monitor.ended == prompts
    {
      assert monitor == Fresh;
      Emit(AgentStart);
      Emit(TurnStart);
      for k := 0 to |prompts|
        invariant Valid() && monitor.Turn? && monitor.open == None && Quiet(monitor.calls)
        invariant monitor.ended == prompts[..k]
      {
        assert prompts[..k + 1] == prompts[..k] + [prompts[k]];
        EmitMessage(prompts[k]);
      }
      assert prompts[..|prompts|] == prompts;
    }

    /** The given messages are the first new messages of the run. */
    method Accept(prompts: seq<Message>, ghost source: Source)
      requires Unstarted(prompts, source)
      modifies this`context, this`newMessages, this`sources, this`given
      ensures Valid() && trace == [] && turns == [] && given == newMessages == prompts
      ensures Transcript() && Queues([], Prompt)
    {
      hide Reads, Unhooked, Quiet, Select, Chain, Produced, CallsOf, Recorded, IsNextResult, NoneRunning, Halts;
      SelectUniform(prompts, source);
      NothingSelected();
      GivenAccounts(initial, prompts);
      hide Accounts;
      newMessages, sources, given := prompts, seq(|prompts|, k => source), prompts;
      context := context + prompts;
    }

    /** runAgentLoop. */
    method RunAgentLoop(prompts: seq<Message>, ghost source: Source, initialSteering: seq<Message>, env: seq<TurnEnv>)
      returns (completed: bool)
      requires Unstarted(prompts, source)
      requires forall i :: 0 <= i < |env| ==> Starts(env[i].stream) <= 1
      modifies this, state, steeringQueue, followUpQueue
      ensures Played(turns, env) && given == prompts
      ensures Modes() == old(Modes()) && Directed(turns, env, Modes(), old(Opening(initialSteering)))
      ensures if completed then Over() && EndsFor(env[|turns| - 1]) && Consistent()
              else Valid() && Transcript() && |turns| == |env|
      ensures !completed ==>
                var due := Due(turns, env, Modes(), old(Opening(initialSteering))); due.Next? && due.left == InQueues()
    {
      hide Reads, Consistent, Over, EndsFor, Starts, Transcript, Queues, Quiet, Directed, Due, Opening, Played;
      Accept(prompts, source);
      EmitPrompts(prompts);
      completed := RunLoop(initialSteering, env);
      if completed { OverIsConsistent(); }
    }

    /** runAgentLoopContinue: the same without prompts, refused unless something is there to answer. */
    method RunAgentLoopContinue(initialSteering: seq<Message>, env: seq<TurnEnv>) returns (accepted: bool, completed: bool)
      requires Unstarted([], Prompt)
      requires forall i :: 0 <= i < |env| ==> Starts(env[i].stream) <= 1
      modifies this, state, steeringQueue, followUpQueue
      ensures accepted == (old(context) != [] && !old(context[|context| - 1]).Assistant?)
      ensures !accepted ==> !completed && Unstarted([], Prompt)
      ensures |turns| <= |env| && (accepted ==> given == [] && Played(turns, env))
      ensures accepted ==> Modes() == old(Modes()) && Directed(turns, env, Modes(), old(Opening(initialSteering)))
      ensures accepted ==> if completed then Over() && EndsFor(env[|turns| - 1]) && Consistent()
                           else Valid() && Transcript() && |turns| == |env|
      ensures accepted && !completed ==>
                var due := Due(turns, env, Modes(), old(Opening(initialSteering))); due.Next? && due.left == InQueues()
    {
      hide Reads, Select, Consistent, Over, Transcript, EndsFor, Directed, Due, Opening;
      if |context| == 0 || context[|context| - 1].Assistant? { return false, false; }
      accepted := true;
      completed := RunAgentLoop([], Prompt, initialSteering, env);
    }
  }

  lemma {:induction false} SelectUniform(messages: seq<Message>, source: Source)
    ensures forall s :: Select(messages, seq(|messages|, k => source), s) == Plus([], source, s, messages)
  {
    if messages != [] {
      var n := |messages| - 1;
      SelectUniform(messages[..n], source);
      var sources := seq(|messages|, k => source);
      assert sources[..n] == seq(n, k => source);
      assert messages == messages[..n] + [messages[n]];
      forall s ensures Select(messages, sources, s) == Plus([], source, s, messages) {
        assert Select(messages[..n], sources[..n], s) == Plus([], source, s, messages[..n]);
      }
    }
  }

  // ---- A run that leaves a message in a queue ---------------------------------------------------------

  /** An answer without tools; nothing is queued but one message, while the stop check is awaited. */
  function QuietTurn(late: Message): TurnEnv {
    TurnEnv([], Assistant([], Stop, None), false,
            _ => CallEnv(false, false, false, None, NoBefore, Threw(""), [], NoAfter, false),
            [], None, false, [], false, false, Queued([], []), Queued([], []), Queued([late], []))
  }

  lemma QuietTurnEnds(turns: seq<TurnRecord>, late: Message, modes: (QueueMode, QueueMode), skip: bool)
    requires |turns| == 1 && Chain(turns) && Played(turns, [QuietTurn(late)])
    requires Directed(turns, [QuietTurn(late)], modes, Open(Queued([], []), skip, modes.0))
    ensures Stays(QuietTurn(late))
    ensures Decide(turns[0].queued, modes, QuietTurn(late), turns[0].continues) == End(Queued([late], []))
  {
    var t, r := QuietTurn(late), turns[0];
    ChainAt(turns, 0);
    assert turns[..0] == [];
    assert r.Plays([t][0]);
    assert r.batch.calls == [];
    assert r.queued == Queued([], []);
    EndsIff(r.queued, modes, t, r.continues, Queued([late], []));
  }

  /** A whole run that ends by itself and leaves a steering message in its queue, since it arrived while the
      stop check was awaited, after the queue had been polled for the last time. */
  method LeavesMessage(prompt: Message, late: Message) returns (run: AgentLoop)
    ensures fresh(run) && run.Over() && run.Consistent() && run.given == [prompt] && |run.turns| == 1
    ensures run.steeringQueue.messages == [late] && run.followUpQueue.messages == []
  {
    var state := new AgentState([]);
    var steeringQueue := new PendingMessageQueue(OneAtATime);
    var followUpQueue := new PendingMessageQueue(OneAtATime);
    run := new AgentLoop(state, steeringQueue, followUpQueue, [], false, [], []);
    var env := [QuietTurn(late)];
    assert run.Unstarted([prompt], Prompt);
    ghost var opening := run.Opening([]);
    assert opening == Open(Queued([], []), false, OneAtATime);
    var completed := run.RunAgentLoop([prompt], Prompt, [], env);
    assert |run.turns| == 1;
    QuietTurnEnds(run.turns, late, run.Modes(), false);
  }
}
