/** packages/agent/src/agent.ts: the stateful wrapper that allows one run at a time, hands the loop its
    queues, and keeps the transcript it rebuilds from the loop's events. */
module StatefulAgent {
  import opened Options
  import opened AgentMessages
  import opened AgentEvents
  import opened AgentState
  import Loop = AgentLoop

  /** How a call ends. A run is still going when its environment script is used up. */
  datatype Outcome = AlreadyProcessing | NoMessages | NothingQueued | Completed | StillRunning {
    predicate Refused() { AlreadyProcessing? || NoMessages? || NothingQueued? }
  }

  class Agent {
    const state: AgentState
    const steeringQueue: PendingMessageQueue
    const followUpQueue: PendingMessageQueue
    var activeRun: bool
    var isStreaming: bool

    ghost predicate Valid()
      reads this, state, steeringQueue, followUpQueue
    {
      && steeringQueue != followUpQueue && steeringQueue.Valid() && followUpQueue.Valid()
      && isStreaming == activeRun
      && (!activeRun ==> state.streamingMessage == None && state.pendingToolCalls == {})
    }

    constructor (initial: seq<Message>, steeringMode: QueueMode, followUpMode: QueueMode)
      ensures Valid() && !activeRun && state.messages == initial
      ensures steeringQueue.messages == followUpQueue.messages == []
      ensures fresh(state) && fresh(steeringQueue) && fresh(followUpQueue)
    {
      state := new AgentState(initial);
      steeringQueue := new PendingMessageQueue(steeringMode);
      followUpQueue := new PendingMessageQueue(followUpMode);
      activeRun, isStreaming := false, false;
    }

    method Steer(message: Message)
      requires Valid()
      modifies steeringQueue
      ensures Valid() && steeringQueue.messages == old(steeringQueue.messages) + [message]
    {
      steeringQueue.Enqueue(message);
    }

    method FollowUp(message: Message)
      requires Valid()
      modifies followUpQueue
      ensures Valid() && followUpQueue.messages == old(followUpQueue.messages) + [message]
    {
      followUpQueue.Enqueue(message);
    }

    method Reset() returns (outcome: Outcome)
      requires Valid()
      modifies state, steeringQueue, followUpQueue
      ensures Valid() && outcome == if activeRun then AlreadyProcessing else Completed
      ensures activeRun ==> unchanged(state) && unchanged(steeringQueue) && unchanged(followUpQueue)
      ensures !activeRun ==>
                state.View() == AgentView([], None, {}, None) && steeringQueue.messages == followUpQueue.messages == []
    {
      if activeRun { return AlreadyProcessing; }
      state.Reset();
      followUpQueue.Clear();
      steeringQueue.Clear();
      outcome := Completed;
    }

    ghost function Modes(): (QueueMode, QueueMode)
      reads steeringQueue, followUpQueue
    {
      (steeringQueue.mode, followUpQueue.mode)
    }

    /** What the queues hold, with these messages added before the run looks at them. */
    ghost function Held(arrivals: seq<Message>): Loop.Queued
      reads steeringQueue, followUpQueue
    {
      Loop.Queued(steeringQueue.messages + arrivals, followUpQueue.messages)
    }

    /** A run that started from this transcript has ended: the agent is idle, its transcript is the old
        one plus the new messages of the run, and since the given points every message that left a queue
        is one of these, in order. */
    ghost predicate Ran(run: Loop.AgentLoop, transcript: seq<Message>, steered: seq<Message>, followedUp: seq<Message>)
      reads this, state, steeringQueue, followUpQueue, run
    {
      && Valid() && !activeRun
      && run.state == state && run.steeringQueue == steeringQueue && run.followUpQueue == followUpQueue
      && run.Over() && run.Consistent() && run.initial == transcript
      && state.messages == transcript + run.newMessages
      && steeringQueue.enqueued ==
           steered + Loop.Select(run.newMessages, run.sources, Loop.Steering) + steeringQueue.messages
      && followUpQueue.enqueued ==
           followedUp + Loop.Select(run.newMessages, run.sources, Loop.FollowUp) + followUpQueue.messages
    }

    /** The agent's own transcript stays well-paired from run to run, unless a run was cut short while
        its last message asked for tools: exactly then it does not. */
    lemma TranscriptPaired(run: Loop.AgentLoop, transcript: seq<Message>, steered: seq<Message>, followedUp: seq<Message>)
      requires Ran(run, transcript, steered, followedUp) && Loop.Unhooked(run.turns)
      requires WellPaired(transcript) && AllStandalone(run.given) && Loop.KeepsPairing(run.turns)
      ensures var final := run.turns[|run.turns| - 1].final;
              WellPaired(state.messages) <==> !(Halts(final) && CallsOf(final) != [])
    {
      run.OverIsPaired(0);
    }

    method BeginRun()
      requires Valid() && !activeRun
      modifies this, state
      ensures Valid() && activeRun && state.View() == AgentView(old(state.messages), None, {}, None)
    {
      activeRun, isStreaming := true, true;
      state.BeginRun();
    }

    method FinishRun(ghost run: Loop.AgentLoop)
      requires activeRun && run.state == state && run.steeringQueue == steeringQueue && run.followUpQueue == followUpQueue
      requires run.Over() && run.Consistent() && run.start.messages == run.initial
      modifies this, state
      ensures Ran(run, run.initial, run.steeringBase, run.followUpBase)
    {
      hide Loop.AgentLoop.Transcript, Loop.AgentLoop.Queues, Loop.Select, Reads, Complete, MessageEnds;
      run.OverConservesQueues();
      run.OverHasTurns();
      isStreaming := false;
      state.FinishRun();
      activeRun := false;
    }

    /** The loop for a run that starts now, with these messages already taken for it. */
    method CreateLoop(ghost held: seq<Message>, ghost source: Loop.Source, skipInitialSteeringPoll: bool,
                      ghost steered: seq<Message>, ghost followedUp: seq<Message>)
      returns (run: Loop.AgentLoop)
      requires Valid() && activeRun && state.pendingToolCalls == {} && state.streamingMessage == None
      requires source != Loop.Model && source != Loop.Tool
      requires steeringQueue.drained == steered + Loop.Plus([], source, Loop.Steering, held)
      requires followUpQueue.drained == followedUp + Loop.Plus([], source, Loop.FollowUp, held)
      ensures fresh(run) && run.Unstarted(held, source) && run.start.messages == run.initial == state.messages
      ensures run.state == state && run.steeringQueue == steeringQueue && run.followUpQueue == followUpQueue
      ensures run.steeringBase == steered && run.followUpBase == followedUp
      ensures run.skipInitialSteeringPoll == skipInitialSteeringPoll
    {
      run := new Loop.AgentLoop(state, steeringQueue, followUpQueue, state.messages, skipInitialSteeringPoll,
                                steered, followedUp);
    }

    lemma RunOpens(run: Loop.AgentLoop, arrivals: seq<Message>)
      requires run.steeringQueue == steeringQueue && run.followUpQueue == followUpQueue
      ensures run.Modes() == Modes()
      ensures run.Opening(arrivals) == Loop.Open(Held(arrivals), run.skipInitialSteeringPoll, steeringQueue.mode)
    {
      assert run.InQueues().Plus(Loop.Queued(arrivals, [])) == Held(arrivals);
    }

    /** A run with messages of the caller or of a queue. */
    method RunPromptMessages(messages: seq<Message>, ghost source: Loop.Source, skipInitialSteeringPoll: bool,
                             ghost steered: seq<Message>, ghost followedUp: seq<Message>,
                             initialSteering: seq<Message>, env: seq<Loop.TurnEnv>)
      returns (outcome: Outcome, run: Loop.AgentLoop)
      requires Valid() && !activeRun && source != Loop.Model && source != Loop.Tool
      requires steeringQueue.drained == steered + Loop.Plus([], source, Loop.Steering, messages)
      requires followUpQueue.drained == followedUp + Loop.Plus([], source, Loop.FollowUp, messages)
      requires forall i :: 0 <= i < |env| ==> Loop.Starts(env[i].stream) <= 1
      modifies this, state, steeringQueue, followUpQueue
      ensures outcome == Completed || outcome == StillRunning
      ensures outcome == Completed ==>
                Ran(run, old(state.messages), steered, followedUp) && run.given == messages && Loop.Played(run.turns, env)
                && run.turns != [] && run.EndsFor(env[|run.turns| - 1])
      ensures old(Modes()) == Modes()
              && Loop.Directed(run.turns, env, Modes(),
                               Loop.Open(old(Held(initialSteering)), skipInitialSteeringPoll, old(steeringQueue.mode)))
      ensures outcome == StillRunning ==> activeRun && |run.turns| == |env|
    {
      hide Loop.AgentLoop.Over, Loop.AgentLoop.Consistent, Loop.AgentLoop.Valid, Loop.AgentLoop.Transcript,
           Loop.AgentLoop.Queues, Loop.AgentLoop.EndsFor, Loop.AgentLoop.Opening, Loop.Starts, Loop.Played, Loop.Directed,
           Loop.Due, Loop.Open, Ran;
      BeginRun();
      run := CreateLoop(messages, source, skipInitialSteeringPoll, steered, followedUp);
      RunOpens(run, initialSteering);
      var completed := run.RunAgentLoop(messages, source, initialSteering, env);
      if !completed { return StillRunning, run; }
      run.OverHasTurns();
      FinishRun(run);
      outcome := Completed;
    }

    /** A run that answers the transcript as it stands. */
    method RunContinuation(initialSteering: seq<Message>, env: seq<Loop.TurnEnv>)
      returns (outcome: Outcome, run: Loop.AgentLoop)
      requires Valid() && !activeRun
      requires state.messages != [] && !state.messages[|state.messages| - 1].Assistant?
      requires forall i :: 0 <= i < |env| ==> Loop.Starts(env[i].stream) <= 1
      modifies this, state, steeringQueue, followUpQueue
      ensures outcome == Completed || outcome == StillRunning
      ensures outcome == Completed ==>
                Ran(run, old(state.messages), old(steeringQueue.drained), old(followUpQueue.drained))
                && run.given == [] && Loop.Played(run.turns, env)
                && run.turns != [] && run.EndsFor(env[|run.turns| - 1])
      ensures old(Modes()) == Modes()
              && Loop.Directed(run.turns, env, Modes(),
                               Loop.Open(old(Held(initialSteering)), false, old(steeringQueue.mode)))
      ensures outcome == StillRunning ==> activeRun && |run.turns| == |env|
    {
      hide Loop.AgentLoop.Over, Loop.AgentLoop.Consistent, Loop.AgentLoop.Valid, Loop.AgentLoop.Transcript,
           Loop.AgentLoop.Queues, Loop.AgentLoop.EndsFor, Loop.AgentLoop.Opening, Loop.Starts, Loop.Played, Loop.Directed,
           Loop.Due, Loop.Open, Ran;
      BeginRun();
      run := CreateLoop([], Loop.Prompt, false, steeringQueue.drained, followUpQueue.drained);
      RunOpens(run, initialSteering);
      var _, completed := run.RunAgentLoopContinue(initialSteering, env);
      if !completed { return StillRunning, run; }
      run.OverHasTurns();
      FinishRun(run);
      outcome := Completed;
    }

    /** The first request of a run that does not skip its first look at the steering queue is made with what
        that queue hands out. */
    ghost predicate LooksFirst(run: Loop.AgentLoop, steering: seq<Message>, mode: QueueMode)
      reads run
    {
      run.turns != [] && HandsOut(steering, run.turns[0].pending, run.turns[0].queued.steering, mode)
    }

    lemma FirstLook(run: Loop.AgentLoop, env: seq<Loop.TurnEnv>, modes: (QueueMode, QueueMode), queued: Loop.Queued, skip: bool)
      requires Loop.Directed(run.turns, env, modes, Loop.Open(queued, skip, modes.0)) && run.turns != []
      ensures skip ==> run.turns[0].pending == []
      ensures !skip ==> LooksFirst(run, queued.steering, modes.0)
    {
      Loop.OneMessageATurn(run.turns, env, modes, queued, skip, 0);
    }

    method Prompt(messages: seq<Message>, initialSteering: seq<Message>, env: seq<Loop.TurnEnv>)
      returns (outcome: Outcome, run: Loop.AgentLoop?)
      requires Valid()
      requires forall i :: 0 <= i < |env| ==> Loop.Starts(env[i].stream) <= 1
      modifies this, state, steeringQueue, followUpQueue
      ensures outcome == AlreadyProcessing <==> old(activeRun)
      ensures outcome.Refused() ==> unchanged(this) && unchanged(state) && unchanged(steeringQueue) && unchanged(followUpQueue)
      ensures outcome == Completed ==>
                run != null && run.given == messages && Loop.Played(run.turns, env)
                && run.turns != [] && run.EndsFor(env[|run.turns| - 1])
                && Ran(run, old(state.messages), old(steeringQueue.drained), old(followUpQueue.drained))
                && LooksFirst(run, old(steeringQueue.messages) + initialSteering, old(steeringQueue.mode))
    {
      hide Loop.AgentLoop.Over, Loop.AgentLoop.Consistent, Loop.AgentLoop.Valid, Loop.AgentLoop.Transcript,
           Loop.AgentLoop.Unstarted, Loop.AgentLoop.EndsFor, Loop.Starts, Ran, Loop.Directed, Loop.Open;
      if activeRun { return AlreadyProcessing, null; }
      ghost var held, modes := Held(initialSteering), Modes();
      outcome, run := RunPromptMessages(messages, Loop.Prompt, false, steeringQueue.drained, followUpQueue.drained,
                                        initialSteering, env);
      if outcome == Completed { FirstLook(run, env, modes, held, false); }
    }

    /** What continue starts a run with: queued messages if the agent spoke last, steering ones first. */
    ghost function Taken(): seq<Message>
      reads this, state, steeringQueue, followUpQueue
      requires state.messages != []
    {
      if !state.messages[|state.messages| - 1].Assistant? then []
      else if steeringQueue.messages != [] then NextBatch(steeringQueue.messages, steeringQueue.mode)
      else NextBatch(followUpQueue.messages, followUpQueue.mode)
    }

    /** A run with what is queued, steering messages first; a run that starts with these does not look for
        more of them before its first request. */
    method RunQueued(initialSteering: seq<Message>, env: seq<Loop.TurnEnv>)
      returns (outcome: Outcome, run: Loop.AgentLoop?)
      requires Valid() && !activeRun && state.messages != [] && state.messages[|state.messages| - 1].Assistant?
      requires forall i :: 0 <= i < |env| ==> Loop.Starts(env[i].stream) <= 1
      modifies this, state, steeringQueue, followUpQueue
      ensures outcome == Completed || outcome == StillRunning || outcome == NothingQueued
      ensures outcome == NothingQueued <==> old(steeringQueue.messages) == old(followUpQueue.messages) == []
      ensures outcome == NothingQueued ==> Valid() && unchanged(this) && unchanged(state)
      ensures outcome == NothingQueued ==> steeringQueue.messages == followUpQueue.messages == []
      ensures outcome == Completed ==>
                run != null && run.given == old(Taken()) && Loop.Played(run.turns, env)
                && run.turns != [] && run.EndsFor(env[|run.turns| - 1])
                && Ran(run, old(state.messages), old(steeringQueue.drained), old(followUpQueue.drained))
                && if old(steeringQueue.messages) != [] then run.turns[0].pending == []
                   else LooksFirst(run, initialSteering, old(steeringQueue.mode))
    {
      hide Loop.AgentLoop.Over, Loop.AgentLoop.Consistent, Loop.AgentLoop.Valid, Loop.AgentLoop.Transcript,
           Loop.AgentLoop.Unstarted, Loop.AgentLoop.EndsFor, Loop.Starts, Ran, Loop.Directed, Loop.Open;
      run := null;
      ghost var modes := Modes();
      ghost var steered, followedUp := steeringQueue.drained, followUpQueue.drained;
      var queuedSteering := steeringQueue.Drain();
      if |queuedSteering| > 0 {
        ghost var held := Held(initialSteering);
        outcome, run := RunPromptMessages(queuedSteering, Loop.Steering, true, steered, followedUp, initialSteering, env);
        if outcome == Completed { FirstLook(run, env, modes, held, true); }
        return;
      }
      var queuedFollowUps := followUpQueue.Drain();
      if |queuedFollowUps| > 0 {
        ghost var held := Held(initialSteering);
        assert held.steering == initialSteering;
        outcome, run := RunPromptMessages(queuedFollowUps, Loop.FollowUp, false, steered, followedUp, initialSteering, env);
        if outcome == Completed { FirstLook(run, env, modes, held, false); }
        return;
      }
      return NothingQueued, run;
    }

    method Continue(initialSteering: seq<Message>, env: seq<Loop.TurnEnv>)
      returns (outcome: Outcome, run: Loop.AgentLoop?)
      requires Valid()
      requires forall i :: 0 <= i < |env| ==> Loop.Starts(env[i].stream) <= 1
      modifies this, state, steeringQueue, followUpQueue
      ensures outcome == AlreadyProcessing <==> old(activeRun)
      ensures outcome == NoMessages <==> !old(activeRun) && old(state.messages) == []
      ensures outcome == NothingQueued <==>
                !old(activeRun) && old(state.messages) != [] && old(state.messages[|state.messages| - 1]).Assistant?
                && old(steeringQueue.messages) == old(followUpQueue.messages) == []
      ensures outcome.Refused() ==> Valid() && unchanged(this) && unchanged(state)
      ensures outcome.Refused() ==> steeringQueue.messages == old(steeringQueue.messages)
                                    && followUpQueue.messages == old(followUpQueue.messages)
      ensures outcome == Completed ==>
                run != null && run.given == old(Taken()) && Loop.Played(run.turns, env)
                && run.turns != [] && run.EndsFor(env[|run.turns| - 1])
                && Ran(run, old(state.messages), old(steeringQueue.drained), old(followUpQueue.drained))
      ensures outcome == Completed ==>
                if old(state.messages[|state.messages| - 1]).Assistant? && old(steeringQueue.messages) != [] then
                  run.turns[0].pending == []
                else LooksFirst(run, old(steeringQueue.messages) + initialSteering, old(steeringQueue.mode))
    {
      hide Loop.AgentLoop.Over, Loop.AgentLoop.Consistent, Loop.AgentLoop.Valid, Loop.AgentLoop.Transcript,
           Loop.AgentLoop.Unstarted, Loop.AgentLoop.EndsFor, Loop.Starts, Ran, Valid, Loop.Directed, Loop.Open;
      run := null;
      if activeRun { return AlreadyProcessing, run; }
      if |state.messages| == 0 { return NoMessages, run; }
      ghost var held, modes := Held(initialSteering), Modes();
      if state.messages[|state.messages| - 1].Assistant? {
        assert [] + initialSteering == initialSteering;
        outcome, run := RunQueued(initialSteering, env);
        return;
      }
      outcome, run := RunContinuation(initialSteering, env);
      if outcome == Completed { FirstLook(run, env, modes, held, false); }
    }
  }
}
