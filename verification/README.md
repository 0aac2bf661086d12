# A verified model of the theoses agent, client and server cores

This project models the parts of theoses that keep state over time, and proves what they promise over
every run. Each module follows one or two source files.

| modules | what they model |
|---|---|
| `AgentMessages`, `AgentEvents` | the transcript and what it means that tool calls are answered; the event trace as a grammar defined apart from the loop; the agent's state as a fold over the same trace |
| `ToolBatch`, `AgentState`, `AgentLoop`, `StatefulAgent` | one batch of tool calls as a function of its calls; the two message queues; the turn loop with its sequential, parallel and truncated batches; the stateful agent around it |
| `FrameSpec`, `Framing`, `MessageDecoder` | the frame format as a parse of byte sequences; the decoder over arrays and blocks; the validating decoder on top |
| `SessionLeases`, `LeaseEffects`, `TheosesClient` | the lease protocol of one session as a state machine; what each of its steps is for; the client's maps that carry one such machine per session |
| `Publication`, `PublicationEffects`, `ModelsImpl` | refresh generations and the publication chain of one provider; when updates run and catalogs are stored; the registry's maps, and the merge of baseline and dynamic models |
| `ConnectionSpec`, `ConnectionEffects`, `Connection` | the client's connection with late transports and callbacks that call back: its steps as functions of a state; what ends a connection and what leaves it alone; the class that performs the steps |
| `Snapshots`, `SnapshotEffects`, `SnapshotServer` | numbered server snapshots, handshakes that race them, and the client's revision guard; which numbers a connection is sent, and when |
| `Rotation`, `Packing`, `ToolUse`, `ProtocolValues`, `EnvFile` | the eval rotation, the transcript packer, the redundancy counters, the traversals of object graphs, the settings file |

Code that updates fields is modelled by classes with those fields whose methods are proved against a
specification function or step function; what the specification promises is then proved as lemmas.
Asynchronous code is cut at its waits into pieces that run without interruption, and the pieces are
interleaved in every order. The environment (provider, tools, hooks, transports, store, service, and the
moments at which the abort signal fires and messages are queued) is an arbitrary script, so statements are
about every behaviour of it but those named under "Left out".

## Main results

- For every schedule of concurrent tools and every moment of an abort, a batch has one result per call,
  in source order, and the same results as any other execution of it. In every trace each turn that ended
  by itself has dealt with each of its calls by one start, then its updates, then exactly one end.
- Once the abort signal has fired, no later turn of the run executes a tool, whether that was while an
  answer streamed, while a call was prepared or ran, while tools ran side by side, during a truncated
  message or between turns; and no later call of the same batch is prepared.
- Why a run ends, exactly, and what it leaves in the queues: what has arrived after their last polls. A
  message that arrives while the stop check is awaited is left behind by a run that ends by itself.
- Every complete run is in the event grammar; its new messages, its context and the agent's own
  transcript agree; nothing is pending at its end. Requests are well-paired if the first context is.
- Which tools run, from the script of a run alone: exactly those of whole answers that are there, with valid
  arguments, let through by their hook, and looked at before the signal fires. What the model is told of
  each is the tool's output, its exception, or the reason of the refusal.
- Both queues are conserved: what was enqueued is what was injected, then what is still queued. Each turn
  injects what its predecessor has left, steering messages first, and one message at a time in that mode.
- The array decoder is the parse of the bytes, under every chunking; encoding and decoding are inverse.
- Leases are counted exactly, exclusive ones are alone, and no lease is active during a clean-up. The
  three hypotheses on the environment are necessary as well as sufficient for the invariant; a race for
  each shows what happens without it. Every step's effect is exact: an acquisition is granted, waits or
  fails on stated conditions, and a confirmed detach frees the session for whoever comes next.
- Publications are serial and monotone, and no update of a superseded refresh ever runs. An undisturbed
  refresh has none of its publications refused, and an update runs exactly while its refresh is current.
- A connection's promises are settled once, its states follow the grammar, and no transport is lost,
  with callbacks nesting to any depth. Which calls and events end a connection is said exactly; all others
  leave it as it was.
- No numbered broadcast is lost unless the service fails during it while a recipient is connected, and
  the next one makes up for it; a run shows the loss.
- Whether a message decoder fails depends on the bytes alone; which messages it delivers before that
  depends on the chunks exactly if there is a fault with a message before it.

## Where the code does less than its documentation, or its look, promises

- `packages/client/src/client.ts:242-243` and `:172-174` give leases back without looking at the
  generation. `RemovedKeepsIff` says exactly when that is harmless and `RemovalRace` shows a harmful run.
- The client README promises that server removal or disconnection invalidates every lease of the
  attachment; `DisconnectRace` shows a lease that is created after the disconnection.
- `packages/client/src/connection.ts:155-158` rechecks only whether the connection is down. If a callback
  has replaced it, what is left of the chunk ends the new connection: `LeftoverRace` is such a run,
  `LeftoverEndsIff` says exactly when for every script, and `ScriptEndsIff` reads it off the script.
- `packages/agent/src/agent-loop.ts:259-278` polls each queue once before a run ends by itself and then
  awaits the stop check, so a message may be left in a queue: `LeavesMessage` is such a run, and
  `LeavesNothingIff` gives the exact condition.
- `packages/dashboard/src/telegram-config.ts:59` trims a token from the input but not one from the
  environment, and neither is checked for line breaks; `SavedParsesIff` says exactly which tokens survive,
  `SpacedToken` and `PlantedAdmin` show two that do not.
- `packages/protocol/src/codec.ts:105-111` drops the messages of a chunk that precede a fault in it, so
  which messages are delivered before a failure depends on the chunking; `DeliveryIgnoresChunksIff` says
  exactly when, and `OneChunk` and `CutAfterLeading` are the two chunkings that differ.
- `packages/client/src/client.ts:140-144` leases a created session at once; `CreateRace` shows one under an
  id that is still due for a clean-up.

## Model

| member | source | states |
|---|---|---|
| `AgentMessages.WellPairedConcat` | packages/agent/src/agent-loop.ts:174-260 | appending to a well-paired transcript keeps it well-paired if and only if what is appended is well-paired by itself |
| `AgentMessages.BlockWellPaired` | packages/agent/src/agent-loop.ts:559-573 | an assistant message followed by the results of all its calls, in order, is well-paired |
| `AgentMessages.StandalonePaired` | packages/agent/src/agent-loop.ts:181-190 | messages that ask for no tools and are no results are well-paired |
| `AgentMessages.CallsInOrder` | packages/agent/src/agent-loop.ts:424-424 | the calls of a message are those of its blocks, in order, and other blocks are none |
| `AgentEvents.ReadsIsRun` | packages/agent/src/agent.ts:548-586 | the states the grammar and the agent pass through while a trace is emitted end where reading the trace ends |
| `AgentEvents.WellFormedPrefix` | packages/agent/src/agent-loop.ts:109-113 | every beginning of a trace in the grammar is in the grammar |
| `AgentEvents.EndedIsMessageEnds` | packages/agent/src/agent-loop.ts:181-195 | the messages the grammar has seen end are exactly the message_end events of the trace, in order |
| `AgentEvents.BracketsAlternate` | packages/agent/src/agent-loop.ts:174-224 | turn_start and turn_end alternate in every trace of the grammar, and the last one tells whether a turn is open |
| `AgentEvents.FirstAndLast` | packages/agent/src/agent-loop.ts:109-110 | a trace of the grammar begins with agent_start and has no second one, and agent_end can only be its last event |
| `AgentEvents.CompleteShape` | packages/agent/src/agent-loop.ts:95-281 | a complete trace is one agent_start, one or more turns each closed, and one final agent_end that lists exactly the messages that ended |
| `AgentEvents.CallHistory` | packages/agent/src/agent-loop.ts:174-222 | in every trace of the grammar, whatever is interleaved: a turn that has ended and was not cut short has dealt with each call of its message by one start, then its updates, then exactly one end, and lists the results in the order of the calls; a turn that was cut short has touched none |
| `AgentEvents.TurnHistory` | packages/agent/src/agent-loop.ts:387-579 | at every moment of a turn the tool events of each call are exactly those that lead it to the state it is in: none, a start and updates, or a start, updates and one end |
| `AgentEvents.RunConcat` | packages/agent/src/agent-loop.ts:109-113 | reading a trace can stop after any part of it and go on with the rest |
| `AgentEvents.RunSettled` | packages/agent/src/agent-loop.ts:559-573 | in every trace of the grammar each result reported so far is the result message of its call's announced outcome, in source order |
| `AgentEvents.ReduceMessages` | packages/agent/src/agent.ts:559-562 | the transcript rebuilt from events is the old transcript followed by the message_end messages |
| `AgentEvents.ReduceTracksRun` | packages/agent/src/agent.ts:548-586 | after every trace of the grammar the agent's transcript is the old one plus the ended messages, a message is marked as streaming exactly while it is open, and pendingToolCalls holds only ids of running calls and is empty at every turn_end |
| `AgentEvents.PendingIff` | packages/agent/src/agent.ts:563-575 | after any events at all an id is in pendingToolCalls exactly if a call with it has been started that has not ended since, or it was there to begin with and has not ended |
| `AgentEvents.ErrorIs` | packages/agent/src/agent.ts:577-581 | the agent's error is that of the last turn that ended with one, and what it was before if none did |
| `ToolBatch.PrepareToolCall` | packages/agent/src/agent-loop.ts:625-693 | a call is let through exactly if its tool is there, its arguments are valid, the signal has not fired by the end of the preparation, and the hook before it neither throws nor blocks; otherwise its outcome is immediate and an error |
| `ToolBatch.RefusalSays` | packages/agent/src/agent-loop.ts:632-693 | what each refusal says: the missing tool by name, the error of the arguments or of the hook, that the operation was aborted, or the reason of the hook that blocks, with a text of its own if that has none; only a hook that blocks can ask for the run to stop, and exactly if it says so |
| `ToolBatch.UnhookedSays` | packages/agent/src/agent-loop.ts:695-783 | without a hook after it a tool's output is the result as it is and no error, and what it throws is an error with that text |
| `ToolBatch.HookSays` | packages/agent/src/agent-loop.ts:749-777 | a hook that returns overrides changes exactly the fields it gives and leaves the others as they were without it; one that throws makes the outcome an error with its text |
| `ToolBatch.FinalizeToolCall` | packages/agent/src/agent-loop.ts:738-783 | whatever the tool and the hook after it do, the outcome is that of this call |
| `ToolBatch.ReportedBatch` | packages/agent/src/agent-loop.ts:607-609 | result messages in the order of the outcomes are the answers to the batch, and the batch ends the run exactly if every outcome asks for it |
| `ToolBatch.ResultsAnswerCalls` | packages/agent/src/agent-loop.ts:505-579 | a batch has exactly one result per call, in source order with matching ids and names, and any two executions of it report the same results |
| `ToolBatch.AbortStopsExecution` | packages/agent/src/agent-loop.ts:485-557 | once the signal fires at a call, before, during or after it, every later call of the batch is reported as aborted without being prepared |
| `ToolBatch.AbortPersists` | packages/agent/src/agent-loop.ts:485-496 | an abort seen at one call is seen at all later ones |
| `ToolBatch.FiredByIff` | packages/agent/src/agent-loop.ts:485-557 | the moments that count, exactly: a batch leaves the signal fired if and only if it had fired before, fires at one of the calls that are looked at, or fires while tools run side by side or later |
| `ToolBatch.CallComesTo` | packages/agent/src/agent-loop.ts:505-557 | in every batch the outcome of a call is that of its execution exactly if the message is whole, no signal has fired by then, and tool, arguments and hook permit it; otherwise it is an error, with the reason of the hook if that blocks it |
| `ToolBatch.ResultComesTo` | packages/agent/src/agent-loop.ts:815-829 | and that is what the model is told: the output of a tool that was executed, field by field, its exception as an error, or the reason it was blocked for |
| `ToolBatch.TerminatesIff` | packages/agent/src/agent-loop.ts:607-609 | a batch ends the run exactly if there are calls and each asks for it: by the tool's output, by the hook after it, or by the hook that blocks it |
| `ToolBatch.SkippedBatchContinues` | packages/agent/src/agent-loop.ts:411-411 | a batch with a skipped call, and a truncated one, never ends the run |
| `ToolBatch.AbortedBatchFires` | packages/agent/src/agent-loop.ts:485-557 | a signal that has fired before a batch is still seen after it |
| `ToolBatch.FiredBatchExecutesNothing` | packages/agent/src/agent-loop.ts:673-679 | in a batch that starts after the signal has fired no tool is executed |
| `AgentState.PendingMessageQueue.Enqueue` | packages/agent/src/agent.ts:134-136 | appends the message and records it as enqueued |
| `AgentState.PendingMessageQueue.Drain` | packages/agent/src/agent.ts:142-155 | with mode one-at-a-time exactly one message leaves, unless there is none, and with mode all nothing is left; what leaves are the first messages, in order, and enqueued stays drained plus queued |
| `AgentState.PendingMessageQueue.Clear` | packages/agent/src/agent.ts:157-159 | leaves the queue empty and its account closed |
| `AgentState.AgentState.ProcessEvent` | packages/agent/src/agent.ts:548-579 | the new runtime state is the reduction of the old one by the event |
| `AgentLoop.StreamContextShape` | packages/agent/src/agent-loop.ts:320-377 | what the context looks like after any stream: everything before the started message is untouched, the last message is the final one, and each further start leaves one stray message |
| `AgentLoop.StreamAppendsFinalIff` | packages/agent/src/agent-loop.ts:320-377 | the context grows by exactly the final message if and only if the provider starts at most one message per stream |
| `AgentLoop.StreamTraceShape` | packages/agent/src/agent-loop.ts:320-377 | what a stream looks like from outside: deltas before a start are not reported, the start is, each delta after it is, in order, and the final message ends it; without a start there is only the final message |
| `AgentLoop.UpdatesIff` | packages/agent/src/agent-loop.ts:695-736 | a call that is dealt with on its own sends its updates exactly if it is executed: one that is blocked, refused or skipped sends none |
| `AgentLoop.TakesSend` | packages/agent/src/agent-loop.ts:695-736 | what a call still sends follows from each micro-step: an update is sent while the tool runs and dropped once it has returned |
| `AgentLoop.SideBySideIff` | packages/agent/src/agent-loop.ts:425-431 | calls run side by side exactly if the answer was not cut off by the token limit, the configuration does not say sequential, and no registered tool asked for does |
| `AgentLoop.SelectAppend` | packages/agent/src/agent-loop.ts:181-190 | adding a message of one source changes the selection of that source only |
| `AgentLoop.SelectUniform` | packages/agent/src/agent-loop.ts:103-107 | messages that all have one source are selected whole by it and not at all by the others |
| `AgentLoop.PreparedPromises` | packages/agent/src/agent-loop.ts:524-556 | a started call already has, or will have, the outcome the batch assigns to it |
| `AgentLoop.SettledOutcomes` | packages/agent/src/agent-loop.ts:559-561 | once all tasks have settled their outcomes are those of the batch |
| `AgentLoop.RecordTurn` | packages/agent/src/agent-loop.ts:192-224 | a finished turn extends the record of the run: its request, the messages it added, the context it left, why it was taken, and what it saw of the signal |
| `AgentLoop.HookTurn` | packages/agent/src/agent-loop.ts:232-245 | a context replaced between turns is what the next turn finds |
| `AgentLoop.TurnAccounts` | packages/agent/src/agent-loop.ts:192-224 | context, new messages and requests stay accounted for by the turns taken and by the messages given at the start |
| `AgentLoop.HookAccounts` | packages/agent/src/agent-loop.ts:232-245 | when a hook replaces the context, later new messages are accounted for as following that one |
| `AgentLoop.StaysFired` | packages/agent/src/agent-loop.ts:485-557 | once the signal has fired by the end of a turn, also while its tools ran side by side or after a truncated message, every later batch starts with it |
| `AgentLoop.AbortedIff` | packages/agent/src/agent-loop.ts:174-259 | a turn finds the signal fired if and only if it fired at some moment of an earlier turn or fires in this turn before its tools are looked at |
| `AgentLoop.NothingRunsAfterAbort` | packages/agent/src/agent-loop.ts:174-259 | once the signal has fired, while an answer streams, while a call is prepared or runs, while tools run side by side, during a truncated message or between turns, no later turn of the run executes a tool, and neither does the turn itself if that was before its tools |
| `AgentLoop.ExecutesIff` | packages/agent/src/agent-loop.ts:174-224 | in every run, from the script alone: a tool is executed exactly if the answer was not cut off, the signal has fired neither in an earlier turn nor in this one before the call is looked at, and tool, arguments and hook permit it |
| `AgentLoop.ModelIsTold` | packages/agent/src/agent-loop.ts:204-222 | in every run the result message of such a call holds the tool's output or exception, and that of a call its hook blocks is an error with the hook's reason |
| `AgentLoop.ContinuesIff` | packages/agent/src/agent-loop.ts:204-222 | tools ask for another request exactly if the turn was not cut short and one of its calls does not ask to stop |
| `AgentLoop.EndsIff` | packages/agent/src/agent-loop.ts:259-278 | a run ends by itself if and only if no tool asks for another turn, each queue is empty when it is polled last, and the stop check adds nothing; what is then left in a queue has arrived after its last poll |
| `AgentLoop.DecideSays` | packages/agent/src/agent-loop.ts:254-278 | what is injected next, exactly: steering messages while tools ask on or any are queued, by the queue's mode; else follow-ups, by their queue's mode; else those of the stop check; the rest stays queued |
| `AgentLoop.TurnInjects` | packages/agent/src/agent-loop.ts:174-278 | every turn of a run injects what its predecessor has left in the queues, in that order of sources, and follows a turn that was neither cut short nor stopped by a hook |
| `AgentLoop.OneMessageATurn` | packages/agent/src/agent.ts:142-155 | in every run with one-at-a-time queues each turn injects at most one steering message, or exactly one follow-up; with mode all nothing of the queue is left; and a run that skips its first poll injects nothing in its first turn |
| `AgentLoop.LeavesNothingIff` | packages/agent/src/agent-loop.ts:259-281 | such a run leaves both queues empty if and only if nothing arrives after a queue's last poll |
| `AgentLoop.LeavesMessage` | packages/agent/src/agent-loop.ts:259-281 | a whole run, from an empty agent, that ends by itself and leaves a steering message in its queue, since it arrives while the stop check is awaited |
| `AgentLoop.RecordPairs` | packages/agent/src/agent-loop.ts:192-222 | a turn that was not cut short turns a well-paired context into a well-paired one, and the request it makes is well-paired |
| `AgentLoop.ContextPaired` | packages/agent/src/agent-loop.ts:174-260 | every turn of a run finds a well-paired context if the first one does and hooks and queued messages keep pairing |
| `AgentLoop.RunPairs` | packages/agent/src/agent-loop.ts:174-260 | if the first context is well-paired and hooks and queued messages keep pairing, every request of the run is well-paired, and a turn leaves a well-paired context exactly unless it was cut short while its message asked for tools |
| `AgentLoop.AgentLoop.Emit` | packages/agent/src/agent-loop.ts:109-113 | an event is emitted only if the grammar allows it, and the agent's state follows |
| `AgentLoop.AgentLoop.DoneReports` | packages/agent/src/agent-loop.ts:574-578 | the grammar alone guarantees that the results reported for a batch are those of its outcomes |
| `AgentLoop.AgentLoop.EmitUpdates` | packages/agent/src/agent-loop.ts:708-721 | the updates a tool sends are emitted, all of them and in order |
| `AgentLoop.AgentLoop.FailToolCallsFromTruncatedMessage` | packages/agent/src/agent-loop.ts:387-412 | the exact events: every call of a truncated message is started, ended with an error and reported before the next one, in order; none is executed and none sends updates |
| `AgentLoop.AgentLoop.RunCall` | packages/agent/src/agent-loop.ts:451-485 | the exact events of one call of a sequential batch, start, updates, end and reported result, with the outcome the batch assigns to it and the abort state after it |
| `AgentLoop.AgentLoop.ExecuteToolCallsSequential` | packages/agent/src/agent-loop.ts:439-503 | the outcomes are those of the batch, and the exact events are those of one call after the other: start, updates if it is executed, end, reported result |
| `AgentLoop.AgentLoop.SkipRemaining` | packages/agent/src/agent-loop.ts:485-496 | after an abort the exact events of the remaining calls are start, end as aborted and report, one call after the other and without updates |
| `AgentLoop.AgentLoop.PrepareAll` | packages/agent/src/agent-loop.ts:516-557 | calls are started and prepared in source order until the signal fires; what is not started comes after an abort; and those that are left running are exactly those the environment lets be executed |
| `AgentLoop.AgentLoop.Interleave` | packages/agent/src/agent-loop.ts:695-736 | any micro-step of any task, and an abort, keeps the trace in the grammar and the promised outcomes; an update is emitted exactly if its tool has not returned; the signal has fired afterwards exactly if it had or this step is the abort |
| `AgentLoop.AgentLoop.RunTasks` | packages/agent/src/agent-loop.ts:559-561 | under every schedule, aborts included, all started tasks settle with the promised outcomes, each running call sends exactly its updates up to the moment it returns, and the signal has fired afterwards exactly if it had or the schedule holds an abort |
| `AgentLoop.AgentLoop.CollectOutcomes` | packages/agent/src/agent-loop.ts:562-567 | outcomes are collected in source order whatever the order of completion, and calls never started are announced as aborted |
| `AgentLoop.AgentLoop.ReportOutcomes` | packages/agent/src/agent-loop.ts:568-573 | the results are reported in source order after all calls have ended, and nothing else is emitted |
| `AgentLoop.AgentLoop.ExecuteToolCallsParallel` | packages/agent/src/agent-loop.ts:505-579 | under every schedule the outcomes and messages are those of the batch, the same as in a sequential execution of it; all calls are announced before the first result is reported, and the reports come last, in order; the signal has fired afterwards exactly if it had, a call fired it or it fired while tools ran |
| `AgentLoop.AgentLoop.TakeStreamEvent` | packages/agent/src/agent-loop.ts:324-350 | a start adds the partial message and a delta replaces it and is reported, but only after a start |
| `AgentLoop.AgentLoop.FinishStream` | packages/agent/src/agent-loop.ts:352-377 | the final message takes the place of its partial version, or is started and added |
| `AgentLoop.AgentLoop.ExecuteToolCalls` | packages/agent/src/agent-loop.ts:207-216 | truncated, sequential and parallel batches all answer the calls of the message, with the exact events of one call after the other unless tools run side by side; terminate says whether all outcomes asked to stop; the signal is seen afterwards exactly if it had fired, a call fired it or it fired while tools ran side by side |
| `AgentLoop.AgentLoop.InjectPending` | packages/agent/src/agent-loop.ts:181-190 | queued messages enter the events, the context and the new messages, in order and once each, before the request |
| `AgentLoop.AgentLoop.StreamAssistantResponse` | packages/agent/src/agent-loop.ts:287-378 | the request is the context as it stood, in the end the context has grown by exactly the final message, and the events are exactly the start, the updates after it and the end |
| `AgentLoop.AgentLoop.RunTurn` | packages/agent/src/agent-loop.ts:175-224 | a turn makes one request with the queued messages in it, and adds them, the answer and the results to context and new messages alike; a failed answer ends the run with no call executed |
| `AgentLoop.AgentLoop.CallsDealtWith` | packages/agent/src/agent-loop.ts:174-222 | at every moment of a run, for every turn that has ended: each call of its message has had one start, then its updates, then exactly one end, and the turn lists the results in order |
| `AgentLoop.AgentLoop.PollSteering` | packages/agent/src/agent.ts:478-484 | what is drained is the queue's next batch, or nothing if the initial poll is to be skipped once; the rest stays queued, and the loop accounts for what it holds |
| `AgentLoop.AgentLoop.PollFollowUps` | packages/agent/src/agent.ts:485-485 | what is drained is the queue's next batch, the rest stays queued, and the loop accounts for what it holds |
| `AgentLoop.AgentLoop.PrepareNextTurn` | packages/agent/src/agent-loop.ts:232-245 | a hook's context becomes the loop's context and is recorded as such, and without one nothing changes |
| `AgentLoop.AgentLoop.Iterate` | packages/agent/src/agent-loop.ts:174-259 | one pass of the inner loop adds one turn that plays what the script says, injects the messages it was given, and polls the steering queue for the next; it stops exactly for a failed answer or a hook that asks for it, and the queues then hold what they held and what has arrived |
| `AgentLoop.AgentLoop.RunTurns` | packages/agent/src/agent-loop.ts:171-260 | every turn injects what the polls before it have found; the inner loop is left on its own only when no tool asks for another turn and the poll after the last turn found nothing |
| `AgentLoop.AgentLoop.LookForMore` | packages/agent/src/agent-loop.ts:262-275 | the run goes on with follow-up messages, else with those of the stop check, and ends only if there are neither; messages that arrive before the poll are seen by it, and those that arrive while the stop check is awaited stay queued |
| `AgentLoop.AgentLoop.RunLoop` | packages/agent/src/agent-loop.ts:155-281 | each turn plays its entry of the script and injects exactly what the polls before it have found; a run ends only for a failed answer, a hook, or because nothing was left to do at the last polls, and the queues then hold exactly what has arrived since; it is cut off only between turns, when the environment script runs out |
| `AgentLoop.AgentLoop.EndReason` | packages/agent/src/agent-loop.ts:259-281 | a run that ended by itself: no tool asked for another turn, the stop check added nothing, and each queue holds exactly what has arrived after its last poll, so both are empty if and only if nothing has |
| `AgentLoop.AgentLoop.OverIsConsistent` | packages/agent/src/agent-loop.ts:95-118 | at the end of a run the trace is complete and its message_end events are the new messages, the agent's transcript is the old one plus these, no tool call is pending, and the context is the initial one plus these unless a hook replaced it |
| `AgentLoop.AgentLoop.OverIsPaired` | packages/agent/src/agent-loop.ts:174-260 | if the initial context is well-paired, so was every request; the final context is, exactly unless the last turn was cut short while its message asked for tools |
| `AgentLoop.AgentLoop.OverConservesQueues` | packages/agent/src/agent.ts:126-160 | what was enqueued is what had been drained before the run, then what the run injected from that queue in order, then what is still queued |
| `AgentLoop.AgentLoop.RunAgentLoop` | packages/agent/src/agent-loop.ts:95-118 | a run with prompts: they are the first new messages, every turn injects what the polls found, the run ends for one of its reasons with the queues as these say, and then its trace, transcript and context agree |
| `AgentLoop.AgentLoop.RunAgentLoopContinue` | packages/agent/src/agent-loop.ts:120-143 | a run without prompts is refused exactly if the context is empty or ends with an assistant message, and then nothing has happened; otherwise it goes and ends as one with prompts |
| `StatefulAgent.Agent.Steer` | packages/agent/src/agent.ts:286-288 | queues the message at the end of the steering queue, also during a run |
| `StatefulAgent.Agent.FollowUp` | packages/agent/src/agent.ts:291-293 | queues the message at the end of the follow-up queue, also during a run |
| `StatefulAgent.Agent.Reset` | packages/agent/src/agent.ts:336-348 | clears transcript, state and both queues, and is refused without any change during a run |
| `StatefulAgent.Agent.TranscriptPaired` | packages/agent/src/agent.ts:559-562 | over a run the agent's own transcript stays well-paired, exactly unless the run was cut short while its last message asked for tools |
| `StatefulAgent.Agent.FinishRun` | packages/agent/src/agent.ts:533-539 | the agent is idle again, its transcript is the one before the run plus the new messages, and everything that left a queue since is among these, in order |
| `StatefulAgent.Agent.RunPromptMessages` | packages/agent/src/agent.ts:412-426 | a run with given messages starts from the agent's transcript and ends with the agent idle, its transcript extended by the new messages, and both queues conserved |
| `StatefulAgent.Agent.RunContinuation` | packages/agent/src/agent.ts:428-438 | a run without prompts starts from the agent's transcript and ends with the agent idle, its transcript extended by the new messages, and both queues conserved |
| `StatefulAgent.Agent.Prompt` | packages/agent/src/agent.ts:353-361 | is refused, with nothing changed, exactly during a run; otherwise the run starts with the prompts |
| `StatefulAgent.Agent.RunQueued` | packages/agent/src/agent.ts:374-388 | steering messages go before follow-ups, and nothing is taken from a queue without being part of the run; a run that starts with steering messages injects nothing before its first request, one that starts with follow-ups looks at the steering queue first |
| `StatefulAgent.Agent.Continue` | packages/agent/src/agent.ts:364-391 | which of its four ways continue takes, exactly, what the run starts with, and whether it looks at the steering queue before its first request |
| `FrameSpec.HeaderRoundTrip` | packages/protocol/src/framing.ts:31-36 | reading the length bytes of any length gives the length back |
| `FrameSpec.HeaderUnique` | packages/protocol/src/framing.ts:88-89 | four bytes are the header of exactly the length they spell |
| `FrameSpec.ParseAppend` | packages/protocol/src/framing.ts:73-144 | parsing can stop after any prefix and go on with the bytes left over |
| `FrameSpec.ParseSound` | packages/protocol/src/framing.ts:73-144 | a stream that has not failed is the wire form of its frames followed by an unfinished frame |
| `FrameSpec.ParseWire` | packages/protocol/src/framing.ts:28-39 | the concatenated frames of payloads within the limit parse to exactly these payloads |
| `FrameSpec.PushAllParses` | packages/protocol/src/framing.ts:73-144 | pushing chunks one by one from any unfinished frame delivers the frames of the whole |
| `FrameSpec.ChunkInvariance` | packages/protocol/src/framing.ts:73-164 | whether a decoder fails depends only on the bytes; if it does not, any chunking delivers the same frames, and if it does, a prefix of them |
| `FrameSpec.RoundTrip` | packages/protocol/src/framing.ts:28-153 | any payloads within the limit survive encoding, any chunking and decoding, and the stream then ends cleanly |
| `FrameSpec.EndIffComplete` | packages/protocol/src/framing.ts:146-153 | end succeeds on an open decoder exactly if the bytes so far are the frames of some payloads within the limit |
| `Framing.ResolveMaxFrameLength` | packages/protocol/src/framing.ts:19-25 | a limit is refused exactly if it is not an integer of 32 bits; otherwise it is the one given, or 16 MiB |
| `Framing.EncodeFrame` | packages/protocol/src/framing.ts:28-39 | the bytes written are the length header and the payload; a payload over 32 bits is refused |
| `Framing.AssertCompleteFrame` | packages/protocol/src/framing.ts:42-53 | passes exactly on one complete frame within the limit, with the range error taking its place in the order of checks |
| `Framing.OneFrame` | packages/protocol/src/framing.ts:42-53 | passing means being the frame of some payload within the limit, and conversely |
| `Framing.FrameDecoder.constructor` | packages/protocol/src/framing.ts:69-71 | a new decoder has received nothing |
| `Framing.FrameDecoder.BufferBound` | packages/protocol/src/framing.ts:107-123 | the block buffer holds exactly the payload bytes received; less than one block more than these is allocated, and never more than was announced |
| `Framing.FrameDecoder.Push` | packages/protocol/src/framing.ts:73-144 | the array decoder returns what the parse of pending bytes plus chunk says, and fails when it says so; its loops terminate |
| `Framing.FrameDecoder.ReadHeader` | packages/protocol/src/framing.ts:81-103 | partial headers accumulate, and a length over the limit is found as soon as the header is complete |
| `Framing.FrameDecoder.ReadPayload` | packages/protocol/src/framing.ts:107-141 | payload bytes go into the blocks until chunk or frame are exhausted, and a complete frame leaves the decoder at rest |
| `Framing.FrameDecoder.AddBlock` | packages/protocol/src/framing.ts:109-114 | a new block of the right size, never the same array as an older one |
| `Framing.FrameDecoder.CopyIntoBlock` | packages/protocol/src/framing.ts:115-122 | the received bytes grow by exactly the bytes taken from the chunk |
| `Framing.FrameDecoder.Assemble` | packages/protocol/src/framing.ts:125-135 | the blocks together are the payload |
| `Framing.FrameDecoder.End` | packages/protocol/src/framing.ts:146-153 | ends an open decoder between frames and fails it inside one |
| `Framing.FrameDecoder.Fail` | packages/protocol/src/framing.ts:155-164 | a failed decoder keeps nothing |
| `MessageDecoder.ParseAllConcat` | packages/protocol/src/codec.ts:105-109 | all frames hold messages exactly if the first ones and the others do |
| `MessageDecoder.ChunksParse` | packages/protocol/src/codec.ts:102-115 | pushing chunks one by one from any unfinished frame hands out the messages of the whole, or latches |
| `MessageDecoder.MessagesIgnoreChunks` | packages/protocol/src/codec.ts:88-126 | whether the message decoder fails depends only on the bytes; without a failure every chunking delivers the same messages, with one a prefix of those before the fault |
| `MessageDecoder.OneChunk` | packages/protocol/src/codec.ts:102-115 | a fault anywhere in a single chunk loses all of its messages |
| `MessageDecoder.CutAfterLeading` | packages/protocol/src/codec.ts:102-115 | the same bytes cut right after the frames before the fault deliver every message before it |
| `MessageDecoder.DeliveryIgnoresChunksIff` | packages/protocol/src/codec.ts:102-115 | for all bytes: the messages delivered are the same under every chunking if and only if the bytes hold no fault or no message before it |
| `MessageDecoder.ValidatedMessageDecoder.Push` | packages/protocol/src/codec.ts:102-115 | a latched decoder refuses; any fault latches it and drops the messages of that chunk; otherwise all messages are returned |
| `MessageDecoder.ValidatedMessageDecoder.End` | packages/protocol/src/codec.ts:117-125 | succeeds exactly between frames of a decoder that has not failed, and latches otherwise |
| `SessionLeases.ReserveKeeps` | packages/client/src/client.ts:380-392 | reserving keeps the lease invariant |
| `SessionLeases.GiveBackKeeps` | packages/client/src/client.ts:172-174 | giving a failed reservation back keeps the lease invariant |
| `SessionLeases.GrantKeeps` | packages/client/src/client.ts:171-171 | turning a reservation into a handle keeps the lease invariant as long as no clean-up is due |
| `SessionLeases.AttachIfNeededKeeps` | packages/client/src/client.ts:159-171 | joining, starting or skipping the attachment, or failing to send the request, keeps the lease invariant |
| `SessionLeases.ProceedKeeps` | packages/client/src/client.ts:154-171 | an acquisition that goes on once no detach is in flight, through a clean-up if one is due, keeps the lease invariant |
| `SessionLeases.ReleaseKeeps` | packages/client/src/client.ts:230-251 | releasing keeps the lease invariant, since a detach is sent only when nobody else is counted |
| `SessionLeases.SettleDetachKeeps` | packages/client/src/client.ts:241-265 | success and failure of a detach, relinquishing or not, keep the lease invariant |
| `SessionLeases.SettleReconcileKeeps` | packages/client/src/client.ts:362-378 | success and failure of a clean-up's detach keep the lease invariant |
| `SessionLeases.SettleAttachKeeps` | packages/client/src/client.ts:160-170 | success and failure of an attach request keep the lease invariant |
| `SessionLeases.RemovedKeepsIff` | packages/client/src/client.ts:401-406 | a removal keeps the lease invariant if and only if the session has no reservation and no detach in flight |
| `SessionLeases.DisconnectedKeepsIff` | packages/client/src/client.ts:320-327 | a disconnect keeps the lease invariant if and only if no granted reservation is still to resume |
| `SessionLeases.CreateKeepsIff` | packages/client/src/client.ts:140-144 | a created session keeps the lease invariant if and only if its id is not one that is unused but due for clean-up |
| `SessionLeases.StepKeepsIff` | packages/client/src/client.ts:150-411 | each of the ten kinds of step keeps the invariant exactly if it is harmless |
| `SessionLeases.RunKeeps` | packages/client/src/client.ts:150-411 | the invariant holds after every harmless run |
| `SessionLeases.LeasesAreSafe` | packages/client/src/client.ts:380-411 | in every harmless run the counter is the number of open reservations plus current active or releasing leases, an exclusive lease is alone, and a due clean-up means nobody holds one |
| `SessionLeases.RefusedIffTaken` | packages/client/src/client.ts:380-387 | an exclusive lease is refused exactly if anything is reserved or held, a shared one exactly if something exclusive is |
| `SessionLeases.DetachOnlyWhenLast` | packages/client/src/client.ts:236-240 | a detach is sent only by the last lease with nobody waiting, and a clean-up starts only while there is none |
| `SessionLeases.NoActivationDuringCleanup` | packages/client/src/client.ts:154-171 | no lease becomes active while a detach or a clean-up is in flight or due |
| `SessionLeases.NoReservationStuck` | packages/client/src/client.ts:150-176 | when nothing is in flight and everyone woken has resumed, no reservation is left and the counter is the number of leases |
| `SessionLeases.FailedDetachRestores` | packages/client/src/client.ts:253-265 | an explicit detach that fails leaves everything as before it |
| `LeaseEffects.ConfirmedDetachGivesUp` | packages/client/src/client.ts:240-252 | a confirmed detach gives the lease up: nobody holds the session, it is not attached, only reservations are counted and all of them have been woken; without any the session is free for either mode |
| `LeaseEffects.FailedDetachKeepsOrGivesUp` | packages/client/src/client.ts:253-264 | a failed detach makes the lease active again, or, if it was to be relinquished, leaves nobody holding the session and a clean-up due; everybody who waited is woken |
| `LeaseEffects.ReleaseDoes` | packages/client/src/client.ts:226-252 | a released lease that is not the last is no longer current and the count is one less; the last one stays held while its detach is under way; any other release changes nothing |
| `LeaseEffects.ProceedDoes` | packages/client/src/client.ts:156-175 | an acquisition is granted at once exactly if the session is attached and clean, waits exactly for the clean-up or the attachment that is under way or can be requested, and fails exactly if neither is |
| `LeaseEffects.AcquireDoes` | packages/client/src/client.ts:150-176 | an acquisition that is refused changes nothing; otherwise it waits for a detach under way or goes on like that; the count grows exactly if it has not failed |
| `LeaseEffects.ResumeDoes` | packages/client/src/client.ts:150-176 | a woken acquisition is granted after an attachment, given back after a failed request, attaches anew after a clean-up and goes on after a detach |
| `LeaseEffects.AttachAnswerWakes` | packages/client/src/client.ts:159-186 | the answer to an attachment wakes everybody who waits for it, as granted or as failed, and only a good one says whether the session is attached |
| `LeaseEffects.CleanupAnswerWakes` | packages/client/src/client.ts:362-378 | a clean-up that succeeds leaves the session clean and detached and wakes those who wait for it; one that fails leaves it due and fails them |
| `LeaseEffects.CreateDoes` | packages/client/src/client.ts:140-144 | a created session is leased exclusively at once exactly if nobody reserves or holds it |
| `LeaseEffects.InvalidationEndsLeases` | packages/client/src/client.ts:401-411 | a removal or a lost connection leaves no lease current and none counted, and refuses nobody afterwards |
| `LeaseEffects.ReleasedIsFree` | packages/client/src/client.ts:226-252 | releasing the last lease and the server's confirmation make the session free: nobody holds or reserves it and no clean-up is due |
| `LeaseEffects.FreeIsGranted` | packages/client/src/client.ts:150-176 | whoever acquires a free session, in either mode, is granted it once it is attached |
| `SessionLeases.RemovalRace` | packages/client/src/client.ts:401-406 | a concrete run in which a removal during a shared acquisition ends with an exclusive and a shared lease both active |
| `SessionLeases.DisconnectRace` | packages/client/src/client.ts:320-327 | a concrete run in which a connection lost before an answered acquisition resumes leaves an uncounted lease |
| `SessionLeases.CreateRace` | packages/client/src/client.ts:140-144 | a concrete run in which a session created under an id that is due for a clean-up is leased while the clean-up is still due |
| `TheosesClient.TheosesClient.ReserveSessionLease` | packages/client/src/client.ts:380-392 | refuses or reserves as the protocol says, in the session's entries only |
| `TheosesClient.TheosesClient.ReleaseSessionLease` | packages/client/src/client.ts:394-399 | counts down, deleting a counter that reaches zero and the exclusive entry only if it is this token's |
| `TheosesClient.TheosesClient.CreateSessionLease` | packages/client/src/client.ts:208-212 | the handle belongs to the session's current generation |
| `TheosesClient.TheosesClient.InvalidateSessionLeases` | packages/client/src/client.ts:401-406 | forgets counter, exclusive entry and clean-up of this session and moves its generation on |
| `TheosesClient.TheosesClient.AttachIfNeeded` | packages/client/src/client.ts:159-171 | does what the protocol says about attaching, for this session only |
| `TheosesClient.TheosesClient.ReconcileSessionCleanup` | packages/client/src/client.ts:362-378 | does what the protocol says about cleaning up first |
| `TheosesClient.TheosesClient.AcquireSession` | packages/client/src/client.ts:150-176 | one call of acquireSession up to its first wait is one step of the protocol, and says whether it was refused |
| `TheosesClient.TheosesClient.ResumeAcquisition` | packages/client/src/client.ts:150-176 | going on after a wait is one step of the protocol |
| `TheosesClient.TheosesClient.SessionCreated` | packages/client/src/client.ts:140-144 | a created session is leased exclusively at once, or refused |
| `TheosesClient.TheosesClient.Release` | packages/client/src/client.ts:230-251 | a release does nothing to an invalidated or releasing lease and otherwise is one step of the protocol |
| `TheosesClient.TheosesClient.DetachAnswered` | packages/client/src/client.ts:241-265 | the answer to a detach changes the session as the protocol's step does and no other session; if it confirms the detach nobody holds the session afterwards, it is not attached, and without reservations it is free for either mode |
| `TheosesClient.TheosesClient.ReconciliationAnswered` | packages/client/src/client.ts:366-374 | the answer to a clean-up's detach changes the session as the protocol's step does, waking those who wait, and no other session |
| `TheosesClient.TheosesClient.AttachAnswered` | packages/client/src/client.ts:160-170 | the answer to an attach request changes the session as the protocol's step does, waking those who wait, and no other session |
| `TheosesClient.TheosesClient.SessionRemoved` | packages/client/src/client.ts:293-298 | a removal event changes the session as the protocol's step does, leaving reservations and requests in flight alone, and no other session |
| `TheosesClient.TheosesClient.InvalidateAllSessionLeases` | packages/client/src/client.ts:408-411 | every counted session is invalidated, though counters are deleted during the loop, and no clean-up stays due |
| `TheosesClient.TheosesClient.HandleDisconnected` | packages/client/src/client.ts:320-337 | losing the connection is the disconnect step of every session |
| `TheosesClient.TheosesClient.StepKeepsSoundIff` | packages/client/src/client.ts:150-411 | a step of one session keeps all sessions sound exactly if it is harmless |
| `Publication.TurnIsNext` | packages/ai/src/models.ts:344-346 | a publication whose predecessor is over is the first that is not |
| `Publication.EnterKeepsOrder` | packages/ai/src/models.ts:344-365 | taking up or finishing the first publication that is not over keeps the chain and both histories in order |
| `Publication.ConcludeKeeps` | packages/ai/src/models.ts:355-357 | the second staleness check, with the update if it passes, keeps the publication invariant |
| `Publication.StartKeeps` | packages/ai/src/models.ts:345-352 | the first staleness check, and what follows from it without a wait, keeps the publication invariant |
| `Publication.CommitKeeps` | packages/ai/src/models.ts:349-353 | a store operation that takes effect keeps the publication invariant |
| `Publication.PublishKeeps` | packages/ai/src/models.ts:344-363 | queueing a new publication behind the chain keeps the publication invariant |
| `Publication.StepKeeps` | packages/ai/src/models.ts:320-365 | no step of any kind can break the publication invariant |
| `Publication.PublicationsAreSerial` | packages/ai/src/models.ts:338-365 | in every run store operations never overlap, writes and updates happen in publication order with generations that never go back, and the store holds what was written last |
| `Publication.UpdateIsCurrent` | packages/ai/src/models.ts:347-357 | an update runs only for the current refresh with its signal not fired, sets exactly its models, and finds the store holding exactly what it persisted |
| `PublicationEffects.UpdateRunsIff` | packages/ai/src/models.ts:344-357 | when the store operation has succeeded, or there was none, the update runs exactly if the refresh is the current one and its signal has not fired: then the publication is published, the models are the update's and the store holds what was persisted; otherwise it is refused and models and updates are as before |
| `PublicationEffects.StoreOperationStartsIff` | packages/ai/src/models.ts:345-353 | a publication whose turn has come goes to the store exactly if it is not stale by then, and is refused otherwise |
| `PublicationEffects.CommitStores` | packages/ai/src/models.ts:349-353 | a store operation that takes effect leaves exactly the catalog of the publication in the store, or none, and the models as they are |
| `PublicationEffects.FailedStoreOnlyFails` | packages/ai/src/models.ts:344-358 | a store operation that fails ends the publication, and nothing else happens |
| `PublicationEffects.UpdateIff` | packages/ai/src/models.ts:344-357 | of all steps exactly those run an update; models change only then or with their provider, and the store only when a store operation takes effect |
| `PublicationEffects.SupersedeEnds` | packages/ai/src/models.ts:320-336 | superseding a refresh fires its signal and makes every publication so far stale; the controller is that of the new refresh, if one begins |
| `PublicationEffects.BookkeepingOnly` | packages/ai/src/models.ts:338-363 | a refresh gives up its own controller only, a publication its own place at the end of the chain only, and a new publication queues up unchanged behind that end |
| `PublicationEffects.PublishedIffUpdated` | packages/ai/src/models.ts:344-358 | in every run the publications whose update has run are exactly those that are published |
| `PublicationEffects.UndisturbedIsNotRefused` | packages/ai/src/models.ts:344-358 | in every run in which a refresh is neither superseded nor aborted none of its publications is refused: each that is over is published, its update run, unless the store has failed |
| `PublicationEffects.UndisturbedPublishes` | packages/ai/src/models.ts:344-358 | a publication whose turn has come during its refresh is published by its turn or by its store operation and the answer, and then models and store are as it says |
| `Publication.StepExtends` | packages/ai/src/models.ts:320-365 | histories only grow and generations never go back |
| `Publication.NoUpdateOnceSuperseded` | packages/ai/src/models.ts:269-284 | once a refresh is superseded by another one, or its provider replaced or deleted, none of its updates runs, whatever follows |
| `Publication.SomethingCanHappen` | packages/ai/src/models.ts:344-364 | the chain never gets stuck: the first publication that is not over can go on |
| `ModelsImpl.ModelsImpl.SupersedeProviderRefresh` | packages/ai/src/models.ts:320-329 | moves the generation on and fires the signal of the refresh under way, for this provider only |
| `ModelsImpl.ModelsImpl.SetProvider` | packages/ai/src/models.ts:269-272 | the refresh under way is superseded, the provider is registered with the dynamic models it brings along, none if it is new, and no other provider is touched |
| `ModelsImpl.ModelsImpl.DeleteProvider` | packages/ai/src/models.ts:274-277 | the refresh under way is superseded and the provider is removed with its models, and no other provider is touched |
| `ModelsImpl.ModelsImpl.ClearProviders` | packages/ai/src/models.ts:279-284 | supersedes exactly the registered providers and those with a refresh under way, and leaves no provider |
| `ModelsImpl.ModelsImpl.BeginProviderRefresh` | packages/ai/src/models.ts:331-336 | one refresh at a time holds the provider's controller |
| `ModelsImpl.ModelsImpl.FinishProviderRefresh` | packages/ai/src/models.ts:431-435 | only its own controller is removed |
| `ModelsImpl.ModelsImpl.PublishProviderModels` | packages/ai/src/models.ts:338-363 | a publication queues up behind the last one, or behind nothing |
| `ModelsImpl.ModelsImpl.TakeTurn` | packages/ai/src/models.ts:345-352 | refused when stale, concluded at once when nothing is persisted, else a store operation starts |
| `ModelsImpl.ModelsImpl.Conclude` | packages/ai/src/models.ts:355-357 | published exactly if not stale at that moment |
| `ModelsImpl.ModelsImpl.MutateStore` | packages/ai/src/models.ts:349-353 | the store entry of this provider is replaced or deleted |
| `ModelsImpl.ModelsImpl.StoreAnswered` | packages/ai/src/models.ts:349-358 | once the store has answered well the update runs exactly if the refresh is the current one and its signal has not fired, and the publication is published or refused accordingly; a failed store operation publishes nothing |
| `ModelsImpl.ModelsImpl.ForgetTail` | packages/ai/src/models.ts:361-363 | a settled tail is removed only if it is still the tail |
| `ModelsImpl.LookupReplaced` | packages/ai/src/models.ts:769-770 | replacing the first entry with an id changes only what that id finds |
| `ModelsImpl.LookupAppended` | packages/ai/src/models.ts:771-771 | appending an id that is not there changes only what that id finds |
| `ModelsImpl.CurrentModels` | packages/ai/src/models.ts:766-774 | every id finds its latest dynamic model, or else its baseline one; baseline places are kept and each other dynamic id is appended once |
| `ConnectionSpec.LeftoverEndsIff` | packages/client/src/connection.ts:155-158 | for every script of callbacks: a message of a chunk ends a connection newer than the one the chunk was sent to if and only if the callbacks of the messages before it have left such a connection current |
| `ConnectionSpec.LeftoverEnds` | packages/client/src/connection.ts:155-158 | and such a connection is then over for good, its promise settled, whatever the callbacks do next |
| `ConnectionSpec.NewerStands` | packages/client/src/connection.ts:155-158 | a newer connection that is current when the chunk has been handled stands, without a transport yet and with its promise pending |
| `ConnectionSpec.ScriptEndsIff` | packages/client/src/connection.ts:141-159 | a condition on the script alone: if each message callback of an open connection either does nothing or disconnects and connects again, a connection started meanwhile is ended by the chunk if and only if the callback of a message before the last one reconnects; if only the last one does the new connection stands, and if none does all messages are handed over and nothing else happens |
| `ConnectionSpec.LeftoverRace` | packages/client/src/connection.ts:155-158 | a run from a new connection, with a chunk of a hello and two messages: the first message's callback reconnects and the second message ends the new connection; without the second message it stands |
| `ConnectionSpec.HandleAllConcat` | packages/client/src/connection.ts:155-158 | handling two lists of messages one after the other is handling both as one chunk |
| `ConnectionEffects.CallEndsIff` | packages/client/src/connection.ts:65-230 | exactly these calls end a connection while callbacks are quiet: disconnect, a frame that fails while it is open, its transport's close or error, and data of it that cannot be decoded or is out of place; any other call that brings it no data changes nothing, so a frame that is sent leaves everything as it was |
| `ConnectionEffects.SendIsSilent` | packages/client/src/connection.ts:100-116 | whatever callbacks would do, a frame that is sent, or one while the connection is not open, changes nothing at all |
| `ConnectionEffects.OnlyConnectStarts` | packages/client/src/connection.ts:65-89 | while the connection is down only a request to connect does anything: a new id, its promise, and a transport asked for |
| `ConnectionEffects.DataEndsIff` | packages/client/src/connection.ts:141-203 | data ends the connection exactly if it is its own and cannot be decoded, comes before the transport is known, or holds a message out of place |
| `ConnectionEffects.OpenHandles` | packages/client/src/connection.ts:155-203 | an open connection hands over its messages in order up to the first that belongs into a handshake, which ends it |
| `ConnectionEffects.GreetingHandles` | packages/client/src/connection.ts:161-203 | a connection that waits for its greeting is opened by it, ended by any other first message, and handles the rest of the chunk as an open one |
| `ConnectionEffects.HandshakeLeavesNewer` | packages/client/src/connection.ts:185-195 | whatever the handshake callback and the report after it do, if another connection has taken the place of the one that was greeted nothing is done to it |
| `ConnectionEffects.ThrowLeavesNewer` | packages/client/src/connection.ts:118-125 | a factory that throws once another connection is current ends nothing |
| `ConnectionEffects.ThrowEndsHandshake` | packages/client/src/connection.ts:185-191 | a handshake callback that throws ends the connection although the greeting was right |
| `ConnectionEffects.ThrowEndsOpening` | packages/client/src/connection.ts:118-125 | a transport factory that throws at once ends the connection it was called for |
| `ConnectionEffects.EventEndsIff` | packages/client/src/connection.ts:107-139 | of the events of later jobs a rejected factory ends the connection it was called for, a frame that could not be sent the one with that transport, and no other; an opened transport is adopted exactly by the connection that still waits for it, and closed otherwise |
| `Connection.Connection.Callback` | packages/client/src/connection.ts:35-36 | whatever a callback calls back, to any depth, keeps the connection's invariant, and does what the specification says |
| `Connection.Connection.OnStateChange` | packages/client/src/connection.ts:77-77 | a state is reported once it has been entered, and stays the last one reported unless the callback changes it |
| `Connection.Connection.Fail` | packages/client/src/connection.ts:224-230 | ends the connection, rejects a promise still open and reports it; only a callback can have started another one |
| `Connection.Connection.FailAndClose` | packages/client/src/connection.ts:217-222 | ends the connection and closes the transport it had |
| `Connection.Connection.Perform` | packages/client/src/connection.ts:91-116 | calls and handlers with an old id change nothing; a frame that is sent, connecting while up and disconnecting while down change nothing; with no callbacks left to react a call ends the connection exactly if it is one of those that must |
| `Connection.Connection.Start` | packages/client/src/connection.ts:65-89 | accepted exactly when down, and then a new id has a promise, and a transport on the way unless the factory throws at once; refused calls change nothing |
| `Connection.Connection.OpenTransport` | packages/client/src/connection.ts:118-125 | a factory that throws at once ends the connection it was called for if it is still current, before connect returns; handlers it calls before it returns are handled like any others |
| `Connection.Connection.HandleData` | packages/client/src/connection.ts:141-159 | data of an old connection changes nothing; on an open connection with quiet callbacks every message of a chunk is handed over in order; in general the new state is that of the specification, and if a callback replaces the connection before the last message the new one is ended |
| `Connection.Connection.HandleMessage` | packages/client/src/connection.ts:161-203 | anything but a hello on a connection with a transport ends a handshake, a handshake message ends an open connection, and any other message is handed to the owner, in order |
| `Connection.Connection.CompleteHandshake` | packages/client/src/connection.ts:176-195 | the handshake promise is settled on every path, and with quiet callbacks the connection is reported as connected |
| `Connection.Connection.OpenedTransport` | packages/client/src/connection.ts:118-131 | a transport is adopted exactly by the connection it was opened for, and closed otherwise |
| `Connection.Connection.Handle` | packages/client/src/connection.ts:118-139 | late factory results and failed sends end the connection they belong to and no other |
| `Connection.Connection.Run` | packages/client/src/connection.ts:65-230 | over every run, with callbacks nesting: reported states follow the grammar, each promise is settled exactly once or still open, and every transport is in use, closed or has reported its own close |
| `Connection.RoundsFollowGrammar` | packages/client/src/connection.ts:224-230 | complete rounds are in the grammar |
| `Connection.GrammarIffRounds` | packages/client/src/connection.ts:65-230 | the grammar is exactly complete rounds of connecting, perhaps connected, and disconnected, and one begun |
| `Snapshots.LinkStepKeeps` | packages/server/src/server.ts:221-250 | the steps of a handshake and of delivery keep the numbers in order and every ready connection covered |
| `Snapshots.SendNextKeeps` | packages/server/src/snapshots.ts:60-60 | each send of a broadcast keeps the numbers in order and every ready connection covered |
| `Snapshots.BeginCovers` | packages/server/src/snapshots.ts:50-55 | starting a numbered broadcast covers every ready connection, whether or not it was before |
| `Snapshots.StepKeepsOrder` | packages/server/src/snapshots.ts:34-61 | no step at all gets the numbers out of order |
| `Snapshots.StepKeepsIff` | packages/server/src/snapshots.ts:50-61 | the number of a broadcast is lost if and only if the service fails while a recipient is still connected |
| `Snapshots.NoBroadcastIsLost` | packages/server/src/server.ts:221-250 | in every harmless run a ready client for which nothing is under way has stored the publisher's revision, whatever raced its handshake |
| `Snapshots.NextBroadcastHeals` | packages/server/src/snapshots.ts:44-61 | after any run at all, the next broadcast makes up for what was lost |
| `Snapshots.StoredNeverGoesBack` | packages/client/src/state.ts:100-104 | while a client is connected its stored revision never goes back, nor does the publisher's |
| `SnapshotEffects.WireStep` | packages/server/src/server.ts:230-250 | messages are sent to a connection exactly by its greeting, its refresh and its turn in a broadcast, with their numbers, and are received once each in that order |
| `SnapshotEffects.GreetingNumber` | packages/server/src/server.ts:230-237 | the greeting carries the number the publisher had when the hello was received, however long its snapshot takes; a server that is closing by then sends none |
| `SnapshotEffects.RefreshIff` | packages/server/src/server.ts:238-248 | once greeted a connection is ready, and fetches again exactly if the publisher's number is another one than the greeting's by then |
| `SnapshotEffects.NumberTakenIff` | packages/server/src/snapshots.ts:50-55 | a number is taken exactly by a broadcast that finds somebody ready while the server is not closing, and it is the next one |
| `SnapshotEffects.ClosingIsFinal` | packages/server/src/server.ts:225-250 | a server that is closing accepts nobody, greets nobody and takes no number |
| `SnapshotEffects.BroadcastReaches` | packages/server/src/snapshots.ts:50-60 | everybody a broadcast was started for is sent its number once, unless it is gone, and nobody else is sent anything |
| `Snapshots.LinkStep` | packages/server/src/server.ts:221-250 | a step of one connection gets it nothing ahead of the publisher, does not lose the current revision, and hands it over only in the greeting and what follows it |
| `Snapshots.BroadcastLost` | packages/server/src/snapshots.ts:50-61 | a concrete run in which the service fails once a number has been taken, and a ready client with nothing under way is left with an older revision |
| `SnapshotServer.ClientState.ApplyServerSnapshot` | packages/client/src/state.ts:100-104 | an older snapshot is ignored, and the stored one never goes back |
| `SnapshotServer.ClientState.ApplySessionSnapshot` | packages/client/src/state.ts:106-113 | an older snapshot of a session is ignored unless forced, a session counts as attached exactly if its latest snapshot says so, and no other session is touched |
| `SnapshotServer.ClientState.Reset` | packages/client/src/state.ts:23-27 | forgets the server's snapshot, those of all sessions, and which are attached |
| `SnapshotServer.SnapshotServer.StartHandshake` | packages/server/src/server.ts:230-230 | the greeting's number is read before the wait |
| `SnapshotServer.SnapshotServer.SendGreeting` | packages/server/src/server.ts:231-237 | the greeting carries the number read before |
| `SnapshotServer.SnapshotServer.BecomeReady` | packages/server/src/server.ts:238-243 | a connection that becomes ready fetches again exactly if numbers were taken in the meantime |
| `SnapshotServer.SnapshotServer.SendRefresh` | packages/server/src/server.ts:243-247 | a connection that fetched again is sent the number it fetched |
| `SnapshotServer.SnapshotServer.ReadyConnections` | packages/server/src/snapshots.ts:51-53 | lists every ready connection once and no other |
| `SnapshotServer.SnapshotServer.BeginBroadcast` | packages/server/src/snapshots.ts:50-55 | takes a number exactly if some connection is ready and the server is not closing |
| `SnapshotServer.SnapshotServer.ContinueBroadcast` | packages/server/src/snapshots.ts:60-60 | one send after the other, skipping connections that are gone |
| `Rotation.SortedIsUnique` | packages/evals/src/selection.ts:73-73 | there is one way to sort cases with unique ids |
| `Rotation.TurnsCount` | packages/evals/src/selection.ts:78-80 | how many cases of each category the order holds after any number of turns |
| `Rotation.TurnsAreFair` | packages/evals/src/selection.ts:78-80 | at every point no category is ahead of one with cases left by more than one |
| `Rotation.TurnsAreParts` | packages/evals/src/selection.ts:78-80 | the order holds exactly the cases that have had their turn |
| `Rotation.GroupsAreAll` | packages/evals/src/selection.ts:72-76 | the groups hold every case exactly once |
| `Rotation.MoreRounds` | packages/evals/src/selection.ts:78-80 | rounds add something until all groups are used up, and nothing afterwards |
| `Rotation.InterleavedIsPermutation` | packages/evals/src/selection.ts:71-82 | the interleaving is a permutation of the pool |
| `Rotation.InterleavedIgnoresOrder` | packages/evals/src/selection.ts:71-82 | with unique ids it does not depend on the order of the pool |
| `Rotation.InterleavedIsFair` | packages/evals/src/selection.ts:70-82 | in every prefix categories differ by at most one, except for those used up |
| `Rotation.InterleavedInOrder` | packages/evals/src/selection.ts:70-82 | of any two positions: an earlier one has an earlier turn of its category, or the same turn of a smaller category, and cases of one category are in the order of their ids |
| `Rotation.GroupByCategory` | packages/evals/src/selection.ts:72-75 | the groups are the cases of each category in order |
| `Rotation.InterleaveByCategory` | packages/evals/src/selection.ts:71-82 | the loops produce the interleaved pool and terminate |
| `Rotation.SlotsCoverPool` | packages/evals/src/selection.ts:84-94 | any ceil(n/size) consecutive slots pick every position of the order |
| `Rotation.WindowPositionsDiffer` | packages/evals/src/selection.ts:94-94 | a slice never holds the same position twice |
| `Rotation.WindowsTile` | packages/evals/src/selection.ts:84-94 | each slot's cases follow on those of the slot before, and after as many slots as there are cases everything starts over |
| `Rotation.AddFloor` | packages/evals/src/selection.ts:95-101 | one case, chosen by the slot, for each category the window missed, and for no other |
| `Rotation.Rotate` | packages/evals/src/selection.ts:89-103 | the slice of a slot, empty exactly where the source returns nothing, with every category in it when the floor is on |
| `Packing.DropMany` | scripts/session-transcripts.ts:201-233 | without its first transcripts a list needs no more files |
| `Packing.FirstFileIsLongest` | scripts/session-transcripts.ts:201-233 | the first file of a greedy split holds at least as many transcripts as that of any other |
| `Packing.GreedyIsMinimal` | scripts/session-transcripts.ts:196-241 | no order-preserving split under the same rules uses fewer files |
| `Packing.PackedIsMinimal` | scripts/session-transcripts.ts:196-241 | no other split into legal files has fewer, and a file over the limit is a single transcript |
| `Packing.PackTranscripts` | scripts/session-transcripts.ts:196-241 | the files are the transcripts in order, grouped contiguously and joined by separators, each within the limit or a single oversized transcript, and the split is greedy |
| `ProtocolValues.IsProtocolValue` | packages/protocol/src/codec.ts:25-39 | the traversal computes acceptance, terminates on cyclic graphs and restores the set of ancestors |
| `ProtocolValues.AcceptsIffNothingBad` | packages/protocol/src/codec.ts:25-39 | a value is accepted exactly if no way down from it reaches a cycle, an object of another kind or a leaf not allowed there |
| `ProtocolValues.ToJsonUnfolds` | packages/server/src/protocol.ts:143-164 | what the conversion returns is the unfolding |
| `ProtocolValues.UnfoldingIsUnique` | packages/server/src/protocol.ts:143-164 | a value has at most one unfolding, so one that is inside itself has none |
| `ProtocolValues.ToJsonIffUnfolds` | packages/server/src/protocol.ts:143-164 | the conversion succeeds exactly on values with a finite unfolding, and returns it |
| `ProtocolValues.SanitizeAgrees` | packages/server/src/protocol.ts:166-187 | where the strict conversion succeeds the lossy one returns the same |
| `ProtocolValues.SanitizeIffImage` | packages/server/src/protocol.ts:166-187 | the lossy conversion fails exactly on what is undefined or a function, and returns exactly the value's image: texts for big integers, other numbers and objects that are gone through already, null for what vanishes from an array, and objects without what vanishes from them |
| `ProtocolValues.RepresentationsAreStable` | packages/server/src/protocol.ts:143-187 | every value that represents a tree is accepted as a protocol value, converts to that tree and is a fixed point of sanitizing |
| `ProtocolValues.TreeIsRepresented` | packages/server/src/protocol.ts:143-187 | every tree with one value per key, and so every result, exists as a heap value made of new arrays and plain objects |
| `ProtocolValues.ResultsAreStable` | packages/server/src/protocol.ts:143-187 | whatever either conversion returns exists as a heap value, and every such value is accepted as a protocol value, converts to itself and is a fixed point of sanitizing |
| `ProtocolValues.ToProtocolJsonValue` | packages/server/src/protocol.ts:143-164 | the traversal computes the conversion, terminates and restores its set on success and failure alike |
| `ProtocolValues.SanitizeProtocolDetails` | packages/server/src/protocol.ts:167-187 | the traversal computes the sanitized value, terminates and restores its set |
| `ToolUse.KeyIsToolAndArguments` | packages/evals/src/run-metrics.ts:69-69 | two read-only calls have the same key exactly if tool and arguments are the same |
| `ToolUse.SeenIffCalledSince` | packages/evals/src/run-metrics.ts:52-83 | a key is in seenCalls exactly if the most recent of same-key call, other tool call and failure of that key is a same-key call |
| `ToolUse.SeenTextIffInWindow` | packages/evals/src/run-metrics.ts:53-89 | a text is in seenResults exactly if it was evidence earlier in the same window |
| `ToolUse.EvidenceIff` | packages/evals/src/run-metrics.ts:77-90 | a result is evidence exactly if it is no error, has at least 80 characters, and answers an id with which a read-only call was made before, but no duplicate |
| `ToolUse.ForgetsIff` | packages/evals/src/run-metrics.ts:63-82 | repeating a call becomes legitimate exactly by a call of another kind of tool, or by an error for an id whose latest read-only call has its key |
| `ToolUse.RepeatedIffDuplicate` | packages/evals/src/run-metrics.ts:71-74 | an id is marked as repeated exactly if a call with it was a duplicate |
| `ToolUse.TotalCounts` | packages/evals/src/run-metrics.ts:58-80 | rounds, tool calls and errors are the numbers of such events |
| `ToolUse.ReasonIsLast` | packages/evals/src/run-metrics.ts:58-60 | the stop reason is that of the last assistant message, if there is one |
| `ToolUse.EventsInOrder` | packages/evals/src/run-metrics.ts:57-91 | the events of a conversation are those of its messages, in order |
| `ToolUse.MessageCounts` | packages/evals/src/run-metrics.ts:57-91 | a message counts for what it holds: a round and its calls in order, an answer, or nothing |
| `ToolUse.CountsGrow` | packages/evals/src/run-metrics.ts:57-91 | what each event adds to the two counts |
| `ToolUse.Pass.CountCall` | packages/evals/src/run-metrics.ts:61-76 | a call keeps sets and counters true to the trace |
| `ToolUse.Pass.CountResult` | packages/evals/src/run-metrics.ts:77-90 | a result keeps sets and counters true to the trace, and an error makes its key forgotten |
| `ToolUse.MeasureToolUse` | packages/evals/src/run-metrics.ts:43-93 | the counters are the numbers of calls that are duplicates, and of results that are no new evidence, in terms of the whole trace |
| `EnvFile.SetChangesOnlyKey` | packages/dashboard/src/telegram-config.ts:67-68 | setting a key changes what that key finds and nothing else |
| `EnvFile.ParsedIsWellFormed` | packages/dashboard/src/telegram-config.ts:22-27 | what is parsed has valid unique keys and trimmed values without line breaks |
| `EnvFile.EntryParses` | packages/dashboard/src/telegram-config.ts:35-35 | a printed entry parses as itself but for spaces around its value |
| `EnvFile.LineSays` | packages/dashboard/src/telegram-config.ts:22-27 | a line sets the key before its first equals sign to the rest, without spaces around them, exactly if that is a valid key; any other line says nothing |
| `EnvFile.LastLineWins` | packages/dashboard/src/telegram-config.ts:22-27 | a key has the value of the last line that sets it, and is missing if none does |
| `EnvFile.TrimIs` | packages/dashboard/src/telegram-config.ts:25-26 | trimming removes the spaces around a text and nothing else |
| `EnvFile.SplitIs` | packages/dashboard/src/telegram-config.ts:22-22 | the lines joined by line breaks are the text |
| `EnvFile.PrintParsesIffClean` | packages/dashboard/src/telegram-config.ts:18-36 | printing and parsing again gives the same entries if and only if every value is trimmed and has no line break |
| `EnvFile.ParsePrintParse` | packages/dashboard/src/telegram-config.ts:18-36 | for every text, parsing, printing and parsing gives what parsing gave |
| `EnvFile.ReadEnv` | packages/dashboard/src/telegram-config.ts:18-32 | the loop reads exactly the entries of the text |
| `EnvFile.PrintParses` | packages/dashboard/src/telegram-config.ts:18-36 | printing entries without line breaks and parsing them again gives the same entries but for the spaces around values |
| `EnvFile.SavedParsesIff` | packages/dashboard/src/telegram-config.ts:66-71 | the saved file reads back as the old entries with the two settings changed if and only if the token is trimmed and has no line break |
| `EnvFile.NumericIff` | packages/dashboard/src/telegram-config.ts:62-62 | the ids that are accepted are exactly the numbers other than zero in their usual notation |
| `EnvFile.Choose` | packages/dashboard/src/telegram-config.ts:38-60 | the input is saved if it is not blank, or else what the file holds, or else what the environment holds, each only if it is not empty |
| `EnvFile.SpacedToken` | packages/dashboard/src/telegram-config.ts:59-71 | the token ' x' is saved and read back as 'x' |
| `EnvFile.PlantedKey` | packages/dashboard/src/telegram-config.ts:66-71 | a token with a line break plants whatever setting its second line spells, which was not there before |
| `EnvFile.PlantedAdmin` | packages/dashboard/src/telegram-config.ts:66-71 | such a token, concretely |
| `EnvFile.SaveTelegramConfig` | packages/dashboard/src/telegram-config.ts:54-74 | saves exactly if both settings can be found and the id is numeric, and a clean token then reads back with all other keys unchanged |

## Left out

- AgentLoop.AgentLoop.RunLoop: a run may be endless, so the loop stops at a turn boundary when its environment script is used up; every statement holds for every finite beginning. The modes of the queues do not change during a run, as setters would allow.
- AgentLoop.StreamAppendsFinalIff: the loop's methods assume at most one start event per stream, which this lemma shows to be necessary for the transcripts to agree.
- AgentLoop.AgentLoop.ExecuteToolCallsParallel: what a tool does when the signal reaches it while it runs is its own business, one of its possible outcomes.
- StatefulAgent.Agent.FinishRun: exceptions of listeners, hooks that must not throw and providers end a run through handleRunFailure in the source; that path, which closes the run with a made-up message, is not part of this model.
- Message contents are texts: images, thinking signatures, usage arithmetic and timestamps are not modelled; neither are transformContext, convertToLlm and API keys between the loop's context and the provider.
- Tool arguments are opaque: preparing and validating them is one result of the environment.
- Framing.FrameDecoder.Push: returns frames as byte sequences; that a single-block payload is returned as the decoder's own array, never written again, is not stated.
- CBOR and the message schemas are a parser parameter of `MessageDecoder`; error texts are not modelled.
- SessionLeases.LeasesAreSafe: requests settle atomically, the releaser before those who wait; finer timing of microtasks is not modelled, nor are requests that cannot be encoded.
- Lease handles' own request, subscribe and snapshot callbacks, and disposal of the client.
- Publication.PublicationsAreSerial: assumes a store whose successful operations have taken effect and whose answered ones take no effect later, with no other writer.
- Reading credentials, resolving auth, reading the store at the start of a refresh, and streaming through providers; fetched models are arbitrary publications.
- Connection.Connection.Run: state callbacks and message callbacks do not throw; only the handshake callback and the transport factory may. Nesting is as deep as a finite script of reactions. Error texts are not modelled.
- Snapshots.NoBroadcastIsLost: is about revision numbers only, not about how fresh the contents of a snapshot are; a broadcast with no ready connection takes no number and sends nothing.
- Server-side sessions, requests queued during a handshake, handshake timeouts and the server's shutdown order.
- Rotation.InterleavedIgnoresOrder: ids and categories are ranks in the collation order, so strings that compare as equal without being the same are not modelled; slots are natural numbers of any size, so days before 1970 and number rounding are not either.
- Choosing core, new and recently failed cases, seeds and dates of the eval selection.
- Packing.PackTranscripts: file names, and reading and formatting sessions; transcripts are not empty, as the caller builds them.
- ProtocolValues.ResultsAreStable: sparse arrays, dates, `__proto__` keys, getters and proxies; numbers are finite or not, without arithmetic.
- ToolUse.MeasureToolUse: arguments come in their stable JSON form and results as the text compared.
- EnvFile.SaveTelegramConfig: reading, writing and renaming files; strings are sequences of Unicode scalar values instead of UTF-16 code units.
- Sockets, HTTP, timers, clocks, OAuth, provider adapters, model tables, command lines and user interfaces.
