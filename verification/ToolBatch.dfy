/** What a batch of tool calls returns, as a function of the calls and of what tools and hooks do:
    no order of completion enters into it. */
module ToolBatch {
  import opened Options
  import opened AgentMessages
  import opened AgentEvents

  datatype BeforeHook =
    | NoBefore
    | BeforeThrew(message: string)
    | BeforeReturned(abortedMeanwhile: bool, block: bool, reason: Option<string>, terminate: bool)

  datatype Execution = Returned(output: ToolOutput) | Threw(message: string)

  datatype Overrides = Overrides(content: Option<string>, details: Option<string>, usage: Option<string>,
                                 terminate: Option<bool>, isError: Option<bool>)

  datatype AfterHook = NoAfter | AfterThrew(message: string) | AfterReturned(overrides: Option<Overrides>)

  /** How the environment treats one call: the registered tool, the hooks, the tool itself, and when
      the abort signal fires. */
  datatype CallEnv = CallEnv(
    toolFound: bool,
    toolIsSequential: bool,
    abortsBefore: bool,
    argumentError: Option<string>,
    before: BeforeHook,
    execution: Execution,
    updates: seq<string>,
    after: AfterHook,
    abortsAfter: bool)

  datatype Preparation = Immediate(result: ToolOutput, isError: bool) | Prepared

  function CreateErrorToolResult(message: string): ToolOutput {
    ToolOutput(Some(message), "{}", None, [], None)
  }

  function CreateAbortedToolCallOutcome(call: ToolCall): Finalized {
    Finalized(call, CreateErrorToolResult("Operation aborted"), true)
  }

  function TruncatedOutcome(call: ToolCall): Finalized {
    var message := "Tool call \"" + call.name + "\" was not executed: the response hit the output token limit, "
                   + "so its arguments may be truncated. Re-issue the tool call with complete arguments.";
    Finalized(call, CreateErrorToolResult(message), true)
  }

  /** The tool is there, its arguments are valid, and the hook before it, if there is one, neither throws nor
      blocks; and the signal does not fire meanwhile. */
  predicate Permits(env: CallEnv) {
    && env.toolFound && env.argumentError.None? && !env.abortsBefore
    && (env.before.NoBefore? || (env.before.BeforeReturned? && !env.before.abortedMeanwhile && !env.before.block))
  }

  /** The same, but the hook blocks the call. */
  predicate Denies(env: CallEnv) {
    && env.toolFound && env.argumentError.None? && !env.abortsBefore
    && env.before.BeforeReturned? && !env.before.abortedMeanwhile && env.before.block
  }

  /** The preparation of a call and whether the signal has fired by its end. */
  function PrepareToolCall(call: ToolCall, env: CallEnv, abortedBefore: bool): (r: (Preparation, bool))
    ensures abortedBefore ==> r.1
    ensures r.0.Immediate? ==> r.0.isError
    ensures r.1 ==> r.0.Immediate?
    ensures r.0.Prepared? <==> !abortedBefore && Permits(env)
  {
    var aborted := abortedBefore || env.abortsBefore;
    if !env.toolFound then (Immediate(CreateErrorToolResult("Tool " + call.name + " not found"), true), aborted)
    else if env.argumentError.Some? then (Immediate(CreateErrorToolResult(env.argumentError.value), true), aborted)
    else
      match env.before
      case BeforeThrew(message) => (Immediate(CreateErrorToolResult(message), true), aborted)
      case NoBefore =>
        if aborted then (Immediate(CreateErrorToolResult("Operation aborted"), true), true) else (Prepared, false)
      case BeforeReturned(meanwhile, block, reason, terminate) =>
        if aborted || meanwhile then (Immediate(CreateErrorToolResult("Operation aborted"), true), true)
        else if block then
          var message := if reason.Some? && reason.value != "" then reason.value else "Tool execution was blocked";
          var result := CreateErrorToolResult(message);
          (Immediate(if terminate then result.(terminate := Some(true)) else result, true), false)
        else (Prepared, false)
  }

  function Or<T>(a: Option<T>, b: T): T { if a.Some? then a.value else b }

  function OrElse<T>(a: Option<T>, b: Option<T>): Option<T> { if a.Some? then a else b }

  /** Execution of a prepared call and the hook that may rewrite its result. */
  function FinalizeToolCall(call: ToolCall, env: CallEnv): (f: Finalized)
    ensures f.call == call
  {
    var (result, isError) :=
      match env.execution
      case Returned(output) => (output, false)
      case Threw(message) => (CreateErrorToolResult(message), true);
    match env.after
    case NoAfter => Finalized(call, result, isError)
    case AfterThrew(message) => Finalized(call, CreateErrorToolResult(message), true)
    case AfterReturned(None) => Finalized(call, result, isError)
    case AfterReturned(Some(o)) =>
      Finalized(
        call,
        result.(content := OrElse(o.content, result.content),
                details := Or(o.details, result.details),
                usage := OrElse(o.usage, result.usage),
                terminate := OrElse(o.terminate, result.terminate)),
        Or(o.isError, isError))
  }

  /** The outcome of one call that is not skipped, and whether the signal has fired once it is dealt with. */
  function CallOutcome(call: ToolCall, env: CallEnv, aborted: bool): (r: (Finalized, bool))
    ensures r.0.call == call
    ensures aborted ==> r.1
  {
    var (preparation, abortedNow) := PrepareToolCall(call, env, aborted);
    (if preparation.Immediate? then Finalized(call, preparation.result, preparation.isError) else FinalizeToolCall(call, env),
     abortedNow || env.abortsAfter)
  }

  /** What a call that is not executed is answered with, for each reason there may be. Only a hook that blocks
      can ask for the run to stop. */
  lemma RefusalSays(call: ToolCall, env: CallEnv, aborted: bool)
    requires aborted || !Permits(env)
    ensures var p := PrepareToolCall(call, env, aborted).0;
            && p.Immediate? && p.isError
            && p.result.details == "{}" && p.result.usage == None && p.result.addedToolNames == []
            && (!env.toolFound ==> p.result.content == Some("Tool " + call.name + " not found"))
            && (env.toolFound && env.argumentError.Some? ==> p.result.content == env.argumentError)
            && (env.toolFound && env.argumentError.None? && env.before.BeforeThrew? ==>
                  p.result.content == Some(env.before.message))
            && (env.toolFound && env.argumentError.None? && !env.before.BeforeThrew? && (aborted || !Denies(env)) ==>
                  p.result.content == Some("Operation aborted"))
            && (!aborted && Denies(env) && HasText(env.before.reason) ==> p.result.content == env.before.reason)
            && (!aborted && Denies(env) && !HasText(env.before.reason) ==>
                  p.result.content == Some("Tool execution was blocked"))
            && (p.result.terminate == Some(true) <==> !aborted && Denies(env) && env.before.terminate)
            && (p.result.terminate.Some? ==> p.result.terminate.value)
  {
  }

  /** Without a hook after the tool, or with one that returns nothing, a returned output is the result as it is,
      and what a tool throws is an error with that text. */
  lemma UnhookedSays(call: ToolCall, env: CallEnv)
    requires env.after.NoAfter? || env.after == AfterReturned(None)
    ensures var f := FinalizeToolCall(call, env);
            && (f.isError <==> env.execution.Threw?)
            && (env.execution.Returned? ==> f.result == env.execution.output)
            && (env.execution.Threw? ==> f.result.content == Some(env.execution.message) && f.result.terminate == None)
  {
  }

  /** A hook that throws makes the call an error with its text; one that returns overrides changes exactly the
      fields it gives, and leaves the others as they would have been without it. */
  lemma HookSays(call: ToolCall, env: CallEnv)
    ensures var f, base := FinalizeToolCall(call, env), FinalizeToolCall(call, env.(after := NoAfter));
            && (env.after.AfterThrew? ==> f.isError && f.result.content == Some(env.after.message) && f.result.terminate == None)
            && (env.after.AfterReturned? && env.after.overrides.Some? ==>
                  var o := env.after.overrides.value;
                  && f.result.addedToolNames == base.result.addedToolNames
                  && (o.content.Some? ==> f.result.content == o.content)
                  && (o.content.None? ==> f.result.content == base.result.content)
                  && (o.details.Some? ==> f.result.details == o.details.value)
                  && (o.details.None? ==> f.result.details == base.result.details)
                  && (o.usage.Some? ==> f.result.usage == o.usage)
                  && (o.usage.None? ==> f.result.usage == base.result.usage)
                  && (o.terminate.Some? ==> f.result.terminate == o.terminate)
                  && (o.terminate.None? ==> f.result.terminate == base.result.terminate)
                  && (o.isError.Some? ==> f.isError == o.isError.value)
                  && (o.isError.None? ==> f.isError == base.isError))
  {
  }

  /** A batch: the calls, their environment, whether the message was cut off by the token limit, whether
      the abort signal had already fired, and whether it fires while tools run side by side or once the
      batch is over. */
  datatype Batch = Batch(calls: seq<ToolCall>, env: nat -> CallEnv, truncated: bool, aborted: bool, abortsLate: bool)

  /** The signal fires at some moment while this call is dealt with. */
  predicate Fires(env: CallEnv) {
    || env.abortsBefore || env.abortsAfter
    || (env.toolFound && env.argumentError.None? && env.before.BeforeReturned? && env.before.abortedMeanwhile)
  }

  /** The signal has fired by the time call k has been dealt with. */
  ghost predicate AbortedAfter(b: Batch, k: nat)
    requires k < |b.calls|
  {
    (k > 0 && AbortedAfter(b, k - 1)) || CallOutcome(b.calls[k], b.env(k), k == 0 && b.aborted).1
  }

  /** Call k is reported without having been prepared, because of an abort before it. */
  ghost predicate Skipped(b: Batch, k: nat)
    requires k < |b.calls|
  {
    k > 0 && AbortedAfter(b, k - 1)
  }

  /** The outcome of call k: nothing runs in a truncated message or after an abort. */
  ghost function OutcomeAt(b: Batch, k: nat): (f: Finalized)
    requires k < |b.calls|
    ensures f.call == b.calls[k]
  {
    if b.truncated then TruncatedOutcome(b.calls[k])
    else if Skipped(b, k) then CreateAbortedToolCallOutcome(b.calls[k])
    else CallOutcome(b.calls[k], b.env(k), k == 0 && b.aborted).0
  }

  ghost predicate FirstOutcomes(b: Batch, outcomes: seq<Finalized>) {
    && |outcomes| <= |b.calls|
    && forall k :: 0 <= k < |outcomes| ==> outcomes[k] == OutcomeAt(b, k)
  }

  ghost predicate AllOutcomes(b: Batch, outcomes: seq<Finalized>) {
    FirstOutcomes(b, outcomes) && |outcomes| == |b.calls|
  }

  /** The messages are the result messages of the outcomes, in order. */
  ghost predicate Reports(messages: seq<Message>, outcomes: seq<Finalized>) {
    && |messages| == |outcomes|
    && forall k :: 0 <= k < |messages| ==> messages[k] == CreateToolResultMessage(outcomes[k])
  }

  predicate ShouldTerminate(outcomes: seq<Finalized>) {
    |outcomes| > 0 && forall k :: 0 <= k < |outcomes| ==> outcomes[k].result.terminate == Some(true)
  }

  /** The results of a batch: one per call, in source order, each the message of its call's outcome. */
  ghost predicate AnsweredBy(b: Batch, results: seq<Message>) {
    && |results| == |b.calls|
    && forall k :: 0 <= k < |results| ==> results[k] == CreateToolResultMessage(OutcomeAt(b, k))
  }

  /** Every outcome of the batch asks for the run to stop. */
  ghost predicate Terminates(b: Batch) {
    |b.calls| > 0 && forall k :: 0 <= k < |b.calls| ==> OutcomeAt(b, k).result.terminate == Some(true)
  }

  lemma ReportedBatch(b: Batch, outcomes: seq<Finalized>, messages: seq<Message>)
    requires AllOutcomes(b, outcomes) && Reports(messages, outcomes)
    ensures AnsweredBy(b, messages)
    ensures ShouldTerminate(outcomes) == Terminates(b)
  {
    assert forall k :: 0 <= k < |outcomes| ==> outcomes[k] == OutcomeAt(b, k);
  }

  /** Whatever happens to a batch, there is exactly one result per call, in source order and with
      matching ids, and what they say is determined by the calls and by what tools and hooks do. */
  lemma ResultsAnswerCalls(b: Batch, results: seq<Message>, results': seq<Message>)
    requires AnsweredBy(b, results) && AnsweredBy(b, results')
    ensures results == results' && |results| == |b.calls|
    ensures forall k :: 0 <= k < |b.calls| ==> Answers(results[k], b.calls[k])
  {
    forall k | 0 <= k < |b.calls| ensures results[k] == results'[k] && Answers(results[k], b.calls[k]) {
      assert results[k] == CreateToolResultMessage(OutcomeAt(b, k));
    }
  }

  /** No call that comes after the abort signal is executed, whatever its tool would do. */
  lemma {:induction false} AbortStopsExecution(b: Batch, j: nat, k: nat)
    requires j < k < |b.calls| && !b.truncated
    requires Fires(b.env(j))
    ensures Skipped(b, k) && OutcomeAt(b, k) == CreateAbortedToolCallOutcome(b.calls[k])
  {
    AbortPersists(b, j, k - 1);
  }

  lemma {:induction false} AbortPersists(b: Batch, j: nat, k: nat)
    requires j <= k < |b.calls| && AbortedAfter(b, j)
    ensures AbortedAfter(b, k)
  {
    if j < k { AbortPersists(b, j, k - 1); }
  }

  /** The signal has fired by the time the last call has been dealt with or, if tools run side by side, has
      been prepared. */
  ghost predicate CallsFired(b: Batch) {
    if b.truncated || b.calls == [] then b.aborted else AbortedAfter(b, |b.calls| - 1)
  }

  /** The signal has fired by the time the next batch is looked at. */
  ghost predicate FiredBy(b: Batch) { b.abortsLate || CallsFired(b) }

  lemma {:induction false} AbortedAfterIff(b: Batch, k: nat)
    requires k < |b.calls|
    ensures AbortedAfter(b, k) <==> b.aborted || exists j :: 0 <= j <= k && Fires(b.env(j))
  {
    assert CallOutcome(b.calls[k], b.env(k), k == 0 && b.aborted).1 == ((k == 0 && b.aborted) || Fires(b.env(k)));
    if k > 0 { AbortedAfterIff(b, k - 1); }
  }

  /** The moments that count, exactly: the signal had fired before the batch, fires at one of the calls that
      are looked at, or fires while tools run side by side or later. */
  lemma FiredByIff(b: Batch)
    ensures FiredBy(b) <==>
              b.aborted || b.abortsLate || (!b.truncated && exists k :: 0 <= k < |b.calls| && Fires(b.env(k)))
  {
    if b.calls != [] { AbortedAfterIff(b, |b.calls| - 1); }
  }

  /** The signal has fired before call k is looked at, as the environment says. */
  ghost predicate FiredBeforeCall(b: Batch, k: nat) {
    b.aborted || exists j :: 0 <= j < k && Fires(b.env(j))
  }

  /** Call k is executed: the message is whole, no signal has fired, and nothing about the call forbids it. */
  ghost predicate Executes(b: Batch, k: nat) {
    !b.truncated && !FiredBeforeCall(b, k) && Permits(b.env(k))
  }

  lemma SkippedIff(b: Batch, k: nat)
    requires k < |b.calls|
    ensures Skipped(b, k) <==> k > 0 && FiredBeforeCall(b, k)
  {
    if k > 0 { AbortedAfterIff(b, k - 1); }
  }

  /** A call of a truncated message is answered with an error, and it does not ask for the run to stop. */
  lemma TruncatedGoesOn(call: ToolCall)
    ensures TruncatedOutcome(call).result.terminate == None && TruncatedOutcome(call).result.content.Some? && TruncatedOutcome(call).isError
  {
  }

  /** In every batch a call's outcome is that of its execution if and only if the environment lets it be
      executed, and otherwise an error; a call that is blocked is answered with the reason of the hook. */
  lemma CallComesTo(b: Batch, k: nat)
    requires k < |b.calls|
    ensures var f := OutcomeAt(b, k);
            && (Executes(b, k) ==> f == FinalizeToolCall(b.calls[k], b.env(k)))
            && (!Executes(b, k) ==> f.isError && f.result.content.Some?)
            && (!b.truncated && !FiredBeforeCall(b, k) && Denies(b.env(k)) ==>
                  var before := b.env(k).before;
                  && f.result.content == (if HasText(before.reason) then before.reason else Some("Tool execution was blocked"))
                  && (f.result.terminate == Some(true) <==> before.terminate))
            && (!b.truncated && k > 0 && FiredBeforeCall(b, k) ==> f.result.content == Some("Operation aborted"))
  {
    SkippedIff(b, k);
    FiredFirst(b);
    TruncatedGoesOn(b.calls[k]);
    hide AbortedAfter, FiredBeforeCall, FinalizeToolCall, TruncatedOutcome;
    if !b.truncated && !Skipped(b, k) && !Executes(b, k) {
      hide PrepareToolCall;
      RefusalSays(b.calls[k], b.env(k), k == 0 && b.aborted);
    }
  }

  /** And this is what the model is told: the tool's own output if it was executed and no hook changed it, and
      the refusal as an error if it was blocked. */
  lemma ResultComesTo(b: Batch, results: seq<Message>, k: nat)
    requires AnsweredBy(b, results) && k < |b.calls|
    ensures results[k].ToolResult? && Answers(results[k], b.calls[k])
    ensures !Executes(b, k) ==> results[k].isError
    ensures Executes(b, k) && b.env(k).after.NoAfter? && b.env(k).execution.Returned? ==>
              var o := b.env(k).execution.output;
              && !results[k].isError && results[k].details == o.details && results[k].usage == o.usage
              && results[k].addedToolNames == o.addedToolNames
              && results[k].text == if o.content.Some? then o.content.value else ""
    ensures Executes(b, k) && b.env(k).after.NoAfter? && b.env(k).execution.Threw? ==>
              results[k].isError && results[k].text == b.env(k).execution.message
    ensures !b.truncated && !FiredBeforeCall(b, k) && Denies(b.env(k)) ==>
              results[k].text == if HasText(b.env(k).before.reason) then b.env(k).before.reason.value else "Tool execution was blocked"
  {
    assert results[k] == CreateToolResultMessage(OutcomeAt(b, k));
    CallComesTo(b, k);
    hide OutcomeAt, Executes, FiredBeforeCall;
    if Executes(b, k) { UnhookedOrNot(b.calls[k], b.env(k)); }
  }

  lemma UnhookedOrNot(call: ToolCall, env: CallEnv)
    ensures env.after.NoAfter? && env.execution.Returned? ==> FinalizeToolCall(call, env) == Finalized(call, env.execution.output, false)
    ensures env.after.NoAfter? && env.execution.Threw? ==>
              FinalizeToolCall(call, env).isError && FinalizeToolCall(call, env).result.content == Some(env.execution.message)
  {
    if env.after.NoAfter? { UnhookedSays(call, env); }
  }

  /** What dealing with call k asks for: the tool's own output, an override of the hook after it, or the hook
      that blocks it says that the run should stop. */
  ghost predicate AsksToStop(b: Batch, k: nat)
    requires k < |b.calls|
  {
    && !b.truncated && !FiredBeforeCall(b, k)
    && if Permits(b.env(k)) then FinalizeToolCall(b.calls[k], b.env(k)).result.terminate == Some(true)
       else Denies(b.env(k)) && b.env(k).before.terminate
  }

  /** A batch ends the run if and only if there are calls and each of them asks for it. */
  lemma TerminatesIff(b: Batch)
    ensures Terminates(b) <==> b.calls != [] && forall k :: 0 <= k < |b.calls| ==> AsksToStop(b, k)
  {
    hide OutcomeAt, AsksToStop;
    forall k | 0 <= k < |b.calls| ensures OutcomeAt(b, k).result.terminate == Some(true) <==> AsksToStop(b, k) {
      CallTerminatesIff(b, k);
    }
  }

  lemma CallTerminatesIff(b: Batch, k: nat)
    requires k < |b.calls|
    ensures OutcomeAt(b, k).result.terminate == Some(true) <==> AsksToStop(b, k)
  {
    SkippedIff(b, k);
    hide AbortedAfter, FinalizeToolCall, TruncatedOutcome, FiredBeforeCall;
    if b.truncated {
      TruncatedGoesOn(b.calls[k]);
    } else if !Skipped(b, k) && !Executes(b, k) {
      hide PrepareToolCall;
      FiredFirst(b);
      RefusalSays(b.calls[k], b.env(k), k == 0 && b.aborted);
    }
  }

  lemma FiredFirst(b: Batch)
    ensures FiredBeforeCall(b, 0) <==> b.aborted
  {
  }

  /** A signal that has fired stays fired. */
  lemma AbortedBatchFires(b: Batch)
    requires b.aborted
    ensures FiredBy(b)
  {
    if b.calls != [] { AbortPersists(b, 0, |b.calls| - 1); }
  }

  /** In a batch that starts after the signal has fired nothing is executed. */
  lemma FiredBatchExecutesNothing(b: Batch, k: nat)
    requires b.aborted && k < |b.calls|
    ensures Skipped(b, k) || (k == 0 && PrepareToolCall(b.calls[0], b.env(0), true).0.Immediate?)
  {
    if k > 0 { AbortPersists(b, 0, k - 1); }
  }

  /** A batch in which a call was skipped, and a truncated batch, never end the run early. */
  lemma SkippedBatchContinues(b: Batch, k: nat)
    requires k < |b.calls| && (b.truncated || Skipped(b, k))
    ensures !Terminates(b)
  {
    TruncatedGoesOn(b.calls[k]);
    hide CallOutcome, Skipped, TruncatedOutcome;
    assert OutcomeAt(b, k).result.terminate == None;
  }
}
