/** packages/client/src/connection.ts as functions on values: what each step of a connection does to its
    state, and how often a chunk of messages ends a connection it was not sent to. */
module ConnectionSpec {
  import opened Options

  datatype State = Disconnected | Connecting | Connected

  /** The lifecycle record. A promise is still to be settled while the handshake is under way. */
  datatype Lifecycle = Idle | Opening(id: nat, transport: bool) | Open(id: nat, handshake: bool) {
    predicate Current(i: nat) { !Idle? && id == i }
    predicate HasTransport(i: nat) { Current(i) && (Opening? ==> transport) }
    predicate Awaits(i: nat) { Current(i) && (Open? ==> handshake) }
  }

  datatype Message = Hello | HelloError | Other(content: string)

  /** What can happen synchronously: calls of the owner, and handlers called by a transport. */
  datatype Call =
    | Connect
    | Disconnect
    | Send(fails: bool)
    | Data(id: nat, decoded: Option<seq<Message>>)
    | Closed(id: nat)
    | Errored(id: nat)

  /** What happens in a later job: a transport has been opened or not, or a frame could not be sent. */
  datatype Event =
    | Called(call: Call)
    | FactoryResolved(id: nat)
    | FactoryRejected(id: nat)
    | SendRejected(id: nat)

  /** What a callback or the transport factory does when it is called. Only the handshake callback and the
      factory may throw. */
  datatype Reaction = Reaction(calls: seq<Call>, throws: bool)

  ghost predicate AllOther(messages: seq<Message>) { forall k :: 0 <= k < |messages| ==> messages[k].Other? }

  /** A connection with all that it has done: the states it reported, the messages it handed over (a hello
      is handed over as its snapshot), how often each handshake promise has been settled, and its
      transports. */
  datatype Status = Status(lifecycle: Lifecycle, sequence: nat, reactions: seq<Reaction>, openings: set<nat>,
                           emitted: seq<State>, delivered: seq<Message>, settled: map<nat, nat>,
                           transports: set<nat>, closed: set<nat>, reported: set<nat>, closing: set<nat>)

  function New(reactions: seq<Reaction>): Status {
    Status(Idle, 0, reactions, {}, [], [], map[], {}, {}, {}, {})
  }

  function Bump(settled: map<nat, nat>, id: nat): map<nat, nat> {
    settled[id := (if id in settled then settled[id] else 0) + 1]
  }

  /** How a connection may change while a call lasts: it ends, or its handshake completes. */
  predicate Evolves(a: Lifecycle, b: Lifecycle) {
    a == b || b.Idle? || (b == Open(b.id, false) && a.HasTransport(b.id))
  }

  /** Every promise has been settled once, except that of a handshake under way. */
  ghost predicate SettledOnce(lifecycle: Lifecycle, sequence: nat, settled: map<nat, nat>) {
    && (lifecycle.Idle? || 0 < lifecycle.id == sequence)
    && forall i :: 0 < i <= sequence ==> i in settled && settled[i] == if lifecycle.Awaits(i) then 0 else 1
  }

  ghost predicate Consistent(s: Status) { SettledOnce(s.lifecycle, s.sequence, s.settled) }

  /** What every step keeps: the connection there was may get further or end, and one started meanwhile has
      no transport yet. */
  ghost predicate Keeps(s: Status, r: Status) {
    && |r.reactions| <= |s.reactions| && r.sequence >= s.sequence && (Consistent(s) ==> Consistent(r))
    && if r.sequence > s.sequence then r.lifecycle.Idle? || r.lifecycle == Opening(r.sequence, false)
       else Evolves(s.lifecycle, r.lifecycle)
  }

  // ---- The steps -----------------------------------------------------------------------------------------

  predicate Throws(s: Status) { s.reactions != [] && s.reactions[0].throws }

  function Callback(s: Status): (r: Status)
    ensures Keeps(s, r)
    decreases |s.reactions|, 0
  {
    if s.reactions == [] then s else PerformAll(s.(reactions := s.reactions[1..]), s.reactions[0].calls)
  }

  function PerformAll(s: Status, calls: seq<Call>): (r: Status)
    ensures Keeps(s, r)
    decreases |s.reactions|, 8, |calls|
  {
    if calls == [] then s else Perform(PerformAll(s, calls[..|calls| - 1]), calls[|calls| - 1])
  }

  function OnStateChange(s: Status, state: State): (r: Status)
    ensures Keeps(s, r)
    decreases |s.reactions|, 1
  {
    Callback(s.(emitted := s.emitted + [state]))
  }

  function Fail(s: Status): (r: Status)
    ensures Keeps(s, r) && (r.sequence == s.sequence ==> r.lifecycle.Idle?)
    decreases |s.reactions|, 2
  {
    if s.lifecycle.Idle? then s
    else
      var id := s.lifecycle.id;
      OnStateChange(s.(lifecycle := Idle, settled := if s.lifecycle.Awaits(id) then Bump(s.settled, id) else s.settled),
                    Disconnected)
  }

  function FailAndClose(s: Status): (r: Status)
    ensures Keeps(s, r) && (r.sequence == s.sequence ==> r.lifecycle.Idle?)
    decreases |s.reactions|, 3
  {
    if s.lifecycle.Idle? || !s.lifecycle.HasTransport(s.lifecycle.id) then Fail(s)
    else
      var r := Fail(s.(closing := s.closing + {s.lifecycle.id}));
      r.(closed := r.closed + {s.lifecycle.id}, closing := s.closing)
  }

  function Perform(s: Status, call: Call): (r: Status)
    ensures Keeps(s, r)
    decreases |s.reactions|, 7
  {
    match call
    case Connect => Start(s)
    case Disconnect => if s.lifecycle.Idle? then s else FailAndClose(s)
    case Send(fails) => if s.lifecycle.Open? && fails then FailAndClose(s) else s
    case Data(id, decoded) => HandleData(s, id, decoded)
    case Closed(id) =>
      var told := s.(reported := s.reported + {id});
      if s.lifecycle.Current(id) then Fail(told) else told
    case Errored(id) => if s.lifecycle.Current(id) then FailAndClose(s) else s
  }

  function Start(s: Status): (r: Status)
    ensures Keeps(s, r)
    decreases |s.reactions|, 5
  {
    if !s.lifecycle.Idle? then s
    else
      var id := s.sequence + 1;
      var begun := OnStateChange(s.(sequence := id, lifecycle := Opening(id, false), settled := s.settled[id := 0]), Connecting);
      OpenTransport(begun, id)
  }

  /** The factory may throw at once, or call handlers before it returns. */
  function OpenTransport(s: Status, id: nat): (r: Status)
    ensures Keeps(s, r)
    decreases |s.reactions|, 4
  {
    var called := Callback(s);
    if !Throws(s) then called.(openings := called.openings + {id})
    else if called.lifecycle.Current(id) then Fail(called) else called
  }

  function HandleData(s: Status, id: nat, decoded: Option<seq<Message>>): (r: Status)
    ensures Keeps(s, r)
    decreases |s.reactions|, 6
  {
    if !s.lifecycle.Current(id) then s
    else if (s.lifecycle.Opening? && !s.lifecycle.transport) || decoded == None then FailAndClose(s)
    else HandleAll(s, decoded.value)
  }

  /** Before each message the connection is only asked whether it is down. */
  function HandleAll(s: Status, messages: seq<Message>): (r: Status)
    ensures Keeps(s, r)
    decreases |s.reactions|, 6, |messages|
  {
    if messages == [] then s
    else
      var before := HandleAll(s, messages[..|messages| - 1]);
      if before.lifecycle.Idle? then before else HandleMessage(before, messages[|messages| - 1])
  }

  function HandleMessage(s: Status, message: Message): (r: Status)
    ensures Keeps(s, r)
    decreases |s.reactions|, 5
  {
    match s.lifecycle
    case Idle => s
    case Opening(id, transport) => if message != Hello || !transport then FailAndClose(s) else CompleteHandshake(s)
    case Open(_, _) =>
      if !message.Other? then FailAndClose(s) else Callback(s.(delivered := s.delivered + [message]))
  }

  function CompleteHandshake(s: Status): (r: Status)
    requires s.lifecycle.Opening? && s.lifecycle.transport
    ensures Keeps(s, r)
    decreases |s.reactions|, 4
  {
    var connected := Open(s.lifecycle.id, true);
    var begun := s.(lifecycle := connected, delivered := s.delivered + [Hello]);
    var told := Callback(begun);
    if Throws(begun) then
      if told.lifecycle == connected then FailAndClose(told) else told
    else if told.lifecycle != connected then told
    else Announce(told)
  }

  function Announce(s: Status): (r: Status)
    requires s.lifecycle.Open? && s.lifecycle.handshake
    ensures Keeps(s, r)
    decreases |s.reactions|, 2
  {
    var done := OnStateChange(s, Connected);
    if done.lifecycle != s.lifecycle then done
    else done.(lifecycle := Open(s.lifecycle.id, false), settled := Bump(done.settled, s.lifecycle.id))
  }

  function OpenedTransport(s: Status, id: nat): Status {
    var answered := s.(openings := s.openings - {id}, transports := s.transports + {id});
    if s.lifecycle.Opening? && s.lifecycle.id == id then answered.(lifecycle := Opening(id, true))
    else answered.(closed := answered.closed + {id})
  }

  function Handle(s: Status, event: Event): Status {
    match event
    case Called(call) => Perform(s, call)
    case FactoryResolved(id) => if id in s.openings then OpenedTransport(s, id) else s
    case FactoryRejected(id) =>
      if id in s.openings then
        var told := s.(openings := s.openings - {id});
        if s.lifecycle.Current(id) then Fail(told) else told
      else s
    case SendRejected(id) => if s.lifecycle.HasTransport(id) then FailAndClose(s) else s
  }

  function Run(s: Status, events: seq<Event>): Status {
    if events == [] then s else Handle(Run(s, events[..|events| - 1]), events[|events| - 1])
  }

  // ---- Messages left over when a callback has replaced the connection ------------------------------------

  lemma {:induction false} HandleAllConcat(s: Status, a: seq<Message>, b: seq<Message>)
    ensures HandleAll(s, a + b) == HandleAll(HandleAll(s, a), b)
    decreases |b|
  {
    if b == [] {
      assert a + b == a;
    } else {
      HandleAllConcat(s, a, b[..|b| - 1]);
      assert (a + b)[..|a + b| - 1] == a + b[..|b| - 1];
    }
  }

  lemma {:induction false} IdleHandlesNothing(s: Status, messages: seq<Message>)
    requires s.lifecycle.Idle?
    ensures HandleAll(s, messages) == s
    decreases |messages|
  {
    if messages != [] { IdleHandlesNothing(s, messages[..|messages| - 1]); }
  }

  lemma HandleNone(s: Status)
    ensures HandleAll(s, []) == s
  {
  }

  lemma HandleOne(s: Status, message: Message)
    ensures HandleAll(s, [message]) == if s.lifecycle.Idle? then s else HandleMessage(s, message)
  {
    assert [message][..0] == [];
    assert HandleAll(s, [message][..0]) == s;
  }

  /** A connection started after this one is the current one. */
  predicate Newer(s: Status, id: nat) { !s.lifecycle.Idle? && s.lifecycle.id > id }

  predicate Settled(s: Status, id: nat, times: nat) { id in s.settled && s.settled[id] == times }

  /** The connection has ended, and its promise has been settled. */
  predicate Over(s: Status, id: nat) { !s.lifecycle.Current(id) && Settled(s, id, 1) }

  /** Handling the k-th message ends the current connection, which is newer than the one given. */
  predicate EndsNewer(s: Status, messages: seq<Message>, k: nat)
    requires k < |messages|
  {
    var before := HandleAll(s, messages[..k]);
    Newer(before, s.sequence) && !HandleAll(s, messages[..k + 1]).lifecycle.Current(before.lifecycle.id)
  }

  /** A connection without a transport is ended by any message, whatever the callbacks do then. */
  lemma MessageEndsOpening(s: Status, message: Message)
    requires Consistent(s) && s.lifecycle.Opening? && !s.lifecycle.transport
    ensures var r := HandleMessage(s, message);
            && Consistent(r) && Over(r, s.lifecycle.id)
            && 0 < s.lifecycle.id <= r.sequence
  {
  }

  lemma NewerIsOpening(s: Status, r: Status)
    requires Keeps(s, r) && Consistent(s) && Newer(r, s.sequence)
    ensures Consistent(r) && r.lifecycle == Opening(r.sequence, false) && Settled(r, r.sequence, 0)
  {
  }

  lemma EndedStaysEnded(s: Status, r: Status, id: nat)
    requires Keeps(s, r) && Consistent(s) && 0 < id <= s.sequence && !s.lifecycle.Current(id)
    ensures Over(r, id)
  {
  }

  lemma HandleNext(s: Status, messages: seq<Message>, k: nat)
    requires k < |messages|
    ensures var before := HandleAll(s, messages[..k]);
            HandleAll(s, messages[..k + 1]) == if before.lifecycle.Idle? then before else HandleMessage(before, messages[k])
    ensures HandleAll(s, messages) == HandleAll(HandleAll(s, messages[..k + 1]), messages[k + 1..])
  {
    assert messages[..k + 1][..k] == messages[..k];
    HandleAllConcat(s, messages[..k + 1], messages[k + 1..]);
    assert messages[..k + 1] + messages[k + 1..] == messages;
  }

  /** A newer connection that is current when a message is still to be handled is ended by it. */
  lemma LeftoverEnds(s: Status, messages: seq<Message>, k: nat)
    requires Consistent(s) && k < |messages|
    requires Newer(HandleAll(s, messages[..k]), s.sequence)
    ensures EndsNewer(s, messages, k)
    ensures Over(HandleAll(s, messages), HandleAll(s, messages[..k]).lifecycle.id)
  {
    hide HandleAll, HandleMessage, Keeps, Consistent, SettledOnce, Settled, Newer;
    var mid := HandleAll(s, messages[..k]);
    NewerIsOpening(s, mid);
    HandleNext(s, messages, k);
    MessageEndsOpening(mid, messages[k]);
    EndedStaysEnded(HandleAll(s, messages[..k + 1]), HandleAll(s, messages), mid.lifecycle.id);
  }

  /** A newer connection that is current in the end stands, with its promise pending. */
  lemma NewerStands(s: Status, messages: seq<Message>)
    requires Consistent(s) && Newer(HandleAll(s, messages), s.sequence)
    ensures var r := HandleAll(s, messages); r.lifecycle == Opening(r.sequence, false) && Settled(r, r.sequence, 0)
  {
    NewerIsOpening(s, HandleAll(s, messages));
  }

  /** What a chunk does to connections it was not sent to: a message ends a newer connection if and only if
      the callbacks of the messages before it have left one current. */
  lemma LeftoverEndsIff(s: Status, messages: seq<Message>, k: nat)
    requires Consistent(s) && k < |messages|
    ensures EndsNewer(s, messages, k) <==> Newer(HandleAll(s, messages[..k]), s.sequence)
  {
    if Newer(HandleAll(s, messages[..k]), s.sequence) { LeftoverEnds(s, messages, k); }
  }

  // ---- A condition on the script alone --------------------------------------------------------------------

  const QUIET := Reaction([], false)
  const SWAP := Reaction([Disconnect, Connect], false)
  const SWAPPING := [SWAP, QUIET, QUIET, QUIET]

  /** Callbacks that do nothing. */
  function Quiets(n: nat): (r: seq<Reaction>)
    ensures |r| == n
  {
    seq(n, _ => QUIET)
  }

  /** As long as the callbacks do nothing the messages are handed over in order. */
  lemma {:induction false} QuietMessages(s: Status, messages: seq<Message>, rest: seq<Reaction>)
    requires s.lifecycle == Open(s.sequence, false) && AllOther(messages) && s.reactions == Quiets(|messages|) + rest
    ensures HandleAll(s, messages) == s.(delivered := s.delivered + messages, reactions := rest)
  {
    if messages == [] {
      assert s.delivered + messages == s.delivered && s.reactions == rest;
    } else {
      var n := |messages| - 1;
      var earlier := messages[..n];
      assert Quiets(|messages|) + rest == Quiets(n) + ([QUIET] + rest);
      QuietMessages(s, earlier, [QUIET] + rest);
      QuietCallback(s.(delivered := s.delivered + earlier + [messages[n]], reactions := [QUIET] + rest), rest);
      assert s.delivered + earlier + [messages[n]] == s.delivered + messages;
    }
  }

  lemma QuietCallback(s: Status, rest: seq<Reaction>)
    requires s.reactions == [QUIET] + rest
    ensures Callback(s) == s.(reactions := rest) && !Throws(s)
  {
    assert s.reactions[1..] == rest;
  }

  lemma QuietDisconnect(s: Status, rest: seq<Reaction>)
    requires s.lifecycle.Open? && !s.lifecycle.handshake && s.reactions == [QUIET] + rest
    ensures Perform(s, Disconnect) == s.(lifecycle := Idle, reactions := rest, emitted := s.emitted + [Disconnected],
                                         closed := s.closed + {s.lifecycle.id})
  {
    var told := s.(lifecycle := Idle, emitted := s.emitted + [Disconnected], closing := s.closing + {s.lifecycle.id});
    QuietCallback(told, rest);
    assert Fail(s.(closing := s.closing + {s.lifecycle.id})) == told.(reactions := rest);
  }

  lemma QuietConnect(s: Status, rest: seq<Reaction>)
    requires s.lifecycle.Idle? && s.reactions == [QUIET] + ([QUIET] + rest)
    ensures var id := s.sequence + 1;
            Perform(s, Connect) == s.(lifecycle := Opening(id, false), sequence := id, reactions := rest,
                                      emitted := s.emitted + [Connecting], settled := s.settled[id := 0],
                                      openings := s.openings + {id})
  {
    var id := s.sequence + 1;
    var begun := s.(lifecycle := Opening(id, false), sequence := id, emitted := s.emitted + [Connecting],
                    settled := s.settled[id := 0]);
    QuietCallback(begun, [QUIET] + rest);
    var reported := begun.(reactions := [QUIET] + rest);
    QuietCallback(reported, rest);
    assert OnStateChange(s.(sequence := id, lifecycle := Opening(id, false), settled := s.settled[id := 0]), Connecting) == reported;
    assert Start(s) == OpenTransport(reported, id);
  }

  lemma PerformTwo(s: Status, a: Call, b: Call)
    ensures PerformAll(s, [a, b]) == Perform(Perform(s, a), b)
  {
    assert [a, b][..1] == [a] && [a][..0] == [];
    assert PerformAll(s, [a, b][..1][..0]) == s;
  }

  /** A callback that disconnects and connects again, while the three callbacks this causes do nothing. */
  lemma SwapCallback(s: Status, rest: seq<Reaction>)
    requires Consistent(s) && s.lifecycle == Open(s.sequence, false) && s.reactions == SWAPPING + rest
    ensures var r := Callback(s);
            && r.lifecycle == Opening(s.sequence + 1, false) && r.sequence == s.sequence + 1
            && Settled(r, s.sequence + 1, 0) && r.reactions == rest && r.delivered == s.delivered
  {
    var nested := [QUIET] + ([QUIET] + ([QUIET] + rest));
    assert s.reactions[1..] == nested;
    var called := s.(reactions := nested);
    PerformTwo(called, Disconnect, Connect);
    QuietDisconnect(called, [QUIET] + ([QUIET] + rest));
    QuietConnect(Perform(called, Disconnect), rest);
  }

  /** The callbacks of some messages: each disconnects and connects again, or does nothing. */
  function Script(swaps: seq<bool>): seq<Reaction> {
    if swaps == [] then [] else (if swaps[0] then SWAPPING else [QUIET]) + Script(swaps[1..])
  }

  lemma {:induction false} QuietScript(swaps: seq<bool>, k: nat)
    requires k <= |swaps| && forall j :: 0 <= j < k ==> !swaps[j]
    ensures Script(swaps) == Quiets(k) + Script(swaps[k..])
  {
    if k == 0 {
      assert swaps[0..] == swaps;
    } else {
      QuietScript(swaps, k - 1);
      assert swaps[k - 1..][1..] == swaps[k..];
      assert Quiets(k) + Script(swaps[k..]) == Quiets(k - 1) + ([QUIET] + Script(swaps[k..]));
    }
  }

  lemma NoQuiets(rest: seq<Reaction>)
    ensures Quiets(0) + rest == rest
  {
  }

  lemma QuietUpTo(s: Status, messages: seq<Message>, n: nat, k: nat, rest: seq<Reaction>)
    requires s.lifecycle == Open(s.sequence, false) && AllOther(messages) && s.reactions == Quiets(n) + rest
    requires k <= n <= |messages|
    ensures HandleAll(s, messages[..k]) == s.(delivered := s.delivered + messages[..k], reactions := Quiets(n - k) + rest)
  {
    assert Quiets(n) + rest == Quiets(k) + (Quiets(n - k) + rest);
    QuietMessages(s, messages[..k], Quiets(n - k) + rest);
  }

  /** Up to the message whose callback is the first to swap nothing happens; after it the new connection is
      the current one. */
  lemma UpToSwap(s: Status, messages: seq<Message>, k: nat, rest: seq<Reaction>)
    requires Consistent(s) && s.lifecycle == Open(s.sequence, false) && AllOther(messages) && k < |messages|
    requires s.reactions == Quiets(k) + (SWAPPING + rest)
    ensures var r := HandleAll(s, messages[..k + 1]);
            && r.lifecycle == Opening(s.sequence + 1, false) && r.sequence == s.sequence + 1
            && Settled(r, s.sequence + 1, 0) && r.reactions == rest && r.delivered == s.delivered + messages[..k + 1]
  {
    hide HandleAll, Callback, Quiets;
    QuietUpTo(s, messages, k, k, SWAPPING + rest);
    HandleNext(s, messages, k);
    var before := HandleAll(s, messages[..k]);
    NoQuiets(SWAPPING + rest);
    assert before.delivered + [messages[k]] == s.delivered + messages[..k + 1];
    SwapCallback(before.(delivered := before.delivered + [messages[k]]), rest);
  }

  lemma NotNewer(s: Status, messages: seq<Message>, k: nat)
    requires k < |messages| && !Newer(HandleAll(s, messages[..k]), s.sequence)
    ensures !EndsNewer(s, messages, k)
  {
  }

  ghost predicate SomeMessageEndsNewer(s: Status, messages: seq<Message>) {
    exists k | 0 <= k < |messages| :: EndsNewer(s, messages, k)
  }

  lemma QuietEndsNothing(s: Status, messages: seq<Message>, rest: seq<Reaction>)
    requires s.lifecycle == Open(s.sequence, false) && AllOther(messages) && s.reactions == Quiets(|messages|) + rest
    ensures HandleAll(s, messages) == s.(delivered := s.delivered + messages, reactions := rest)
    ensures !SomeMessageEndsNewer(s, messages)
  {
    QuietMessages(s, messages, rest);
    forall k | 0 <= k < |messages| ensures !EndsNewer(s, messages, k) {
      hide HandleAll, Quiets, AllOther;
      QuietUpTo(s, messages, |messages|, k, rest);
    }
  }

  /** The callback of the k-th message is the first that swaps: the new connection is ended by the chunk if
      and only if a message is left, and else it stands. */
  lemma FirstSwapEndsIff(s: Status, messages: seq<Message>, k: nat, rest: seq<Reaction>)
    requires Consistent(s) && s.lifecycle == Open(s.sequence, false) && AllOther(messages) && k < |messages|
    requires s.reactions == Quiets(k) + (SWAPPING + rest)
    ensures SomeMessageEndsNewer(s, messages) <==> k + 1 < |messages|
    ensures var r := HandleAll(s, messages);
            if k + 1 < |messages| then Over(r, s.sequence + 1)
            else r.lifecycle == Opening(s.sequence + 1, false) && Settled(r, s.sequence + 1, 0) && r.delivered == s.delivered + messages
  {
    hide HandleAll, Keeps, Consistent, SettledOnce, Settled, Over, Quiets, AllOther, EndsNewer;
    UpToSwap(s, messages, k, rest);
    if k + 1 < |messages| {
      LeftoverEnds(s, messages, k + 1);
    } else {
      assert messages[..k + 1] == messages;
      forall j | 0 <= j < |messages| ensures !EndsNewer(s, messages, j) {
        QuietUpTo(s, messages, k, j, SWAPPING + rest);
        NotNewer(s, messages, j);
      }
    }
  }

  ghost predicate SwapsBeforeLast(swaps: seq<bool>) { exists k | 0 <= k < |swaps| - 1 :: swaps[k] }

  lemma FirstSwap(swaps: seq<bool>) returns (k: nat)
    ensures k <= |swaps| && (k < |swaps| ==> swaps[k]) && forall j :: 0 <= j < k ==> !swaps[j]
    ensures SwapsBeforeLast(swaps) <==> k + 1 < |swaps|
  {
    k := 0;
    while k < |swaps| && !swaps[k]
      invariant k <= |swaps| && forall j :: 0 <= j < k ==> !swaps[j]
    {
      k := k + 1;
    }
  }

  lemma Associate<T>(a: seq<T>, b: seq<T>, c: seq<T>)
    ensures (a + b) + c == a + (b + c)
  {
  }

  lemma SplitScript(swaps: seq<bool>, k: nat, rest: seq<Reaction>)
    requires k <= |swaps| && (k < |swaps| ==> swaps[k]) && forall j :: 0 <= j < k ==> !swaps[j]
    ensures Script(swaps) + rest == Quiets(k) + if k == |swaps| then rest else SWAPPING + (Script(swaps[k + 1..]) + rest)
  {
    hide Quiets;
    QuietScript(swaps, k);
    Associate(Quiets(k), Script(swaps[k..]), rest);
    if k == |swaps| {
      assert Script(swaps[k..]) == [] && [] + rest == rest;
    } else {
      assert swaps[k..][0] && swaps[k..][1..] == swaps[k + 1..];
      Associate(SWAPPING, Script(swaps[k + 1..]), rest);
    }
  }

  /** For an open connection and callbacks that either do nothing or disconnect and connect again: a
      connection started meanwhile is ended by a message of the chunk if and only if the callback of a
      message before the last one swaps. If none swaps all messages are handed over and nothing else
      happens; if only the last one does the new connection stands. */
  lemma ScriptEndsIff(s: Status, messages: seq<Message>, swaps: seq<bool>, rest: seq<Reaction>)
    requires Consistent(s) && s.lifecycle == Open(s.sequence, false) && AllOther(messages)
    requires |swaps| == |messages| && s.reactions == Script(swaps) + rest
    ensures SomeMessageEndsNewer(s, messages) <==> SwapsBeforeLast(swaps)
    ensures var r := HandleAll(s, messages);
            if SwapsBeforeLast(swaps) then Over(r, s.sequence + 1)
            else if messages != [] && swaps[|messages| - 1] then
              r.lifecycle == Opening(s.sequence + 1, false) && Settled(r, s.sequence + 1, 0) && r.delivered == s.delivered + messages
            else r == s.(delivered := s.delivered + messages, reactions := rest)
  {
    hide *;
    var k := FirstSwap(swaps);
    SplitScript(swaps, k, rest);
    if k == |messages| {
      QuietEndsNothing(s, messages, rest);
    } else {
      FirstSwapEndsIff(s, messages, k, Script(swaps[k + 1..]) + rest);
    }
  }

  lemma QuietHandshake(s: Status, rest: seq<Reaction>)
    requires s.lifecycle.Opening? && s.lifecycle.transport && s.reactions == [QUIET] + ([QUIET] + rest)
    ensures HandleMessage(s, Hello) == s.(lifecycle := Open(s.lifecycle.id, false), reactions := rest,
                                          emitted := s.emitted + [Connected], delivered := s.delivered + [Hello],
                                          settled := Bump(s.settled, s.lifecycle.id))
  {
    var begun := s.(lifecycle := Open(s.lifecycle.id, true), delivered := s.delivered + [Hello]);
    QuietCallback(begun, [QUIET] + rest);
    var told := begun.(reactions := [QUIET] + rest);
    QuietCallback(told.(emitted := told.emitted + [Connected]), rest);
    assert OnStateChange(told, Connected) == told.(emitted := told.emitted + [Connected], reactions := rest);
    assert HandleMessage(s, Hello) == CompleteHandshake(s);
  }

  lemma RunThree(s: Status, a: Event, b: Event, c: Event)
    ensures Run(s, [a, b, c]) == Handle(Handle(Handle(s, a), b), c)
  {
    hide Handle;
    assert [a, b, c][..2] == [a, b] && [a, b][..1] == [a] && [a][..0] == [];
    assert Run(s, [a]) == Handle(Run(s, []), a);
    assert Run(s, [a, b]) == Handle(Run(s, [a]), b);
  }

  const GREETING := [QUIET] + ([QUIET] + SWAPPING)

  /** A new connection whose transport has been opened. */
  function Resolved(): Status {
    Status(Opening(1, true), 1, GREETING, {}, [Connecting], [], map[1 := 0], {1}, {}, {}, {})
  }

  /** A run with one chunk: the greeting and some messages. */
  function Greeted(messages: seq<Message>): Status {
    Run(New([QUIET] + ([QUIET] + GREETING)),
        [Called(Connect), FactoryResolved(1), Called(Data(1, Some([Hello] + messages)))])
  }

  lemma GreetedIsResolved(messages: seq<Message>)
    ensures Greeted(messages) == HandleAll(Resolved(), [Hello] + messages)
  {
    hide HandleAll;
    var start := New([QUIET] + ([QUIET] + GREETING));
    RunThree(start, Called(Connect), FactoryResolved(1), Called(Data(1, Some([Hello] + messages))));
    QuietConnect(start, GREETING);
    assert Handle(Handle(start, Called(Connect)), FactoryResolved(1)) == Resolved();
    assert HandleData(Resolved(), 1, Some([Hello] + messages)) == HandleAll(Resolved(), [Hello] + messages);
  }

  /** Once the greeting has been handled, the rest of the chunk is handled like a chunk of an open connection. */
  lemma GreetingHandled(messages: seq<Message>) returns (s: Status)
    ensures Greeted(messages) == HandleAll(s, messages) && Consistent(s) && s.sequence == 1
    ensures s.lifecycle == Open(1, false) && s.reactions == Quiets(0) + (SWAPPING + [])
  {
    hide HandleAll, HandleMessage, Greeted;
    s := HandleMessage(Resolved(), Hello);
    QuietHandshake(Resolved(), SWAPPING);
    GreetedIsResolved(messages);
    HandleAllConcat(Resolved(), [Hello], messages);
    HandleOne(Resolved(), Hello);
  }

  /** A run in which the leftover message of a chunk ends a connection it has nothing to do with: the callback
      of the first message disconnects and connects, and the second message ends connection 2. Without the
      second message connection 2 stands. */
  lemma LeftoverRace()
    ensures Over(Greeted([Other("a"), Other("b")]), 2)
    ensures var r := Greeted([Other("a")]); r.lifecycle == Opening(2, false) && Settled(r, 2, 0)
  {
    hide HandleAll, Greeted, Keeps, Consistent, SettledOnce, Settled, Over, Quiets;
    var one, two := [Other("a")], [Other("a"), Other("b")];
    var s := GreetingHandled(two);
    UpToSwap(s, two, 0, []);
    LeftoverEnds(s, two, 1);
    s := GreetingHandled(one);
    FirstSwapEndsIff(s, one, 0, []);
  }
}
