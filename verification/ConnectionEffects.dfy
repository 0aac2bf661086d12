/** packages/client/src/connection.ts: which calls and events end a connection, exactly, and what every other
    one leaves alone, as long as the callbacks they cause do nothing. */
module ConnectionEffects {
  import opened Options
  import opened ConnectionSpec

  ghost predicate AllQuiet(s: Status) { forall k :: 0 <= k < |s.reactions| ==> s.reactions[k] == QUIET }

  /** But for the callbacks that have been used up, nothing has changed. */
  predicate Same(s: Status, r: Status) { r == s.(reactions := r.reactions) }

  function Rest(reactions: seq<Reaction>): seq<Reaction> { if reactions == [] then [] else reactions[1..] }

  /** The connection there was is over: it is reported, a promise still open is settled, its transport is closed
      unless it has closed by itself, and nothing else has changed. */
  ghost predicate Ended(s: Status, r: Status, closes: bool) {
    && !s.lifecycle.Idle?
    && var id := s.lifecycle.id;
       && AllQuiet(r)
       && Same(s.(lifecycle := Idle, emitted := s.emitted + [Disconnected],
                  settled := if s.lifecycle.Awaits(id) then Bump(s.settled, id) else s.settled,
                  closed := if closes && s.lifecycle.HasTransport(id) then s.closed + {id} else s.closed), r)
  }

  lemma CallbackIsQuiet(s: Status)
    requires AllQuiet(s)
    ensures Callback(s) == s.(reactions := Rest(s.reactions)) && !Throws(s) && AllQuiet(Callback(s))
  {
  }

  lemma StateChangeIsQuiet(s: Status, state: State)
    requires AllQuiet(s)
    ensures OnStateChange(s, state) == s.(emitted := s.emitted + [state], reactions := Rest(s.reactions))
    ensures AllQuiet(OnStateChange(s, state))
  {
    CallbackIsQuiet(s.(emitted := s.emitted + [state]));
  }

  lemma FailEnds(s: Status)
    requires AllQuiet(s)
    ensures if s.lifecycle.Idle? then Fail(s) == s else Ended(s, Fail(s), false)
  {
    hide OnStateChange;
    if !s.lifecycle.Idle? {
      var id := s.lifecycle.id;
      StateChangeIsQuiet(s.(lifecycle := Idle, settled := if s.lifecycle.Awaits(id) then Bump(s.settled, id) else s.settled),
                         Disconnected);
    }
  }

  lemma FailAndCloseEnds(s: Status)
    requires AllQuiet(s)
    ensures if s.lifecycle.Idle? then FailAndClose(s) == s else Ended(s, FailAndClose(s), true)
  {
    hide Fail;
    FailEnds(s);
    if !s.lifecycle.Idle? { FailEnds(s.(closing := s.closing + {s.lifecycle.id})); }
  }

  // ---- Messages ----------------------------------------------------------------------------------------------

  /** The messages before the first one that only belongs into a handshake. */
  function Leading(messages: seq<Message>): (n: nat)
    ensures n <= |messages| && (n < |messages| ==> !messages[n].Other?)
    ensures forall k :: 0 <= k < n ==> messages[k].Other?
  {
    if messages == [] || !messages[0].Other? then 0 else 1 + Leading(messages[1..])
  }

  lemma LeadingOfPrefix(messages: seq<Message>, n: nat)
    requires messages != [] && n == |messages| - 1
    ensures Leading(messages[..n]) == if Leading(messages) <= n then Leading(messages) else n
    ensures Leading(messages) == |messages| <==> Leading(messages[..n]) == n && messages[n].Other?
  {
    var before := Leading(messages[..n]);
    if before < n { assert !messages[..n][before].Other?; }
    assert forall k :: 0 <= k < before ==> messages[..n][k].Other?;
    if Leading(messages) < n { assert !messages[..n][Leading(messages)].Other?; }
  }

  /** An open connection hands over its messages in order; the first one that belongs into a handshake ends it,
      and those after it are lost. */
  lemma {:induction false} OpenHandles(s: Status, messages: seq<Message>)
    requires s.lifecycle.Open? && AllQuiet(s)
    ensures var (r, n) := (HandleAll(s, messages), Leading(messages));
            var handed := s.(delivered := s.delivered + messages[..n]);
            if n == |messages| then Same(handed, r) && AllQuiet(r) else Ended(handed, r, true)
    decreases |messages|
  {
    hide FailAndClose, Callback;
    if messages == [] {
      assert s.delivered + [] == s.delivered;
    } else {
      var n := |messages| - 1;
      var m, k := messages[n], Leading(messages);
      LeadingOfPrefix(messages, n);
      OpenHandles(s, messages[..n]);
      var before := HandleAll(s, messages[..n]);
      if k >= n {
        assert messages[..n][..n] == messages[..n];
        if m.Other? {
          assert messages[..|messages|] == messages[..n] + [m];
          assert s.delivered + messages[..n] + [m] == s.delivered + messages;
          CallbackIsQuiet(before.(delivered := before.delivered + [m]));
        } else {
          FailAndCloseEnds(before);
        }
      } else {
        assert messages[..n][..k] == messages[..k];
      }
    }
  }

  /** The connection after a greeting that was expected. */
  function AfterHello(s: Status): Status
    requires s.lifecycle.Opening?
  {
    s.(lifecycle := Open(s.lifecycle.id, false), emitted := s.emitted + [Connected], delivered := s.delivered + [Hello],
       settled := Bump(s.settled, s.lifecycle.id))
  }

  lemma HelloOpens(s: Status)
    requires s.lifecycle.Opening? && s.lifecycle.transport && AllQuiet(s)
    ensures Same(AfterHello(s), HandleMessage(s, Hello)) && AllQuiet(HandleMessage(s, Hello))
  {
    var begun := s.(lifecycle := Open(s.lifecycle.id, true), delivered := s.delivered + [Hello]);
    CallbackIsQuiet(begun);
    StateChangeIsQuiet(Callback(begun), Connected);
    hide OnStateChange, Callback;
    assert HandleMessage(s, Hello) == CompleteHandshake(s) == Announce(Callback(begun));
  }

  /** A connection whose transport is there waits for its greeting: any other message ends it, and after the
      greeting the rest is handled as by an open connection. */
  lemma GreetingHandles(s: Status, messages: seq<Message>)
    requires s.lifecycle.Opening? && s.lifecycle.transport && AllQuiet(s)
    ensures var r := HandleAll(s, messages);
            if messages == [] then r == s
            else if messages[0] != Hello then Ended(s, r, true)
            else var rest := messages[1..];
                 var n := Leading(rest);
                 var handed := AfterHello(s).(delivered := s.delivered + [Hello] + rest[..n]);
                 if n == |rest| then Same(handed, r) && AllQuiet(r) else Ended(handed, r, true)
  {
    hide HandleMessage, Leading;
    HandleNone(s);
    if messages != [] {
      assert messages == [messages[0]] + messages[1..];
      HandleAllConcat(s, [messages[0]], messages[1..]);
      HandleOne(s, messages[0]);
      hide HandleAll;
      var first := HandleMessage(s, messages[0]);
      if messages[0] == Hello {
        HelloOpens(s);
        OpenHandles(first, messages[1..]);
      } else {
        WrongGreetingEnds(s, messages[0]);
        IdleHandlesNothing(first, messages[1..]);
      }
    }
  }

  lemma WrongGreetingEnds(s: Status, message: Message)
    requires s.lifecycle.Opening? && message != Hello && AllQuiet(s)
    ensures Ended(s, HandleMessage(s, message), true)
  {
    FailAndCloseEnds(s);
    hide FailAndClose, Ended;
  }

  /** The data cannot be decoded, comes before the transport is known, or holds a message that is out of place. */
  predicate BadData(lifecycle: Lifecycle, decoded: Option<seq<Message>>)
    requires !lifecycle.Idle?
  {
    || decoded == None
    || (lifecycle.Opening? && !lifecycle.transport)
    || (lifecycle.Opening? && decoded.value != [] && (decoded.value[0] != Hello || exists k :: 0 < k < |decoded.value| && !decoded.value[k].Other?))
    || (lifecycle.Open? && exists k :: 0 <= k < |decoded.value| && !decoded.value[k].Other?)
  }

  // ---- Calls -----------------------------------------------------------------------------------------------------

  /** The calls that end a connection. */
  predicate EndedBy(lifecycle: Lifecycle, call: Call)
    requires !lifecycle.Idle?
  {
    match call
    case Connect => false
    case Disconnect => true
    case Send(fails) => lifecycle.Open? && fails
    case Data(id, decoded) => lifecycle.id == id && BadData(lifecycle, decoded)
    case Closed(id) => lifecycle.id == id
    case Errored(id) => lifecycle.id == id
  }

  lemma DataEndsIff(s: Status, id: nat, decoded: Option<seq<Message>>)
    requires !s.lifecycle.Idle? && AllQuiet(s)
    ensures var r := HandleData(s, id, decoded);
            && AllQuiet(r) && (r.lifecycle.Idle? <==> s.lifecycle.id == id && BadData(s.lifecycle, decoded))
            && (s.lifecycle.id != id ==> r == s)
  {
    if s.lifecycle.id == id {
      hide FailAndClose, HandleAll;
      FailAndCloseEnds(s);
      if decoded.Some? && !(s.lifecycle.Opening? && !s.lifecycle.transport) {
        var messages := decoded.value;
        if s.lifecycle.Open? {
          OpenHandles(s, messages);
        } else {
          GreetingHandles(s, messages);
          if messages != [] { assert forall k :: 0 <= k < |messages[1..]| ==> messages[1..][k] == messages[k + 1]; }
        }
      }
    }
  }

  /** Exactly these calls end a connection. A call that does not end it, and that does not bring it data,
      changes nothing: in particular a frame that is sent, or another request to connect. */
  lemma CallEndsIff(s: Status, call: Call)
    requires !s.lifecycle.Idle? && AllQuiet(s)
    ensures var r := Perform(s, call);
            && (r.lifecycle.Idle? <==> EndedBy(s.lifecycle, call))
            && (EndedBy(s.lifecycle, call) && !call.Data? && !call.Closed? ==> Ended(s, r, true))
            && (call.Closed? && EndedBy(s.lifecycle, call) ==> Ended(s.(reported := s.reported + {call.id}), r, false))
            && (!EndedBy(s.lifecycle, call) && !(call.Data? && call.id == s.lifecycle.id) ==>
                  r == if call.Closed? then s.(reported := s.reported + {call.id}) else s)
  {
    hide FailAndClose, Fail, HandleData;
    FailAndCloseEnds(s);
    match call
    case Data(id, decoded) => DataEndsIff(s, id, decoded);
    case Closed(id) => FailEnds(s.(reported := s.reported + {id}));
    case _ =>
  }

  /** When the connection is down only a request to connect does anything. */
  lemma OnlyConnectStarts(s: Status, call: Call)
    requires s.lifecycle.Idle? && AllQuiet(s)
    ensures var (r, id) := (Perform(s, call), s.sequence + 1);
            && (call == Connect ==>
                  Same(s.(lifecycle := Opening(id, false), sequence := id, emitted := s.emitted + [Connecting],
                          settled := s.settled[id := 0], openings := s.openings + {id}), r))
            && (call != Connect ==> r == if call.Closed? then s.(reported := s.reported + {call.id}) else s)
  {
    if call == Connect {
      var id := s.sequence + 1;
      var begun := s.(sequence := id, lifecycle := Opening(id, false), settled := s.settled[id := 0]);
      StateChangeIsQuiet(begun, Connecting);
      CallbackIsQuiet(OnStateChange(begun, Connecting));
      hide OnStateChange, Callback;
      assert Start(s) == OpenTransport(OnStateChange(begun, Connecting), id);
    }
  }

  /** Whatever its callbacks would do, a frame that is sent changes nothing. */
  lemma SendIsSilent(s: Status, fails: bool)
    ensures !(s.lifecycle.Open? && fails) ==> Perform(s, Send(fails)) == s
  {
  }

  // ---- Callbacks that replace the connection ---------------------------------------------------------------------

  /** Whatever the handshake callback does: if the connection is no longer the one that was greeted, nothing more
      is done to what has taken its place, and the same holds for the report that follows. */
  lemma HandshakeLeavesNewer(s: Status)
    requires s.lifecycle.Opening? && s.lifecycle.transport
    ensures var (r, connected) := (HandleMessage(s, Hello), Open(s.lifecycle.id, true));
            var begun := s.(lifecycle := connected, delivered := s.delivered + [Hello]);
            var told := Callback(begun);
            var reported := OnStateChange(told, Connected);
            && (told.lifecycle != connected ==> r == told)
            && (told.lifecycle == connected && !Throws(begun) ==>
                  r == if reported.lifecycle != connected then reported
                       else reported.(lifecycle := Open(s.lifecycle.id, false),
                                      settled := Bump(reported.settled, s.lifecycle.id)))
  {
    hide Callback, OnStateChange, FailAndClose;
    assert HandleMessage(s, Hello) == CompleteHandshake(s);
  }

  /** A factory that throws once another connection is current, or none is, ends nothing. */
  lemma ThrowLeavesNewer(s: Status, id: nat)
    requires Throws(s) && !Callback(s).lifecycle.Current(id)
    ensures OpenTransport(s, id) == Callback(s)
  {
    hide Callback;
  }

  // ---- Callbacks that throw --------------------------------------------------------------------------------------

  const THROWING := Reaction([], true)

  lemma ThrowingCallback(s: Status, rest: seq<Reaction>)
    requires s.reactions == [THROWING] + rest
    ensures Callback(s) == s.(reactions := rest) && Throws(s)
  {
    assert s.reactions[1..] == rest;
    assert PerformAll(s.(reactions := rest), []) == s.(reactions := rest);
  }

  /** A handshake callback that throws ends the connection, although the greeting was the one expected. */
  lemma ThrowEndsHandshake(s: Status, rest: Status)
    requires s.lifecycle.Opening? && s.lifecycle.transport && AllQuiet(rest)
    requires s == rest.(reactions := [THROWING] + rest.reactions)
    ensures Ended(rest.(lifecycle := Open(s.lifecycle.id, true), delivered := s.delivered + [Hello]), HandleMessage(s, Hello), true)
  {
    var begun := s.(lifecycle := Open(s.lifecycle.id, true), delivered := s.delivered + [Hello]);
    var told := begun.(reactions := rest.reactions);
    ThrowingCallback(begun, rest.reactions);
    FailAndCloseEnds(told);
    hide FailAndClose, Callback, Ended;
    assert HandleMessage(s, Hello) == CompleteHandshake(s) == FailAndClose(told);
  }

  /** A factory that throws at once ends the connection it was called for: nobody waits for its transport. */
  lemma ThrowEndsOpening(s: Status, rest: Status, id: nat)
    requires s.lifecycle == Opening(id, false) && AllQuiet(rest) && s == rest.(reactions := [THROWING] + rest.reactions)
    ensures Ended(rest, OpenTransport(s, id), false)
  {
    ThrowingCallback(s, rest.reactions);
    FailEnds(rest);
    hide Fail, Callback, Ended;
  }

  /** Among the events of later jobs, a factory that rejects ends the connection it was called for, a frame that
      could not be sent the one whose transport it was given to, and a transport that has been opened none: it is
      adopted by the connection it was opened for, if that still waits for it, and closed otherwise. */
  lemma EventEndsIff(s: Status, event: Event)
    requires AllQuiet(s) && !event.Called?
    ensures var (r, waiting) := (Handle(s, event), event.id in s.openings);
            match event
            case FactoryResolved(id) =>
              if !waiting then r == s
              else r == s.(openings := s.openings - {id}, transports := s.transports + {id}, lifecycle := r.lifecycle,
                           closed := if s.lifecycle.Opening? && s.lifecycle.id == id then s.closed else s.closed + {id})
                   && r.lifecycle == if s.lifecycle.Opening? && s.lifecycle.id == id then Opening(id, true) else s.lifecycle
            case FactoryRejected(id) =>
              if waiting && s.lifecycle.Current(id) then Ended(s.(openings := s.openings - {id}), r, false)
              else r == if waiting then s.(openings := s.openings - {id}) else s
            case SendRejected(id) =>
              if s.lifecycle.HasTransport(id) then Ended(s, r, true) else r == s
            case _ => false
  {
    hide FailAndClose, Fail;
    FailAndCloseEnds(s);
    FailEnds(s.(openings := s.openings - {event.id}));
  }
}
