/** packages/client/src/connection.ts: one connection at a time over transports that may come late, close
    by themselves or fail. Callbacks may call back into the connection: each callback takes the next
    reaction from a script and performs it, so that reactions nest as deeply as the script goes. */
module Connection {
  import opened Options
  import opened Spec = ConnectionSpec
  import Effects = ConnectionEffects

  // ---- The states reported to the owner ----------------------------------------------------------------

  predicate Follows(a: State, b: State) {
    match b
    case Connecting => a == Disconnected
    case Connected => a == Connecting
    case Disconnected => a != Disconnected
  }

  function Last(emitted: seq<State>): State {
    if emitted == [] then Disconnected else emitted[|emitted| - 1]
  }

  /** A prefix of (connecting connected? disconnected)*. */
  ghost predicate Grammar(emitted: seq<State>) {
    emitted == [] || (Grammar(emitted[..|emitted| - 1]) && Follows(Last(emitted[..|emitted| - 1]), Last(emitted)))
  }

  lemma GrammarGrows(emitted: seq<State>, s: State)
    requires Grammar(emitted) && Follows(Last(emitted), s)
    ensures Grammar(emitted + [s]) && Last(emitted + [s]) == s
  {
    assert (emitted + [s])[..|emitted|] == emitted;
  }

  class Connection {
    var lifecycle: Lifecycle
    var sequence: nat
    var reactions: seq<Reaction>
    /** Connections whose transport factory has not answered yet. */
    var openings: set<nat>

    ghost var emitted: seq<State>
    /** The messages handed to the owner; a hello is handed over as its snapshot. */
    ghost var delivered: seq<Message>
    /** How often each handshake promise has been settled. */
    ghost var settled: map<nat, nat>
    ghost var transports: set<nat>
    ghost var closed: set<nat>
    ghost var reported: set<nat>
    /** Transports that a call further up the stack is about to close. */
    ghost var closing: set<nat>

    ghost predicate StatesMatch()
      reads this`lifecycle, this`emitted
    {
      && Grammar(emitted)
      && match lifecycle
         case Idle => Last(emitted) == Disconnected
         case Opening(_, _) => Last(emitted) == Connecting
         case Open(_, handshake) => Last(emitted) == Connected || (handshake && Last(emitted) == Connecting)
    }

    ghost predicate SettledOnce()
      reads this`lifecycle, this`sequence, this`settled
    {
      Spec.SettledOnce(lifecycle, sequence, settled)
    }

    /** Every transport ever opened is in use, closed, about to be closed, or has reported its own close. */
    ghost predicate Accounted()
      reads this`lifecycle, this`sequence, this`openings, this`transports, this`closed, this`reported, this`closing
    {
      && (forall t :: t in transports ==>
            && 0 < t <= sequence && t !in openings
            && (lifecycle.HasTransport(t) || t in closed || t in reported || t in closing))
      && (forall t :: t in openings ==> 0 < t <= sequence && !lifecycle.HasTransport(t))
    }

    ghost predicate Valid()
      reads this
    {
      StatesMatch() && SettledOnce() && Accounted()
    }

    ghost function View(): Status
      reads this
    {
      Status(lifecycle, sequence, reactions, openings, emitted, delivered, settled, transports, closed, reported, closing)
    }

    constructor (reactions: seq<Reaction>)
      ensures View() == New(reactions)
      ensures Valid() && lifecycle == Idle && sequence == 0 && closing == {} && emitted == []
    {
      lifecycle, sequence, this.reactions := Idle, 0, reactions;
      emitted, delivered, settled := [], [], map[];
      openings, transports, closed, reported, closing := {}, {}, {}, {}, {};
    }

    /** What every synchronous call keeps: a connection may get further or end, a later one has no
        transport yet, and whatever the callers up the stack still have to close is left to them. */
    twostate predicate Keeps()
      reads this
    {
      && Valid() && closing == old(closing) && |reactions| <= old(|reactions|)
      && sequence >= old(sequence) && old(emitted) <= emitted && old(transports) == transports && old(delivered) <= delivered
      && (sequence == old(sequence) && lifecycle == old(lifecycle) ==> emitted == old(emitted))
      && (if sequence > old(sequence) then lifecycle.Idle? || lifecycle == Opening(sequence, false)
          else Evolves(old(lifecycle), lifecycle))
    }

    twostate predicate Untouched()
      reads this
    {
      && lifecycle == old(lifecycle) && sequence == old(sequence) && emitted == old(emitted) && settled == old(settled)
      && closed == old(closed) && delivered == old(delivered)
    }

    // ---- Callbacks -------------------------------------------------------------------------------------

    method Callback() returns (throws: bool)
      requires Valid()
      modifies this
      ensures Keeps()
      ensures old(reactions) == [] ==> !throws && Untouched()
      ensures View() == Spec.Callback(old(View())) && throws == Throws(old(View()))
      decreases |reactions|, 0
    {
      hide Spec.Keeps, Grammar;
      if |reactions| == 0 { return false; }
      var reaction := reactions[0];
      reactions := reactions[1..];
      throws := reaction.throws;
      for k := 0 to |reaction.calls|
        invariant Keeps() && |reactions| < old(|reactions|)
        invariant View() == PerformAll(old(View()).(reactions := old(reactions[1..])), reaction.calls[..k])
      {
        Perform(reaction.calls[k]);
        assert reaction.calls[..k + 1][..k] == reaction.calls[..k];
      }
      assert reaction.calls[..|reaction.calls|] == reaction.calls;
    }

    /** Reports a state that has just been entered. */
    method OnStateChange(s: State)
      requires Grammar(emitted) && Follows(Last(emitted), s) && SettledOnce() && Accounted()
      requires match s
               case Disconnected => lifecycle.Idle?
               case Connecting => lifecycle.Opening?
               case Connected => lifecycle.Open?
      modifies this
      ensures old(emitted) + [s] <= emitted && Valid() && closing == old(closing) && |reactions| <= old(|reactions|)
      ensures sequence >= old(sequence) && old(transports) == transports && old(delivered) <= delivered
      ensures sequence == old(sequence) && lifecycle == old(lifecycle) ==> emitted == old(emitted) + [s]
      ensures old(reactions) == [] ==> sequence == old(sequence) && lifecycle == old(lifecycle) && delivered == old(delivered)
      ensures if sequence > old(sequence) then lifecycle.Idle? || lifecycle == Opening(sequence, false)
              else Evolves(old(lifecycle), lifecycle)
      ensures View() == Spec.OnStateChange(old(View()), s)
      decreases |reactions|, 1
    {
      hide Spec.Keeps, Spec.Callback;
      GrammarGrows(emitted, s);
      emitted := emitted + [s];
      var _ := Callback();
    }

    // ---- Ending ------------------------------------------------------------------------------------------

    /** The connection there was is over, though a callback may have started another one. */
    twostate predicate Ends()
      reads this
    {
      Keeps() && (sequence == old(sequence) ==> lifecycle.Idle?)
    }

    method Fail()
      requires StatesMatch() && SettledOnce()
      requires !lifecycle.Idle? && lifecycle.HasTransport(lifecycle.id) ==> lifecycle.id in closing || lifecycle.id in reported
      requires Accounted()
      modifies this
      ensures Ends()
      ensures old(reactions) == [] && !old(lifecycle.Idle?) ==> emitted == old(emitted) + [Disconnected] && lifecycle.Idle?
      ensures View() == Spec.Fail(old(View()))
      decreases |reactions|, 2
    {
      hide Spec.Keeps, Spec.OnStateChange, Grammar;
      if lifecycle.Idle? { return; }
      var was := lifecycle;
      lifecycle := Idle;
      if was.Awaits(was.id) { settled := settled[was.id := settled[was.id] + 1]; }
      OnStateChange(Disconnected);
    }

    method FailAndClose()
      requires Valid()
      modifies this
      ensures Ends()
      ensures !old(lifecycle.Idle?) && old(lifecycle.HasTransport(lifecycle.id)) ==> old(lifecycle.id) in closed
      ensures old(reactions) == [] && !old(lifecycle.Idle?) ==> emitted == old(emitted) + [Disconnected] && lifecycle.Idle?
      ensures View() == Spec.FailAndClose(old(View()))
      decreases |reactions|, 3
    {
      hide Spec.Keeps, Spec.Fail, Grammar;
      if lifecycle.Idle? || !lifecycle.HasTransport(lifecycle.id) {
        Fail();
        return;
      }
      var transport := lifecycle.id;
      ghost var before := closing;
      closing := closing + {transport};
      Fail();
      closed, closing := closed + {transport}, before;
    }

    method HandleClose()
      requires Valid() && (lifecycle.Idle? || lifecycle.id in reported)
      modifies this
      ensures Ends()
      ensures View() == Spec.Fail(old(View()))
      decreases |reactions|, 3
    {
      Fail();
    }

    // ---- Calls --------------------------------------------------------------------------------------------

    method Perform(call: Call)
      requires Valid()
      modifies this
      ensures Keeps()
      ensures (call.Data? || call.Closed? || call.Errored?) && !old(lifecycle.Current(call.id)) ==> Untouched()
      ensures call.Connect? ==> sequence >= old(sequence) + if old(lifecycle.Idle?) then 1 else 0
      ensures call.Disconnect? || (call.Send? && call.fails && old(lifecycle.Open?)) ==> Ends()
      ensures (call.Closed? || call.Errored?) && old(lifecycle.Current(call.id)) ==> Ends()
      ensures call.Errored? && old(lifecycle.HasTransport(call.id)) ==> call.id in closed
      ensures call.Disconnect? && !old(lifecycle.Idle?) && old(lifecycle.HasTransport(lifecycle.id)) ==>
                old(lifecycle.id) in closed
      ensures call.Send? && !(call.fails && old(lifecycle.Open?)) ==> View() == old(View())
      ensures (if old(lifecycle.Idle?) then call.Disconnect? else call.Connect?) ==> View() == old(View())
      ensures old(reactions) == [] && !old(lifecycle.Idle?) ==> (lifecycle.Idle? <==> Effects.EndedBy(old(lifecycle), call))
      ensures View() == Spec.Perform(old(View()), call)
      decreases |reactions|, 8
    {
      hide Spec.Keeps, Spec.FailAndClose, Spec.Fail, Spec.HandleData, Grammar, Effects.BadData;
      if reactions == [] && !lifecycle.Idle? { Effects.CallEndsIff(View(), call); }
      match call
      case Connect => var _, _ := Start();
      case Disconnect => if !lifecycle.Idle? { FailAndClose(); }
      case Send(fails) => if lifecycle.Open? && fails { FailAndClose(); }
      case Data(id, decoded) => var _ := HandleData(id, decoded);
      case Closed(id) =>
        reported := reported + {id};
        if lifecycle.Current(id) { HandleClose(); }
      case Errored(id) => if lifecycle.Current(id) { FailAndClose(); }
    }

    /** connect; it is refused unless the connection is down. */
    method Start() returns (accepted: bool, ghost threw: bool)
      requires Valid()
      modifies this
      ensures Keeps() && accepted == old(lifecycle.Idle?) && (threw ==> accepted)
      ensures if accepted then sequence > old(sequence) else Untouched()
      ensures accepted ==> if threw then !lifecycle.Current(old(sequence) + 1) else old(sequence) + 1 in openings
      ensures accepted && old(reactions) == [] ==>
                !threw && lifecycle == Opening(old(sequence) + 1, false) && emitted == old(emitted) + [Connecting]
      ensures View() == Spec.Start(old(View()))
      decreases |reactions|, 6
    {
      hide Spec.Keeps, Spec.OnStateChange, Spec.OpenTransport, Grammar;
      if !lifecycle.Idle? { return false, false; }
      sequence := sequence + 1;
      var id := sequence;
      lifecycle, settled := Opening(id, false), settled[id := 0];
      OnStateChange(Connecting);
      accepted := true;
      threw := OpenTransport(id);
    }

    /** Calls the transport factory, which may call handlers before it returns, or throw at once. */
    method OpenTransport(id: nat) returns (threw: bool)
      requires Valid() && 0 < id <= sequence && id !in transports && !lifecycle.HasTransport(id)
      modifies this
      ensures Keeps() && (if threw then !lifecycle.Current(id) else id in openings)
      ensures old(reactions) == [] ==> !threw && lifecycle == old(lifecycle) && emitted == old(emitted)
      ensures View() == Spec.OpenTransport(old(View()), id)
      decreases |reactions|, 5
    {
      hide Spec.Keeps, Spec.Callback, Spec.Fail, Grammar;
      threw := Callback();
      if !threw {
        openings := openings + {id};
      } else if lifecycle.Current(id) {
        Fail();
      }
    }

    /** Handles the messages of a chunk in turn. Before each the connection is only asked whether it is
        down: if a callback has replaced it, the messages that are left end the new connection. */
    method HandleData(id: nat, decoded: Option<seq<Message>>) returns (ghost replacedAt: Option<nat>)
      requires Valid()
      modifies this
      ensures Keeps()
      ensures !old(lifecycle.Current(id)) ==> Untouched()
      ensures old(lifecycle == Opening(id, false)) || (old(lifecycle.Current(id)) && decoded == None) ==> Ends()
      ensures old(reactions) == [] && old(lifecycle == Open(id, false)) && decoded.Some? && AllOther(decoded.value) ==>
                lifecycle == old(lifecycle) && delivered == old(delivered) + decoded.value
      ensures replacedAt == None && old(lifecycle.HasTransport(id)) && decoded.Some? ==> sequence == old(sequence)
      ensures replacedAt.Some? ==> decoded.Some? && sequence > old(sequence)
      ensures replacedAt.Some? && replacedAt.value + 1 < |decoded.value| ==> settled[old(sequence) + 1] == 1
      ensures View() == Spec.HandleData(old(View()), id, decoded)
      decreases |reactions|, 7
    {
      hide Spec.Keeps, Spec.HandleAll, Spec.FailAndClose, Grammar;
      replacedAt := None;
      if !lifecycle.Current(id) { return; }
      if (lifecycle.Opening? && !lifecycle.transport) || decoded == None {
        FailAndClose();
        return;
      }
      replacedAt := HandleAll(decoded.value);
    }

    method HandleAll(messages: seq<Message>) returns (ghost replacedAt: Option<nat>)
      requires Valid() && !lifecycle.Idle?
      modifies this
      ensures Keeps() && View() == Spec.HandleAll(old(View()), messages)
      ensures old(reactions) == [] && old(lifecycle == Open(sequence, false)) && AllOther(messages) ==>
                lifecycle == old(lifecycle) && delivered == old(delivered) + messages
      ensures if replacedAt == None then sequence == old(sequence) else sequence > old(sequence)
      ensures replacedAt.Some? && replacedAt.value + 1 < |messages| ==> settled[old(sequence) + 1] == 1
      decreases |reactions|, 6
    {
      hide Spec.Keeps, Spec.HandleAll, Spec.HandleMessage, Grammar, Accounted, StatesMatch;
      replacedAt := None;
      HandleNone(View());
      assert messages[..0] == [];
      for k := 0 to |messages|
        invariant Keeps() && View() == Spec.HandleAll(old(View()), messages[..k])
        invariant old(reactions) == [] && old(lifecycle == Open(sequence, false)) && AllOther(messages) ==>
                    lifecycle == old(lifecycle) && delivered == old(delivered) + messages[..k]
        invariant if replacedAt == None then sequence == old(sequence)
                  else sequence > old(sequence) && replacedAt.value < k
        invariant replacedAt.Some? && replacedAt.value + 1 < k ==> lifecycle.Idle? || lifecycle.id > old(sequence) + 1
      {
        HandleNext(old(View()), messages, k);
        if lifecycle.Idle? {
          IdleHandlesNothing(View(), messages[k + 1..]);
          return;
        }
        HandleMessage(messages[k]);
        if replacedAt == None && sequence > old(sequence) { replacedAt := Some(k); }
        assert messages[..k + 1] == messages[..k] + [messages[k]];
      }
      assert messages[..|messages|] == messages;
    }

    method HandleMessage(message: Message)
      requires Valid()
      modifies this
      ensures Keeps()
      ensures !message.Other? && old(lifecycle.Open?) ==> Ends()
      ensures message.Other? && old(lifecycle.Open?) ==> old(delivered) + [message] <= delivered
      ensures message.Other? && old(lifecycle.Open?) && old(reactions) == [] ==>
                lifecycle == old(lifecycle) && delivered == old(delivered) + [message]
      ensures message != Hello && old(lifecycle.Opening?) ==> Ends()
      ensures old(lifecycle.Opening? && !lifecycle.transport) ==> Ends()
      ensures old(lifecycle.Opening?) ==> settled[old(lifecycle.id)] == 1
      ensures message == Hello && old(lifecycle.Opening? && lifecycle.transport) && old(reactions) == [] ==>
                lifecycle == Open(old(lifecycle.id), false) && emitted == old(emitted) + [Connected]
      ensures View() == Spec.HandleMessage(old(View()), message)
      decreases |reactions|, 5
    {
      hide Spec.Keeps, Spec.FailAndClose, Spec.CompleteHandshake, Spec.Callback, Grammar;
      match lifecycle
      case Idle =>
      case Opening(id, transport) =>
        if message != Hello || !transport {
          FailAndClose();
        } else {
          CompleteHandshake();
        }
      case Open(_, _) =>
        if !message.Other? {
          FailAndClose();
        } else {
          delivered := delivered + [message];
          var _ := Callback();
        }
    }

    /** The handshake promise is settled whatever the callbacks do in between. */
    method CompleteHandshake()
      requires Valid() && lifecycle.Opening? && lifecycle.transport
      modifies this
      ensures Keeps() && settled[old(lifecycle.id)] == 1 && old(delivered) + [Hello] <= delivered
      ensures old(reactions) == [] ==> lifecycle == Open(old(lifecycle.id), false) && emitted == old(emitted) + [Connected]
      ensures View() == Spec.CompleteHandshake(old(View()))
      decreases |reactions|, 4
    {
      hide Spec.Keeps, Spec.FailAndClose, Spec.Callback, Spec.Announce;
      var connected := Open(lifecycle.id, true);
      lifecycle, delivered := connected, delivered + [Hello];
      var throws := Callback();
      if throws {
        if lifecycle == connected { FailAndClose(); }
        return;
      }
      if lifecycle != connected { return; }
      Announce();
    }

    /** Reports that the connection is up, and settles its promise if it still is. */
    method Announce()
      requires Valid() && lifecycle == Open(sequence, true) && Last(emitted) == Connecting
      modifies this
      ensures Keeps() && settled[old(lifecycle.id)] == 1
      ensures old(reactions) == [] ==>
                lifecycle == Open(old(sequence), false) && emitted == old(emitted) + [Connected] && delivered == old(delivered)
      ensures View() == Spec.Announce(old(View()))
      decreases |reactions|, 3
    {
      hide Spec.Keeps, Spec.OnStateChange;
      var connected := lifecycle;
      OnStateChange(Connected);
      if lifecycle != connected { return; }
      lifecycle := Open(connected.id, false);
      settled := settled[connected.id := settled[connected.id] + 1];
    }

    // ---- Runs -------------------------------------------------------------------------------------------

    /** Between two jobs no handshake is half-way and nothing is left to be closed. */
    ghost predicate AtRest()
      reads this
    {
      Valid() && closing == {} && !(lifecycle.Open? && lifecycle.handshake)
    }

    method OpenedTransport(id: nat)
      requires AtRest() && id in openings
      modifies this
      ensures AtRest() && transports == old(transports) + {id} && emitted == old(emitted) && sequence == old(sequence)
      ensures if old(lifecycle == Opening(id, false)) then lifecycle == Opening(id, true) && closed == old(closed)
              else lifecycle == old(lifecycle) && id in closed
      ensures View() == Spec.OpenedTransport(old(View()), id)
    {
      hide Grammar;
      openings, transports := openings - {id}, transports + {id};
      if !lifecycle.Opening? || lifecycle.id != id {
        closed := closed + {id};
        return;
      }
      lifecycle := Opening(id, true);
    }

    method Handle(event: Event)
      requires AtRest()
      modifies this
      ensures AtRest() && sequence >= old(sequence) && old(emitted) <= emitted && old(transports) <= transports
      ensures event.FactoryResolved? && event.id in old(openings) ==>
                event.id in transports && (lifecycle == Opening(event.id, true) || event.id in closed)
      ensures event.FactoryRejected? && event.id in old(openings) && old(lifecycle.Current(event.id)) ==> Ends()
      ensures event.SendRejected? ==> if old(lifecycle.HasTransport(event.id)) then Ends() && event.id in closed else Untouched()
      ensures View() == Spec.Handle(old(View()), event)
    {
      hide Spec.Keeps, Spec.FailAndClose, Spec.Fail, Spec.Perform, Grammar;
      match event
      case Called(call) => Perform(call);
      case FactoryResolved(id) => if id in openings { OpenedTransport(id); }
      case FactoryRejected(id) =>
        if id in openings {
          openings := openings - {id};
          if lifecycle.Current(id) { Fail(); }
        }
      case SendRejected(id) => if lifecycle.HasTransport(id) { FailAndClose(); }
    }

    /** Whatever happens in whatever order: the states reported follow the grammar, each handshake promise
        is settled once or still under way, and no transport is forgotten. */
    method Run(events: seq<Event>)
      requires AtRest()
      modifies this
      ensures AtRest() && Grammar(emitted)
      ensures forall i :: 0 < i <= sequence ==> i in settled && settled[i] <= 1
                                                && (settled[i] == 0 ==> lifecycle.Opening? && lifecycle.id == i)
      ensures forall t :: t in transports ==> lifecycle.HasTransport(t) || t in closed || t in reported
      ensures View() == Spec.Run(old(View()), events)
    {
      for k := 0 to |events|
        invariant AtRest() && View() == Spec.Run(old(View()), events[..k])
      {
        Handle(events[k]);
        assert events[..k + 1][..k] == events[..k];
      }
      assert events[..|events|] == events;
    }
  }

  // ---- The grammar ----------------------------------------------------------------------------------------

  /** Complete rounds: connecting, then connected or not, then disconnected. */
  function Rounds(rounds: seq<bool>): seq<State> {
    if rounds == [] then []
    else Rounds(rounds[..|rounds| - 1])
         + (if rounds[|rounds| - 1] then [Connecting, Connected, Disconnected] else [Connecting, Disconnected])
  }

  ghost predicate InRounds(emitted: seq<State>, rounds: seq<bool>, begun: seq<State>) {
    emitted == Rounds(rounds) + begun && (begun == [] || begun == [Connecting] || begun == [Connecting, Connected])
  }

  lemma {:induction false} RoundsFollowGrammar(rounds: seq<bool>)
    ensures Grammar(Rounds(rounds)) && Last(Rounds(rounds)) == Disconnected
  {
    if rounds != [] {
      var before := Rounds(rounds[..|rounds| - 1]);
      RoundsFollowGrammar(rounds[..|rounds| - 1]);
      GrammarGrows(before, Connecting);
      if rounds[|rounds| - 1] {
        GrammarGrows(before + [Connecting], Connected);
        GrammarGrows(before + [Connecting] + [Connected], Disconnected);
        assert Rounds(rounds) == before + [Connecting] + [Connected] + [Disconnected];
      } else {
        GrammarGrows(before + [Connecting], Disconnected);
        assert Rounds(rounds) == before + [Connecting] + [Disconnected];
      }
    }
  }

  lemma InRoundsFollowsGrammar(emitted: seq<State>, rounds: seq<bool>, begun: seq<State>)
    requires InRounds(emitted, rounds, begun)
    ensures Grammar(emitted)
  {
    var before := Rounds(rounds);
    RoundsFollowGrammar(rounds);
    if begun == [] {
      assert emitted == before;
    } else {
      GrammarGrows(before, Connecting);
      if begun == [Connecting, Connected] {
        GrammarGrows(before + [Connecting], Connected);
        assert emitted == before + [Connecting] + [Connected];
      }
    }
  }

  lemma {:induction false} GrammarIsInRounds(emitted: seq<State>) returns (rounds: seq<bool>, begun: seq<State>)
    requires Grammar(emitted)
    ensures InRounds(emitted, rounds, begun)
  {
    if emitted == [] {
      rounds, begun := [], [];
    } else {
      var n := |emitted| - 1;
      rounds, begun := GrammarIsInRounds(emitted[..n]);
      rounds, begun := RoundsGoOn(emitted[..n], rounds, begun, emitted[n]);
      assert emitted == emitted[..n] + [emitted[n]];
    }
  }

  lemma RoundsGoOn(emitted: seq<State>, rounds: seq<bool>, begun: seq<State>, s: State)
    returns (nextRounds: seq<bool>, nextBegun: seq<State>)
    requires InRounds(emitted, rounds, begun) && Follows(Last(emitted), s)
    ensures InRounds(emitted + [s], nextRounds, nextBegun)
  {
    RoundsFollowGrammar(rounds);
    assert Last(emitted) == if begun == [] then Disconnected else begun[|begun| - 1];
    hide Rounds, Grammar;
    if s == Disconnected {
      RoundCompleted(rounds, begun);
      nextRounds, nextBegun := rounds + [begun == [Connecting, Connected]], [];
      assert Rounds(nextRounds) + [] == Rounds(nextRounds);
    } else {
      nextRounds, nextBegun := rounds, begun + [s];
      assert emitted + [s] == Rounds(rounds) + (begun + [s]);
    }
  }

  lemma RoundCompleted(rounds: seq<bool>, begun: seq<State>)
    requires begun == [Connecting] || begun == [Connecting, Connected]
    ensures Rounds(rounds + [begun == [Connecting, Connected]]) == Rounds(rounds) + begun + [Disconnected]
  {
    var connected := begun == [Connecting, Connected];
    assert (rounds + [connected])[..|rounds|] == rounds;
  }

  /** The grammar's step-by-step definition describes exactly complete rounds and one begun. */
  lemma GrammarIffRounds(emitted: seq<State>)
    ensures Grammar(emitted) <==> exists rounds, begun :: InRounds(emitted, rounds, begun)
  {
    if Grammar(emitted) {
      var rounds, begun := GrammarIsInRounds(emitted);
    }
    forall rounds, begun | InRounds(emitted, rounds, begun) ensures Grammar(emitted) {
      InRoundsFollowsGrammar(emitted, rounds, begun);
    }
  }
}
