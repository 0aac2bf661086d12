/** packages/server/src/snapshots.ts and server.ts, packages/client/src/state.ts: the pieces of the snapshot
    protocol that run without interruption, over the fields they update and the locals they keep while
    they wait. */
module SnapshotServer {
  import opened Options
  import opened Snapshots

  /** What a client keeps of one session. */
  datatype SessionSnapshot = SessionSnapshot(revision: nat, attached: bool)

  class ClientState {
    var snapshot: Option<nat>
    var sessionSnapshots: map<string, SessionSnapshot>
    var attachedSessionIds: set<string>

    constructor ()
      ensures snapshot == None && sessionSnapshots == map[] && attachedSessionIds == {}
    {
      snapshot, sessionSnapshots, attachedSessionIds := None, map[], {};
    }

    method ApplyServerSnapshot(revision: nat)
      modifies this`snapshot
      ensures snapshot == Snapshots.ApplyServerSnapshot(old(snapshot), revision)
      ensures snapshot.Some? && snapshot.value >= revision && (old(snapshot).Some? ==> snapshot.value >= old(snapshot).value)
    {
      if snapshot.Some? && revision < snapshot.value { return; }
      snapshot := Some(revision);
    }

    /** An older snapshot of a session is ignored unless it is forced; the session's attachment is that of its
        latest snapshot. */
    method ApplySessionSnapshot(id: string, s: SessionSnapshot, force: bool)
      modifies this`sessionSnapshots, this`attachedSessionIds
      ensures var stale := !force && id in old(sessionSnapshots) && s.revision < old(sessionSnapshots)[id].revision;
              if stale then sessionSnapshots == old(sessionSnapshots) && attachedSessionIds == old(attachedSessionIds)
              else sessionSnapshots == old(sessionSnapshots)[id := s] && (id in attachedSessionIds <==> s.attached)
      ensures id in sessionSnapshots && (!force ==> sessionSnapshots[id].revision >= s.revision)
      ensures forall other :: other != id ==> (other in attachedSessionIds <==> other in old(attachedSessionIds))
    {
      if !force && id in sessionSnapshots && s.revision < sessionSnapshots[id].revision { return; }
      sessionSnapshots := sessionSnapshots[id := s];
      attachedSessionIds := if s.attached then attachedSessionIds + {id} else attachedSessionIds - {id};
    }

    method Reset()
      modifies this
      ensures snapshot == None && sessionSnapshots == map[] && attachedSessionIds == {}
    {
      snapshot, sessionSnapshots, attachedSessionIds := None, map[], {};
    }
  }

  datatype Stage = Hello | Handshaking | Ready

  class SnapshotServer {
    var revision: nat
    var queued: nat
    var closing: bool
    var accepted: nat
    /** The connections that are not disconnected, and how far each is. */
    var connections: set<Id>
    var stage: map<Id, Stage>
    /** While finishHandshake waits: the revision of the snapshot it has asked for or sent, and whether the
        greeting has been handed to the transport. */
    var awaited: map<Id, nat>
    var greeted: set<Id>
    /** What performBroadcast keeps while it waits. */
    var performing: Option<nat>
    var recipients: seq<Id>
    /** The revisions on their way, and what the clients have stored. */
    var wires: map<Id, seq<nat>>
    var stored: map<Id, Option<nat>>

    ghost predicate Valid()
      reads this
    {
      && connections <= stage.Keys && connections <= wires.Keys && connections <= stored.Keys
      && (forall c :: c in connections ==> c < accepted && (stage[c] == Handshaking ==> c in awaited))
      && (forall c :: c in awaited || c in greeted ==> c < accepted)
      && (performing == None ==> recipients == [])
    }

    ghost function ProgressOf(c: Id): Progress
      reads this
      requires Valid() && c in connections
    {
      match stage[c]
      case Hello => AwaitingHello
      case Handshaking => if c in greeted then Greeting(awaited[c]) else Fetching(awaited[c])
      case Ready => if c in awaited then Refreshing(awaited[c]) else Done
    }

    ghost function LinkOf(c: Id): Link
      reads this
      requires Valid() && c in connections
    {
      Link(ProgressOf(c), wires[c], stored[c])
    }

    ghost function View(): Server
      reads this
      requires Valid()
    {
      Server(revision, queued, if performing.Some? then Some(Broadcast(performing.value, recipients)) else None, closing,
             accepted, map c | c in connections :: LinkOf(c))
    }

    constructor ()
      ensures Valid() && View() == INITIAL
    {
      revision, queued, closing, accepted := 0, 0, false, 0;
      connections, stage, awaited, greeted := {}, map[], map[], {};
      performing, recipients, wires, stored := None, [], map[], map[];
    }

    /** Only this connection has changed. */
    twostate predicate Changes(c: Id)
      reads this
    {
      && old(Valid()) && Valid() && old(c in connections) && connections == old(connections)
      && forall d :: d in connections && d != c ==> LinkOf(d) == old(LinkOf(d))
    }

    twostate lemma ChangesPut(c: Id)
      requires Changes(c)
      requires revision == old(revision) && queued == old(queued) && closing == old(closing) && accepted == old(accepted)
      requires performing == old(performing) && recipients == old(recipients)
      ensures View() == Put(old(View()), c, LinkOf(c))
    {
      hide LinkOf, Valid;
    }

    method Accept()
      requires Valid()
      modifies this`accepted, this`connections, this`stage, this`wires, this`stored
      ensures Valid() && View() == Step(old(View()), Snapshots.Accept)
    {
      if closing { return; }
      var c := accepted;
      InitialState(c);
      AddConnection(c);
    }

    method InitialState(c: Id)
      requires Valid() && c == accepted
      modifies this`accepted, this`stage, this`wires, this`stored
      ensures Valid() && View() == old(View()).(accepted := c + 1) && accepted == c + 1
      ensures c in stage && stage[c] == Hello && c in wires && wires[c] == [] && c in stored && stored[c] == None
    {
      stage, wires, stored := stage[c := Hello], wires[c := []], stored[c := None];
      accepted := accepted + 1;
      SameLinks();
    }

    method AddConnection(c: Id)
      requires Valid() && c !in connections && c < accepted
      requires c in stage && stage[c] == Hello && c in wires && wires[c] == [] && c in stored && stored[c] == None
      modifies this`connections
      ensures Valid() && View() == Put(old(View()), c, Link(AwaitingHello, [], None))
    {
      connections := connections + {c};
      LinksGrow(c);
    }

    twostate lemma LinksGrow(c: Id)
      requires old(Valid()) && Valid() && connections == old(connections) + {c} && c !in old(connections)
      requires forall d :: d in old(connections) ==> LinkOf(d) == old(LinkOf(d))
      ensures View().links == old(View().links)[c := LinkOf(c)]
    {
      hide LinkOf, Valid;
    }

    /** What is sent to a connection that is gone is lost. */
    method SendMessage(c: Id, r: nat)
      requires Valid()
      modifies this`wires
      ensures Valid() && View() == Snapshots.SendMessage(old(View()), c, r)
    {
      if c !in connections { return; }
      wires := wires[c := wires[c] + [r]];
      ChangesPut(c);
    }

    /** finishHandshake up to its first wait: the greeting's snapshot takes its number now. */
    method StartHandshake(c: Id)
      requires Valid() && Enabled(View(), HelloReceived(c))
      modifies this`stage, this`awaited, this`greeted
      ensures Valid() && View() == Step(old(View()), HelloReceived(c))
    {
      stage, awaited, greeted := stage[c := Handshaking], awaited[c := revision], greeted - {c};
      ChangesPut(c);
    }

    method SendGreeting(c: Id)
      requires Valid() && Enabled(View(), GreetingFetched(c))
      modifies this`greeted, this`wires
      ensures Valid() && View() == Step(old(View()), GreetingFetched(c))
    {
      if closing { return; }
      MarkGreeted(c);
      SendMessage(c, awaited[c]);
    }

    method MarkGreeted(c: Id)
      requires Valid() && Enabled(View(), GreetingFetched(c))
      modifies this`greeted
      ensures Valid() && View() == Put(old(View()), c, old(View()).links[c].(progress := Greeting(awaited[c])))
      ensures old(View()).links[c].progress == Fetching(awaited[c])
    {
      greeted := greeted + {c};
      ChangesPut(c);
    }

    /** Once the greeting has been sent the connection is ready, and fetches again if numbers were taken in
        the meantime. */
    method BecomeReady(c: Id)
      requires Valid() && Enabled(View(), GreetingSent(c))
      modifies this`stage, this`awaited
      ensures Valid() && View() == Step(old(View()), GreetingSent(c))
    {
      var sent := awaited[c];
      stage := stage[c := Ready];
      awaited := if sent != revision then awaited[c := revision] else awaited - {c};
      ChangesPut(c);
    }

    method SendRefresh(c: Id)
      requires Valid() && Enabled(View(), RefreshFetched(c))
      modifies this`awaited, this`wires
      ensures Valid() && View() == Step(old(View()), RefreshFetched(c))
    {
      var r := awaited[c];
      ForgetAwaited(c);
      SendMessage(c, r);
    }

    method ForgetAwaited(c: Id)
      requires Valid() && Enabled(View(), RefreshFetched(c))
      modifies this`awaited
      ensures Valid() && View() == Put(old(View()), c, old(View()).links[c].(progress := Done))
      ensures old(View()).links[c].progress == Refreshing(old(awaited)[c])
    {
      awaited := awaited - {c};
      ChangesPut(c);
    }

    /** The client receives the next message. */
    method Receive(c: Id, client: ClientState)
      requires Valid() && Enabled(View(), Deliver(c)) && client.snapshot == stored[c]
      modifies this`wires, this`stored, client`snapshot
      ensures Valid() && View() == Step(old(View()), Deliver(c)) && c in stored && client.snapshot == stored[c]
    {
      var r := wires[c][0];
      client.ApplyServerSnapshot(r);
      wires, stored := wires[c := wires[c][1..]], stored[c := client.snapshot];
      ChangesPut(c);
    }

    method Disconnect(c: Id)
      requires Valid() && Enabled(View(), Snapshots.Disconnect(c))
      modifies this`connections
      ensures Valid() && View() == Step(old(View()), Snapshots.Disconnect(c))
    {
      connections := connections - {c};
      forall d | d in connections ensures LinkOf(d) == old(LinkOf(d)) {}
      hide LinkOf;
      assert View().links == old(View().links) - {c};
    }

    method RequestBroadcast()
      requires Valid()
      modifies this`queued
      ensures Valid() && View() == Step(old(View()), Snapshots.RequestBroadcast)
    {
      queued := queued + 1;
      SameLinks();
    }

    twostate lemma SameLinks()
      requires old(Valid()) && Valid() && connections == old(connections)
      requires forall c :: c in connections ==> LinkOf(c) == old(LinkOf(c))
      ensures View().links == old(View().links)
    {
      hide LinkOf, Valid;
    }

    method ReadyConnections() returns (ready: seq<Id>)
      requires Valid()
      ensures ListsReady(View(), ready)
    {
      ready := [];
      var left := connections;
      while left != {}
        invariant left <= connections
        invariant forall c :: c in ready ==> c in connections && c !in left && stage[c] == Ready
        invariant forall c :: c in connections && c !in left && stage[c] == Ready ==> c in ready
        invariant forall i, j :: 0 <= i < j < |ready| ==> ready[i] != ready[j]
        decreases |left|
      {
        var c :| c in left;
        left := left - {c};
        if stage[c] == Ready { ready := ready + [c]; }
      }
    }

    /** performBroadcast up to its first wait: without a ready connection it takes no number. */
    method BeginBroadcast() returns (ghost ready: seq<Id>)
      requires Valid() && queued > 0 && performing == None
      modifies this`queued, this`revision, this`performing, this`recipients
      ensures Valid() && ListsReady(old(View()), ready)
      ensures View() == Step(old(View()), Snapshots.BeginBroadcast(ready))
    {
      var readyConnections := ReadyConnections();
      ready := readyConnections;
      queued := queued - 1;
      if |readyConnections| > 0 && !closing {
        revision := revision + 1;
        performing, recipients := Some(revision), readyConnections;
      }
      SameLinks();
    }

    /** The next send of performBroadcast, or its end. */
    method ContinueBroadcast()
      requires Valid() && performing.Some?
      modifies this`performing, this`recipients, this`wires
      ensures Valid() && View() == Step(old(View()), SendNext)
    {
      if |recipients| == 0 {
        performing := None;
        SameLinks();
        return;
      }
      var c := recipients[0];
      recipients := recipients[1..];
      SameLinks();
      SendMessage(c, performing.value);
    }
  }
}
