/** packages/server/src/snapshots.ts and server.ts, packages/client/src/state.ts: the publisher numbers its
    snapshots and sends them to the connections that are ready; a connection that becomes ready compares
    the number it was greeted with; the client ignores snapshots that are older than what it has. Only
    the numbers are modelled. */
module Snapshots {
  import opened Options

  type Id = nat

  /** How far finishHandshake has come: waiting for the greeting's snapshot, or for the greeting to be sent;
      then the connection is ready, and may still wait for a newer snapshot. */
  datatype Progress = AwaitingHello | Fetching(r: nat) | Greeting(r: nat) | Refreshing(r: nat) | Done

  /** A connection with the revisions on their way to its client, and the one the client has stored. */
  datatype Link = Link(progress: Progress, wire: seq<nat>, stored: Option<nat>) {
    predicate Ready() { progress.Refreshing? || progress.Done? }
  }

  datatype Broadcast = Broadcast(revision: nat, recipients: seq<Id>)

  /** Connections are told apart by the order in which they were accepted. */
  datatype Server = Server(revision: nat, queued: nat, broadcast: Option<Broadcast>, closing: bool, accepted: nat,
                           links: map<Id, Link>)

  datatype Action =
    | Accept
    | HelloReceived(c: Id)
    | GreetingFetched(c: Id)
    | GreetingSent(c: Id)
    | RefreshFetched(c: Id)
    | Deliver(c: Id)
    | Disconnect(c: Id)
    | RequestBroadcast
    | BeginBroadcast(ready: seq<Id>)
    | SendNext
    | BroadcastFails
    | Close

  const INITIAL := Server(0, 0, None, false, 0, map[])

  /** applyServerSnapshot. */
  function ApplyServerSnapshot(stored: Option<nat>, revision: nat): Option<nat> {
    if stored.Some? && revision < stored.value then stored else Some(revision)
  }

  function Put(s: Server, c: Id, l: Link): Server {
    s.(links := s.links[c := l])
  }

  /** What is sent to a connection that is gone is lost. */
  function SendMessage(s: Server, c: Id, revision: nat): Server {
    if c in s.links then Put(s, c, s.links[c].(wire := s.links[c].wire + [revision])) else s
  }

  /** The ready connections in the order of the set. */
  predicate ListsReady(s: Server, ready: seq<Id>) {
    && (forall c :: c in ready ==> c in s.links && s.links[c].Ready())
    && (forall c :: c in s.links && s.links[c].Ready() ==> c in ready)
    && forall i, j :: 0 <= i < j < |ready| ==> ready[i] != ready[j]
  }

  predicate Enabled(s: Server, a: Action) {
    match a
    case HelloReceived(c) => c in s.links && s.links[c].progress.AwaitingHello?
    case GreetingFetched(c) => c in s.links && s.links[c].progress.Fetching?
    case GreetingSent(c) => c in s.links && s.links[c].progress.Greeting?
    case RefreshFetched(c) => c in s.links && s.links[c].progress.Refreshing?
    case Deliver(c) => c in s.links && s.links[c].wire != []
    case Disconnect(c) => c in s.links
    case BeginBroadcast(ready) => s.queued > 0 && s.broadcast == None && ListsReady(s, ready)
    case SendNext => s.broadcast.Some?
    case BroadcastFails => s.broadcast.Some?
    case _ => true
  }

  function Step(s: Server, a: Action): Server
    requires Enabled(s, a)
  {
    match a
    case Accept =>
      if s.closing then s else Put(s, s.accepted, Link(AwaitingHello, [], None)).(accepted := s.accepted + 1)
    case HelloReceived(c) => Put(s, c, s.links[c].(progress := Fetching(s.revision)))
    case GreetingFetched(c) =>
      if s.closing then s
      else SendMessage(Put(s, c, s.links[c].(progress := Greeting(s.links[c].progress.r))), c, s.links[c].progress.r)
    case GreetingSent(c) =>
      Put(s, c, s.links[c].(progress := if s.links[c].progress.r != s.revision then Refreshing(s.revision) else Done))
    case RefreshFetched(c) => SendMessage(Put(s, c, s.links[c].(progress := Done)), c, s.links[c].progress.r)
    case Deliver(c) =>
      var l := s.links[c];
      Put(s, c, l.(wire := l.wire[1..], stored := ApplyServerSnapshot(l.stored, l.wire[0])))
    case Disconnect(c) => s.(links := s.links - {c})
    case RequestBroadcast => s.(queued := s.queued + 1)
    case BeginBroadcast(ready) =>
      var begun := s.(queued := s.queued - 1);
      if ready == [] || s.closing then begun
      else begun.(revision := s.revision + 1, broadcast := Some(Broadcast(s.revision + 1, ready)))
    case SendNext =>
      var b := s.broadcast.value;
      if b.recipients == [] then s.(broadcast := None)
      else SendMessage(s, b.recipients[0], b.revision).(broadcast := Some(b.(recipients := b.recipients[1..])))
    case BroadcastFails => s.(broadcast := None)
    case Close => s.(closing := true)
  }

  // ---- The invariant -----------------------------------------------------------------------------------

  /** No number is ahead of the publisher's; a connection that is not ready has seen at most its greeting. */
  ghost predicate Behind(l: Link, revision: nat) {
    && (forall i :: 0 <= i < |l.wire| ==> l.wire[i] <= revision)
    && (l.stored.Some? ==> l.stored.value <= revision)
    && match l.progress
       case AwaitingHello => l.wire == [] && l.stored == None
       case Fetching(r) => r <= revision && l.wire == [] && l.stored == None
       case Greeting(r) => r <= revision && ((l.wire == [r] && l.stored == None) || (l.wire == [] && l.stored == Some(r)))
       case Refreshing(r) => r <= revision
       case Done => true
  }

  /** The revision is stored, on its way, or about to be fetched. */
  predicate Has(l: Link, revision: nat) {
    l.stored == Some(revision) || revision in l.wire || l.progress == Refreshing(revision)
  }

  /** The connections a broadcast still has to reach are ready or gone, and have not got its number. */
  ghost predicate Owes(s: Server, b: Broadcast) {
    && b.revision == s.revision
    && (forall i, j :: 0 <= i < j < |b.recipients| ==> b.recipients[i] != b.recipients[j])
    && (forall c :: c in b.recipients ==> c < s.accepted)
    && (forall c :: c in b.recipients && c in s.links ==> s.links[c].Ready() && !Has(s.links[c], s.revision))
  }

  /** All the numbers are in order. */
  ghost predicate Ordered(s: Server) {
    && (s.broadcast.Some? ==> Owes(s, s.broadcast.value))
    && (forall c :: c in s.links ==> c < s.accepted && Behind(s.links[c], s.revision))
  }

  /** Every ready connection has the current revision, or the broadcast under way will send it. */
  ghost predicate Covered(s: Server) {
    forall c :: c in s.links && s.links[c].Ready() ==>
      Has(s.links[c], s.revision) || (s.broadcast.Some? && c in s.broadcast.value.recipients)
  }

  ghost predicate Inv(s: Server) { Ordered(s) && Covered(s) }

  /** A broadcast fails for nobody, or for connections that are gone. */
  predicate Harmless(s: Server, a: Action)
    requires Enabled(s, a)
  {
    a.BroadcastFails? ==> forall c :: c in s.broadcast.value.recipients ==> c !in s.links
  }

  /** Changing one link, to one that still is owed the broadcast if it was, and still has the revision if
      it had. */
  lemma PutKeeps(s: Server, c: Id, l: Link)
    requires Ordered(s) && c < s.accepted && Behind(l, s.revision)
    requires s.broadcast.Some? && c in s.broadcast.value.recipients && c in s.links ==> l.Ready() && !Has(l, s.revision)
    requires c !in s.links ==> s.broadcast.Some? ==> c !in s.broadcast.value.recipients
    ensures Ordered(Put(s, c, l))
    ensures Covered(s) && (l.Ready() ==> Has(l, s.revision) || (s.broadcast.Some? && c in s.broadcast.value.recipients)) ==>
              Covered(Put(s, c, l))
  {
    hide Behind, Has;
  }

  predicate OfLink(a: Action) {
    a.HelloReceived? || a.GreetingFetched? || a.GreetingSent? || a.RefreshFetched? || a.Deliver?
  }

  /** What a step of one connection does to it: it gets nothing that is ahead of the publisher, does not lose
      the current revision, and does not get it from anywhere but the greeting. */
  lemma LinkStep(s: Server, a: Action)
    requires Enabled(s, a) && OfLink(a) && Behind(s.links[a.c], s.revision) && !(a.GreetingFetched? && s.closing)
    ensures a.c in Step(s, a).links && Step(s, a) == Put(s, a.c, Step(s, a).links[a.c])
    ensures var before, l := s.links[a.c], Step(s, a).links[a.c];
            && Behind(l, s.revision)
            && (before.Ready() && !Has(before, s.revision) ==> l.Ready() && !Has(l, s.revision))
            && (l.Ready() && !Has(l, s.revision) ==> before.Ready() && !Has(before, s.revision))
  {
    match a
    case GreetingFetched(c) => assert s.links[c].wire == [];
    case RefreshFetched(c) => WireGrows(s.links[c].wire, s.links[c].progress.r);
    case Deliver(c) => WireShrinks(s.links[c].wire);
    case _ =>
  }

  lemma WireGrows(wire: seq<nat>, r: nat)
    ensures forall x :: x in wire + [r] <==> x in wire || x == r
  {
  }

  lemma WireShrinks(wire: seq<nat>)
    requires wire != []
    ensures forall x :: x in wire <==> x == wire[0] || x in wire[1..]
  {
  }

  lemma LinkStepKeeps(s: Server, a: Action)
    requires Ordered(s) && Enabled(s, a) && OfLink(a)
    ensures Ordered(Step(s, a)) && (Covered(s) ==> Covered(Step(s, a)))
  {
    if !(a.GreetingFetched? && s.closing) {
      assert Behind(s.links[a.c], s.revision) && a.c < s.accepted;
      LinkStep(s, a);
      hide Behind, Has, Step;
      PutKeeps(s, a.c, Step(s, a).links[a.c]);
    }
  }

  lemma RecipientsShrink(s: Server, b: Broadcast)
    requires Owes(s, b) && b.recipients != []
    ensures Owes(s, b.(recipients := b.recipients[1..])) && b.recipients[0] !in b.recipients[1..]
    ensures forall d :: d in b.recipients <==> d == b.recipients[0] || d in b.recipients[1..]
  {
    hide Has;
    var c, rest := b.recipients[0], b.recipients[1..];
    assert b.recipients == [c] + rest;
    assert forall i, j :: 0 <= i < j < |rest| ==> rest[i] == b.recipients[i + 1] && rest[j] == b.recipients[j + 1];
    assert c !in rest;
    forall d ensures d in b.recipients <==> d == c || d in rest {}
  }

  /** The connection that is sent the current revision is the only one that may not have had it. */
  lemma PutCovers(s: Server, c: Id, l: Link)
    requires Has(l, s.revision)
    requires forall d :: d in s.links && d != c && s.links[d].Ready() ==>
               Has(s.links[d], s.revision) || (s.broadcast.Some? && d in s.broadcast.value.recipients)
    ensures Covered(Put(s, c, l))
  {
    hide Has;
  }

  lemma SentIsBehind(l: Link, revision: nat)
    requires Behind(l, revision) && l.Ready()
    ensures var l' := l.(wire := l.wire + [revision]); Behind(l', revision) && Has(l', revision)
  {
    WireGrows(l.wire, revision);
  }

  lemma SendNextKeeps(s: Server)
    requires Ordered(s) && s.broadcast.Some?
    ensures Ordered(Step(s, SendNext)) && (Covered(s) ==> Covered(Step(s, SendNext)))
  {
    var b := s.broadcast.value;
    if b.recipients != [] {
      hide Has, Behind;
      var c := b.recipients[0];
      var s1 := s.(broadcast := Some(b.(recipients := b.recipients[1..])));
      RecipientsShrink(s, b);
      RecipientsShrinkIn(s, s1);
      assert Step(s, SendNext) == SendMessage(s1, c, s.revision);
      if c in s.links {
        SentIsBehind(s.links[c], s.revision);
        PutKeeps(s1, c, s.links[c].(wire := s.links[c].wire + [s.revision]));
        if Covered(s) { PutCovers(s1, c, s.links[c].(wire := s.links[c].wire + [s.revision])); }
      }
    }
  }

  lemma RecipientsShrinkIn(s: Server, s1: Server)
    requires Ordered(s) && s.broadcast.Some? && s1.broadcast.Some? && Owes(s, s1.broadcast.value)
    requires s1 == s.(broadcast := s1.broadcast)
    ensures Ordered(s1)
  {
    hide Has, Behind;
  }

  /** Starting a broadcast covers everybody, whether or not they were before. */
  lemma BeginCovers(s: Server, ready: seq<Id>)
    requires Ordered(s) && Enabled(s, BeginBroadcast(ready))
    ensures Ordered(Step(s, BeginBroadcast(ready)))
    ensures !s.closing || Covered(s) ==> Covered(Step(s, BeginBroadcast(ready)))
  {
  }

  lemma StepKeepsOrder(s: Server, a: Action)
    requires Ordered(s) && Enabled(s, a)
    ensures Ordered(Step(s, a))
  {
    match a
    case BeginBroadcast(ready) => BeginCovers(s, ready);
    case SendNext => SendNextKeeps(s);
    case Accept =>
      if !s.closing { PutKeeps(s.(accepted := s.accepted + 1), s.accepted, Link(AwaitingHello, [], None)); }
    case HelloReceived(_) => LinkStepKeeps(s, a);
    case GreetingFetched(_) => LinkStepKeeps(s, a);
    case GreetingSent(_) => LinkStepKeeps(s, a);
    case RefreshFetched(_) => LinkStepKeeps(s, a);
    case Deliver(_) => LinkStepKeeps(s, a);
    case _ =>
  }

  /** The invariant survives a step exactly if the step is harmless: the number of a broadcast is lost
      if and only if the service fails while one of its recipients is still connected. */
  lemma StepKeepsIff(s: Server, a: Action)
    requires Inv(s) && Enabled(s, a)
    ensures Inv(Step(s, a)) <==> Harmless(s, a)
  {
    StepKeepsOrder(s, a);
    match a
    case BeginBroadcast(ready) => BeginCovers(s, ready);
    case SendNext => SendNextKeeps(s);
    case HelloReceived(_) => LinkStepKeeps(s, a);
    case GreetingFetched(_) => LinkStepKeeps(s, a);
    case GreetingSent(_) => LinkStepKeeps(s, a);
    case RefreshFetched(_) => LinkStepKeeps(s, a);
    case Deliver(_) => LinkStepKeeps(s, a);
    case _ =>
  }

  // ---- Runs ------------------------------------------------------------------------------------------------

  ghost predicate Possible(s: Server, actions: seq<Action>)
    decreases |actions|
  {
    actions == [] || (Enabled(s, actions[0]) && Possible(Step(s, actions[0]), actions[1..]))
  }

  ghost function Run(s: Server, actions: seq<Action>): Server
    requires Possible(s, actions)
    decreases |actions|
  {
    if actions == [] then s else Run(Step(s, actions[0]), actions[1..])
  }

  ghost predicate AllHarmless(s: Server, actions: seq<Action>)
    requires Possible(s, actions)
    decreases |actions|
  {
    actions == [] || (Harmless(s, actions[0]) && AllHarmless(Step(s, actions[0]), actions[1..]))
  }

  lemma {:induction false} RunKeeps(s: Server, actions: seq<Action>)
    requires Inv(s) && Possible(s, actions) && AllHarmless(s, actions)
    ensures Inv(Run(s, actions))
    decreases |actions|
  {
    if actions != [] {
      StepKeepsIff(s, actions[0]);
      RunKeeps(Step(s, actions[0]), actions[1..]);
    }
  }

  /** Nothing is under way for this connection. */
  predicate Quiescent(s: Server, c: Id) {
    c in s.links && s.links[c].progress == Done && s.links[c].wire == [] && s.broadcast == None
  }

  /** No numbered broadcast is lost: in every run with a harmless service, a ready client for which
      nothing is under way has stored the publisher's revision, whatever raced its handshake. */
  lemma NoBroadcastIsLost(actions: seq<Action>, c: Id)
    requires Possible(INITIAL, actions) && AllHarmless(INITIAL, actions) && Quiescent(Run(INITIAL, actions), c)
    ensures Run(INITIAL, actions).links[c].stored == Some(Run(INITIAL, actions).revision)
  {
    RunKeeps(INITIAL, actions);
  }

  lemma {:induction false} RunKeepsOrder(s: Server, actions: seq<Action>)
    requires Ordered(s) && Possible(s, actions)
    ensures Ordered(Run(s, actions))
    decreases |actions|
  {
    if actions != [] {
      StepKeepsOrder(s, actions[0]);
      RunKeepsOrder(Step(s, actions[0]), actions[1..]);
    }
  }

  /** And one that was lost is made up for: after any run at all, the next broadcast that begins covers
      every ready connection again. */
  lemma NextBroadcastHeals(actions: seq<Action>, ready: seq<Id>)
    requires Possible(INITIAL, actions) && Enabled(Run(INITIAL, actions), BeginBroadcast(ready))
    requires !Run(INITIAL, actions).closing
    ensures Inv(Step(Run(INITIAL, actions), BeginBroadcast(ready)))
  {
    RunKeepsOrder(INITIAL, actions);
    BeginCovers(Run(INITIAL, actions), ready);
  }

  ghost function Stored(s: Server, c: Id): int {
    if c in s.links && s.links[c].stored.Some? then s.links[c].stored.value else -1
  }

  /** What a client has stored never goes back while it is connected, nor does the publisher's number. */
  lemma {:induction false} StoredNeverGoesBack(s: Server, actions: seq<Action>, c: Id)
    requires Ordered(s) && Possible(s, actions) && c in s.links && c in Run(s, actions).links
    ensures Stored(s, c) <= Stored(Run(s, actions), c) && s.revision <= Run(s, actions).revision
    decreases |actions|
  {
    if actions != [] {
      var s' := Step(s, actions[0]);
      StepKeepsOrder(s, actions[0]);
      assert c < s.accepted;
      StoredStep(s, actions[0], c);
      hide Step, Enabled, Ordered, Stored;
      if c in s'.links {
        StoredNeverGoesBack(s', actions[1..], c);
      } else {
        GoneForGood(s', actions[1..], c);
      }
    }
  }

  lemma StoredStep(s: Server, a: Action, c: Id)
    requires Ordered(s) && Enabled(s, a) && c in s.links
    ensures s.revision <= Step(s, a).revision && c < Step(s, a).accepted
    ensures c in Step(s, a).links ==> Stored(s, c) <= Stored(Step(s, a), c)
  {
    hide Behind, Owes;
  }

  lemma {:induction false} GoneForGood(s: Server, actions: seq<Action>, c: Id)
    requires Possible(s, actions) && c !in s.links && c < s.accepted
    ensures c !in Run(s, actions).links
    decreases |actions|
  {
    if actions != [] { GoneForGood(Step(s, actions[0]), actions[1..], c); }
  }

  // ---- The hypothesis is needed ----------------------------------------------------------------------------

  /** A connection that has just become ready, with nothing under way. */
  const READY := Server(0, 0, None, false, 1, map[0 := Link(Done, [], Some(0))])

  lemma Prepend(s: Server, a: Action, actions: seq<Action>)
    requires Enabled(s, a) && Possible(Step(s, a), actions)
    ensures Possible(s, [a] + actions) && Run(s, [a] + actions) == Run(Step(s, a), actions)
  {
    hide Step, Enabled;
    assert ([a] + actions)[1..] == actions;
  }

  lemma BecomesReady()
    ensures var actions := [Accept, HelloReceived(0), GreetingFetched(0), GreetingSent(0), Deliver(0)];
            Possible(INITIAL, actions) && Run(INITIAL, actions) == READY
  {
    var wire: seq<nat> := [0];
    assert [] + wire == wire && wire[1..] == [];
    var s1 := Step(INITIAL, Accept);
    assert s1.links == map[0 := Link(AwaitingHello, [], None)];
    var s2 := Step(s1, HelloReceived(0));
    assert s2.links == map[0 := Link(Fetching(0), [], None)];
    var s3 := Step(s2, GreetingFetched(0));
    assert s3.links == map[0 := Link(Greeting(0), [0], None)];
    var s4 := Step(s3, GreetingSent(0));
    assert s4.links == map[0 := Link(Done, [0], None)];
    assert Step(s4, Deliver(0)).links == READY.links;
    Prepend(s4, Deliver(0), []);
    Prepend(s3, GreetingSent(0), [Deliver(0)]);
    Prepend(s2, GreetingFetched(0), [GreetingSent(0), Deliver(0)]);
    Prepend(s1, HelloReceived(0), [GreetingFetched(0), GreetingSent(0), Deliver(0)]);
    Prepend(INITIAL, Accept, [HelloReceived(0), GreetingFetched(0), GreetingSent(0), Deliver(0)]);
  }

  /** If the service fails once a number has been taken, a ready client for which nothing is under way is left
      with an older revision. */
  lemma BroadcastLost()
    ensures var actions := [RequestBroadcast, BeginBroadcast([0]), BroadcastFails];
            && Possible(READY, actions)
            && var s := Run(READY, actions);
               Quiescent(s, 0) && s.revision == 1 && s.links[0].stored == Some(0)
  {
    var s1 := Step(READY, RequestBroadcast);
    assert ListsReady(s1, [0]);
    var s2 := Step(s1, BeginBroadcast([0]));
    assert s2.broadcast == Some(Broadcast(1, [0]));
    Prepend(s2, BroadcastFails, []);
    Prepend(s1, BeginBroadcast([0]), [BroadcastFails]);
    Prepend(READY, RequestBroadcast, [BeginBroadcast([0]), BroadcastFails]);
  }
}
