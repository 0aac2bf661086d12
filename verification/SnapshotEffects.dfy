/** packages/server/src/server.ts and snapshots.ts: which numbers a connection is sent, and when. */
module SnapshotEffects {
  import opened Options
  import opened Snapshots

  /** What a step sends to a connection: its greeting, the snapshot it fetches again, or a broadcast whose turn it
      is. */
  function SentTo(s: Server, a: Action, c: Id): seq<nat>
    requires Enabled(s, a) && c in s.links
  {
    match a
    case GreetingFetched(d) => if d == c && !s.closing then [s.links[c].progress.r] else []
    case RefreshFetched(d) => if d == c then [s.links[c].progress.r] else []
    case SendNext =>
      var b := s.broadcast.value;
      if b.recipients != [] && b.recipients[0] == c then [b.revision] else []
    case _ => []
  }

  /** Messages are sent in order and received in order, once each, and nothing is received that was not sent. */
  lemma WireStep(s: Server, a: Action, c: Id)
    requires Ordered(s) && Enabled(s, a) && c in s.links && c in Step(s, a).links
    ensures var l, l' := s.links[c], Step(s, a).links[c];
            if a == Deliver(c) then
              && l.wire == [l.wire[0]] + l'.wire
              && l'.stored == if l.stored.Some? && l.stored.value > l.wire[0] then l.stored else Some(l.wire[0])
            else l'.wire == l.wire + SentTo(s, a, c) && l'.stored == l.stored
  {
    hide Behind, Owes;
  }

  /** The next step of this connection's handshake, or its end. */
  predicate Touches(a: Action, c: Id) {
    (a.Disconnect? && a.c == c) || (OfLink(a) && !a.Deliver? && a.c == c)
  }

  lemma ProgressStep(s: Server, a: Action, c: Id)
    requires Ordered(s) && Enabled(s, a) && c in s.links && !Touches(a, c)
    ensures c in Step(s, a).links && Step(s, a).links[c].progress == s.links[c].progress
  {
    hide Behind, Owes;
  }

  lemma {:induction false} WaitsUntouched(s: Server, actions: seq<Action>, c: Id)
    requires Ordered(s) && Possible(s, actions) && c in s.links
    requires forall k :: 0 <= k < |actions| ==> !Touches(actions[k], c)
    ensures var r := Run(s, actions); Ordered(r) && c in r.links && r.links[c].progress == s.links[c].progress
    decreases |actions|
  {
    if actions != [] {
      ProgressStep(s, actions[0], c);
      StepKeepsOrder(s, actions[0]);
      hide Step, Enabled, Ordered;
      WaitsUntouched(Step(s, actions[0]), actions[1..], c);
    }
  }

  /** The greeting carries the number the publisher had when the hello was received, however long its snapshot
      takes; a server that is closing by then sends none. */
  lemma GreetingNumber(s: Server, c: Id, fetching: seq<Action>)
    requires Ordered(s) && Enabled(s, HelloReceived(c)) && Possible(Step(s, HelloReceived(c)), fetching)
    requires forall k :: 0 <= k < |fetching| ==> !Touches(fetching[k], c)
    ensures var fetched := Run(Step(s, HelloReceived(c)), fetching);
            && Enabled(fetched, GreetingFetched(c))
            && var greeted := Step(fetched, GreetingFetched(c));
               && Ordered(greeted) && c in greeted.links
               && if fetched.closing then greeted == fetched
                  else greeted.links[c].wire == [s.revision] && greeted.links[c].progress == Greeting(s.revision)
  {
    var asked := Step(s, HelloReceived(c));
    StepKeepsOrder(s, HelloReceived(c));
    WaitsUntouched(asked, fetching, c);
    hide Run, Possible;
    var fetched := Run(asked, fetching);
    assert fetched.links[c].progress == Fetching(s.revision);
    StepKeepsOrder(fetched, GreetingFetched(c));
    assert Behind(fetched.links[c], fetched.revision);
  }

  /** Once the greeting has been sent the connection is ready, and the snapshot is fetched again if and only if
      the publisher's number is by then another one than the greeting's. */
  lemma RefreshIff(s: Server, c: Id, sending: seq<Action>)
    requires Ordered(s) && c in s.links && s.links[c].progress.Greeting? && Possible(s, sending)
    requires forall k :: 0 <= k < |sending| ==> !Touches(sending[k], c)
    ensures var sent := Run(s, sending);
            && Enabled(sent, GreetingSent(c))
            && var ready := Step(sent, GreetingSent(c)).links[c];
               && ready.Ready() && ready.wire == sent.links[c].wire && ready.stored == sent.links[c].stored
               && ready.progress == if sent.revision == s.links[c].progress.r then Done else Refreshing(sent.revision)
  {
    WaitsUntouched(s, sending, c);
    hide Run, Possible, Ordered;
  }

  /** A number is taken exactly by a broadcast that finds somebody ready while the server is not closing; it is the
      next one, and everybody who is ready then is to get it. */
  lemma NumberTakenIff(s: Server, a: Action)
    requires Enabled(s, a)
    ensures var s' := Step(s, a);
            && s'.revision == s.revision + (if a.BeginBroadcast? && !s.closing && a.ready != [] then 1 else 0)
            && (s'.revision != s.revision ==> s'.broadcast == Some(Broadcast(s'.revision, a.ready)) && s'.links == s.links)
            && (a.BeginBroadcast? ==> s'.queued == s.queued - 1)
            && (a.BeginBroadcast? && s'.revision == s.revision ==> s'.broadcast == None)
  {
  }

  /** A server that is closing stays so: it accepts nobody, greets nobody and takes no number. */
  lemma ClosingIsFinal(s: Server, a: Action, c: Id)
    requires Enabled(s, a) && s.closing
    ensures var s' := Step(s, a);
            && s'.closing && s'.revision == s.revision && s'.accepted == s.accepted && s'.links.Keys <= s.links.Keys
            && (c in s'.links && s'.links[c].progress.Greeting? ==> s.links[c].progress.Greeting?)
  {
  }

  /** The sends of a broadcast, one after the other. */
  function Sends(n: nat): (actions: seq<Action>)
    ensures |actions| == n
  {
    seq(n, _ => SendNext)
  }

  /** Everybody a broadcast was started for is sent its number, once, unless it is gone; nobody else is sent
      anything, and then the broadcast is over. */
  lemma {:induction false} BroadcastReaches(s: Server, c: Id)
    requires Ordered(s) && s.broadcast.Some? && c in s.links
    ensures var b := s.broadcast.value;
            && Possible(s, Sends(|b.recipients| + 1))
            && var end := Run(s, Sends(|b.recipients| + 1));
               && end.broadcast == None && end.revision == s.revision && c in end.links
               && end.links[c].wire == s.links[c].wire + if c in b.recipients then [b.revision] else []
    decreases |s.broadcast.value.recipients|
  {
    var b := s.broadcast.value;
    var n := |b.recipients|;
    assert Sends(n + 1)[0] == SendNext && Sends(n + 1)[1..] == Sends(n);
    var s' := Step(s, SendNext);
    StepKeepsOrder(s, SendNext);
    if n == 0 {
      assert s' == s.(broadcast := None) && Run(s', Sends(0)) == s';
      assert s.links[c].wire + [] == s.links[c].wire;
    } else {
      RecipientsShrink(s, b);
      assert s'.broadcast == Some(b.(recipients := b.recipients[1..])) && s'.revision == s.revision;
      WireStep(s, SendNext, c);
      BroadcastReaches(s', c);
    }
  }
}
