/** packages/evals/src/run-metrics.ts: how a run used its tools, counted in one pass with sets, against what
    the counts mean in terms of the whole trace. */
module ToolUse {
  import opened Options

  const READ_ONLY_TOOLS := {"read", "grep", "find", "ls"}

  const MIN_EVIDENCE_CHARS := 80

  /** The arguments are in their stable JSON form. */
  datatype Call = Call(id: string, name: string, arguments: string)

  datatype Message = Assistant(stopReason: string, calls: seq<Call>) | ToolResult(id: string, isError: bool, text: string) | Other

  /** What happened, one thing after the other. */
  datatype Event = Round(stopReason: string) | Called(call: Call) | Answered(id: string, isError: bool, text: string)

  function CallEvents(calls: seq<Call>): (r: seq<Event>)
    ensures |r| == |calls|
  {
    seq(|calls|, i requires 0 <= i < |calls| => Called(calls[i]))
  }

  function EventsOf(m: Message): seq<Event> {
    match m
    case Assistant(stopReason, calls) => [Round(stopReason)] + CallEvents(calls)
    case ToolResult(id, isError, text) => [Answered(id, isError, text)]
    case Other => []
  }

  function Events(messages: seq<Message>): seq<Event> {
    if messages == [] then [] else Events(messages[..|messages| - 1]) + EventsOf(messages[|messages| - 1])
  }

  /** The events of a conversation are those of its messages, in order. */
  lemma {:induction false} EventsInOrder(a: seq<Message>, b: seq<Message>)
    ensures Events(a + b) == Events(a) + Events(b)
  {
    hide EventsOf;
    if b == [] {
      assert a + b == a;
    } else {
      var n := |b| - 1;
      assert (a + b)[..|a + b| - 1] == a + b[..n] && (a + b)[|a + b| - 1] == b[n];
      EventsInOrder(a, b[..n]);
      assert Events(a) + Events(b[..n]) + EventsOf(b[n]) == Events(a) + (Events(b[..n]) + EventsOf(b[n]));
    }
  }

  /** A message counts for what it holds: a round and its calls in order, an answer, or nothing. */
  lemma MessageCounts(m: Message, k: nat)
    ensures m.Assistant? ==> |EventsOf(m)| == 1 + |m.calls| && EventsOf(m)[0] == Round(m.stopReason)
    ensures m.Assistant? && k < |m.calls| ==> EventsOf(m)[1 + k] == Called(m.calls[k])
    ensures m.ToolResult? ==> EventsOf(m) == [Answered(m.id, m.isError, m.text)]
    ensures m.Other? ==> EventsOf(m) == []
  {
  }

  predicate ReadOnly(c: Call) { c.name in READ_ONLY_TOOLS }

  function Key(c: Call): string { c.name + "\0" + c.arguments }

  /** Two read-only calls have the same key exactly if they have the same tool and arguments. */
  lemma KeyIsToolAndArguments(a: Call, b: Call)
    requires ReadOnly(a) && ReadOnly(b)
    ensures Key(a) == Key(b) <==> a.name == b.name && a.arguments == b.arguments
  {
    if Key(a) == Key(b) {
      var n, m := |a.name|, |b.name|;
      assert Key(a)[n] == '\0' && Key(b)[m] == '\0';
      assert forall i :: 0 <= i < n ==> a.name[i] != '\0' && Key(a)[i] == a.name[i];
      assert forall i :: 0 <= i < m ==> b.name[i] != '\0' && Key(b)[i] == b.name[i];
      assert n == m;
      assert a.name == Key(a)[..n] && b.name == Key(b)[..n];
      assert a.arguments == Key(a)[n + 1..] && b.arguments == Key(b)[n + 1..];
    }
  }

  // ---- What the pass keeps -------------------------------------------------------------------------------

  function Last(ev: seq<Event>): Event
    requires ev != []
  {
    ev[|ev| - 1]
  }

  function Init(ev: seq<Event>): seq<Event>
    requires ev != []
  {
    ev[..|ev| - 1]
  }

  /** The key of the latest read-only call with this id. */
  function KeyOf(ev: seq<Event>, id: string): Option<string> {
    if ev == [] then None
    else
      var e := Last(ev);
      if e.Called? && ReadOnly(e.call) && e.call.id == id then Some(Key(e.call)) else KeyOf(Init(ev), id)
  }

  /** The last event makes a repetition of the call with this key legitimate. */
  predicate Forgets(ev: seq<Event>, key: string)
    requires ev != []
  {
    var e := Last(ev);
    (e.Called? && !ReadOnly(e.call)) || (e.Answered? && e.isError && KeyOf(Init(ev), e.id) == Some(key))
  }

  predicate Calls(e: Event, key: string) { e.Called? && ReadOnly(e.call) && Key(e.call) == key }

  function Seen(ev: seq<Event>, key: string): bool {
    if ev == [] then false
    else if Calls(Last(ev), key) then true
    else !Forgets(ev, key) && Seen(Init(ev), key)
  }

  /** Some call with this id repeated another. */
  function Repeated(ev: seq<Event>, id: string): bool {
    if ev == [] then false
    else
      var e := Last(ev);
      (e.Called? && ReadOnly(e.call) && e.call.id == id && Seen(Init(ev), Key(e.call))) || Repeated(Init(ev), id)
  }

  /** The last event is a result that counts as evidence. */
  predicate Evidence(ev: seq<Event>)
    requires ev != []
  {
    var e := Last(ev);
    e.Answered? && !e.isError && KeyOf(Init(ev), e.id).Some? && !Repeated(Init(ev), e.id) && |e.text| >= MIN_EVIDENCE_CHARS
  }

  function SeenText(ev: seq<Event>, text: string): bool {
    if ev == [] then false
    else
      var e := Last(ev);
      if e.Called? && !ReadOnly(e.call) then false
      else (Evidence(ev) && e.text == text) || SeenText(Init(ev), text)
  }

  // ---- What the counts mean ----------------------------------------------------------------------------------

  ghost predicate ForgetsAt(ev: seq<Event>, k: nat, key: string) {
    k < |ev| && Forgets(ev[..k + 1], key)
  }

  ghost predicate EvidenceAt(ev: seq<Event>, k: nat) {
    k < |ev| && ev[k].Answered? && Evidence(ev[..k + 1])
  }

  ghost predicate NewWindowAt(ev: seq<Event>, k: nat) {
    k < |ev| && ev[k].Called? && !ReadOnly(ev[k].call)
  }

  /** The most recent thing that matters for the key before position i is a call with that key. */
  ghost predicate CalledSince(ev: seq<Event>, i: nat, key: string)
    requires i <= |ev|
  {
    exists j: nat :: j < i && Calls(ev[j], key) && forall k: nat :: j < k < i ==> !ForgetsAt(ev, k, key)
  }

  /** A read-only call that repeats another, with no other tool call and no failure of it in between. */
  ghost predicate Duplicate(ev: seq<Event>, i: nat) {
    i < |ev| && ev[i].Called? && ReadOnly(ev[i].call) && CalledSince(ev, i, Key(ev[i].call))
  }

  /** The same evidence has been seen before position i in the same window. */
  ghost predicate SeenInWindow(ev: seq<Event>, i: nat, text: string)
    requires i <= |ev|
  {
    exists j: nat :: j < i && EvidenceAt(ev, j) && ev[j].text == text && forall k: nat :: j < k < i ==> !NewWindowAt(ev, k)
  }

  ghost predicate NoNewEvidence(ev: seq<Event>, i: nat) {
    EvidenceAt(ev, i) && SeenInWindow(ev, i, ev[i].text)
  }

  lemma SamePast(ev: seq<Event>, more: seq<Event>, k: nat, key: string)
    requires k < |ev| && ev <= more
    ensures ForgetsAt(ev, k, key) == ForgetsAt(more, k, key)
    ensures EvidenceAt(ev, k) == EvidenceAt(more, k) && NewWindowAt(ev, k) == NewWindowAt(more, k)
  {
    assert ev[..k + 1] == more[..k + 1];
  }

  lemma PastCalls(ev: seq<Event>, more: seq<Event>, i: nat, key: string)
    requires i <= |ev| && ev <= more
    ensures CalledSince(ev, i, key) == CalledSince(more, i, key)
    ensures SeenInWindow(ev, i, key) == SeenInWindow(more, i, key)
  {
    forall k: nat | k < i
      ensures ForgetsAt(ev, k, key) == ForgetsAt(more, k, key)
      ensures EvidenceAt(ev, k) == EvidenceAt(more, k) && NewWindowAt(ev, k) == NewWindowAt(more, k)
    {
      SamePast(ev, more, k, key);
    }
  }

  lemma CalledSinceStep(ev: seq<Event>, n: nat, key: string)
    requires n < |ev|
    ensures CalledSince(ev, n + 1, key) <==> Calls(ev[n], key) || (!ForgetsAt(ev, n, key) && CalledSince(ev, n, key))
  {
    hide Calls, ForgetsAt;
    if CalledSince(ev, n, key) && !ForgetsAt(ev, n, key) {
      var j: nat :| j < n && Calls(ev[j], key) && forall k: nat :: j < k < n ==> !ForgetsAt(ev, k, key);
      assert j < n + 1 && forall k: nat :: j < k < n + 1 ==> !ForgetsAt(ev, k, key);
    }
  }

  lemma SeenInWindowStep(ev: seq<Event>, n: nat, text: string)
    requires n < |ev|
    ensures SeenInWindow(ev, n + 1, text) <==>
              (EvidenceAt(ev, n) && ev[n].text == text) || (!NewWindowAt(ev, n) && SeenInWindow(ev, n, text))
  {
    hide NewWindowAt, Evidence;
    if SeenInWindow(ev, n, text) && !NewWindowAt(ev, n) {
      var j: nat :| j < n && EvidenceAt(ev, j) && ev[j].text == text && forall k: nat :: j < k < n ==> !NewWindowAt(ev, k);
      assert j < n + 1 && forall k: nat :: j < k < n + 1 ==> !NewWindowAt(ev, k);
    }
  }

  lemma {:induction false} SeenIffCalledSince(ev: seq<Event>, key: string)
    ensures Seen(ev, key) <==> CalledSince(ev, |ev|, key)
  {
    hide CalledSince, Calls, Forgets, SeenInWindow;
    if ev == [] {
      NothingCalled(key);
    } else {
      var n := |ev| - 1;
      SeenIffCalledSince(Init(ev), key);
      PastCalls(Init(ev), ev, n, key);
      CalledSinceStep(ev, n, key);
      assert ev[..n + 1] == ev;
    }
  }

  lemma NothingCalled(key: string)
    ensures !CalledSince([], 0, key) && !SeenInWindow([], 0, key)
  {
  }

  lemma {:induction false} SeenTextIffInWindow(ev: seq<Event>, text: string)
    ensures SeenText(ev, text) <==> SeenInWindow(ev, |ev|, text)
  {
    hide SeenInWindow, CalledSince, Evidence;
    if ev == [] {
      NothingCalled(text);
    } else {
      var n := |ev| - 1;
      SeenTextIffInWindow(Init(ev), text);
      PastCalls(Init(ev), ev, n, text);
      SeenInWindowStep(ev, n, text);
      assert ev[..n + 1] == ev;
      if Evidence(ev) { EvidenceIsAnswer(ev); }
    }
  }

  lemma EvidenceIsAnswer(ev: seq<Event>)
    requires ev != [] && Evidence(ev)
    ensures Last(ev).Answered?
  {
  }

  // ---- Counting --------------------------------------------------------------------------------------------------

  ghost function Duplicates(ev: seq<Event>): set<nat> { set i | 0 <= i < |ev| && Duplicate(ev, i) }

  ghost function NothingNew(ev: seq<Event>): set<nat> { set i | 0 <= i < |ev| && NoNewEvidence(ev, i) }

  lemma SamePositions(ev: seq<Event>, more: seq<Event>, i: nat)
    requires i < |ev| && ev <= more
    ensures Duplicate(more, i) == Duplicate(ev, i) && NoNewEvidence(more, i) == NoNewEvidence(ev, i)
  {
    hide CalledSince, SeenInWindow, Evidence;
    if ev[i].Called? { PastCalls(ev, more, i, Key(ev[i].call)); }
    SamePast(ev, more, i, "");
    if EvidenceAt(ev, i) {
      EvidenceIsAnswer(ev[..i + 1]);
      PastCalls(ev, more, i, ev[i].text);
    }
  }

  lemma LastPosition(ev: seq<Event>, e: Event)
    ensures Duplicate(ev + [e], |ev|) <==> e.Called? && ReadOnly(e.call) && Seen(ev, Key(e.call))
    ensures NoNewEvidence(ev + [e], |ev|) <==> Evidence(ev + [e]) && SeenText(ev, e.text)
  {
    var more, n := ev + [e], |ev|;
    assert more[..n + 1] == more;
    hide CalledSince, SeenInWindow, Evidence, Seen, SeenText;
    if e.Called? {
      SeenIffCalledSince(ev, Key(e.call));
      PastCalls(ev, more, n, Key(e.call));
    }
    if Evidence(more) {
      EvidenceIsAnswer(more);
      SeenTextIffInWindow(ev, e.text);
      PastCalls(ev, more, n, e.text);
    }
  }

  lemma PositionsGrow(ev: seq<Event>, e: Event)
    ensures |Duplicates(ev + [e])| == |Duplicates(ev)| + if Duplicate(ev + [e], |ev|) then 1 else 0
    ensures |NothingNew(ev + [e])| == |NothingNew(ev)| + if NoNewEvidence(ev + [e], |ev|) then 1 else 0
  {
    hide Duplicate, NoNewEvidence;
    var more, n := ev + [e], |ev|;
    forall i: nat | i < n ensures Duplicate(more, i) == Duplicate(ev, i) && NoNewEvidence(more, i) == NoNewEvidence(ev, i) {
      SamePositions(ev, more, i);
    }
    assert n !in Duplicates(ev) && n !in NothingNew(ev);
    assert Duplicates(more) == (if Duplicate(more, n) then Duplicates(ev) + {n} else Duplicates(ev)) by { hide NothingNew; }
    assert NothingNew(more) == (if NoNewEvidence(more, n) then NothingNew(ev) + {n} else NothingNew(ev)) by { hide Duplicates; }
  }

  /** What one more event does to the counts. */
  lemma CountsGrow(ev: seq<Event>, e: Event)
    ensures Evidence(ev + [e]) ==> e.Answered?
    ensures |Duplicates(ev + [e])| ==
              |Duplicates(ev)| + if e.Called? && ReadOnly(e.call) && Seen(ev, Key(e.call)) then 1 else 0
    ensures |NothingNew(ev + [e])| == |NothingNew(ev)| + if Evidence(ev + [e]) && SeenText(ev, e.text) then 1 else 0
  {
    hide Duplicates, NothingNew, Duplicate, NoNewEvidence, Seen, SeenText;
    LastPosition(ev, e);
    PositionsGrow(ev, e);
  }

  /** The plain counts: assistant messages, tool calls and errors, and the last stop reason. */
  datatype Totals = Totals(rounds: nat, toolCalls: nat, toolErrors: nat, terminationReason: string)

  function Total(ev: seq<Event>): Totals {
    if ev == [] then Totals(0, 0, 0, "none")
    else
      var t := Total(Init(ev));
      match Last(ev)
      case Round(stopReason) => t.(rounds := t.rounds + 1, terminationReason := stopReason)
      case Called(_) => t.(toolCalls := t.toolCalls + 1)
      case Answered(_, isError, _) => if isError then t.(toolErrors := t.toolErrors + 1) else t
  }

  /** What a call changes. */
  lemma AfterCall(ev: seq<Event>, c: Call)
    ensures var more := ev + [Called(c)];
            && (forall key :: Seen(more, key) <==> ReadOnly(c) && (key == Key(c) || Seen(ev, key)))
            && (forall text :: SeenText(more, text) <==> ReadOnly(c) && SeenText(ev, text))
            && (forall id :: KeyOf(more, id) == if ReadOnly(c) && c.id == id then Some(Key(c)) else KeyOf(ev, id))
            && (forall id :: Repeated(more, id) <==> (ReadOnly(c) && c.id == id && Seen(ev, Key(c))) || Repeated(ev, id))
            && Total(more) == Total(ev).(toolCalls := Total(ev).toolCalls + 1)
  {
    assert Init(ev + [Called(c)]) == ev;
    hide ReadOnly, Key;
  }

  /** What a result changes. */
  lemma AfterResult(ev: seq<Event>, e: Event)
    requires e.Answered?
    ensures var more := ev + [e];
            && (forall key :: Seen(more, key) <==> Seen(ev, key) && !(e.isError && KeyOf(ev, e.id) == Some(key)))
            && (forall text :: SeenText(more, text) <==> (Evidence(more) && e.text == text) || SeenText(ev, text))
            && (forall id :: KeyOf(more, id) == KeyOf(ev, id))
            && (forall id :: Repeated(more, id) <==> Repeated(ev, id))
            && Total(more) == Total(ev).(toolErrors := Total(ev).toolErrors + if e.isError then 1 else 0)
            && (Evidence(more) <==> !e.isError && KeyOf(ev, e.id).Some? && !Repeated(ev, e.id) && |e.text| >= MIN_EVIDENCE_CHARS)
  {
    assert Init(ev + [e]) == ev;
  }

  lemma OneMoreCall(ev: seq<Event>, stopReason: string, calls: seq<Call>, k: nat)
    requires k < |calls|
    ensures ev + ([Round(stopReason)] + CallEvents(calls[..k])) + [Called(calls[k])] ==
            ev + ([Round(stopReason)] + CallEvents(calls[..k + 1]))
  {
    assert CallEvents(calls[..k + 1]) == CallEvents(calls[..k]) + [Called(calls[k])];
  }

  /** What a round changes. */
  lemma AfterRound(ev: seq<Event>, stopReason: string)
    ensures var more := ev + [Round(stopReason)];
            && (forall key :: Seen(more, key) <==> Seen(ev, key))
            && (forall text :: SeenText(more, text) <==> SeenText(ev, text))
            && (forall id :: KeyOf(more, id) == KeyOf(ev, id))
            && (forall id :: Repeated(more, id) <==> Repeated(ev, id))
            && Total(more) == Total(ev).(rounds := Total(ev).rounds + 1, terminationReason := stopReason)
  {
    assert Init(ev + [Round(stopReason)]) == ev;
  }

  // ---- What counts, said without the pass ------------------------------------------------------------------------

  /** A read-only call with this id. */
  predicate CallsWith(ev: seq<Event>, i: nat, id: string) {
    i < |ev| && ev[i].Called? && ReadOnly(ev[i].call) && ev[i].call.id == id
  }

  /** The key that is known for an id is that of the latest read-only call with it. */
  lemma {:induction false} KeyIsLatest(ev: seq<Event>, id: string, i: nat)
    requires forall j: nat :: CallsWith(ev, j, id) ==> j <= i < |ev|
    requires i < |ev| ==> CallsWith(ev, i, id)
    ensures KeyOf(ev, id) == if i < |ev| then Some(Key(ev[i].call)) else None
  {
    hide ReadOnly, Key;
    if ev != [] && i != |ev| - 1 {
      assert !CallsWith(ev, |ev| - 1, id);
      assert forall j: nat :: CallsWith(Init(ev), j, id) ==> CallsWith(ev, j, id);
      KeyIsLatest(Init(ev), id, i);
    }
  }

  lemma {:induction false} KeyKnownIff(ev: seq<Event>, id: string)
    ensures KeyOf(ev, id).Some? <==> exists i: nat :: CallsWith(ev, i, id)
  {
    hide ReadOnly, Key;
    if ev != [] {
      KeyKnownIff(Init(ev), id);
      assert forall j: nat :: CallsWith(Init(ev), j, id) ==> CallsWith(ev, j, id);
      assert forall j: nat :: CallsWith(ev, j, id) ==> CallsWith(Init(ev), j, id) || j == |ev| - 1;
      assert CallsWith(ev, |ev| - 1, id) <==> Last(ev).Called? && ReadOnly(Last(ev).call) && Last(ev).call.id == id;
    }
  }

  ghost predicate DuplicateWith(ev: seq<Event>, i: nat, id: string) {
    Duplicate(ev, i) && ev[i].call.id == id
  }

  /** An id is marked as repeated exactly if a call with it was a duplicate. */
  lemma {:induction false} RepeatedIffDuplicate(ev: seq<Event>, id: string)
    ensures Repeated(ev, id) <==> exists i: nat :: DuplicateWith(ev, i, id)
  {
    if ev != [] {
      var n := |ev| - 1;
      RepeatedIffDuplicate(Init(ev), id);
      assert ev == Init(ev) + [Last(ev)];
      LastPosition(Init(ev), Last(ev));
      hide Duplicate, Seen, ReadOnly, Key;
      forall i: nat | i < n ensures DuplicateWith(Init(ev), i, id) <==> DuplicateWith(ev, i, id) {
        SamePositions(Init(ev), ev, i);
      }
      DuplicatesAreThere(ev, id);
      DuplicatesAreThere(Init(ev), id);
      assert DuplicateWith(ev, n, id) <==> Duplicate(ev, n) && Last(ev).call.id == id;
    }
  }

  lemma DuplicatesAreThere(ev: seq<Event>, id: string)
    ensures forall i: nat :: DuplicateWith(ev, i, id) ==> i < |ev|
  {
  }

  /** What counts as evidence: a result of at least 80 characters that is no error, for an id with which a
      read-only call has been made before, but no duplicate. */
  lemma EvidenceIff(ev: seq<Event>, k: nat)
    requires k < |ev|
    ensures EvidenceAt(ev, k) <==>
              && ev[k].Answered? && !ev[k].isError && |ev[k].text| >= 80
              && (exists i: nat :: i < k && CallsWith(ev, i, ev[k].id))
              && !exists i: nat :: i < k && DuplicateWith(ev, i, ev[k].id)
  {
    var before := ev[..k];
    assert Init(ev[..k + 1]) == before && Last(ev[..k + 1]) == ev[k];
    hide Duplicate, ReadOnly, KeyOf, Repeated;
    if ev[k].Answered? {
      var id := ev[k].id;
      KeyKnownIff(before, id);
      RepeatedIffDuplicate(before, id);
      DuplicatesAreThere(before, id);
      forall i: nat | i < k
        ensures CallsWith(before, i, id) <==> CallsWith(ev, i, id)
        ensures DuplicateWith(before, i, id) <==> DuplicateWith(ev, i, id)
      {
        SamePositions(before, ev, i);
      }
    }
  }

  /** What makes repeating a call legitimate: a call of a tool that is not read-only, or an error for an id whose
      latest read-only call has this key. */
  lemma ForgetsIff(ev: seq<Event>, k: nat, key: string, i: nat)
    requires k < |ev|
    requires ev[k].Answered? ==> (i < k ==> CallsWith(ev, i, ev[k].id)) && forall j: nat :: j < k && CallsWith(ev, j, ev[k].id) ==> j <= i < k
    ensures ForgetsAt(ev, k, key) <==>
              || (ev[k].Called? && !ReadOnly(ev[k].call))
              || (ev[k].Answered? && ev[k].isError && i < k && Key(ev[i].call) == key)
  {
    var before := ev[..k];
    assert Init(ev[..k + 1]) == before && Last(ev[..k + 1]) == ev[k];
    hide ReadOnly, Key;
    if ev[k].Answered? {
      assert forall j: nat :: j < k ==> (CallsWith(before, j, ev[k].id) <==> CallsWith(ev, j, ev[k].id));
      KeyIsLatest(before, ev[k].id, if i < k then i else k);
    }
  }

  ghost function RoundsOf(ev: seq<Event>): set<nat> { set i | 0 <= i < |ev| && ev[i].Round? }

  ghost function CallsOf(ev: seq<Event>): set<nat> { set i | 0 <= i < |ev| && ev[i].Called? }

  ghost function ErrorsOf(ev: seq<Event>): set<nat> { set i | 0 <= i < |ev| && ev[i].Answered? && ev[i].isError }

  lemma EventSetsGrow(ev: seq<Event>, e: Event)
    ensures |RoundsOf(ev + [e])| == |RoundsOf(ev)| + if e.Round? then 1 else 0
    ensures |CallsOf(ev + [e])| == |CallsOf(ev)| + if e.Called? then 1 else 0
    ensures |ErrorsOf(ev + [e])| == |ErrorsOf(ev)| + if e.Answered? && e.isError then 1 else 0
  {
    var n, more := |ev|, ev + [e];
    assert n !in RoundsOf(ev) && n !in CallsOf(ev) && n !in ErrorsOf(ev);
    assert RoundsOf(more) == (if e.Round? then RoundsOf(ev) + {n} else RoundsOf(ev)) by { hide CallsOf, ErrorsOf; }
    assert CallsOf(more) == (if e.Called? then CallsOf(ev) + {n} else CallsOf(ev)) by { hide RoundsOf, ErrorsOf; }
    assert ErrorsOf(more) == (if e.Answered? && e.isError then ErrorsOf(ev) + {n} else ErrorsOf(ev)) by { hide RoundsOf, CallsOf; }
    hide RoundsOf, CallsOf, ErrorsOf;
  }

  /** The plain counts are numbers of events. */
  lemma {:induction false} TotalCounts(ev: seq<Event>)
    ensures Total(ev).rounds == |RoundsOf(ev)| && Total(ev).toolCalls == |CallsOf(ev)|
    ensures Total(ev).toolErrors == |ErrorsOf(ev)|
  {
    if ev != [] {
      TotalCounts(Init(ev));
      EventSetsGrow(Init(ev), Last(ev));
      hide RoundsOf, CallsOf, ErrorsOf;
      assert ev == Init(ev) + [Last(ev)];
    }
  }

  /** The stop reason is that of the last round, if there is one. */
  lemma {:induction false} ReasonIsLast(ev: seq<Event>, k: nat)
    requires k < |ev| ==> ev[k].Round?
    requires forall j :: 0 <= j < |ev| && ev[j].Round? ==> j <= k < |ev|
    ensures Total(ev).terminationReason == if k < |ev| then ev[k].stopReason else "none"
  {
    if ev != [] && k != |ev| - 1 {
      assert !ev[|ev| - 1].Round?;
      ReasonIsLast(Init(ev), k);
    }
  }

  // ---- The pass ------------------------------------------------------------------------------------------------------

  class Pass {
    var rounds: nat
    var toolCalls: nat
    var toolErrors: nat
    var duplicateCalls: nat
    var noNewEvidenceCalls: nat
    var terminationReason: string
    var seenCalls: set<string>
    var seenResults: set<string>
    var keyByCallId: map<string, string>
    var duplicateIds: set<string>
    ghost var ev: seq<Event>

    /** The sets hold what they should after the events so far. */
    ghost predicate Knows()
      reads this
    {
      && (forall key :: key in seenCalls <==> Seen(ev, key))
      && (forall text :: text in seenResults <==> SeenText(ev, text))
      && (forall id :: Find(keyByCallId, id) == KeyOf(ev, id))
      && (forall id :: id in duplicateIds <==> Repeated(ev, id))
    }

    /** And the counters count what they should. */
    ghost predicate Valid()
      reads this
    {
      && Knows()
      && duplicateCalls == |Duplicates(ev)| && noNewEvidenceCalls == |NothingNew(ev)|
      && Totals(rounds, toolCalls, toolErrors, terminationReason) == Total(ev)
    }

    constructor ()
      ensures Valid() && ev == []
    {
      rounds, toolCalls, toolErrors, duplicateCalls, noNewEvidenceCalls, terminationReason := 0, 0, 0, 0, 0, "none";
      seenCalls, seenResults, keyByCallId, duplicateIds, ev := {}, {}, map[], {}, [];
    }

    method CountRound(stopReason: string)
      requires Valid()
      modifies this
      ensures Valid() && ev == old(ev) + [Round(stopReason)]
    {
      hide Duplicates, NothingNew, Evidence, Seen, SeenText, KeyOf, Repeated, Total;
      CountsGrow(ev, Round(stopReason));
      AfterRound(ev, stopReason);
      ev := ev + [Round(stopReason)];
      rounds, terminationReason := rounds + 1, stopReason;
    }

    method CountCall(part: Call)
      requires Valid()
      modifies this
      ensures Valid() && ev == old(ev) + [Called(part)]
    {
      hide Duplicates, NothingNew, Evidence, Seen, SeenText, KeyOf, Repeated, Total;
      CountsGrow(ev, Called(part));
      AfterCall(ev, part);
      ev := ev + [Called(part)];
      toolCalls := toolCalls + 1;
      if part.name !in READ_ONLY_TOOLS {
        seenCalls, seenResults := {}, {};
        return;
      }
      RememberCall(old(ev), part);
    }

    /** Notes a read-only call; `before` is the trace up to it. */
    method RememberCall(ghost before: seq<Event>, part: Call)
      requires ReadOnly(part) && ev == before + [Called(part)]
      requires forall key :: key in seenCalls <==> Seen(before, key)
      requires forall text :: text in seenResults <==> SeenText(before, text)
      requires forall id :: Find(keyByCallId, id) == KeyOf(before, id)
      requires forall id :: id in duplicateIds <==> Repeated(before, id)
      requires duplicateCalls == |Duplicates(before)| && noNewEvidenceCalls == |NothingNew(before)|
      requires Totals(rounds, toolCalls, toolErrors, terminationReason) == Total(ev)
      modifies this`seenCalls, this`keyByCallId, this`duplicateIds, this`duplicateCalls
      ensures Valid()
    {
      hide Duplicates, NothingNew, Evidence, Seen, SeenText, KeyOf, Repeated, Total;
      CountsGrow(before, Called(part));
      AfterCall(before, part);
      var key := part.name + "\0" + part.arguments;
      assert key == Key(part);
      hide Key;
      keyByCallId := keyByCallId[part.id := key];
      if key in seenCalls {
        duplicateCalls := duplicateCalls + 1;
        duplicateIds := duplicateIds + {part.id};
      }
      seenCalls := seenCalls + {key};
    }

    method CountResult(id: string, isError: bool, text: string)
      requires Valid()
      modifies this
      ensures Valid() && ev == old(ev) + [Answered(id, isError, text)]
    {
      hide Duplicates, NothingNew, Evidence, Seen, SeenText, KeyOf, Repeated, Total;
      CountsGrow(ev, Answered(id, isError, text));
      AfterResult(ev, Answered(id, isError, text));
      ev := ev + [Answered(id, isError, text)];
      var key := Find(keyByCallId, id);
      if isError {
        toolErrors := toolErrors + 1;
        if key.Some? { seenCalls := seenCalls - {key.value}; }
        return;
      }
      if key == None || id in duplicateIds { return; }
      if |text| < MIN_EVIDENCE_CHARS { return; }
      if text in seenResults { noNewEvidenceCalls := noNewEvidenceCalls + 1; }
      seenResults := seenResults + {text};
    }

    method CountMessage(message: Message)
      requires Valid()
      modifies this
      ensures Valid() && ev == old(ev) + EventsOf(message)
    {
      hide Valid;
      match message
      case Assistant(stopReason, calls) =>
        CountRound(stopReason);
        for k := 0 to |calls|
          invariant Valid() && ev == old(ev) + ([Round(stopReason)] + CallEvents(calls[..k]))
        {
          CountCall(calls[k]);
          OneMoreCall(old(ev), stopReason, calls, k);
        }
        assert calls[..|calls|] == calls;
      case ToolResult(id, isError, text) => CountResult(id, isError, text);
      case Other =>
    }
  }

  /** The counts of a run: those of its duplicate calls, and of its results that were nothing new. */
  method MeasureToolUse(messages: seq<Message>) returns (use: Totals, duplicateCalls: nat, noNewEvidenceCalls: nat)
    ensures use == Total(Events(messages))
    ensures duplicateCalls == |Duplicates(Events(messages))| && noNewEvidenceCalls == |NothingNew(Events(messages))|
  {
    var pass := new Pass();
    for k := 0 to |messages|
      invariant fresh(pass) && pass.Valid() && pass.ev == Events(messages[..k])
    {
      pass.CountMessage(messages[k]);
      assert messages[..k + 1][..k] == messages[..k];
    }
    assert messages[..|messages|] == messages;
    use := Totals(pass.rounds, pass.toolCalls, pass.toolErrors, pass.terminationReason);
    duplicateCalls, noNewEvidenceCalls := pass.duplicateCalls, pass.noNewEvidenceCalls;
  }
}
