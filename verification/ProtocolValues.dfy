/** packages/protocol/src/codec.ts and packages/server/src/protocol.ts: traversals of object graphs that may
    be shared and cyclic. The heap is not changed; each traversal keeps the set of objects it is inside of. */
module ProtocolValues {
  import opened Options

  type Ref = nat

  datatype Number = Finite(value: int) | NonFinite(text: string)

  datatype Value = Undefined | Null | Bool(b: bool) | Num(n: Number) | Text(s: string) | BigInt(i: string) | Callable
                 | Object(ref: Ref)

  datatype Prototype = ObjectPrototype | NullPrototype | OtherPrototype

  /** An object: a dense array, or the own enumerable entries of anything else. */
  datatype Node = List(items: seq<Value>) | Record(prototype: Prototype, keys: seq<string>, values: seq<Value>) {
    function Children(): seq<Value> { if List? then items else values }
  }

  type Heap = map<Ref, Node>

  predicate Known(h: Heap, v: Value) { v.Object? ==> v.ref in h }

  /** References point to objects, and a record has a value for every key. */
  predicate Closed(h: Heap) {
    forall r :: r in h ==>
      (h[r].Record? ==> |h[r].keys| == |h[r].values|)
      && forall i :: 0 <= i < |h[r].Children()| ==> Known(h, h[r].Children()[i])
  }

  // ---- isProtocolValue ---------------------------------------------------------------------------------

  function Accepts(h: Heap, ancestors: set<Ref>, v: Value, optional: bool): bool
    requires Closed(h) && Known(h, v)
    decreases |h.Keys - ancestors|
  {
    match v
    case Undefined => optional
    case BigInt(_) => false
    case Callable => false
    case Object(r) =>
      if r in ancestors then false
      else
        assert h.Keys - (ancestors + {r}) == (h.Keys - ancestors) - {r};
        var node := h[r];
        (node.Record? ==> node.prototype == ObjectPrototype)
        && forall i :: 0 <= i < |node.Children()| ==> Accepts(h, ancestors + {r}, node.Children()[i], node.Record?)
    case _ => true
  }

  /** The set a traversal adds to and removes from. */
  class ObjectSet {
    var elements: set<Ref>

    constructor ()
      ensures elements == {}
    {
      elements := {};
    }
  }

  method IsProtocolValue(h: Heap, v: Value, optionalProperty: bool, ancestors: ObjectSet) returns (ok: bool)
    requires Closed(h) && Known(h, v)
    modifies ancestors
    ensures ok == Accepts(h, old(ancestors.elements), v, optionalProperty)
    ensures ancestors.elements == old(ancestors.elements)
    decreases |h.Keys - ancestors.elements|, 0
  {
    if v.Undefined? { return optionalProperty; }
    if v.Null? || v.Bool? || v.Num? || v.Text? { return true; }
    if !v.Object? || v.ref in ancestors.elements { return false; }
    ghost var outer := ancestors.elements;
    assert h.Keys - (outer + {v.ref}) == (h.Keys - outer) - {v.ref};
    ancestors.elements := ancestors.elements + {v.ref};
    var node := h[v.ref];
    if node.Record? && node.prototype != ObjectPrototype {
      ok := false;
    } else {
      ok := Every(h, node.Children(), node.Record?, ancestors);
    }
    ancestors.elements := ancestors.elements - {v.ref};
  }

  method Every(h: Heap, values: seq<Value>, optional: bool, ancestors: ObjectSet) returns (ok: bool)
    requires Closed(h) && forall i :: 0 <= i < |values| ==> Known(h, values[i])
    modifies ancestors
    ensures ok <==> forall i :: 0 <= i < |values| ==> Accepts(h, old(ancestors.elements), values[i], optional)
    ensures ancestors.elements == old(ancestors.elements)
    decreases |h.Keys - ancestors.elements|, 1
  {
    for k := 0 to |values|
      invariant forall i :: 0 <= i < k ==> Accepts(h, old(ancestors.elements), values[i], optional)
      invariant ancestors.elements == old(ancestors.elements)
    {
      ok := IsProtocolValue(h, values[k], optional, ancestors);
      if !ok { return; }
    }
    ok := true;
  }

  // ---- What is accepted -----------------------------------------------------------------------------------

  /** A way down from v: the objects gone through, and the value arrived at, which is optional if it was
      reached as a property. */
  ghost predicate Leads(h: Heap, v: Value, optional: bool, path: seq<Ref>, w: Value, property: bool)
    decreases path
  {
    if path == [] then w == v && property == optional
    else
      && v == Object(path[0]) && path[0] in h
      && exists i :: 0 <= i < |h[path[0]].Children()|
                     && Leads(h, h[path[0]].Children()[i], h[path[0]].Record?, path[1..], w, property)
  }

  /** A leaf that is not allowed there, an object that is neither an array nor plain, or one that is gone
      through already: a cycle. */
  ghost predicate Bad(h: Heap, path: seq<Ref>, w: Value, property: bool) {
    match w
    case Undefined => !property
    case BigInt(_) => true
    case Callable => true
    case Object(r) => r in path || (r in h && h[r].Record? && h[r].prototype != ObjectPrototype)
    case _ => false
  }

  ghost predicate NothingBad(h: Heap, above: seq<Ref>, v: Value, optional: bool) {
    forall path, w, property :: Leads(h, v, optional, path, w, property) ==> !Bad(h, above + path, w, property)
  }

  ghost function Elements(s: seq<Ref>): set<Ref> { set r | r in s }

  lemma {:induction false} AcceptedHasNothingBad(h: Heap, above: seq<Ref>, v: Value, optional: bool,
                                                 path: seq<Ref>, w: Value, property: bool)
    requires Closed(h) && Known(h, v) && Accepts(h, Elements(above), v, optional)
    requires Leads(h, v, optional, path, w, property)
    ensures !Bad(h, above + path, w, property)
    decreases path
  {
    if path == [] {
      assert above + path == above;
    } else {
      var r := path[0];
      var node := h[r];
      var i :| 0 <= i < |node.Children()| && Leads(h, node.Children()[i], node.Record?, path[1..], w, property);
      assert Elements(above + [r]) == Elements(above) + {r};
      AcceptedHasNothingBad(h, above + [r], node.Children()[i], node.Record?, path[1..], w, property);
      assert above + [r] + path[1..] == above + path;
    }
  }

  /** From a child's way down to its parent's. */
  lemma LeadsFromParent(h: Heap, r: Ref, i: nat, optional: bool, path: seq<Ref>, w: Value, property: bool)
    requires r in h && i < |h[r].Children()| && Leads(h, h[r].Children()[i], h[r].Record?, path, w, property)
    ensures Leads(h, Object(r), optional, [r] + path, w, property)
  {
    assert ([r] + path)[1..] == path;
  }

  /** A rejected array or plain object that has not been gone through has a rejected child. */
  lemma RejectedChild(h: Heap, above: seq<Ref>, v: Value, optional: bool) returns (i: nat)
    requires Closed(h) && Known(h, v) && !Accepts(h, Elements(above), v, optional)
    requires !Bad(h, above, v, optional)
    ensures v.Object? && v.ref in h && v.ref !in above && i < |h[v.ref].Children()|
    ensures Known(h, h[v.ref].Children()[i])
    ensures !Accepts(h, Elements(above + [v.ref]), h[v.ref].Children()[i], h[v.ref].Record?)
    ensures |h.Keys - Elements(above + [v.ref])| < |h.Keys - Elements(above)|
  {
    var r := v.ref;
    assert r in h && r !in above;
    assert Elements(above + [r]) == Elements(above) + {r};
    assert h.Keys - Elements(above + [r]) == (h.Keys - Elements(above)) - {r};
    i :| 0 <= i < |h[r].Children()| && !Accepts(h, Elements(above) + {r}, h[r].Children()[i], h[r].Record?);
  }

  lemma {:induction false} RejectedHasSomethingBad(h: Heap, above: seq<Ref>, v: Value, optional: bool)
    returns (path: seq<Ref>, w: Value, property: bool)
    requires Closed(h) && Known(h, v) && !Accepts(h, Elements(above), v, optional)
    ensures Leads(h, v, optional, path, w, property) && Bad(h, above + path, w, property)
    decreases |h.Keys - Elements(above)|
  {
    hide Accepts, Closed, Bad, Elements;
    path, w, property := [], v, optional;
    assert above + path == above && Leads(h, v, optional, path, w, property);
    hide Leads;
    if !Bad(h, above, v, optional) {
      var i := RejectedChild(h, above, v, optional);
      var r := v.ref;
      path, w, property := RejectedHasSomethingBad(h, above + [r], h[r].Children()[i], h[r].Record?);
      LeadsFromParent(h, r, i, optional, path, w, property);
      assert above + ([r] + path) == above + [r] + path;
      path := [r] + path;
    }
  }

  /** A value is accepted exactly if no way down from it arrives at anything bad: no cycle can be reached,
      and every leaf is allowed where it is. */
  lemma AcceptsIffNothingBad(h: Heap, v: Value, optional: bool)
    requires Closed(h) && Known(h, v)
    ensures Accepts(h, {}, v, optional) <==> NothingBad(h, [], v, optional)
  {
    assert Elements([]) == {};
    if Accepts(h, {}, v, optional) {
      forall path, w, property | Leads(h, v, optional, path, w, property) ensures !Bad(h, [] + path, w, property) {
        AcceptedHasNothingBad(h, [], v, optional, path, w, property);
      }
    } else {
      var path, w, property := RejectedHasSomethingBad(h, [], v, optional);
    }
  }

  // ---- toProtocolJsonValue ------------------------------------------------------------------------------------

  datatype Json = JNull | JBool(b: bool) | JNumber(value: int) | JText(s: string) | JArray(items: seq<Json>)
                | JObject(keys: seq<string>, values: seq<Json>)

  /** The tree with the same leaves: what a value looks like when sharing is ignored. Only arrays and plain
      objects, or ones without a prototype, unfold. */
  ghost predicate Unfolds(h: Heap, v: Value, t: Json)
    decreases t
  {
    match t
    case JNull => v == Null
    case JBool(b) => v == Bool(b)
    case JNumber(value) => v == Num(Finite(value))
    case JText(s) => v == Text(s)
    case JArray(items) =>
      v.Object? && v.ref in h && h[v.ref].List? && AllUnfold(h, h[v.ref].items, items)
    case JObject(keys, values) =>
      v.Object? && v.ref in h && h[v.ref].Record? && h[v.ref].prototype != OtherPrototype && h[v.ref].keys == keys
      && AllUnfold(h, h[v.ref].values, values)
  }

  ghost predicate AllUnfold(h: Heap, vs: seq<Value>, ts: seq<Json>)
    decreases ts
  {
    |vs| == |ts| && forall i :: 0 <= i < |ts| ==> Unfolds(h, vs[i], ts[i])
  }

  function ToJson(h: Heap, seen: set<Ref>, v: Value): Option<Json>
    requires Closed(h) && Known(h, v)
    decreases |h.Keys - seen|, 0
  {
    match v
    case Null => Some(JNull)
    case Bool(b) => Some(JBool(b))
    case Text(s) => Some(JText(s))
    case Num(n) => if n.Finite? then Some(JNumber(n.value)) else None
    case Object(r) =>
      if r in seen || (h[r].Record? && h[r].prototype == OtherPrototype) then None
      else
        assert h.Keys - (seen + {r}) == (h.Keys - seen) - {r};
        var children := AllToJson(h, seen + {r}, h[r].Children());
        if children == None then None
        else if h[r].List? then Some(JArray(children.value))
        else Some(JObject(h[r].keys, children.value))
    case _ => None
  }

  function AllToJson(h: Heap, seen: set<Ref>, vs: seq<Value>): (r: Option<seq<Json>>)
    requires Closed(h) && forall i :: 0 <= i < |vs| ==> Known(h, vs[i])
    ensures r.Some? ==> |r.value| == |vs|
    decreases |h.Keys - seen|, 1, |vs|
  {
    if vs == [] then Some([])
    else
      var init := AllToJson(h, seen, vs[..|vs| - 1]);
      if init == None then None
      else
        var last := ToJson(h, seen, vs[|vs| - 1]);
        if last == None then None else Some(init.value + [last.value])
  }

  lemma {:induction false} AllToJsonAt(h: Heap, seen: set<Ref>, vs: seq<Value>)
    requires Closed(h) && forall i :: 0 <= i < |vs| ==> Known(h, vs[i])
    ensures AllToJson(h, seen, vs).Some? <==> forall i :: 0 <= i < |vs| ==> ToJson(h, seen, vs[i]).Some?
    ensures AllToJson(h, seen, vs).Some? ==>
              forall i :: 0 <= i < |vs| ==> ToJson(h, seen, vs[i]) == Some(AllToJson(h, seen, vs).value[i])
    decreases |vs|
  {
    if vs != [] { AllToJsonAt(h, seen, vs[..|vs| - 1]); }
  }

  /** How an object is converted, if it can be. */
  lemma ObjectConverts(h: Heap, seen: set<Ref>, r: Ref)
    requires Closed(h) && r in h && ToJson(h, seen, Object(r)).Some?
    ensures var vs := h[r].Children();
            && r !in seen && (h[r].Record? ==> h[r].prototype != OtherPrototype)
            && |h.Keys - (seen + {r})| < |h.Keys - seen|
            && (forall i :: 0 <= i < |vs| ==> Known(h, vs[i]))
            && AllToJson(h, seen + {r}, vs).Some?
            && var ts := AllToJson(h, seen + {r}, vs).value;
               ToJson(h, seen, Object(r)).value == if h[r].List? then JArray(ts) else JObject(h[r].keys, ts)
  {
    hide AllToJson;
    assert h.Keys - (seen + {r}) == (h.Keys - seen) - {r};
  }

  /** What is returned is the unfolding. */
  lemma {:induction false} ToJsonUnfolds(h: Heap, seen: set<Ref>, v: Value)
    requires Closed(h) && Known(h, v) && ToJson(h, seen, v).Some?
    ensures Unfolds(h, v, ToJson(h, seen, v).value)
    decreases |h.Keys - seen|
  {
    hide ToJson, AllToJson, Unfolds, Closed;
    if !v.Object? {
      LeafUnfolds(h, seen, v);
    } else {
      var r := v.ref;
      var vs := h[r].Children();
      ObjectConverts(h, seen, r);
      AllToJsonAt(h, seen + {r}, vs);
      var ts := AllToJson(h, seen + {r}, vs).value;
      forall i | 0 <= i < |vs| ensures Unfolds(h, vs[i], ts[i]) {
        ToJsonUnfolds(h, seen + {r}, vs[i]);
      }
      ObjectUnfolds(h, r, ts);
    }
  }

  lemma LeafUnfolds(h: Heap, seen: set<Ref>, v: Value)
    requires Closed(h) && !v.Object? && ToJson(h, seen, v).Some?
    ensures Unfolds(h, v, ToJson(h, seen, v).value)
  {
  }

  lemma ObjectUnfolds(h: Heap, r: Ref, ts: seq<Json>)
    requires r in h && AllUnfold(h, h[r].Children(), ts) && (h[r].Record? ==> h[r].prototype != OtherPrototype)
    ensures Unfolds(h, Object(r), if h[r].List? then JArray(ts) else JObject(h[r].keys, ts))
  {
  }

  lemma {:induction false} UnfoldingIsUnique(h: Heap, v: Value, t: Json, u: Json)
    requires Unfolds(h, v, t) && Unfolds(h, v, u)
    ensures t == u
    decreases t
  {
    match t
    case JArray(items) =>
      forall i | 0 <= i < |items| ensures items[i] == u.items[i] {
        UnfoldingIsUnique(h, h[v.ref].items[i], items[i], u.items[i]);
      }
    case JObject(_, values) =>
      forall i | 0 <= i < |values| ensures values[i] == u.values[i] {
        UnfoldingIsUnique(h, h[v.ref].values[i], values[i], u.values[i]);
      }
    case _ =>
  }

  /** The objects gone through unfold, if at all, to something that properly contains t. */
  ghost predicate Inside(h: Heap, seen: set<Ref>, t: Json) {
    forall r, u :: r in seen && Unfolds(h, Object(r), u) ==> t < u
  }

  lemma ChildIsInside(h: Heap, seen: set<Ref>, r: Ref, t: Json, child: Json)
    requires Inside(h, seen, t) && Unfolds(h, Object(r), t) && child < t
    ensures Inside(h, seen + {r}, child)
  {
    forall q, u | q in seen + {r} && Unfolds(h, Object(q), u) ensures child < u {
      if q == r { UnfoldingIsUnique(h, Object(r), t, u); }
    }
  }

  lemma {:induction false} UnfoldingIsFound(h: Heap, seen: set<Ref>, v: Value, t: Json)
    requires Closed(h) && Known(h, v) && Unfolds(h, v, t) && Inside(h, seen, t)
    ensures ToJson(h, seen, v) == Some(t)
    decreases t
  {
    if v.Object? {
      var r := v.ref;
      var vs := h[r].Children();
      var ts := if t.JArray? then t.items else t.values;
      assert r !in seen;
      assert h.Keys - (seen + {r}) == (h.Keys - seen) - {r};
      forall i | 0 <= i < |vs| ensures ToJson(h, seen + {r}, vs[i]) == Some(ts[i]) {
        ChildIsInside(h, seen, r, t, ts[i]);
        UnfoldingIsFound(h, seen + {r}, vs[i], ts[i]);
      }
      AllToJsonAt(h, seen + {r}, vs);
      assert AllToJson(h, seen + {r}, vs).value == ts;
    }
  }

  /** The conversion succeeds exactly on values that have a finite unfolding, and returns it. */
  lemma ToJsonIffUnfolds(h: Heap, v: Value, t: Json)
    requires Closed(h) && Known(h, v)
    ensures ToJson(h, {}, v) == Some(t) <==> Unfolds(h, v, t)
  {
    if ToJson(h, {}, v) == Some(t) { ToJsonUnfolds(h, {}, v); }
    if Unfolds(h, v, t) { UnfoldingIsFound(h, {}, v, t); }
  }

  // ---- sanitizeProtocolDetails -----------------------------------------------------------------------------------

  const CIRCULAR := "[Circular]"

  /** None stands for undefined. */
  function Sanitize(h: Heap, seen: set<Ref>, v: Value): Option<Json>
    requires Closed(h) && Known(h, v)
    decreases |h.Keys - seen|, 0
  {
    match v
    case Null => Some(JNull)
    case Bool(b) => Some(JBool(b))
    case Text(s) => Some(JText(s))
    case Num(n) => Some(if n.Finite? then JNumber(n.value) else JText(n.text))
    case BigInt(i) => Some(JText(i))
    case Object(r) =>
      if r in seen then Some(JText(CIRCULAR))
      else
        assert h.Keys - (seen + {r}) == (h.Keys - seen) - {r};
        if h[r].List? then Some(JArray(SanitizeItems(h, seen + {r}, h[r].Children())))
        else
          var (keys, values) := SanitizeFields(h, seen + {r}, h[r].keys, h[r].Children());
          Some(JObject(keys, values))
    case _ => None
  }

  /** What is undefined becomes null in an array. */
  function SanitizeItems(h: Heap, seen: set<Ref>, vs: seq<Value>): (r: seq<Json>)
    requires Closed(h) && forall i :: 0 <= i < |vs| ==> Known(h, vs[i])
    ensures |r| == |vs|
    decreases |h.Keys - seen|, 1, |vs|
  {
    if vs == [] then []
    else
      var last := Sanitize(h, seen, vs[|vs| - 1]);
      SanitizeItems(h, seen, vs[..|vs| - 1]) + [if last.Some? then last.value else JNull]
  }

  /** And is left out of an object. */
  function SanitizeFields(h: Heap, seen: set<Ref>, keys: seq<string>, vs: seq<Value>): (r: (seq<string>, seq<Json>))
    requires Closed(h) && |keys| == |vs| && forall i :: 0 <= i < |vs| ==> Known(h, vs[i])
    ensures |r.0| == |r.1| <= |vs|
    decreases |h.Keys - seen|, 1, |vs|
  {
    if vs == [] then ([], [])
    else
      var n := |vs| - 1;
      var (ks, ts) := SanitizeFields(h, seen, keys[..n], vs[..n]);
      var last := Sanitize(h, seen, vs[n]);
      if last.Some? then (ks + [keys[n]], ts + [last.value]) else (ks, ts)
  }

  lemma {:induction false} ItemsAgree(h: Heap, seen: set<Ref>, vs: seq<Value>, ts: seq<Json>)
    requires Closed(h) && |vs| == |ts| && forall i :: 0 <= i < |vs| ==> Known(h, vs[i])
    requires forall i :: 0 <= i < |vs| ==> Sanitize(h, seen, vs[i]) == Some(ts[i])
    ensures SanitizeItems(h, seen, vs) == ts
    decreases |vs|
  {
    if vs != [] { ItemsAgree(h, seen, vs[..|vs| - 1], ts[..|vs| - 1]); }
  }

  lemma {:induction false} FieldsAgree(h: Heap, seen: set<Ref>, keys: seq<string>, vs: seq<Value>, ts: seq<Json>)
    requires Closed(h) && |keys| == |vs| == |ts| && forall i :: 0 <= i < |vs| ==> Known(h, vs[i])
    requires forall i :: 0 <= i < |vs| ==> Sanitize(h, seen, vs[i]) == Some(ts[i])
    ensures SanitizeFields(h, seen, keys, vs) == (keys, ts)
    decreases |vs|
  {
    if vs != [] {
      var n := |vs| - 1;
      FieldsAgree(h, seen, keys[..n], vs[..n], ts[..n]);
      assert keys == keys[..n] + [keys[n]] && ts == ts[..n] + [ts[n]];
    }
  }

  /** Where the strict conversion succeeds, the lossy one changes nothing. */
  lemma {:induction false} SanitizeAgrees(h: Heap, seen: set<Ref>, v: Value)
    requires Closed(h) && Known(h, v) && ToJson(h, seen, v).Some?
    ensures Sanitize(h, seen, v) == ToJson(h, seen, v)
    decreases |h.Keys - seen|
  {
    if v.Object? {
      hide ToJson, AllToJson, SanitizeItems, SanitizeFields;
      var r := v.ref;
      var vs := h[r].Children();
      ObjectConverts(h, seen, r);
      AllToJsonAt(h, seen + {r}, vs);
      var ts := AllToJson(h, seen + {r}, vs).value;
      forall i | 0 <= i < |vs| ensures Sanitize(h, seen + {r}, vs[i]) == Some(ts[i]) {
        SanitizeAgrees(h, seen + {r}, vs[i]);
      }
      if h[r].List? { ItemsAgree(h, seen + {r}, vs, ts); } else { FieldsAgree(h, seen + {r}, h[r].keys, vs, ts); }
    }
  }

  // ---- What the lossy conversion returns ---------------------------------------------------------------------------

  /** What has no image at all. */
  predicate Vanishes(v: Value) { v.Undefined? || v.Callable? }

  /** The positions of the values that have an image, in order. */
  function Kept(vs: seq<Value>): (ks: seq<nat>)
    ensures |ks| <= |vs|
    ensures forall j :: 0 <= j < |ks| ==> ks[j] < |vs| && !Vanishes(vs[ks[j]])
    ensures forall i, j :: 0 <= i < j < |ks| ==> ks[i] < ks[j]
    ensures forall i :: 0 <= i < |vs| && !Vanishes(vs[i]) ==> i in ks
  {
    if vs == [] then []
    else
      var n := |vs| - 1;
      assert forall i :: 0 <= i < n ==> vs[..n][i] == vs[i];
      Kept(vs[..n]) + if Vanishes(vs[n]) then [] else [n]
  }

  /** The tree a value is sanitized to, above which these objects have been gone through: texts take the place of
      numbers JSON has not got, of big integers and of an object that has been gone through already; what
      vanishes becomes null in an array, and is left out of an object. */
  ghost predicate Image(h: Heap, above: set<Ref>, v: Value, t: Json)
    decreases t
  {
    match t
    case JNull => v == Null
    case JBool(b) => v == Bool(b)
    case JNumber(value) => v == Num(Finite(value))
    case JText(s) =>
      v == Text(s) || v == BigInt(s) || v == Num(NonFinite(s)) || (v.Object? && v.ref in above && s == CIRCULAR)
    case JArray(items) =>
      && v.Object? && v.ref in h && v.ref !in above && h[v.ref].List? && |items| == |h[v.ref].items|
      && forall i :: 0 <= i < |items| ==>
           if Vanishes(h[v.ref].items[i]) then items[i] == JNull else Image(h, above + {v.ref}, h[v.ref].items[i], items[i])
    case JObject(keys, values) =>
      && v.Object? && v.ref in h && v.ref !in above && h[v.ref].Record? && |h[v.ref].keys| == |h[v.ref].values|
      && var kept := Kept(h[v.ref].values);
         && |keys| == |values| == |kept|
         && forall j :: 0 <= j < |kept| ==>
              keys[j] == h[v.ref].keys[kept[j]] && Image(h, above + {v.ref}, h[v.ref].values[kept[j]], values[j])
  }

  lemma SanitizeVanishes(h: Heap, seen: set<Ref>, v: Value)
    requires Closed(h) && Known(h, v)
    ensures Sanitize(h, seen, v) == None <==> Vanishes(v)
  {
  }

  lemma {:induction false} ItemsAre(h: Heap, seen: set<Ref>, vs: seq<Value>, i: nat)
    requires Closed(h) && forall i :: 0 <= i < |vs| ==> Known(h, vs[i])
    requires i < |vs|
    ensures SanitizeItems(h, seen, vs)[i] == if Vanishes(vs[i]) then JNull else Sanitize(h, seen, vs[i]).value
    decreases |vs|
  {
    SanitizeVanishes(h, seen, vs[i]);
    hide Sanitize;
    if i < |vs| - 1 { ItemsAre(h, seen, vs[..|vs| - 1], i); }
  }

  lemma {:induction false} FieldsAre(h: Heap, seen: set<Ref>, keys: seq<string>, vs: seq<Value>, j: nat)
    requires Closed(h) && |keys| == |vs| && forall i :: 0 <= i < |vs| ==> Known(h, vs[i])
    ensures |SanitizeFields(h, seen, keys, vs).0| == |Kept(vs)|
    ensures j < |Kept(vs)| ==> SanitizeFields(h, seen, keys, vs).0[j] == keys[Kept(vs)[j]]
    ensures j < |Kept(vs)| ==> Sanitize(h, seen, vs[Kept(vs)[j]]) == Some(SanitizeFields(h, seen, keys, vs).1[j])
    decreases |vs|
  {
    if vs != [] {
      var n := |vs| - 1;
      FieldsAre(h, seen, keys[..n], vs[..n], j);
      SanitizeVanishes(h, seen, vs[n]);
      KeptAndLast(vs);
      hide Sanitize, Closed, Kept;
      var before := SanitizeFields(h, seen, keys[..n], vs[..n]);
      if j < |Kept(vs[..n])| {
        var k := Kept(vs[..n])[j];
        assert k < n && keys[..n][k] == keys[k] && vs[..n][k] == vs[k];
      }
    }
  }

  lemma KeptAndLast(vs: seq<Value>)
    requires vs != []
    ensures var n := |vs| - 1; Kept(vs) == Kept(vs[..n]) + if Vanishes(vs[n]) then [] else [n]
  {
  }

  lemma LeafImage(h: Heap, seen: set<Ref>, v: Value)
    requires Closed(h) && Known(h, v) && (!v.Object? || v.ref in seen) && !Vanishes(v)
    ensures Sanitize(h, seen, v).Some? && Image(h, seen, v, Sanitize(h, seen, v).value)
  {
  }

  lemma {:induction false} SanitizedIsImage(h: Heap, seen: set<Ref>, v: Value)
    requires Closed(h) && Known(h, v) && !Vanishes(v)
    ensures Sanitize(h, seen, v).Some? && Image(h, seen, v, Sanitize(h, seen, v).value)
    decreases |h.Keys - seen|
  {
    if !v.Object? || v.ref in seen {
      LeafImage(h, seen, v);
    } else {
      hide SanitizeItems, SanitizeFields, Image;
      var r := v.ref;
      var vs := h[r].Children();
      assert h.Keys - (seen + {r}) == (h.Keys - seen) - {r};
      forall i | 0 <= i < |vs| && !Vanishes(vs[i])
        ensures Sanitize(h, seen + {r}, vs[i]).Some? && Image(h, seen + {r}, vs[i], Sanitize(h, seen + {r}, vs[i]).value)
      {
        SanitizedIsImage(h, seen + {r}, vs[i]);
      }
      if h[r].List? {
        forall i | 0 <= i < |vs|
          ensures SanitizeItems(h, seen + {r}, vs)[i] == if Vanishes(vs[i]) then JNull else Sanitize(h, seen + {r}, vs[i]).value
        {
          ItemsAre(h, seen + {r}, vs, i);
        }
        ArrayImage(h, seen, r, SanitizeItems(h, seen + {r}, vs));
      } else {
        FieldsAre(h, seen + {r}, h[r].keys, vs, 0);
        forall j | 0 <= j < |Kept(vs)|
          ensures var (ks, ts) := SanitizeFields(h, seen + {r}, h[r].keys, vs);
                  ks[j] == h[r].keys[Kept(vs)[j]] && Sanitize(h, seen + {r}, vs[Kept(vs)[j]]) == Some(ts[j])
        {
          FieldsAre(h, seen + {r}, h[r].keys, vs, j);
        }
        var (ks, ts) := SanitizeFields(h, seen + {r}, h[r].keys, vs);
        ObjectImage(h, seen, r, ks, ts);
      }
    }
  }

  lemma ArrayImage(h: Heap, above: set<Ref>, r: Ref, items: seq<Json>)
    requires r in h && r !in above && h[r].List? && |items| == |h[r].items|
    requires forall i :: 0 <= i < |items| ==>
               if Vanishes(h[r].items[i]) then items[i] == JNull else Image(h, above + {r}, h[r].items[i], items[i])
    ensures Image(h, above, Object(r), JArray(items))
  {
  }

  lemma ObjectImage(h: Heap, above: set<Ref>, r: Ref, keys: seq<string>, values: seq<Json>)
    requires r in h && r !in above && h[r].Record? && |h[r].keys| == |h[r].values|
    requires |keys| == |values| == |Kept(h[r].values)|
    requires forall j :: 0 <= j < |keys| ==>
               var k := Kept(h[r].values)[j]; keys[j] == h[r].keys[k] && Image(h, above + {r}, h[r].values[k], values[j])
    ensures Image(h, above, Object(r), JObject(keys, values))
  {
  }

  lemma {:induction false} ImageIsUnique(h: Heap, above: set<Ref>, v: Value, t: Json, u: Json)
    requires Image(h, above, v, t) && Image(h, above, v, u)
    ensures t == u && !Vanishes(v)
    decreases t
  {
    match t
    case JArray(items) =>
      forall i | 0 <= i < |items| ensures items[i] == u.items[i] {
        if !Vanishes(h[v.ref].items[i]) { ImageIsUnique(h, above + {v.ref}, h[v.ref].items[i], items[i], u.items[i]); }
      }
    case JObject(keys, values) =>
      var kept := Kept(h[v.ref].values);
      forall j | 0 <= j < |kept| ensures keys[j] == u.keys[j] && values[j] == u.values[j] {
        ImageIsUnique(h, above + {v.ref}, h[v.ref].values[kept[j]], values[j], u.values[j]);
      }
    case _ =>
  }

  /** The lossy conversion succeeds on everything but what vanishes, and what it returns is exactly that image. */
  lemma SanitizeIffImage(h: Heap, seen: set<Ref>, v: Value, t: Json)
    requires Closed(h) && Known(h, v)
    ensures Sanitize(h, seen, v) == Some(t) <==> Image(h, seen, v, t)
    ensures Sanitize(h, seen, v) == None <==> Vanishes(v)
  {
    hide Sanitize, Image;
    if Vanishes(v) {
      SanitizeVanishes(h, seen, v);
      if Image(h, seen, v, t) { ImageIsUnique(h, seen, v, t, t); }
    } else {
      SanitizedIsImage(h, seen, v);
      if Image(h, seen, v, t) { ImageIsUnique(h, seen, v, t, Sanitize(h, seen, v).value); }
    }
  }

  // ---- The traversals -----------------------------------------------------------------------------------------------

  /** None is an exception; the set of objects gone through is restored either way. */
  method ToProtocolJsonValue(h: Heap, v: Value, seen: ObjectSet) returns (r: Option<Json>)
    requires Closed(h) && Known(h, v)
    modifies seen
    ensures r == ToJson(h, old(seen.elements), v) && seen.elements == old(seen.elements)
    decreases |h.Keys - seen.elements|, 0
  {
    match v
    case Null => r := Some(JNull);
    case Text(s) => r := Some(JText(s));
    case Bool(b) => r := Some(JBool(b));
    case Num(n) => r := if n.Finite? then Some(JNumber(n.value)) else None;
    case Object(ref) =>
      if ref in seen.elements { return None; }
      var node := h[ref];
      if node.Record? && node.prototype == OtherPrototype { return None; }
      ghost var outer := seen.elements;
      assert h.Keys - (outer + {ref}) == (h.Keys - outer) - {ref};
      seen.elements := seen.elements + {ref};
      var children := ConvertAll(h, node.Children(), seen);
      seen.elements := seen.elements - {ref};
      if children.Some? {
        r := Some(if node.List? then JArray(children.value) else JObject(node.keys, children.value));
      } else {
        r := None;
      }
    case _ => r := None;
  }

  lemma ConvertOneMore(h: Heap, seen: set<Ref>, vs: seq<Value>, k: nat)
    requires Closed(h) && k < |vs| && forall i :: 0 <= i < |vs| ==> Known(h, vs[i])
    ensures ToJson(h, seen, vs[k]) == None ==> AllToJson(h, seen, vs) == None
    ensures ToJson(h, seen, vs[k]).Some? && AllToJson(h, seen, vs[..k]).Some? ==>
              AllToJson(h, seen, vs[..k + 1]) == Some(AllToJson(h, seen, vs[..k]).value + [ToJson(h, seen, vs[k]).value])
  {
    AllToJsonAt(h, seen, vs);
    assert vs[..k + 1][..k] == vs[..k];
  }

  method ConvertAll(h: Heap, vs: seq<Value>, seen: ObjectSet) returns (r: Option<seq<Json>>)
    requires Closed(h) && forall i :: 0 <= i < |vs| ==> Known(h, vs[i])
    modifies seen
    ensures r == AllToJson(h, old(seen.elements), vs) && seen.elements == old(seen.elements)
    decreases |h.Keys - seen.elements|, 1
  {
    var converted := [];
    assert AllToJson(h, seen.elements, vs[..0]) == Some(converted);
    hide ToJson, AllToJson;
    for k := 0 to |vs|
      invariant AllToJson(h, old(seen.elements), vs[..k]) == Some(converted) && seen.elements == old(seen.elements)
    {
      ConvertOneMore(h, seen.elements, vs, k);
      var last := ToProtocolJsonValue(h, vs[k], seen);
      if last == None { return None; }
      converted := converted + [last.value];
    }
    assert vs[..|vs|] == vs;
    r := Some(converted);
  }

  method SanitizeProtocolDetails(h: Heap, v: Value, seen: ObjectSet) returns (r: Option<Json>)
    requires Closed(h) && Known(h, v)
    modifies seen
    ensures r == Sanitize(h, old(seen.elements), v) && seen.elements == old(seen.elements)
    decreases |h.Keys - seen.elements|, 0
  {
    match v
    case Null => r := Some(JNull);
    case Text(s) => r := Some(JText(s));
    case Bool(b) => r := Some(JBool(b));
    case Num(n) => r := Some(if n.Finite? then JNumber(n.value) else JText(n.text));
    case BigInt(i) => r := Some(JText(i));
    case Undefined => r := None;
    case Callable => r := None;
    case Object(ref) =>
      if ref in seen.elements { return Some(JText(CIRCULAR)); }
      var node := h[ref];
      ghost var outer := seen.elements;
      assert h.Keys - (outer + {ref}) == (h.Keys - outer) - {ref};
      seen.elements := seen.elements + {ref};
      if node.List? {
        var items := SanitizeEntries(h, node.Children(), seen);
        r := Some(JArray(items));
      } else {
        var keys, values := SanitizeProperties(h, node.keys, node.Children(), seen);
        r := Some(JObject(keys, values));
      }
      seen.elements := seen.elements - {ref};
  }

  method SanitizeEntries(h: Heap, vs: seq<Value>, seen: ObjectSet) returns (items: seq<Json>)
    requires Closed(h) && forall i :: 0 <= i < |vs| ==> Known(h, vs[i])
    modifies seen
    ensures items == SanitizeItems(h, old(seen.elements), vs) && seen.elements == old(seen.elements)
    decreases |h.Keys - seen.elements|, 1
  {
    items := [];
    hide Sanitize;
    for k := 0 to |vs|
      invariant items == SanitizeItems(h, old(seen.elements), vs[..k]) && seen.elements == old(seen.elements)
    {
      assert vs[..k + 1][..k] == vs[..k];
      var entry := SanitizeProtocolDetails(h, vs[k], seen);
      items := items + [if entry.Some? then entry.value else JNull];
    }
    assert vs[..|vs|] == vs;
  }

  method SanitizeProperties(h: Heap, keys: seq<string>, vs: seq<Value>, seen: ObjectSet)
    returns (ks: seq<string>, ts: seq<Json>)
    requires Closed(h) && |keys| == |vs| && forall i :: 0 <= i < |vs| ==> Known(h, vs[i])
    modifies seen
    ensures (ks, ts) == SanitizeFields(h, old(seen.elements), keys, vs) && seen.elements == old(seen.elements)
    decreases |h.Keys - seen.elements|, 1
  {
    ks, ts := [], [];
    assert (ks, ts) == SanitizeFields(h, seen.elements, keys[..0], vs[..0]);
    hide Sanitize, SanitizeFields, Closed;
    for k := 0 to |vs|
      invariant (ks, ts) == SanitizeFields(h, old(seen.elements), keys[..k], vs[..k]) && seen.elements == old(seen.elements)
    {
      SanitizeOneMore(h, seen.elements, keys, vs, k);
      var normalized := SanitizeProtocolDetails(h, vs[k], seen);
      if normalized.Some? { ks, ts := ks + [keys[k]], ts + [normalized.value]; }
    }
    assert vs[..|vs|] == vs && keys[..|vs|] == keys;
  }

  lemma SanitizeOneMore(h: Heap, seen: set<Ref>, keys: seq<string>, vs: seq<Value>, k: nat)
    requires Closed(h) && |keys| == |vs| && k < |vs| && forall i :: 0 <= i < |vs| ==> Known(h, vs[i])
    ensures var (ks, ts) := SanitizeFields(h, seen, keys[..k], vs[..k]);
            var last := Sanitize(h, seen, vs[k]);
            SanitizeFields(h, seen, keys[..k + 1], vs[..k + 1])
            == if last.Some? then (ks + [keys[k]], ts + [last.value]) else (ks, ts)
  {
    hide Sanitize;
    assert vs[..k + 1][..k] == vs[..k] && keys[..k + 1][..k] == keys[..k];
  }

  // ---- Results ------------------------------------------------------------------------------------------------------

  /** A value in some heap that a traversal may have returned: it unfolds to t, and all its objects are
      arrays or plain objects. */
  ghost predicate Represents(h: Heap, v: Value, t: Json) {
    Unfolds(h, v, t) && forall path, w, property :: Leads(h, v, false, path, w, property) ==> !Exotic(h, w)
  }

  ghost predicate Exotic(h: Heap, w: Value) {
    w.Object? && w.ref in h && h[w.ref].Record? && h[w.ref].prototype != ObjectPrototype
  }

  lemma {:induction false} ConvertedIsAccepted(h: Heap, seen: set<Ref>, v: Value, optional: bool)
    requires Closed(h) && Known(h, v) && ToJson(h, seen, v).Some?
    requires forall path, w, property :: Leads(h, v, optional, path, w, property) ==> !Exotic(h, w)
    ensures Accepts(h, seen, v, optional)
    decreases |h.Keys - seen|
  {
    if v.Object? {
      var r := v.ref;
      var vs := h[r].Children();
      assert h.Keys - (seen + {r}) == (h.Keys - seen) - {r};
      AllToJsonAt(h, seen + {r}, vs);
      assert Leads(h, v, optional, [], v, optional);
      forall i | 0 <= i < |vs| ensures Accepts(h, seen + {r}, vs[i], h[r].Record?) {
        forall path, w, property | Leads(h, vs[i], h[r].Record?, path, w, property) ensures !Exotic(h, w) {
          LeadsFromParent(h, r, i, optional, path, w, property);
        }
        ConvertedIsAccepted(h, seen + {r}, vs[i], h[r].Record?);
      }
    }
  }

  /** Every value that represents a tree is accepted as a protocol value, is converted to that tree, and is
      left as it is when sanitized. */
  lemma RepresentationsAreStable(h: Heap, v: Value, t: Json)
    requires Closed(h) && Known(h, v) && Represents(h, v, t)
    ensures Accepts(h, {}, v, false) && ToJson(h, {}, v) == Some(t) && Sanitize(h, {}, v) == Some(t)
  {
    ToJsonIffUnfolds(h, v, t);
    ConvertedIsAccepted(h, {}, v, false);
    SanitizeAgrees(h, {}, v);
  }

  /** A tree in which every object has one value per key. */
  predicate Proper(t: Json) {
    match t
    case JArray(items) => forall i :: 0 <= i < |items| ==> Proper(items[i])
    case JObject(keys, values) => |keys| == |values| && forall i :: 0 <= i < |values| ==> Proper(values[i])
    case _ => true
  }

  // The objects a traversal makes for a tree: one for each array and object in it.

  /** Allocates objects from `free` on; returns them, the value, and the next free reference. */
  function Build(t: Json, free: Ref): (Heap, Value, Ref)
    decreases t, 0
  {
    match t
    case JNull => (map[], Null, free)
    case JBool(b) => (map[], Bool(b), free)
    case JNumber(value) => (map[], Num(Finite(value)), free)
    case JText(s) => (map[], Text(s), free)
    case JArray(items) =>
      var (h, vs, r) := BuildAll(items, free);
      (h[r := List(vs)], Object(r), r + 1)
    case JObject(keys, values) =>
      var (h, vs, r) := BuildAll(values, free);
      (h[r := Record(ObjectPrototype, keys, vs)], Object(r), r + 1)
  }

  function BuildAll(ts: seq<Json>, free: Ref): (r: (Heap, seq<Value>, Ref))
    ensures |r.1| == |ts|
    decreases ts, 1, |ts|
  {
    if ts == [] then (map[], [], free)
    else
      var (h, vs, next) := BuildAll(ts[..|ts| - 1], free);
      var (g, v, last) := Build(ts[|ts| - 1], next);
      (h + g, vs + [v], last)
  }

  /** A heap of arrays and plain objects, all between two references. */
  ghost predicate Fresh(h: Heap, free: Ref, next: Ref) {
    && Closed(h) && free <= next
    && forall r :: r in h ==> free <= r < next && (h[r].Record? ==> h[r].prototype == ObjectPrototype)
  }

  ghost predicate Extends(h: Heap, g: Heap) { forall r :: r in h ==> r in g && g[r] == h[r] }

  ghost predicate AllKnown(h: Heap, vs: seq<Value>) { forall i :: 0 <= i < |vs| ==> Known(h, vs[i]) }

  lemma {:induction false} UnfoldsInLarger(h: Heap, g: Heap, v: Value, t: Json)
    requires Extends(h, g) && Unfolds(h, v, t)
    ensures Unfolds(g, v, t)
    decreases t
  {
    match t
    case JArray(items) => AllUnfoldInLarger(h, g, h[v.ref].items, items);
    case JObject(_, values) => AllUnfoldInLarger(h, g, h[v.ref].values, values);
    case _ =>
  }

  lemma {:induction false} AllUnfoldInLarger(h: Heap, g: Heap, vs: seq<Value>, ts: seq<Json>)
    requires Extends(h, g) && AllUnfold(h, vs, ts)
    ensures AllUnfold(g, vs, ts)
    decreases ts
  {
    forall i | 0 <= i < |ts| ensures Unfolds(g, vs[i], ts[i]) {
      UnfoldsInLarger(h, g, vs[i], ts[i]);
    }
  }

  lemma FreshJoins(h: Heap, g: Heap, free: Ref, next: Ref, last: Ref)
    requires Fresh(h, free, next) && Fresh(g, next, last)
    ensures Fresh(h + g, free, last) && Extends(h, h + g) && Extends(g, h + g)
  {
  }

  lemma FreshGrows(h: Heap, free: Ref, r: Ref, node: Node)
    requires Fresh(h, free, r) && AllKnown(h, node.Children())
    requires node.Record? ==> node.prototype == ObjectPrototype && |node.keys| == |node.values|
    ensures Fresh(h[r := node], free, r + 1) && Extends(h, h[r := node])
  {
    assert node.Children() == if node.List? then node.items else node.values;
  }

  lemma {:induction false} BuildUnfolds(t: Json, free: Ref)
    requires Proper(t)
    ensures var (h, v, next) := Build(t, free); Fresh(h, free, next) && Known(h, v) && Unfolds(h, v, t)
    decreases t, 0
  {
    match t
    case JArray(items) =>
      BuildAllUnfolds(items, free);
      var (h, vs, r) := BuildAll(items, free);
      FreshGrows(h, free, r, List(vs));
      AllUnfoldInLarger(h, h[r := List(vs)], vs, items);
    case JObject(keys, values) =>
      BuildAllUnfolds(values, free);
      var (h, vs, r) := BuildAll(values, free);
      FreshGrows(h, free, r, Record(ObjectPrototype, keys, vs));
      AllUnfoldInLarger(h, h[r := Record(ObjectPrototype, keys, vs)], vs, values);
    case _ =>
  }

  lemma {:induction false} BuildAllUnfolds(ts: seq<Json>, free: Ref)
    requires forall i :: 0 <= i < |ts| ==> Proper(ts[i])
    ensures var (h, vs, next) := BuildAll(ts, free); Fresh(h, free, next) && AllKnown(h, vs) && AllUnfold(h, vs, ts)
    decreases ts, 1, |ts|
  {
    if ts != [] {
      var n := |ts| - 1;
      BuildAllUnfolds(ts[..n], free);
      var (h, vs, next) := BuildAll(ts[..n], free);
      BuildUnfolds(ts[n], next);
      var (g, v, last) := Build(ts[n], next);
      FreshJoins(h, g, free, next, last);
      AllUnfoldInLarger(h, h + g, vs, ts[..n]);
      UnfoldsInLarger(g, h + g, v, ts[n]);
    }
  }

  /** The tree that a traversal returns, as a heap value. */
  lemma TreeIsRepresented(t: Json)
    requires Proper(t)
    ensures var (h, v, _) := Build(t, 0); Closed(h) && Known(h, v) && Represents(h, v, t)
  {
    BuildUnfolds(t, 0);
  }

  lemma {:induction false} ConvertedIsProper(h: Heap, seen: set<Ref>, v: Value)
    requires Closed(h) && Known(h, v) && ToJson(h, seen, v).Some?
    ensures Proper(ToJson(h, seen, v).value)
    decreases |h.Keys - seen|
  {
    if v.Object? {
      assert h[v.ref].Record? ==> |h[v.ref].keys| == |h[v.ref].Children()|;
      hide ToJson, AllToJson, Proper, Closed;
      var r := v.ref;
      var vs := h[r].Children();
      ObjectConverts(h, seen, r);
      AllToJsonAt(h, seen + {r}, vs);
      var ts := AllToJson(h, seen + {r}, vs).value;
      forall i | 0 <= i < |vs| ensures Proper(ts[i]) {
        ConvertedIsProper(h, seen + {r}, vs[i]);
      }
      if h[r].List? { ProperArray(ts); } else { ProperObject(h[r].keys, ts); }
    }
  }

  ghost predicate AllProper(ts: seq<Json>) { forall i :: 0 <= i < |ts| ==> Proper(ts[i]) }

  lemma ProperArray(items: seq<Json>)
    requires AllProper(items)
    ensures Proper(JArray(items))
  {
  }

  lemma ProperObject(keys: seq<string>, values: seq<Json>)
    requires AllProper(values) && |keys| == |values|
    ensures Proper(JObject(keys, values))
  {
  }

  lemma {:induction false} SanitizedIsProper(h: Heap, seen: set<Ref>, v: Value)
    requires Closed(h) && Known(h, v) && Sanitize(h, seen, v).Some?
    ensures Proper(Sanitize(h, seen, v).value)
    decreases |h.Keys - seen|, 0
  {
    if v.Object? && v.ref !in seen {
      hide SanitizeItems, SanitizeFields, Proper, AllProper;
      var r := v.ref;
      var inside := seen + {r};
      assert h.Keys - inside == (h.Keys - seen) - {r};
      if h[r].List? {
        ItemsAreProper(h, inside, h[r].Children());
        assert Sanitize(h, seen, v) == Some(JArray(SanitizeItems(h, inside, h[r].Children())));
        ProperArray(SanitizeItems(h, inside, h[r].Children()));
      } else {
        FieldsAreProper(h, inside, h[r].keys, h[r].Children());
        var (keys, values) := SanitizeFields(h, inside, h[r].keys, h[r].Children());
        assert Sanitize(h, seen, v) == Some(JObject(keys, values));
        ProperObject(keys, values);
      }
    }
  }

  lemma {:induction false} ItemsAreProper(h: Heap, seen: set<Ref>, vs: seq<Value>)
    requires Closed(h) && forall i :: 0 <= i < |vs| ==> Known(h, vs[i])
    ensures AllProper(SanitizeItems(h, seen, vs))
    decreases |h.Keys - seen|, 1, |vs|
  {
    hide Sanitize;
    if vs != [] {
      var n := |vs| - 1;
      ItemsAreProper(h, seen, vs[..n]);
      if Sanitize(h, seen, vs[n]).Some? { SanitizedIsProper(h, seen, vs[n]); }
    }
  }

  lemma {:induction false} FieldsAreProper(h: Heap, seen: set<Ref>, keys: seq<string>, vs: seq<Value>)
    requires Closed(h) && |keys| == |vs| && forall i :: 0 <= i < |vs| ==> Known(h, vs[i])
    ensures AllProper(SanitizeFields(h, seen, keys, vs).1)
    decreases |h.Keys - seen|, 1, |vs|
  {
    hide Sanitize;
    if vs != [] {
      var n := |vs| - 1;
      FieldsAreProper(h, seen, keys[..n], vs[..n]);
      if Sanitize(h, seen, vs[n]).Some? { SanitizedIsProper(h, seen, vs[n]); }
      SanitizeOneMore(h, seen, keys, vs, n);
      assert vs[..n + 1] == vs && keys[..n + 1] == keys;
    }
  }

  /** Whatever either traversal returns exists as a heap value, and every such value is accepted as a
      protocol value, is converted to itself, and is left as it is when sanitized again. */
  lemma ResultsAreStable(h: Heap, v: Value, t: Json)
    requires Closed(h) && Known(h, v) && (ToJson(h, {}, v) == Some(t) || Sanitize(h, {}, v) == Some(t))
    ensures var (g, w, _) := Build(t, 0); Closed(g) && Known(g, w) && Represents(g, w, t)
    ensures forall g, w | Closed(g) && Known(g, w) && Represents(g, w, t) ::
              Accepts(g, {}, w, false) && ToJson(g, {}, w) == Some(t) && Sanitize(g, {}, w) == Some(t)
  {
    hide *;
    if ToJson(h, {}, v) == Some(t) { ConvertedIsProper(h, {}, v); } else { SanitizedIsProper(h, {}, v); }
    TreeIsRepresented(t);
    forall g, w | Closed(g) && Known(g, w) && Represents(g, w, t)
      ensures Accepts(g, {}, w, false) && ToJson(g, {}, w) == Some(t) && Sanitize(g, {}, w) == Some(t)
    {
      RepresentationsAreStable(g, w, t);
    }
  }
}
