/** packages/evals/src/selection.ts: the round-robin order of the case pool, and the slice of it that a run
    takes. Ids and categories are represented by their rank in the collation order. */
module Rotation {

  datatype Case = Case(id: nat, category: nat)

  // ---- Sorting by id ---------------------------------------------------------------------------------

  ghost predicate Sorted(s: seq<Case>) { forall i, j :: 0 <= i < j < |s| ==> s[i].id <= s[j].id }

  ghost predicate UniqueIds(s: seq<Case>) { forall i, j :: 0 <= i < j < |s| ==> s[i].id != s[j].id }

  /** Puts a case before the first one that is not smaller. */
  function Insert(x: Case, s: seq<Case>): seq<Case> {
    if s == [] || x.id <= s[0].id then [x] + s else [s[0]] + Insert(x, s[1..])
  }

  /** The stable sort of the source. */
  function SortById(s: seq<Case>): seq<Case> {
    if s == [] then [] else Insert(s[0], SortById(s[1..]))
  }

  lemma {:induction false} InsertPermutes(x: Case, s: seq<Case>)
    ensures multiset(Insert(x, s)) == multiset(s) + multiset{x}
    ensures forall y :: y in Insert(x, s) ==> y == x || y in s
  {
    if s != [] && x.id > s[0].id {
      InsertPermutes(x, s[1..]);
      assert s == [s[0]] + s[1..];
    }
  }

  lemma {:induction false} InsertSorts(x: Case, s: seq<Case>)
    requires Sorted(s)
    ensures Sorted(Insert(x, s))
  {
    if s != [] && x.id > s[0].id {
      InsertSorts(x, s[1..]);
      InsertPermutes(x, s[1..]);
      var rest := Insert(x, s[1..]);
      forall k | 0 <= k < |rest| ensures s[0].id <= rest[k].id {
        assert rest[k] == x || rest[k] in s[1..];
      }
    }
  }

  lemma {:induction false} SortSorts(s: seq<Case>)
    ensures Sorted(SortById(s)) && multiset(SortById(s)) == multiset(s)
  {
    if s != [] {
      assert s == [s[0]] + s[1..];
      SortSorts(s[1..]);
      InsertSorts(s[0], SortById(s[1..]));
      InsertPermutes(s[0], SortById(s[1..]));
    }
  }

  lemma {:induction false} InsertUnique(x: Case, s: seq<Case>)
    requires UniqueIds(s) && forall k :: 0 <= k < |s| ==> s[k].id != x.id
    ensures UniqueIds(Insert(x, s))
  {
    if s != [] && x.id > s[0].id {
      InsertUnique(x, s[1..]);
      InsertPermutes(x, s[1..]);
      var rest := Insert(x, s[1..]);
      forall k | 0 <= k < |rest| ensures rest[k].id != s[0].id {
        assert rest[k] == x || rest[k] in s[1..];
      }
    }
  }

  lemma {:induction false} SortUnique(s: seq<Case>)
    requires UniqueIds(s)
    ensures UniqueIds(SortById(s))
  {
    if s != [] {
      var rest := SortById(s[1..]);
      SortUnique(s[1..]);
      SortSorts(s[1..]);
      forall k | 0 <= k < |rest| ensures rest[k].id != s[0].id {
        assert rest[k] in multiset(s[1..]);
        assert rest[k] in s[1..];
      }
      InsertUnique(s[0], rest);
    }
  }

  lemma TailMultiset(s: seq<Case>)
    requires s != []
    ensures multiset(s[1..]) == multiset(s) - multiset{s[0]}
  {
    assert s == [s[0]] + s[1..];
  }

  lemma TailSorted(s: seq<Case>)
    requires s != [] && Sorted(s)
    ensures Sorted(s[1..]) && (UniqueIds(s) ==> UniqueIds(s[1..]))
  {
  }

  lemma SameFirst(a: seq<Case>, b: seq<Case>)
    requires Sorted(a) && Sorted(b) && UniqueIds(a) && multiset(a) == multiset(b) && a != [] && b != []
    ensures a[0] == b[0]
  {
    assert a[0] in multiset(b) && b[0] in multiset(a);
    var i :| 0 <= i < |b| && b[i] == a[0];
    var k :| 0 <= k < |a| && a[k] == b[0];
  }

  /** There is only one way to sort cases with unique ids. */
  lemma {:induction false} SortedIsUnique(a: seq<Case>, b: seq<Case>)
    requires Sorted(a) && Sorted(b) && UniqueIds(a) && multiset(a) == multiset(b)
    ensures a == b
  {
    hide Sorted, UniqueIds;
    assert |a| == |b| by { assert |multiset(a)| == |multiset(b)|; }
    if a != [] {
      SameFirst(a, b);
      TailMultiset(a);
      TailMultiset(b);
      TailSorted(a);
      TailSorted(b);
      SortedIsUnique(a[1..], b[1..]);
      assert a == [a[0]] + a[1..] && b == [b[0]] + b[1..];
    }
  }

  // ---- Grouping -----------------------------------------------------------------------------------------

  function OfCategory(s: seq<Case>, c: nat): (r: seq<Case>)
    ensures forall i :: 0 <= i < |r| ==> r[i].category == c && r[i] in s
  {
    if s == [] then []
    else OfCategory(s[..|s| - 1], c) + (if s[|s| - 1].category == c then [s[|s| - 1]] else [])
  }

  function Categories(s: seq<Case>): set<nat> { set x | x in s :: x.category }

  predicate Least(x: nat, s: set<nat>) { x in s && forall y :: y in s ==> x <= y }

  lemma {:induction false} LeastExists(s: set<nat>)
    requires s != {}
    ensures exists x :: Least(x, s)
    decreases |s|
  {
    var x :| x in s;
    var rest := s - {x};
    if rest == {} {
      assert s == {x};
      assert Least(x, s);
    } else {
      LeastExists(rest);
      var y :| Least(y, rest);
      assert forall z :: z in s ==> z == x || z in rest;
      assert Least(if x <= y then x else y, s);
    }
  }

  ghost predicate Increasing(s: seq<nat>) { forall i, j :: 0 <= i < j < |s| ==> s[i] < s[j] }

  /** The elements of a set in increasing order. */
  function InOrder(s: set<nat>): (r: seq<nat>)
    ensures Increasing(r) && (forall x :: x in r <==> x in s)
  {
    if s == {} then []
    else
      LeastExists(s);
      var x :| Least(x, s);
      [x] + InOrder(s - {x})
  }

  // ---- Taking turns ---------------------------------------------------------------------------------------

  /** The order after the given number of rounds and the first j lists of the next one. */
  function Turns(lists: seq<seq<Case>>, round: nat, j: nat): seq<Case>
    requires j <= |lists|
    decreases round, j
  {
    if j > 0 then Turns(lists, round, j - 1) + (if round < |lists[j - 1]| then [lists[j - 1][round]] else [])
    else if round > 0 then Turns(lists, round - 1, |lists|)
    else []
  }

  /** How many of list i have had their turn. */
  function Taken(lists: seq<seq<Case>>, round: nat, j: nat, i: nat): nat
    requires i < |lists|
  {
    var rounds := if i < j then round + 1 else round;
    if rounds < |lists[i]| then rounds else |lists[i]|
  }

  function Count(s: seq<Case>, c: nat): nat {
    if s == [] then 0 else Count(s[..|s| - 1], c) + if s[|s| - 1].category == c then 1 else 0
  }

  lemma CountAppend(s: seq<Case>, x: Case, c: nat)
    ensures Count(s + [x], c) == Count(s, c) + if x.category == c then 1 else 0
  {
    assert (s + [x])[..|s|] == s;
  }

  /** Each list holds the cases of its category. */
  ghost predicate Grouped(lists: seq<seq<Case>>, cats: seq<nat>) {
    && |lists| == |cats| && Increasing(cats)
    && forall i, k :: 0 <= i < |lists| && 0 <= k < |lists[i]| ==> lists[i][k].category == cats[i]
  }

  lemma {:induction false} TurnsCount(lists: seq<seq<Case>>, cats: seq<nat>, round: nat, j: nat, i: nat)
    requires Grouped(lists, cats) && j <= |lists| && i < |lists|
    ensures Count(Turns(lists, round, j), cats[i]) == Taken(lists, round, j, i)
    decreases round, j
  {
    if j > 0 {
      TurnsCount(lists, cats, round, j - 1, i);
      if round < |lists[j - 1]| {
        CountAppend(Turns(lists, round, j - 1), lists[j - 1][round], cats[i]);
        assert lists[j - 1][round].category == cats[j - 1];
        assert cats[i] == cats[j - 1] <==> i == j - 1;
      } else {
        assert Turns(lists, round, j) == Turns(lists, round, j - 1);
      }
    } else if round > 0 {
      TurnsCount(lists, cats, round - 1, |lists|, i);
    }
  }

  /** No category is ahead of another by more than one, unless the other one is used up. */
  ghost predicate Fair(s: seq<Case>, lists: seq<seq<Case>>, cats: seq<nat>)
    requires |lists| == |cats|
  {
    forall a, b :: 0 <= a < |cats| && 0 <= b < |cats| && Count(s, cats[b]) < |lists[b]| ==>
      Count(s, cats[a]) <= Count(s, cats[b]) + 1
  }

  lemma {:induction false} TurnsAreFair(lists: seq<seq<Case>>, cats: seq<nat>, round: nat, j: nat, m: nat)
    requires Grouped(lists, cats) && j <= |lists| && m <= |Turns(lists, round, j)|
    ensures Fair(Turns(lists, round, j)[..m], lists, cats)
    decreases round, j
  {
    var s := Turns(lists, round, j);
    if m == |s| {
      assert s[..m] == s;
      forall i | 0 <= i < |lists| ensures Count(s, cats[i]) == Taken(lists, round, j, i) {
        TurnsCount(lists, cats, round, j, i);
      }
    } else if j > 0 {
      TurnsAreFair(lists, cats, round, j - 1, m);
      assert s[..m] == Turns(lists, round, j - 1)[..m];
    } else {
      TurnsAreFair(lists, cats, round - 1, |lists|, m);
    }
  }

  // ---- Everybody has a turn ---------------------------------------------------------------------------

  function Sum(parts: seq<multiset<Case>>): multiset<Case> {
    if parts == [] then multiset{} else Sum(parts[..|parts| - 1]) + parts[|parts| - 1]
  }

  /** One part gets one more element. */
  lemma {:induction false} SumGrows(a: seq<multiset<Case>>, b: seq<multiset<Case>>, i: nat, x: Case)
    requires |a| == |b| && i < |a| && b == a[i := a[i] + multiset{x}]
    ensures Sum(b) == Sum(a) + multiset{x}
  {
    var n := |a| - 1;
    if i == n {
      assert b[..n] == a[..n];
    } else {
      assert b[..n] == a[..n][i := a[i] + multiset{x}];
      SumGrows(a[..n], b[..n], i, x);
    }
  }

  lemma {:induction false} SumOfNothing(parts: seq<multiset<Case>>)
    requires forall i :: 0 <= i < |parts| ==> parts[i] == multiset{}
    ensures Sum(parts) == multiset{}
  {
    if parts != [] { SumOfNothing(parts[..|parts| - 1]); }
  }

  function Parts(lists: seq<seq<Case>>, round: nat, j: nat): seq<multiset<Case>> {
    seq(|lists|, i requires 0 <= i < |lists| => multiset(lists[i][..Taken(lists, round, j, i)]))
  }

  /** After the turn of a list that is not used up, one more of its cases has been taken. */
  lemma PartsStep(lists: seq<seq<Case>>, round: nat, j: nat)
    requires 0 < j <= |lists|
    ensures var a, b := Parts(lists, round, j - 1), Parts(lists, round, j);
            if round < |lists[j - 1]| then b == a[j - 1 := a[j - 1] + multiset{lists[j - 1][round]}] else b == a
  {
    var a, b := Parts(lists, round, j - 1), Parts(lists, round, j);
    forall i | 0 <= i < |lists| && i != j - 1 ensures b[i] == a[i] {
      assert Taken(lists, round, j, i) == Taken(lists, round, j - 1, i);
    }
    var l := lists[j - 1];
    if round < |l| {
      assert l[..round + 1] == l[..round] + [l[round]];
      assert b[j - 1] == multiset(l[..round + 1]) && a[j - 1] == multiset(l[..round]);
    } else {
      assert b[j - 1] == a[j - 1];
    }
  }

  /** A full round takes as many as the start of the next one has behind it. */
  lemma PartsWrap(lists: seq<seq<Case>>, round: nat)
    requires round > 0
    ensures Parts(lists, round, 0) == Parts(lists, round - 1, |lists|)
  {
    var a, b := Parts(lists, round - 1, |lists|), Parts(lists, round, 0);
    forall i | 0 <= i < |lists| ensures b[i] == a[i] {
      assert Taken(lists, round, 0, i) == Taken(lists, round - 1, |lists|, i);
    }
  }

  /** The turns, one at a time. */
  lemma TurnStep(lists: seq<seq<Case>>, round: nat, j: nat)
    requires j < |lists|
    ensures Turns(lists, round, j + 1) == Turns(lists, round, j) + if round < |lists[j]| then [lists[j][round]] else []
    ensures round < |lists[j]| ==>
              multiset(Turns(lists, round, j + 1)) == multiset(Turns(lists, round, j)) + multiset{lists[j][round]}
  {
  }

  lemma NextRound(lists: seq<seq<Case>>, round: nat)
    ensures Turns(lists, round + 1, 0) == Turns(lists, round, |lists|) && Turns(lists, 0, 0) == []
  {
  }

  lemma {:induction false} TurnsAreParts(lists: seq<seq<Case>>, round: nat, j: nat)
    requires j <= |lists|
    ensures multiset(Turns(lists, round, j)) == Sum(Parts(lists, round, j))
    decreases round, j
  {
    hide Parts, Sum, Turns;
    if round == 0 && j == 0 {
      NothingTaken(lists);
      NextRound(lists, 0);
    } else if j == 0 {
      TurnsAreParts(lists, round - 1, |lists|);
      NextRound(lists, round - 1);
      PartsWrap(lists, round);
    } else {
      TurnsAreParts(lists, round, j - 1);
      TurnStep(lists, round, j - 1);
      PartsStep(lists, round, j);
      PartsLength(lists, round, j - 1);
      if round < |lists[j - 1]| {
        SumGrows(Parts(lists, round, j - 1), Parts(lists, round, j), j - 1, lists[j - 1][round]);
      }
    }
  }

  lemma NothingTaken(lists: seq<seq<Case>>)
    ensures Sum(Parts(lists, 0, 0)) == multiset{}
  {
    SumOfNothing(Parts(lists, 0, 0));
  }

  lemma PartsLength(lists: seq<seq<Case>>, round: nat, j: nat)
    ensures |Parts(lists, round, j)| == |lists|
  {
  }

  function Wholes(lists: seq<seq<Case>>): seq<multiset<Case>> {
    seq(|lists|, i requires 0 <= i < |lists| => multiset(lists[i]))
  }

  function Lists(s: seq<Case>, cats: seq<nat>): (r: seq<seq<Case>>)
    ensures |r| == |cats|
  {
    seq(|cats|, i requires 0 <= i < |cats| => OfCategory(s, cats[i]))
  }

  /** One more case goes into the group of its category. */
  lemma GroupsStep(s: seq<Case>, x: Case, cats: seq<nat>, i: nat)
    requires Increasing(cats) && i < |cats| && cats[i] == x.category
    ensures var a, b := Wholes(Lists(s, cats)), Wholes(Lists(s + [x], cats));
            |a| == |b| == |cats| && b == a[i := a[i] + multiset{x}]
  {
    assert (s + [x])[..|s|] == s;
    var a, b := Wholes(Lists(s, cats)), Wholes(Lists(s + [x], cats));
    forall k | 0 <= k < |cats| ensures b[k] == if k == i then a[k] + multiset{x} else a[k] {
      assert OfCategory(s + [x], cats[k]) == OfCategory(s, cats[k]) + if k == i then [x] else [];
    }
  }

  /** The groups hold every case exactly once. */
  lemma {:induction false} GroupsAreAll(s: seq<Case>, cats: seq<nat>)
    requires Increasing(cats) && forall x :: x in s ==> x.category in cats
    ensures Sum(Wholes(Lists(s, cats))) == multiset(s)
  {
    if s == [] {
      SumOfNothing(Wholes(Lists(s, cats)));
    } else {
      var n := |s| - 1;
      var x := s[n];
      assert s == s[..n] + [x] && x in s;
      GroupsAreAll(s[..n], cats);
      var i :| 0 <= i < |cats| && cats[i] == x.category;
      GroupsStep(s[..n], x, cats, i);
      SumGrows(Wholes(Lists(s[..n], cats)), Wholes(Lists(s, cats)), i, x);
    }
  }

  ghost predicate UsedUp(lists: seq<seq<Case>>, round: nat) {
    forall i :: 0 <= i < |lists| ==> |lists[i]| <= round
  }

  lemma UsedUpIsAll(lists: seq<seq<Case>>, round: nat)
    requires UsedUp(lists, round)
    ensures multiset(Turns(lists, round, 0)) == Sum(Wholes(lists))
  {
    TurnsAreParts(lists, round, 0);
    assert forall i :: 0 <= i < |lists| ==> lists[i][..|lists[i]|] == lists[i];
    assert Parts(lists, round, 0) == Wholes(lists);
  }

  lemma {:induction false} TurnsGrow(lists: seq<seq<Case>>, round: nat, j: nat, i: nat)
    requires j <= |lists|
    ensures |Turns(lists, round, j)| >= |Turns(lists, round, 0)| + if i < j && round < |lists[i]| then 1 else 0
  {
    if j > 0 { TurnsGrow(lists, round, j - 1, i); }
  }

  /** Once all lists are used up more rounds change nothing; before, every round adds something. */
  lemma {:induction false} MoreRounds(lists: seq<seq<Case>>, round: nat, more: nat)
    requires round <= more
    ensures |Turns(lists, round, 0)| <= |Turns(lists, more, 0)|
    ensures UsedUp(lists, round) ==> Turns(lists, more, 0) == Turns(lists, round, 0)
    ensures round < more && !UsedUp(lists, round) ==> |Turns(lists, round, 0)| < |Turns(lists, more, 0)|
    decreases more - round
  {
    if round < more {
      MoreRounds(lists, round + 1, more);
      if UsedUp(lists, round) {
        NothingLeft(lists, round, |lists|);
      } else {
        var i :| 0 <= i < |lists| && |lists[i]| > round;
        TurnsGrow(lists, round, |lists|, i);
      }
      TurnsGrow(lists, round, |lists|, 0);
    }
  }

  lemma {:induction false} NothingLeft(lists: seq<seq<Case>>, round: nat, j: nat)
    requires UsedUp(lists, round) && j <= |lists|
    ensures Turns(lists, round, j) == Turns(lists, round, 0)
  {
    if j > 0 { NothingLeft(lists, round, j - 1); }
  }

  lemma {:induction false} OfCategoryShort(s: seq<Case>, c: nat)
    ensures |OfCategory(s, c)| <= |s|
  {
    if s != [] { OfCategoryShort(s[..|s| - 1], c); }
  }

  // ---- The interleaved pool --------------------------------------------------------------------------------

  function CategoryOrder(pool: seq<Case>): seq<nat> { InOrder(Categories(pool)) }

  function Groups(pool: seq<Case>): seq<seq<Case>> { Lists(SortById(pool), CategoryOrder(pool)) }

  /** As many rounds as there are cases are always enough. */
  function Interleaved(pool: seq<Case>): seq<Case> { Turns(Groups(pool), |pool|, 0) }

  lemma GroupsAreGrouped(pool: seq<Case>)
    ensures Grouped(Groups(pool), CategoryOrder(pool)) && UsedUp(Groups(pool), |pool|)
    ensures Sum(Wholes(Groups(pool))) == multiset(pool)
  {
    var sorted, cats := SortById(pool), CategoryOrder(pool);
    SortSorts(pool);
    assert |sorted| == |pool| by { assert |multiset(sorted)| == |multiset(pool)|; }
    forall i | 0 <= i < |cats| ensures |Groups(pool)[i]| <= |pool| { OfCategoryShort(sorted, cats[i]); }
    forall x | x in sorted ensures x.category in cats {
      assert x in multiset(sorted);
      assert x in pool;
    }
    GroupsAreAll(sorted, cats);
  }

  /** The interleaving is a permutation of the pool. */
  lemma InterleavedIsPermutation(pool: seq<Case>)
    ensures multiset(Interleaved(pool)) == multiset(pool)
  {
    GroupsAreGrouped(pool);
    UsedUpIsAll(Groups(pool), |pool|);
  }

  /** With unique ids it does not depend on the order of the pool. */
  lemma InterleavedIgnoresOrder(pool: seq<Case>, other: seq<Case>)
    requires UniqueIds(pool) && multiset(pool) == multiset(other)
    ensures Interleaved(pool) == Interleaved(other)
  {
    SortUnique(pool);
    SortSorts(pool);
    SortSorts(other);
    SortedIsUnique(SortById(pool), SortById(other));
    assert |pool| == |other| by { assert |multiset(pool)| == |multiset(other)|; }
    assert Categories(pool) == Categories(other) by {
      assert forall x :: x in pool <==> x in multiset(other);
    }
  }

  /** In every prefix the categories are even, except for those that are used up. */
  lemma InterleavedIsFair(pool: seq<Case>, m: nat)
    requires m <= |Interleaved(pool)|
    ensures Fair(Interleaved(pool)[..m], Groups(pool), CategoryOrder(pool))
  {
    GroupsAreGrouped(pool);
    TurnsAreFair(Groups(pool), CategoryOrder(pool), |pool|, 0, m);
  }

  // ---- Who comes before whom ------------------------------------------------------------------------------

  /** The case at position a is from list i: the one whose turn it is there, and the turn is an earlier one than
      that of list j in this round. */
  ghost predicate TurnAt(s: seq<Case>, a: nat, lists: seq<seq<Case>>, cats: seq<nat>, round: nat, j: nat, i: nat)
    requires a < |s| && |lists| == |cats|
  {
    && i < |lists| && cats[i] == s[a].category
    && var turn := Count(s[..a], s[a].category);
       && turn < |lists[i]| && s[a] == lists[i][turn]
       && (turn < round || (turn == round && i < j))
  }

  lemma {:induction false} TurnsAt(lists: seq<seq<Case>>, cats: seq<nat>, round: nat, j: nat, a: nat) returns (i: nat)
    requires Grouped(lists, cats) && j <= |lists| && a < |Turns(lists, round, j)|
    ensures TurnAt(Turns(lists, round, j), a, lists, cats, round, j, i)
    decreases round, j
  {
    var s := Turns(lists, round, j);
    if j > 0 {
      var before := Turns(lists, round, j - 1);
      if a < |before| {
        i := TurnsAt(lists, cats, round, j - 1, a);
        assert s[..a] == before[..a] && s[a] == before[a];
      } else {
        i := j - 1;
        TurnsCount(lists, cats, round, j - 1, i);
        assert s[..a] == before && s[a] == lists[i][round];
      }
    } else {
      i := TurnsAt(lists, cats, round - 1, |lists|, a);
    }
  }

  lemma LastPrecedes(before: seq<Case>, lists: seq<seq<Case>>, cats: seq<nat>, round: nat, j: nat, a: nat, i: nat)
    requires Grouped(lists, cats) && 0 < j <= |lists| && a < |before| && round < |lists[j - 1]|
    requires TurnAt(before, a, lists, cats, round, j - 1, i) && Count(before, cats[j - 1]) == round
    ensures Precedes(before + [lists[j - 1][round]], a, |before|)
  {
    hide Count;
    var s := before + [lists[j - 1][round]];
    assert s[..|before|] == before && s[..a] == before[..a] && s[a] == before[a];
  }

  /** Positions follow turns: an earlier position has an earlier turn, or the same one and a smaller category. */
  lemma {:induction false} TurnsInOrder(lists: seq<seq<Case>>, cats: seq<nat>, round: nat, j: nat, a: nat, b: nat)
    requires Grouped(lists, cats) && j <= |lists| && a < b < |Turns(lists, round, j)|
    ensures Precedes(Turns(lists, round, j), a, b)
    decreases round, j
  {
    hide Count, Grouped;
    var s := Turns(lists, round, j);
    if j > 0 {
      var before := Turns(lists, round, j - 1);
      if b < |before| {
        TurnsInOrder(lists, cats, round, j - 1, a, b);
        assert s[..a] == before[..a] && s[..b] == before[..b];
      } else {
        var i := TurnsAt(lists, cats, round, j - 1, a);
        TurnsCount(lists, cats, round, j - 1, j - 1);
        assert s == before + [lists[j - 1][round]];
        LastPrecedes(before, lists, cats, round, j, a, i);
      }
    } else {
      TurnsInOrder(lists, cats, round - 1, |lists|, a, b);
    }
  }

  /** The turn of a case is the number of cases of its category before it. Turns come first, then categories. */
  predicate Precedes(s: seq<Case>, a: nat, b: nat)
    requires a < |s| && b < |s|
  {
    var (x, y) := (Count(s[..a], s[a].category), Count(s[..b], s[b].category));
    x < y || (x == y && s[a].category < s[b].category)
  }

  lemma {:induction false} OfCategorySorted(s: seq<Case>, c: nat)
    requires Sorted(s)
    ensures Sorted(OfCategory(s, c))
  {
    if s != [] {
      var n := |s| - 1;
      OfCategorySorted(s[..n], c);
      var before := OfCategory(s[..n], c);
      forall i | 0 <= i < |before| ensures before[i].id <= s[n].id {
        var k :| 0 <= k < n && s[k] == before[i];
      }
    }
  }

  /** The interleaving takes one case of each category in turn, categories in order, and the cases of each
      category by their ids: this says of any two positions which case is there. */
  lemma InterleavedInOrder(pool: seq<Case>, a: nat, b: nat)
    requires a < b < |Interleaved(pool)|
    ensures var s := Interleaved(pool);
            Precedes(s, a, b) && (s[a].category == s[b].category ==> s[a].id <= s[b].id)
  {
    var (s, lists, cats) := (Interleaved(pool), Groups(pool), CategoryOrder(pool));
    GroupsAreGrouped(pool);
    TurnsInOrder(lists, cats, |pool|, 0, a, b);
    if s[a].category == s[b].category {
      var i := TurnsAt(lists, cats, |pool|, 0, a);
      var k := TurnsAt(lists, cats, |pool|, 0, b);
      SortSorts(pool);
      OfCategorySorted(SortById(pool), cats[i]);
    }
  }

  // ---- Building it -----------------------------------------------------------------------------------------

  lemma CategoriesAppend(s: seq<Case>, x: Case)
    ensures Categories(s + [x]) == Categories(s) + {x.category}
    ensures forall c :: OfCategory(s + [x], c) == OfCategory(s, c) + if x.category == c then [x] else []
    ensures forall c :: c !in Categories(s) ==> OfCategory(s, c) == []
  {
    assert (s + [x])[..|s|] == s;
    forall c | c in Categories(s) + {x.category} ensures c in Categories(s + [x]) {
      if c == x.category {
        assert x in s + [x];
      } else {
        var y :| y in s && y.category == c;
        assert y in s + [x];
      }
    }
    forall c | OfCategory(s, c) != [] ensures c in Categories(s) { assert OfCategory(s, c)[0] in s; }
  }

  ghost predicate GroupsOf(groups: map<nat, seq<Case>>, s: seq<Case>) {
    groups.Keys == Categories(s) && forall c :: c in groups ==> groups[c] == OfCategory(s, c)
  }

  method AddToGroup(groups: map<nat, seq<Case>>, item: Case, ghost before: seq<Case>) returns (r: map<nat, seq<Case>>)
    requires GroupsOf(groups, before)
    ensures GroupsOf(r, before + [item])
  {
    CategoriesAppend(before, item);
    hide Categories, OfCategory;
    var group := if item.category in groups then groups[item.category] else [];
    r := groups[item.category := group + [item]];
  }

  /** The cases of each category, in the order given. */
  method GroupByCategory(sorted: seq<Case>) returns (groups: map<nat, seq<Case>>)
    ensures GroupsOf(groups, sorted)
  {
    groups := map[];
    assert GroupsOf(groups, []);
    hide GroupsOf;
    for k := 0 to |sorted|
      invariant GroupsOf(groups, sorted[..k])
    {
      groups := AddToGroup(groups, sorted[k], sorted[..k]);
      assert sorted[..k + 1] == sorted[..k] + [sorted[k]];
    }
    assert sorted[..|sorted|] == sorted;
  }

  lemma CategoriesOfSorted(pool: seq<Case>)
    ensures Categories(SortById(pool)) == Categories(pool)
  {
    SortSorts(pool);
    assert forall x :: x in pool <==> x in multiset(SortById(pool));
  }

  lemma RoundsToGo(pool: seq<Case>, round: nat)
    requires round <= |pool|
    ensures |Turns(Groups(pool), round, 0)| < |pool| ==> round < |pool|
    ensures |Turns(Groups(pool), round, 0)| >= |pool| ==> Turns(Groups(pool), round, 0) == Interleaved(pool)
  {
    InterleavedIsPermutation(pool);
    assert |Interleaved(pool)| == |pool| by { assert |multiset(Interleaved(pool))| == |multiset(pool)|; }
    MoreRounds(Groups(pool), round, |pool|);
  }

  /** The groups in the order of their categories. */
  method SortedGroups(pool: seq<Case>) returns (lists: seq<seq<Case>>)
    ensures lists == Groups(pool)
  {
    var sorted := SortById(pool);
    var groups := GroupByCategory(sorted);
    CategoriesOfSorted(pool);
    var categories := InOrder(groups.Keys);
    lists := seq(|categories|, i requires 0 <= i < |categories| && categories[i] in groups => groups[categories[i]]);
  }

  method InterleaveByCategory(pool: seq<Case>) returns (order: seq<Case>)
    ensures order == Interleaved(pool)
  {
    hide Turns, Groups, Interleaved;
    var lists := SortedGroups(pool);
    order := [];
    var round := 0;
    RoundsToGo(pool, 0);
    NextRound(lists, 0);
    while |order| < |pool|
      invariant round <= |pool| && order == Turns(lists, round, 0)
      invariant |order| < |pool| ==> round < |pool|
      invariant |order| >= |pool| ==> order == Interleaved(pool)
      decreases |pool| - round
    {
      for j := 0 to |lists|
        invariant order == Turns(lists, round, j)
      {
        TurnStep(lists, round, j);
        if round < |lists[j]| { order := order + [lists[j][round]]; }
      }
      NextRound(lists, round);
      round := round + 1;
      RoundsToGo(pool, round);
    }
  }

  // ---- The slice of a run ------------------------------------------------------------------------------------

  /** The cases of a slot: slots tile the interleaved order, which wraps around. */
  function Window(order: seq<Case>, size: nat, slot: nat): (r: seq<Case>)
    requires 0 < size <= |order|
    ensures |r| == size
  {
    seq(size, offset requires 0 <= offset < size => order[(slot * size + offset) % |order|])
  }

  /** A slot's cases follow on those of the slot before, and after as many slots as there are cases everything
      starts over. */
  lemma WindowsTile(order: seq<Case>, size: nat, slot: nat, offset: nat)
    requires 0 < size <= |order| && offset < size
    ensures slot * size + offset < |order| ==> Window(order, size, slot)[offset] == order[slot * size + offset]
    ensures Window(order, size, slot + |order|)[offset] == Window(order, size, slot)[offset]
  {
    Distribute(slot, |order|, size);
    FullTurns(slot * size + offset, size, |order|);
  }

  lemma FullTurns(x: nat, turns: nat, n: nat)
    requires n > 0
    ensures (x + n * turns) % n == x % n && (x < n ==> x % n == x)
  {
    Euclid(x, n);
    Distribute(x / n, turns, n);
    DivModUnique(x + n * turns, x / n + turns, x % n, n);
  }

  function CeilDiv(n: nat, size: nat): nat
    requires size > 0
  {
    (n + size - 1) / size
  }

  lemma MulMonotone(a: nat, b: nat, n: nat)
    requires a <= b
    ensures a * n <= b * n
  {
    assert b * n == a * n + (b - a) * n;
  }

  lemma MulLess(a: nat, b: nat, n: nat)
    requires a < b
    ensures a * n + n <= b * n
  {
    MulMonotone(a + 1, b, n);
    assert (a + 1) * n == a * n + n;
  }

  lemma DivModUnique(x: nat, q: nat, r: nat, n: nat)
    requires r < n && x == q * n + r
    ensures x / n == q && x % n == r
  {
    var p := x / n;
    assert x == p * n + x % n;
    if p < q {
      MulLess(p, q, n);
    } else if q < p {
      MulLess(q, p, n);
    }
  }

  lemma ModSum(a: nat, b: nat, n: nat)
    requires n > 0
    ensures (a % n + b) % n == (a + b) % n
  {
    var c := a % n + b;
    Euclid(a, n);
    Euclid(c, n);
    Distribute(a / n, c / n, n);
    DivModUnique(a + b, a / n + c / n, c % n, n);
  }

  lemma Euclid(a: nat, n: nat)
    requires n > 0
    ensures a == (a / n) * n + a % n && 0 <= a % n < n
  {
  }

  lemma Distribute(q: nat, p: nat, n: nat)
    ensures (q + p) * n == q * n + p * n
  {
  }

  /** Any ceil(n / size) consecutive slots pick every case. */
  lemma SlotsCoverPool(order: seq<Case>, size: nat, first: nat, i: nat) returns (slot: nat, offset: nat)
    requires 0 < size <= |order| && i < |order|
    ensures first <= slot < first + CeilDiv(|order|, size) && offset < size
    ensures Window(order, size, slot)[offset] == order[i]
  {
    var n := |order|;
    var start := first * size;
    // The first position at or after the start that falls on the case.
    var t := start + (i + (n - start % n)) % n;
    TargetFallsOn(start, i, n);
    slot, offset := t / size, t % size;
    assert slot * size + offset == t;
    SlotInRange(first, size, n, t);
  }

  lemma TargetFallsOn(start: nat, i: nat, n: nat)
    requires n > 0 && i < n
    ensures (start + (i + (n - start % n)) % n) % n == i
  {
    var q, m := start / n, start % n;
    assert start == q * n + m;
    if m <= i {
      DivModUnique(i + (n - m), 1, i - m, n);
      DivModUnique(start + (i - m), q, i, n);
    } else {
      DivModUnique(i + (n - m), 0, i + (n - m), n);
      assert (q + 1) * n == q * n + n;
      DivModUnique(start + (i + (n - m)), q + 1, i, n);
    }
  }

  lemma SlotInRange(first: nat, size: nat, n: nat, t: nat)
    requires size > 0 && first * size <= t < first * size + n
    ensures first <= t / size < first + CeilDiv(n, size)
  {
    var k, q := CeilDiv(n, size), t / size;
    assert t == q * size + t % size;
    assert n + size - 1 == k * size + (n + size - 1) % size;
    assert (first + k) * size == first * size + k * size;
    if q < first {
      MulLess(q, first, size);
    } else if q >= first + k {
      MulMonotone(first + k, q, size);
    }
  }

  /** A slice never holds the same position twice. */
  lemma WindowPositionsDiffer(n: nat, size: nat, slot: nat, a: nat, b: nat)
    requires 0 < size <= n && a < b < size
    ensures (slot * size + a) % n != (slot * size + b) % n
  {
    var s := slot * size;
    var q, r := (s + a) / n, (s + a) % n;
    assert s + a == q * n + r;
    if r + (b - a) < n {
      DivModUnique(s + b, q, r + (b - a), n);
    } else {
      assert (q + 1) * n == q * n + n;
      DivModUnique(s + b, q + 1, r + (b - a) - n, n);
    }
  }

  ghost predicate Covers(picked: seq<Case>, category: nat) {
    exists k :: 0 <= k < |picked| && picked[k].category == category
  }

  method HasCategory(picked: seq<Case>, category: nat) returns (found: bool)
    ensures found <==> Covers(picked, category)
  {
    found := false;
    for k := 0 to |picked|
      invariant found <==> exists j :: 0 <= j < k && picked[j].category == category
    {
      if picked[k].category == category { found := true; }
    }
  }

  lemma OfCategoryOccurs(s: seq<Case>, k: nat)
    requires k < |s|
    ensures OfCategory(s, s[k].category) != []
  {
    if k < |s| - 1 {
      OfCategoryOccurs(s[..|s| - 1], k);
    }
  }

  /** The floor's additions: one case of each category that the window missed, and only of those; the slot
      says which one. */
  ghost predicate Floor(order: seq<Case>, size: nat, slot: nat, picked: seq<Case>) {
    && size <= |picked|
    && (forall k :: size <= k < |picked| ==>
          var group := OfCategory(order, picked[k].category);
          group != [] && picked[k] == group[slot % |group|])
    && (forall j, k :: 0 <= j < k < |picked| && size <= k ==> picked[j].category != picked[k].category)
  }

  /** Visiting every case of the order visits every category; later cases of a category find it covered. */
  method AddFloor(order: seq<Case>, window: seq<Case>, slot: nat) returns (picked: seq<Case>)
    ensures window <= picked && Floor(order, |window|, slot, picked)
    ensures forall k :: 0 <= k < |order| ==> Covers(picked, order[k].category)
  {
    picked := window;
    for k := 0 to |order|
      invariant window <= picked && Floor(order, |window|, slot, picked)
      invariant forall j :: 0 <= j < k ==> Covers(picked, order[j].category)
    {
      var category := order[k].category;
      var found := HasCategory(picked, category);
      if !found {
        var ofCategory := OfCategory(order, category);
        OfCategoryOccurs(order, k);
        ghost var before := picked;
        picked := picked + [ofCategory[slot % |ofCategory|]];
        assert picked[|before|].category == category;
        forall j | 0 <= j < k ensures Covers(picked, order[j].category) {
          var w :| 0 <= w < |before| && before[w].category == order[j].category;
          assert picked[w] == before[w];
        }
      }
    }
  }

  /** The slice of a slot; with the floor, every category of the pool is in it. */
  method Rotate(pool: seq<Case>, count: int, slot: nat, coverageFloor: bool) returns (picked: seq<Case>)
    ensures pool == [] || count <= 0 ==> picked == []
    ensures pool != [] && count > 0 ==>
              var order := Interleaved(pool);
              var size := if count < |pool| then count else |pool|;
              && |order| == |pool|
              && Window(order, size, slot) <= picked
              && (if coverageFloor then Floor(order, size, slot, picked) else picked == Window(order, size, slot))
              && (coverageFloor ==> forall c :: c in Categories(pool) ==> Covers(picked, c))
  {
    var order := InterleaveByCategory(pool);
    InterleavedIsPermutation(pool);
    assert |order| == |pool| by { assert |multiset(order)| == |multiset(pool)|; }
    if |order| == 0 || count <= 0 { return []; }
    var size := if count < |order| then count else |order|;
    var start := slot * size % |order|;
    picked := seq(size, offset requires 0 <= offset < size => order[(start + offset) % |order|]);
    forall offset | 0 <= offset < size ensures picked[offset] == Window(order, size, slot)[offset] {
      ModSum(slot * size, offset, |order|);
    }
    assert picked == Window(order, size, slot);
    if coverageFloor {
      picked := AddFloor(order, picked, slot);
      forall c | c in Categories(pool) ensures Covers(picked, c) {
        var x :| x in pool && x.category == c;
        assert x in multiset(order);
      }
    }
  }
}
