/** The impact of a device: how many devices hang below it in the upstream tree. */
module Impact {
  import opened UpstreamTree

  type Parents = map<Id, Id>

  /** The device n steps upstream of x. */
  ghost function Up(parents: Parents, x: Id, n: nat): (r: (bool, Id))
    decreases n
  {
    if n == 0 then (true, x) else if x in parents then Up(parents, parents[x], n - 1) else (false, x)
  }

  /** x is strictly downstream of top. */
  ghost predicate Below(parents: Parents, top: Id, x: Id) {
    exists n: nat :: n > 0 && Up(parents, x, n) == (true, top)
  }

  ghost function Downstream(parents: Parents, top: Id): set<Id> {
    set x <- parents | Below(parents, top, x)
  }

  /** Ranks that grow from every parent to its children. */
  ghost predicate Ranked(parents: Parents, rank: map<Id, nat>) {
    forall x <- parents :: x in rank && parents[x] in rank && rank[parents[x]] < rank[x]
  }

  ghost predicate Acyclic(parents: Parents) {
    forall x: Id :: !Below(parents, x, x)
  }

  lemma {:induction false} UpFalls(parents: Parents, rank: map<Id, nat>, x: Id, n: nat)
    requires Ranked(parents, rank) && n > 0 && Up(parents, x, n).0
    ensures x in rank && Up(parents, x, n).1 in rank && rank[Up(parents, x, n).1] < rank[x]
    decreases n
  {
    if n > 1 { UpFalls(parents, rank, parents[x], n - 1); }
  }

  lemma {:induction false} RankedIsAcyclic(parents: Parents, rank: map<Id, nat>)
    requires Ranked(parents, rank)
    ensures Acyclic(parents)
  {
    forall x: Id ensures !Below(parents, x, x) {
      forall n: nat | n > 0 ensures Up(parents, x, n) != (true, x) {
        if Up(parents, x, n) == (true, x) { UpFalls(parents, rank, x, n); }
      }
    }
  }

  ghost function HopsTo(g: Graph, roots: set<Id>, x: Id): nat {
    if exists k: nat :: Depth(g, roots, x, k) then
      var k: nat :| Depth(g, roots, x, k); k
    else 0
  }

  lemma {:induction false} HopsGrow(g: Graph, roots: set<Id>, x: Id, p: Id)
    requires Upstream(g, roots, x, p)
    ensures HopsTo(g, roots, x) == HopsTo(g, roots, p) + 1
  {
  }

  /** No device is upstream of itself. */
  lemma {:induction false} TreeIsAcyclic(g: Graph, roots: set<Id>, parents: Parents)
    requires IsTree(g, roots, parents)
    ensures Acyclic(parents)
  {
    var rank := map x <- parents.Keys + parents.Values :: HopsTo(g, roots, x);
    forall x <- parents ensures rank[parents[x]] < rank[x] {
      HopsGrow(g, roots, x, parents[x]);
    }
    RankedIsAcyclic(parents, rank);
  }

  // ---- counting -------------------------------------------------------------------------------

  ghost function KidsOf(parents: Parents, done: set<Id>): set<Id> {
    set x <- parents | parents[x] in done
  }

  ghost predicate NoRepeat(s: seq<Id>) {
    forall i, j :: 0 <= i < j < |s| ==> s[i] != s[j]
  }

  ghost function Members(s: seq<Id>): (r: set<Id>)
    ensures forall x: Id :: x in r <==> x in s
  {
    if s == [] then {} else {s[0]} + Members(s[1..])
  }

  type Children = map<Id, seq<Id>>

  function ListOf(children: Children, p: Id): seq<Id> {
    if p in children then children[p] else []
  }

  ghost predicate ListsKids(children: Children, parents: Parents) {
    forall p: Id ::
      NoRepeat(ListOf(children, p)) && forall x: Id :: x in ListOf(children, p) <==> x in parents && parents[x] == p
  }

  lemma {:induction false} OneMoreKid(children: Children, parents: Parents, c: Id, p: Id)
    requires ListsKids(children, parents) && c !in parents
    ensures ListsKids(children[p := ListOf(children, p) + [c]], parents[c := p])
  {
    var children' := children[p := ListOf(children, p) + [c]];
    forall q: Id ensures NoRepeat(ListOf(children', q))
    {
      assert NoRepeat(ListOf(children, q));
      if q == p {
        forall i | 0 <= i < |ListOf(children, p)| ensures ListOf(children, p)[i] != c {
          assert ListOf(children, p)[i] in ListOf(children, p);
        }
      }
    }
    var parents' := parents[c := p];
    forall q: Id, x: Id ensures x in ListOf(children', q) <==> x in parents' && parents'[x] == q {
      assert x in ListOf(children, q) <==> x in parents && parents[x] == q;
    }
  }

  /** The child lists, from the parent map in any order. */
  method ChildLists(parents: Parents) returns (children: Children)
    ensures ListsKids(children, parents)
  {
    children := map[];
    var todo := parents.Keys;
    ghost var done: Parents := map[];
    while todo != {}
      invariant todo <= parents.Keys && done.Keys == parents.Keys - todo
      invariant forall x <- done :: done[x] == parents[x]
      invariant ListsKids(children, done)
    {
      var c: Id :| c in todo;
      OneMoreKid(children, done, c, parents[c]);
      children := children[parents[c] := ListOf(children, parents[c]) + [c]];
      done := done[c := parents[c]];
      todo := todo - {c};
    }
    assert done == parents;
  }

  /** The walk so far: every device met is the start or below it, children of finished devices are
      counted, and those not finished yet wait on the stack, each once. */
  ghost predicate Walk(parents: Parents, dev: Id, stack: seq<Id>, done: set<Id>) {
    && NoRepeat(stack)
    && (forall y: Id :: y in stack <==> (y == dev || y in KidsOf(parents, done)) && y !in done)
    && (forall y <- done :: y == dev || y in KidsOf(parents, done))
    && (forall y <- KidsOf(parents, done) :: Below(parents, dev, y))
  }

  lemma {:induction false} ChildIsBelow(parents: Parents, dev: Id, x: Id)
    requires x in parents && (parents[x] == dev || Below(parents, dev, parents[x]))
    ensures Below(parents, dev, x)
  {
    if parents[x] == dev {
      assert Up(parents, x, 1) == (true, dev);
    } else {
      var n: nat :| n > 0 && Up(parents, parents[x], n) == (true, dev);
      assert Up(parents, x, n + 1) == (true, dev);
    }
  }

  lemma {:induction false} AllBelow(parents: Parents, dev: Id, done: set<Id>, x: Id, n: nat)
    requires Walk(parents, dev, [], done) && n > 0 && Up(parents, x, n) == (true, dev)
    ensures x in KidsOf(parents, done)
    decreases n
  {
    assert dev in done;
    if n > 1 {
      AllBelow(parents, dev, done, parents[x], n - 1);
      assert parents[x] in done;
    } else {
      assert parents[x] == dev;
    }
  }

  lemma {:induction false} WalkEnds(parents: Parents, dev: Id, done: set<Id>)
    requires Walk(parents, dev, [], done)
    ensures KidsOf(parents, done) == Downstream(parents, dev)
  {
    forall x <- Downstream(parents, dev) ensures x in KidsOf(parents, done) {
      var n: nat :| n > 0 && Up(parents, x, n) == (true, dev);
      AllBelow(parents, dev, done, x, n);
    }
  }

  lemma {:induction false} SetSize(s: seq<Id>)
    requires NoRepeat(s)
    ensures |Members(s)| == |s|
  {
    if s != [] { SetSize(s[1..]); }
  }

  lemma {:induction false} KidsMore(parents: Parents, done: set<Id>, cur: Id, kids: seq<Id>)
    requires NoRepeat(kids) && forall x: Id :: x in kids <==> x in parents && parents[x] == cur
    requires cur !in done
    ensures |KidsOf(parents, done + {cur})| == |KidsOf(parents, done)| + |kids|
  {
    SetSize(kids);
    assert KidsOf(parents, done + {cur}) == KidsOf(parents, done) + Members(kids);
  }

  /** The children of the device on top of the stack are all new. */
  lemma {:induction false} NewKid(parents: Parents, dev: Id, stack: seq<Id>, done: set<Id>, x: Id)
    requires Walk(parents, dev, stack, done) && stack != [] && Acyclic(parents)
    requires x in parents && parents[x] == stack[|stack| - 1]
    ensures Below(parents, dev, x) && x !in KidsOf(parents, done) && x != dev && x !in stack
  {
    assert parents[x] in stack;
    ChildIsBelow(parents, dev, x);
  }

  lemma {:induction false} StackStep(parents: Parents, dev: Id, rest: seq<Id>, cur: Id, done: set<Id>, kids: seq<Id>)
    requires Walk(parents, dev, rest + [cur], done)
    requires NoRepeat(kids) && forall x: Id :: x in kids <==> x in parents && parents[x] == cur
    requires forall x <- kids :: Below(parents, dev, x) && x !in KidsOf(parents, done) && x != dev && x !in rest + [cur]
    ensures Walk(parents, dev, rest + kids, done + {cur})
  {
    var stack := rest + [cur];
    assert forall i :: 0 <= i < |rest| ==> rest[i] == stack[i] && stack[i] in stack;
    assert forall i :: 0 <= i < |kids| ==> kids[i] in kids;
    assert stack[|rest|] == cur && cur in stack;
    assert cur !in rest;
    forall y: Id ensures y in rest + kids <==> (y == dev || y in KidsOf(parents, done + {cur})) && y !in done + {cur} {
      assert y in stack <==> (y == dev || y in KidsOf(parents, done)) && y !in done;
      assert y in stack <==> y in rest || y == cur;
      if y in kids { assert y !in done; }
    }
  }

  /** Finishing a device counts exactly its children, none of them met before. */
  lemma {:induction false} WalkStep(parents: Parents, dev: Id, rest: seq<Id>, cur: Id, done: set<Id>, kids: seq<Id>)
    requires Walk(parents, dev, rest + [cur], done) && Acyclic(parents)
    requires NoRepeat(kids) && forall x: Id :: x in kids <==> x in parents && parents[x] == cur
    ensures Walk(parents, dev, rest + kids, done + {cur})
    ensures cur !in done && (cur == dev || cur in parents)
  {
    assert cur in rest + [cur];
    forall x <- kids ensures Below(parents, dev, x) && x !in KidsOf(parents, done) && x != dev && x !in rest + [cur] {
      NewKid(parents, dev, rest + [cur], done, x);
    }
    StackStep(parents, dev, rest, cur, done, kids);
  }

  /** What the loop keeps: a walk, the count so far, and a shrinking rest. */
  ghost predicate Counting(parents: Parents, dev: Id, stack: seq<Id>, done: set<Id>, n: nat) {
    Walk(parents, dev, stack, done) && n == |KidsOf(parents, done)| && done <= {dev} + parents.Keys
  }

  ghost function Left(parents: Parents, dev: Id, done: set<Id>): nat {
    |{dev} + parents.Keys - done|
  }

  lemma {:induction false} CountStep(parents: Parents, dev: Id, stack: seq<Id>, done: set<Id>, n: nat,
                                     children: Children)
    requires Counting(parents, dev, stack, done, n) && stack != [] && Acyclic(parents) && ListsKids(children, parents)
    ensures var cur := stack[|stack| - 1];
      var kids := ListOf(children, cur);
      && Counting(parents, dev, stack[..|stack| - 1] + kids, done + {cur}, n + |kids|)
      && Left(parents, dev, done + {cur}) < Left(parents, dev, done)
  {
    var cur := stack[|stack| - 1];
    assert NoRepeat(ListOf(children, cur));
    assert stack == stack[..|stack| - 1] + [cur];
    WalkStep(parents, dev, stack[..|stack| - 1], cur, done, ListOf(children, cur));
    KidsMore(parents, done, cur, ListOf(children, cur));
    Fewer({dev} + parents.Keys, done, done + {cur});
  }

  lemma {:induction false} CountStart(parents: Parents, dev: Id)
    ensures Counting(parents, dev, [dev], {}, 0)
  {
  }

  lemma {:induction false} CountEnd(parents: Parents, dev: Id, done: set<Id>, n: nat)
    requires Counting(parents, dev, [], done, n)
    ensures n == |Downstream(parents, dev)|
  {
    WalkEnds(parents, dev, done);
  }

  /** Without a visited set, the walk ends and counts every device downstream of `dev` exactly once. */
  method ImpactOf(parents: Parents, dev: Id) returns (n: nat)
    requires Acyclic(parents)
    ensures n == |Downstream(parents, dev)|
  {
    var children := ChildLists(parents);
    n := 0;
    var stack := [dev];
    ghost var done: set<Id> := {};
    CountStart(parents, dev);
    while stack != []
      invariant Counting(parents, dev, stack, done, n)
      decreases Left(parents, dev, done)
    {
      CountStep(parents, dev, stack, done, n, children);
      var cur := stack[|stack| - 1];
      var kids := ListOf(children, cur);
      stack := stack[..|stack| - 1] + kids;
      n := n + |kids|;
      done := done + {cur};
    }
    CountEnd(parents, dev, done, n);
  }
}
