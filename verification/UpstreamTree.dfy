/**
 * The upstream tree: a breadth-first search over live links from the roots gives every reachable
 * device the neighbour it hangs on, and the impact of a device is the number of devices below it.
 * Devices are only compared, so numbers stand for their ids.
 */
module UpstreamTree {
  import opened Sorting

  type Id = nat

  datatype Link = Link(a: Id, b: Id, external: bool, stale: bool)

  predicate Live(l: Link) {
    !l.external && !l.stale
  }

  type Graph = set<(Id, Id)>

  /** Live links, in both directions. */
  ghost function Edges(links: seq<Link>): Graph {
    (set l <- links | Live(l) :: (l.a, l.b)) + (set l <- links | Live(l) :: (l.b, l.a))
  }

  /** A link of two devices that is neither external nor stale, either way round. */
  ghost predicate Joined(links: seq<Link>, x: Id, y: Id) {
    exists l <- links :: !l.external && !l.stale && ((l.a == x && l.b == y) || (l.a == y && l.b == x))
  }

  lemma {:induction false} EdgeIff(links: seq<Link>, x: Id, y: Id)
    ensures (x, y) in Edges(links) <==> Joined(links, x, y)
  {
    if Joined(links, x, y) {
      var l :| l in links && !l.external && !l.stale && ((l.a == x && l.b == y) || (l.a == y && l.b == x));
      assert Live(l);
    }
  }

  /** x is at most k hops from the nearest root. */
  ghost predicate Within(g: Graph, roots: set<Id>, k: nat, x: Id) {
    if k == 0 then x in roots
    else Within(g, roots, k - 1, x) || exists y :: (y, x) in g && Within(g, roots, k - 1, y)
  }

  /** x is exactly k hops from the nearest root. */
  ghost predicate Depth(g: Graph, roots: set<Id>, x: Id, k: nat) {
    Within(g, roots, k, x) && forall j: nat :: j < k ==> !Within(g, roots, j, x)
  }

  ghost predicate Reachable(g: Graph, roots: set<Id>, x: Id) {
    exists k: nat :: Within(g, roots, k, x)
  }

  /** A parent is adjacent over a live link and exactly one hop nearer to its nearest root. */
  ghost predicate Upstream(g: Graph, roots: set<Id>, x: Id, parent: Id) {
    (parent, x) in g && exists k: nat :: Depth(g, roots, parent, k) && Depth(g, roots, x, k + 1)
  }

  /** Exactly the reachable devices that are no roots have a parent. */
  ghost predicate IsTree(g: Graph, roots: set<Id>, parents: map<Id, Id>) {
    && (forall x :: x in parents <==> x !in roots && Reachable(g, roots, x))
    && (forall x <- parents :: Upstream(g, roots, x, parents[x]))
  }

  type Adjacency = map<Id, seq<Id>>

  function Neighbours(adj: Adjacency, x: Id): seq<Id> {
    if x in adj then adj[x] else []
  }

  ghost predicate Lists(adj: Adjacency, g: Graph) {
    forall x: Id, y: Id :: y in Neighbours(adj, x) <==> (x, y) in g
  }

  function Ordered(s: set<Id>): (r: seq<Id>)
    ensures forall x: Id :: x in r <==> x in s
    ensures forall i, j :: 0 <= i < j < |r| ==> r[i] < r[j]
  {
    var r := Sorted(s);
    assert forall i :: 0 <= i < |r| ==> r[i] in r;
    r
  }

  /** The neighbours of a device in order; a parallel link lists a neighbour twice, once is enough. */
  function InOrder(adj: Adjacency, x: Id): (r: seq<Id>)
    ensures forall y: Id :: y in r <==> y in Neighbours(adj, x)
  {
    Ordered(set n <- Neighbours(adj, x))
  }

  lemma {:induction false} HeadTail(s: seq<Id>)
    requires s != []
    ensures s == [s[0]] + s[1..]
  {
  }

  lemma {:induction false} ListsMore(adj: Adjacency, g: Graph, x: Id, y: Id)
    requires Lists(adj, g)
    ensures Lists(adj[x := Neighbours(adj, x) + [y]], g + {(x, y)})
  {
    var adj' := adj[x := Neighbours(adj, x) + [y]];
    forall u: Id, v: Id ensures v in Neighbours(adj', u) <==> (u, v) in g + {(x, y)} {
      assert v in Neighbours(adj, u) <==> (u, v) in g;
    }
  }

  lemma {:induction false} OneMoreLink(links: seq<Link>, i: nat)
    requires i < |links|
    ensures var l, g := links[i], Edges(links[..i]);
      Edges(links[..i + 1]) == if Live(l) then g + {(l.a, l.b)} + {(l.b, l.a)} else g
  {
    assert links[..i + 1] == links[..i] + [links[i]];
  }

  method Adjacencies(links: seq<Link>) returns (adj: Adjacency)
    ensures Lists(adj, Edges(links))
    ensures forall x: Id, y: Id :: y in Neighbours(adj, x) <==> Joined(links, x, y)
  {
    adj := map[];
    for i := 0 to |links|
      invariant Lists(adj, Edges(links[..i]))
    {
      var l := links[i];
      OneMoreLink(links, i);
      if Live(l) {
        ListsMore(adj, Edges(links[..i]), l.a, l.b);
        adj := adj[l.a := Neighbours(adj, l.a) + [l.b]];
        ListsMore(adj, Edges(links[..i]) + {(l.a, l.b)}, l.b, l.a);
        adj := adj[l.b := Neighbours(adj, l.b) + [l.a]];
      }
    }
    assert links[..|links|] == links;
    forall x: Id, y: Id ensures y in Neighbours(adj, x) <==> Joined(links, x, y) { EdgeIff(links, x, y); }
  }

  // ---- the search -----------------------------------------------------------------------------

  /** The search so far: parents found, known devices with their depths, devices to look at next. */
  datatype Front = Front(parents: map<Id, Id>, dist: map<Id, nat>, queue: seq<Id>)

  /** `n` is seen from `cur`. */
  function See(f: Front, cur: Id, n: Id): Front
    requires cur in f.dist
  {
    if n in f.dist then f
    else Front(f.parents[n := cur], f.dist[n := f.dist[cur] + 1], f.queue + [n])
  }

  function SeeAll(f: Front, cur: Id, ns: seq<Id>): (r: Front)
    requires cur in f.dist
    ensures f.dist.Keys <= r.dist.Keys
    decreases |ns|
  {
    if ns == [] then f else SeeAll(See(f, cur, ns[0]), cur, ns[1..])
  }

  /** Depths that grow by one along the parent relation, from the roots down. */
  ghost predicate Labelled(g: Graph, roots: set<Id>, parents: map<Id, Id>, dist: map<Id, nat>) {
    && roots <= dist.Keys && parents.Keys == dist.Keys - roots
    && (forall r <- roots :: dist[r] == 0)
    && (forall x <- parents :: parents[x] in dist && dist[x] == dist[parents[x]] + 1 && (parents[x], x) in g)
  }

  /** The queue holds known devices, nearest first, none nearer than d; no known device is further
      than d + 1. */
  ghost predicate Frontier(queue: seq<Id>, dist: map<Id, nat>, d: nat) {
    && (forall i :: 0 <= i < |queue| ==> queue[i] in dist && d <= dist[queue[i]])
    && (forall i, j :: 0 <= i < j < |queue| ==> dist[queue[i]] <= dist[queue[j]])
    && (forall x <- dist :: dist[x] <= d + 1)
  }

  /** A device whose neighbours are all known. */
  ghost predicate Explored(g: Graph, dist: map<Id, nat>, x: Id) {
    x in dist && forall y: Id :: (x, y) in g ==> y in dist && dist[y] <= dist[x] + 1
  }

  ghost predicate Searched(g: Graph, queue: seq<Id>, dist: map<Id, nat>) {
    forall x <- dist :: x in queue || Explored(g, dist, x)
  }

  /** The state of the search while the neighbours of `cur` are looked at, */
  ghost predicate Looking(g: Graph, roots: set<Id>, f: Front, cur: Id) {
    && Labelled(g, roots, f.parents, f.dist) && Searched(g, [cur] + f.queue, f.dist)
    && cur in f.dist && Frontier(f.queue, f.dist, f.dist[cur])
  }

  /** and before and after. */
  ghost predicate Between(g: Graph, roots: set<Id>, f: Front) {
    && Labelled(g, roots, f.parents, f.dist) && Searched(g, f.queue, f.dist)
    && (f.queue != [] ==> f.queue[0] in f.dist && Frontier(f.queue, f.dist, f.dist[f.queue[0]]))
  }

  lemma {:induction false} FrontierGrows(queue: seq<Id>, dist: map<Id, nat>, d: nat, n: Id)
    requires Frontier(queue, dist, d) && n !in dist
    ensures Frontier(queue + [n], dist[n := d + 1], d)
  {
  }

  lemma {:induction false} SearchedGrows(g: Graph, queue: seq<Id>, dist: map<Id, nat>, cur: Id, n: Id, d: nat)
    requires Searched(g, [cur] + queue, dist) && n !in dist
    ensures Searched(g, [cur] + (queue + [n]), dist[n := d])
  {
    var dist' := dist[n := d];
    forall x <- dist' ensures x in [cur] + (queue + [n]) || Explored(g, dist', x) {
      if x in dist && x !in [cur] + queue { assert Explored(g, dist, x); }
    }
  }

  /** A device comes into view one hop behind the one it is seen from. */
  lemma {:induction false} SeeKeeps(g: Graph, roots: set<Id>, f: Front, cur: Id, n: Id)
    requires Looking(g, roots, f, cur) && (cur, n) in g
    ensures Looking(g, roots, See(f, cur, n), cur) && n in See(f, cur, n).dist
  {
    if n !in f.dist {
      FrontierGrows(f.queue, f.dist, f.dist[cur], n);
      SearchedGrows(g, f.queue, f.dist, cur, n, f.dist[cur] + 1);
    }
  }

  lemma {:induction false} SeeAllKeeps(g: Graph, roots: set<Id>, f: Front, cur: Id, ns: seq<Id>)
    requires Looking(g, roots, f, cur) && forall i :: 0 <= i < |ns| ==> (cur, ns[i]) in g
    ensures Looking(g, roots, SeeAll(f, cur, ns), cur)
    ensures forall i :: 0 <= i < |ns| ==> ns[i] in SeeAll(f, cur, ns).dist
    decreases |ns|
  {
    if ns != [] {
      SeeKeeps(g, roots, f, cur, ns[0]);
      SeeAllKeeps(g, roots, See(f, cur, ns[0]), cur, ns[1..]);
      assert forall i :: 0 < i < |ns| ==> ns[i] == ns[1..][i - 1];
    }
  }

  /** Once all neighbours are known, the device leaves the queue. */
  lemma {:induction false} Leave(g: Graph, roots: set<Id>, f: Front, cur: Id)
    requires Looking(g, roots, f, cur) && forall y: Id :: (cur, y) in g ==> y in f.dist
    ensures Between(g, roots, f)
  {
    assert Explored(g, f.dist, cur);
    forall x <- f.dist ensures x in f.queue || Explored(g, f.dist, x) {
      if x !in f.queue && x != cur { assert x !in [cur] + f.queue; }
    }
  }

  /** A turn of the outer loop. */
  function Round(f: Front, adj: Adjacency): Front
    requires f.queue != [] && f.queue[0] in f.dist
  {
    SeeAll(f.(queue := f.queue[1..]), f.queue[0], InOrder(adj, f.queue[0]))
  }

  lemma {:induction false} RoundKeeps(g: Graph, roots: set<Id>, f: Front, adj: Adjacency)
    requires Between(g, roots, f) && f.queue != [] && Lists(adj, g)
    ensures Between(g, roots, Round(f, adj))
  {
    var cur, ns := f.queue[0], InOrder(adj, f.queue[0]);
    HeadTail(f.queue);
    forall i | 0 <= i < |ns| ensures (cur, ns[i]) in g {
      assert ns[i] in ns;
    }
    SeeAllKeeps(g, roots, f.(queue := f.queue[1..]), cur, ns);
    Leave(g, roots, Round(f, adj), cur);
  }

  /** The search only moves towards link ends, and the queue shrinks when it finds nothing new. */
  lemma {:induction false} SeeAllBounded(f: Front, cur: Id, ns: seq<Id>, all: set<Id>)
    requires cur in f.dist && f.dist.Keys <= all && forall i :: 0 <= i < |ns| ==> ns[i] in all
    ensures SeeAll(f, cur, ns).dist.Keys <= all
    ensures SeeAll(f, cur, ns).dist.Keys == f.dist.Keys ==> SeeAll(f, cur, ns).queue == f.queue
    decreases |ns|
  {
    if ns != [] { SeeAllBounded(See(f, cur, ns[0]), cur, ns[1..], all); }
  }

  ghost function Ends(g: Graph): set<Id> {
    set e <- g :: e.1
  }

  lemma {:induction false} Fewer(all: set<Id>, before: set<Id>, after: set<Id>)
    requires before <= after <= all
    ensures |all - after| <= |all - before| && (|all - after| == |all - before| ==> after == before)
  {
    assert all - before == (all - after) + (after - before);
  }

  lemma {:induction false} RoundDecreases(g: Graph, f: Front, adj: Adjacency, all: set<Id>)
    requires f.queue != [] && f.queue[0] in f.dist && Lists(adj, g) && f.dist.Keys <= all && Ends(g) <= all
    ensures var f' := Round(f, adj);
      && f'.dist.Keys <= all
      && (|all - f'.dist.Keys| < |all - f.dist.Keys|
          || (|all - f'.dist.Keys| == |all - f.dist.Keys| && |f'.queue| < |f.queue|))
  {
    var cur, ns, f' := f.queue[0], InOrder(adj, f.queue[0]), Round(f, adj);
    forall i | 0 <= i < |ns| ensures ns[i] in all {
      assert ns[i] in ns;
      assert (cur, ns[i]) in g;
    }
    SeeAllBounded(f.(queue := f.queue[1..]), cur, ns, all);
    Fewer(all, f.dist.Keys, f'.dist.Keys);
  }

  ghost function Beginning(roots: set<Id>, queue: seq<Id>): Front {
    Front(map[], map r <- roots :: 0, queue)
  }

  lemma {:induction false} StartsBetween(g: Graph, roots: set<Id>, queue: seq<Id>)
    requires forall x: Id :: x in queue <==> x in roots
    ensures Between(g, roots, Beginning(roots, queue))
  {
    var f := Beginning(roots, queue);
    forall i | 0 <= i < |f.queue| ensures f.queue[i] in f.dist {
      assert f.queue[i] in f.queue;
    }
  }

  /** What the code keeps of the search: parents, a visited set, a queue. */
  ghost predicate Shows(f: Front, parents: map<Id, Id>, visited: set<Id>, queue: seq<Id>) {
    f.parents == parents && f.dist.Keys == visited && f.queue == queue
  }

  /** The inner loop. */
  method Visit(ghost f: Front, ns: seq<Id>, cur: Id, parents: map<Id, Id>, visited: set<Id>, queue: seq<Id>)
    returns (parents': map<Id, Id>, visited': set<Id>, queue': seq<Id>)
    requires Shows(f, parents, visited, queue) && cur in visited
    ensures Shows(SeeAll(f, cur, ns), parents', visited', queue')
  {
    parents', visited', queue' := parents, visited, queue;
    ghost var now := f;
    for i := 0 to |ns|
      invariant Shows(now, parents', visited', queue') && cur in visited'
      invariant SeeAll(now, cur, ns[i..]) == SeeAll(f, cur, ns)
    {
      var n := ns[i];
      assert ns[i..][0] == n && ns[i..][1..] == ns[i + 1..];
      now := See(now, cur, n);
      if n !in visited' {
        visited' := visited' + {n};
        parents' := parents'[n := cur];
        queue' := queue' + [n];
      }
    }
  }

  /** The roots are visited and queued in any order: the source ranges over a map. */
  method QueueRoots(roots: set<Id>) returns (visited: set<Id>, queue: seq<Id>)
    ensures visited == roots && forall x: Id :: x in queue <==> x in roots
  {
    visited, queue := {}, [];
    var todo := roots;
    while todo != {}
      invariant visited == roots - todo && todo <= roots
      invariant forall x: Id :: x in queue <==> x in visited
    {
      var r: Id :| r in todo;
      visited := visited + {r};
      queue := queue + [r];
      todo := todo - {r};
    }
  }

  /** No device is nearer than its label says. */
  lemma {:induction false} NotNearer(g: Graph, roots: set<Id>, parents: map<Id, Id>, dist: map<Id, nat>, k: nat, x: Id)
    requires Labelled(g, roots, parents, dist) && Searched(g, [], dist) && Within(g, roots, k, x)
    ensures x in dist && dist[x] <= k
  {
    if k > 0 {
      if Within(g, roots, k - 1, x) {
        NotNearer(g, roots, parents, dist, k - 1, x);
      } else {
        var y :| (y, x) in g && Within(g, roots, k - 1, y);
        NotNearer(g, roots, parents, dist, k - 1, y);
        assert Explored(g, dist, y);
      }
    }
  }

  /** Every labelled device is as near as its label says. */
  lemma {:induction false} AsNear(g: Graph, roots: set<Id>, parents: map<Id, Id>, dist: map<Id, nat>, x: Id)
    requires Labelled(g, roots, parents, dist) && x in dist
    ensures Within(g, roots, dist[x], x)
    decreases dist[x]
  {
    if x !in roots { AsNear(g, roots, parents, dist, parents[x]); }
  }

  lemma {:induction false} LabelIsDepth(g: Graph, roots: set<Id>, parents: map<Id, Id>, dist: map<Id, nat>, x: Id)
    requires Labelled(g, roots, parents, dist) && Searched(g, [], dist) && x in dist
    ensures Depth(g, roots, x, dist[x])
  {
    AsNear(g, roots, parents, dist, x);
    forall j: nat | j < dist[x] ensures !Within(g, roots, j, x) {
      if Within(g, roots, j, x) { NotNearer(g, roots, parents, dist, j, x); }
    }
  }

  lemma {:induction false} TreeFromLabels(g: Graph, roots: set<Id>, parents: map<Id, Id>, dist: map<Id, nat>)
    requires Labelled(g, roots, parents, dist) && Searched(g, [], dist)
    ensures IsTree(g, roots, parents)
  {
    forall x ensures x in parents <==> x !in roots && Reachable(g, roots, x) {
      if x in parents {
        AsNear(g, roots, parents, dist, x);
      } else if Reachable(g, roots, x) {
        var k: nat :| Within(g, roots, k, x);
        NotNearer(g, roots, parents, dist, k, x);
      }
    }
    forall x <- parents ensures Upstream(g, roots, x, parents[x]) {
      LabelIsDepth(g, roots, parents, dist, parents[x]);
      LabelIsDepth(g, roots, parents, dist, x);
    }
  }

  /** The outer loop, until the queue is empty. */
  method Search(ghost g: Graph, adj: Adjacency, roots: set<Id>) returns (parents: map<Id, Id>)
    requires Lists(adj, g)
    ensures IsTree(g, roots, parents)
  {
    parents := map[];
    var visited, queue := QueueRoots(roots);
    ghost var f, all := Beginning(roots, queue), roots + Ends(g);
    StartsBetween(g, roots, queue);
    while queue != []
      invariant Between(g, roots, f) && Shows(f, parents, visited, queue) && visited <= all
      decreases |all - visited|, |queue|
    {
      var cur := queue[0];
      RoundKeeps(g, roots, f, adj);
      RoundDecreases(g, f, adj, all);
      parents, visited, queue := Visit(f.(queue := queue[1..]), InOrder(adj, cur), cur, parents, visited, queue[1..]);
      f := Round(f, adj);
    }
    TreeFromLabels(g, roots, parents, f.dist);
  }
}
