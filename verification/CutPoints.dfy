/**
 * When the upstream tree tells single points of failure: whoever is cut off by the loss of a device is
 * below it in the tree; everybody below it is cut off exactly when no link leads around it.
 */
module CutPoints {
  import opened UpstreamTree
  import opened Impact

  ghost function Without(g: Graph, gone: Id): Graph {
    set e <- g | e.0 != gone && e.1 != gone
  }

  ghost predicate Symmetric(g: Graph) {
    forall e <- g :: (e.1, e.0) in g
  }

  lemma {:induction false} EdgesAreSymmetric(links: seq<Link>)
    ensures Symmetric(Edges(links))
  {
  }

  // ---- ways upstream --------------------------------------------------------------------------

  lemma {:induction false} OneHopMore(g: Graph, roots: set<Id>, y: Id, x: Id)
    requires Reachable(g, roots, y) && (y, x) in g
    ensures Reachable(g, roots, x)
  {
    var k: nat :| Within(g, roots, k, y);
    assert Within(g, roots, k + 1, x);
  }

  /** A device whose way upstream does not pass p is reachable without p. */
  lemma {:induction false} WayAround(g: Graph, roots: set<Id>, parents: Parents, p: Id, x: Id, hops: nat)
    requires IsTree(g, roots, parents) && Depth(g, roots, x, hops) && x != p && !Below(parents, p, x)
    ensures Reachable(Without(g, p), roots, x)
    decreases hops
  {
    if x in roots {
      assert Within(Without(g, p), roots, 0, x);
    } else {
      assert Reachable(g, roots, x);
      var y := parents[x];
      assert Upstream(g, roots, x, y);
      var k: nat :| Depth(g, roots, y, k) && Depth(g, roots, x, k + 1);
      if y == p || Below(parents, p, y) { ChildIsBelow(parents, p, x); }
      assert k + 1 == hops;
      WayAround(g, roots, parents, p, y, k);
      OneHopMore(Without(g, p), roots, y, x);
    }
  }

  lemma {:induction false} SomeDepth(g: Graph, roots: set<Id>, x: Id, k: nat) returns (d: nat)
    requires Within(g, roots, k, x)
    ensures Depth(g, roots, x, d)
  {
    if j: nat :| j < k && Within(g, roots, j, x) {
      d := SomeDepth(g, roots, x, j);
    } else {
      d := k;
    }
  }

  lemma {:induction false} ReachableAround(g: Graph, roots: set<Id>, parents: Parents, p: Id, x: Id)
    requires IsTree(g, roots, parents) && Reachable(g, roots, x) && x != p && !Below(parents, p, x)
    ensures Reachable(Without(g, p), roots, x)
  {
    var k: nat :| Within(g, roots, k, x);
    var d := SomeDepth(g, roots, x, k);
    WayAround(g, roots, parents, p, x, d);
  }

  /** Whoever is cut off by the loss of p is below p, in every upstream tree. */
  lemma {:induction false} CutOffIsBelow(g: Graph, roots: set<Id>, parents: Parents, p: Id, x: Id)
    requires IsTree(g, roots, parents) && x in parents && x != p && !Reachable(Without(g, p), roots, x)
    ensures Below(parents, p, x)
  {
    if !Below(parents, p, x) { ReachableAround(g, roots, parents, p, x); }
  }

  // ---- when everybody below is cut off --------------------------------------------------------

  /** No link leads from the devices below p to one that is neither below p nor p. */
  ghost predicate Enclosed(g: Graph, parents: Parents, p: Id) {
    forall x: Id, y: Id :: Below(parents, p, x) && (x, y) in g ==> y == p || Below(parents, p, y)
  }

  lemma {:induction false} BelowHasParent(parents: Parents, p: Id, x: Id)
    requires Below(parents, p, x)
    ensures x in parents
  {
    var n: nat :| n > 0 && Up(parents, x, n) == (true, p);
  }

  /** No way leads into a part that holds no root and has no link from outside. */
  lemma {:induction false} NoWayIn(h: Graph, roots: set<Id>, part: set<Id>, x: Id, k: nat)
    requires part !! roots && (forall e <- h :: e.1 in part ==> e.0 in part) && x in part
    ensures !Within(h, roots, k, x)
    decreases k
  {
    if k > 0 {
      NoWayIn(h, roots, part, x, k - 1);
      forall y: Id | (y, x) in h ensures !Within(h, roots, k - 1, y) {
        NoWayIn(h, roots, part, y, k - 1);
      }
    }
  }

  lemma {:induction false} EnclosedPart(g: Graph, roots: set<Id>, parents: Parents, p: Id)
    requires IsTree(g, roots, parents) && Symmetric(g) && Enclosed(g, parents, p)
    ensures Downstream(parents, p) !! roots
    ensures forall e <- Without(g, p) :: e.1 in Downstream(parents, p) ==> e.0 in Downstream(parents, p)
  {
    forall e <- Without(g, p) | e.1 in Downstream(parents, p) ensures e.0 in Downstream(parents, p) {
      assert (e.1, e.0) in g;
      BelowHasParent(parents, p, e.0);
    }
  }

  /** A link around p keeps somebody below p reachable. */
  lemma {:induction false} LinkAround(g: Graph, roots: set<Id>, parents: Parents, p: Id, x: Id, y: Id)
    requires IsTree(g, roots, parents) && Symmetric(g) && Acyclic(parents)
    requires Below(parents, p, x) && (x, y) in g && y != p && !Below(parents, p, y)
    ensures Reachable(Without(g, p), roots, x)
  {
    BelowHasParent(parents, p, x);
    OneHopMore(g, roots, x, y);
    ReachableAround(g, roots, parents, p, y);
    assert x != p;
    OneHopMore(Without(g, p), roots, y, x);
  }

  /** The loss of a device cuts off exactly those below it when no link leads around it,
      and otherwise leaves some of them reachable. */
  lemma {:induction false} BelowIsCutOffIff(g: Graph, roots: set<Id>, parents: Parents, p: Id)
    requires IsTree(g, roots, parents) && Symmetric(g)
    ensures (forall x <- Downstream(parents, p) :: !Reachable(Without(g, p), roots, x)) <==> Enclosed(g, parents, p)
  {
    TreeIsAcyclic(g, roots, parents);
    if Enclosed(g, parents, p) {
      EnclosedPart(g, roots, parents, p);
      forall x <- Downstream(parents, p) ensures !Reachable(Without(g, p), roots, x) {
        forall k: nat ensures !Within(Without(g, p), roots, k, x) {
          NoWayIn(Without(g, p), roots, Downstream(parents, p), x, k);
        }
      }
    } else {
      var x: Id, y: Id :| Below(parents, p, x) && (x, y) in g && y != p && !Below(parents, p, y);
      LinkAround(g, roots, parents, p, x, y);
      BelowHasParent(parents, p, x);
      assert x in Downstream(parents, p);
    }
  }

  // ---- a diamond ------------------------------------------------------------------------------

  const DIAMOND: seq<Link> :=
    [Link(1, 2, false, false), Link(1, 3, false, false), Link(2, 4, false, false), Link(3, 4, false, false)]

  lemma {:induction false} TwoHops(g: Graph, mid: Id)
    requires (1, mid) in g && (mid, 4) in g
    ensures Reachable(g, {1}, 4)
  {
    assert Within(g, {1}, 0, 1);
    assert Within(g, {1}, 1, mid);
    assert Within(g, {1}, 2, 4);
  }

  /** With two ways to the root, the device hangs on one of them in the tree, and stays reachable when
      that parent is gone: the search finds a nearest neighbour, not a single point of failure. */
  lemma {:induction false} ParentIsNotACutPoint(parents: map<Id, Id>)
    requires IsTree(Edges(DIAMOND), {1}, parents)
    ensures 4 in parents && Reachable(Without(Edges(DIAMOND), parents[4]), {1}, 4)
  {
    var g := Edges(DIAMOND);
    assert DIAMOND[0] in DIAMOND && DIAMOND[1] in DIAMOND && DIAMOND[2] in DIAMOND && DIAMOND[3] in DIAMOND;
    assert (1, 2) in g && (1, 3) in g && (2, 4) in g && (3, 4) in g;
    TwoHops(g, 2);
    var p := parents[4];
    assert Upstream(g, {1}, 4, p);
    assert p == 2 || p == 3;
    TwoHops(Without(g, p), if p == 2 then 3 else 2);
  }
}
