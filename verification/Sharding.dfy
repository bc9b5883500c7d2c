/**
 * Sharding: every device goes to one live node, its site's pin if that node lives, else the node with
 * the highest hash for the device.  The hash is any function; nodes and devices are only compared.
 */
module Sharding {
  type Node = nat
  type Device = nat

  datatype Unit = Unit(id: Device, site: nat)

  type Hash = (Node, Device) -> nat

  /** Node a is preferred to b: a higher hash, or the same hash and the smaller id. */
  predicate Preferred(h: Hash, d: Device, a: Node, b: Node) {
    h(a, d) > h(b, d) || (h(a, d) == h(b, d) && a < b)
  }

  ghost predicate Best(h: Hash, d: Device, live: set<Node>, t: Node) {
    t in live && forall x <- live :: x == t || Preferred(h, d, t, x)
  }

  ghost function Nodes(live: seq<Node>): set<Node> {
    set x <- live :: x
  }

  ghost predicate Ascending(s: seq<Node>) {
    forall i, j :: 0 <= i < j < |s| ==> s[i] < s[j]
  }

  /** The source's loop: nodes in ascending order, replaced only by a strictly higher hash. */
  method Rendezvous(h: Hash, d: Device, live: seq<Node>) returns (t: Node)
    requires live != [] && Ascending(live)
    ensures Best(h, d, Nodes(live), t)
    ensures t in live && forall x <- live :: h(x, d) < h(t, d) || (h(x, d) == h(t, d) && t <= x)
  {
    t := live[0];
    var best := h(t, d);
    for i := 1 to |live|
      invariant best == h(t, d) && exists k :: 0 <= k < i && t == live[k]
      invariant forall j :: 0 <= j < i ==> live[j] == t || Preferred(h, d, t, live[j])
    {
      if h(live[i], d) > best {
        t, best := live[i], h(live[i], d);
      }
    }
    assert t in live;
    forall x <- Nodes(live) ensures x == t || Preferred(h, d, t, x) {
      var j :| 0 <= j < |live| && live[j] == x;
    }
  }

  type Pins = map<nat, Node>

  ghost predicate Target(h: Hash, pins: Pins, live: set<Node>, d: Unit, t: Node) {
    if d.site in pins && pins[d.site] in live then t == pins[d.site] else Best(h, d.id, live, t)
  }

  lemma {:induction false} TargetIsUnique(h: Hash, pins: Pins, live: set<Node>, d: Unit, s: Node, t: Node)
    requires Target(h, pins, live, d, s) && Target(h, pins, live, d, t)
    ensures s == t
  {
  }

  type Assignment = map<Node, seq<Device>>

  function Held(a: Assignment, t: Node): seq<Device> {
    if t in a then a[t] else []
  }

  /** The devices of a list that go to t. */
  ghost function Share(h: Hash, pins: Pins, live: set<Node>, devices: seq<Unit>, t: Node): seq<Device> {
    if devices == [] then []
    else
      var init, d := devices[..|devices| - 1], devices[|devices| - 1];
      Share(h, pins, live, init, t) + if Target(h, pins, live, d, t) then [d.id] else []
  }

  /** One more device goes to its target and nowhere else. */
  lemma {:induction false} ShareMore(h: Hash, pins: Pins, live: set<Node>, devices: seq<Unit>, i: nat, t: Node, s: Node)
    requires i < |devices| && Target(h, pins, live, devices[i], t)
    ensures Share(h, pins, live, devices[..i + 1], s)
         == Share(h, pins, live, devices[..i], s) + if s == t then [devices[i].id] else []
  {
    assert devices[..i + 1][..i] == devices[..i];
    if Target(h, pins, live, devices[i], s) { TargetIsUnique(h, pins, live, devices[i], s, t); }
  }

  method PickTarget(h: Hash, pins: Pins, live: seq<Node>, d: Unit) returns (t: Node)
    requires live != [] && Ascending(live)
    ensures Target(h, pins, Nodes(live), d, t)
  {
    if d.site in pins && pins[d.site] in live {
      return pins[d.site];
    }
    t := Rendezvous(h, d.id, live);
  }

  /** Every node holds exactly the devices that target it, in order. */
  ghost predicate Shares(assign: Assignment, h: Hash, pins: Pins, live: set<Node>, devices: seq<Unit>) {
    forall t: Node :: Held(assign, t) == Share(h, pins, live, devices, t)
  }

  lemma {:induction false} AssignOne(assign: Assignment, h: Hash, pins: Pins, live: set<Node>, devices: seq<Unit>,
                                     i: nat, t: Node)
    requires i < |devices| && Target(h, pins, live, devices[i], t) && Shares(assign, h, pins, live, devices[..i])
    ensures Shares(assign[t := Held(assign, t) + [devices[i].id]], h, pins, live, devices[..i + 1])
  {
    var assign' := assign[t := Held(assign, t) + [devices[i].id]];
    forall s: Node ensures Held(assign', s) == Share(h, pins, live, devices[..i + 1], s) {
      assert Held(assign, s) == Share(h, pins, live, devices[..i], s);
      ShareMore(h, pins, live, devices, i, t, s);
    }
  }

  method Reshard(h: Hash, pins: Pins, live: seq<Node>, devices: seq<Unit>) returns (assign: Assignment)
    requires live != [] && Ascending(live)
    ensures Shares(assign, h, pins, Nodes(live), devices)
  {
    assign := map[];
    for i := 0 to |devices|
      invariant Shares(assign, h, pins, Nodes(live), devices[..i])
    {
      var t := PickTarget(h, pins, live, devices[i]);
      AssignOne(assign, h, pins, Nodes(live), devices, i, t);
      assign := assign[t := Held(assign, t) + [devices[i].id]];
    }
    assert devices[..|devices|] == devices;
  }

  // ---- what changes of membership move --------------------------------------------------------

  lemma {:induction false} SomeBest(h: Hash, d: Device, live: set<Node>) returns (t: Node)
    requires live != {}
    ensures Best(h, d, live, t)
    decreases |live|
  {
    var x: Node :| x in live;
    var rest := live - {x};
    if rest == {} {
      assert live == {x};
      t := x;
    } else {
      var s := SomeBest(h, d, rest);
      t := if Preferred(h, d, x, s) then x else s;
      assert live == rest + {x};
    }
  }

  ghost predicate PinnedOrHighest(h: Hash, pins: Pins, live: set<Node>, d: Unit, t: Node) {
    if d.site in pins && pins[d.site] in live then t == pins[d.site]
    else forall x <- live :: h(x, d.id) < h(t, d.id) || (h(x, d.id) == h(t, d.id) && t <= x)
  }

  /** Every device has a target among the live nodes, and only one: its site's pin if that lives, else of the
      live nodes with the highest hash for it the one with the smallest id. */
  lemma {:induction false} ExactlyOneTarget(h: Hash, pins: Pins, live: set<Node>, d: Unit)
    requires live != {}
    ensures exists t :: (
      t in live && Target(h, pins, live, d, t) && PinnedOrHighest(h, pins, live, d, t)
      && forall s :: Target(h, pins, live, d, s) ==> s == t)
  {
    var t;
    if d.site in pins && pins[d.site] in live {
      t := pins[d.site];
    } else {
      t := SomeBest(h, d.id, live);
    }
    assert Target(h, pins, live, d, t);
    forall s | Target(h, pins, live, d, s) ensures s == t { TargetIsUnique(h, pins, live, d, s, t); }
  }

  /** A node that joins takes devices only onto itself. */
  lemma {:induction false} JoinMovesOntoNewcomer(h: Hash, pins: Pins, live: set<Node>, d: Unit, n: Node, t: Node,
                                                 t': Node)
    requires Target(h, pins, live, d, t) && Target(h, pins, live + {n}, d, t') && t in live
    ensures t' == t || t' == n
  {
  }

  /** A node that leaves gives away only what it held. */
  lemma {:induction false} LeaveMovesOnlyItsOwn(h: Hash, pins: Pins, live: set<Node>, d: Unit, n: Node, t: Node,
                                                t': Node)
    requires Target(h, pins, live, d, t) && Target(h, pins, live - {n}, d, t') && t != n
    requires t in live
    ensures t' == t
  {
    if !(d.site in pins && pins[d.site] in live) {
      assert Best(h, d.id, live - {n}, t);
    }
  }
}
