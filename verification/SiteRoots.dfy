/** Where the upstream search starts: the configured root, and the most central device of every site. */
module SiteRoots {
  import opened Wrappers
  import opened UpstreamTree

  datatype Role = Core | Router | Firewall | Distribution | Access | Other

  datatype Device = Device(id: Id, site: Id, role: Role)

  function Rank(r: Role): int {
    match r
    case Core => 4
    case Router => 3
    case Firewall => 3
    case Distribution => 2
    case Access => 1
    case Other => 0
  }

  /** a goes before b as a root: a higher role, or the same role and more links. */
  predicate Beats(adj: Adjacency, a: Device, b: Device) {
    Rank(a.role) > Rank(b.role)
    || (Rank(a.role) == Rank(b.role) && |Neighbours(adj, a.id)| > |Neighbours(adj, b.id)|)
  }

  /** Nothing beats it, and it beats everything listed before it. */
  ghost predicate Chosen(adj: Adjacency, ds: seq<Device>, i: nat) {
    && i < |ds|
    && (forall j :: 0 <= j < |ds| ==> !Beats(adj, ds[j], ds[i]))
    && (forall j :: 0 <= j < i ==> Beats(adj, ds[i], ds[j]))
  }

  lemma {:induction false} ChosenIsUnique(adj: Adjacency, ds: seq<Device>, i: nat, j: nat)
    requires Chosen(adj, ds, i) && Chosen(adj, ds, j)
    ensures i == j
  {
    assert !Beats(adj, ds[j], ds[i]) && !Beats(adj, ds[i], ds[j]);
  }

  method PickRoot(adj: Adjacency, ds: seq<Device>) returns (best: nat)
    requires ds != []
    ensures Chosen(adj, ds, best)
  {
    best := 0;
    for i := 1 to |ds|
      invariant best < i
      invariant forall j :: 0 <= j < i ==> !Beats(adj, ds[j], ds[best])
      invariant forall j :: 0 <= j < best ==> Beats(adj, ds[best], ds[j])
    {
      if Beats(adj, ds[i], ds[best]) {
        best := i;
      }
    }
  }

  function OfSite(devices: seq<Device>, site: Id): (ds: seq<Device>)
    ensures ds != [] <==> exists d <- devices :: d.site == site
  {
    if devices == [] then []
    else (if devices[0].site == site then [devices[0]] else []) + OfSite(devices[1..], site)
  }

  /** r is the root of a site: chosen among its devices, and linked. */
  ghost predicate RootOf(adj: Adjacency, devices: seq<Device>, site: Id, r: Id) {
    var ds := OfSite(devices, site);
    Neighbours(adj, r) != [] && exists i: nat :: Chosen(adj, ds, i) && ds[i].id == r
  }

  ghost predicate AreRoots(adj: Adjacency, devices: seq<Device>, configured: Option<Id>, roots: set<Id>) {
    forall r: Id :: r in roots <==> configured == Some(r) || exists site: Id :: RootOf(adj, devices, site, r)
  }

  lemma {:induction false} PickedIsRoot(adj: Adjacency, devices: seq<Device>, site: Id, best: nat, r: Id)
    requires Chosen(adj, OfSite(devices, site), best)
    ensures RootOf(adj, devices, site, r) <==> r == OfSite(devices, site)[best].id && Neighbours(adj, r) != []
  {
    var ds := OfSite(devices, site);
    if RootOf(adj, devices, site, r) {
      var i: nat :| Chosen(adj, ds, i) && ds[i].id == r;
      ChosenIsUnique(adj, ds, i, best);
    }
  }

  lemma {:induction false} NoOtherSite(adj: Adjacency, devices: seq<Device>, sites: set<Id>, site: Id, r: Id)
    requires sites == (set d <- devices :: d.site) && site !in sites
    ensures !RootOf(adj, devices, site, r)
  {
    assert OfSite(devices, site) == [];
  }

  /** Sites in any order. */
  method ChooseRoots(adj: Adjacency, devices: seq<Device>, configured: Option<Id>) returns (roots: set<Id>)
    ensures AreRoots(adj, devices, configured, roots)
  {
    roots := if configured.Some? then {configured.value} else {};
    var sites := set d <- devices :: d.site;
    var todo := sites;
    while todo != {}
      invariant todo <= sites
      invariant forall r: Id ::
        r in roots <==> (configured == Some(r) || exists s: Id :: s in sites - todo && RootOf(adj, devices, s, r))
    {
      var site: Id :| site in todo;
      var ds := OfSite(devices, site);
      var best := PickRoot(adj, ds);
      forall r: Id { PickedIsRoot(adj, devices, site, best, r); }
      if Neighbours(adj, ds[best].id) != [] {
        roots := roots + {ds[best].id};
      }
      todo := todo - {site};
    }
    forall site: Id, r: Id | site !in sites ensures !RootOf(adj, devices, site, r) {
      NoOtherSite(adj, devices, sites, site, r);
    }
  }

  /** computeParents as a whole. */
  method ComputeParents(links: seq<Link>, devices: seq<Device>, configured: Option<Id>)
    returns (parents: map<Id, Id>, roots: set<Id>, adj: Adjacency)
    ensures Lists(adj, Edges(links)) && AreRoots(adj, devices, configured, roots)
    ensures IsTree(Edges(links), roots, parents)
    ensures forall x <- parents :: Joined(links, parents[x], x)
  {
    adj := Adjacencies(links);
    roots := ChooseRoots(adj, devices, configured);
    parents := Search(Edges(links), adj, roots);
    forall x <- parents ensures Joined(links, parents[x], x) {
      assert Upstream(Edges(links), roots, x, parents[x]);
      EdgeIff(links, parents[x], x);
    }
  }
}
