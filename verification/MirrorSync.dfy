/** A whole sync while the leader stands still, and what becomes of a journal that was re-created. */
module MirrorSync {
  import opened Wrappers
  import opened Bytes
  import opened Mirror

  /** A path is done when the local copy is the leader's file. */
  ghost predicate Same(w: World, p: Path) {
    Get(w.local, p) == if p in w.leader then Some(w.leader[p].content) else None
  }

  function Entry(f: File): Info {
    Info(|f.content|, f.mtime)
  }

  /** The path as a sync that begins now will find it. */
  function Facing(w: World, p: Path): Cell {
    CellAt(w, p).(todo := if p in w.leader then Some(Entry(w.leader[p])) else None)
  }

  /** A path in a sync since `w0`: still to do and as it was, or done and right exactly when it had to
      come out right, or not the leader's and as it was. */
  ghost predicate PathProgress(k: Policy, w0: World, w: World, p: Path) {
    if Working(w, p) then k.only(p) && p in w.leader && CellAt(w, p) == Facing(w0, p)
    else if k.only(p) && p in w0.leader then Same(w, p) <==> ComesRight(k.journal(p), Facing(w0, p))
    else Get(w.local, p) == Get(w0.local, p)
  }

  ghost predicate Progress(k: Policy, w0: World, w: World) {
    && w.leader == w0.leader && w.sync.Some? && w.sync.value.had == w0.local.Keys
    && w.sync.value.seen == Manifest(k, w.leader).Keys
    && forall p: Path :: PathProgress(k, w0, w, p)
  }

  lemma {:induction false} ProgressBegins(k: Policy, w0: World)
    requires w0.sync.None?
    ensures Progress(k, w0, Next(k, w0, Begin))
  {
  }

  /** The source's branch for one entry: skip it or fetch it. */
  function Work(w: World, p: Path): Action {
    if UpToDate(CellAt(w, p)) then Skip(p) else Fetch(p)
  }

  lemma {:induction false} WorkOnOne(k: Policy, w0: World, w: World, p: Path)
    requires Working(w, p) && PathProgress(k, w0, w, p) && w.leader == w0.leader
    ensures Enabled(w, Work(w, p)) && PathProgress(k, w0, Next(k, w, Work(w, p)), p)
  {
    if !UpToDate(CellAt(w, p)) { FetchedIsRemoteIff(k.journal(p), CellAt(w, p)); }
  }

  lemma {:induction false} WorkElsewhere(k: Policy, w0: World, w: World, p: Path, q: Path)
    requires Working(w, p) && p in w.leader && q != p && PathProgress(k, w0, w, q)
    ensures Enabled(w, Work(w, p)) && PathProgress(k, w0, Next(k, w, Work(w, p)), q)
  {
    assert CellAt(Next(k, w, Work(w, p)), q) == CellAt(w, q);
  }

  lemma {:induction false} WorkProgresses(k: Policy, w0: World, w: World, p: Path)
    requires Progress(k, w0, w) && p in w.sync.value.todo
    ensures p in w.leader && Enabled(w, Work(w, p)) && Progress(k, w0, Next(k, w, Work(w, p)))
  {
    assert PathProgress(k, w0, w, p);
    WorkOnOne(k, w0, w, p);
    forall q: Path ensures PathProgress(k, w0, Next(k, w, Work(w, p)), q) {
      assert PathProgress(k, w0, w, q);
      if q != p { WorkElsewhere(k, w0, w, p, q); }
    }
  }

  /** Every mirrored path that the leader has is equal exactly when it had to come out right; the others
      are gone; paths that are not mirrored are untouched. */
  ghost predicate Synced(k: Policy, w0: World, local: Local) {
    forall p: Path ::
      if !k.only(p) then Get(local, p) == Get(w0.local, p)
      else if p !in w0.leader then p !in local
      else Get(local, p) == Some(w0.leader[p].content) <==> ComesRight(k.journal(p), Facing(w0, p))
  }

  lemma {:induction false} FinishSyncs(k: Policy, w0: World, w: World)
    requires Progress(k, w0, w) && w.sync.value.todo == map[]
    ensures Enabled(w, Finish) && Synced(k, w0, Next(k, w, Finish).local)
  {
    var local := Next(k, w, Finish).local;
    forall p: Path
      ensures if !k.only(p) then Get(local, p) == Get(w0.local, p)
        else if p !in w0.leader then p !in local
        else Get(local, p) == Some(w0.leader[p].content) <==> ComesRight(k.journal(p), Facing(w0, p))
    {
      assert PathProgress(k, w0, w, p);
    }
  }

  /** Where no journal was re-created since it was fetched, every mirrored path ends up equal; in
      particular after the leader deleted a journal, and for every file that is no journal. */
  lemma {:induction false} SyncedIsEqual(k: Policy, w0: World, local: Local, p: Path)
    requires Inv(k, w0) && Synced(k, w0, local) && k.only(p)
    requires p in w0.leader ==> Continued(k.journal(p), CellAt(w0, p)) && w0.sync.None?
    ensures Get(local, p) == if p in w0.leader then Some(w0.leader[p].content) else None
  {
    assert CellOk(k.journal(p), w0.clock, CellAt(w0, p));
    if p in w0.leader {
      assert CellOk(k.journal(p), w0.clock, Facing(w0, p));
      ContinuedComesRight(k.journal(p), w0.clock, Facing(w0, p));
    }
  }

  class Standby {
    var local: Local
    var last: Infos
    ghost var origin: map<Path, nat>

    ghost function State(leader: Dir, clock: nat, sync: Option<Sync>): World
      reads this
    {
      World(leader, clock, local, last, origin, sync)
    }

    /** One entry of the manifest: skip, fetch the rest, or fetch the whole file. */
    method SyncFile(k: Policy, leader: Dir, p: Path, rf: Info, ghost w: World)
      requires w == State(leader, w.clock, w.sync) && Working(w, p) && w.sync.value.todo[p] == rf && p in leader
      modifies this
      ensures Enabled(w, Work(w, p))
      ensures State(leader, w.clock, Next(k, w, Work(w, p)).sync) == Next(k, w, Work(w, p))
    {
      var prev := if p in last then last[p] else Info(0, 0);
      if p in local && |local[p]| == rf.size && prev == rf {
        return;
      }
      var off := 0;
      if p in local && k.journal(p) && |local[p]| < rf.size && prev.size == |local[p]| {
        off := |local[p]|;
      }
      var body := Rest(leader[p].content, off);
      origin := Put(origin, p, Fetched(k.journal(p), CellAt(w, p)).origin);
      local := local[p := if off > 0 then local[p] + body else body];
      last := last[p := rf];
    }

    /** The loop over the manifest. */
    method SyncFiles(k: Policy, leader: Dir, remote: Infos, had: set<Path>, ghost w0: World) returns (ghost w: World)
      requires Progress(k, w0, State(leader, w0.clock, Some(Sync(remote, remote.Keys, had))))
      modifies this
      ensures w == State(leader, w0.clock, Some(Sync(map[], remote.Keys, had))) && Progress(k, w0, w)
    {
      var todo: Infos := remote;
      w := State(leader, w0.clock, Some(Sync(remote, remote.Keys, had)));
      while todo != map[]
        invariant w == State(leader, w0.clock, Some(Sync(todo, remote.Keys, had))) && Progress(k, w0, w)
        decreases |todo|
      {
        var p: Path :| p in todo;
        WorkProgresses(k, w0, w, p);
        SyncFile(k, leader, p, todo[p], w);
        todo := todo - {p};
        w := Next(k, w, Work(w, p));
      }
    }

    /** Local files the manifest does not list are removed. */
    method Prune(k: Policy, remote: Infos, had: set<Path>, ghost w: World)
      requires w == State(w.leader, w.clock, w.sync) && w.sync == Some(Sync(map[], remote.Keys, had))
      modifies this
      ensures State(w.leader, w.clock, None) == Next(k, w, Finish)
    {
      var gone := set p <- had | k.only(p) && p !in remote;
      assert gone == Gone(k, w);
      local := local - gone;
      last := last - gone;
      origin := origin - gone;
    }

    /** SyncOnce against a leader that does not change. */
    method SyncOnce(k: Policy, leader: Dir, ghost clock: nat)
      modifies this
      ensures Synced(k, old(State(leader, clock, None)), local)
    {
      ghost var w0 := State(leader, clock, None);
      var remote, had := Manifest(k, leader), local.Keys;
      ProgressBegins(k, w0);
      ghost var w := SyncFiles(k, leader, remote, had, w0);
      FinishSyncs(k, w0, w);
      Prune(k, remote, had, w);
    }
  }

  // ---- a journal that was re-created ----------------------------------------------------------

  const ALL: Policy := Policy((p: Path) => true, (p: Path) => true)

  const EMPTY: World := World(map[], 0, map[], map[], map[], None)

  const LOG: Path := 7

  /** The journal, the manifest entries and the local copy of a world with one path. */
  ghost predicate OnePath(w: World, leader: Dir, local: bytes, last: Info, idle: bool) {
    && w.leader == leader && w.local == map[LOG := local] && w.last == map[LOG := last]
    && (w.sync.None? <==> idle)
  }

  ghost predicate Leads(w: World, w': World) {
    exists acts :: Run(ALL, w, acts) && After(ALL, w, acts) == w'
  }

  lemma {:induction false} TwoSteps(k: Policy, w: World, a: Action, b: Action)
    requires Enabled(w, a) && Enabled(Next(k, w, a), b)
    ensures Run(k, w, [a, b]) && After(k, w, [a, b]) == Next(k, Next(k, w, a), b)
  {
    assert [a, b][1..] == [b] && [b][1..] == [];
    assert Run(k, Next(k, w, a), [b]) && After(k, Next(k, w, a), [b]) == Next(k, Next(k, w, a), b);
  }

  lemma {:induction false} RunsChain(k: Policy, w: World, a: seq<Action>, b: seq<Action>)
    requires Run(k, w, a) && Run(k, After(k, w, a), b)
    ensures Run(k, w, a + b) && After(k, w, a + b) == After(k, After(k, w, a), b)
    decreases |a|
  {
    if a == [] {
      assert a + b == b;
    } else {
      assert (a + b)[1..] == a[1..] + b;
      RunsChain(k, Next(k, w, a[0]), a[1..], b);
    }
  }

  lemma {:induction false} TwoLead(w: World, a: Action, b: Action)
    requires Enabled(w, a) && Enabled(Next(ALL, w, a), b)
    ensures Leads(w, Next(ALL, Next(ALL, w, a), b))
  {
    TwoSteps(ALL, w, a, b);
  }

  lemma {:induction false} LeadsOn(a: World, b: World, c: World)
    requires Leads(a, b) && Leads(b, c)
    ensures Leads(a, c)
  {
    var x :| Run(ALL, a, x) && After(ALL, a, x) == b;
    var y :| Run(ALL, b, y) && After(ALL, b, y) == c;
    RunsChain(ALL, a, x, y);
  }

  lemma {:induction false} FirstFetch(w: World) returns (w': World)
    requires w == World(map[LOG := File([1, 1], 1, 1)], 1, map[], map[], map[], w.sync)
    requires w.sync.Some? && w.sync.value.todo == map[LOG := Info(2, 1)] && w.sync.value.had == {}
    ensures Leads(w, w')
    ensures OnePath(w', w.leader, [1, 1], Info(2, 1), true) && w'.clock == 1
  {
    var w1 := Next(ALL, w, Fetch(LOG));
    assert w1.local == map[LOG := [1, 1]] && w1.last == map[LOG := Info(2, 1)] && w1.sync.value.todo == map[];
    assert Gone(ALL, w1) == {};
    w' := Next(ALL, w1, Finish);
    TwoLead(w, Fetch(LOG), Finish);
  }

  lemma {:induction false} FirstSync() returns (w: World)
    ensures Leads(EMPTY, w)
    ensures OnePath(w, map[LOG := File([1, 1], 1, 1)], [1, 1], Info(2, 1), true) && w.clock == 1
  {
    var w1 := Next(ALL, EMPTY, Grow(LOG, [1, 1]));
    assert w1.leader == map[LOG := File([1, 1], 1, 1)];
    var w2 := Next(ALL, w1, Begin);
    assert w2.sync.value.todo == map[LOG := Info(2, 1)];
    TwoLead(EMPTY, Grow(LOG, [1, 1]), Begin);
    w := FirstFetch(w2);
    LeadsOn(EMPTY, w2, w);
  }

  /** Deleted and re-created longer, */
  lemma {:induction false} Recreated(w: World) returns (w': World)
    requires OnePath(w, map[LOG := File([1, 1], 1, 1)], [1, 1], Info(2, 1), true) && w.clock == 1
    ensures Leads(w, w') && OnePath(w', map[LOG := File([2, 2, 2], 2, 2)], [1, 1], Info(2, 1), true)
  {
    var w1 := Next(ALL, w, Delete(LOG));
    assert w1.leader == map[];
    w' := Next(ALL, w1, Grow(LOG, [2, 2, 2]));
    assert w'.leader == map[LOG := File([2, 2, 2], 2, 2)];
    TwoLead(w, Delete(LOG), Grow(LOG, [2, 2, 2]));
  }

  /** the copy becomes a mixture of both journals, */
  lemma {:induction false} SecondSync(w: World) returns (w': World)
    requires OnePath(w, map[LOG := File([2, 2, 2], 2, 2)], [1, 1], Info(2, 1), true)
    ensures Leads(w, w')
    ensures OnePath(w', map[LOG := File([2, 2, 2], 2, 2)], [1, 1, 2], Info(3, 2), false)
    ensures w'.sync.value.todo == map[] && w'.sync.value.seen == {LOG} == w'.sync.value.had
  {
    var w1 := Next(ALL, w, Begin);
    assert w1.sync.value.todo == map[LOG := Info(3, 2)];
    assert Offset(true, CellAt(w1, LOG)) == 2 && [1, 1] + [2, 2, 2][2..] == [1, 1, 2];
    w' := Next(ALL, w1, Fetch(LOG));
    assert w'.local == map[LOG := [1, 1, 2]] && w'.last == map[LOG := Info(3, 2)] && w'.sync.value.todo == map[];
    TwoLead(w, Begin, Fetch(LOG));
  }

  /** and the next manifest finds it up to date. */
  lemma {:induction false} ThirdSync(w: World) returns (w': World)
    requires OnePath(w, map[LOG := File([2, 2, 2], 2, 2)], [1, 1, 2], Info(3, 2), false)
    requires w.sync.value.todo == map[] && w.sync.value.seen == {LOG} == w.sync.value.had
    ensures Leads(w, w')
    ensures OnePath(w', map[LOG := File([2, 2, 2], 2, 2)], [1, 1, 2], Info(3, 2), false)
    ensures Working(w', LOG) && UpToDate(CellAt(w', LOG))
  {
    assert Gone(ALL, w) == {};
    var w1 := Next(ALL, w, Finish);
    assert w1.local == w.local && w1.last == w.last;
    w' := Next(ALL, w1, Begin);
    assert w'.sync.value.todo == map[LOG := Info(3, 2)];
    TwoLead(w, Finish, Begin);
  }

  /** A re-created journal is mirrored as a mixture of both, and the next sync takes that for up to date:
      no sync repairs it until the leader writes again. */
  lemma {:induction false} RecreatedJournalIsMixed() returns (w: World)
    ensures Leads(EMPTY, w) && w.leader == map[LOG := File([2, 2, 2], 2, 2)] && w.local == map[LOG := [1, 1, 2]]
    ensures Working(w, LOG) && UpToDate(CellAt(w, LOG))
  {
    var w1 := FirstSync();
    var w2 := Recreated(w1);
    var w3 := SecondSync(w2);
    w := ThirdSync(w3);
    LeadsOn(EMPTY, w1, w2);
    LeadsOn(EMPTY, w2, w3);
    LeadsOn(EMPTY, w3, w);
  }
}
