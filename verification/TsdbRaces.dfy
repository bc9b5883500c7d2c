/** Where the guards of the store's runs are needed: concrete runs that lose a sample or a value. */
module TsdbRaces {
  import opened Wrappers
  import opened Bytes
  import opened TsdbFile
  import opened TsdbStore
  import opened TsdbLog
  import opened TsdbRuns

  lemma {:induction false} StaleSeries(c: Codec, s: Db, s': Db, cut: int, log: seq<Sample>, id: uint32, snap: Snap)
    requires !s.memOnly && Agree(c, s, cut, log, id) && Over(snap.hour, s.hour) && cut <= snap.hour
    requires s' == Finish(c, s, snap) && Holds(c, snap.head, c.write(snap.head))
    ensures Agree(c, s', cut, log, id) <==> Stored(At(snap.head, id)) == Closed(c, s, snap.hour, id)
  {
  }

  /** A checkpoint whose hour was closed while it was being written overwrites that hour's file.  The
      store still refines the log exactly when the snapshot held all the file held. */
  lemma {:induction false} StaleWriteKeepsIff(c: Codec, w: World, l: Log)
    requires Faithful(c) && Inv(c, w, l) && w.pending.Some?
    requires Over(w.pending.value.hour, w.db.hour) && l.cut <= w.pending.value.hour
    ensures Refines(c, Next(c, w, Write).db, l)
       <==> forall id: uint32 :: Stored(At(w.pending.value.head, id)) == Closed(c, w.db, w.pending.value.hour, id)
  {
    var snap, s' := w.pending.value, Next(c, w, Write).db;
    assert Holds(c, snap.head, c.write(snap.head));
    forall id: uint32
      ensures Agree(c, s', l.cut, Of(l, id), id) <==> Stored(At(snap.head, id)) == Closed(c, w.db, snap.hour, id)
    {
      assert Agree(c, w.db, l.cut, Of(l, id), id);
      StaleSeries(c, w.db, s', l.cut, Of(l, id), id, snap);
    }
  }

  // ---- a store with one series ----------------------------------------------------------------

  const ID: uint32 := 7
  const ONE: uint32 := 0x3F80_0000
  const TWO: uint32 := 0x4000_0000

  function HeadWith(pts: seq<Sample>): Head {
    if pts == [] then map[] else map[ID := pts]
  }

  function Store1(hour: int, pts: seq<Sample>, dirty: bool, files: map<int, bytes>, pending: Option<Snap>): World {
    World(Db(false, hour, HeadWith(pts), dirty, files, map[]), pending)
  }

  function Log1(hour: int, pts: seq<Sample>): Log {
    Log(hour, 0, HeadWith(pts))
  }

  function Add(x: Sample): Action {
    Append(ID, x.t, Finite(x.v))
  }

  lemma {:induction false} AddHere(c: Codec, h: int, pts: seq<Sample>, d: bool, files: map<int, bytes>,
                                   p: Option<Snap>, x: Sample)
    requires HourOf(x.t) <= h <= x.t
    ensures Next(c, Store1(h, pts, d, files, p), Add(x))
         == Store1(h, Put(pts, x), d || pts == [] || pts[|pts| - 1].t < x.t, files, p)
  {
    assert At(HeadWith(pts), ID) == pts;
    assert HeadWith(pts)[ID := Put(pts, x)] == HeadWith(Put(pts, x));
  }

  lemma {:induction false} AddAhead(c: Codec, h: int, files: map<int, bytes>, p: Option<Snap>, x: Sample)
    requires h < HourOf(x.t) <= x.t
    ensures Next(c, Store1(h, [], false, files, p), Add(x)) == Store1(HourOf(x.t), [x], true, files, p)
  {
    assert Put([], x) == [x];
    assert map[][ID := [x]] == HeadWith([x]);
  }

  lemma {:induction false} TickPast(c: Codec, h: int, pts: seq<Sample>, d: bool, files: map<int, bytes>,
                                    p: Option<Snap>, now: int)
    requires HourOf(now) > h && pts != []
    ensures Next(c, Store1(h, pts, d, files, p), Tick(now))
         == Store1(HourOf(now), [], false, files[h := c.write(HeadWith(pts))], p)
  {
    assert ID in HeadWith(pts);
  }

  lemma {:induction false} BeginHere(c: Codec, h: int, pts: seq<Sample>, files: map<int, bytes>)
    ensures Next(c, Store1(h, pts, true, files, None), Action.Begin)
         == Store1(h, pts, false, files, Some(Snap(h, HeadWith(pts))))
  {
  }

  lemma {:induction false} WriteHere(c: Codec, h: int, pts: seq<Sample>, d: bool, files: map<int, bytes>, p: Snap)
    ensures Next(c, Store1(h, pts, d, files, Some(p)), Write)
         == Store1(h, pts, d, files[p.hour := c.write(p.head)], None)
  {
  }

  lemma {:induction false} LogAdd(c: Codec, w: World, h: int, pts: seq<Sample>, x: Sample)
    requires Later(h, HourOf(x.t)) <= x.t
    ensures LogNext(c, w, Log1(h, pts), Add(x)) == Log1(Later(h, HourOf(x.t)), Put(pts, x))
  {
    assert Of(Log1(h, pts), ID) == pts;
    assert HeadWith(pts)[ID := Put(pts, x)] == HeadWith(Put(pts, x));
  }

  lemma {:induction false} LogTick(c: Codec, w: World, h: int, pts: seq<Sample>, now: int)
    ensures LogNext(c, w, Log1(h, pts), Tick(now)) == Log1(Later(h, HourOf(now)), pts)
  {
  }

  lemma {:induction false} ReadBack(c: Codec, s: Db, h: int, pts: seq<Sample>)
    requires Faithful(c) && c.fits(HeadWith(pts)) && Stored(pts) == pts && !s.memOnly
    requires h in s.files && s.files[h] == c.write(HeadWith(pts))
    ensures Closed(c, s, h, ID) == pts
  {
    assert Holds(c, HeadWith(pts), c.write(HeadWith(pts)));
  }

  /** A closed hour and nothing else. */
  lemma {:induction false} OneHourQuery(c: Codec, s: Db, h: int, pts: seq<Sample>)
    requires !s.memOnly && HourOf(h) == h >= 0 && s.hour == h + HOUR && s.head == map[]
    requires Closed(c, s, h, ID) == pts && Within(pts, h, h + 3599)
    ensures Query(c, s, ID, h, h + 3599, 0) == pts
  {
    WindowAll(pts, h, h + 3599);
    assert HoursFrom(c, s, ID, h + HOUR, h, h + 3599) == [];
    assert HoursFrom(c, s, ID, h, h, h + 3599) == pts + [];
    assert Window([], h, h + 3599) == [];
  }

  /** What a query of an hour gives when its file was written last. */
  lemma {:induction false} JustClosed(c: Codec, h: int, files: map<int, bytes>, pts: seq<Sample>)
    requires Faithful(c) && c.fits(HeadWith(pts)) && Stored(pts) == pts
    requires HourOf(h) == h >= 0 && Within(pts, h, h + 3599)
    ensures var s := Store1(h + HOUR, [], false, files[h := c.write(HeadWith(pts))], None).db;
      Query(c, s, ID, h, h + 3599, 0) == pts
  {
    var s := Store1(h + HOUR, [], false, files[h := c.write(HeadWith(pts))], None).db;
    ReadBack(c, s, h, pts);
    OneHourQuery(c, s, h, pts);
  }

  lemma {:induction false} OneHourExpected(h: int, pts: seq<Sample>)
    requires Within(pts, h, h + 3599) && Stored(pts) == pts
    ensures Expected(Log1(h + HOUR, pts), false, ID, h, h + 3599) == pts
  {
    assert Of(Log1(h + HOUR, pts), ID) == pts;
    WindowAll(pts, h, h + 3599);
    WindowEmpty(pts, h + HOUR, h + 3599);
  }

  lemma {:induction false} TwoSamples(h: int)
    requires FIRST <= h < 0x7000_0000_0000_0000
    ensures Put([], Sample(h, ONE)) == [Sample(h, ONE)] && Put([], Sample(h + 60, TWO)) == [Sample(h + 60, TWO)]
    ensures Put([Sample(h, ONE)], Sample(h + 60, TWO)) == [Sample(h, ONE), Sample(h + 60, TWO)]
    ensures Put([Sample(h, ONE)], Sample(h, TWO)) == [Sample(h, TWO)]
    ensures Stored([Sample(h, ONE)]) == [Sample(h, ONE)] && Stored([Sample(h + 60, TWO)]) == [Sample(h + 60, TWO)]
    ensures Stored([Sample(h, ONE), Sample(h + 60, TWO)]) == [Sample(h, ONE), Sample(h + 60, TWO)]
  {
  }

  lemma {:induction false} FourSteps(c: Codec, w: World, l: Log, acts: seq<Action>)
    requires |acts| == 4
    ensures var w1, l1 := Next(c, w, acts[0]), LogNext(c, w, l, acts[0]);
      var w2, l2 := Next(c, w1, acts[1]), LogNext(c, w1, l1, acts[1]);
      var w3, l3 := Next(c, w2, acts[2]), LogNext(c, w2, l2, acts[2]);
      && After(c, w, acts) == Next(c, w3, acts[3]) && LogAfter(c, w, l, acts) == LogNext(c, w3, l3, acts[3])
      && (GuardedRun(c, w, acts)
          <==> Guarded(c, w, acts[0]) && Guarded(c, w1, acts[1]) && Guarded(c, w2, acts[2]) && Guarded(c, w3, acts[3]))
  {
    var w1, l1 := Next(c, w, acts[0]), LogNext(c, w, l, acts[0]);
    var w2, l2 := Next(c, w1, acts[1]), LogNext(c, w1, l1, acts[1]);
    var w3, l3 := Next(c, w2, acts[2]), LogNext(c, w2, l2, acts[2]);
    assert acts[1..][1..] == acts[2..] && acts[2..][1..] == acts[3..] && acts[3..][1..] == [];
    assert After(c, w3, acts[3..]) == Next(c, w3, acts[3]);
    assert LogAfter(c, w3, l3, acts[3..]) == LogNext(c, w3, l3, acts[3]);
    assert GuardedRun(c, w3, acts[3..]) <==> Guarded(c, w3, acts[3]);
    assert After(c, w2, acts[2..]) == Next(c, w3, acts[3]);
    assert LogAfter(c, w2, l2, acts[2..]) == LogNext(c, w3, l3, acts[3]);
    assert GuardedRun(c, w2, acts[2..]) <==> Guarded(c, w2, acts[2]) && Guarded(c, w3, acts[3]);
  }

  // ---- an overwrite is forgotten --------------------------------------------------------------

  function Overwritten(): seq<Action> {
    [Add(Sample(0, ONE)), Action.Begin, Write, Add(Sample(0, TWO))]
  }

  lemma {:induction false} OverwrittenEnds(c: Codec)
    requires c.fits(HeadWith([Sample(0, ONE)]))
    ensures var w0, l0 := NewStore(false, 0), NewLog(0, 0);
      && GuardedRun(c, w0, Overwritten())
      && After(c, w0, Overwritten())
         == Store1(0, [Sample(0, TWO)], false, map[0 := c.write(HeadWith([Sample(0, ONE)]))], None)
      && LogAfter(c, w0, l0, Overwritten()) == Log1(0, [Sample(0, TWO)])
  {
    var one, file := [Sample(0, ONE)], c.write(HeadWith([Sample(0, ONE)]));
    TwoSamples(0);
    FourSteps(c, Store1(0, [], false, map[], None), Log1(0, []), Overwritten());
    AddHere(c, 0, [], false, map[], None, Sample(0, ONE));
    BeginHere(c, 0, one, map[]);
    WriteHere(c, 0, one, false, map[], Snap(0, HeadWith(one)));
    AddHere(c, 0, one, false, map[0 := file], None, Sample(0, TWO));
    LogAdd(c, Store1(0, [], false, map[], None), 0, [], Sample(0, ONE));
    LogAdd(c, Store1(0, one, false, map[0 := file], None), 0, one, Sample(0, TWO));
  }

  lemma {:induction false} OldValueBack(c: Codec, w: World)
    requires Faithful(c) && c.fits(HeadWith([Sample(0, ONE)]))
    requires w == Store1(0, [Sample(0, TWO)], false, map[0 := c.write(HeadWith([Sample(0, ONE)]))], None)
    ensures Of(LogNext(c, w, Log1(0, [Sample(0, TWO)]), Crash(0)), ID) == [Sample(0, ONE)]
  {
    TwoSamples(0);
    ReadBack(c, w.db, 0, [Sample(0, ONE)]);
    WindowNone([Sample(0, TWO)], FIRST, -1);
  }

  /** An overwrite at the same time after a checkpoint leaves the hour clean, so no later checkpoint
      saves it: the crash brings back the old value. */
  lemma {:induction false} OverwriteIsForgotten(c: Codec)
    requires Faithful(c) && c.fits(HeadWith([Sample(0, ONE)]))
    ensures var w0, l0 := NewStore(false, 0), NewLog(0, 0);
      var w, l := After(c, w0, Overwritten()), LogAfter(c, w0, l0, Overwritten());
      && GuardedRun(c, w0, Overwritten()) && Guarded(c, w, Crash(0))
      && !w.db.dirty && w.pending.None?
      && Of(l, ID) == [Sample(0, TWO)] && Of(LogNext(c, w, l, Crash(0)), ID) == [Sample(0, ONE)]
  {
    OverwrittenEnds(c);
    OldValueBack(c, After(c, NewStore(false, 0), Overwritten()));
  }

  // ---- a checkpoint comes late ----------------------------------------------------------------

  function Raced(): seq<Action> {
    [Add(Sample(0, ONE)), Action.Begin, Add(Sample(60, TWO)), Tick(3600)]
  }

  lemma {:induction false} RacedEnds(c: Codec)
    requires c.fits(HeadWith([Sample(0, ONE)])) && c.fits(HeadWith([Sample(0, ONE), Sample(60, TWO)]))
    ensures var w0, l0, both := NewStore(false, 0), NewLog(0, 0), [Sample(0, ONE), Sample(60, TWO)];
      && GuardedRun(c, w0, Raced())
      && After(c, w0, Raced())
         == Store1(3600, [], false, map[0 := c.write(HeadWith(both))], Some(Snap(0, HeadWith([Sample(0, ONE)]))))
      && LogAfter(c, w0, l0, Raced()) == Log1(3600, both)
  {
    var one, both, snap := [Sample(0, ONE)], [Sample(0, ONE), Sample(60, TWO)], Snap(0, HeadWith([Sample(0, ONE)]));
    TwoSamples(0);
    FourSteps(c, Store1(0, [], false, map[], None), Log1(0, []), Raced());
    AddHere(c, 0, [], false, map[], None, Sample(0, ONE));
    BeginHere(c, 0, one, map[]);
    AddHere(c, 0, one, false, map[], Some(snap), Sample(60, TWO));
    TickPast(c, 0, both, true, map[], Some(snap), 3600);
    LogAdd(c, Store1(0, [], false, map[], None), 0, [], Sample(0, ONE));
    LogAdd(c, Store1(0, one, false, map[], Some(snap)), 0, one, Sample(60, TWO));
  }

  lemma {:induction false} LateWrite(c: Codec, h: int, files: map<int, bytes>, pts: seq<Sample>)
    requires Faithful(c) && c.fits(HeadWith(pts)) && Stored(pts) == pts
    requires HourOf(h) == h >= 0 && Within(pts, h, h + 3599)
    ensures var w := Store1(h + HOUR, [], false, files, Some(Snap(h, HeadWith(pts))));
      !Guarded(c, w, Write) && Query(c, Next(c, w, Write).db, ID, h, h + 3599, 0) == pts
  {
    WriteHere(c, h + HOUR, [], false, files, Snap(h, HeadWith(pts)));
    JustClosed(c, h, files, pts);
  }

  /** The race: the rollover writes the whole hour, then the late checkpoint replaces it with less. */
  lemma {:induction false} LateCheckpointLosesSample(c: Codec)
    requires Faithful(c) && c.fits(HeadWith([Sample(0, ONE)])) && c.fits(HeadWith([Sample(0, ONE), Sample(60, TWO)]))
    ensures var w0, l0 := NewStore(false, 0), NewLog(0, 0);
      var w, l := After(c, w0, Raced()), LogAfter(c, w0, l0, Raced());
      && GuardedRun(c, w0, Raced()) && w.pending.Some? && !Guarded(c, w, Write)
      && Expected(l, false, ID, 0, 3599) == [Sample(0, ONE), Sample(60, TWO)]
      && Query(c, Next(c, w, Write).db, ID, 0, 3599, 0) == [Sample(0, ONE)]
  {
    var both := [Sample(0, ONE), Sample(60, TWO)];
    RacedEnds(c);
    TwoSamples(0);
    LateWrite(c, 0, map[0 := c.write(HeadWith(both))], [Sample(0, ONE)]);
    OneHourExpected(0, both);
  }

  // ---- a clock that went back -----------------------------------------------------------------

  const LATER: int := 36000

  function Ahead(): seq<Action> {
    [Add(Sample(LATER, ONE)), Action.Begin, Write, Crash(0)]
  }

  lemma {:induction false} BackAtZero(c: Codec, w: World, file: bytes, one: seq<Sample>)
    requires one == [Sample(LATER, ONE)] && w == Store1(LATER, one, false, map[LATER := file], None)
    requires Closed(c, w.db, LATER, ID) == one
    ensures Next(c, w, Crash(0)) == Store1(0, [], false, map[LATER := file], None)
    ensures LogNext(c, w, Log1(LATER, one), Crash(0)) == Log1(0, one)
  {
    WindowNone(one, FIRST, LATER - 1);
    var l' := LogNext(c, w, Log1(LATER, one), Crash(0));
    assert l'.series[ID] == [] + one == one;
    assert l'.series == HeadWith(one);
  }

  lemma {:induction false} ThreeGuarded(c: Codec)
    requires c.fits(HeadWith([Sample(LATER, ONE)]))
    ensures GuardedRun(c, NewStore(false, 0), Ahead()[..3])
  {
    var one, acts := [Sample(LATER, ONE)], Ahead()[..3];
    AddAhead(c, 0, map[], None, Sample(LATER, ONE));
    BeginHere(c, LATER, one, map[]);
    var w2 := Store1(LATER, one, false, map[], Some(Snap(LATER, HeadWith(one))));
    assert acts == [Add(Sample(LATER, ONE)), Action.Begin, Write];
    assert acts[1..] == [Action.Begin, Write] && acts[1..][1..] == [Write] && [Write][1..] == [];
    assert GuardedRun(c, w2, [Write]);
    assert GuardedRun(c, Store1(LATER, one, true, map[], None), [Action.Begin, Write]);
  }

  /** A sample ten hours ahead opens its hour and is checkpointed; the restart is back at hour 0, and it is
      the only step that breaks a guard. */
  lemma {:induction false} AheadThenBack(c: Codec)
    requires Faithful(c) && c.fits(HeadWith([Sample(LATER, ONE)]))
    ensures var w0, l0, acts := NewStore(false, 0), NewLog(0, 0), Ahead();
      var w3 := Next(c, Next(c, Next(c, w0, acts[0]), acts[1]), acts[2]);
      && After(c, w0, acts) == Store1(0, [], false, map[LATER := c.write(HeadWith([Sample(LATER, ONE)]))], None)
      && LogAfter(c, w0, l0, acts) == Log1(0, [Sample(LATER, ONE)])
      && GuardedRun(c, w0, acts[..3]) && !Guarded(c, w3, acts[3])
  {
    var one, file := [Sample(LATER, ONE)], c.write(HeadWith([Sample(LATER, ONE)]));
    TwoSamples(LATER);
    FourSteps(c, Store1(0, [], false, map[], None), Log1(0, []), Ahead());
    AddAhead(c, 0, map[], None, Sample(LATER, ONE));
    BeginHere(c, LATER, one, map[]);
    WriteHere(c, LATER, one, false, map[], Snap(LATER, HeadWith(one)));
    LogAdd(c, Store1(0, [], false, map[], None), 0, [], Sample(LATER, ONE));
    var w3 := Store1(LATER, one, false, map[LATER := file], None);
    ReadBack(c, w3.db, LATER, one);
    BackAtZero(c, w3, file, one);
    ThreeGuarded(c);
  }

  /** From hour 0: a sample ahead opens its hour h again, and the end of h writes only that sample. */
  lemma {:induction false} SecondTimeRound(c: Codec, h: int, files: map<int, bytes>, x: Sample)
    requires Faithful(c) && c.fits(HeadWith([x])) && Stored([x]) == [x]
    requires HourOf(x.t) == HourOf(h) == h > 0 && HourOf(h + HOUR) == h + HOUR
    ensures var w := Store1(0, [], false, files, None);
      && Guarded(c, w, Add(x)) && Guarded(c, Next(c, w, Add(x)), Tick(h + HOUR))
      && Query(c, Next(c, Next(c, w, Add(x)), Tick(h + HOUR)).db, ID, h, h + 3599, 0) == [x]
  {
    AddAhead(c, 0, files, None, x);
    TickPast(c, h, [x], true, files, None, h + HOUR);
    JustClosed(c, h, files, [x]);
  }

  lemma {:induction false} BothExpected(c: Codec, w: World, w1: World, h: int, x: Sample, y: Sample)
    requires HourOf(x.t) == HourOf(y.t) == HourOf(h) == h > 0 && HourOf(h + HOUR) == h + HOUR
    requires Put([x], y) == [x, y] && Stored([x, y]) == [x, y]
    ensures var l2 := LogNext(c, w1, LogNext(c, w, Log1(0, [x]), Add(y)), Tick(h + HOUR));
      Expected(l2, false, ID, h, h + 3599) == [x, y]
  {
    LogAdd(c, w, 0, [x], y);
    LogTick(c, w1, h, [x, y], h + HOUR);
    OneHourExpected(h, [x, y]);
  }

  /** The two steps after the restart: the later sample is stored, and its hour ends. */
  lemma {:induction false} BackLoses(c: Codec, w: World, l: Log, h: int, x: Sample, y: Sample)
    requires Faithful(c) && c.fits(HeadWith([y])) && Stored([y]) == [y]
    requires Put([x], y) == [x, y] && Stored([x, y]) == [x, y]
    requires HourOf(x.t) == HourOf(y.t) == HourOf(h) == h > 0 && HourOf(h + HOUR) == h + HOUR
    requires w == Store1(0, [], false, map[h := c.write(HeadWith([x]))], None) && l == Log1(0, [x])
    ensures var w1, l1 := Next(c, w, Add(y)), LogNext(c, w, l, Add(y));
      && Guarded(c, w, Add(y)) && Guarded(c, w1, Tick(h + HOUR))
      && Expected(LogNext(c, w1, l1, Tick(h + HOUR)), false, ID, h, h + 3599) == [x, y]
      && Query(c, Next(c, w1, Tick(h + HOUR)).db, ID, h, h + 3599, 0) == [y]
  {
    SecondTimeRound(c, h, map[h := c.write(HeadWith([x]))], y);
    BothExpected(c, w, Next(c, w, Add(y)), h, x, y);
  }

  /** A restart in an hour before the open one loses an accepted and checkpointed sample: when the hour
      comes it starts empty, and its end overwrites the file.  So the guard on restarts is needed. */
  lemma {:induction false} ClockBackLosesSample(c: Codec)
    requires Faithful(c) && c.fits(HeadWith([Sample(LATER, ONE)])) && c.fits(HeadWith([Sample(LATER + 60, TWO)]))
    ensures var w0, l0 := NewStore(false, 0), NewLog(0, 0);
      var w, l := After(c, w0, Ahead()), LogAfter(c, w0, l0, Ahead());
      var a, b := Add(Sample(LATER + 60, TWO)), Tick(LATER + HOUR);
      var w1, l1 := Next(c, w, a), LogNext(c, w, l, a);
      && Guarded(c, w, a) && Guarded(c, w1, b)
      && Expected(LogNext(c, w1, l1, b), false, ID, LATER, LATER + 3599)
        == [Sample(LATER, ONE), Sample(LATER + 60, TWO)]
      && Query(c, Next(c, w1, b).db, ID, LATER, LATER + 3599, 0) == [Sample(LATER + 60, TWO)]
  {
    AheadThenBack(c);
    TwoSamples(LATER);
    BackLoses(c, After(c, NewStore(false, 0), Ahead()), LogAfter(c, NewStore(false, 0), NewLog(0, 0), Ahead()), LATER,
              Sample(LATER, ONE), Sample(LATER + 60, TWO));
  }
}
