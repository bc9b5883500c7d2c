/**
 * Which values a crash brings back.  Along a run, the head at the newest checkpoint's snapshot and the
 * series overwritten since are remembered: a crash with nothing unsaved and nothing under way brings
 * back an older value exactly where the last sample's stored value changed since the snapshot.
 */
module TsdbMarks {
  import opened Bytes
  import opened TsdbBytes
  import opened TsdbFile
  import opened TsdbStore
  import opened TsdbLog
  import opened TsdbRuns

  /** `mark` is the head at the newest snapshot of this hour, or as a restart loaded it; `touched` are the
      series whose last sample was overwritten since. */
  datatype Track = Track(mark: Head, touched: set<uint32>)

  /** The append takes the branch that overwrites the last sample and leaves the hour clean. */
  predicate Overwrites(s: Db, id: uint32, t: int64, v: Reading) {
    var pts := At(s.head, id);
    HourOf(t) <= s.hour && Accepts(s.hour, t, v) && pts != [] && pts[|pts| - 1].t == t
  }

  function TrackNext(c: Codec, w: World, k: Track, a: Action): Track {
    match a
    case Append(id, t, v) =>
      if HourOf(t) > w.db.hour then Track(map[], {})
      else if Overwrites(w.db, id, t, v) then k.(touched := k.touched + {id})
      else k
    case Tick(now) => if HourOf(now) > w.db.hour then Track(map[], {}) else k
    case Begin => if w.db.memOnly || !w.db.dirty then k else Track(w.db.head, {})
    case Crash(now) => Track(Open(c, w.db.files, now).head, {})
    case _ => k
  }

  ghost predicate Prefix(a: seq<Sample>, b: seq<Sample>) {
    |a| <= |b| && b[..|a|] == a
  }

  /** The newest checkpoint holds the mark, and an untouched series only grew since. */
  ghost predicate Marked(c: Codec, w: World, k: Track, id: uint32) {
    && Latest(c, w, id) == Stored(At(k.mark, id))
    && (id !in k.touched ==> Prefix(At(k.mark, id), At(w.db.head, id)))
  }

  ghost predicate MarksOk(c: Codec, w: World, k: Track) {
    !w.db.memOnly ==> forall id: uint32 :: Marked(c, w, k, id)
  }

  // ---- every step keeps the marks -------------------------------------------------------------

  lemma {:induction false} MarkRollover(c: Codec, w: World, l: Log, now: int, id: uint32)
    requires Inv(c, w, l) && !w.db.memOnly && HourOf(now) > w.db.hour
    ensures Marked(c, w.(db := Rollover(c, w.db, now)), Track(map[], {}), id)
  {
  }

  lemma {:induction false} MarkStow(c: Codec, w: World, k: Track, id: uint32, x: Sample, other: uint32)
    requires Marked(c, w, k, other) && !w.db.memOnly
    ensures var pts := At(w.db.head, id);
      var hit := pts != [] && pts[|pts| - 1].t == x.t;
      Marked(c, w.(db := Stow(w.db, id, x)), if hit then k.(touched := k.touched + {id}) else k, other)
  {
    var pts := At(w.db.head, id);
    if other == id && (pts == [] || pts[|pts| - 1].t < x.t) {
      var m := At(k.mark, id);
      assert |m| <= |pts| ==> (pts + [x])[..|m|] == pts[..|m|];
    }
  }

  lemma {:induction false} MarkAppend(c: Codec, w: World, k: Track, l: Log, id: uint32, t: int64, v: Reading,
                                      other: uint32)
    requires Faithful(c) && Inv(c, w, l) && RollFits(c, w.db, t) && !w.db.memOnly && Marked(c, w, k, other)
    ensures Marked(c, Next(c, w, Append(id, t, v)), TrackNext(c, w, k, Append(id, t, v)), other)
  {
    var w1 := w.(db := Rollover(c, w.db, t));
    if HourOf(t) > w.db.hour { MarkRollover(c, w, l, t, other); }
    var k1 := if HourOf(t) > w.db.hour then Track(map[], {}) else k;
    if Accepts(w1.db.hour, t, v) { MarkStow(c, w1, k1, id, Sample(t, v.bits), other); }
  }

  lemma {:induction false} MarkCheckpoint(c: Codec, w: World, k: Track, l: Log, a: Action, id: uint32)
    requires Faithful(c) && Inv(c, w, l) && Guarded(c, w, a) && !w.db.memOnly && Marked(c, w, k, id)
    requires a.Begin? || a.Write? || a.Drop?
    ensures Marked(c, Next(c, w, a), TrackNext(c, w, k, a), id)
  {
    if a.Write? && w.pending.Some? {
      assert Holds(c, w.pending.value.head, c.write(w.pending.value.head));
    }
    if a.Begin? { assert At(w.db.head, id)[..|At(w.db.head, id)|] == At(w.db.head, id); }
  }

  lemma {:induction false} MarkCrash(c: Codec, w: World, k: Track, l: Log, now: int, id: uint32)
    requires Inv(c, w, l) && Guarded(c, w, Crash(now))
    ensures Marked(c, Next(c, w, Crash(now)), TrackNext(c, w, k, Crash(now)), id)
  {
    OpenLoads(c, w.db, now, id);
    var f := Closed(c, w.db, HourOf(now), id);
    if HourOf(now) == w.db.hour { ReadTwice(c, w.db, id); }
    assert Stored(f) == f;
    assert f[..|f|] == f;
  }

  lemma {:induction false} MarkStep(c: Codec, w: World, k: Track, l: Log, a: Action)
    requires Faithful(c) && Inv(c, w, l) && Guarded(c, w, a) && MarksOk(c, w, k)
    ensures MarksOk(c, Next(c, w, a), TrackNext(c, w, k, a))
  {
    if !w.db.memOnly {
      forall id: uint32 ensures Marked(c, Next(c, w, a), TrackNext(c, w, k, a), id) {
        assert Marked(c, w, k, id);
        match a
        case Append(i, t, v) => MarkAppend(c, w, k, l, i, t, v, id);
        case Tick(now) => if HourOf(now) > w.db.hour { MarkRollover(c, w, l, now, id); }
        case Crash(now) => MarkCrash(c, w, k, l, now, id);
        case _ => MarkCheckpoint(c, w, k, l, a, id);
      }
    }
  }

  function TrackAfter(c: Codec, w: World, k: Track, acts: seq<Action>): Track
    decreases |acts|
  {
    if acts == [] then k else TrackAfter(c, Next(c, w, acts[0]), TrackNext(c, w, k, acts[0]), acts[1..])
  }

  lemma {:induction false} RunMarks(c: Codec, w: World, k: Track, l: Log, acts: seq<Action>)
    requires Faithful(c) && Inv(c, w, l) && MarksOk(c, w, k) && GuardedRun(c, w, acts)
    ensures MarksOk(c, After(c, w, acts), TrackAfter(c, w, k, acts))
    decreases |acts|
  {
    if acts != [] {
      Step(c, w, l, acts[0]);
      MarkStep(c, w, k, l, acts[0]);
      RunMarks(c, Next(c, w, acts[0]), TrackNext(c, w, k, acts[0]), LogNext(c, w, l, acts[0]), acts[1..]);
    }
  }

  const NO_MARK: Track := Track(map[], {})

  lemma {:induction false} NewMarks(c: Codec, now: int)
    ensures MarksOk(c, NewStore(false, now), NO_MARK)
  {
  }

  // ---- what a clean crash brings back ---------------------------------------------------------

  /** The stored value of the last sample is the one of the snapshot. */
  ghost predicate LastKept(mark: seq<Sample>, pts: seq<Sample>) {
    pts != [] && |mark| == |pts| ==> F32(mark[|mark| - 1].v) == F32(pts[|pts| - 1].v)
  }

  lemma {:induction false} OlderSame(mark: seq<Sample>, pts: seq<Sample>)
    requires Older(Stored(mark), Stored(pts)) && |mark| == |pts|
    ensures Stored(mark) == Stored(pts) <==> LastKept(mark, pts)
  {
    if pts != [] {
      assert Stored(mark)[|mark| - 1] == Sample(mark[|mark| - 1].t, F32(mark[|mark| - 1].v));
      assert Stored(pts)[|pts| - 1] == Sample(pts[|pts| - 1].t, F32(pts[|pts| - 1].v));
    }
  }

  lemma {:induction false} TailsDecide(a: seq<Sample>, f: seq<Sample>, b: seq<Sample>)
    ensures a + f == a + b <==> f == b
  {
    if a + f == a + b {
      assert f == (a + f)[|a|..] && b == (a + b)[|a|..];
    }
  }

  lemma {:induction false} RecoveredSameIff(log: seq<Sample>, hour: int, f: seq<Sample>)
    requires Increasing(log) && Bounded(log, hour)
    ensures Stored(Recovered(log, hour, f)) == Stored(log) <==> Stored(f) == Stored(Window(log, hour, hour + 3599))
  {
    var a, b := Window(log, FIRST, hour - 1), Window(log, hour, hour + 3599);
    LogIsBeforeAndOpen(log, hour);
    StoredConcat(a, b);
    StoredConcat(a, f);
    TailsDecide(Stored(a), Stored(f), Stored(b));
  }

  /** What a crash leaves of a series equals the series exactly when the checkpoint equals the head. */
  lemma {:induction false} CrashKeepsIff(c: Codec, w: World, l: Log, now: int, id: uint32)
    requires Inv(c, w, l) && Guarded(c, w, Crash(now))
    ensures Stored(Of(LogNext(c, w, l, Crash(now)), id)) == Stored(Of(l, id))
       <==> Closed(c, w.db, w.db.hour, id) == Stored(At(w.db.head, id))
  {
    var f := Closed(c, w.db, w.db.hour, id);
    assert Agree(c, w.db, l.cut, Of(l, id), id) && CheckpointOk(c, w, id);
    if id !in l.series { assert f == [] && Recovered([], w.db.hour, f) == []; }
    ReadTwice(c, w.db, id);
    RecoveredSameIff(Of(l, id), w.db.hour, f);
  }

  lemma {:induction false} CleanCrashAt(c: Codec, w: World, k: Track, l: Log, now: int, id: uint32)
    requires Inv(c, w, l) && MarksOk(c, w, k) && Guarded(c, w, Crash(now)) && !w.db.dirty && w.pending.None?
    ensures Stored(Of(LogNext(c, w, l, Crash(now)), id)) == Stored(Of(l, id))
       <==> LastKept(At(k.mark, id), At(w.db.head, id))
    ensures |At(k.mark, id)| == |At(w.db.head, id)|
    ensures id !in k.touched ==> At(k.mark, id) == At(w.db.head, id)
  {
    assert CheckpointOk(c, w, id) && Marked(c, w, k, id);
    CrashKeepsIff(c, w, l, now, id);
    OlderSame(At(k.mark, id), At(w.db.head, id));
  }

  /** After every guarded run that ends with nothing unsaved and no checkpoint under way, a crash gives a
      series back as it was stored exactly when its last stored value is the one of the newest snapshot;
      in particular when no append since overwrote the last sample of the series. */
  lemma {:induction false} CleanCrashKeepsIff(c: Codec, start: int, cut: int, acts: seq<Action>, now: int, id: uint32)
    requires Faithful(c) && GuardedRun(c, NewStore(false, start), acts) && cut % HOUR == 0
    requires var w := After(c, NewStore(false, start), acts);
      Guarded(c, w, Crash(now)) && !w.db.dirty && w.pending.None?
    ensures var w := After(c, NewStore(false, start), acts);
      var l := LogAfter(c, NewStore(false, start), NewLog(start, cut), acts);
      var k := TrackAfter(c, NewStore(false, start), NO_MARK, acts);
      var same := Stored(Of(LogNext(c, w, l, Crash(now)), id)) == Stored(Of(l, id));
      && (same <==> LastKept(At(k.mark, id), At(w.db.head, id)))
      && |At(k.mark, id)| == |At(w.db.head, id)| && (id !in k.touched ==> same)
  {
    var w0, l0 := NewStore(false, start), NewLog(start, cut);
    NewRefines(c, false, start, cut);
    NewMarks(c, start);
    RunRefines(c, w0, l0, acts);
    RunMarks(c, w0, NO_MARK, l0, acts);
    CleanCrashAt(c, After(c, w0, acts), TrackAfter(c, w0, NO_MARK, acts), LogAfter(c, w0, l0, acts), now, id);
  }
}
