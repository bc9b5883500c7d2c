/**
 * Compaction on the files themselves: the hours the store writes hold only samples of their own hour,
 * rollups read back as they were written, and so what is proved of compaction holds of the directory
 * and gives the summaries of the plain log.
 */
module TsdbDisk {
  import opened Wrappers
  import opened Bytes
  import opened TsdbBytes
  import opened TsdbFile
  import opened TsdbStore
  import opened TsdbLog
  import opened TsdbRuns
  import opened TsdbCompact

  // ---- hours hold their own samples -----------------------------------------------------------

  ghost predicate OwnSamples(pts: seq<Sample>, h: int) {
    Within(pts, h, h + 3599) && InOwnHour(pts)
  }

  ghost predicate FileOwn(c: Codec, file: bytes, h: int) {
    h % HOUR == 0 && Sound(c, file) && forall id: uint32 :: OwnSamples(c.read(file, id), h)
  }

  ghost predicate HeadOwn(head: Head, h: int) {
    h % HOUR == 0 && forall id: uint32 :: OwnSamples(At(head, id), h)
  }

  ghost predicate Own(c: Codec, w: World) {
    && (forall h <- w.db.files :: FileOwn(c, w.db.files[h], h))
    && (w.pending.Some? ==> HeadOwn(w.pending.value.head, w.pending.value.hour))
  }

  lemma {:induction false} HeadIsOwn(c: Codec, s: Db, l: Log)
    requires Refines(c, s, l)
    ensures HeadOwn(s.head, s.hour)
  {
    forall id: uint32 ensures OwnSamples(At(s.head, id), s.hour) {
      assert Agree(c, s, l.cut, Of(l, id), id);
      WindowShape(Of(l, id), s.hour, s.hour + 3599);
    }
  }

  lemma {:induction false} WrittenIsOwn(c: Codec, head: Head, h: int)
    requires Faithful(c) && c.fits(head) && HeadOwn(head, h)
    ensures FileOwn(c, c.write(head), h)
  {
    var file := c.write(head);
    assert Holds(c, head, file);
    HeldIsSound(c, head, file);
    forall id: uint32 ensures OwnSamples(c.read(file, id), h) {
      assert OwnSamples(At(head, id), h);
    }
  }

  lemma {:induction false} RolloverOwn(c: Codec, w: World, l: Log, now: int)
    requires Faithful(c) && Inv(c, w, l) && RollFits(c, w.db, now) && Own(c, w)
    ensures Own(c, w.(db := Rollover(c, w.db, now)))
  {
    HeadIsOwn(c, w.db, l);
    if HourOf(now) > w.db.hour && !w.db.memOnly && w.db.head != map[] { WrittenIsOwn(c, w.db.head, w.db.hour); }
  }

  lemma {:induction false} OwnStep(c: Codec, w: World, l: Log, a: Action)
    requires Faithful(c) && Inv(c, w, l) && Guarded(c, w, a) && Own(c, w)
    ensures Own(c, Next(c, w, a))
  {
    match a
    case Append(id, t, v) => RolloverOwn(c, w, l, t);
    case Tick(now) => RolloverOwn(c, w, l, now);
    case Begin => HeadIsOwn(c, w.db, l);
    case Write => if w.pending.Some? { WrittenIsOwn(c, w.pending.value.head, w.pending.value.hour); }
    case _ =>
  }

  lemma {:induction false} OwnRun(c: Codec, w: World, l: Log, acts: seq<Action>)
    requires Faithful(c) && Inv(c, w, l) && Own(c, w) && GuardedRun(c, w, acts)
    ensures Own(c, After(c, w, acts))
    decreases |acts|
  {
    if acts != [] {
      Step(c, w, l, acts[0]);
      OwnStep(c, w, l, acts[0]);
      OwnRun(c, Next(c, w, acts[0]), LogNext(c, w, l, acts[0]), acts[1..]);
    }
  }

  lemma {:induction false} StaysOnDisk(c: Codec, w: World, acts: seq<Action>)
    requires !w.db.memOnly
    ensures !After(c, w, acts).db.memOnly
    decreases |acts|
  {
    if acts != [] { StaysOnDisk(c, Next(c, w, acts[0]), acts[1..]); }
  }

  /** What compaction reads from the hour files. */
  function HeadIn(c: Codec, file: bytes): Head {
    map id <- c.series(file) :: c.read(file, id)
  }

  function RawOf(c: Codec, files: map<int, bytes>): Raw {
    map h <- files :: HeadIn(c, files[h])
  }

  lemma {:induction false} ReadsAsClosed(c: Codec, s: Db, h: int, id: uint32)
    requires !s.memOnly && h in s.files && Sound(c, s.files[h])
    ensures At(RawOf(c, s.files)[h], id) == Closed(c, s, h, id)
  {
  }

  lemma {:induction false} FileInHour(c: Codec, files: map<int, bytes>, h: int, id: uint32)
    requires h in files && FileOwn(c, files[h], h)
    ensures InHour(At(RawOf(c, files)[h], id), h)
  {
    var pts := At(RawOf(c, files)[h], id);
    assert OwnSamples(c.read(files[h], id), h);
    forall i | 0 <= i < |pts| ensures HourOf(BucketOf(pts[i].t)) == h {
      BucketInHour(pts[i].t, h);
    }
  }

  /** After every guarded run, compaction finds in every hour file only samples of that hour. */
  lemma {:induction false} StoreGivesOwnHours(c: Codec, start: int, cut: int, acts: seq<Action>)
    requires Faithful(c) && GuardedRun(c, NewStore(false, start), acts) && cut % HOUR == 0
    ensures OwnHours(RawOf(c, After(c, NewStore(false, start), acts).db.files))
  {
    NewRefines(c, false, start, cut);
    OwnRun(c, NewStore(false, start), NewLog(start, cut), acts);
    var files := After(c, NewStore(false, start), acts).db.files;
    forall h, id: uint32 | h in files ensures InHour(At(RawOf(c, files)[h], id), h) {
      FileInHour(c, files, h, id);
    }
  }

  // ---- buckets are summaries of the log -------------------------------------------------------

  lemma {:induction false} OtherHour(t: int64, b: int64, h: int)
    requires (t >= 0 || t % HOUR == 0) && HourOf(b) == h && !(h <= t <= h + 3599)
    ensures BucketOf(t) != b
  {
    var own := t - t % 3600;
    assert own % 3600 == 0 && own <= t < own + 3600;
    BucketInHour(t, own);
  }

  /** Only samples of the bucket's hour fill the bucket. */
  lemma {:induction false} GatheredWindow(fl: Float, o: Option<Agg>, log: seq<Sample>, b: int64, h: int)
    requires InOwnHour(log) && HourOf(b) == h
    ensures Gathered(fl, o, Stored(log), b) == Gathered(fl, o, Stored(Window(log, h, h + 3599)), b)
    decreases |log|
  {
    if log != [] {
      var x := log[0];
      assert Stored(log)[0] == Sample(x.t, F32(x.v)) && Stored(log)[1..] == Stored(log[1..]);
      var o' := if BucketOf(x.t) == b then Added(fl, o, F32(x.v)) else o;
      GatheredWindow(fl, o', log[1..], b, h);
      var rest := Window(log[1..], h, h + 3599);
      if h <= x.t <= h + 3599 {
        assert Stored([x] + rest)[0] == Sample(x.t, F32(x.v)) && Stored([x] + rest)[1..] == Stored(rest);
      } else {
        OtherHour(x.t, b, h);
        assert [] + rest == rest;
      }
    }
  }

  lemma {:induction false} SummedIsLog(fl: Float, c: Codec, s: Db, l: Log, hs: seq<int>, id: uint32, b: int64)
    requires Refines(c, s, l) && !s.memOnly && Over(HourOf(b), s.hour) && l.cut <= HourOf(b)
    requires forall h <- s.files :: Sound(c, s.files[h])
    requires HourOf(b) in hs <==> HourOf(b) in s.files
    ensures Summed(fl, RawOf(c, s.files), hs, id, b) == Gathered(fl, None, Stored(Of(l, id)), b)
  {
    var h, log := HourOf(b), Of(l, id);
    assert Agree(c, s, l.cut, log, id);
    assert HourAgrees(c, s, log, id, h);
    GatheredWindow(fl, None, log, b, h);
    if h in s.files {
      ReadsAsClosed(c, s, h, id);
    } else {
      assert Closed(c, s, h, id) == [];
    }
  }

  /** A day of raw hours that no compaction has touched becomes, bucket by bucket, the summary of the
      log's samples of the bucket. */
  lemma {:induction false} FinalIsLog(fl: Float, c: Codec, s: Db, l: Log, roll: map<int, Rollup>, day: int,
                                      id: uint32, b: int64)
    requires Refines(c, s, l) && !s.memOnly && Over(HourOf(b), s.hour) && l.cut <= HourOf(b)
    requires forall h <- s.files :: Sound(c, s.files[h])
    requires day !in roll && DayOf(HourOf(b)) == day
    ensures Final(fl, Disk(RawOf(c, s.files), roll), day, id, b)
         == Finished(fl, Gathered(fl, None, Stored(Of(l, id)), b))
  {
    SummedIsLog(fl, c, s, l, DayHours(RawOf(c, s.files), day), id, b);
  }

  /** A bucket after some interrupted passes and then a full one over its day. */
  function AfterRerun(d0: Disk, ts: seq<Try>, day: int, r: Rollup, id: uint32, b: int64): Option<Bar> {
    var d := AllMoved(d0, MovesOf(ts));
    View(RollOf(AllMoved(d, Pass(day, r, DayHours(d.raw, day))), day), id, b)
  }

  /** However often the compaction was interrupted, in whatever days: once it went through, the day's
      rollup holds the summary of the log's samples of each bucket. */
  lemma {:induction false} CompactedIsLog(fl: Float, c: Codec, s: Db, l: Log, roll: map<int, Rollup>, ts: seq<Try>,
                                          day: int, r: Rollup, id: uint32, b: int64)
    requires Refines(c, s, l) && !s.memOnly && Over(HourOf(b), s.hour) && l.cut <= HourOf(b)
    requires forall h <- s.files :: Sound(c, s.files[h])
    requires day !in roll && DayOf(HourOf(b)) == day && Exact(fl)
    requires Interrupted(fl, Disk(RawOf(c, s.files), roll), ts)
    requires Allowed(fl, AllMoved(Disk(RawOf(c, s.files), roll), MovesOf(ts)), Replace(day, r))
    ensures var now := AfterRerun(Disk(RawOf(c, s.files), roll), ts, day, r, id, b);
      && now == Finished(fl, Gathered(fl, None, Stored(Of(l, id)), b))
      && (Ordered(fl) ==> Shows(fl, Values(Stored(Of(l, id)), b), now))
  {
    var d0 := Disk(RawOf(c, s.files), roll);
    if Ordered(fl) { GatheredShows(fl, Stored(Of(l, id)), b); }
    FinalIsLog(fl, c, s, l, roll, day, id, b);
    InterruptedAllowed(fl, d0, ts);
    MovesKeepFinal(fl, d0, MovesOf(ts), day, id, b);
    PassCompletes(fl, AllMoved(d0, MovesOf(ts)), day, r, id, b, 0);
  }

  // ---- rollups read back as they were written -------------------------------------------------

  /** What compaction and queries read from a rollup file. */
  function ReadRollup(z: Packer, file: bytes): Rollup {
    map id <- SeriesIn(file) :: Triples(SamplesIn(z, file, id))
  }

  /** How rollup files are written and read. */
  datatype RollCodec = RollCodec(write: Rollup -> bytes, read: bytes -> Rollup)

  function RollupCodec(z: Packer): RollCodec {
    RollCodec((r: Rollup) => RollupFile(z, r), (file: bytes) => ReadRollup(z, file))
  }

  ghost predicate ReadsBack(rc: RollCodec, r: Rollup) {
    rc.read(rc.write(r)) == r
  }

  ghost predicate SmallRollup(z: Packer, r: Rollup) {
    |RollupFile(z, r)| < TWO63 && |r| < 0x1_0000_0000 && forall i <- r :: |r[i]| < TWO63
  }

  /** Every value is one that truncation leaves alone. */
  ghost predicate AllCut(rows: seq<Bucket>) {
    forall i :: 0 <= i < |rows| ==> Cut(rows[i].bar) == rows[i].bar
  }

  lemma {:induction false} CutRowsSame(rows: seq<Bucket>)
    requires AllCut(rows)
    ensures CutRows(rows) == rows
  {
    if rows != [] {
      CutRowsSame(rows[1..]);
      assert rows == [rows[0]] + rows[1..];
    }
  }

  lemma {:induction false} RollupSeries(z: Packer, r: Rollup)
    requires SmallRollup(z, r)
    ensures SeriesIn(RollupFile(z, r)) == r.Keys
  {
    SameSize(r, RollupTable(r));
    TableSeries(z, ROLLUP, RollupTable(r));
  }

  lemma {:induction false} RowsReadBack(z: Packer, r: Rollup, id: uint32)
    requires Lossless(z) && SmallRollup(z, r) && id in r && AllCut(r[id])
    ensures Triples(SamplesIn(z, RollupFile(z, r), id)) == r[id]
  {
    RollupFileRoundTrip(z, r, id);
    CutRowsSame(r[id]);
  }

  lemma {:induction false} SameRollup(z: Packer, file: bytes, r: Rollup)
    requires SeriesIn(file) == r.Keys && forall id <- r :: Triples(SamplesIn(z, file, id)) == r[id]
    ensures ReadRollup(z, file) == r
  {
  }

  lemma {:induction false} RollupReadsBack(z: Packer, r: Rollup)
    requires Lossless(z) && SmallRollup(z, r) && forall id <- r :: AllCut(r[id])
    ensures ReadsBack(RollupCodec(z), r)
  {
    RollupSeries(z, r);
    forall id <- r ensures Triples(SamplesIn(z, RollupFile(z, r), id)) == r[id] { RowsReadBack(z, r, id); }
    SameRollup(z, RollupFile(z, r), r);
  }

  /** What RollupDay computes is of this kind, so its file reads back as the same rollup. */
  lemma {:induction false} RolledIsCut(fl: Float, r: Rollup, raw: Raw, hs: seq<int>, was: Rollup, id: uint32)
    requires IsRollup(fl, r, raw, hs, was) && id in r && Ascending(r[id])
    ensures AllCut(r[id])
  {
    var rows := r[id];
    forall i | 0 <= i < |rows| ensures Cut(rows[i].bar) == rows[i].bar {
      FindAt(rows, rows[i].t, i);
      assert View(r, id, rows[i].t) == Rolled(fl, raw, hs, was, id, rows[i].t);
      CutTwice(BarOf(fl, Prefer(fl, Summed(fl, raw, hs, id, rows[i].t), View(was, id, rows[i].t)).value));
    }
  }

  // ---- the directory --------------------------------------------------------------------------

  /** Hour files and rollup files, by their bytes. */
  datatype Files = Files(raw: map<int, bytes>, roll: map<int, bytes>)

  /** What is in them. */
  function Loaded(c: Codec, rc: RollCodec, fs: Files): Disk {
    Disk(RawOf(c, fs.raw), map day <- fs.roll :: rc.read(fs.roll[day]))
  }

  /** A rollup file is renamed into place, or an hour file is removed. */
  function FileMoved(rc: RollCodec, fs: Files, m: Move): Files {
    match m
    case Replace(day, r) => fs.(roll := fs.roll[day := rc.write(r)])
    case Remove(h) => fs.(raw := fs.raw - {h})
  }

  function AllFilesMoved(rc: RollCodec, fs: Files, ms: seq<Move>): Files
    decreases |ms|
  {
    if ms == [] then fs else AllFilesMoved(rc, FileMoved(rc, fs, ms[0]), ms[1..])
  }

  /** The rollups of these moves read back as written; RollupReadsBack says that computed ones do. */
  ghost predicate Readable(rc: RollCodec, ms: seq<Move>) {
    forall i :: 0 <= i < |ms| && ms[i].Replace? ==> ReadsBack(rc, ms[i].r)
  }

  lemma {:induction false} LoadedMove(c: Codec, rc: RollCodec, fs: Files, m: Move)
    requires m.Replace? ==> ReadsBack(rc, m.r)
    ensures Loaded(c, rc, FileMoved(rc, fs, m)) == Moved(Loaded(c, rc, fs), m)
  {
    assert Loaded(c, rc, FileMoved(rc, fs, m)).raw == Moved(Loaded(c, rc, fs), m).raw;
    assert Loaded(c, rc, FileMoved(rc, fs, m)).roll == Moved(Loaded(c, rc, fs), m).roll;
  }

  lemma {:induction false} LoadedMoves(c: Codec, rc: RollCodec, fs: Files, ms: seq<Move>)
    requires Readable(rc, ms)
    ensures Loaded(c, rc, AllFilesMoved(rc, fs, ms)) == AllMoved(Loaded(c, rc, fs), ms)
    decreases |ms|
  {
    if ms != [] {
      LoadedMove(c, rc, fs, ms[0]);
      LoadedMoves(c, rc, FileMoved(rc, fs, ms[0]), ms[1..]);
    }
  }

  lemma {:induction false} PassReadable(rc: RollCodec, day: int, r: Rollup, hs: seq<int>)
    requires ReadsBack(rc, r)
    ensures Readable(rc, Pass(day, r, hs))
  {
  }

  /** The directory after a pass over a day that is not interrupted. */
  function Compacted(c: Codec, rc: RollCodec, fs: Files, day: int, r: Rollup): Files {
    AllFilesMoved(rc, fs, Pass(day, r, DayHours(Loaded(c, rc, fs).raw, day)))
  }

  /** On the files: crash anywhere, any number of times, in the compaction of any days, and run again; the
      day's rollup file then reads as the one an uninterrupted run leaves. */
  lemma {:induction false} RerunOnDisk(c: Codec, rc: RollCodec, fl: Float, fs: Files, ts: seq<Try>, day: int,
                                       r: Rollup, r': Rollup, id: uint32, b: int64)
    requires Exact(fl) && Interrupted(fl, Loaded(c, rc, fs), ts) && Readable(rc, MovesOf(ts))
    requires ReadsBack(rc, r) && ReadsBack(rc, r')
    requires Allowed(fl, Loaded(c, rc, fs), Replace(day, r))
    requires Allowed(fl, Loaded(c, rc, AllFilesMoved(rc, fs, MovesOf(ts))), Replace(day, r'))
    ensures View(RollOf(Loaded(c, rc, Compacted(c, rc, AllFilesMoved(rc, fs, MovesOf(ts)), day, r')), day), id, b)
         == View(RollOf(Loaded(c, rc, Compacted(c, rc, fs, day, r)), day), id, b)
  {
    var crashed := AllFilesMoved(rc, fs, MovesOf(ts));
    LoadedMoves(c, rc, fs, MovesOf(ts));
    PassReadable(rc, day, r, DayHours(Loaded(c, rc, fs).raw, day));
    LoadedMoves(c, rc, fs, Pass(day, r, DayHours(Loaded(c, rc, fs).raw, day)));
    PassReadable(rc, day, r', DayHours(Loaded(c, rc, crashed).raw, day));
    LoadedMoves(c, rc, crashed, Pass(day, r', DayHours(Loaded(c, rc, crashed).raw, day)));
    RerunAfterCrashes(fl, Loaded(c, rc, fs), ts, day, r, r', id, b);
  }
}
