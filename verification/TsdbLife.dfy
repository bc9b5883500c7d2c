/**
 * The store and its compaction together: samples arrive, hours close, checkpoints and crashes happen, and
 * in between passes of the compaction replace rollups and delete hours, get as far as they get, and are
 * run again.  At every moment the rollups hold the summaries of the plain log, the hours that are still
 * there hold its samples, and a query shows exactly those.
 */
module TsdbLife {
  import opened Wrappers
  import opened Bytes
  import opened TsdbFile
  import opened TsdbStore
  import opened TsdbLog
  import opened TsdbRuns
  import opened TsdbCompact
  import opened TsdbDisk
  import opened TsdbQuery

  // ---- lives ----------------------------------------------------------------------------------

  /** A store on disk and the rollups of its days. */
  datatype Life = Life(w: World, roll: Rollups)

  /** The store takes a step, a pass replaces the rollup of a day, a pass deletes an hour. */
  datatype Event = Run(a: Action) | Roll(day: int, r: Rollup) | Delete(h: int)

  function DiskOf(c: Codec, x: Life): Disk {
    Disk(RawOf(c, x.w.db.files), x.roll)
  }

  /** Passes work on days that are over, and delete hours only behind a rollup of their day. */
  ghost predicate Possible(fl: Float, c: Codec, x: Life, e: Event) {
    match e
    case Run(a) => Guarded(c, x.w, a) && !a.Drop?
    case Roll(day, r) =>
      && day % DAY == 0 && day + DAY <= x.w.db.hour
      && Allowed(fl, DiskOf(c, x), Replace(day, r)) && forall id <- r :: Ascending(r[id])
    case Delete(h) => DayOf(h) in x.roll
  }

  function Happens(c: Codec, x: Life, e: Event): Life {
    match e
    case Run(a) => x.(w := Next(c, x.w, a))
    case Roll(day, r) => x.(roll := x.roll[day := r])
    case Delete(h) => x.(w := Next(c, x.w, Drop(h, DayOf(h) + DAY)))
  }

  /** The plain log knows nothing of rollups. */
  function LogHappens(c: Codec, x: Life, l: Log, e: Event): Log {
    match e
    case Run(a) => LogNext(c, x.w, l, a)
    case Roll(_, _) => l
    case Delete(h) => LogNext(c, x.w, l, Drop(h, DayOf(h) + DAY))
  }

  ghost predicate Lived(fl: Float, c: Codec, x: Life, es: seq<Event>)
    decreases |es|
  {
    es == [] || (Possible(fl, c, x, es[0]) && Lived(fl, c, Happens(c, x, es[0]), es[1..]))
  }

  function Afterwards(c: Codec, x: Life, es: seq<Event>): Life
    decreases |es|
  {
    if es == [] then x else Afterwards(c, Happens(c, x, es[0]), es[1..])
  }

  function LogAfterwards(c: Codec, x: Life, l: Log, es: seq<Event>): Log
    decreases |es|
  {
    if es == [] then l else LogAfterwards(c, Happens(c, x, es[0]), LogHappens(c, x, l, es[0]), es[1..])
  }

  // ---- the invariant --------------------------------------------------------------------------

  /** What a rollup has to hold of a bucket: the summary of the log's samples of that bucket. */
  function Summary(fl: Float, l: Log, id: uint32, b: int64): Option<Bar> {
    Finished(fl, Gathered(fl, None, Stored(Of(l, id)), b))
  }

  /** In terms of the log's values: their mean, one that none is less than, one that is less than none. */
  lemma {:induction false} SummaryShows(fl: Float, l: Log, id: uint32, b: int64)
    requires Ordered(fl)
    ensures Shows(fl, Values(Stored(Of(l, id)), b), Summary(fl, l, id, b))
  {
    GatheredShows(fl, Stored(Of(l, id)), b);
  }

  /** A closed hour that is there holds its samples; one that is not there had none or is rolled up. */
  ghost predicate HourOk(c: Codec, x: Life, log: seq<Sample>, id: uint32, h: int) {
    && (h in x.w.db.files ==> HourAgrees(c, x.w.db, log, id, h))
    && (h !in x.w.db.files && DayOf(h) !in x.roll ==> Window(log, h, h + 3599) == [])
  }

  ghost predicate HoursOk(c: Codec, x: Life, l: Log) {
    forall h, id: uint32 :: Over(h, l.hour) ==> HourOk(c, x, Of(l, id), id, h)
  }

  ghost predicate IsSummary(fl: Float, r: Rollup, l: Log, day: int, id: uint32) {
    && DayOk(if id in r then r[id] else [], day)
    && forall b: int64 :: DayOf(b) == day ==> View(r, id, b) == Summary(fl, l, id, b)
  }

  ghost predicate RollsOk(fl: Float, x: Life, l: Log) {
    && (forall day <- x.roll :: day % DAY == 0 && day + DAY <= l.hour)
    && forall day, id: uint32 :: day in x.roll ==> IsSummary(fl, x.roll[day], l, day, id)
  }

  ghost predicate LifeInv(fl: Float, c: Codec, x: Life, l: Log) {
    && Inv(c, x.w, l) && Own(c, x.w) && !x.w.db.memOnly && l.cut <= l.hour
    && HoursOk(c, x, l) && RollsOk(fl, x, l)
  }

  // ---- steps of the store ---------------------------------------------------------------------

  /** No step of the store touches the file of a closed hour. */
  lemma {:induction false} FileStays(c: Codec, w: World, a: Action, h: int)
    requires Guarded(c, w, a) && !a.Drop? && h + HOUR <= w.db.hour
    ensures var files, files' := w.db.files, Next(c, w, a).db.files;
      (h in files' <==> h in files) && (h in files ==> files'[h] == files[h])
  {
  }

  lemma {:induction false} StepForward(c: Codec, w: World, l: Log, a: Action)
    requires Inv(c, w, l) && Guarded(c, w, a) && !a.Drop? && !w.db.memOnly
    ensures l.hour <= LogNext(c, w, l, a).hour && LogNext(c, w, l, a).cut == l.cut && !Next(c, w, a).db.memOnly
  {
  }

  lemma {:induction false} CrashWindow(c: Codec, w: World, cut: int, log: seq<Sample>, id: uint32, h: int)
    requires CheckpointOk(c, w, id) && Agree(c, w.db, cut, log, id) && h + HOUR <= w.db.hour
    ensures Window(Recovered(log, w.db.hour, Closed(c, w.db, w.db.hour, id)), h, h + 3599) == Window(log, h, h + 3599)
  {
    var f := Closed(c, w.db, w.db.hour, id);
    RecoveredShape(log, w.db.hour, f);
    RecoveredEarlier(log, w.db.hour, f, h, h + 3599);
  }

  ghost predicate SameHour(a: seq<Sample>, b: seq<Sample>, h: int) {
    Window(a, h, h + 3599) == Window(b, h, h + 3599)
  }

  /** No step of the store changes what the log holds of a closed hour. */
  lemma {:induction false} WindowStays(c: Codec, w: World, l: Log, a: Action, id: uint32, h: int)
    requires Inv(c, w, l) && Guarded(c, w, a) && !a.Drop? && h + HOUR <= l.hour
    ensures SameHour(Of(LogNext(c, w, l, a), id), Of(l, id), h)
  {
    match a
    case Append(i, t, v) =>
      if i == id && Accepts(Later(l.hour, HourOf(t)), t, v) {
        PutEarlier(Of(l, id), Sample(t, v.bits), h, h + 3599);
      }
    case Crash(now) =>
      assert Agree(c, w.db, l.cut, Of(l, id), id) && CheckpointOk(c, w, id);
      CrashWindow(c, w, l.cut, Of(l, id), id, h);
    case _ =>
  }

  lemma {:induction false} OldHour(c: Codec, x: Life, l: Log, a: Action, id: uint32, h: int)
    requires Inv(c, x.w, l) && !x.w.db.memOnly && Guarded(c, x.w, a) && !a.Drop? && h + HOUR <= l.hour
    requires HourOk(c, x, Of(l, id), id, h)
    ensures HourOk(c, Happens(c, x, Run(a)), Of(LogNext(c, x.w, l, a), id), id, h)
  {
    FileStays(c, x.w, a, h);
    WindowStays(c, x.w, l, a, id, h);
    StepForward(c, x.w, l, a);
  }

  /** An hour that is closed by a step lies behind the raw cut, where the store refines the log. */
  lemma {:induction false} NewHour(c: Codec, x: Life, l: Log, id: uint32, h: int)
    requires Refines(c, x.w.db, l) && !x.w.db.memOnly && Over(h, l.hour) && l.cut <= h
    ensures HourOk(c, x, Of(l, id), id, h)
  {
    assert Agree(c, x.w.db, l.cut, Of(l, id), id);
    assert HourAgrees(c, x.w.db, Of(l, id), id, h);
  }

  lemma {:induction false} RunHours(fl: Float, c: Codec, x: Life, l: Log, a: Action)
    requires Faithful(c) && LifeInv(fl, c, x, l) && Possible(fl, c, x, Run(a))
    ensures HoursOk(c, Happens(c, x, Run(a)), LogNext(c, x.w, l, a))
  {
    var x', l' := Happens(c, x, Run(a)), LogNext(c, x.w, l, a);
    Step(c, x.w, l, a);
    StepForward(c, x.w, l, a);
    forall h, id: uint32 | Over(h, l'.hour) ensures HourOk(c, x', Of(l', id), id, h) {
      if h + HOUR <= l.hour {
        assert Over(h, l.hour);
        OldHour(c, x, l, a, id, h);
      } else {
        HoursApart(h, l.hour);
        NewHour(c, x', l', id, h);
      }
    }
  }

  /** The summary of a bucket is made of the samples of its hour. */
  lemma {:induction false} SummaryOfHour(fl: Float, l: Log, l': Log, id: uint32, b: int64)
    requires InOwnHour(Of(l, id)) && InOwnHour(Of(l', id))
    requires SameHour(Of(l', id), Of(l, id), HourOf(b))
    ensures Summary(fl, l', id, b) == Summary(fl, l, id, b)
  {
    GatheredWindow(fl, None, Of(l, id), b, HourOf(b));
    GatheredWindow(fl, None, Of(l', id), b, HourOf(b));
  }

  lemma {:induction false} HoursOfDay(b: int, day: int)
    requires DayOf(b) == day
    ensures HourOf(b) + HOUR <= day + DAY
  {
  }

  lemma {:induction false} LogOwnHours(c: Codec, w: World, l: Log, id: uint32)
    requires Inv(c, w, l)
    ensures InOwnHour(Of(l, id))
  {
    assert Agree(c, w.db, l.cut, Of(l, id), id);
  }

  /** A rollup stays right when the log changes in hours that its day does not have. */
  lemma {:induction false} SummaryStays(fl: Float, r: Rollup, l: Log, l': Log, day: int, id: uint32)
    requires IsSummary(fl, r, l, day, id) && InOwnHour(Of(l, id)) && InOwnHour(Of(l', id))
    requires forall h :: h + HOUR <= day + DAY ==> SameHour(Of(l', id), Of(l, id), h)
    ensures IsSummary(fl, r, l', day, id)
  {
    forall b: int64 | DayOf(b) == day ensures View(r, id, b) == Summary(fl, l', id, b) {
      HoursOfDay(b, day);
      SummaryOfHour(fl, l, l', id, b);
    }
  }

  lemma {:induction false} RunRolls(fl: Float, c: Codec, x: Life, l: Log, a: Action)
    requires Faithful(c) && LifeInv(fl, c, x, l) && Possible(fl, c, x, Run(a))
    ensures RollsOk(fl, Happens(c, x, Run(a)), LogNext(c, x.w, l, a))
  {
    var l' := LogNext(c, x.w, l, a);
    Step(c, x.w, l, a);
    StepForward(c, x.w, l, a);
    forall day, id: uint32 | day in x.roll ensures IsSummary(fl, x.roll[day], l', day, id) {
      assert IsSummary(fl, x.roll[day], l, day, id);
      LogOwnHours(c, x.w, l, id);
      LogOwnHours(c, Next(c, x.w, a), l', id);
      forall h | h + HOUR <= day + DAY ensures SameHour(Of(l', id), Of(l, id), h) {
        WindowStays(c, x.w, l, a, id, h);
      }
      SummaryStays(fl, x.roll[day], l, l', day, id);
    }
  }

  lemma {:induction false} RunKeeps(fl: Float, c: Codec, x: Life, l: Log, a: Action)
    requires Faithful(c) && LifeInv(fl, c, x, l) && Possible(fl, c, x, Run(a))
    ensures LifeInv(fl, c, Happens(c, x, Run(a)), LogNext(c, x.w, l, a))
  {
    Step(c, x.w, l, a);
    OwnStep(c, x.w, l, a);
    StepForward(c, x.w, l, a);
    RunHours(fl, c, x, l, a);
    RunRolls(fl, c, x, l, a);
  }

  // ---- passes of the compaction ---------------------------------------------------------------

  /** What the raw hours hold of a bucket, when the file of its hour is there. */
  lemma {:induction false} RawBucket(fl: Float, c: Codec, x: Life, l: Log, hs: seq<int>, id: uint32, b: int64)
    requires !x.w.db.memOnly && InOwnHour(Of(l, id)) && HourOk(c, x, Of(l, id), id, HourOf(b))
    requires HourOf(b) in x.w.db.files && Sound(c, x.w.db.files[HourOf(b)]) && HourOf(b) in hs
    ensures Summed(fl, RawOf(c, x.w.db.files), hs, id, b) == Gathered(fl, None, Stored(Of(l, id)), b)
  {
    ReadsAsClosed(c, x.w.db, HourOf(b), id);
    GatheredWindow(fl, None, Of(l, id), b, HourOf(b));
  }

  lemma {:induction false} NoneStored(fl: Float, log: seq<Sample>, b: int64)
    requires InOwnHour(log) && Window(log, HourOf(b), HourOf(b) + 3599) == []
    ensures Gathered(fl, None, Stored(log), b) == None
  {
    GatheredWindow(fl, None, log, b, HourOf(b));
  }

  /** Raw over rolled up gives the summary of the log, however far earlier passes over the day got. */
  lemma {:induction false} PreferIsLog(fl: Float, raw: Option<Agg>, was: Option<Bar>, log: Option<Agg>, there: bool,
                                       rolled: bool)
    requires Exact(fl) && (there ==> raw == log) && (!there ==> raw == None)
    requires (rolled ==> was == Finished(fl, log)) && (!rolled ==> was == None) && (there || rolled || log == None)
    ensures Finished(fl, Prefer(fl, raw, was)) == Finished(fl, log)
  {
    if raw == None && rolled { FinishedTwice(fl, log); }
  }

  lemma {:induction false} RolledBucket(fl: Float, c: Codec, x: Life, l: Log, day: int, r: Rollup, id: uint32, b: int64)
    requires Exact(fl) && LifeInv(fl, c, x, l) && Possible(fl, c, x, Roll(day, r)) && DayOf(b) == day
    ensures View(r, id, b) == Summary(fl, l, id, b)
  {
    var d, h := DiskOf(c, x), HourOf(b);
    HoursOfDay(b, day);
    SameDay(b);
    assert Over(h, l.hour);
    assert HourOk(c, x, Of(l, id), id, h) && Agree(c, x.w.db, l.cut, Of(l, id), id);
    var raw := Summed(fl, d.raw, DayHours(d.raw, day), id, b);
    if h in x.w.db.files {
      RawBucket(fl, c, x, l, DayHours(d.raw, day), id, b);
    } else if day !in x.roll {
      NoneStored(fl, Of(l, id), b);
    }
    if day in x.roll { assert IsSummary(fl, x.roll[day], l, day, id); }
    PreferIsLog(fl, raw, View(RollOf(d, day), id, b), Gathered(fl, None, Stored(Of(l, id)), b),
                h in x.w.db.files, day in x.roll);
  }

  lemma {:induction false} RolledRows(fl: Float, c: Codec, x: Life, l: Log, day: int, r: Rollup, id: uint32)
    requires LifeInv(fl, c, x, l) && Possible(fl, c, x, Roll(day, r))
    ensures DayOk(if id in r then r[id] else [], day)
  {
    if day in x.roll { assert IsSummary(fl, x.roll[day], l, day, id); }
    CompactedDayOk(fl, DiskOf(c, x), day, r, id);
  }

  lemma {:induction false} RollKeeps(fl: Float, c: Codec, x: Life, l: Log, day: int, r: Rollup)
    requires Exact(fl) && LifeInv(fl, c, x, l) && Possible(fl, c, x, Roll(day, r))
    ensures LifeInv(fl, c, Happens(c, x, Roll(day, r)), l)
  {
    var x' := Happens(c, x, Roll(day, r));
    forall h, id: uint32 | Over(h, l.hour) ensures HourOk(c, x', Of(l, id), id, h) {
      assert HourOk(c, x, Of(l, id), id, h);
    }
    forall e, id: uint32 | e in x'.roll ensures IsSummary(fl, x'.roll[e], l, e, id) {
      if e == day {
        RolledRows(fl, c, x, l, day, r, id);
        forall b: int64 | DayOf(b) == day ensures View(r, id, b) == Summary(fl, l, id, b) {
          RolledBucket(fl, c, x, l, day, r, id, b);
        }
      } else {
        assert IsSummary(fl, x.roll[e], l, e, id);
      }
    }
  }

  lemma {:induction false} DropGuarded(c: Codec, w: World, h: int)
    requires DayOf(h) + DAY <= w.db.hour
    ensures Guarded(c, w, Drop(h, DayOf(h) + DAY))
  {
    DayIsHours(DayOf(h) + DAY);
  }

  lemma {:induction false} DeleteKeeps(fl: Float, c: Codec, x: Life, l: Log, h: int)
    requires Faithful(c) && LifeInv(fl, c, x, l) && Possible(fl, c, x, Delete(h))
    ensures LifeInv(fl, c, Happens(c, x, Delete(h)), LogHappens(c, x, l, Delete(h)))
  {
    var x', l' := Happens(c, x, Delete(h)), LogHappens(c, x, l, Delete(h));
    DropGuarded(c, x.w, h);
    Step(c, x.w, l, Drop(h, DayOf(h) + DAY));
    OwnStep(c, x.w, l, Drop(h, DayOf(h) + DAY));
    forall k, id: uint32 | Over(k, l'.hour) ensures HourOk(c, x', Of(l', id), id, k) {
      assert HourOk(c, x, Of(l, id), id, k);
    }
    forall day, id: uint32 | day in x.roll ensures IsSummary(fl, x.roll[day], l', day, id) {
      assert IsSummary(fl, x.roll[day], l, day, id);
    }
  }

  /** What rolling up a day relies on: the hour files hold only samples of their own hour. */
  lemma {:induction false} LifeGivesOwnHours(fl: Float, c: Codec, x: Life, l: Log)
    requires LifeInv(fl, c, x, l)
    ensures OwnHours(DiskOf(c, x).raw)
  {
    forall h, id: uint32 | h in x.w.db.files ensures InHour(At(DiskOf(c, x).raw[h], id), h) {
      FileInHour(c, x.w.db.files, h, id);
    }
  }

  // ---- every life -----------------------------------------------------------------------------

  lemma {:induction false} EventKeeps(fl: Float, c: Codec, x: Life, l: Log, e: Event)
    requires Faithful(c) && Exact(fl) && LifeInv(fl, c, x, l) && Possible(fl, c, x, e)
    ensures LifeInv(fl, c, Happens(c, x, e), LogHappens(c, x, l, e))
  {
    match e
    case Run(a) => RunKeeps(fl, c, x, l, a);
    case Roll(day, r) => RollKeeps(fl, c, x, l, day, r);
    case Delete(h) => DeleteKeeps(fl, c, x, l, h);
  }

  lemma {:induction false} LifeKeeps(fl: Float, c: Codec, x: Life, l: Log, es: seq<Event>)
    requires Faithful(c) && Exact(fl) && LifeInv(fl, c, x, l) && Lived(fl, c, x, es)
    ensures LifeInv(fl, c, Afterwards(c, x, es), LogAfterwards(c, x, l, es))
    decreases |es|
  {
    if es != [] {
      EventKeeps(fl, c, x, l, es[0]);
      LifeKeeps(fl, c, Happens(c, x, es[0]), LogHappens(c, x, l, es[0]), es[1..]);
    }
  }

  /** An empty directory. */
  function NewLife(start: int): Life {
    Life(NewStore(false, start), map[])
  }

  function FirstLog(start: int): Log {
    NewLog(start, HourOf(start))
  }

  lemma {:induction false} NewLifeInv(fl: Float, c: Codec, start: int)
    ensures LifeInv(fl, c, NewLife(start), FirstLog(start))
  {
    NewRefines(c, false, start, HourOf(start));
  }

  /** Over every life: each rollup that is there holds of every bucket of its day the summary of the log's
      samples, whatever passes broke off, came back, or found the store moved on. */
  lemma {:induction false} RollupsAreLog(fl: Float, c: Codec, start: int, es: seq<Event>, day: int, id: uint32,
                                         b: int64)
    requires Faithful(c) && Exact(fl) && Lived(fl, c, NewLife(start), es)
    requires day in Afterwards(c, NewLife(start), es).roll && DayOf(b) == day
    ensures View(Afterwards(c, NewLife(start), es).roll[day], id, b)
         == Summary(fl, LogAfterwards(c, NewLife(start), FirstLog(start), es), id, b)
    ensures Ordered(fl) ==>
      Shows(fl, Values(Stored(Of(LogAfterwards(c, NewLife(start), FirstLog(start), es), id)), b),
            View(Afterwards(c, NewLife(start), es).roll[day], id, b))
  {
    if Ordered(fl) { SummaryShows(fl, LogAfterwards(c, NewLife(start), FirstLog(start), es), id, b); }
    NewLifeInv(fl, c, start);
    LifeKeeps(fl, c, NewLife(start), FirstLog(start), es);
    assert IsSummary(fl, Afterwards(c, NewLife(start), es).roll[day],
                     LogAfterwards(c, NewLife(start), FirstLog(start), es), day, id);
  }

  // ---- what a query shows ---------------------------------------------------------------------

  /** The day of the bucket is one that the loop over the days gets to; from 1970 on it always is. */
  predicate Visited(to: int, rawCut: int, b: int)
    ensures 0 <= b <= to && b < rawCut ==> Visited(to, rawCut, b)
  {
    DayOf(b) <= to && DayOf(b) < rawCut
  }

  /** What a query finds of a bucket before the raw cut. */
  function Shown(fl: Float, x: Life, l: Log, id: uint32, from: int, to: int, rawCut: int, b: int64): Option<Bar> {
    if from <= b <= to && Visited(to, rawCut, b) && DayOf(b) in x.roll
    then Summary(fl, l, id, b) else None
  }

  lemma {:induction false} SeenIsShown(fl: Float, c: Codec, x: Life, l: Log, id: uint32, from: int, to: int,
                                       rawCut: int, b: int64)
    requires LifeInv(fl, c, x, l)
    ensures Seen(x.w.db, x.roll, id, from, to, rawCut, b) == Shown(fl, x, l, id, from, to, rawCut, b)
  {
    if DayOf(b) in x.roll { assert IsSummary(fl, x.roll[DayOf(b)], l, DayOf(b), id); }
  }

  lemma {:induction false} RollupDays(fl: Float, c: Codec, x: Life, l: Log, id: uint32)
    requires LifeInv(fl, c, x, l)
    ensures DaysOk(x.roll, id)
  {
    forall day | day % DAY == 0 ensures DayOk(RowsOfDay(x.roll, day, id), day) {
      if day in x.roll { assert IsSummary(fl, x.roll[day], l, day, id); }
    }
  }

  lemma {:induction false} QueryShows(fl: Float, c: Codec, x: Life, l: Log, id: uint32, from: int, to: int, rawCut: int)
    requires LifeInv(fl, c, x, l) && l.cut <= rawCut <= l.hour && rawCut % DAY == 0
    ensures var older := RollupPart(x.w.db, x.roll, id, from, to, rawCut);
      var raw := Points(Expected(l, false, id, Later(from, rawCut), to));
      && FullQuery(c, x.w.db, x.roll, id, from, to, rawCut) == older + raw && Ascending(older + raw)
      && forall b: int64 :: Find(older, b) == Shown(fl, x, l, id, from, to, rawCut, b)
  {
    RollupDays(fl, c, x, l, id);
    FullQueryParts(c, x.w.db, l, x.roll, id, from, to, rawCut);
    forall b: int64
      ensures Seen(x.w.db, x.roll, id, from, to, rawCut, b) == Shown(fl, x, l, id, from, to, rawCut, b)
    {
      SeenIsShown(fl, c, x, l, id, from, to, rawCut, b);
    }
  }

  /** After every life a query is, in strictly increasing time, the summaries of the log for the days that
      are rolled up before the raw cut, bucket by bucket, and the samples of the log from the cut on. */
  lemma {:induction false} WholeQueryIsLog(fl: Float, c: Codec, start: int, es: seq<Event>, id: uint32, from: int,
                                           to: int, rawCut: int)
    requires Faithful(c) && Exact(fl) && Lived(fl, c, NewLife(start), es) && rawCut % DAY == 0
    requires var l := LogAfterwards(c, NewLife(start), FirstLog(start), es); l.cut <= rawCut <= l.hour
    ensures var x, l := Afterwards(c, NewLife(start), es), LogAfterwards(c, NewLife(start), FirstLog(start), es);
      var older := RollupPart(x.w.db, x.roll, id, from, to, rawCut);
      var raw := Points(Expected(l, false, id, Later(from, rawCut), to));
      && FullQuery(c, x.w.db, x.roll, id, from, to, rawCut) == older + raw && Ascending(older + raw)
      && (forall b: int64 :: Find(older, b) == Shown(fl, x, l, id, from, to, rawCut, b))
      && (Ordered(fl) ==> forall b: int64 :: Find(older, b) != None ==>
            Shows(fl, Values(Stored(Of(l, id)), b), Find(older, b)))
  {
    forall b: int64 | Ordered(fl)
      ensures Shows(fl, Values(Stored(Of(LogAfterwards(c, NewLife(start), FirstLog(start), es), id)), b),
                    Summary(fl, LogAfterwards(c, NewLife(start), FirstLog(start), es), id, b))
    {
      SummaryShows(fl, LogAfterwards(c, NewLife(start), FirstLog(start), es), id, b);
    }
    NewLifeInv(fl, c, start);
    LifeKeeps(fl, c, NewLife(start), FirstLog(start), es);
    QueryShows(fl, c, Afterwards(c, NewLife(start), es), LogAfterwards(c, NewLife(start), FirstLog(start), es),
               id, from, to, rawCut);
  }

  ghost predicate AllShown(fl: Float, x: Life, l: Log, id: uint32, from: int, to: int, rawCut: int) {
    forall b: int64 :: from <= b <= to && b < rawCut ==>
      Find(RollupPart(x.w.db, x.roll, id, from, to, rawCut), b) == Summary(fl, l, id, b)
  }

  /** The older part is complete exactly when every day with a sample in range is rolled up and visited:
      until the compaction has run, a day that has passed the raw cut is not shown. */
  lemma {:induction false} QueryIsCompleteIff(fl: Float, c: Codec, start: int, es: seq<Event>, id: uint32, from: int,
                                              to: int, rawCut: int)
    requires Faithful(c) && Exact(fl) && Lived(fl, c, NewLife(start), es) && rawCut % DAY == 0
    requires var l := LogAfterwards(c, NewLife(start), FirstLog(start), es); l.cut <= rawCut <= l.hour
    ensures var x, l := Afterwards(c, NewLife(start), es), LogAfterwards(c, NewLife(start), FirstLog(start), es);
      AllShown(fl, x, l, id, from, to, rawCut)
      <==> forall b: int64 :: from <= b <= to && b < rawCut && Summary(fl, l, id, b).Some? ==>
             DayOf(b) in x.roll && Visited(to, rawCut, b)
  {
    WholeQueryIsLog(fl, c, start, es, id, from, to, rawCut);
  }
}
