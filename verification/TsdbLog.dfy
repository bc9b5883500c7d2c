/**
 * The store refines a plain log: over every run of appends, clock ticks, checkpoints, compaction
 * deletes and crashes, a query returns exactly the accepted samples of the log.
 */
module TsdbLog {
  import opened Wrappers
  import opened Bytes
  import opened TsdbFile
  import opened TsdbStore

  // ---- windows --------------------------------------------------------------------------------

  ghost predicate Increasing(s: seq<Sample>) {
    forall i, j :: 0 <= i < j < |s| ==> s[i].t < s[j].t
  }

  ghost predicate Within(s: seq<Sample>, from: int, to: int) {
    forall i :: 0 <= i < |s| ==> from <= s[i].t <= to
  }

  lemma {:induction false} WindowWithin(s: seq<Sample>, from: int, to: int)
    ensures Within(Window(s, from, to), from, to)
  {
    if s != [] { WindowWithin(s[1..], from, to); }
  }

  /** A window of an increasing log is increasing, and no earlier than the log's first sample. */
  lemma {:induction false} WindowIncreasing(s: seq<Sample>, from: int, to: int)
    requires Increasing(s)
    ensures Increasing(Window(s, from, to))
    ensures forall x <- Window(s, from, to) :: s[0].t <= x.t
  {
    if s != [] { WindowIncreasing(s[1..], from, to); }
  }

  lemma {:induction false} WindowAll(s: seq<Sample>, from: int, to: int)
    requires Within(s, from, to)
    ensures Window(s, from, to) == s
  {
    if s != [] { WindowAll(s[1..], from, to); }
  }

  lemma {:induction false} WindowNone(s: seq<Sample>, from: int, to: int)
    requires forall i :: 0 <= i < |s| ==> !(from <= s[i].t <= to)
    ensures Window(s, from, to) == []
  {
    if s != [] { WindowNone(s[1..], from, to); }
  }

  /** Two ranges that pick the same samples. */
  lemma {:induction false} WindowSame(s: seq<Sample>, a: int, b: int, from: int, to: int)
    requires forall i :: 0 <= i < |s| ==> (a <= s[i].t <= b <==> from <= s[i].t <= to)
    ensures Window(s, a, b) == Window(s, from, to)
  {
    if s != [] { WindowSame(s[1..], a, b, from, to); }
  }

  lemma {:induction false} WindowConcat(a: seq<Sample>, b: seq<Sample>, from: int, to: int)
    ensures Window(a + b, from, to) == Window(a, from, to) + Window(b, from, to)
  {
    if a == [] {
      assert a + b == b;
    } else {
      assert (a + b)[1..] == a[1..] + b;
      WindowConcat(a[1..], b, from, to);
    }
  }

  lemma {:induction false} WindowTwice(s: seq<Sample>, a: int, b: int, from: int, to: int)
    ensures Window(Window(s, a, b), from, to)
         == Window(s, if a < from then from else a, if b < to then b else to)
  {
    if s != [] {
      WindowTwice(s[1..], a, b, from, to);
      WindowConcat(if a <= s[0].t <= b then [s[0]] else [], Window(s[1..], a, b), from, to);
    }
  }

  /** In an increasing log the samples before `mid` come before those from `mid` on. */
  lemma {:induction false} WindowSplit(s: seq<Sample>, from: int, mid: int, to: int)
    requires Increasing(s) && from <= mid <= to + 1
    ensures Window(s, from, to) == Window(s, from, mid - 1) + Window(s, mid, to)
  {
    if s == [] || s[0].t >= mid {
      WindowNone(s, from, mid - 1);
      WindowSame(s, from, to, mid, to);
    } else {
      WindowSplit(s[1..], from, mid, to);
      var first := if from <= s[0].t then [s[0]] else [];
      assert first + (Window(s[1..], from, mid - 1) + Window(s[1..], mid, to))
          == first + Window(s[1..], from, mid - 1) + Window(s[1..], mid, to);
    }
  }

  lemma {:induction false} WindowStored(s: seq<Sample>, from: int, to: int)
    ensures Window(Stored(s), from, to) == Stored(Window(s, from, to))
  {
    if s != [] {
      assert Stored(s)[1..] == Stored(s[1..]);
      WindowStored(s[1..], from, to);
    }
  }

  lemma {:induction false} StoredConcat(a: seq<Sample>, b: seq<Sample>)
    ensures Stored(a + b) == Stored(a) + Stored(b)
  {
  }

  // ---- the plain log --------------------------------------------------------------------------

  /** All accepted samples of each series; `hour` is the latest hour seen, `cut` where raw hours begin. */
  datatype Log = Log(hour: int, cut: int, series: map<uint32, seq<Sample>>)

  function Of(l: Log, id: uint32): seq<Sample> {
    if id in l.series then l.series[id] else []
  }

  function Later(a: int, b: int): int {
    if a < b then b else a
  }

  function LogAppend(l: Log, id: uint32, t: int64, v: Reading): Log {
    var hour := Later(l.hour, HourOf(t));
    if !Accepts(hour, t, v) then l.(hour := hour)
    else l.(hour := hour, series := l.series[id := Put(Of(l, id), Sample(t, v.bits))])
  }

  /** What a query over [from, to] must return: closed hours on disk have lost low mantissa bits. */
  function Expected(l: Log, memOnly: bool, id: uint32, from: int, to: int): seq<Sample> {
    var closed := Window(Of(l, id), from, if to < l.hour then to else l.hour - 1);
    (if memOnly then closed else Stored(closed)) + Window(Of(l, id), Later(from, l.hour), to)
  }

  // ---- the refinement relation ----------------------------------------------------------------

  function Kept(s: Db, pts: seq<Sample>): seq<Sample> {
    if s.memOnly then pts else Stored(pts)
  }

  /** h is the start of a closed hour. */
  ghost predicate Over(h: int, hour: int) {
    h % HOUR == 0 && h + HOUR <= hour
  }

  ghost predicate HourAgrees(c: Codec, s: Db, log: seq<Sample>, id: uint32, h: int) {
    Closed(c, s, h, id) == Kept(s, Window(log, h, h + 3599))
  }

  ghost predicate ClosedAgree(c: Codec, s: Db, cut: int, log: seq<Sample>, id: uint32) {
    forall h :: Over(h, s.hour) && cut <= h ==> HourAgrees(c, s, log, id, h)
  }

  ghost predicate Bounded(log: seq<Sample>, hour: int) {
    forall i :: 0 <= i < |log| ==> log[i].t < hour + HOUR
  }

  /** Division truncates toward zero, so of the times before 1970 only full hours are accepted. */
  ghost predicate InOwnHour(log: seq<Sample>) {
    forall i :: 0 <= i < |log| ==> log[i].t >= 0 || log[i].t % HOUR == 0
  }

  ghost predicate Agree(c: Codec, s: Db, cut: int, log: seq<Sample>, id: uint32) {
    && Increasing(log) && Bounded(log, s.hour) && InOwnHour(log)
    && At(s.head, id) == Window(log, s.hour, s.hour + 3599)
    && ClosedAgree(c, s, cut, log, id)
  }

  ghost predicate Refines(c: Codec, s: Db, l: Log) {
    && s.hour == l.hour && s.hour % HOUR == 0 && l.cut % HOUR == 0
    && forall id: uint32 :: Agree(c, s, l.cut, Of(l, id), id)
  }

  // ---- queries return the log -----------------------------------------------------------------

  /** What one closed hour contributes. */
  lemma {:induction false} OneHour(s: Db, log: seq<Sample>, h: int, from: int, to: int)
    ensures Window(Kept(s, Window(log, h, h + 3599)), from, to)
         == Kept(s, Window(log, Later(from, h), if to < h + 3599 then to else h + 3599))
  {
    WindowTwice(log, h, h + 3599, from, to);
    WindowStored(Window(log, h, h + 3599), from, to);
  }

  lemma {:induction false} WindowEmpty(s: seq<Sample>, from: int, to: int)
    requires from > to
    ensures Window(s, from, to) == []
  {
    WindowNone(s, from, to);
  }

  lemma {:induction false} JoinHours(log: seq<Sample>, h: int, from: int, last: int)
    requires Increasing(log) && h <= last
    ensures Window(log, Later(from, h), last)
         == Window(log, Later(from, h), if last < h + 3599 then last else h + 3599)
           + Window(log, Later(from, h + HOUR), last)
  {
    if last < h + HOUR {
      WindowEmpty(log, Later(from, h + HOUR), last);
    } else if from > h + 3599 {
      WindowEmpty(log, from, h + 3599);
    } else {
      WindowSplit(log, Later(from, h), h + HOUR, last);
    }
  }

  lemma {:induction false} HourThenRest(s: Db, log: seq<Sample>, h: int, from: int, to: int)
    requires Increasing(log) && h <= to && h + HOUR <= s.hour
    ensures var last := if to < s.hour then to else s.hour - 1;
      Window(Kept(s, Window(log, h, h + 3599)), from, to) + Kept(s, Window(log, Later(from, h + HOUR), last))
      == Kept(s, Window(log, Later(from, h), last))
  {
    var last := if to < s.hour then to else s.hour - 1;
    OneHour(s, log, h, from, to);
    JoinHours(log, h, from, last);
    StoredConcat(Window(log, Later(from, h), if last < h + 3599 then last else h + 3599),
                 Window(log, Later(from, h + HOUR), last));
  }

  lemma {:induction false} ClosedHours(c: Codec, s: Db, cut: int, log: seq<Sample>, id: uint32, h: int, from: int,
                                       to: int)
    requires ClosedAgree(c, s, cut, log, id) && Increasing(log) && h % HOUR == 0 && cut <= h && s.hour % HOUR == 0
    ensures HoursFrom(c, s, id, h, from, to)
         == Kept(s, Window(log, Later(from, h), if to < s.hour then to else s.hour - 1))
    decreases s.hour - h
  {
    var last := if to < s.hour then to else s.hour - 1;
    if h > to || h >= s.hour {
      WindowEmpty(log, Later(from, h), last);
    } else {
      ClosedHours(c, s, cut, log, id, h + HOUR, from, to);
      assert Over(h, s.hour);
      assert HourAgrees(c, s, log, id, h);
      HourThenRest(s, log, h, from, to);
    }
  }

  lemma {:induction false} IncreasingConcat(a: seq<Sample>, b: seq<Sample>, mid: int)
    requires Increasing(a) && Increasing(b)
    requires (forall i :: 0 <= i < |a| ==> a[i].t < mid) && (forall i :: 0 <= i < |b| ==> mid <= b[i].t)
    ensures Increasing(a + b)
  {
  }

  lemma {:induction false} ExpectedIncreasing(l: Log, memOnly: bool, id: uint32, from: int, to: int)
    requires Increasing(Of(l, id))
    ensures Increasing(Expected(l, memOnly, id, from, to))
  {
    var last := if to < l.hour then to else l.hour - 1;
    var a, b := Window(Of(l, id), from, last), Window(Of(l, id), Later(from, l.hour), to);
    WindowIncreasing(Of(l, id), from, last);
    WindowIncreasing(Of(l, id), Later(from, l.hour), to);
    WindowWithin(Of(l, id), from, last);
    WindowWithin(Of(l, id), Later(from, l.hour), to);
    IncreasingConcat(if memOnly then a else Stored(a), b, l.hour);
  }

  /** The first hour a query looks at is no later than any accepted sample it may return. */
  lemma {:induction false} StartsEarlyEnough(t: int, from: int, rawCut: int)
    requires (t >= 0 || t % HOUR == 0) && from <= t && rawCut <= t
    ensures StartHour(from, rawCut) <= t
  {
  }

  lemma {:induction false} StartWindow(log: seq<Sample>, from: int, rawCut: int, last: int)
    requires InOwnHour(log)
    ensures Window(log, Later(from, StartHour(from, rawCut)), last) == Window(log, Later(from, rawCut), last)
  {
    forall i | 0 <= i < |log| && from <= log[i].t && rawCut <= log[i].t ensures StartHour(from, rawCut) <= log[i].t {
      StartsEarlyEnough(log[i].t, from, rawCut);
    }
    WindowSame(log, Later(from, StartHour(from, rawCut)), last, Later(from, rawCut), last);
  }

  lemma {:induction false} DayIsHours(t: int)
    requires t % DAY == 0
    ensures t % HOUR == 0
  {
    var days := t / DAY;
    assert t == HOUR * (24 * days);
  }

  lemma {:induction false} StartAligned(from: int, rawCut: int)
    requires rawCut % DAY == 0
    ensures StartHour(from, rawCut) % HOUR == 0
  {
    DayIsHours(rawCut);
  }

  lemma {:induction false} ClosedPart(c: Codec, s: Db, cut: int, log: seq<Sample>, id: uint32, from: int, to: int,
                                      rawCut: int)
    requires ClosedAgree(c, s, cut, log, id) && Increasing(log) && InOwnHour(log)
    requires cut <= rawCut && rawCut % DAY == 0 && s.hour % HOUR == 0
    ensures HoursFrom(c, s, id, StartHour(from, rawCut), from, to)
         == Kept(s, Window(log, Later(from, rawCut), if to < s.hour then to else s.hour - 1))
  {
    StartAligned(from, rawCut);
    ClosedHours(c, s, cut, log, id, StartHour(from, rawCut), from, to);
    StartWindow(log, from, rawCut, if to < s.hour then to else s.hour - 1);
  }

  lemma {:induction false} OpenPart(log: seq<Sample>, hour: int, from: int, to: int)
    requires Bounded(log, hour)
    ensures Window(Window(log, hour, hour + 3599), from, to) == Window(log, Later(from, hour), to)
  {
    WindowTwice(log, hour, hour + 3599, from, to);
    WindowSame(log, Later(from, hour), if hour + 3599 < to then hour + 3599 else to, Later(from, hour), to);
  }

  lemma {:induction false} QuerySeries(c: Codec, s: Db, cut: int, log: seq<Sample>, id: uint32, from: int, to: int,
                                       rawCut: int)
    requires Agree(c, s, cut, log, id) && s.hour % HOUR == 0 && cut <= rawCut <= s.hour && rawCut % DAY == 0
    ensures Query(c, s, id, from, to, rawCut)
         == Kept(s, Window(log, Later(from, rawCut), if to < s.hour then to else s.hour - 1))
           + Window(log, Later(from, s.hour), to)
  {
    ClosedPart(c, s, cut, log, id, from, to, rawCut);
    OpenPart(log, s.hour, from, to);
  }

  /** For every id and every range, what a query takes from raw hours is the log's window from the raw
      cut on. */
  lemma {:induction false} QueryIsLog(c: Codec, s: Db, l: Log, id: uint32, from: int, to: int, rawCut: int)
    requires Refines(c, s, l) && l.cut <= rawCut <= s.hour && rawCut % DAY == 0
    ensures Query(c, s, id, from, to, rawCut) == Expected(l, s.memOnly, id, Later(from, rawCut), to)
    ensures Increasing(Query(c, s, id, from, to, rawCut))
  {
    assert Agree(c, s, l.cut, Of(l, id), id);
    QuerySeries(c, s, l.cut, Of(l, id), id, from, to, rawCut);
    ExpectedIncreasing(l, s.memOnly, id, Later(from, rawCut), to);
    assert Later(Later(from, rawCut), s.hour) == Later(from, s.hour);
  }

  // ---- runs -----------------------------------------------------------------------------------

  datatype Action = Append(id: uint32, t: int64, v: Reading) | Tick(now: int) | Begin | Write
                  | Drop(h: int, cut: int) | Crash(now: int)

  /** The store and the checkpoint that is being written, if any. */
  datatype World = World(db: Db, pending: Option<Snap>)

  function Next(c: Codec, w: World, a: Action): World {
    match a
    case Append(id, t, v) => w.(db := Appended(c, w.db, id, t, v))
    case Tick(now) => w.(db := Rollover(c, w.db, now))
    case Begin => var r := TsdbStore.Begin(w.db); World(r.0, r.1)
    case Write => if w.pending.None? then w else World(Finish(c, w.db, w.pending.value), None)
    case Drop(h, _) => w.(db := w.db.(files := w.db.files - {h}))
    case Crash(now) => World(Open(c, w.db.files, now), None)
  }

  predicate RollFits(c: Codec, s: Db, now: int) {
    HourOf(now) > s.hour && !s.memOnly && s.head != map[] ==> c.fits(s.head)
  }

  /** What a step needs: files that can be written, one checkpoint at a time, no rollover between the
      two halves of a checkpoint, compaction behind the open hour, a clock that does not go back. */
  predicate Guarded(c: Codec, w: World, a: Action) {
    match a
    case Append(_, t, _) => RollFits(c, w.db, t)
    case Tick(now) => RollFits(c, w.db, now)
    case Begin => w.pending.None? && c.fits(w.db.head)
    case Write => w.pending.Some? ==> w.pending.value.hour == w.db.hour
    case Drop(h, cut) => h < cut <= w.db.hour && cut % HOUR == 0
    case Crash(now) => !w.db.memOnly && HourOf(now) >= w.db.hour
  }

  const FIRST: int := -0x8000_0000_0000_0000

  /** A crash takes a series back to its closed hours and the checkpoint of the open one. */
  function Recovered(log: seq<Sample>, hour: int, checkpoint: seq<Sample>): seq<Sample> {
    Window(log, FIRST, hour - 1) + checkpoint
  }

  function LogNext(c: Codec, w: World, l: Log, a: Action): Log {
    match a
    case Append(id, t, v) => LogAppend(l, id, t, v)
    case Tick(now) => l.(hour := Later(l.hour, HourOf(now)))
    case Drop(_, cut) => l.(cut := Later(l.cut, cut))
    case Crash(now) =>
      l.(hour := HourOf(now),
         series := map id <- l.series :: Recovered(l.series[id], w.db.hour, Closed(c, w.db, w.db.hour, id)))
    case _ => l
  }

  // ---- checkpoints ----------------------------------------------------------------------------

  /** An earlier version of a series: its times come first, and only its last value may differ. */
  ghost predicate Older(a: seq<Sample>, b: seq<Sample>) {
    && |a| <= |b|
    && (forall i :: 0 <= i < |a| ==> a[i].t == b[i].t)
    && (forall i :: 0 <= i < |a| - 1 ==> a[i] == b[i])
  }

  /** What the newest checkpoint, written or being written, holds for a series. */
  function Latest(c: Codec, w: World, id: uint32): seq<Sample> {
    if w.pending.Some? && w.pending.value.hour == w.db.hour then Stored(At(w.pending.value.head, id))
    else Closed(c, w.db, w.db.hour, id)
  }

  ghost predicate CheckpointOk(c: Codec, w: World, id: uint32) {
    && Older(Closed(c, w.db, w.db.hour, id), Stored(At(w.db.head, id)))
    && Older(Latest(c, w, id), Stored(At(w.db.head, id)))
    && (!w.db.dirty ==> |Latest(c, w, id)| == |At(w.db.head, id)|)
  }

  /** A file whose chunks are all there and already truncated. */
  ghost predicate Sound(c: Codec, file: bytes) {
    forall id :: Stored(c.read(file, id)) == c.read(file, id) && (id !in c.series(file) ==> c.read(file, id) == [])
  }

  /** Nothing is stored beyond the open hour, and what a checkpoint stored of it can be read. */
  ghost predicate Tidy(c: Codec, s: Db) {
    && (forall h :: h in s.files && !s.memOnly ==> h <= s.hour)
    && (forall h :: h in s.past ==> h < s.hour)
    && (s.hour in s.files && !s.memOnly ==> Sound(c, s.files[s.hour]))
  }

  ghost predicate Pending(c: Codec, w: World) {
    w.pending.Some? ==> !w.db.memOnly && c.fits(w.pending.value.head) && w.pending.value.hour <= w.db.hour
  }

  ghost predicate Inv(c: Codec, w: World, l: Log) {
    && Refines(c, w.db, l) && Tidy(c, w.db) && Pending(c, w)
    && (!w.db.memOnly ==> forall id: uint32 :: CheckpointOk(c, w, id))
  }
}
