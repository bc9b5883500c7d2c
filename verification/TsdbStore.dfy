/**
 * The store around the files: an open hour in memory, closed hours on disk (or kept in memory when
 * there is no directory), checkpoints of the open hour, restarts.  A plain log per series, without
 * hours, files or checkpoints, says what a query must return.  Series are known by their ids.
 */
module TsdbStore {
  import opened Wrappers
  import opened Bytes
  import opened TsdbFile

  const HOUR: int := 3600
  const DAY: int := 86400

  /** Go's t / 3600 * 3600, which truncates toward zero. */
  function HourOf(t: int): (h: int)
    ensures h % 3600 == 0
    ensures t >= 0 ==> h <= t < h + 3600
    ensures t < 0 ==> t <= h < t + 3600
  {
    if t >= 0 then t / 3600 * 3600 else -(-t / 3600 * 3600)
  }

  function DayOf(t: int): (d: int)
    ensures d % 86400 == 0
    ensures t >= 0 ==> d <= t < d + 86400
    ensures t < 0 ==> t <= d < t + 86400
  {
    if t >= 0 then t / 86400 * 86400 else -(-t / 86400 * 86400)
  }

  /** A float64 as Append receives it: not finite, or its float32 bits. */
  datatype Reading = NotFinite | Finite(bits: uint32)

  /** How hour files are written and read, and which heads a file can hold. */
  datatype Codec = Codec(
    fits: Head -> bool,
    write: Head -> bytes,
    series: bytes -> set<uint32>,
    read: (bytes, uint32) -> seq<Sample>)

  function At(head: Head, id: uint32): seq<Sample> {
    if id in head then head[id] else []
  }

  ghost predicate Holds(c: Codec, head: Head, file: bytes) {
    c.series(file) == head.Keys && forall id :: c.read(file, id) == Stored(At(head, id))
  }

  ghost predicate Faithful(c: Codec) {
    forall head :: c.fits(head) ==> Holds(c, head, c.write(head))
  }

  predicate Small(z: Packer, head: Head) {
    && |HourFile(z, head)| < TWO63 && |head| < 0x1_0000_0000
    && forall i <- head :: |head[i]| < TWO63
  }

  /** The hour files as they are, around any lossless compression. */
  function FileCodec(z: Packer): Codec {
    Codec((head: Head) => Small(z, head), (head: Head) => HourFile(z, head),
          (file: bytes) => SeriesIn(file), (file: bytes, id: uint32) => SamplesIn(z, file, id))
  }

  lemma {:induction false} FileHoldsHead(z: Packer, head: Head)
    requires Lossless(z) && Small(z, head)
    ensures Holds(FileCodec(z), head, HourFile(z, head))
  {
    var c, file := FileCodec(z), HourFile(z, head);
    HourFileSeries(z, head);
    forall id: uint32 ensures c.read(file, id) == Stored(At(head, id)) {
      HourFileRoundTrip(z, head, id);
    }
  }

  /** What is proved of the store for a faithful codec holds of the bytes on disk. */
  lemma {:induction false} FileCodecIsFaithful(z: Packer)
    requires Lossless(z)
    ensures Faithful(FileCodec(z))
  {
    forall head | FileCodec(z).fits(head) ensures Holds(FileCodec(z), head, FileCodec(z).write(head)) {
      FileHoldsHead(z, head);
    }
  }

  // ---- the database ---------------------------------------------------------------------------

  datatype Db = Db(memOnly: bool, hour: int, head: Head, dirty: bool,
                   files: map<int, bytes>, past: map<int, Head>)

  /** The samples of a series in a closed hour, as a query sees them. */
  function Closed(c: Codec, s: Db, h: int, id: uint32): seq<Sample> {
    if s.memOnly then if h in s.past then At(s.past[h], id) else []
    else if h in s.files then c.read(s.files[h], id)
    else []
  }

  function Rollover(c: Codec, s: Db, now: int): Db {
    if HourOf(now) <= s.hour then s
    else
      var s1 :=
        if s.head == map[] then s
        else if s.memOnly then s.(past := s.past[s.hour := s.head])
        else s.(files := s.files[s.hour := c.write(s.head)]);
      s1.(head := map[], hour := HourOf(now), dirty := false)
  }

  /** A later sample is appended, one at the last time replaces it, an earlier one is dropped. */
  function Put(log: seq<Sample>, x: Sample): seq<Sample> {
    if log == [] || log[|log| - 1].t < x.t then log + [x]
    else if log[|log| - 1].t == x.t then log[..|log| - 1] + [x]
    else log
  }

  predicate Accepts(hour: int, t: int64, v: Reading) {
    t >= hour && v.Finite?
  }

  function Appended(c: Codec, s: Db, id: uint32, t: int64, v: Reading): Db {
    var s1 := Rollover(c, s, t);
    if !Accepts(s1.hour, t, v) then s1
    else
      var pts := At(s1.head, id);
      s1.(head := s1.head[id := Put(pts, Sample(t, v.bits))],
          dirty := s1.dirty || pts == [] || pts[|pts| - 1].t < t)
  }

  datatype Snap = Snap(hour: int, head: Head)

  function Begin(s: Db): (r: (Db, Option<Snap>)) {
    if s.memOnly || !s.dirty then (s, None) else (s.(dirty := false), Some(Snap(s.hour, s.head)))
  }

  function Finish(c: Codec, s: Db, snap: Snap): Db {
    s.(files := s.files[snap.hour := c.write(snap.head)])
  }

  /** A restart from the directory: the open hour comes back from its checkpoint, if there is one. */
  function Open(c: Codec, files: map<int, bytes>, now: int): Db {
    var h := HourOf(now);
    var head := if h in files then map id <- c.series(files[h]) :: c.read(files[h], id) else map[];
    Db(false, h, head, false, files, map[])
  }

  // ---- queries --------------------------------------------------------------------------------

  /** The samples with from <= t <= to, in order. */
  function Window(pts: seq<Sample>, from: int, to: int): seq<Sample> {
    if pts == [] then []
    else (if from <= pts[0].t <= to then [pts[0]] else []) + Window(pts[1..], from, to)
  }

  lemma {:induction false} WindowStep(pts: seq<Sample>, i: nat, from: int, to: int, out: seq<Sample>)
    requires i < |pts|
    ensures out + Window(pts[i..], from, to)
         == out + (if from <= pts[i].t <= to then [pts[i]] else []) + Window(pts[i + 1..], from, to)
  {
    assert pts[i..][1..] == pts[i + 1..];
  }

  method Select(pts: seq<Sample>, from: int, to: int) returns (out: seq<Sample>)
    ensures out == Window(pts, from, to)
  {
    out := [];
    for i := 0 to |pts|
      invariant out + Window(pts[i..], from, to) == Window(pts, from, to)
    {
      WindowStep(pts, i, from, to, out);
      out := out + if from <= pts[i].t <= to then [pts[i]] else [];
    }
  }

  /** The closed hours from h on. */
  function HoursFrom(c: Codec, s: Db, id: uint32, h: int, from: int, to: int): seq<Sample>
    decreases s.hour - h
  {
    if h > to || h >= s.hour then []
    else Window(Closed(c, s, h, id), from, to) + HoursFrom(c, s, id, h + HOUR, from, to)
  }

  lemma {:induction false} HoursStep(c: Codec, s: Db, id: uint32, h: int, from: int, to: int, out: seq<Sample>)
    requires h <= to && h < s.hour
    ensures out + HoursFrom(c, s, id, h, from, to)
         == out + Window(Closed(c, s, h, id), from, to) + HoursFrom(c, s, id, h + HOUR, from, to)
  {
  }

  /** First hour a query looks at. */
  function StartHour(from: int, rawCut: int): int {
    if HourOf(from) < rawCut then rawCut else HourOf(from)
  }

  function Query(c: Codec, s: Db, id: uint32, from: int, to: int, rawCut: int): seq<Sample> {
    HoursFrom(c, s, id, StartHour(from, rawCut), from, to) + Window(At(s.head, id), from, to)
  }

  class Store {
    const codec: Codec
    const memOnly: bool
    var hour: int
    var head: Head
    var dirty: bool
    var files: map<int, bytes>
    var past: map<int, Head>

    ghost function State(): Db
      reads this
    {
      Db(memOnly, hour, head, dirty, files, past)
    }

    constructor (codec: Codec, memOnly: bool, files: map<int, bytes>, now: int)
      ensures this.codec == codec
      ensures State() == if memOnly then Db(true, HourOf(now), map[], false, files, map[]) else Open(codec, files, now)
    {
      this.codec, this.memOnly, this.files, past, dirty := codec, memOnly, files, map[], false;
      hour := HourOf(now);
      head := if !memOnly && HourOf(now) in files
      then map id <- codec.series(files[HourOf(now)]) :: codec.read(files[HourOf(now)], id)
      else map[];
    }

    method RolloverLocked(now: int)
      modifies this
      ensures State() == Rollover(codec, old(State()), now)
    {
      var h := HourOf(now);
      if h <= hour {
        return;
      }
      if head != map[] {
        if memOnly {
          past := past[hour := head];
        } else {
          files := files[hour := codec.write(head)];
        }
      }
      head := map[];
      hour := h;
      dirty := false;
    }

    method Append(id: uint32, t: int64, v: Reading)
      modifies this
      ensures State() == Appended(codec, old(State()), id, t, v)
    {
      RolloverLocked(t);
      if t < hour || v.NotFinite? {
        return;
      }
      var pts := At(head, id);
      var n := |pts|;
      if n > 0 && pts[n - 1].t >= t {
        if pts[n - 1].t == t {
          head := head[id := pts[n - 1 := Sample(t, v.bits)]];
          assert pts[n - 1 := Sample(t, v.bits)] == Put(pts, Sample(t, v.bits));
        } else {
          assert head[id := pts] == head;
        }
        return;
      }
      head := head[id := pts + [Sample(t, v.bits)]];
      dirty := true;
    }

    /** The locked half of Checkpoint. */
    method BeginCheckpoint() returns (snap: Option<Snap>)
      modifies this
      ensures (State(), snap) == Begin(old(State()))
    {
      if memOnly || !dirty {
        return None;
      }
      snap := Some(Snap(hour, head));
      dirty := false;
    }

    /** The half that writes after the lock is released. */
    method FinishCheckpoint(snap: Snap)
      modifies this
      ensures State() == Finish(codec, old(State()), snap)
    {
      files := files[snap.hour := codec.write(snap.head)];
    }

    method ReadHour(h: int, id: uint32) returns (pts: seq<Sample>)
      ensures pts == Closed(codec, State(), h, id)
    {
      if memOnly {
        return if h in past then At(past[h], id) else [];
      }
      pts := if h in files then codec.read(files[h], id) else [];
    }

    /** Query's loop over the closed hours. */
    method FindClosed(id: uint32, start: int, from: int, to: int) returns (out: seq<Sample>)
      ensures out == HoursFrom(codec, State(), id, start, from, to)
    {
      out := [];
      var h := start;
      ghost var s := State();
      ghost var all := HoursFrom(codec, s, id, start, from, to);
      while h <= to && h < hour
        invariant out + HoursFrom(codec, s, id, h, from, to) == all
        decreases hour - h
      {
        var pts := ReadHour(h, id);
        var found := Select(pts, from, to);
        HoursStep(codec, s, id, h, from, to, out);
        out := out + found;
        h := h + HOUR;
      }
    }

    method Find(id: uint32, from: int, to: int, rawCut: int) returns (out: seq<Sample>)
      ensures out == Query(codec, State(), id, from, to, rawCut)
    {
      var startHour := HourOf(from);
      if startHour < rawCut {
        startHour := rawCut;
      }
      var closed := FindClosed(id, startHour, from, to);
      var open := Select(At(head, id), from, to);
      out := closed + open;
    }
  }

}
