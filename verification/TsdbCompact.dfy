/**
 * Compaction: the raw hours of a day become one rollup of 5-minute buckets, the rollup replaces the
 * day's file, and only then the hours are deleted.  A crash may fall between any two of these.
 * An hour file that cannot be read counts as one without samples.
 */
module TsdbCompact {
  import opened Wrappers
  import opened Bytes
  import opened TsdbBytes
  import opened Sorting
  import opened TsdbFile
  import opened TsdbStore

  /** The float arithmetic in use; sums are float64, known by their bits. */
  datatype Float = Float(
    widen: uint32 -> nat,
    add: (nat, uint32) -> nat,
    mean: (nat, nat) -> uint32,
    less: (uint32, uint32) -> bool)

  /** Widening a stored mean and dividing it by one gives it back.  Only means are ever widened again, so
      nothing is asked of signalling NaNs, which conversion quiets. */
  ghost predicate Exact(fl: Float) {
    forall s: nat, n: nat :: fl.mean(fl.widen(F32(fl.mean(s, n))), 1) == F32(fl.mean(s, n))
  }

  datatype Agg = Agg(sum: nat, n: nat, lo: uint32, hi: uint32)

  /** The values of one bucket, as a rollup file holds them. */
  datatype Bar = Bar(avg: uint32, lo: uint32, hi: uint32)

  datatype Bucket = Bucket(t: int64, bar: Bar)

  type Rollup = map<uint32, seq<Bucket>>

  type Acc = map<uint32, map<int64, Agg>>

  function BucketOf(t: int64): (b: int64)
    ensures t >= 0 ==> b <= t < b + 300 && b >= 0
    ensures t < 0 ==> b - 300 < t <= b
    ensures b % 300 == 0
  {
    var x: int := t;
    if x >= 0 then x / 300 * 300 else -(-x / 300 * 300)
  }

  function Cut(b: Bar): Bar {
    Bar(F32(b.avg), F32(b.lo), F32(b.hi))
  }

  lemma {:induction false} CutTwice(b: Bar)
    ensures Cut(Cut(b)) == Cut(b)
  {
    F32Idempotent(b.avg);
    F32Idempotent(b.lo);
    F32Idempotent(b.hi);
  }

  function BarOf(fl: Float, a: Agg): Bar {
    Bar(fl.mean(a.sum, a.n), a.lo, a.hi)
  }

  function Restored(fl: Float, b: Bar): Agg {
    Agg(fl.widen(b.avg), 1, b.lo, b.hi)
  }

  // ---- accumulating ---------------------------------------------------------------------------

  function Added(fl: Float, o: Option<Agg>, v: uint32): Option<Agg> {
    var a := if o.Some? then o.value else Agg(0, 0, v, v);
    Some(Agg(fl.add(a.sum, v), a.n + 1, if fl.less(v, a.lo) then v else a.lo, if fl.less(a.hi, v) then v else a.hi))
  }

  /** What a bucket holds after some more points. */
  function Gathered(fl: Float, o: Option<Agg>, pts: seq<Sample>, b: int64): Option<Agg>
    decreases |pts|
  {
    if pts == [] then o
    else Gathered(fl, if BucketOf(pts[0].t) == b then Added(fl, o, pts[0].v) else o, pts[1..], b)
  }

  function Get(m: map<int64, Agg>, b: int64): Option<Agg> {
    if b in m then Some(m[b]) else None
  }

  function Look(acc: Acc, id: uint32, b: int64): Option<Agg> {
    if id in acc then Get(acc[id], b) else None
  }

  // ---- what a bucket means --------------------------------------------------------------------

  /** The five minutes of bucket b, counted from 1970 in both directions. */
  predicate InBucket(t: int, b: int) {
    b % 300 == 0 && if t >= 0 then b <= t < b + 300 else b - 300 < t <= b
  }

  /** The values of the samples that lie in a bucket, in their order. */
  function Values(pts: seq<Sample>, b: int64): seq<uint32>
    decreases |pts|
  {
    if pts == [] then [] else (if InBucket(pts[0].t, b) then [pts[0].v] else []) + Values(pts[1..], b)
  }

  /** Adding up from the first to the last. */
  function Total(fl: Float, vs: seq<uint32>): nat {
    if vs == [] then 0 else fl.add(Total(fl, vs[..|vs| - 1]), vs[|vs| - 1])
  }

  /** All that is asked of comparison; that of floats is like this, NaN included. */
  ghost predicate Ordered(fl: Float) {
    && (forall x: uint32 :: !fl.less(x, x))
    && (forall x: uint32, y: uint32, z: uint32 :: fl.less(x, y) && fl.less(y, z) ==> fl.less(x, z))
  }

  ghost predicate Least(fl: Float, vs: seq<uint32>, v: uint32) {
    v in vs && forall x <- vs :: !fl.less(x, v)
  }

  ghost predicate Greatest(fl: Float, vs: seq<uint32>, v: uint32) {
    v in vs && forall x <- vs :: !fl.less(v, x)
  }

  /** Nothing of no values; else their sum, their number, one that no other is less than, and one that is
      less than no other. */
  ghost predicate Summarises(fl: Float, vs: seq<uint32>, o: Option<Agg>) {
    if vs == [] then o == None
    else
      && o.Some? && o.value.sum == Total(fl, vs) && o.value.n == |vs|
      && Least(fl, vs, o.value.lo) && Greatest(fl, vs, o.value.hi)
  }

  lemma {:induction false} BucketIff(t: int64, b: int64)
    ensures BucketOf(t) == b <==> InBucket(t, b)
  {
  }

  lemma {:induction false} AddedSummarises(fl: Float, vs: seq<uint32>, o: Option<Agg>, v: uint32)
    requires Ordered(fl) && Summarises(fl, vs, o)
    ensures Summarises(fl, vs + [v], Added(fl, o, v))
  {
    assert (vs + [v])[..|vs|] == vs;
    assert forall x :: x in vs + [v] <==> x in vs || x == v;
  }

  lemma {:induction false} Regroup(vs: seq<uint32>, v: uint32, rest: seq<uint32>)
    ensures vs + ([v] + rest) == vs + [v] + rest && vs + ([] + rest) == vs + rest
  {
  }

  lemma {:induction false} GatheredSummarises(fl: Float, vs: seq<uint32>, o: Option<Agg>, pts: seq<Sample>, b: int64)
    requires Ordered(fl) && Summarises(fl, vs, o)
    ensures Summarises(fl, vs + Values(pts, b), Gathered(fl, o, pts, b))
    decreases |pts|
  {
    if pts == [] {
      assert vs + [] == vs;
    } else {
      var o', vs' := o, vs;
      BucketIff(pts[0].t, b);
      if InBucket(pts[0].t, b) {
        AddedSummarises(fl, vs, o, pts[0].v);
        o', vs' := Added(fl, o, pts[0].v), vs + [pts[0].v];
      }
      GatheredSummarises(fl, vs', o', pts[1..], b);
      Regroup(vs, pts[0].v, Values(pts[1..], b));
    }
  }

  /** What a bucket with these values is in a rollup. */
  ghost predicate IsBar(fl: Float, vs: seq<uint32>, bar: Bar) {
    && bar.avg == F32(fl.mean(Total(fl, vs), |vs|))
    && (exists lo :: Least(fl, vs, lo) && bar.lo == F32(lo))
    && (exists hi :: Greatest(fl, vs, hi) && bar.hi == F32(hi))
  }

  ghost predicate Shows(fl: Float, vs: seq<uint32>, o: Option<Bar>) {
    if vs == [] then o == None else o.Some? && IsBar(fl, vs, o.value)
  }

  // ---- points, files and hours ----------------------------------------------------------------

  method AddPoints(fl: Float, m: map<int64, Agg>, pts: seq<Sample>) returns (r: map<int64, Agg>)
    ensures forall b: int64 :: Get(r, b) == Gathered(fl, Get(m, b), pts, b)
    ensures Ordered(fl) ==> forall b: int64, vs ::
      Summarises(fl, vs, Get(m, b)) ==> Summarises(fl, vs + Values(pts, b), Get(r, b))
  {
    r := m;
    for i := 0 to |pts|
      invariant forall b: int64 :: Gathered(fl, Get(r, b), pts[i..], b) == Gathered(fl, Get(m, b), pts, b)
    {
      assert pts[i..][1..] == pts[i + 1..];
      var b := BucketOf(pts[i].t);
      r := r[b := Added(fl, Get(r, b), pts[i].v).value];
    }
    forall b: int64, vs | Ordered(fl) && Summarises(fl, vs, Get(m, b))
      ensures Summarises(fl, vs + Values(pts, b), Get(r, b))
    {
      GatheredSummarises(fl, vs, Get(m, b), pts, b);
    }
  }

  /** The points of one series in one hour file only fill buckets of that hour. */
  ghost predicate InHour(pts: seq<Sample>, h: int) {
    forall i :: 0 <= i < |pts| ==> HourOf(BucketOf(pts[i].t)) == h
  }

  lemma {:induction false} SameMultiple(t: int, h: int)
    requires t % 3600 == 0 && h % 3600 == 0 && h <= t < h + 3600
    ensures t == h
  {
  }

  lemma {:induction false} FullHour(k: nat)
    requires -3600 * k >= -0x8000_0000_0000_0000
    ensures BucketOf(-3600 * k) == -3600 * k && HourOf(-3600 * k) == -3600 * k
  {
    if k > 0 {
      assert 3600 * k / 300 == 12 * k;
      assert 3600 * k / 3600 == k;
    }
  }

  lemma {:induction false} HourFrom(b: int, k: int)
    requires 3600 * k <= b < 3600 * k + 3600 && b >= 0
    ensures HourOf(b) == 3600 * k
  {
  }

  lemma {:induction false} DivBelow(t: nat, q: int)
    requires 300 * q <= t
    ensures q <= t / 300
  {
  }

  lemma {:induction false} BucketFrom(t: int64, h: int)
    requires t >= 0 && h % 3600 == 0 && h <= t
    ensures h <= BucketOf(t)
  {
    var k := h / 3600;
    assert h == 300 * (12 * k);
    DivBelow(t, 12 * k);
  }

  /** Accepted samples (TsdbLog.InOwnHour) lie in one bucket with others of their hour: 300 divides 3600. */
  lemma {:induction false} BucketInHour(t: int64, h: int)
    requires h % HOUR == 0 && h <= t < h + HOUR && (t >= 0 || t % HOUR == 0)
    ensures HourOf(BucketOf(t)) == h
  {
    if t < 0 {
      SameMultiple(t, h);
      FullHour(-(h / 3600));
    } else {
      BucketFrom(t, h);
      HourFrom(BucketOf(t), h / 3600);
    }
  }

  lemma {:induction false} GatheredElsewhere(fl: Float, o: Option<Agg>, pts: seq<Sample>, b: int64, h: int)
    requires InHour(pts, h) && HourOf(b) != h
    ensures Gathered(fl, o, pts, b) == o
    decreases |pts|
  {
    if pts != [] { GatheredElsewhere(fl, o, pts[1..], b, h); }
  }

  /** Every series of one hour file, in any order. */
  method AddFile(fl: Float, acc: Acc, head: Head) returns (r: Acc)
    ensures forall id: uint32, b: int64 :: Look(r, id, b) == Gathered(fl, Look(acc, id, b), At(head, id), b)
  {
    r := acc;
    var todo := head.Keys;
    while todo != {}
      invariant todo <= head.Keys
      invariant forall id: uint32 :: id in todo || id !in head ==>
        (id in r <==> id in acc) && (id in r ==> r[id] == acc[id])
      invariant forall id: uint32, b: int64 :: id in head && id !in todo ==>
        Look(r, id, b) == Gathered(fl, Look(acc, id, b), head[id], b)
    {
      var id :| id in todo;
      var m := AddPoints(fl, if id in r then r[id] else map[], head[id]);
      r := r[id := m];
      todo := todo - {id};
    }
  }

  type Raw = map<int, Head>

  ghost predicate OwnHours(raw: Raw) {
    forall h, id: uint32 :: h in raw ==> InHour(At(raw[h], id), h)
  }

  ghost predicate Distinct(hs: seq<int>) {
    forall i, j :: 0 <= i < j < |hs| ==> hs[i] != hs[j]
  }

  /** What the raw hours `hs` hold of a bucket: all its points come from one hour. */
  function Summed(fl: Float, raw: Raw, hs: seq<int>, id: uint32, b: int64): Option<Agg> {
    var h := HourOf(b);
    if h in hs && h in raw then Gathered(fl, None, At(raw[h], id), b) else None
  }

  lemma {:induction false} AddsOneHour(fl: Float, raw: Raw, done: seq<int>, h: int, id: uint32, b: int64)
    requires OwnHours(raw) && h in raw && h !in done
    ensures Gathered(fl, Summed(fl, raw, done, id, b), At(raw[h], id), b) == Summed(fl, raw, done + [h], id, b)
  {
    if HourOf(b) != h {
      GatheredElsewhere(fl, Summed(fl, raw, done, id, b), At(raw[h], id), b, h);
    }
  }

  /** All values that the hours `hs` hold of a bucket. */
  function ValuesOf(raw: Raw, hs: seq<int>, id: uint32, b: int64): seq<uint32>
    requires forall h <- hs :: h in raw
  {
    if hs == [] then []
    else
      var h := hs[|hs| - 1];
      assert h in hs;
      ValuesOf(raw, hs[..|hs| - 1], id, b) + Values(At(raw[h], id), b)
  }

  lemma {:induction false} SummedSummarises(fl: Float, raw: Raw, hs: seq<int>, id: uint32, b: int64)
    requires Ordered(fl) && OwnHours(raw) && Distinct(hs) && forall h <- hs :: h in raw
    ensures Summarises(fl, ValuesOf(raw, hs, id, b), Summed(fl, raw, hs, id, b))
  {
    if hs != [] {
      var init, h := hs[..|hs| - 1], hs[|hs| - 1];
      assert hs == init + [h];
      SummedSummarises(fl, raw, init, id, b);
      AddsOneHour(fl, raw, init, h, id, b);
      GatheredSummarises(fl, ValuesOf(raw, init, id, b), Summed(fl, raw, init, id, b), At(raw[h], id), b);
    }
  }

  /** All hour files of a day, in any order. */
  method AddFiles(fl: Float, raw: Raw, hs: seq<int>) returns (acc: Acc)
    requires OwnHours(raw) && forall i :: 0 <= i < |hs| ==> hs[i] in raw
    requires forall i, j :: 0 <= i < j < |hs| ==> hs[i] != hs[j]
    ensures forall id: uint32, b: int64 :: Look(acc, id, b) == Summed(fl, raw, hs, id, b)
  {
    acc := map[];
    for i := 0 to |hs|
      invariant forall id: uint32, b: int64 :: Look(acc, id, b) == Summed(fl, raw, hs[..i], id, b)
    {
      ghost var before := acc;
      acc := AddFile(fl, acc, raw[hs[i]]);
      forall id: uint32, b: int64 ensures Look(acc, id, b) == Summed(fl, raw, hs[..i + 1], id, b) {
        assert Look(before, id, b) == Summed(fl, raw, hs[..i], id, b);
        Snoc(hs, i);
        AddsOneHour(fl, raw, hs[..i], hs[i], id, b);
      }
    }
    assert hs[..|hs|] == hs;
  }

  // ---- merging and writing --------------------------------------------------------------------

  function Find(rows: seq<Bucket>, b: int64): Option<Bar> {
    if rows == [] then None else if rows[0].t == b then Some(rows[0].bar) else Find(rows[1..], b)
  }

  /** What a rollup holds of a bucket. */
  function View(roll: Rollup, id: uint32, b: int64): Option<Bar> {
    if id in roll then Find(roll[id], b) else None
  }

  function Prefer(fl: Float, a: Option<Agg>, was: Option<Bar>): Option<Agg> {
    if a.Some? then a else if was.Some? then Some(Restored(fl, was.value)) else None
  }

  method MergeRows(fl: Float, m: map<int64, Agg>, rows: seq<Bucket>) returns (r: map<int64, Agg>)
    ensures forall b: int64 :: Get(r, b) == Prefer(fl, Get(m, b), Find(rows, b))
  {
    r := m;
    for i := 0 to |rows|
      invariant forall b: int64 :: Prefer(fl, Get(r, b), Find(rows[i..], b)) == Prefer(fl, Get(m, b), Find(rows, b))
    {
      assert rows[i..][1..] == rows[i + 1..];
      if rows[i].t !in r {
        r := r[rows[i].t := Restored(fl, rows[i].bar)];
      }
    }
  }

  /** Existing buckets are kept where no raw hour has one. */
  method Merge(fl: Float, acc: Acc, was: Rollup) returns (r: Acc)
    ensures forall id: uint32, b: int64 :: Look(r, id, b) == Prefer(fl, Look(acc, id, b), View(was, id, b))
  {
    r := acc;
    var todo := was.Keys;
    while todo != {}
      invariant todo <= was.Keys
      invariant forall id: uint32 :: id in todo || id !in was ==>
        (id in r <==> id in acc) && (id in r ==> r[id] == acc[id])
      invariant forall id: uint32, b: int64 :: id in was && id !in todo ==>
        Look(r, id, b) == Prefer(fl, Look(acc, id, b), Find(was[id], b))
    {
      var id :| id in todo;
      var m := MergeRows(fl, if id in r then r[id] else map[], was[id]);
      r := r[id := m];
      todo := todo - {id};
    }
  }

  ghost predicate Ascending(rows: seq<Bucket>) {
    forall i, j :: 0 <= i < j < |rows| ==> rows[i].t < rows[j].t
  }

  lemma {:induction false} FindAt(rows: seq<Bucket>, b: int64, k: nat)
    requires Ascending(rows) && k < |rows| && rows[k].t == b
    ensures Find(rows, b) == Some(rows[k].bar)
  {
    if k > 0 { FindAt(rows[1..], b, k - 1); }
  }

  lemma {:induction false} FindNone(rows: seq<Bucket>, b: int64)
    requires forall k :: 0 <= k < |rows| ==> rows[k].t != b
    ensures Find(rows, b) == None
  {
    if rows != [] { FindNone(rows[1..], b); }
  }

  function Finished(fl: Float, a: Option<Agg>): Option<Bar> {
    if a.Some? then Some(Cut(BarOf(fl, a.value))) else None
  }

  /** Points that are gathered and written show their values. */
  lemma {:induction false} GatheredShows(fl: Float, pts: seq<Sample>, b: int64)
    requires Ordered(fl)
    ensures Shows(fl, Values(pts, b), Finished(fl, Gathered(fl, None, pts, b)))
  {
    GatheredSummarises(fl, [], None, pts, b);
    assert [] + Values(pts, b) == Values(pts, b);
  }

  /** One series' buckets in time order. */
  method Rows(fl: Float, m: map<int64, Agg>) returns (rows: seq<Bucket>)
    ensures Ascending(rows) && forall b: int64 :: Find(rows, b) == Finished(fl, Get(m, b))
  {
    var ts := Sorted(m.Keys);
    rows := [];
    for i := 0 to |ts|
      invariant |rows| == i
      invariant forall j :: 0 <= j < i ==> ts[j] in m && rows[j] == Bucket(ts[j], Cut(BarOf(fl, m[ts[j]])))
    {
      assert ts[i] in ts;
      rows := rows + [Bucket(ts[i], Cut(BarOf(fl, m[ts[i]])))];
    }
    forall b: int64 ensures Find(rows, b) == Finished(fl, Get(m, b)) {
      if b in m {
        var k :| 0 <= k < |ts| && ts[k] == b;
        FindAt(rows, b, k);
      } else {
        FindNone(rows, b);
      }
    }
  }

  method WriteRollup(fl: Float, acc: Acc) returns (r: Rollup)
    ensures forall id: uint32 :: id in r ==> Ascending(r[id])
    ensures forall id: uint32, b: int64 :: View(r, id, b) == Finished(fl, Look(acc, id, b))
  {
    r := map[];
    var todo := acc.Keys;
    while todo != {}
      invariant todo <= acc.Keys && r.Keys == acc.Keys - todo
      invariant forall id: uint32 :: id in r ==> Ascending(r[id])
      invariant forall id: uint32, b: int64 :: id in r ==> Find(r[id], b) == Finished(fl, Get(acc[id], b))
    {
      var id :| id in todo;
      var rows := Rows(fl, acc[id]);
      r := r[id := rows];
      todo := todo - {id};
    }
  }

  /** A bucket of the new rollup: from the raw hours if they have it, else from the old rollup. */
  function Rolled(fl: Float, raw: Raw, hs: seq<int>, was: Rollup, id: uint32, b: int64): Option<Bar> {
    Finished(fl, Prefer(fl, Summed(fl, raw, hs, id, b), View(was, id, b)))
  }

  ghost predicate IsRollup(fl: Float, r: Rollup, raw: Raw, hs: seq<int>, was: Rollup) {
    forall id: uint32, b: int64 :: View(r, id, b) == Rolled(fl, raw, hs, was, id, b)
  }

  /** A bucket of the new rollup, by the values that the raw hours hold of it: if there are none, the old
      rollup's bucket is taken over, its mean as one value. */
  ghost predicate DayShows(fl: Float, vs: seq<uint32>, was: Option<Bar>, now: Option<Bar>) {
    if vs == [] && was.Some? then
      var bar := was.value;
      now == Some(Bar(F32(fl.mean(fl.widen(bar.avg), 1)), F32(bar.lo), F32(bar.hi)))
    else Shows(fl, vs, now)
  }

  lemma {:induction false} RolledShows(fl: Float, raw: Raw, hs: seq<int>, was: Rollup, id: uint32, b: int64)
    requires Ordered(fl) && OwnHours(raw) && Distinct(hs) && forall h <- hs :: h in raw
    ensures DayShows(fl, ValuesOf(raw, hs, id, b), View(was, id, b), Rolled(fl, raw, hs, was, id, b))
  {
    SummedSummarises(fl, raw, hs, id, b);
  }

  ghost predicate RollupShows(fl: Float, r: Rollup, raw: Raw, hs: seq<int>, was: Rollup)
    requires forall h <- hs :: h in raw
  {
    forall id: uint32, b: int64 :: DayShows(fl, ValuesOf(raw, hs, id, b), View(was, id, b), View(r, id, b))
  }

  method RollupDay(fl: Float, raw: Raw, hs: seq<int>, was: Rollup) returns (r: Rollup)
    requires OwnHours(raw) && Distinct(hs) && forall i :: 0 <= i < |hs| ==> hs[i] in raw
    ensures IsRollup(fl, r, raw, hs, was)
    ensures Ordered(fl) ==> RollupShows(fl, r, raw, hs, was)
    ensures forall id: uint32 :: id in r ==> Ascending(r[id])
  {
    var acc := AddFiles(fl, raw, hs);
    var all := Merge(fl, acc, was);
    r := WriteRollup(fl, all);
    forall id: uint32, b: int64 | Ordered(fl)
      ensures DayShows(fl, ValuesOf(raw, hs, id, b), View(was, id, b), View(r, id, b))
    {
      RolledShows(fl, raw, hs, was, id, b);
    }
  }

  // ---- rollup files ---------------------------------------------------------------------------

  function BarRows(rows: seq<Bucket>): (r: seq<Row>)
    ensures |r| == |rows| && Uniform(r, 3)
  {
    seq(|rows|, i requires 0 <= i < |rows| => Row(rows[i].t, [rows[i].bar.avg, rows[i].bar.lo, rows[i].bar.hi]))
  }

  /** Samples come in threes: mean, minimum, maximum. */
  function Triples(s: seq<Sample>): seq<Bucket> {
    if |s| < 3 then [] else [Bucket(s[0].t, Bar(s[0].v, s[1].v, s[2].v))] + Triples(s[3..])
  }

  function CutRows(rows: seq<Bucket>): seq<Bucket> {
    if rows == [] then [] else [Bucket(rows[0].t, Cut(rows[0].bar))] + CutRows(rows[1..])
  }

  lemma {:induction false} TriplesBack(rows: seq<Bucket>)
    ensures Triples(Flatten(BarRows(rows))) == CutRows(rows)
  {
    if rows != [] {
      assert BarRows(rows)[1..] == BarRows(rows[1..]);
      var bar := rows[0].bar;
      var three := Samples(rows[0].t, [bar.avg, bar.lo, bar.hi]);
      assert (three + Flatten(BarRows(rows[1..])))[3..] == Flatten(BarRows(rows[1..]));
      TriplesBack(rows[1..]);
    }
  }

  function RollupTable(r: Rollup): Table {
    map id <- r :: BarRows(r[id])
  }

  function RollupFile(z: Packer, r: Rollup): bytes {
    TableFile(z, ROLLUP, RollupTable(r))
  }

  /** A rollup file gives every bucket back, times exactly and values under F32. */
  lemma {:induction false} RollupFileRoundTrip(z: Packer, r: Rollup, id: uint32)
    requires Lossless(z) && |RollupFile(z, r)| < TWO63
    requires |r| < 0x1_0000_0000 && forall i <- r :: |r[i]| < TWO63
    ensures ReadSeries(z, RollupFile(z, r), id).Ok?
    ensures Triples(ReadSeries(z, RollupFile(z, r), id).value) == if id in r then CutRows(r[id]) else []
  {
    SameSize(r, RollupTable(r));
    TableRoundTrip(z, ROLLUP, RollupTable(r), id);
    if id in r { TriplesBack(r[id]); }
  }

  // ---- the directory --------------------------------------------------------------------------

  datatype Disk = Disk(raw: Raw, roll: map<int, Rollup>)

  function RollOf(d: Disk, day: int): Rollup {
    if day in d.roll then d.roll[day] else map[]
  }

  function DayHours(raw: Raw, day: int): (hs: seq<int>)
    ensures Distinct(hs)
    ensures forall h :: h in hs <==> h in raw && DayOf(h) == day
  {
    Sorted(set h <- raw | DayOf(h) == day)
  }

  /** The rollup bucket an uninterrupted compaction of the day produces. */
  function Final(fl: Float, d: Disk, day: int, id: uint32, b: int64): Option<Bar> {
    Rolled(fl, d.raw, DayHours(d.raw, day), RollOf(d, day), id, b)
  }

  /** What the disk goes through: a rollup file is replaced, or an hour file disappears. */
  datatype Move = Replace(day: int, r: Rollup) | Remove(h: int)

  function Moved(d: Disk, m: Move): Disk {
    match m
    case Replace(day, r) => d.(roll := d.roll[day := r])
    case Remove(h) => d.(raw := d.raw - {h})
  }

  /** The hour's buckets are all in its day's rollup. */
  ghost predicate Saved(fl: Float, d: Disk, h: int) {
    forall id: uint32, b: int64 :: Summed(fl, d.raw, [h], id, b).Some? ==>
      View(RollOf(d, DayOf(h)), id, b) == Finished(fl, Summed(fl, d.raw, [h], id, b))
  }

  ghost predicate Allowed(fl: Float, d: Disk, m: Move) {
    match m
    case Replace(day, r) => IsRollup(fl, r, d.raw, DayHours(d.raw, day), RollOf(d, day))
    case Remove(h) => Saved(fl, d, h)
  }

  /** What was once written into a rollup is written again unchanged. */
  lemma {:induction false} FinishedTwice(fl: Float, a: Option<Agg>)
    requires Exact(fl)
    ensures Finished(fl, Prefer(fl, None, Finished(fl, a))) == Finished(fl, a)
  {
    if a.Some? { CutTwice(BarOf(fl, a.value)); }
  }

  lemma {:induction false} ReplaceKeepsFinal(fl: Float, d: Disk, day: int, r: Rollup, id: uint32, b: int64)
    requires Exact(fl) && Allowed(fl, d, Replace(day, r))
    ensures Final(fl, Moved(d, Replace(day, r)), day, id, b) == Final(fl, d, day, id, b)
  {
    assert View(r, id, b) == Final(fl, d, day, id, b);
    FinishedTwice(fl, Prefer(fl, Summed(fl, d.raw, DayHours(d.raw, day), id, b), View(RollOf(d, day), id, b)));
  }

  lemma {:induction false} RemoveKeepsFinal(fl: Float, d: Disk, h: int, day: int, id: uint32, b: int64)
    requires Exact(fl) && Allowed(fl, d, Remove(h))
    ensures Final(fl, Moved(d, Remove(h)), day, id, b) == Final(fl, d, day, id, b)
  {
    var gone := Summed(fl, d.raw, [h], id, b);
    if HourOf(b) == h && DayOf(h) == day && gone.Some? {
      assert View(RollOf(d, day), id, b) == Finished(fl, gone);
      FinishedTwice(fl, gone);
    }
  }

  /** No allowed move changes what a full compaction of any day would produce. */
  lemma {:induction false} MoveKeepsFinal(fl: Float, d: Disk, m: Move, day: int, id: uint32, b: int64)
    requires Exact(fl) && Allowed(fl, d, m)
    ensures Final(fl, Moved(d, m), day, id, b) == Final(fl, d, day, id, b)
  {
    if m.Remove? {
      RemoveKeepsFinal(fl, d, m.h, day, id, b);
    } else if m.day == day {
      ReplaceKeepsFinal(fl, d, day, m.r, id, b);
    }
  }

  // ---- interrupted compactions ----------------------------------------------------------------

  function AllMoved(d: Disk, ms: seq<Move>): Disk
    decreases |ms|
  {
    if ms == [] then d else AllMoved(Moved(d, ms[0]), ms[1..])
  }

  ghost predicate AllAllowed(fl: Float, d: Disk, ms: seq<Move>)
    decreases |ms|
  {
    ms == [] || (Allowed(fl, d, ms[0]) && AllAllowed(fl, Moved(d, ms[0]), ms[1..]))
  }

  lemma {:induction false} MovesKeepFinal(fl: Float, d: Disk, ms: seq<Move>, day: int, id: uint32, b: int64)
    requires Exact(fl) && AllAllowed(fl, d, ms)
    ensures Final(fl, AllMoved(d, ms), day, id, b) == Final(fl, d, day, id, b)
    decreases |ms|
  {
    if ms != [] {
      MoveKeepsFinal(fl, d, ms[0], day, id, b);
      MovesKeepFinal(fl, Moved(d, ms[0]), ms[1..], day, id, b);
    }
  }

  function Removes(hs: seq<int>): seq<Move> {
    seq(|hs|, i requires 0 <= i < |hs| => Remove(hs[i]))
  }

  /** One pass over a day, cut short after the rollup was replaced and `hs` was deleted. */
  function Pass(day: int, r: Rollup, hs: seq<int>): seq<Move> {
    [Replace(day, r)] + Removes(hs)
  }

  lemma {:induction false} ReplaceSaves(fl: Float, d: Disk, day: int, r: Rollup, h: int)
    requires Allowed(fl, d, Replace(day, r)) && DayOf(h) == day
    ensures Saved(fl, Moved(d, Replace(day, r)), h)
  {
    var d' := Moved(d, Replace(day, r));
    forall id: uint32, b: int64 | Summed(fl, d'.raw, [h], id, b).Some?
      ensures View(RollOf(d', DayOf(h)), id, b) == Finished(fl, Summed(fl, d'.raw, [h], id, b))
    {
      assert View(r, id, b) == Rolled(fl, d.raw, DayHours(d.raw, day), RollOf(d, day), id, b);
    }
  }

  lemma {:induction false} RemoveLeavesSaved(fl: Float, d: Disk, h: int, h': int)
    requires Saved(fl, d, h)
    ensures Saved(fl, Moved(d, Remove(h')), h)
  {
    var d' := Moved(d, Remove(h'));
    forall id: uint32, b: int64 | Summed(fl, d'.raw, [h], id, b).Some?
      ensures View(RollOf(d', DayOf(h)), id, b) == Finished(fl, Summed(fl, d'.raw, [h], id, b))
    {
      assert Summed(fl, d'.raw, [h], id, b) == Summed(fl, d.raw, [h], id, b);
    }
  }

  lemma {:induction false} RemovesAllowed(fl: Float, d: Disk, hs: seq<int>)
    requires forall i :: 0 <= i < |hs| ==> Saved(fl, d, hs[i])
    ensures AllAllowed(fl, d, Removes(hs))
    decreases |hs|
  {
    if hs != [] {
      var d' := Moved(d, Remove(hs[0]));
      forall i | 0 <= i < |hs[1..]| ensures Saved(fl, d', hs[1..][i]) {
        RemoveLeavesSaved(fl, d, hs[i + 1], hs[0]);
      }
      RemovesAllowed(fl, d', hs[1..]);
      assert Removes(hs)[1..] == Removes(hs[1..]);
    }
  }

  /** However far a pass gets before it is interrupted, all its moves are allowed: hours are deleted
      only behind the rollup that holds their buckets. */
  lemma {:induction false} PassAllowed(fl: Float, d: Disk, day: int, r: Rollup, hs: seq<int>)
    requires Allowed(fl, d, Replace(day, r)) && forall i :: 0 <= i < |hs| ==> DayOf(hs[i]) == day
    ensures AllAllowed(fl, d, Pass(day, r, hs))
  {
    var d' := Moved(d, Replace(day, r));
    forall i | 0 <= i < |hs| ensures Saved(fl, d', hs[i]) {
      ReplaceSaves(fl, d, day, r, hs[i]);
    }
    RemovesAllowed(fl, d', hs);
    assert Pass(day, r, hs)[1..] == Removes(hs);
  }

  lemma {:induction false} RemovesLeave(d: Disk, hs: seq<int>, h: int)
    ensures h in AllMoved(d, Removes(hs)).raw <==> h in d.raw && h !in hs
    ensures AllMoved(d, Removes(hs)).roll == d.roll
    decreases |hs|
  {
    if hs != [] {
      assert Removes(hs)[1..] == Removes(hs[1..]);
      RemovesLeave(Moved(d, Remove(hs[0])), hs[1..], h);
    }
  }

  /** A pass that is not interrupted leaves the final rollup and none of the day's hours. */
  lemma {:induction false} PassCompletes(fl: Float, d: Disk, day: int, r: Rollup, id: uint32, b: int64, h: int)
    requires Allowed(fl, d, Replace(day, r))
    ensures var d' := AllMoved(d, Pass(day, r, DayHours(d.raw, day)));
      && View(RollOf(d', day), id, b) == Final(fl, d, day, id, b)
      && (h in d'.raw <==> h in d.raw && DayOf(h) != day)
  {
    var hs := DayHours(d.raw, day);
    assert Pass(day, r, hs)[1..] == Removes(hs);
    RemovesLeave(Moved(d, Replace(day, r)), hs, h);
  }

  lemma {:induction false} MovesConcat(fl: Float, d: Disk, a: seq<Move>, b: seq<Move>)
    requires AllAllowed(fl, d, a) && AllAllowed(fl, AllMoved(d, a), b)
    ensures AllAllowed(fl, d, a + b) && AllMoved(d, a + b) == AllMoved(AllMoved(d, a), b)
    decreases |a|
  {
    if a == [] {
      assert a + b == b;
    } else {
      assert (a + b)[1..] == a[1..] + b;
      MovesConcat(fl, Moved(d, a[0]), a[1..], b);
    }
  }

  /** A pass over a day that a crash ended after it had replaced the rollup and deleted some of the hours.
      A pass that ends before the rename leaves nothing behind. */
  datatype Try = Try(day: int, r: Rollup, hs: seq<int>)

  function MovesOf(ts: seq<Try>): seq<Move> {
    if ts == [] then [] else Pass(ts[0].day, ts[0].r, ts[0].hs) + MovesOf(ts[1..])
  }

  /** Each pass starts from what the ones before it left. */
  ghost predicate Interrupted(fl: Float, d: Disk, ts: seq<Try>)
    decreases |ts|
  {
    ts == [] ||
    (&& Allowed(fl, d, Replace(ts[0].day, ts[0].r)) && (forall h <- ts[0].hs :: DayOf(h) == ts[0].day)
     && Interrupted(fl, AllMoved(d, Pass(ts[0].day, ts[0].r, ts[0].hs)), ts[1..]))
  }

  lemma {:induction false} InterruptedAllowed(fl: Float, d: Disk, ts: seq<Try>)
    requires Interrupted(fl, d, ts)
    ensures AllAllowed(fl, d, MovesOf(ts))
    decreases |ts|
  {
    if ts != [] {
      var pass := Pass(ts[0].day, ts[0].r, ts[0].hs);
      PassAllowed(fl, d, ts[0].day, ts[0].r, ts[0].hs);
      InterruptedAllowed(fl, AllMoved(d, pass), ts[1..]);
      MovesConcat(fl, d, pass, MovesOf(ts[1..]));
    }
  }

  /** Crash anywhere, any number of times, in the compaction of any days, and run again: the day's
      rollup is the one an uninterrupted run produces. */
  lemma {:induction false} RerunAfterCrashes(fl: Float, d: Disk, ts: seq<Try>, day: int, r: Rollup, r': Rollup,
                                             id: uint32, b: int64)
    requires Exact(fl) && Interrupted(fl, d, ts)
    requires Allowed(fl, d, Replace(day, r)) && Allowed(fl, AllMoved(d, MovesOf(ts)), Replace(day, r'))
    ensures var straight := AllMoved(d, Pass(day, r, DayHours(d.raw, day)));
      var crashed := AllMoved(d, MovesOf(ts));
      var rerun := AllMoved(crashed, Pass(day, r', DayHours(crashed.raw, day)));
      View(RollOf(rerun, day), id, b) == View(RollOf(straight, day), id, b)
  {
    PassCompletes(fl, d, day, r, id, b, 0);
    PassCompletes(fl, AllMoved(d, MovesOf(ts)), day, r', id, b, 0);
    InterruptedAllowed(fl, d, ts);
    MovesKeepFinal(fl, d, MovesOf(ts), day, id, b);
  }

  class Directory {
    var raw: Raw
    var roll: map<int, Rollup>

    ghost function State(): Disk
      reads this
    {
      Disk(raw, roll)
    }

    /** Compact's work on one day: roll up, replace, delete. */
    method CompactDay(fl: Float, day: int)
      requires OwnHours(raw)
      modifies this
      ensures forall id: uint32, b: int64 :: View(RollOf(State(), day), id, b) == Final(fl, old(State()), day, id, b)
      ensures forall h :: h in raw <==> h in old(raw) && DayOf(h) != day
      ensures forall h :: h in raw ==> raw[h] == old(raw[h])
      ensures forall d :: d != day ==> RollOf(State(), d) == RollOf(old(State()), d)
    {
      var hs := DayHours(raw, day);
      var r := RollupDay(fl, raw, hs, if day in roll then roll[day] else map[]);
      roll := roll[day := r];
      for i := 0 to |hs|
        invariant roll == old(roll)[day := r]
        invariant forall h :: h in raw <==> h in old(raw) && h !in hs[..i]
        invariant forall h :: h in raw ==> raw[h] == old(raw[h])
      {
        raw := raw - {hs[i]};
      }
    }
  }
}
