/** A whole query: 5-minute buckets from the rollups before the raw cut, then samples from raw hours. */
module TsdbQuery {
  import opened Wrappers
  import opened Bytes
  import opened TsdbFile
  import opened TsdbStore
  import opened TsdbLog
  import opened TsdbCompact

  type Rollups = map<int, Rollup>

  function RowsOfDay(rollups: Rollups, day: int, id: uint32): seq<Bucket> {
    if day in rollups && id in rollups[day] then rollups[day][id] else []
  }

  function InRange(rows: seq<Bucket>, from: int, to: int): seq<Bucket> {
    if rows == [] then []
    else (if from <= rows[0].t <= to then [rows[0]] else []) + InRange(rows[1..], from, to)
  }

  /** The rollup days from `day` on, as far as they lie before the raw cut. */
  function Days(rollups: Rollups, id: uint32, day: int, from: int, to: int, rawCut: int): seq<Bucket>
    decreases rawCut - day
  {
    if day > to || day >= rawCut then []
    else InRange(RowsOfDay(rollups, day, id), from, to) + Days(rollups, id, day + DAY, from, to, rawCut)
  }

  /** A raw sample is its own mean, minimum and maximum. */
  function Points(s: seq<Sample>): (r: seq<Bucket>)
    ensures |r| == |s|
  {
    seq(|s|, i requires 0 <= i < |s| => Bucket(s[i].t, Bar(s[i].v, s[i].v, s[i].v)))
  }

  function RollupPart(s: Db, rollups: Rollups, id: uint32, from: int, to: int, rawCut: int): seq<Bucket> {
    if s.memOnly then [] else Days(rollups, id, DayOf(from), from, to, rawCut)
  }

  function FullQuery(c: Codec, s: Db, rollups: Rollups, id: uint32, from: int, to: int, rawCut: int): seq<Bucket> {
    RollupPart(s, rollups, id, from, to, rawCut) + Points(Query(c, s, id, from, to, rawCut))
  }

  // ---- rollups hold their own day -------------------------------------------------------------

  /** In time order, each bucket filed under the day its time is truncated to. */
  ghost predicate DayOk(rows: seq<Bucket>, day: int) {
    Ascending(rows) && forall i :: 0 <= i < |rows| ==> DayOf(rows[i].t) == day
  }

  ghost predicate DaysOk(rollups: Rollups, id: uint32) {
    forall day :: day % DAY == 0 ==> DayOk(RowsOfDay(rollups, day, id), day)
  }

  lemma {:induction false} TwoDivisions(t: nat)
    ensures t / 3600 / 24 == t / 86400
  {
  }

  lemma {:induction false} DayOfFullHour(n: nat)
    ensures n * 3600 / 86400 == n / 24
  {
  }

  /** A time and the hour it lies in are truncated to the same day. */
  lemma {:induction false} SameDay(t: int)
    ensures DayOf(HourOf(t)) == DayOf(t)
  {
    var n := if t >= 0 then t else -t;
    TwoDivisions(n);
    DayOfFullHour(n / 3600);
  }

  lemma {:induction false} DaysGrow(a: int, b: int)
    requires a <= b
    ensures DayOf(a) <= DayOf(b)
  {
  }

  lemma {:induction false} HourInDay(b: int, day: int)
    requires b >= 0 && DayOf(HourOf(b)) == day
    ensures day <= b < day + DAY
  {
  }

  lemma {:induction false} FullHours(b: int)
    requires b < 0 && b % HOUR == 0
    ensures HourOf(b) == b && (b % DAY == 0 <==> DayOf(b) == b)
  {
    assert (-b) % 3600 == 0;
  }

  /** Division truncates towards zero, so before 1970 only a bucket at the start of a day lies in the day
      it is filed under. */
  lemma {:induction false} BucketInItsDayIff(b: int)
    requires b >= 0 || b % HOUR == 0
    ensures (DayOf(HourOf(b)) <= b < DayOf(HourOf(b)) + DAY) <==> b >= 0 || b % DAY == 0
  {
    if b >= 0 {
      HourInDay(b, DayOf(HourOf(b)));
    } else {
      FullHours(b);
    }
  }

  lemma {:induction false} FoundInRows(rows: seq<Bucket>, b: int64)
    requires Find(rows, b).Some?
    ensures exists i :: 0 <= i < |rows| && rows[i].t == b
  {
    if rows[0].t == b {
      assert rows[0].t == b;
    } else {
      FoundInRows(rows[1..], b);
      var i :| 0 <= i < |rows[1..]| && rows[1..][i].t == b;
      assert rows[i + 1].t == b;
    }
  }

  lemma {:induction false} BucketInDay(fl: Float, d: Disk, day: int, id: uint32, b: int64)
    requires DayOk(RowsOfDay(d.roll, day, id), day)
    requires Rolled(fl, d.raw, DayHours(d.raw, day), RollOf(d, day), id, b).Some?
    ensures DayOf(b) == day
  {
    if Summed(fl, d.raw, DayHours(d.raw, day), id, b).Some? {
      SameDay(b);
    } else {
      FoundInRows(RowsOfDay(d.roll, day, id), b);
    }
  }

  /** Compacting a day gives a rollup that holds buckets of this day only. */
  lemma {:induction false} CompactedDayOk(fl: Float, d: Disk, day: int, r: Rollup, id: uint32)
    requires IsRollup(fl, r, d.raw, DayHours(d.raw, day), RollOf(d, day))
    requires DayOk(RowsOfDay(d.roll, day, id), day) && (id in r ==> Ascending(r[id]))
    ensures DayOk(RowsOfDay(d.roll[day := r], day, id), day)
  {
    var rows := RowsOfDay(d.roll[day := r], day, id);
    forall i | 0 <= i < |rows| ensures DayOf(rows[i].t) == day {
      FindAt(rows, rows[i].t, i);
      BucketInDay(fl, d, day, id, rows[i].t);
    }
  }

  lemma {:induction false} AscendingHead(rows: seq<Bucket>, rest: seq<Bucket>)
    requires rows != [] && Ascending(rows) && Ascending(rest) && forall x <- rest :: x in rows[1..]
    ensures Ascending([rows[0]] + rest)
  {
    forall j | 0 <= j < |rest| ensures rows[0].t < rest[j].t {
      assert rest[j] in rest;
    }
  }

  lemma {:induction false} InRangeKeeps(rows: seq<Bucket>, from: int, to: int)
    requires Ascending(rows)
    ensures Ascending(InRange(rows, from, to))
    ensures forall x <- InRange(rows, from, to) :: x in rows && from <= x.t <= to
  {
    if rows != [] {
      InRangeKeeps(rows[1..], from, to);
      AscendingHead(rows, InRange(rows[1..], from, to));
    }
  }

  lemma {:induction false} DayThenLater(a: seq<Bucket>, b: seq<Bucket>, day: int)
    requires Ascending(a) && Ascending(b) && (forall x <- a :: DayOf(x.t) == day) && (forall x <- b :: day < DayOf(x.t))
    ensures Ascending(a + b)
  {
    forall i, j | 0 <= i < |a| && 0 <= j < |b| ensures a[i].t < b[j].t {
      assert a[i] in a && b[j] in b;
      if b[j].t <= a[i].t { DaysGrow(b[j].t, a[i].t); }
    }
  }

  lemma {:induction false} DaysKeep(rollups: Rollups, id: uint32, day: int, from: int, to: int, rawCut: int)
    requires DaysOk(rollups, id) && day % DAY == 0
    ensures Ascending(Days(rollups, id, day, from, to, rawCut))
    ensures forall x <- Days(rollups, id, day, from, to, rawCut) :: day <= DayOf(x.t) < rawCut && from <= x.t <= to
    decreases rawCut - day
  {
    if day <= to && day < rawCut {
      DaysKeep(rollups, id, day + DAY, from, to, rawCut);
      assert DayOk(RowsOfDay(rollups, day, id), day);
      InRangeKeeps(RowsOfDay(rollups, day, id), from, to);
      DayThenLater(InRange(RowsOfDay(rollups, day, id), from, to),
                   Days(rollups, id, day + DAY, from, to, rawCut), day);
    }
  }

  lemma {:induction false} BeforeCut(t: int, rawCut: int)
    requires DayOf(t) < rawCut && rawCut % DAY == 0
    ensures t < rawCut
  {
  }

  // ---- looking a bucket up --------------------------------------------------------------------

  lemma {:induction false} FindInRange(rows: seq<Bucket>, from: int, to: int, b: int64)
    ensures Find(InRange(rows, from, to), b) == if from <= b <= to then Find(rows, b) else None
  {
    if rows != [] {
      FindInRange(rows[1..], from, to, b);
      var rest := InRange(rows[1..], from, to);
      assert [] + rest == rest && ([rows[0]] + rest)[1..] == rest;
    }
  }

  lemma {:induction false} FindConcat(x: seq<Bucket>, y: seq<Bucket>, b: int64)
    ensures Find(x + y, b) == if Find(x, b).Some? then Find(x, b) else Find(y, b)
  {
    if x == [] {
      assert x + y == y;
    } else {
      assert (x + y)[1..] == x[1..] + y;
      FindConcat(x[1..], y, b);
    }
  }

  lemma {:induction false} NotInDay(rows: seq<Bucket>, day: int, b: int64)
    requires DayOk(rows, day) && DayOf(b) != day
    ensures Find(rows, b) == None
  {
    if Find(rows, b).Some? { FoundInRows(rows, b); }
  }

  lemma {:induction false} DaysApart(a: int, b: int)
    requires a % DAY == 0 && b % DAY == 0 && a < b
    ensures a + DAY <= b
  {
  }

  /** Of the days the loop visits, only the bucket's own can hold it. */
  lemma {:induction false} DaysHold(rollups: Rollups, id: uint32, day: int, from: int, to: int, rawCut: int, b: int64)
    requires DaysOk(rollups, id) && day % DAY == 0
    ensures Find(Days(rollups, id, day, from, to, rawCut), b)
         == if from <= b <= to && day <= DayOf(b) <= to && DayOf(b) < rawCut
            then Find(RowsOfDay(rollups, DayOf(b), id), b) else None
    decreases rawCut - day
  {
    if day <= to && day < rawCut {
      var rows := RowsOfDay(rollups, day, id);
      DaysHold(rollups, id, day + DAY, from, to, rawCut, b);
      FindConcat(InRange(rows, from, to), Days(rollups, id, day + DAY, from, to, rawCut), b);
      FindInRange(rows, from, to, b);
      assert DayOk(rows, day);
      if DayOf(b) != day { NotInDay(rows, day, b); }
      if day < DayOf(b) { DaysApart(day, DayOf(b)); }
    }
  }

  // ---- the whole query ------------------------------------------------------------------------

  lemma {:induction false} ExpectedFrom(l: Log, memOnly: bool, id: uint32, from: int, to: int)
    requires Increasing(Of(l, id))
    ensures var e := Expected(l, memOnly, id, from, to);
      Increasing(e) && forall i :: 0 <= i < |e| ==> from <= e[i].t
  {
    WindowWithin(Of(l, id), from, if to < l.hour then to else l.hour - 1);
    WindowWithin(Of(l, id), Later(from, l.hour), to);
    ExpectedIncreasing(l, memOnly, id, from, to);
  }

  lemma {:induction false} RollupsThenRaw(older: seq<Bucket>, e: seq<Sample>, rawCut: int)
    requires Ascending(older) && Increasing(e) && (forall x <- older :: x.t < rawCut)
    requires forall i :: 0 <= i < |e| ==> rawCut <= e[i].t
    ensures Ascending(older + Points(e)) && forall x <- Points(e) :: rawCut <= x.t
  {
  }

  /** What the query finds of a bucket: what its day's rollup holds, if the loop gets to that day. */
  function Seen(s: Db, rollups: Rollups, id: uint32, from: int, to: int, rawCut: int, b: int64): Option<Bar> {
    if !s.memOnly && from <= b <= to && DayOf(b) <= to && DayOf(b) < rawCut
    then Find(RowsOfDay(rollups, DayOf(b), id), b) else None
  }

  lemma {:induction false} OlderPart(s: Db, rollups: Rollups, id: uint32, from: int, to: int, rawCut: int)
    requires DaysOk(rollups, id) && rawCut % DAY == 0
    ensures var older := RollupPart(s, rollups, id, from, to, rawCut);
      && Ascending(older) && (forall x <- older :: x.t < rawCut)
      && (forall b: int64 :: Find(older, b) == Seen(s, rollups, id, from, to, rawCut, b))
  {
    var older := RollupPart(s, rollups, id, from, to, rawCut);
    DaysKeep(rollups, id, DayOf(from), from, to, rawCut);
    forall x <- older ensures x.t < rawCut { BeforeCut(x.t, rawCut); }
    forall b: int64 ensures Find(older, b) == Seen(s, rollups, id, from, to, rawCut, b) {
      DaysHold(rollups, id, DayOf(from), from, to, rawCut, b);
      if from <= b { DaysGrow(from, b); }
    }
  }

  /** Rollups give buckets before the raw cut, each the one of its day's rollup, raw hours give exactly the
      log's samples from it on; the points of the two together are strictly increasing in time. */
  lemma {:induction false} FullQueryParts(c: Codec, s: Db, l: Log, rollups: Rollups, id: uint32, from: int, to: int,
                                          rawCut: int)
    requires Refines(c, s, l) && l.cut <= rawCut <= s.hour && rawCut % DAY == 0 && DaysOk(rollups, id)
    ensures var older := RollupPart(s, rollups, id, from, to, rawCut);
      var raw := Points(Expected(l, s.memOnly, id, Later(from, rawCut), to));
      && FullQuery(c, s, rollups, id, from, to, rawCut) == older + raw && Ascending(older + raw)
      && (forall x <- older :: x.t < rawCut) && (forall x <- raw :: rawCut <= x.t)
      && (forall b: int64 :: Find(older, b) == Seen(s, rollups, id, from, to, rawCut, b))
  {
    QueryIsLog(c, s, l, id, from, to, rawCut);
    OlderPart(s, rollups, id, from, to, rawCut);
    assert Agree(c, s, l.cut, Of(l, id), id);
    ExpectedFrom(l, s.memOnly, id, Later(from, rawCut), to);
    RollupsThenRaw(RollupPart(s, rollups, id, from, to, rawCut),
                   Expected(l, s.memOnly, id, Later(from, rawCut), to), rawCut);
  }

  lemma {:induction false} NoDays(rollups: Rollups, id: uint32, from: int, to: int, rawCut: int)
    requires rawCut <= from && rawCut % DAY == 0
    ensures Days(rollups, id, DayOf(from), from, to, rawCut) == []
  {
  }

  /** From the raw cut on, a query is the plain log and nothing else. */
  lemma {:induction false} RawQueryIsLog(c: Codec, s: Db, l: Log, rollups: Rollups, id: uint32, from: int, to: int,
                                         rawCut: int)
    requires Refines(c, s, l) && l.cut <= rawCut <= s.hour && rawCut <= from && rawCut % DAY == 0
    ensures FullQuery(c, s, rollups, id, from, to, rawCut) == Points(Expected(l, s.memOnly, id, from, to))
  {
    QueryIsLog(c, s, l, id, from, to, rawCut);
    NoDays(rollups, id, from, to, rawCut);
  }

  lemma {:induction false} Regroup(a: seq<Bucket>, b: seq<Bucket>, c: seq<Bucket>)
    ensures a + (b + c) == a + b + c
  {
  }

  lemma {:induction false} DaysStep(rollups: Rollups, id: uint32, day: int, from: int, to: int, rawCut: int,
                                    found: seq<Bucket>)
    requires day <= to && day < rawCut
    ensures found + Days(rollups, id, day, from, to, rawCut)
         == found + InRange(RowsOfDay(rollups, day, id), from, to) + Days(rollups, id, day + DAY, from, to, rawCut)
  {
    Regroup(found, InRange(RowsOfDay(rollups, day, id), from, to), Days(rollups, id, day + DAY, from, to, rawCut));
  }

  lemma {:induction false} InRangeStep(rows: seq<Bucket>, i: nat, from: int, to: int, picked: seq<Bucket>)
    requires i < |rows|
    ensures picked + InRange(rows[i..], from, to)
         == (if from <= rows[i].t <= to then picked + [rows[i]] else picked) + InRange(rows[i + 1..], from, to)
  {
  }

  method PickRows(rows: seq<Bucket>, from: int, to: int) returns (picked: seq<Bucket>)
    ensures picked == InRange(rows, from, to)
  {
    picked := [];
    for i := 0 to |rows|
      invariant picked + InRange(rows[i..], from, to) == InRange(rows, from, to)
    {
      InRangeStep(rows, i, from, to, picked);
      if from <= rows[i].t <= to {
        picked := picked + [rows[i]];
      }
    }
  }

  /** The loop over the rollup days. */
  method FindDays(rollups: Rollups, id: uint32, from: int, to: int, rawCut: int) returns (found: seq<Bucket>)
    ensures found == Days(rollups, id, DayOf(from), from, to, rawCut)
  {
    found := [];
    var day := DayOf(from);
    while day <= to && day < rawCut
      invariant found + Days(rollups, id, day, from, to, rawCut) == Days(rollups, id, DayOf(from), from, to, rawCut)
      decreases rawCut - day
    {
      var rows := RowsOfDay(rollups, day, id);
      var picked := PickRows(rows, from, to);
      DaysStep(rollups, id, day, from, to, rawCut, found);
      found := found + picked;
      day := day + DAY;
    }
    assert found + [] == found;
  }
}
