/** A restart in an hour before the open one: exactly when the store still refines its log. */
module TsdbBack {
  import opened Bytes
  import opened TsdbFile
  import opened TsdbStore
  import opened TsdbLog
  import opened TsdbRuns
  import TsdbDisk

  /** The log up to the hour that is opened again, with what its file holds of that hour. */
  function UpTo(log: seq<Sample>, back: int): seq<Sample> {
    Recovered(log, back, Stored(Window(log, back, back + 3599)))
  }

  /** What is accepted of a series and not lost: that, the hours after it, and the checkpoint of the hour
      that was open. */
  function BackTo(log: seq<Sample>, back: int, hour: int, checkpoint: seq<Sample>): seq<Sample> {
    UpTo(log, back) + (Window(log, back + HOUR, hour - 1) + checkpoint)
  }

  function LogBack(c: Codec, s: Db, l: Log, now: int): Log {
    l.(hour := HourOf(now),
       series := map id <- l.series :: BackTo(l.series[id], HourOf(now), s.hour, Closed(c, s, s.hour, id)))
  }

  /** No hour file after `back` has a sample of the series. */
  ghost predicate NothingLater(c: Codec, s: Db, back: int, id: uint32) {
    forall h :: h % HOUR == 0 && h > back ==> Closed(c, s, h, id) == []
  }

  lemma {:induction false} WindowHas(s: seq<Sample>, from: int, to: int, i: nat)
    requires i < |s| && from <= s[i].t <= to
    ensures Window(s, from, to) != []
  {
    if i > 0 {
      WindowHas(s[1..], from, to, i - 1);
    }
  }

  /** A sample between two hours lies in an hour of its own between them. */
  lemma {:induction false} OwnHourBetween(t: int64, back: int, hour: int)
    requires (t >= 0 || t % HOUR == 0) && back % HOUR == 0 && hour % HOUR == 0 && back + HOUR <= t < hour
    ensures var h := HourOf(t); h % HOUR == 0 && back < h <= t <= h + 3599 && Over(h, hour)
  {
    var h := HourOf(t);
    HoursApart(h, hour);
    HoursApart(back, h);
  }

  lemma {:induction false} NoneBetween(c: Codec, s: Db, cut: int, log: seq<Sample>, back: int, id: uint32)
    requires Agree(c, s, cut, log, id) && !s.memOnly && s.hour % HOUR == 0 && back % HOUR == 0 && cut <= back
    requires NothingLater(c, s, back, id)
    ensures Window(log, back + HOUR, s.hour - 1) == []
  {
    forall i | 0 <= i < |log| ensures !(back + HOUR <= log[i].t <= s.hour - 1) {
      if back + HOUR <= log[i].t <= s.hour - 1 {
        var h := HourOf(log[i].t);
        OwnHourBetween(log[i].t, back, s.hour);
        assert HourAgrees(c, s, log, id, h);
        WindowHas(log, h, h + 3599, i);
        assert false;
      }
    }
    WindowNone(log, back + HOUR, s.hour - 1);
  }

  /** The hour that is opened again, as its file holds it. */
  lemma {:induction false} BackLoads(c: Codec, s: Db, now: int, id: uint32)
    requires !s.memOnly && forall h <- s.files :: Sound(c, s.files[h])
    ensures var s' := Open(c, s.files, now);
      At(s'.head, id) == Closed(c, s, s'.hour, id) && forall h :: Closed(c, s', h, id) == Closed(c, s, h, id)
  {
  }

  lemma {:induction false} StoredShape(log: seq<Sample>, from: int, to: int)
    requires Increasing(log) && InOwnHour(log)
    ensures var f := Stored(Window(log, from, to)); Increasing(f) && Within(f, from, to) && InOwnHour(f)
  {
    WindowShape(log, from, to);
  }

  lemma {:induction false} UpToShape(log: seq<Sample>, back: int)
    requires Increasing(log) && InOwnHour(log)
    ensures var r := UpTo(log, back);
      && Increasing(r) && Bounded(r, back) && InOwnHour(r)
      && Window(r, back, back + 3599) == Stored(Window(log, back, back + 3599))
  {
    WindowShape(log, FIRST, back - 1);
    StoredShape(log, back, back + 3599);
    OpenHourLast(Window(log, FIRST, back - 1), Stored(Window(log, back, back + 3599)), back);
  }

  lemma {:induction false} BackClosed(c: Codec, s: Db, cut: int, log: seq<Sample>, now: int, id: uint32)
    requires ClosedAgree(c, s, cut, log, id) && Increasing(log) && InOwnHour(log) && !s.memOnly
    requires forall h <- s.files :: Sound(c, s.files[h])
    requires HourOf(now) <= s.hour
    ensures ClosedAgree(c, Open(c, s.files, now), cut, UpTo(log, HourOf(now)), id)
  {
    var back, s' := HourOf(now), Open(c, s.files, now);
    BackLoads(c, s, now, id);
    StoredShape(log, back, back + 3599);
    forall h | Over(h, back) && cut <= h ensures HourAgrees(c, s', UpTo(log, back), id, h) {
      assert HourAgrees(c, s, log, id, h);
      RecoveredEarlier(log, back, Stored(Window(log, back, back + 3599)), h, h + 3599);
    }
  }

  /** With nothing later the store starts again as it was at the end of that hour. */
  lemma {:induction false} BackAgrees(c: Codec, s: Db, cut: int, log: seq<Sample>, now: int, id: uint32)
    requires Agree(c, s, cut, log, id) && !s.memOnly && s.hour % HOUR == 0
    requires forall h <- s.files :: Sound(c, s.files[h])
    requires cut <= HourOf(now) < s.hour
    ensures Agree(c, Open(c, s.files, now), cut, UpTo(log, HourOf(now)), id)
  {
    var back := HourOf(now);
    HoursApart(back, s.hour);
    assert HourAgrees(c, s, log, id, back);
    BackLoads(c, s, now, id);
    UpToShape(log, back);
    BackClosed(c, s, cut, log, now, id);
  }

  lemma {:induction false} NothingBehind(c: Codec, s: Db, cut: int, log: seq<Sample>, back: int, id: uint32)
    requires Agree(c, s, cut, log, id) && !s.memOnly && s.hour % HOUR == 0 && back % HOUR == 0
    requires cut <= back < s.hour && NothingLater(c, s, back, id)
    ensures BackTo(log, back, s.hour, Closed(c, s, s.hour, id)) == UpTo(log, back)
  {
    NoneBetween(c, s, cut, log, back, id);
    assert Closed(c, s, s.hour, id) == [];
    assert UpTo(log, back) + ([] + []) == UpTo(log, back);
  }

  lemma {:induction false} WiderIsNotEmpty(s: seq<Sample>, a: int, b: int, from: int, to: int)
    requires from <= a && b <= to && Window(s, a, b) != []
    ensures Window(s, from, to) != []
  {
    if !(from <= s[0].t <= to) { WiderIsNotEmpty(s[1..], a, b, from, to); }
  }

  /** The samples behind the hour that is opened again. */
  lemma {:induction false} TailIsBeyond(log: seq<Sample>, back: int, hour: int, f: seq<Sample>)
    requires back + HOUR <= hour && Older(f, Stored(Window(log, hour, hour + 3599)))
    ensures var tail := Window(log, back + HOUR, hour - 1) + f;
      forall i :: 0 <= i < |tail| ==> tail[i].t >= back + HOUR
  {
    WindowWithin(log, back + HOUR, hour - 1);
    WindowWithin(log, hour, hour + 3599);
  }

  lemma {:induction false} BeyondIsNotBounded(log: seq<Sample>, back: int, hour: int, f: seq<Sample>)
    requires back + HOUR <= hour && Older(f, Stored(Window(log, hour, hour + 3599)))
    requires Window(log, back + HOUR, hour - 1) + f != []
    ensures !Bounded(BackTo(log, back, hour, f), back)
  {
    var a, tail := UpTo(log, back), Window(log, back + HOUR, hour - 1) + f;
    TailIsBeyond(log, back, hour, f);
    assert (a + tail)[|a|] == tail[0];
  }

  /** A later hour file with a sample means a sample behind the hour that is opened again. */
  lemma {:induction false} LaterMeansTail(c: Codec, s: Db, cut: int, log: seq<Sample>, back: int, id: uint32, h: int)
    requires ClosedAgree(c, s, cut, log, id) && Tidy(c, s) && !s.memOnly && s.hour % HOUR == 0 && back % HOUR == 0
    requires cut <= back && h % HOUR == 0 && h > back && Closed(c, s, h, id) != []
    ensures Window(log, back + HOUR, s.hour - 1) + Closed(c, s, s.hour, id) != []
  {
    HoursApart(back, h);
    HoursApart(h, s.hour);
    if h != s.hour {
      assert HourAgrees(c, s, log, id, h);
      WiderIsNotEmpty(log, h, h + 3599, back + HOUR, s.hour - 1);
    }
  }

  lemma {:induction false} BackAgreesIff(c: Codec, s: Db, cut: int, log: seq<Sample>, now: int, id: uint32,
                                         r: seq<Sample>)
    requires Agree(c, s, cut, log, id) && Tidy(c, s) && !s.memOnly && s.hour % HOUR == 0
    requires Older(Closed(c, s, s.hour, id), Stored(At(s.head, id)))
    requires forall h <- s.files :: Sound(c, s.files[h])
    requires cut <= HourOf(now) < s.hour && r == BackTo(log, HourOf(now), s.hour, Closed(c, s, s.hour, id))
    ensures Agree(c, Open(c, s.files, now), cut, r, id) <==> NothingLater(c, s, HourOf(now), id)
  {
    if NothingLater(c, s, HourOf(now), id) {
      NothingBehind(c, s, cut, log, HourOf(now), id);
      BackAgrees(c, s, cut, log, now, id);
    } else {
      var h :| h % HOUR == 0 && h > HourOf(now) && Closed(c, s, h, id) != [];
      LaterMeansTail(c, s, cut, log, HourOf(now), id, h);
      HoursApart(HourOf(now), s.hour);
      BeyondIsNotBounded(log, HourOf(now), s.hour, Closed(c, s, s.hour, id));
    }
  }

  /** A restart in an earlier hour keeps the refinement exactly when no later hour file has a sample. */
  lemma {:induction false} EarlierRestartKeepsIff(c: Codec, w: World, l: Log, now: int)
    requires Inv(c, w, l) && !w.db.memOnly && forall h <- w.db.files :: Sound(c, w.db.files[h])
    requires l.cut <= HourOf(now) < w.db.hour
    ensures Refines(c, Next(c, w, Crash(now)).db, LogBack(c, w.db, l, now))
       <==> forall id: uint32 :: NothingLater(c, w.db, HourOf(now), id)
  {
    var s', l' := Next(c, w, Crash(now)).db, LogBack(c, w.db, l, now);
    forall id: uint32
      ensures Agree(c, s', l'.cut, Of(l', id), id) <==> NothingLater(c, w.db, HourOf(now), id)
    {
      var f := Closed(c, w.db, w.db.hour, id);
      assert Agree(c, w.db, l.cut, Of(l, id), id) && CheckpointOk(c, w, id);
      BackAgreesIff(c, w.db, l.cut, Of(l, id), now, id, BackTo(Of(l, id), HourOf(now), w.db.hour, f));
      if id !in l.series { assert f == [] && BackTo([], HourOf(now), w.db.hour, f) == []; }
    }
  }

  /** After every guarded run: a restart in an hour before the open one, with the raw hours from it on
      still there, goes on from a log that keeps all that is stored exactly when no later hour is. */
  lemma {:induction false} EarlierRestartAfterRun(c: Codec, start: int, cut: int, acts: seq<Action>, now: int)
    requires Faithful(c) && GuardedRun(c, NewStore(false, start), acts) && cut % HOUR == 0
    requires LogAfter(c, NewStore(false, start), NewLog(start, cut), acts).cut <= HourOf(now)
    requires HourOf(now) < After(c, NewStore(false, start), acts).db.hour
    ensures var w := After(c, NewStore(false, start), acts);
      var l := LogAfter(c, NewStore(false, start), NewLog(start, cut), acts);
      Refines(c, Next(c, w, Crash(now)).db, LogBack(c, w.db, l, now))
      <==> forall id: uint32 :: NothingLater(c, w.db, HourOf(now), id)
  {
    var w0, l0 := NewStore(false, start), NewLog(start, cut);
    NewRefines(c, false, start, cut);
    RunRefines(c, w0, l0, acts);
    TsdbDisk.OwnRun(c, w0, l0, acts);
    TsdbDisk.StaysOnDisk(c, w0, acts);
    EarlierRestartKeepsIff(c, After(c, w0, acts), LogAfter(c, w0, l0, acts), now);
  }
}
