/** Every step of the store keeps its refinement of the plain log, and so does every run. */
module TsdbRuns {
  import opened Wrappers
  import opened Bytes
  import opened TsdbFile
  import opened TsdbStore
  import opened TsdbLog

  // ---- rollover -------------------------------------------------------------------------------

  /** A rollover stores the open hour and touches no other. */
  lemma {:induction false} RolloverCloses(c: Codec, w: World, now: int, h: int, id: uint32)
    requires Faithful(c) && Tidy(c, w.db) && RollFits(c, w.db, now) && HourOf(now) > w.db.hour
    requires !w.db.memOnly ==> CheckpointOk(c, w, id)
    ensures Closed(c, Rollover(c, w.db, now), h, id)
         == if h == w.db.hour then Kept(w.db, At(w.db.head, id)) else Closed(c, w.db, h, id)
    ensures h > w.db.hour ==> Closed(c, w.db, h, id) == []
  {
  }

  /** Where an hour lies relative to the open one. */
  lemma {:induction false} HoursApart(h: int, hour: int)
    requires h % HOUR == 0 && hour % HOUR == 0
    ensures Over(h, hour) || h == hour || h >= hour + HOUR
  {
  }

  /** Hours skipped by a rollover are empty in the log, too. */
  lemma {:induction false} RolloverHour(c: Codec, w: World, cut: int, log: seq<Sample>, now: int, h: int, id: uint32)
    requires Faithful(c) && Tidy(c, w.db) && RollFits(c, w.db, now) && HourOf(now) > w.db.hour
    requires !w.db.memOnly ==> CheckpointOk(c, w, id)
    requires At(w.db.head, id) == Window(log, w.db.hour, w.db.hour + 3599) && Bounded(log, w.db.hour)
    requires Over(h, w.db.hour) ==> HourAgrees(c, w.db, log, id, h)
    requires h % HOUR == 0 && w.db.hour % HOUR == 0
    ensures HourAgrees(c, Rollover(c, w.db, now), log, id, h)
  {
    RolloverCloses(c, w, now, h, id);
    HoursApart(h, w.db.hour);
    if h > w.db.hour { WindowNone(log, h, h + 3599); }
  }

  lemma {:induction false} RolloverAgrees(c: Codec, w: World, cut: int, log: seq<Sample>, now: int, id: uint32)
    requires Faithful(c) && Tidy(c, w.db) && RollFits(c, w.db, now) && HourOf(now) > w.db.hour
    requires !w.db.memOnly ==> CheckpointOk(c, w, id)
    requires w.db.hour % HOUR == 0 && Agree(c, w.db, cut, log, id)
    ensures Agree(c, Rollover(c, w.db, now), cut, log, id)
  {
    var s' := Rollover(c, w.db, now);
    forall h | Over(h, s'.hour) && cut <= h ensures HourAgrees(c, s', log, id, h) {
      RolloverHour(c, w, cut, log, now, h, id);
    }
    WindowNone(log, s'.hour, s'.hour + 3599);
  }

  lemma {:induction false} RolloverCheckpoint(c: Codec, w: World, now: int, id: uint32)
    requires Faithful(c) && Tidy(c, w.db) && RollFits(c, w.db, now) && HourOf(now) > w.db.hour
    requires Pending(c, w) && !w.db.memOnly && CheckpointOk(c, w, id)
    ensures CheckpointOk(c, w.(db := Rollover(c, w.db, now)), id)
  {
  }

  lemma {:induction false} RolloverTidy(c: Codec, w: World, now: int)
    requires Tidy(c, w.db) && HourOf(now) > w.db.hour
    ensures Tidy(c, Rollover(c, w.db, now))
  {
  }

  lemma {:induction false} TickStep(c: Codec, w: World, l: Log, now: int)
    requires Faithful(c) && Inv(c, w, l) && RollFits(c, w.db, now)
    ensures Inv(c, w.(db := Rollover(c, w.db, now)), l.(hour := Later(l.hour, HourOf(now))))
  {
    if HourOf(now) > w.db.hour {
      RolloverTidy(c, w, now);
      var l' := l.(hour := HourOf(now));
      forall id: uint32 ensures Agree(c, Rollover(c, w.db, now), l'.cut, Of(l', id), id) {
        assert Agree(c, w.db, l.cut, Of(l, id), id);
        RolloverAgrees(c, w, l.cut, Of(l, id), now, id);
      }
      forall id: uint32 | !w.db.memOnly ensures CheckpointOk(c, w.(db := Rollover(c, w.db, now)), id) {
        RolloverCheckpoint(c, w, now, id);
      }
    }
  }

  // ---- append ---------------------------------------------------------------------------------

  /** Storing a sample of the open hour, once the rollover is done. */
  function Stow(s: Db, id: uint32, x: Sample): Db {
    var pts := At(s.head, id);
    s.(head := s.head[id := Put(pts, x)], dirty := s.dirty || pts == [] || pts[|pts| - 1].t < x.t)
  }

  lemma {:induction false} PutIncreasing(log: seq<Sample>, hour: int, x: Sample)
    requires Increasing(log) && Bounded(log, hour) && x.t < hour + HOUR
    requires InOwnHour(log) && (x.t >= 0 || x.t % HOUR == 0)
    ensures Increasing(Put(log, x)) && Bounded(Put(log, x), hour) && InOwnHour(Put(log, x))
  {
  }

  /** Storing a sample changes no window that ends before it. */
  lemma {:induction false} PutEarlier(log: seq<Sample>, x: Sample, from: int, to: int)
    requires to < x.t
    ensures Window(Put(log, x), from, to) == Window(log, from, to)
  {
    WindowNone([x], from, to);
    WindowConcat(log, [x], from, to);
    if log != [] {
      var init, last := log[..|log| - 1], log[|log| - 1];
      assert log == init + [last];
      WindowConcat(init, [last], from, to);
      WindowConcat(init, [x], from, to);
      if last.t == x.t { WindowNone([last], from, to); }
    }
  }

  /** A window that the last sample of the log falls into ends with it. */
  lemma {:induction false} WindowLast(init: seq<Sample>, last: Sample, from: int, to: int)
    requires from <= last.t <= to
    ensures Window(init + [last], from, to) == Window(init, from, to) + [last]
  {
    WindowConcat(init, [last], from, to);
    WindowAll([last], from, to);
  }

  lemma {:induction false} PutAfter(init: seq<Sample>, last: Sample, x: Sample, from: int, to: int)
    requires from <= x.t <= to && from <= last.t <= to
    ensures Window(Put(init + [last], x), from, to) == Put(Window(init, from, to) + [last], x)
  {
    WindowLast(init, last, from, to);
    if last.t < x.t {
      WindowLast(init + [last], x, from, to);
    } else if last.t == x.t {
      WindowLast(init, x, from, to);
      assert (init + [last])[..|init|] == init;
      var v := Window(init, from, to);
      assert (v + [last])[..|v|] == v;
    }
  }

  /** The open hour of the log changes as the head does. */
  lemma {:induction false} PutWindow(log: seq<Sample>, x: Sample, from: int, to: int)
    requires Increasing(log) && from <= x.t <= to && forall i :: 0 <= i < |log| ==> log[i].t <= to
    ensures Window(Put(log, x), from, to) == Put(Window(log, from, to), x)
  {
    if log == [] || log[|log| - 1].t < from {
      WindowNone(log, from, to);
      WindowLast(log, x, from, to);
    } else {
      var init, last := log[..|log| - 1], log[|log| - 1];
      assert log == init + [last];
      WindowLast(init, last, from, to);
      PutAfter(init, last, x, from, to);
    }
  }

  /** A step that leaves the closed hours alone, on disk and in the log. */
  lemma {:induction false} ClosedStay(c: Codec, s: Db, s': Db, cut: int, log: seq<Sample>, x: Sample, id: uint32)
    requires s' == s.(head := s'.head, dirty := s'.dirty) && s.hour <= x.t
    requires ClosedAgree(c, s, cut, log, id)
    ensures ClosedAgree(c, s', cut, log, id) && ClosedAgree(c, s', cut, Put(log, x), id)
  {
    forall h | Over(h, s.hour) && cut <= h
      ensures HourAgrees(c, s', log, id, h) && HourAgrees(c, s', Put(log, x), id, h)
    {
      assert HourAgrees(c, s, log, id, h);
      PutEarlier(log, x, h, h + 3599);
    }
  }

  lemma {:induction false} StowAgrees(c: Codec, s: Db, cut: int, log: seq<Sample>, id: uint32, x: Sample)
    requires Agree(c, s, cut, log, id) && s.hour <= x.t < s.hour + HOUR && (x.t >= 0 || x.t % HOUR == 0)
    ensures Agree(c, Stow(s, id, x), cut, Put(log, x), id)
  {
    var s' := Stow(s, id, x);
    PutIncreasing(log, s.hour, x);
    ClosedStay(c, s, s', cut, log, x, id);
    assert At(s'.head, id) == Window(Put(log, x), s.hour, s.hour + 3599) by {
      PutWindow(log, x, s.hour, s.hour + 3599);
    }
  }

  /** An earlier version of a series stays one when the series gets a sample. */
  lemma {:induction false} OlderPut(a: seq<Sample>, pts: seq<Sample>, x: Sample)
    requires Older(a, Stored(pts))
    ensures Older(a, Stored(Put(pts, x))) && |pts| <= |Put(pts, x)|
  {
    var n := |pts|;
    assert forall i :: 0 <= i < n - 1 ==> Put(pts, x)[i] == pts[i];
    assert n > 0 ==> Put(pts, x)[n - 1].t == pts[n - 1].t;
    assert |Put(pts, x)| > n ==> Put(pts, x) == pts + [x];
  }

  lemma {:induction false} StowCheckpoint(c: Codec, w: World, id: uint32, x: Sample, other: uint32)
    requires CheckpointOk(c, w, other)
    ensures CheckpointOk(c, w.(db := Stow(w.db, id, x)), other)
  {
    var pts, w' := At(w.db.head, other), w.(db := Stow(w.db, id, x));
    assert Closed(c, w'.db, w'.db.hour, other) == Closed(c, w.db, w.db.hour, other);
    assert Latest(c, w', other) == Latest(c, w, other);
    if id == other {
      OlderPut(Closed(c, w.db, w.db.hour, other), pts, x);
      OlderPut(Latest(c, w, other), pts, x);
    }
  }

  lemma {:induction false} StowOthers(c: Codec, s: Db, cut: int, log: seq<Sample>, id: uint32, x: Sample, other: uint32)
    requires Agree(c, s, cut, log, other) && s.hour <= x.t && id != other
    ensures Agree(c, Stow(s, id, x), cut, log, other)
  {
  }

  lemma {:induction false} StowRefines(c: Codec, s: Db, l: Log, id: uint32, x: Sample)
    requires Refines(c, s, l) && HourOf(x.t) <= s.hour <= x.t
    ensures Refines(c, Stow(s, id, x), l.(series := l.series[id := Put(Of(l, id), x)]))
  {
    var l' := l.(series := l.series[id := Put(Of(l, id), x)]);
    forall i: uint32 ensures Agree(c, Stow(s, id, x), l'.cut, Of(l', i), i) {
      assert Agree(c, s, l.cut, Of(l, i), i);
      if i == id {
        StowAgrees(c, s, l.cut, Of(l, id), id, x);
      } else {
        StowOthers(c, s, l.cut, Of(l, i), id, x, i);
      }
    }
  }

  lemma {:induction false} StowStep(c: Codec, w: World, l: Log, id: uint32, x: Sample)
    requires Inv(c, w, l) && HourOf(x.t) <= w.db.hour <= x.t
    ensures Inv(c, w.(db := Stow(w.db, id, x)), l.(series := l.series[id := Put(Of(l, id), x)]))
  {
    StowRefines(c, w.db, l, id, x);
    forall i: uint32 | !w.db.memOnly ensures CheckpointOk(c, w.(db := Stow(w.db, id, x)), i) {
      StowCheckpoint(c, w, id, x, i);
    }
  }

  lemma {:induction false} AppendStep(c: Codec, w: World, l: Log, id: uint32, t: int64, v: Reading)
    requires Faithful(c) && Inv(c, w, l) && RollFits(c, w.db, t)
    ensures Inv(c, w.(db := Appended(c, w.db, id, t, v)), LogAppend(l, id, t, v))
  {
    TickStep(c, w, l, t);
    var w1, l1 := w.(db := Rollover(c, w.db, t)), l.(hour := Later(l.hour, HourOf(t)));
    if Accepts(w1.db.hour, t, v) {
      StowStep(c, w1, l1, id, Sample(t, v.bits));
    }
  }

  // ---- checkpoints and deletions --------------------------------------------------------------

  /** A step that leaves everything but the dirty flag and the files outside the closed raw hours. */
  lemma {:induction false} ClosedOnly(c: Codec, s: Db, s': Db, cut: int, cut': int, log: seq<Sample>, id: uint32)
    requires s'.memOnly == s.memOnly && s'.hour == s.hour && cut <= cut'
    requires forall h :: Over(h, s.hour) && cut' <= h ==> Closed(c, s', h, id) == Closed(c, s, h, id)
    requires ClosedAgree(c, s, cut, log, id)
    ensures ClosedAgree(c, s', cut', log, id)
  {
  }

  lemma {:induction false} BeginStep(c: Codec, w: World, l: Log)
    requires Inv(c, w, l) && Guarded(c, w, Action.Begin)
    ensures Inv(c, Next(c, w, Action.Begin), l)
  {
    var w' := Next(c, w, Action.Begin);
    forall id: uint32 ensures Agree(c, w'.db, l.cut, Of(l, id), id) {
      assert Agree(c, w.db, l.cut, Of(l, id), id);
      ClosedOnly(c, w.db, w'.db, l.cut, l.cut, Of(l, id), id);
    }
    forall id: uint32 | !w.db.memOnly ensures CheckpointOk(c, w', id) {
      assert CheckpointOk(c, w, id);
    }
  }

  lemma {:induction false} StoredTwice(pts: seq<Sample>)
    ensures Stored(Stored(pts)) == Stored(pts)
  {
  }

  lemma {:induction false} HeldIsSound(c: Codec, head: Head, file: bytes)
    requires Holds(c, head, file)
    ensures Sound(c, file)
  {
    forall id ensures Stored(c.read(file, id)) == c.read(file, id) {
      StoredTwice(At(head, id));
    }
  }

  lemma {:induction false} WriteStep(c: Codec, w: World, l: Log)
    requires Faithful(c) && Inv(c, w, l) && Guarded(c, w, Write)
    ensures Inv(c, Next(c, w, Write), l)
  {
    if w.pending.Some? {
      var w' := Next(c, w, Write);
      var snap := w.pending.value;
      assert Holds(c, snap.head, c.write(snap.head));
      HeldIsSound(c, snap.head, c.write(snap.head));
      forall id: uint32 ensures Agree(c, w'.db, l.cut, Of(l, id), id) {
        assert Agree(c, w.db, l.cut, Of(l, id), id);
        ClosedOnly(c, w.db, w'.db, l.cut, l.cut, Of(l, id), id);
      }
      forall id: uint32 ensures CheckpointOk(c, w', id) {
        assert CheckpointOk(c, w, id);
      }
    }
  }

  lemma {:induction false} DropStep(c: Codec, w: World, l: Log, h: int, cut: int)
    requires Inv(c, w, l) && Guarded(c, w, Drop(h, cut))
    ensures Inv(c, Next(c, w, Drop(h, cut)), LogNext(c, w, l, Drop(h, cut)))
  {
    var w', l' := Next(c, w, Drop(h, cut)), LogNext(c, w, l, Drop(h, cut));
    forall id: uint32 ensures Agree(c, w'.db, l'.cut, Of(l', id), id) {
      assert Agree(c, w.db, l.cut, Of(l, id), id);
      ClosedOnly(c, w.db, w'.db, l.cut, l'.cut, Of(l, id), id);
    }
    forall id: uint32 | !w.db.memOnly ensures CheckpointOk(c, w', id) {
      assert CheckpointOk(c, w, id);
    }
  }

  // ---- crashes --------------------------------------------------------------------------------

  lemma {:induction false} OlderTimes(a: seq<Sample>, b: seq<Sample>, from: int, to: int)
    requires Older(a, Stored(b)) && Increasing(b) && Within(b, from, to) && InOwnHour(b)
    ensures Increasing(a) && Within(a, from, to) && InOwnHour(a)
  {
  }

  lemma {:induction false} WindowOwn(s: seq<Sample>, from: int, to: int)
    requires InOwnHour(s)
    ensures InOwnHour(Window(s, from, to))
  {
    if s != [] { WindowOwn(s[1..], from, to); }
  }

  /** Samples before the open hour followed by samples in it. */
  lemma {:induction false} OpenHourLast(a: seq<Sample>, f: seq<Sample>, hour: int)
    requires Increasing(a) && Within(a, FIRST, hour - 1) && InOwnHour(a)
    requires Increasing(f) && Within(f, hour, hour + 3599) && InOwnHour(f)
    ensures Increasing(a + f) && Bounded(a + f, hour) && InOwnHour(a + f)
    ensures Window(a + f, hour, hour + 3599) == f
  {
    IncreasingConcat(a, f, hour);
    WindowConcat(a, f, hour, hour + 3599);
    WindowNone(a, hour, hour + 3599);
    WindowAll(f, hour, hour + 3599);
  }

  lemma {:induction false} WindowShape(log: seq<Sample>, from: int, to: int)
    requires Increasing(log) && InOwnHour(log)
    ensures var a := Window(log, from, to); Increasing(a) && Within(a, from, to) && InOwnHour(a)
  {
    WindowIncreasing(log, from, to);
    WindowWithin(log, from, to);
    WindowOwn(log, from, to);
  }

  /** What is left of a series after a crash is again a log, with the checkpoint as its open hour. */
  lemma {:induction false} RecoveredShape(log: seq<Sample>, hour: int, f: seq<Sample>)
    requires Increasing(log) && InOwnHour(log) && Older(f, Stored(Window(log, hour, hour + 3599)))
    ensures var r := Recovered(log, hour, f);
      && Increasing(r) && Bounded(r, hour) && InOwnHour(r)
      && Window(r, hour, hour + 3599) == f && Within(f, hour, hour + 3599)
  {
    WindowShape(log, FIRST, hour - 1);
    WindowShape(log, hour, hour + 3599);
    OlderTimes(f, Window(log, hour, hour + 3599), hour, hour + 3599);
    OpenHourLast(Window(log, FIRST, hour - 1), f, hour);
  }

  /** A crash changes no window of an hour that is over. */
  lemma {:induction false} RecoveredEarlier(log: seq<Sample>, hour: int, f: seq<Sample>, from: int, to: int)
    requires to < hour && Within(f, hour, hour + 3599)
    ensures Window(Recovered(log, hour, f), from, to) == Window(log, from, to)
  {
    var a := Window(log, FIRST, hour - 1);
    WindowConcat(a, f, from, to);
    WindowNone(f, from, to);
    WindowTwice(log, FIRST, hour - 1, from, to);
    WindowSame(log, if FIRST < from then from else FIRST, to, from, to);
  }

  /** The open hour after a restart, and every other hour, is what the files hold. */
  lemma {:induction false} OpenLoads(c: Codec, s: Db, now: int, id: uint32)
    requires !s.memOnly && Tidy(c, s) && HourOf(now) >= s.hour
    ensures var s' := Open(c, s.files, now);
      && At(s'.head, id) == Closed(c, s, s'.hour, id)
      && (forall h :: Closed(c, s', h, id) == Closed(c, s, h, id))
      && forall h :: h > s.hour ==> Closed(c, s, h, id) == []
  {
  }

  /** Hour by hour, what a restart finds on disk is the recovered log. */
  lemma {:induction false} CrashHour(log: seq<Sample>, hour: int, f: seq<Sample>, h: int, closed: seq<Sample>)
    requires Increasing(log) && InOwnHour(log) && Older(f, Stored(Window(log, hour, hour + 3599))) && Stored(f) == f
    requires h + HOUR <= hour ==> closed == Stored(Window(log, h, h + 3599))
    requires h == hour ==> closed == f
    requires h >= hour + HOUR ==> closed == []
    requires h + HOUR <= hour || h == hour || h >= hour + HOUR
    ensures closed == Stored(Window(Recovered(log, hour, f), h, h + 3599))
  {
    RecoveredShape(log, hour, f);
    if h + HOUR <= hour {
      RecoveredEarlier(log, hour, f, h, h + 3599);
    } else if h >= hour + HOUR {
      WindowNone(Recovered(log, hour, f), h, h + 3599);
    }
  }

  lemma {:induction false} CrashClosed(c: Codec, w: World, cut: int, log: seq<Sample>, now: int, id: uint32)
    requires Tidy(c, w.db) && !w.db.memOnly && HourOf(now) >= w.db.hour && w.db.hour % HOUR == 0
    requires CheckpointOk(c, w, id) && Agree(c, w.db, cut, log, id)
    ensures ClosedAgree(c, Open(c, w.db.files, now), cut, Recovered(log, w.db.hour, Closed(c, w.db, w.db.hour, id)), id)
  {
    var s, s', f := w.db, Open(c, w.db.files, now), Closed(c, w.db, w.db.hour, id);
    OpenLoads(c, s, now, id);
    assert Stored(f) == f;
    forall h | Over(h, s'.hour) && cut <= h ensures HourAgrees(c, s', Recovered(log, s.hour, f), id, h) {
      HoursApart(h, s.hour);
      if Over(h, s.hour) { assert HourAgrees(c, s, log, id, h); }
      CrashHour(log, s.hour, f, h, Closed(c, s, h, id));
    }
  }

  /** The open hour after a restart, for a series whose hours up to the old one are on disk. */
  lemma {:induction false} CrashHead(c: Codec, s: Db, r: seq<Sample>, now: int, id: uint32)
    requires Tidy(c, s) && !s.memOnly && HourOf(now) >= s.hour && s.hour % HOUR == 0 && Bounded(r, s.hour)
    requires Window(r, s.hour, s.hour + 3599) == Closed(c, s, s.hour, id)
    ensures var s' := Open(c, s.files, now);
      Bounded(r, s'.hour) && At(s'.head, id) == Window(r, s'.hour, s'.hour + 3599)
  {
    var hour := HourOf(now);
    OpenLoads(c, s, now, id);
    if hour > s.hour {
      HoursApart(hour, s.hour);
      WindowNone(r, hour, hour + 3599);
    }
  }

  lemma {:induction false} CrashAgrees(c: Codec, w: World, cut: int, log: seq<Sample>, now: int, id: uint32)
    requires Tidy(c, w.db) && !w.db.memOnly && HourOf(now) >= w.db.hour && w.db.hour % HOUR == 0
    requires CheckpointOk(c, w, id) && Agree(c, w.db, cut, log, id)
    ensures Agree(c, Open(c, w.db.files, now), cut, Recovered(log, w.db.hour, Closed(c, w.db, w.db.hour, id)), id)
  {
    var f := Closed(c, w.db, w.db.hour, id);
    CrashClosed(c, w, cut, log, now, id);
    RecoveredShape(log, w.db.hour, f);
    CrashHead(c, w.db, Recovered(log, w.db.hour, f), now, id);
  }

  lemma {:induction false} CrashStep(c: Codec, w: World, l: Log, now: int)
    requires Inv(c, w, l) && Guarded(c, w, Crash(now))
    ensures Inv(c, Next(c, w, Crash(now)), LogNext(c, w, l, Crash(now)))
  {
    var w', l' := Next(c, w, Crash(now)), LogNext(c, w, l, Crash(now));
    forall id: uint32 ensures Agree(c, w'.db, l'.cut, Of(l', id), id) {
      assert Agree(c, w.db, l.cut, Of(l, id), id) && CheckpointOk(c, w, id);
      CrashAgrees(c, w, l.cut, Of(l, id), now, id);
    }
    forall id: uint32 ensures CheckpointOk(c, w', id) {
      OpenLoads(c, w.db, now, id);
    }
  }

  // ---- every run ------------------------------------------------------------------------------

  lemma {:induction false} Step(c: Codec, w: World, l: Log, a: Action)
    requires Faithful(c) && Inv(c, w, l) && Guarded(c, w, a)
    ensures Inv(c, Next(c, w, a), LogNext(c, w, l, a))
  {
    match a
    case Append(id, t, v) => AppendStep(c, w, l, id, t, v);
    case Tick(now) => TickStep(c, w, l, now);
    case Begin => BeginStep(c, w, l);
    case Write => WriteStep(c, w, l);
    case Drop(h, cut) => DropStep(c, w, l, h, cut);
    case Crash(now) => CrashStep(c, w, l, now);
  }

  function After(c: Codec, w: World, acts: seq<Action>): World
    decreases |acts|
  {
    if acts == [] then w else After(c, Next(c, w, acts[0]), acts[1..])
  }

  function LogAfter(c: Codec, w: World, l: Log, acts: seq<Action>): Log
    decreases |acts|
  {
    if acts == [] then l else LogAfter(c, Next(c, w, acts[0]), LogNext(c, w, l, acts[0]), acts[1..])
  }

  predicate GuardedRun(c: Codec, w: World, acts: seq<Action>)
    decreases |acts|
  {
    acts == [] || (Guarded(c, w, acts[0]) && GuardedRun(c, Next(c, w, acts[0]), acts[1..]))
  }

  lemma {:induction false} RunRefines(c: Codec, w: World, l: Log, acts: seq<Action>)
    requires Faithful(c) && Inv(c, w, l) && GuardedRun(c, w, acts)
    ensures Inv(c, After(c, w, acts), LogAfter(c, w, l, acts))
    decreases |acts|
  {
    if acts != [] {
      Step(c, w, l, acts[0]);
      RunRefines(c, Next(c, w, acts[0]), LogNext(c, w, l, acts[0]), acts[1..]);
    }
  }

  /** A new store, in memory or in an empty directory. */
  function NewStore(memOnly: bool, now: int): World {
    World(Db(memOnly, HourOf(now), map[], false, map[], map[]), None)
  }

  function NewLog(now: int, cut: int): Log {
    Log(HourOf(now), cut, map[])
  }

  lemma {:induction false} NewRefines(c: Codec, memOnly: bool, now: int, cut: int)
    requires cut % HOUR == 0
    ensures Inv(c, NewStore(memOnly, now), NewLog(now, cut))
  {
  }

  /** After every run, every query returns from its raw hours exactly the accepted samples in range from
      the raw cut on, strictly increasing in time.  NewRefines gives the start: a new store and an empty log. */
  lemma {:induction false} EveryQueryIsLog(c: Codec, w: World, l: Log, acts: seq<Action>,
                                           id: uint32, from: int, to: int, rawCut: int)
    requires Faithful(c) && Inv(c, w, l) && GuardedRun(c, w, acts)
    requires LogAfter(c, w, l, acts).cut <= rawCut <= LogAfter(c, w, l, acts).hour && rawCut % DAY == 0
    ensures var s, l' := After(c, w, acts).db, LogAfter(c, w, l, acts);
      && Query(c, s, id, from, to, rawCut) == Expected(l', s.memOnly, id, Later(from, rawCut), to)
      && Increasing(Query(c, s, id, from, to, rawCut))
  {
    RunRefines(c, w, l, acts);
    QueryIsLog(c, After(c, w, acts).db, LogAfter(c, w, l, acts), id, from, to, rawCut);
  }

  // ---- what a crash costs ---------------------------------------------------------------------

  lemma {:induction false} OlderBehind(a: seq<Sample>, f: seq<Sample>, b: seq<Sample>)
    requires Older(f, b)
    ensures Older(a + f, a + b)
  {
  }

  lemma {:induction false} ReadTwice(c: Codec, s: Db, id: uint32)
    requires Tidy(c, s) && !s.memOnly
    ensures Stored(Closed(c, s, s.hour, id)) == Closed(c, s, s.hour, id)
  {
  }

  lemma {:induction false} LogIsBeforeAndOpen(log: seq<Sample>, hour: int)
    requires Increasing(log) && Bounded(log, hour)
    ensures log == Window(log, FIRST, hour - 1) + Window(log, hour, hour + 3599)
  {
    if FIRST <= hour {
      WindowSplit(log, FIRST, hour, hour + 3599);
      WindowAll(log, FIRST, hour + 3599);
    } else {
      WindowNone(log, FIRST, hour - 1);
      WindowAll(log, hour, hour + 3599);
    }
  }

  /** A crash takes every series back to an earlier version of itself: samples go missing only at its
      end, from what came after the newest finished checkpoint, and apart from truncation only the
      last value that is left may be an earlier one. */
  lemma {:induction false} CrashLosesOnlyTheEnd(c: Codec, w: World, l: Log, now: int, id: uint32)
    requires Inv(c, w, l) && Guarded(c, w, Crash(now))
    ensures Older(Stored(Of(LogNext(c, w, l, Crash(now)), id)), Stored(Of(l, id)))
    ensures |Of(l, id)| - |Of(LogNext(c, w, l, Crash(now)), id)|
      == |At(w.db.head, id)| - |Closed(c, w.db, w.db.hour, id)|
  {
    var log, hour, f := Of(l, id), w.db.hour, Closed(c, w.db, w.db.hour, id);
    assert Agree(c, w.db, l.cut, log, id) && CheckpointOk(c, w, id);
    var a, b := Window(log, FIRST, hour - 1), Window(log, hour, hour + 3599);
    LogIsBeforeAndOpen(log, hour);
    StoredConcat(a, b);
    StoredConcat(a, f);
    ReadTwice(c, w.db, id);
    OlderBehind(Stored(a), f, Stored(b));
  }

  /** With nothing unsaved and no checkpoint under way, a crash loses no sample, but it may bring back
      an earlier value of the last one: an overwrite at the same time does not mark the hour dirty. */
  lemma {:induction false} CleanCrashLosesNoSample(c: Codec, w: World, l: Log, now: int, id: uint32)
    requires Inv(c, w, l) && Guarded(c, w, Crash(now)) && !w.db.dirty && w.pending.None?
    ensures var l' := LogNext(c, w, l, Crash(now));
      Older(Stored(Of(l', id)), Stored(Of(l, id))) && |Of(l', id)| == |Of(l, id)|
  {
    CrashLosesOnlyTheEnd(c, w, l, now, id);
    assert CheckpointOk(c, w, id);
  }
}
