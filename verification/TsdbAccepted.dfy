/**
 * Which samples the plain log holds, told from the appends of a run alone: how the log is kept, and when
 * the store closes an hour, do not come into it.
 */
module TsdbAccepted {
  import opened Bytes
  import opened TsdbFile
  import opened TsdbStore
  import opened TsdbLog
  import opened TsdbRuns

  // ---- what a run says ------------------------------------------------------------------------

  /** A finite value for the series. */
  predicate Offers(a: Action, id: uint32) {
    a.Append? && a.id == id && a.v.Finite?
  }

  /** The step shows the store a time whose hour is later than t. */
  predicate Passes(a: Action, t: int64) {
    (a.Append? && HourOf(a.t) > t) || (a.Tick? && HourOf(a.now) > t)
  }

  /** Append k stores its sample: it has a finite value, its hour was still open, and no later sample of its
      series was offered before. */
  ghost predicate Accepted(l0: Log, acts: seq<Action>, id: uint32, k: nat) {
    && k < |acts| && Offers(acts[k], id)
    && acts[k].t >= l0.hour && (forall x <- Of(l0, id) :: x.t <= acts[k].t)
    && (forall j :: 0 <= j <= k ==> !Passes(acts[j], acts[k].t))
    && forall j :: 0 <= j < k && Offers(acts[j], id) ==> acts[j].t <= acts[k].t
  }

  ghost predicate StoredAt(l0: Log, acts: seq<Action>, id: uint32, t: int64, k: nat) {
    Accepted(l0, acts, id, k) && acts[k].t == t
  }

  /** The sample of an accepted append that no accepted append of the same time came after, or one that was
      there before and was not overwritten. */
  ghost predicate Lasting(l0: Log, acts: seq<Action>, id: uint32, x: Sample) {
    || (exists k: nat :: StoredAt(l0, acts, id, x.t, k) && acts[k].v.bits == x.v
          && forall j: nat :: j > k ==> !StoredAt(l0, acts, id, x.t, j))
    || (x in Of(l0, id) && forall j: nat :: !StoredAt(l0, acts, id, x.t, j))
  }

  predicate NoCrash(acts: seq<Action>) {
    forall j :: 0 <= j < |acts| ==> !acts[j].Crash?
  }

  // ---- the log, one step after the other ------------------------------------------------------

  function Plain(l: Log, a: Action): Log {
    match a
    case Append(id, t, v) => LogAppend(l, id, t, v)
    case Tick(now) => l.(hour := Later(l.hour, HourOf(now)))
    case Drop(_, cut) => l.(cut := Later(l.cut, cut))
    case _ => l
  }

  function LogOf(l0: Log, acts: seq<Action>): Log {
    if acts == [] then l0 else Plain(LogOf(l0, acts[..|acts| - 1]), acts[|acts| - 1])
  }

  lemma {:induction false} RunIsPlain(c: Codec, w: World, l0: Log, done: seq<Action>, acts: seq<Action>)
    requires NoCrash(acts)
    ensures LogAfter(c, w, LogOf(l0, done), acts) == LogOf(l0, done + acts)
    decreases |acts|
  {
    if acts == [] {
      assert done + [] == done;
    } else {
      assert (done + [acts[0]])[..|done|] == done;
      RunIsPlain(c, Next(c, w, acts[0]), l0, done + [acts[0]], acts[1..]);
      assert done + [acts[0]] + acts[1..] == done + acts;
    }
  }

  // ---- hours, times, samples ------------------------------------------------------------------

  lemma {:induction false} PutGrows(s: seq<Sample>, x: Sample)
    requires Increasing(s)
    ensures Increasing(Put(s, x))
  {
  }

  lemma {:induction false} PlainGrows(l: Log, a: Action, id: uint32)
    requires Increasing(Of(l, id))
    ensures Increasing(Of(Plain(l, a), id)) && l.hour <= Plain(l, a).hour
  {
    if Offers(a, id) { PutGrows(Of(l, id), Sample(a.t, a.v.bits)); }
  }

  lemma {:induction false} LogGrows(l0: Log, acts: seq<Action>, id: uint32)
    requires Increasing(Of(l0, id))
    ensures Increasing(Of(LogOf(l0, acts), id)) && l0.hour <= LogOf(l0, acts).hour
  {
    if acts != [] {
      LogGrows(l0, acts[..|acts| - 1], id);
      PlainGrows(LogOf(l0, acts[..|acts| - 1]), acts[|acts| - 1], id);
    }
  }

  /** The open hour is the latest that was seen. */
  lemma {:induction false} HourIff(l0: Log, acts: seq<Action>, t: int64)
    ensures t >= LogOf(l0, acts).hour <==> t >= l0.hour && forall j :: 0 <= j < |acts| ==> !Passes(acts[j], t)
  {
    if acts != [] {
      var init, a := acts[..|acts| - 1], acts[|acts| - 1];
      HourIff(l0, init, t);
      assert acts == init + [a];
      assert (forall j :: 0 <= j < |acts| ==> !Passes(acts[j], t))
        <==> !Passes(a, t) && forall j :: 0 <= j < |init| ==> !Passes(init[j], t);
    }
  }

  /** No sample of the series is later than t. */
  ghost predicate Ends(s: seq<Sample>, t: int64) {
    forall x <- s :: x.t <= t
  }

  ghost predicate NoneOffered(acts: seq<Action>, id: uint32, t: int64) {
    forall j :: 0 <= j < |acts| && Offers(acts[j], id) ==> acts[j].t <= t
  }

  lemma {:induction false} PutEnds(s: seq<Sample>, x: Sample, t: int64)
    requires Increasing(s)
    ensures Ends(Put(s, x), t) <==> Ends(s, t) && x.t <= t
  {
    if s != [] {
      assert s[|s| - 1] in s;
      if s[|s| - 1].t <= x.t {
        assert x == Put(s, x)[|Put(s, x)| - 1];
        assert forall y <- s :: y in Put(s, x) || y == s[|s| - 1];
      }
    }
  }

  lemma {:induction false} OneMoreOffered(acts: seq<Action>, a: Action, id: uint32, t: int64)
    ensures NoneOffered(acts + [a], id, t) <==> NoneOffered(acts, id, t) && (Offers(a, id) ==> a.t <= t)
  {
    assert (acts + [a])[|acts|] == a;
    assert forall j :: 0 <= j < |acts| ==> (acts + [a])[j] == acts[j];
  }

  lemma {:induction false} PlainEnds(l: Log, a: Action, id: uint32, t: int64)
    requires Increasing(Of(l, id)) && t >= Plain(l, a).hour
    ensures Ends(Of(Plain(l, a), id), t) <==> Ends(Of(l, id), t) && (Offers(a, id) ==> a.t <= t)
  {
    if Offers(a, id) { PutEnds(Of(l, id), Sample(a.t, a.v.bits), t); }
  }

  /** In an open hour the log is as late as what was offered. */
  lemma {:induction false} EndsIff(l0: Log, acts: seq<Action>, id: uint32, t: int64)
    requires Increasing(Of(l0, id)) && t >= LogOf(l0, acts).hour
    ensures Ends(Of(LogOf(l0, acts), id), t) <==> Ends(Of(l0, id), t) && NoneOffered(acts, id, t)
  {
    if acts != [] {
      var init, a := acts[..|acts| - 1], acts[|acts| - 1];
      LogGrows(l0, init, id);
      PlainGrows(LogOf(l0, init), a, id);
      EndsIff(l0, init, id, t);
      assert acts == init + [a];
      OneMoreOffered(init, a, id, t);
      PlainEnds(LogOf(l0, init), a, id, t);
    }
  }

  /** Putting a sample that is not earlier than the others. */
  lemma {:induction false} PutHas(s: seq<Sample>, x: Sample, y: Sample)
    requires Increasing(s) && Ends(s, x.t)
    ensures y in Put(s, x) <==> y == x || (y in s && y.t != x.t)
  {
    if s != [] {
      var init, last := s[..|s| - 1], s[|s| - 1];
      assert s == init + [last];
      assert last in s;
      assert y in s <==> y in init || y == last;
    }
  }

  lemma {:induction false} PutLate(s: seq<Sample>, x: Sample)
    requires Increasing(s) && !Ends(s, x.t)
    ensures Put(s, x) == s
  {
    var y :| y in s && y.t > x.t;
    var k :| 0 <= k < |s| && s[k] == y;
  }

  lemma {:induction false} AcceptedStays(l0: Log, acts: seq<Action>, a: Action, id: uint32, k: nat)
    requires k < |acts|
    ensures Accepted(l0, acts + [a], id, k) <==> Accepted(l0, acts, id, k)
  {
    assert forall j :: 0 <= j < |acts| ==> (acts + [a])[j] == acts[j];
  }

  /** The last append is stored exactly when the log takes it. */
  lemma {:induction false} AcceptedNow(l0: Log, acts: seq<Action>, a: Action, id: uint32)
    requires Increasing(Of(l0, id)) && Offers(a, id)
    ensures Accepted(l0, acts + [a], id, |acts|) <==>
      Accepts(Later(LogOf(l0, acts).hour, HourOf(a.t)), a.t, a.v) && Ends(Of(LogOf(l0, acts), id), a.t)
  {
    var all := acts + [a];
    assert forall j :: 0 <= j < |acts| ==> all[j] == acts[j];
    assert all[|acts|] == a;
    HourIff(l0, acts, a.t);
    assert (forall j :: 0 <= j <= |acts| ==> !Passes(all[j], a.t))
      <==> !Passes(a, a.t) && forall j :: 0 <= j < |acts| ==> !Passes(acts[j], a.t);
    assert (forall j :: 0 <= j < |acts| && Offers(all[j], id) ==> all[j].t <= a.t) <==> NoneOffered(acts, id, a.t);
    if a.t >= LogOf(l0, acts).hour { EndsIff(l0, acts, id, a.t); }
  }

  /** What lasts after one more step. */
  lemma {:induction false} LastingNow(l0: Log, acts: seq<Action>, a: Action, id: uint32, x: Sample)
    ensures Lasting(l0, acts + [a], id, x) <==>
      if StoredAt(l0, acts + [a], id, x.t, |acts|) then a.v.bits == x.v else Lasting(l0, acts, id, x)
  {
    var all := acts + [a];
    forall k: nat | k < |acts| ensures StoredAt(l0, all, id, x.t, k) <==> StoredAt(l0, acts, id, x.t, k) {
      AcceptedStays(l0, acts, a, id, k);
    }
    assert all[|acts|] == a;
    assert forall k: nat :: k < |acts| ==> all[k] == acts[k];
    assert forall k: nat :: k > |acts| ==> !StoredAt(l0, all, id, x.t, k);
    assert forall k: nat :: k >= |acts| ==> !StoredAt(l0, acts, id, x.t, k);
    if !StoredAt(l0, all, id, x.t, |acts|) {
      assert forall k: nat :: StoredAt(l0, all, id, x.t, k) <==> StoredAt(l0, acts, id, x.t, k);
    }
  }

  /** The log holds exactly the samples that last. */
  lemma {:induction false} LogHolds(l0: Log, acts: seq<Action>, id: uint32, x: Sample)
    requires Increasing(Of(l0, id))
    ensures x in Of(LogOf(l0, acts), id) <==> Lasting(l0, acts, id, x)
  {
    if acts != [] {
      var init, a := acts[..|acts| - 1], acts[|acts| - 1];
      var log := Of(LogOf(l0, init), id);
      assert acts == init + [a];
      LogHolds(l0, init, id, x);
      LastingNow(l0, init, a, id, x);
      LogGrows(l0, init, id);
      if Offers(a, id) {
        AcceptedNow(l0, init, a, id);
        if !Ends(log, a.t) { PutLate(log, Sample(a.t, a.v.bits)); } else { PutHas(log, Sample(a.t, a.v.bits), x); }
      }
    }
  }

  // ---- every run ------------------------------------------------------------------------------

  /** In every run without a crash, from any log on, a sample is in the log exactly when an append of the run
      stored it, or it was there before, and no later append of the run stored another value at its time; and
      the log is strictly increasing.  An append stores its sample exactly when its value is finite, no step up
      to it showed a later hour than its time, and no later sample of its series was there or offered before. */
  lemma {:induction false} LogIsAppends(c: Codec, w: World, l0: Log, acts: seq<Action>, id: uint32, x: Sample)
    requires NoCrash(acts) && Increasing(Of(l0, id))
    ensures Increasing(Of(LogAfter(c, w, l0, acts), id))
    ensures x in Of(LogAfter(c, w, l0, acts), id) <==> Lasting(l0, acts, id, x)
  {
    RunIsPlain(c, w, l0, [], acts);
    assert [] + acts == acts;
    LogGrows(l0, acts, id);
    LogHolds(l0, acts, id, x);
  }
}
