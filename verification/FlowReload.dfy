/**
 * What a restart reloads, and what a window shows.  The journal of a day may lie there twice, written
 * and compressed, when a crash fell between compressing and removing it: then a reload doubles it.
 */
module FlowReload {
  import opened Wrappers
  import opened FlowRings
  import opened FlowConservation

  // ---- windows --------------------------------------------------------------------------------

  /** Summaries from `since` on that end by `first`, if there is a first minute. */
  function Earlier(l: seq<Summary>, since: nat, first: Option<nat>): seq<Summary> {
    if l == [] then []
    else
      (if l[0].ts >= since && (first.None? || l[0].ts + l[0].span <= first.value) then [l[0]] else [])
      + Earlier(l[1..], since, first)
  }

  /** The open minute, once it holds a flow. */
  function OpenMinute(e: Exporter): seq<Summary> {
    if e.cur.Some? && e.cur.value.tot.flows > 0 then [e.cur.value] else []
  }

  /** The start of the earliest minute that is shown. */
  function FirstOf(e: Exporter, since: nat): Option<nat> {
    var m := Since(e.minutes, since) + OpenMinute(e);
    if m == [] then None else Some(m[0].ts)
  }

  function Pick(e: Exporter, since: nat, short: bool): seq<Summary> {
    if !short then Since(e.fives, since)
    else Since(e.minutes, since) + OpenMinute(e) + Earlier(e.fives, since, FirstOf(e, since))
  }

  lemma {:induction false} SinceStep(l: seq<Summary>, i: nat, since: nat, before: seq<Summary>)
    requires i < |l|
    ensures before + Since(l[i..], since)
      == (if l[i].ts >= since then before + [l[i]] else before) + Since(l[i + 1..], since)
  {
  }

  lemma {:induction false} EarlierStep(l: seq<Summary>, i: nat, since: nat, first: Option<nat>, before: seq<Summary>)
    requires i < |l|
    ensures before + Earlier(l[i..], since, first)
         == (if l[i].ts >= since && (first.None? || l[i].ts + l[i].span <= first.value)
             then before + [l[i]] else before)
            + Earlier(l[i + 1..], since, first)
  {
  }

  method SinceLoop(l: seq<Summary>, since: nat) returns (found: seq<Summary>)
    ensures found == Since(l, since)
  {
    found := [];
    assert l[0..] == l && [] + Since(l, since) == Since(l, since);
    for i := 0 to |l|
      invariant found + Since(l[i..], since) == Since(l, since)
    {
      SinceStep(l, i, since, found);
      if l[i].ts >= since {
        found := found + [l[i]];
      }
    }
    assert found + [] == found;
  }

  /** pick: the minutes and the open one, then the summaries that end before the first of them. */
  method PickLoop(e: Exporter, since: nat, short: bool) returns (picked: seq<Summary>)
    ensures picked == Pick(e, since, short)
  {
    if !short {
      picked := SinceLoop(e.fives, since);
      return;
    }
    picked := SinceLoop(e.minutes, since);
    if e.cur.Some? && e.cur.value.tot.flows > 0 {
      picked := picked + [e.cur.value];
    }
    var first := if picked == [] then None else Some(picked[0].ts);
    ghost var shown := picked;
    assert e.fives[0..] == e.fives;
    for i := 0 to |e.fives|
      invariant picked + Earlier(e.fives[i..], since, first) == shown + Earlier(e.fives, since, first)
    {
      EarlierStep(e.fives, i, since, first, picked);
      if e.fives[i].ts >= since && (first.None? || e.fives[i].ts + e.fives[i].span <= first.value) {
        picked := picked + [e.fives[i]];
      }
    }
    assert picked + [] == picked;
  }

  ghost predicate Disjoint(l: seq<Summary>) {
    forall i, j :: 0 <= i < |l| && 0 <= j < |l| && i != j ==>
      l[i].ts + l[i].span <= l[j].ts || l[j].ts + l[j].span <= l[i].ts
  }

  /** In time order without overlaps. */
  ghost predicate Ordered(l: seq<Summary>) {
    forall i, j :: 0 <= i < j < |l| ==> l[i].ts + l[i].span <= l[j].ts
  }

  lemma {:induction false} OrderedHead(l: seq<Summary>, rest: seq<Summary>)
    requires l != [] && Ordered(l) && Ordered(rest) && forall x <- rest :: x in l[1..]
    ensures Ordered([l[0]] + rest)
  {
    forall j | 0 <= j < |rest| ensures l[0].ts + l[0].span <= rest[j].ts {
      assert rest[j] in rest;
    }
  }

  lemma {:induction false} SinceKeeps(l: seq<Summary>, since: nat)
    requires Ordered(l)
    ensures Ordered(Since(l, since))
    ensures forall x <- Since(l, since) :: x in l
  {
    if l != [] {
      SinceKeeps(l[1..], since);
      OrderedHead(l, Since(l[1..], since));
    }
  }

  lemma {:induction false} EarlierKeeps(l: seq<Summary>, since: nat, first: Option<nat>)
    requires Ordered(l)
    ensures Ordered(Earlier(l, since, first))
    ensures forall x <- Earlier(l, since, first) :: x in l && (first.Some? ==> x.ts + x.span <= first.value)
  {
    if l != [] {
      EarlierKeeps(l[1..], since, first);
      OrderedHead(l, Earlier(l[1..], since, first));
    }
  }

  lemma {:induction false} StepsAreOrdered(l: seq<Summary>, step: nat)
    requires (step == 60 || step == 300) && Ascending(l) && Steps(l, step)
    ensures Ordered(l)
  {
    forall i, j | 0 <= i < j < |l| ensures l[i].ts + l[i].span <= l[j].ts { StepUp(l[i].ts, l[j].ts, step); }
  }

  lemma {:induction false} MinutesOrdered(e: Exporter, since: nat)
    requires MinutesOk(e)
    ensures Ordered(Since(e.minutes, since) + OpenMinute(e))
  {
    StepsAreOrdered(e.minutes, 60);
    SinceKeeps(e.minutes, since);
    var m := Since(e.minutes, since);
    forall i | 0 <= i < |m| && e.cur.Some? ensures m[i].ts + m[i].span <= e.cur.value.ts {
      assert m[i] in m;
    }
  }

  lemma {:induction false} TwoOrdered(a: seq<Summary>, b: seq<Summary>)
    requires Ordered(a) && Ordered(b)
    requires forall x <- b :: a != [] ==> x.ts + x.span <= a[0].ts
    ensures Disjoint(a + b)
  {
  }

  // ---- the journal holds what was persisted ---------------------------------------------------

  function InDay(l: seq<Summary>, d: nat): seq<Summary> {
    if l == [] then [] else (if Day(l[0].ts) == d then [l[0]] else []) + InDay(l[1..], d)
  }

  ghost predicate DayOk(w: World, d: nat) {
    && (d in w.j.plain ==> w.j.plain[d] == InDay(w.e.out, d))
    && (d in w.j.packed ==> w.j.packed[d] == InDay(w.e.out, d) && Finished(w, d))
    && (InDay(w.e.out, d) != [] ==> d in w.j.plain || d in w.j.packed)
  }

  ghost predicate JournalOk(w: World) {
    forall d: nat :: DayOk(w, d)
  }

  lemma {:induction false} InDaySnoc(l: seq<Summary>, f: Summary, d: nat)
    ensures InDay(l + [f], d) == InDay(l, d) + if Day(f.ts) == d then [f] else []
  {
    if l == [] {
      assert l + [f] == [f] && [f][1..] == [];
    } else {
      assert (l + [f])[1..] == l[1..] + [f];
      InDaySnoc(l[1..], f, d);
      var first, last := if Day(l[0].ts) == d then [l[0]] else [], if Day(f.ts) == d then [f] else [];
      Regroup(first, InDay(l[1..], d), last);
    }
  }

  lemma {:induction false} DaysGrow(a: nat, b: nat)
    requires a <= b
    ensures Day(a) <= Day(b)
  {
  }

  /** A new summary goes to a day that is not compressed yet. */
  lemma {:induction false} LoggedDay(w: World, e: Exporter, f: Summary, d: nat)
    requires DayOk(w, d) && DayOk(w, Day(f.ts)) && e.out == w.e.out + [f]
    requires w.e.out != [] ==> w.e.out[|w.e.out| - 1].ts < f.ts
    ensures DayOk(w.(e := e, j := Logged(w.j, f)), d)
  {
    InDaySnoc(w.e.out, f, d);
    if w.e.out != [] { DaysGrow(w.e.out[|w.e.out| - 1].ts, f.ts); }
  }

  /** Rolls append one summary of a later slot, or none. */
  ghost predicate Appends(e: Exporter, e': Exporter) {
    e'.out == e.out || (exists f :: e'.out == e.out + [f] && (e.out != [] ==> e.out[|e.out| - 1].ts < f.ts))
  }

  lemma {:induction false} JournalMoves(w: World, e: Exporter, now: nat)
    requires JournalOk(w) && Appends(w.e, e)
    ensures JournalOk(Moved(w, e, now))
  {
    var w' := Moved(w, e, now);
    forall d: nat ensures DayOk(w', d) {
      assert DayOk(w, d);
      if e.out != w.e.out {
        var f :| e.out == w.e.out + [f] && (w.e.out != [] ==> w.e.out[|w.e.out| - 1].ts < f.ts);
        assert e.out[|w.e.out|] == f && DayOk(w, Day(f.ts));
        LoggedDay(w, e, f, d);
      } else {
        assert w'.j == w.j && w'.e.out == w.e.out;
      }
    }
  }

  lemma {:induction false} TurnAppends(w: World, now: nat)
    requires Inv(w)
    ensures Appends(w.e, Turn(w.e, now))
  {
    if w.e.cur.Some? && w.e.cur.value.ts != Minute(now) {
      RollAppends(w.e, Minute(now));
      var f := Merge(Unfolded(w.e) + [w.e.cur.value], Slot(w.e.cur.value.ts));
      assert w.e.out != [] ==> w.e.out[|w.e.out| - 1].ts + w.e.out[|w.e.out| - 1].span <= f.ts;
    }
  }

  lemma {:induction false} JournalStep(w: World, a: Action)
    requires Inv(w) && JournalOk(w) && Enabled(w, a)
    ensures JournalOk(Next(w, a))
  {
    match a
    case Add(recs, now) =>
      if recs != [] {
        TurnAppends(w, now);
        JournalMoves(w, Added(w.e, recs, now), now);
        forall d: nat ensures DayOk(Next(w, a), d) { assert DayOk(Moved(w, Added(w.e, recs, now), now), d); }
      }
    case Tick(now) =>
      TurnAppends(w, now);
      JournalMoves(w, Turn(w.e, now), now);
    case _ =>
      forall d: nat ensures DayOk(Next(w, a), d) { assert DayOk(w, d); }
  }

  // ---- what a reload brings -------------------------------------------------------------------

  /** The written and the compressed file of a day are both there, with a summary that is recent enough. */
  ghost predicate Doubled(w: World, d: nat, since: nat) {
    d in w.j.plain && d in w.j.packed && Since(InDay(w.e.out, d), since) != []
  }

  lemma {:induction false} AscendingHead(l: seq<Summary>, rest: seq<Summary>)
    requires l != [] && Ascending(l) && Ascending(rest) && forall x <- rest :: x in l[1..]
    ensures Ascending([l[0]] + rest)
  {
    forall j | 0 <= j < |rest| ensures l[0].ts < rest[j].ts { assert rest[j] in rest; }
  }

  lemma {:induction false} InDayKeeps(l: seq<Summary>, d: nat)
    requires Ascending(l)
    ensures Ascending(InDay(l, d)) && forall x <- InDay(l, d) :: x in l && Day(x.ts) == d
  {
    if l != [] {
      InDayKeeps(l[1..], d);
      AscendingHead(l, InDay(l[1..], d));
    }
  }

  lemma {:induction false} SinceAscends(l: seq<Summary>, since: nat)
    requires Ascending(l)
    ensures Ascending(Since(l, since)) && forall x <- Since(l, since) :: x in l
  {
    if l != [] {
      SinceAscends(l[1..], since);
      AscendingHead(l, Since(l[1..], since));
    }
  }

  lemma {:induction false} SinceInDay(l: seq<Summary>, d: nat, since: nat)
    requires Ascending(l)
    ensures Ascending(Since(InDay(l, d), since))
    ensures forall x <- Since(InDay(l, d), since) :: x in l && Day(x.ts) == d
  {
    InDayKeeps(l, d);
    SinceAscends(InDay(l, d), since);
  }

  function OnceOrTwice(l: seq<Summary>, twice: bool): seq<Summary> {
    if twice then l + l else l
  }

  /** A day in one file comes back once, a day in both comes back twice. */
  lemma {:induction false} DayComesBack(w: World, d: nat, since: nat)
    requires DayOk(w, d)
    ensures var once := Since(InDay(w.e.out, d), since);
      ReadDay(w.j, d, since) == OnceOrTwice(once, Doubled(w, d, since))
  {
    var once := Since(InDay(w.e.out, d), since);
    assert once + [] == once && [] + once == once;
  }

  lemma {:induction false} DaysAscend(l: seq<Summary>, d: nat, e: nat, since: nat)
    requires Ascending(l) && d < e
    ensures Ascending(Since(InDay(l, d), since) + Since(InDay(l, e), since))
  {
    SinceInDay(l, d, since);
    SinceInDay(l, e, since);
    var a, b := Since(InDay(l, d), since), Since(InDay(l, e), since);
    forall i, j | 0 <= i < |a| && 0 <= j < |b| ensures a[i].ts < b[j].ts {
      assert a[i] in a && b[j] in b;
      if a[i].ts >= b[j].ts { DaysGrow(b[j].ts, a[i].ts); }
    }
  }

  /** The persisted summaries of the last 24 hours. */
  function Recent(w: World, now: nat): seq<Summary>
    requires now >= 86400
  {
    Since(w.e.out, now - 86400)
  }

  ghost predicate InTwoDays(l: seq<Summary>, d: nat, e: nat, since: nat) {
    forall i :: 0 <= i < |l| && l[i].ts >= since ==> Day(l[i].ts) == d || Day(l[i].ts) == e
  }

  lemma {:induction false} NoneInDay(l: seq<Summary>, d: nat)
    requires forall i :: 0 <= i < |l| ==> Day(l[i].ts) != d
    ensures InDay(l, d) == []
  {
    if l != [] { NoneInDay(l[1..], d); }
  }

  /** Behind a summary of a later day there is none of an earlier one. */
  lemma {:induction false} EarlierDayIsOver(l: seq<Summary>, d: nat)
    requires l != [] && Ascending(l) && d < Day(l[0].ts)
    ensures InDay(l[1..], d) == []
  {
    forall i | 0 <= i < |l[1..]| ensures Day(l[1..][i].ts) != d { DaysGrow(l[0].ts, l[i + 1].ts); }
    NoneInDay(l[1..], d);
  }

  lemma {:induction false} SinceInDayHead(l: seq<Summary>, d: nat, since: nat)
    requires l != []
    ensures Since(InDay(l, d), since)
         == (if Day(l[0].ts) == d && l[0].ts >= since then [l[0]] else []) + Since(InDay(l[1..], d), since)
  {
    var rest := InDay(l[1..], d);
    assert [] + rest == rest && ([l[0]] + rest)[1..] == rest;
  }

  lemma {:induction false} HeadInOne(x: Summary, a: seq<Summary>, b: seq<Summary>, first: bool, second: bool)
    requires !(first && second) && (second ==> a == [])
    ensures (if first then [x] else []) + a + ((if second then [x] else []) + b)
         == (if first || second then [x] else []) + (a + b)
  {
  }

  lemma {:induction false} TwoDaysHoldAll(l: seq<Summary>, d: nat, e: nat, since: nat)
    requires Ascending(l) && d < e && InTwoDays(l, d, e, since)
    ensures Since(InDay(l, d), since) + Since(InDay(l, e), since) == Since(l, since)
  {
    if l != [] {
      TwoDaysHoldAll(l[1..], d, e, since);
      SinceInDayHead(l, d, since);
      SinceInDayHead(l, e, since);
      var first, second := Day(l[0].ts) == d && l[0].ts >= since, Day(l[0].ts) == e && l[0].ts >= since;
      if second { EarlierDayIsOver(l, d); }
      HeadInOne(l[0], Since(InDay(l[1..], d), since), Since(InDay(l[1..], e), since), first, second);
    }
  }

  lemma {:induction false} DayBefore(now: nat)
    requires now >= 86400
    ensures Day(now - 86400) + 1 == Day(now)
  {
  }

  lemma {:induction false} RecentDays(w: World, now: nat)
    requires Inv(w) && w.clock <= now && now >= 86400
    ensures InTwoDays(w.e.out, Day(now - 86400), Day(now), now - 86400)
  {
    DayBefore(now);
    forall i | 0 <= i < |w.e.out| && w.e.out[i].ts >= now - 86400
      ensures Day(w.e.out[i].ts) == Day(now - 86400) || Day(w.e.out[i].ts) == Day(now)
    {
      DaysGrow(now - 86400, w.e.out[i].ts);
      DaysGrow(w.e.out[i].ts, now);
    }
  }

  /** Only finished days are compressed, so today is there once at most. */
  lemma {:induction false} TodayIsNotDoubled(w: World, now: nat, since: nat)
    requires Inv(w) && DayOk(w, Day(now)) && w.clock <= now
    ensures !Doubled(w, Day(now), since)
  {
    if w.e.out != [] { DaysGrow(w.e.out[|w.e.out| - 1].ts, now); }
  }

  /** What a reload reads: the recent summaries, those of yesterday twice when it is there twice. */
  lemma {:induction false} ReloadReads(w: World, now: nat) returns (a: seq<Summary>, b: seq<Summary>)
    requires Inv(w) && JournalOk(w) && Enabled(w, Restart(now))
    ensures a + b == Recent(w, now) && Ascending(a + b)
    ensures Doubled(w, Day(now - 86400), now - 86400) ==> a != []
    ensures Reload(w.j, now) == OnceOrTwice(a, Doubled(w, Day(now - 86400), now - 86400)) + b
  {
    var since, d, e := now - 86400, Day(now - 86400), Day(now);
    a, b := Since(InDay(w.e.out, d), since), Since(InDay(w.e.out, e), since);
    assert DayOk(w, d) && DayOk(w, e);
    DayComesBack(w, d, since);
    DayComesBack(w, e, since);
    TodayIsNotDoubled(w, now, since);
    DayBefore(now);
    DaysAscend(w.e.out, d, e, since);
    RecentDays(w, now);
    TwoDaysHoldAll(w.e.out, d, e, since);
  }

  /** A ring that has room behind a doubled part holds one of its summaries twice. */
  lemma {:induction false} RingRepeats(a: seq<Summary>, b: seq<Summary>, n: nat) returns (i: nat, j: nat)
    requires a != [] && |a| + |b| < n
    ensures var l := Newest(a + a + b, n);
      i < j < |l| && l[i] == l[j]
  {
    var over := if |a + a + b| > n then |a + a + b| - n else 0;
    i, j := |a| - 1 - over, |a| + |a| - 1 - over;
  }

  lemma {:induction false} RingIsSuffix(a: seq<Summary>, b: seq<Summary>, n: nat)
    requires |a| + |b| >= n
    ensures Newest(a + a + b, n) == Newest(a + b, n)
  {
  }

  lemma {:induction false} NewestAscends(l: seq<Summary>, n: nat)
    requires Ascending(l)
    ensures Ascending(Newest(l, n))
  {
  }

  /** Yesterday's journal is not there both written and compressed with a recent summary, or the ring
      is filled by the summaries of the last 24 hours alone and cuts the first copy away. */
  ghost predicate Clean(w: World, now: nat)
    requires now >= 86400
  {
    !Doubled(w, Day(now - 86400), now - 86400) || |Recent(w, now)| >= FIVE_RING
  }

  /** A restart leaves every slot once in the ring exactly then. */
  lemma {:induction false} ReloadAscendsIff(w: World, now: nat)
    requires Inv(w) && JournalOk(w) && Enabled(w, Restart(now))
    ensures Ascending(Newest(Reload(w.j, now), FIVE_RING)) <==> Clean(w, now)
  {
    var a, b := ReloadReads(w, now);
    NewestAscends(a + b, FIVE_RING);
    if Doubled(w, Day(now - 86400), now - 86400) {
      if |a| + |b| >= FIVE_RING {
        RingIsSuffix(a, b, FIVE_RING);
      } else {
        var i, j := RingRepeats(a, b, FIVE_RING);
      }
    }
  }

  // ---- runs with clean reloads ----------------------------------------------------------------

  ghost predicate Guarded(w: World, a: Action) {
    a.Restart? && a.now >= 86400 ==> Clean(w, a.now)
  }

  lemma {:induction false} SincePicks(l: seq<Summary>, since: nat)
    ensures forall x <- Since(l, since) :: x in l && x.ts >= since
  {
    if l != [] { SincePicks(l[1..], since); }
  }

  lemma {:induction false} ReloadPersisted(w: World, now: nat)
    requires Inv(w) && JournalOk(w) && Enabled(w, Restart(now))
    ensures forall x <- Newest(Reload(w.j, now), FIVE_RING) :: x in w.e.out && x.ts >= now - 86400
  {
    var a, b := ReloadReads(w, now);
    SincePicks(w.e.out, now - 86400);
    forall x <- Newest(Reload(w.j, now), FIVE_RING) ensures x in a + b { }
  }

  lemma {:induction false} SomeOfThem(l: seq<Summary>, all: seq<Summary>, clock: nat, now: nat)
    requires (forall x <- l :: x in all) && Ascending(l) && Steps(all, 300) && Before(all, clock) && clock <= now
    ensures SlotsOk(l, None, now)
  {
    forall i | 0 <= i < |l| ensures l[i] in all { assert l[i] in l; }
  }

  /** The reloaded summaries are persisted ones, each once and in order. */
  lemma {:induction false} ReloadOk(w: World, now: nat)
    requires Inv(w) && JournalOk(w) && Enabled(w, Restart(now)) && Guarded(w, Restart(now))
    ensures SlotsOk(Newest(Reload(w.j, now), FIVE_RING), None, now)
  {
    ReloadAscendsIff(w, now);
    ReloadPersisted(w, now);
    SomeOfThem(Newest(Reload(w.j, now), FIVE_RING), w.e.out, w.clock, now);
  }

  ghost predicate FivesOk(w: World) {
    SlotsOk(w.e.fives, w.e.cur, w.clock)
  }

  lemma {:induction false} NewestSlots(l: seq<Summary>, next: nat, clock: nat)
    ensures SlotsOk(l, Some(Bucket(next, ZERO)), clock) ==>
      SlotsOk(Newest(l, FIVE_RING), Some(Bucket(next, ZERO)), clock)
  {
  }

  lemma {:induction false} FivesTurn(w: World, now: nat)
    requires Inv(w) && FivesOk(w) && w.clock <= now && w.e.cur.Some?
    ensures FivesOk(Moved(w, Turn(w.e, now), now))
  {
    if w.e.cur.value.ts != Minute(now) {
      MinuteBounds(now);
      MinuteBefore(w.e.cur.value.ts, now);
      RollAppends(w.e, Minute(now));
      RollSlots(w.e, w.e.fives, w.clock, Minute(now), now);
      NewestSlots(w.e.fives + [Merge(Unfolded(w.e) + [w.e.cur.value], Slot(w.e.cur.value.ts))], Minute(now), now);
    }
  }

  lemma {:induction false} FivesStep(w: World, a: Action)
    requires Inv(w) && JournalOk(w) && FivesOk(w) && Enabled(w, a) && Guarded(w, a)
    ensures FivesOk(Next(w, a))
  {
    match a
    case Tick(now) => if w.e.cur.Some? { FivesTurn(w, now); }
    case Restart(now) => ReloadOk(w, now);
    case Add(recs, now) =>
      if w.e.cur.Some? { FivesTurn(w, now); } else { OpenSlots(w.e.fives, w.clock, now); }
    case _ =>
  }

  ghost predicate GuardedRun(w: World, acts: seq<Action>)
    requires Run(w, acts)
    decreases |acts|
  {
    acts == [] || (Guarded(w, acts[0]) && GuardedRun(Next(w, acts[0]), acts[1..]))
  }

  lemma {:induction false} FivesRun(w: World, acts: seq<Action>)
    requires Inv(w) && JournalOk(w) && FivesOk(w) && Run(w, acts) && GuardedRun(w, acts)
    ensures Inv(After(w, acts)) && FivesOk(After(w, acts))
    decreases |acts|
  {
    if acts != [] {
      Step(w, acts[0]);
      JournalStep(w, acts[0]);
      FivesStep(w, acts[0]);
      FivesRun(Next(w, acts[0]), acts[1..]);
    }
  }

  lemma {:induction false} PickIsDisjoint(w: World, since: nat, short: bool)
    requires Inv(w) && FivesOk(w)
    ensures Disjoint(Pick(w.e, since, short))
  {
    var e := w.e;
    StepsAreOrdered(e.fives, 300);
    if short {
      MinutesOrdered(e, since);
      EarlierKeeps(e.fives, since, FirstOf(e, since));
      TwoOrdered(Since(e.minutes, since) + OpenMinute(e), Earlier(e.fives, since, FirstOf(e, since)));
    } else {
      SinceKeeps(e.fives, since);
    }
  }

  /** What a window merges never overlaps, so it counts nothing twice: in every run whose restarts are
      clean. */
  lemma {:induction false} WindowsCountOnce(acts: seq<Action>, since: nat, short: bool)
    requires Run(START, acts) && GuardedRun(START, acts)
    ensures Disjoint(Pick(After(START, acts).e, since, short))
  {
    assert Inv(START) by { PlusLaws(ZERO, ZERO, ZERO); }
    FivesRun(START, acts);
    PickIsDisjoint(After(START, acts), since, short);
  }

  /** A minute from `since` on, or the open one once it holds a flow. */
  ghost predicate MinuteShown(e: Exporter, since: nat, m: Summary) {
    (m in e.minutes && m.ts >= since) || (e.cur == Some(m) && m.tot.flows > 0)
  }

  lemma {:induction false} SinceHas(l: seq<Summary>, since: nat, x: Summary)
    ensures x in Since(l, since) <==> x in l && x.ts >= since
  {
    if l != [] {
      SinceHas(l[1..], since, x);
      assert l == [l[0]] + l[1..];
    }
  }

  lemma {:induction false} EarlierHas(l: seq<Summary>, since: nat, first: Option<nat>, x: Summary)
    ensures x in Earlier(l, since, first)
       <==> x in l && x.ts >= since && (first.Some? ==> x.ts + x.span <= first.value)
  {
    if l != [] {
      EarlierHas(l[1..], since, first, x);
      assert l == [l[0]] + l[1..];
    }
  }

  ghost predicate BeforeShown(e: Exporter, since: nat, t: nat) {
    forall m :: MinuteShown(e, since, m) ==> t <= m.ts
  }

  lemma {:induction false} MinutesHave(e: Exporter, since: nat, m: Summary)
    ensures m in Since(e.minutes, since) + OpenMinute(e) <==> MinuteShown(e, since, m)
  {
    SinceHas(e.minutes, since, m);
  }

  lemma {:induction false} HeadIsEarliest(ms: seq<Summary>, m: Summary)
    requires Ordered(ms) && m in ms
    ensures ms[0].ts <= m.ts
  {
    var k :| 0 <= k < |ms| && ms[k] == m;
    if k > 0 { assert ms[0].ts + ms[0].span <= ms[k].ts; }
  }

  /** The first minute shown is the earliest. */
  lemma {:induction false} FirstIsEarliest(e: Exporter, since: nat, t: nat)
    requires Ordered(Since(e.minutes, since) + OpenMinute(e))
    ensures (FirstOf(e, since).Some? ==> t <= FirstOf(e, since).value) <==> BeforeShown(e, since, t)
  {
    var ms := Since(e.minutes, since) + OpenMinute(e);
    if ms != [] { MinutesHave(e, since, ms[0]); }
    forall m | MinuteShown(e, since, m) && ms != [] ensures ms[0].ts <= m.ts {
      MinutesHave(e, since, m);
      HeadIsEarliest(ms, m);
    }
    forall m | MinuteShown(e, since, m) ensures ms != [] { MinutesHave(e, since, m); }
  }

  lemma {:induction false} PickHas(e: Exporter, since: nat, x: Summary)
    requires Ordered(Since(e.minutes, since) + OpenMinute(e))
    ensures x in Pick(e, since, true) <==>
      MinuteShown(e, since, x) || (x in e.fives && x.ts >= since && BeforeShown(e, since, x.ts + x.span))
  {
    MinutesHave(e, since, x);
    EarlierHas(e.fives, since, FirstOf(e, since), x);
    FirstIsEarliest(e, since, x.ts + x.span);
  }

  /** After every run: a long window shows the 5-minute summaries from its start on; a short one the minutes
      from its start on, the open one, and those summaries that end before all of these. */
  lemma {:induction false} WindowShows(acts: seq<Action>, since: nat, x: Summary)
    requires Run(START, acts)
    ensures var e := After(START, acts).e;
      && (x in Pick(e, since, false) <==> x in e.fives && x.ts >= since)
      && (x in Pick(e, since, true) <==>
            || MinuteShown(e, since, x)
            || (x in e.fives && x.ts >= since && BeforeShown(e, since, x.ts + x.span)))
  {
    assert Inv(START) by { PlusLaws(ZERO, ZERO, ZERO); }
    RunInv(START, acts);
    var e := After(START, acts).e;
    SinceHas(e.fives, since, x);
    MinutesOrdered(e, since);
    PickHas(e, since, x);
  }

  lemma {:induction false} AllSince(l: seq<Summary>, since: nat)
    requires forall x <- l :: x.ts >= since
    ensures Since(l, since) == l
  {
    if l != [] { AllSince(l[1..], since); }
  }

  lemma {:induction false} RepeatOverlaps(e: Exporter, since: nat, i: nat, j: nat)
    requires i < j < |e.fives| && e.fives[i] == e.fives[j] && e.fives[i].span > 0
    requires forall x <- e.fives :: x.ts >= since
    ensures !Disjoint(Pick(e, since, false))
  {
    AllSince(e.fives, since);
  }

  /** The ring after a restart. */
  function Reloaded(w: World, now: nat): seq<Summary>
    requires Enabled(w, Restart(now))
  {
    Next(w, Restart(now)).e.fives
  }

  lemma {:induction false} UncleanRepeats(w: World, now: nat) returns (i: nat, j: nat)
    requires Inv(w) && JournalOk(w) && Enabled(w, Restart(now)) && !Clean(w, now)
    ensures i < j < |Reloaded(w, now)| && Reloaded(w, now)[i] == Reloaded(w, now)[j]
  {
    var a, b := ReloadReads(w, now);
    i, j := RingRepeats(a, b, FIVE_RING);
  }

  lemma {:induction false} ReloadedOk(w: World, now: nat)
    requires Inv(w) && JournalOk(w) && Enabled(w, Restart(now))
    ensures forall x <- Reloaded(w, now) :: x.ts >= now - 86400 && x.span > 0
  {
    ReloadPersisted(w, now);
  }

  lemma {:induction false} RepeatedOverlaps(e: Exporter, l: seq<Summary>, since: nat, i: nat, j: nat)
    requires e.fives == l && i < j < |l| && l[i] == l[j] && forall x <- l :: x.ts >= since && x.span > 0
    ensures !Disjoint(Pick(e, since, false))
  {
    assert l[i] in l;
    RepeatOverlaps(e, since, i, j);
  }

  /** After a restart that is not clean the window over the last 24 hours counts a slot twice. */
  lemma {:induction false} UncleanOverlaps(w: World, now: nat)
    requires Inv(w) && JournalOk(w) && Enabled(w, Restart(now)) && !Clean(w, now)
    ensures !Disjoint(Pick(Next(w, Restart(now)).e, now - 86400, false))
  {
    var i, j := UncleanRepeats(w, now);
    ReloadedOk(w, now);
    RepeatedOverlaps(Next(w, Restart(now)).e, Reloaded(w, now), now - 86400, i, j);
  }

  lemma {:induction false} CleanIsDisjoint(w: World, now: nat, since: nat, short: bool)
    requires Inv(w) && JournalOk(w) && Enabled(w, Restart(now)) && Clean(w, now)
    ensures Disjoint(Pick(Next(w, Restart(now)).e, since, short))
  {
    Step(w, Restart(now));
    ReloadOk(w, now);
    PickIsDisjoint(Next(w, Restart(now)), since, short);
  }

  lemma {:induction false} JournalRun(w: World, acts: seq<Action>)
    requires Inv(w) && JournalOk(w) && Run(w, acts)
    ensures Inv(After(w, acts)) && JournalOk(After(w, acts))
    decreases |acts|
  {
    if acts != [] {
      Step(w, acts[0]);
      JournalStep(w, acts[0]);
      JournalRun(Next(w, acts[0]), acts[1..]);
    }
  }

  /** After every run, whatever earlier reloads brought, a restart leaves all windows without overlap
      exactly when it is clean. */
  lemma {:induction false} RestartWindowsIff(acts: seq<Action>, now: nat)
    requires Run(START, acts) && Enabled(After(START, acts), Restart(now))
    ensures (forall since: nat, short :: Disjoint(Pick(Next(After(START, acts), Restart(now)).e, since, short)))
       <==> Clean(After(START, acts), now)
  {
    assert Inv(START) by { PlusLaws(ZERO, ZERO, ZERO); }
    JournalRun(START, acts);
    var w := After(START, acts);
    if Clean(w, now) {
      forall since: nat, short ensures Disjoint(Pick(Next(w, Restart(now)).e, since, short)) {
        CleanIsDisjoint(w, now, since, short);
      }
    } else {
      UncleanOverlaps(w, now);
    }
  }

  // ---- a day that is there twice --------------------------------------------------------------

  /** After the first half of compressing yesterday, a restart brings its last slot back twice. */
  function Twice(r: Record): seq<Action> {
    [Add([r], 86100), Tick(86400), Tick(86700), Compress(0), Restart(86700)]
  }

  function Five(ts: nat, tot: Tot): Summary {
    Summary(ts, 300, tot)
  }

  /** One minute is all its slot holds, and the next minute lies beyond the slot. */
  lemma {:induction false} FoldOne(w: World, m: Summary, ms: seq<Summary>, fives: seq<Summary>, next: nat)
    requires w.e == Exporter(Some(m), ms, fives, fives) && |ms| < MINUTE_RING && |fives| < FIVE_RING
    requires InSlot(ms + [m], Slot(m.ts)) == [m] && next - Slot(m.ts) >= 300 && Minute(next) == next != m.ts
    ensures Turn(w.e, next) == Exporter(Some(Bucket(next, ZERO)), ms + [m], fives + [Five(Slot(m.ts), m.tot)],
                                        fives + [Five(Slot(m.ts), m.tot)])
  {
    assert [m][1..] == [];
    PlusLaws(m.tot, ZERO, ZERO);
    assert Sum([m]) == m.tot;
  }

  lemma {:induction false} OneInSlot(ms: seq<Summary>, m: Summary)
    requires forall i :: 0 <= i < |ms| ==> Slot(ms[i].ts) != Slot(m.ts)
    ensures InSlot(ms + [m], Slot(m.ts)) == [m]
  {
    InSlotNone(ms, Slot(m.ts));
    InSlotConcat(ms, [m], Slot(m.ts));
    assert [m][1..] == [];
  }

  /** One step of the run below. */
  ghost predicate Leads(w: World, a: Action, w': World) {
    Enabled(w, a) && Next(w, a) == w'
  }

  lemma {:induction false} FirstMinute(r: Record) returns (w: World)
    ensures Leads(START, Add([r], 86100), w)
    ensures w.e == Exporter(Some(Bucket(86100, TotOf(r))), [], [], [])
    ensures w.j == Journal(map[], map[]) && w.clock == 86100
  {
    w := Next(START, Add([r], 86100));
    PlusLaws(TotOf(r), ZERO, ZERO);
    assert [r][..0] == [];
    assert SumRecords([r]) == Plus(ZERO, TotOf(r));
  }

  lemma {:induction false} FirstSlot(w: World, t: Tot) returns (w': World)
    requires w.e == Exporter(Some(Bucket(86100, t)), [], [], []) && w.j == Journal(map[], map[]) && w.clock == 86100
    ensures Leads(w, Tick(86400), w')
    ensures w'.e == Exporter(Some(Bucket(86400, ZERO)), [Bucket(86100, t)], [Five(86100, t)], [Five(86100, t)])
    ensures w'.j == Journal(map[0 := [Five(86100, t)]], map[]) && w'.clock == 86400
  {
    var m := Bucket(86100, t);
    w' := Next(w, Tick(86400));
    OneInSlot([], m);
    FoldOne(w, m, [], [], 86400);
    assert [] + [m] == [m] && [] + [Five(86100, t)] == [Five(86100, t)];
  }

  lemma {:induction false} SecondSlot(w: World, t: Tot) returns (w': World)
    requires w.e == Exporter(Some(Bucket(86400, ZERO)), [Bucket(86100, t)], [Five(86100, t)], [Five(86100, t)])
    requires w.j == Journal(map[0 := [Five(86100, t)]], map[]) && w.clock == 86400
    ensures Leads(w, Tick(86700), w')
    ensures w'.e.out == [Five(86100, t), Five(86400, ZERO)] && w'.clock == 86700
    ensures w'.j == Journal(map[0 := [Five(86100, t)], 1 := [Five(86400, ZERO)]], map[])
  {
    w' := Next(w, Tick(86700));
    OneInSlot([Bucket(86100, t)], Bucket(86400, ZERO));
    FoldOne(w, Bucket(86400, ZERO), [Bucket(86100, t)], [Five(86100, t)], 86700);
    assert [Five(86100, t)] + [Five(86400, ZERO)] == [Five(86100, t), Five(86400, ZERO)];
    assert [] + [Five(86400, ZERO)] == [Five(86400, ZERO)];
  }

  lemma {:induction false} ReadTwice(j: Journal, x: Summary, y: Summary)
    requires x.ts == 86100 && y.ts == 86400 && j == Journal(map[0 := [x], 1 := [y]], map[0 := [x]])
    ensures Newest(Reload(j, 86700), FIVE_RING) == [x, x, y]
  {
    assert [x][1..] == [] && [y][1..] == [];
    assert Since([x], 300) == [x] && Since([y], 300) == [y] && Since([], 300) == [];
    assert ReadDay(j, 0, 300) == [x, x] && ReadDay(j, 1, 300) == [y];
  }

  /** A run from its i-th step on is that step and the run behind it. */
  lemma {:induction false} StepFirst(w: World, acts: seq<Action>, i: nat, w': World)
    requires i < |acts| && Leads(w, acts[i], w') && Run(w', acts[i + 1..])
    ensures Run(w, acts[i..]) && After(w, acts[i..]) == After(w', acts[i + 1..])
  {
    assert acts[i..][0] == acts[i] && acts[i..][1..] == acts[i + 1..];
  }

  lemma {:induction false} HalfCompressed(w: World, x: Summary, y: Summary) returns (w': World)
    requires x.ts == 86100 && y.ts == 86400 && w.e.out == [x, y] && w.clock == 86700
    requires w.j == Journal(map[0 := [x], 1 := [y]], map[])
    ensures Leads(w, Compress(0), w') && w'.j == Journal(map[0 := [x], 1 := [y]], map[0 := [x]]) && w'.clock == 86700
  {
    w' := Next(w, Compress(0));
  }

  lemma {:induction false} ComesBackTwice(w: World, x: Summary, y: Summary) returns (w': World)
    requires x.ts == 86100 && y.ts == 86400 && w.clock == 86700
    requires w.j == Journal(map[0 := [x], 1 := [y]], map[0 := [x]])
    ensures Leads(w, Restart(86700), w') && w'.e.fives == [x, x, y] && w'.e.cur.None? && w'.e.minutes == []
  {
    w' := Next(w, Restart(86700));
    ReadTwice(w.j, x, y);
  }

  lemma {:induction false} TwiceOverlaps(e: Exporter, x: Summary, y: Summary)
    requires e.fives == [x, x, y] && e.cur.None? && e.minutes == [] && x.span > 0
    ensures !Disjoint(Pick(e, 0, false))
  {
    RepeatOverlaps(e, 0, 0, 1);
  }

  ghost predicate Link(ws: seq<World>, acts: seq<Action>, k: nat)
    requires |ws| == |acts| + 1 && k < |acts|
  {
    Leads(ws[k], acts[k], ws[k + 1])
  }

  lemma {:induction false} RunFrom(ws: seq<World>, acts: seq<Action>, i: nat)
    requires |ws| == |acts| + 1 && i <= |acts| && forall k :: 0 <= k < |acts| ==> Link(ws, acts, k)
    ensures Run(ws[i], acts[i..]) && After(ws[i], acts[i..]) == ws[|acts|]
    decreases |acts| - i
  {
    if i < |acts| {
      RunFrom(ws, acts, i + 1);
      assert Link(ws, acts, i);
      StepFirst(ws[i], acts, i, ws[i + 1]);
    }
  }

  /** There are such restarts: the window over the last day then counts the slot twice. */
  lemma {:induction false} DoubledDayOverlaps(r: Record)
    ensures Run(START, Twice(r)) && !Disjoint(Pick(After(START, Twice(r)).e, 0, false))
  {
    var x, y := Five(86100, TotOf(r)), Five(86400, ZERO);
    var w1 := FirstMinute(r);
    var w2 := FirstSlot(w1, x.tot);
    var w3 := SecondSlot(w2, x.tot);
    var w4 := HalfCompressed(w3, x, y);
    var w5 := ComesBackTwice(w4, x, y);
    var ws := [START, w1, w2, w3, w4, w5];
    RunFrom(ws, Twice(r), 0);
    assert Twice(r)[0..] == Twice(r);
    TwiceOverlaps(w5.e, x, y);
  }
}
