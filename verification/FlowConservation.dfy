/** No flow is lost or counted twice on its way through the rings, and windows do not overlap. */
module FlowConservation {
  import opened Wrappers
  import opened FlowRings

  // ---- the journal ----------------------------------------------------------------------------

  /** Persisted summaries by day: the file that is written, and the compressed one that replaces it. */
  datatype Journal = Journal(plain: map<nat, seq<Summary>>, packed: map<nat, seq<Summary>>)

  function Day(t: nat): nat {
    t / 86400
  }

  function Lines(files: map<nat, seq<Summary>>, d: nat): seq<Summary> {
    if d in files then files[d] else []
  }

  function Logged(j: Journal, f: Summary): Journal {
    var d := Day(f.ts);
    j.(plain := j.plain[d := Lines(j.plain, d) + [f]])
  }

  /** A roll persists at most one summary. */
  function Persisted(j: Journal, before: seq<Summary>, after: seq<Summary>): Journal {
    if |after| > |before| then Logged(j, after[|before|]) else j
  }

  // ---- runs -----------------------------------------------------------------------------------

  /** An exporter and its journal, the totals added to it and the totals a restart lost, and the latest
      time seen. */
  datatype World = World(e: Exporter, j: Journal, added: Tot, lost: Tot, clock: nat)

  /** Compress and Discard are the two halves of compressing a day: a crash may fall between them. */
  datatype Action =
    | Add(recs: seq<Record>, now: nat) | Tick(now: nat)
    | Compress(d: nat) | Discard(d: nat) | Restart(now: nat)

  /** A day is compressed once a summary of a later day was persisted. */
  predicate Finished(w: World, d: nat) {
    w.e.out != [] && d < Day(w.e.out[|w.e.out| - 1].ts)
  }

  predicate Enabled(w: World, a: Action) {
    match a
    case Add(_, now) => now >= w.clock
    case Tick(now) => now >= w.clock
    case Compress(d) => d in w.j.plain && Finished(w, d)
    case Discard(d) => d in w.j.plain && d in w.j.packed
    case Restart(now) => now >= w.clock && now >= 86400
  }

  /** The minutes of the open slot, which no summary holds yet. */
  function Unfolded(e: Exporter): seq<Summary> {
    if e.cur.Some? then InSlot(e.minutes, Slot(e.cur.value.ts)) else []
  }

  function Open(e: Exporter): Tot {
    if e.cur.Some? then e.cur.value.tot else ZERO
  }

  function Since(l: seq<Summary>, since: nat): seq<Summary> {
    if l == [] then [] else (if l[0].ts >= since then [l[0]] else []) + Since(l[1..], since)
  }

  /** What reload reads of a day: the written file, then the compressed one. */
  function ReadDay(j: Journal, d: nat, since: nat): seq<Summary> {
    Since(Lines(j.plain, d), since) + Since(Lines(j.packed, d), since)
  }

  /** The summaries of the last 24 hours, from the two days they lie in. */
  function Reload(j: Journal, now: nat): seq<Summary>
    requires now >= 86400
  {
    ReadDay(j, Day(now - 86400), now - 86400) + ReadDay(j, Day(now), now - 86400)
  }

  function Moved(w: World, e: Exporter, now: nat): World {
    w.(e := e, j := Persisted(w.j, w.e.out, e.out), clock := now)
  }

  function Next(w: World, a: Action): World
    requires Enabled(w, a)
  {
    match a
    case Add(recs, now) =>
      if recs == [] then w
      else Moved(w, Added(w.e, recs, now), now).(added := Plus(w.added, SumRecords(recs)))
    case Tick(now) => Moved(w, Turn(w.e, now), now)
    case Compress(d) => w.(j := w.j.(packed := w.j.packed[d := w.j.plain[d]]))
    case Discard(d) => w.(j := w.j.(plain := w.j.plain - {d}))
    case Restart(now) =>
      // the rings start empty but for the reloaded summaries
      w.(e := Exporter(None, [], Newest(Reload(w.j, now), FIVE_RING), w.e.out), clock := now,
         lost := Plus(w.lost, Plus(Sum(Unfolded(w.e)), Open(w.e))))
  }

  // ---- order ----------------------------------------------------------------------------------

  ghost predicate Ascending(l: seq<Summary>) {
    forall i, j :: 0 <= i < j < |l| ==> l[i].ts < l[j].ts
  }

  ghost predicate Steps(l: seq<Summary>, step: nat)
    requires step > 0
  {
    forall i :: 0 <= i < |l| ==> l[i].ts % step == 0 && l[i].span == step
  }

  ghost predicate Before(l: seq<Summary>, t: nat) {
    forall i :: 0 <= i < |l| ==> l[i].ts + l[i].span <= t
  }

  ghost predicate MinutesOk(e: Exporter) {
    && Ascending(e.minutes) && Steps(e.minutes, 60)
    && (e.cur.None? ==> e.minutes == [])
    && (e.cur.Some? ==> e.cur.value.ts % 60 == 0 && e.cur.value.span == 60 && Before(e.minutes, e.cur.value.ts))
  }

  /** Summaries of distinct, finished slots, all before the open one. */
  ghost predicate SlotsOk(l: seq<Summary>, cur: Option<Summary>, clock: nat) {
    && Ascending(l) && Steps(l, 300) && Before(l, clock)
    && (cur.Some? ==> Before(l, Slot(cur.value.ts)) && cur.value.ts <= clock)
  }

  ghost predicate Balanced(w: World) {
    w.added == Plus(Plus(Sum(w.e.out), w.lost), Plus(Sum(Unfolded(w.e)), Open(w.e)))
  }

  /** What holds in every run, whatever a reload brings. */
  ghost predicate Inv(w: World) {
    MinutesOk(w.e) && SlotsOk(w.e.out, w.e.cur, w.clock) && Balanced(w)
  }

  // ---- the minute ring ------------------------------------------------------------------------

  lemma {:induction false} StepUp(a: nat, b: nat, step: nat)
    requires step == 60 || step == 300
    requires a < b && a % step == 0 && b % step == 0
    ensures a + step <= b
  {
  }

  /** Minutes lie at least 60 seconds apart. */
  lemma {:induction false} Apart(l: seq<Summary>, i: nat, j: nat)
    requires Ascending(l) && Steps(l, 60) && i <= j < |l|
    ensures l[i].ts + 60 * (j - i) <= l[j].ts
    decreases j - i
  {
    if i < j {
      Apart(l, i, j - 1);
      StepUp(l[j - 1].ts, l[j].ts, 60);
    }
  }

  lemma {:induction false} Regroup(a: seq<Summary>, b: seq<Summary>, c: seq<Summary>)
    ensures a + (b + c) == a + b + c
  {
  }

  lemma {:induction false} InSlotConcat(a: seq<Summary>, b: seq<Summary>, slot: nat)
    ensures InSlot(a + b, slot) == InSlot(a, slot) + InSlot(b, slot)
  {
    if a == [] {
      assert a + b == b;
    } else {
      assert (a + b)[0] == a[0] && (a + b)[1..] == a[1..] + b;
      InSlotConcat(a[1..], b, slot);
      var first := if Slot(a[0].ts) == slot then [a[0]] else [];
      Regroup(first, InSlot(a[1..], slot), InSlot(b, slot));
    }
  }

  lemma {:induction false} InSlotNone(l: seq<Summary>, slot: nat)
    requires forall i :: 0 <= i < |l| ==> Slot(l[i].ts) != slot
    ensures InSlot(l, slot) == []
  {
    if l != [] { InSlotNone(l[1..], slot); }
  }

  lemma {:induction false} SlotBounds(t: nat)
    ensures Slot(t) <= t < Slot(t) + 300 && Slot(t) % 300 == 0
  {
  }

  /** The ring is long enough: what it forgets is never in the slot of its last minute. */
  lemma {:induction false} RingKeepsSlot(l: seq<Summary>)
    requires l != [] && Ascending(l) && Steps(l, 60)
    ensures InSlot(Newest(l, MINUTE_RING), Slot(l[|l| - 1].ts)) == InSlot(l, Slot(l[|l| - 1].ts))
  {
    if |l| > MINUTE_RING {
      var n, last := |l| - MINUTE_RING, l[|l| - 1].ts;
      var gone, kept := l[..n], l[n..];
      assert l == gone + kept;
      forall i | 0 <= i < |gone| ensures Slot(gone[i].ts) != Slot(last) {
        Apart(l, i, |l| - 1);
        SlotBounds(gone[i].ts);
        SlotBounds(last);
      }
      InSlotNone(gone, Slot(last));
      InSlotConcat(gone, kept, Slot(last));
    }
  }

  lemma {:induction false} NewestAscending(l: seq<Summary>, n: nat, step: nat)
    requires Ascending(l) && step > 0 && Steps(l, step)
    ensures Ascending(Newest(l, n)) && Steps(Newest(l, n), step)
    ensures forall i :: 0 <= i < |Newest(l, n)| ==> Newest(l, n)[i] in l
  {
  }

  // ---- a minute ends --------------------------------------------------------------------------

  lemma {:induction false} RollMinutes(e: Exporter, next: nat)
    requires MinutesOk(e) && e.cur.Some? && next % 60 == 0 && e.cur.value.ts < next
    ensures Ascending(e.minutes + [e.cur.value]) && Steps(e.minutes + [e.cur.value], 60)
    ensures Before(e.minutes + [e.cur.value], next)
    ensures MinutesOk(Roll(e, next))
  {
    var l := e.minutes + [e.cur.value];
    StepUp(e.cur.value.ts, next, 60);
    NewestAscending(l, MINUTE_RING, 60);
  }

  /** The finished slot is exactly what was unfolded, and the last minute. */
  lemma {:induction false} FinishedSlot(e: Exporter)
    requires MinutesOk(e) && e.cur.Some?
    ensures var s := e.cur.value;
      InSlot(Newest(e.minutes + [s], MINUTE_RING), Slot(s.ts)) == Unfolded(e) + [s]
  {
    var s := e.cur.value;
    RollMinutes(e, s.ts + 60);
    RingKeepsSlot(e.minutes + [s]);
    InSlotConcat(e.minutes, [s], Slot(s.ts));
    assert InSlot([s], Slot(s.ts)) == [s] + InSlot([s][1..], Slot(s.ts));
  }

  lemma {:induction false} SumFinished(e: Exporter)
    requires e.cur.Some?
    ensures Sum(Unfolded(e) + [e.cur.value]) == Plus(Sum(Unfolded(e)), Open(e))
  {
    SumConcat(Unfolded(e), [e.cur.value]);
    assert [e.cur.value][1..] == [];
    PlusLaws(e.cur.value.tot, ZERO, ZERO);
  }

  lemma {:induction false} OlderSlot(t: nat, cur: nat, next: nat)
    requires t <= cur && next - Slot(cur) >= 300
    ensures Slot(t) != Slot(next)
  {
  }

  /** Nothing of the new slot is in the ring yet. */
  lemma {:induction false} NewSlotEmpty(e: Exporter, next: nat)
    requires MinutesOk(e) && e.cur.Some? && next % 60 == 0 && e.cur.value.ts < next
    requires next - Slot(e.cur.value.ts) >= 300
    ensures InSlot(Newest(e.minutes + [e.cur.value], MINUTE_RING), Slot(next)) == []
  {
    var l := e.minutes + [e.cur.value];
    var ring := Newest(l, MINUTE_RING);
    RollMinutes(e, next);
    NewestAscending(l, MINUTE_RING, 60);
    forall i | 0 <= i < |ring| ensures Slot(ring[i].ts) != Slot(next) {
      assert ring[i] in l;
      OlderSlot(ring[i].ts, e.cur.value.ts, next);
    }
    InSlotNone(ring, Slot(next));
  }

  lemma {:induction false} SameSlot(a: nat, b: nat)
    requires a <= b < Slot(a) + 300
    ensures Slot(b) == Slot(a)
  {
  }

  lemma {:induction false} NextSlot(a: nat, b: nat)
    requires b - Slot(a) >= 300
    ensures Slot(a) + 300 <= Slot(b)
  {
  }

  lemma {:induction false} FoldBalance(o: Tot, l: Tot, f: Tot)
    ensures Plus(Plus(Plus(o, f), l), Plus(ZERO, ZERO)) == Plus(Plus(o, l), f)
  {
  }

  /** The rings change hands, the totals stay. */
  lemma {:induction false} RollTotals(e: Exporter, next: nat, lost: Tot)
    requires MinutesOk(e) && e.cur.Some? && next % 60 == 0 && e.cur.value.ts < next
    ensures var e' := Roll(e, next);
      Plus(Plus(Sum(e'.out), lost), Plus(Sum(Unfolded(e')), Open(e')))
      == Plus(Plus(Sum(e.out), lost), Plus(Sum(Unfolded(e)), Open(e)))
  {
    var s, e' := e.cur.value, Roll(e, next);
    FinishedSlot(e);
    SumFinished(e);
    if next - Slot(s.ts) >= 300 {
      var f := Merge(Unfolded(e) + [s], Slot(s.ts));
      NewSlotEmpty(e, next);
      SumConcat(e.out, [f]);
      assert [f][1..] == [];
      PlusLaws(f.tot, ZERO, ZERO);
      FoldBalance(Sum(e.out), lost, f.tot);
    } else {
      SlotBounds(s.ts);
      SameSlot(s.ts, next);
      PlusLaws(Sum(Unfolded(e')), ZERO, ZERO);
    }
  }

  lemma {:induction false} SlotsGrow(l: seq<Summary>, f: Summary, t: nat)
    requires Ascending(l) && Steps(l, 300) && Before(l, f.ts) && f.ts % 300 == 0 && f.span == 300 && f.ts + 300 <= t
    ensures Ascending(l + [f]) && Steps(l + [f], 300) && Before(l + [f], t)
  {
  }

  /** A list of summaries before the open slot stays one, with the new summary or without. */
  lemma {:induction false} RollSlots(e: Exporter, l: seq<Summary>, clock: nat, next: nat, now: nat)
    requires MinutesOk(e) && SlotsOk(l, e.cur, clock) && e.cur.Some? && next % 60 == 0 && e.cur.value.ts < next
    requires clock <= now && next <= now
    ensures SlotsOk(l, Some(Bucket(next, ZERO)), now)
    ensures next - Slot(e.cur.value.ts) >= 300 ==>
      SlotsOk(l + [Merge(Unfolded(e) + [e.cur.value], Slot(e.cur.value.ts))], Some(Bucket(next, ZERO)), now)
  {
    var s := e.cur.value;
    SlotBounds(s.ts);
    SlotBounds(next);
    if next - Slot(s.ts) >= 300 {
      NextSlot(s.ts, next);
      SlotsGrow(l, Merge(Unfolded(e) + [s], Slot(s.ts)), Slot(next));
    } else {
      SameSlot(s.ts, next);
    }
  }

  /** What a roll appends to the persisted summaries, if anything. */
  lemma {:induction false} RollAppends(e: Exporter, next: nat)
    requires MinutesOk(e) && e.cur.Some?
    ensures var e', f := Roll(e, next), Merge(Unfolded(e) + [e.cur.value], Slot(e.cur.value.ts));
      if next - Slot(e.cur.value.ts) >= 300
      then e'.out == e.out + [f] && e'.fives == Newest(e.fives + [f], FIVE_RING)
      else e'.out == e.out && e'.fives == e.fives
  {
    FinishedSlot(e);
  }

  // ---- every run ------------------------------------------------------------------------------

  lemma {:induction false} MinuteBounds(t: nat)
    ensures Minute(t) <= t < Minute(t) + 60 && Minute(t) % 60 == 0
  {
  }

  lemma {:induction false} MinuteBefore(a: nat, now: nat)
    requires a <= now && a % 60 == 0
    ensures a <= Minute(now)
  {
  }

  lemma {:induction false} TurnStep(w: World, now: nat)
    requires Inv(w) && w.clock <= now
    ensures Inv(Moved(w, Turn(w.e, now), now))
    ensures w.e.cur.Some? ==> Turn(w.e, now).cur.Some?
  {
    if w.e.cur.Some? && w.e.cur.value.ts != Minute(now) {
      MinuteBounds(now);
      assert w.e.cur.value.ts < Minute(now) by { MinuteBefore(w.e.cur.value.ts, now); }
      RollMinutes(w.e, Minute(now));
      RollAppends(w.e, Minute(now));
      RollSlots(w.e, w.e.out, w.clock, Minute(now), now);
      RollTotals(w.e, Minute(now), w.lost);
    }
  }

  lemma {:induction false} SlotFrom(b: nat, m: nat)
    requires b % 300 == 0 && b <= m
    ensures b <= Slot(m)
  {
  }

  lemma {:induction false} SlotAfter(a: nat, now: nat)
    requires a % 300 == 0 && a + 300 <= now
    ensures a + 300 <= Slot(Minute(now))
  {
    var b, m := a + 300, Minute(now);
    assert b == 300 * (b / 300) == 60 * (5 * (b / 300));
    MinuteBefore(b, now);
    SlotFrom(b, m);
  }

  lemma {:induction false} OpenSlots(l: seq<Summary>, clock: nat, now: nat)
    requires SlotsOk(l, None, clock) && clock <= now
    ensures SlotsOk(l, Some(Bucket(Minute(now), ZERO)), now)
  {
    MinuteBounds(now);
    forall i | 0 <= i < |l| ensures l[i].ts + 300 <= Slot(Minute(now)) { SlotAfter(l[i].ts, now); }
  }

  /** The first minute of an exporter, or the first after a restart. */
  lemma {:induction false} OpenStep(w: World, now: nat)
    requires Inv(w) && w.clock <= now && w.e.cur.None?
    ensures Inv(Moved(w, w.e.(cur := Some(Bucket(Minute(now), ZERO))), now))
  {
    MinuteBounds(now);
    OpenSlots(w.e.out, w.clock, now);
  }

  lemma {:induction false} FillStep(w: World, recs: seq<Record>)
    requires Inv(w) && w.e.cur.Some?
    ensures Inv(w.(e := Filled(w.e, recs), added := Plus(w.added, SumRecords(recs))))
  {
    var r, a, u, o := SumRecords(recs), Plus(Sum(w.e.out), w.lost), Sum(Unfolded(w.e)), Open(w.e);
    PlusLaws(a, Plus(u, o), r);
    PlusLaws(u, o, r);
  }

  lemma {:induction false} RestartStep(w: World, now: nat)
    requires Inv(w) && Enabled(w, Restart(now))
    ensures Inv(Next(w, Restart(now)))
  {
    var o, x := Sum(w.e.out), Plus(Sum(Unfolded(w.e)), Open(w.e));
    PlusLaws(o, w.lost, x);
    PlusLaws(Plus(o, Plus(w.lost, x)), ZERO, ZERO);
    PlusLaws(ZERO, ZERO, ZERO);
  }

  /** The exporter with an open minute that records of time `now` belong to. */
  function Opened(e: Exporter, now: nat): (r: Exporter)
    ensures r.cur.Some?
  {
    if e.cur.None? then e.(cur := Some(Bucket(Minute(now), ZERO))) else Turn(e, now)
  }

  lemma {:induction false} AddStep(w: World, recs: seq<Record>, now: nat)
    requires Inv(w) && w.clock <= now && recs != []
    ensures Inv(Next(w, Add(recs, now)))
  {
    if w.e.cur.None? { OpenStep(w, now); } else { TurnStep(w, now); }
    FillStep(Moved(w, Opened(w.e, now), now), recs);
  }

  lemma {:induction false} Step(w: World, a: Action)
    requires Inv(w) && Enabled(w, a)
    ensures Inv(Next(w, a))
  {
    match a
    case Tick(now) => TurnStep(w, now);
    case Restart(now) => RestartStep(w, now);
    case Add(recs, now) => if recs != [] { AddStep(w, recs, now); }
    case _ =>
  }

  predicate Run(w: World, acts: seq<Action>)
    decreases |acts|
  {
    acts == [] || (Enabled(w, acts[0]) && Run(Next(w, acts[0]), acts[1..]))
  }

  function After(w: World, acts: seq<Action>): World
    requires Run(w, acts)
    decreases |acts|
  {
    if acts == [] then w else After(Next(w, acts[0]), acts[1..])
  }

  lemma {:induction false} RunInv(w: World, acts: seq<Action>)
    requires Inv(w) && Run(w, acts)
    ensures Inv(After(w, acts))
    decreases |acts|
  {
    if acts != [] {
      Step(w, acts[0]);
      RunInv(Next(w, acts[0]), acts[1..]);
    }
  }

  /** All records that the actions of a run add. */
  function Records(acts: seq<Action>): seq<Record> {
    if acts == [] then []
    else (if acts[0].Add? then acts[0].recs else []) + Records(acts[1..])
  }

  lemma {:induction false} SumRecordsConcat(a: seq<Record>, b: seq<Record>)
    ensures SumRecords(a + b) == Plus(SumRecords(a), SumRecords(b))
  {
    if b == [] {
      assert a + b == a;
      PlusLaws(SumRecords(a), ZERO, ZERO);
    } else {
      assert (a + b)[..|a + b| - 1] == a + b[..|b| - 1];
      SumRecordsConcat(a, b[..|b| - 1]);
      PlusLaws(SumRecords(a), SumRecords(b[..|b| - 1]), TotOf(b[|b| - 1]));
    }
  }

  lemma {:induction false} AddedIsRecords(w: World, acts: seq<Action>)
    requires Run(w, acts)
    ensures After(w, acts).added == Plus(w.added, SumRecords(Records(acts)))
    decreases |acts|
  {
    PlusLaws(w.added, ZERO, ZERO);
    if acts != [] {
      var a, rest := acts[0], acts[1..];
      var recs := if a.Add? then a.recs else [];
      AddedIsRecords(Next(w, a), rest);
      SumRecordsConcat(recs, Records(rest));
      PlusLaws(w.added, SumRecords(recs), SumRecords(Records(rest)));
    }
  }

  const START: World := World(Exporter(None, [], [], []), Journal(map[], map[]), ZERO, ZERO, 0)

  /** In every run with a clock that does not go back, whatever a reload finds: the bytes and packets of all
      records ever added, and their number, each as far as 64 bits hold them, are in the persisted summaries,
      in the minutes of the open slot, in the open minute, or were in the latter two at a restart; and no slot
      is summarised twice. */
  lemma {:induction false} FlowsAreConserved(acts: seq<Action>)
    requires Run(START, acts)
    ensures var w := After(START, acts);
      && Totals(Records(acts)) == Plus(Plus(Sum(w.e.out), w.lost), Plus(Sum(Unfolded(w.e)), Open(w.e)))
      && forall i, j :: 0 <= i < j < |w.e.out| ==> w.e.out[i].ts + 300 <= w.e.out[j].ts
  {
    assert Inv(START) by { PlusLaws(ZERO, ZERO, ZERO); }
    RunInv(START, acts);
    AddedIsRecords(START, acts);
    SumIsTotals(Records(acts));
    PlusLaws(SumRecords(Records(acts)), ZERO, ZERO);
    var out := After(START, acts).e.out;
    forall i, j | 0 <= i < j < |out| ensures out[i].ts + 300 <= out[j].ts {
      StepUp(out[i].ts, out[j].ts, 300);
    }
  }

  // ---- slot by slot ---------------------------------------------------------------------------

  function RecordsIn(acts: seq<Action>, slot: nat): seq<Record> {
    if acts == [] then []
    else
      (if acts[0].Add? && Slot(acts[0].now) == slot then acts[0].recs else []) + RecordsIn(acts[1..], slot)
  }

  /** The totals of the persisted summary of a slot, if there is one. */
  function SumAt(l: seq<Summary>, slot: nat): Tot {
    if l == [] then ZERO
    else Plus(SumAt(l[..|l| - 1], slot), if l[|l| - 1].ts == slot then l[|l| - 1].tot else ZERO)
  }

  /** What the open minute and the minutes before it hold of a slot that is not summarised yet. */
  function Held(e: Exporter, slot: nat): Tot {
    if e.cur.Some? && Slot(e.cur.value.ts) == slot then Plus(Sum(Unfolded(e)), Open(e)) else ZERO
  }

  /** What restarts threw away of it. */
  function LostIn(w: World, acts: seq<Action>, slot: nat): Tot
    requires Run(w, acts)
    decreases |acts|
  {
    if acts == [] then ZERO
    else Plus(if acts[0].Restart? then Held(w.e, slot) else ZERO, LostIn(Next(w, acts[0]), acts[1..], slot))
  }

  lemma {:induction false} SumAtSnoc(l: seq<Summary>, f: Summary, slot: nat)
    ensures SumAt(l + [f], slot) == Plus(SumAt(l, slot), if f.ts == slot then f.tot else ZERO)
  {
    assert (l + [f])[..|l|] == l;
  }

  /** A roll moves what it holds of a slot into the slot's summary or keeps it. */
  lemma {:induction false} RollKeepsSlot(e: Exporter, next: nat, slot: nat)
    requires MinutesOk(e) && e.cur.Some? && next % 60 == 0 && e.cur.value.ts < next
    ensures var e' := Roll(e, next);
      Plus(SumAt(e'.out, slot), Held(e', slot)) == Plus(SumAt(e.out, slot), Held(e, slot))
  {
    var s, e' := e.cur.value, Roll(e, next);
    FinishedSlot(e);
    SumFinished(e);
    SlotBounds(s.ts);
    SlotBounds(next);
    if next - Slot(s.ts) >= 300 {
      var f := Merge(Unfolded(e) + [s], Slot(s.ts));
      NewSlotEmpty(e, next);
      NextSlot(s.ts, next);
      SumAtSnoc(e.out, f, slot);
      assert Held(e', slot) == ZERO by { PlusLaws(ZERO, ZERO, ZERO); }
      PlusLaws(SumAt(e.out, slot), f.tot, ZERO);
      PlusLaws(SumAt(e.out, slot), ZERO, ZERO);
    } else {
      SameSlot(s.ts, next);
      PlusLaws(Sum(Unfolded(e')), ZERO, ZERO);
    }
  }

  lemma {:induction false} TurnKeepsSlot(w: World, now: nat, slot: nat)
    requires Inv(w) && w.clock <= now
    ensures var e' := Turn(w.e, now);
      Plus(SumAt(e'.out, slot), Held(e', slot)) == Plus(SumAt(w.e.out, slot), Held(w.e, slot))
  {
    if w.e.cur.Some? && w.e.cur.value.ts != Minute(now) {
      MinuteBounds(now);
      MinuteBefore(w.e.cur.value.ts, now);
      RollKeepsSlot(w.e, Minute(now), slot);
    }
  }

  lemma {:induction false} MinuteInSlot(now: nat)
    ensures Slot(Minute(now)) == Slot(now)
  {
    MinuteBounds(now);
    SlotBounds(now);
    var k := Slot(now) / 60;
    assert Slot(now) == 60 * k;
    MinuteBefore(Slot(now), now);
    SameSlot(Slot(now), Minute(now));
  }

  /** Records go into the minute of their time. */
  lemma {:induction false} OpenedNow(w: World, now: nat)
    requires Inv(w) && w.clock <= now
    ensures Opened(w.e, now).cur.value.ts == Minute(now)
  {
  }

  lemma {:induction false} OpenedKeepsSlot(w: World, now: nat, slot: nat)
    requires Inv(w) && w.clock <= now
    ensures var e' := Opened(w.e, now);
      Plus(SumAt(e'.out, slot), Held(e', slot)) == Plus(SumAt(w.e.out, slot), Held(w.e, slot))
  {
    if w.e.cur.Some? {
      TurnKeepsSlot(w, now, slot);
    } else {
      assert w.e.minutes == [];
      PlusLaws(ZERO, ZERO, ZERO);
    }
  }

  lemma {:induction false} AddKeepsSlot(w: World, recs: seq<Record>, now: nat, slot: nat)
    requires Inv(w) && w.clock <= now && recs != []
    ensures var e', more := Next(w, Add(recs, now)).e, if Slot(now) == slot then SumRecords(recs) else ZERO;
      Plus(SumAt(e'.out, slot), Held(e', slot)) == Plus(Plus(SumAt(w.e.out, slot), Held(w.e, slot)), more)
  {
    var e := Opened(w.e, now);
    OpenedNow(w, now);
    OpenedKeepsSlot(w, now, slot);
    MinuteInSlot(now);
    assert Next(w, Add(recs, now)).e == Filled(e, recs);
    PlusLaws(Sum(Unfolded(e)), Open(e), SumRecords(recs));
    PlusLaws(SumAt(e.out, slot), Held(e, slot), SumRecords(recs));
    PlusLaws(Plus(SumAt(e.out, slot), Held(e, slot)), ZERO, ZERO);
  }

  /** What one step adds to a slot, takes from it, and leaves. */
  lemma {:induction false} SlotStep(w: World, a: Action, slot: nat)
    requires Inv(w) && Enabled(w, a)
    ensures var e' := Next(w, a).e;
      var more := if a.Add? && Slot(a.now) == slot then SumRecords(a.recs) else ZERO;
      var less := if a.Restart? then Held(w.e, slot) else ZERO;
      Plus(Plus(SumAt(e'.out, slot), Held(e', slot)), less) == Plus(Plus(SumAt(w.e.out, slot), Held(w.e, slot)), more)
  {
    PlusLaws(Plus(SumAt(w.e.out, slot), Held(w.e, slot)), ZERO, ZERO);
    PlusLaws(SumAt(w.e.out, slot), ZERO, ZERO);
    match a
    case Add(recs, now) =>
      if recs != [] {
        AddKeepsSlot(w, recs, now, slot);
        PlusLaws(Plus(SumAt(Next(w, a).e.out, slot), Held(Next(w, a).e, slot)), ZERO, ZERO);
      }
    case Tick(now) => TurnKeepsSlot(w, now, slot);
    case _ =>
  }

  lemma {:induction false} Chain(x: Tot, less: Tot, more: Tot, y: Tot, z: Tot, l: Tot, r: Tot)
    requires Plus(y, less) == Plus(x, more) && Plus(z, l) == Plus(y, r)
    ensures Plus(z, Plus(less, l)) == Plus(x, Plus(more, r))
  {
    calc {
      Plus(z, Plus(less, l));
      { PlusLaws(less, l, ZERO); PlusLaws(z, l, less); }
      Plus(Plus(z, l), less);
      Plus(Plus(y, r), less);
      { PlusLaws(y, r, less); PlusLaws(r, less, ZERO); PlusLaws(y, less, r); }
      Plus(Plus(y, less), r);
      Plus(Plus(x, more), r);
      { PlusLaws(x, more, r); }
      Plus(x, Plus(more, r));
    }
  }

  lemma {:induction false} SlotRun(w: World, acts: seq<Action>, slot: nat)
    requires Inv(w) && Run(w, acts)
    ensures var e' := After(w, acts).e;
      Plus(Plus(SumAt(e'.out, slot), Held(e', slot)), LostIn(w, acts, slot))
      == Plus(Plus(SumAt(w.e.out, slot), Held(w.e, slot)), SumRecords(RecordsIn(acts, slot)))
    decreases |acts|
  {
    if acts != [] {
      var a, rest, w' := acts[0], acts[1..], Next(w, acts[0]);
      var more := if a.Add? && Slot(a.now) == slot then a.recs else [];
      Step(w, a);
      SlotStep(w, a, slot);
      SlotRun(w', rest, slot);
      SumRecordsConcat(more, RecordsIn(rest, slot));
      Chain(Plus(SumAt(w.e.out, slot), Held(w.e, slot)), if a.Restart? then Held(w.e, slot) else ZERO, SumRecords(more),
            Plus(SumAt(w'.e.out, slot), Held(w'.e, slot)),
            Plus(SumAt(After(w, acts).e.out, slot), Held(After(w, acts).e, slot)), LostIn(w', rest, slot),
            SumRecords(RecordsIn(rest, slot)));
    }
  }

  /** The totals of a list with distinct slots are those of the one summary of the slot. */
  lemma {:induction false} OnlyOneAt(l: seq<Summary>, i: nat)
    requires Ascending(l) && i < |l|
    ensures SumAt(l, l[i].ts) == l[i].tot
  {
    var init, f := l[..|l| - 1], l[|l| - 1];
    if i < |l| - 1 {
      OnlyOneAt(init, i);
      PlusLaws(l[i].tot, ZERO, ZERO);
    } else {
      NoneAt(init, f.ts);
      PlusLaws(f.tot, ZERO, ZERO);
    }
  }

  lemma {:induction false} NoneAt(l: seq<Summary>, slot: nat)
    requires forall i :: 0 <= i < |l| ==> l[i].ts != slot
    ensures SumAt(l, slot) == ZERO
  {
    if l != [] {
      NoneAt(l[..|l| - 1], slot);
      PlusLaws(ZERO, ZERO, ZERO);
    }
  }

  /** In every run and of every slot: the records that were added in its five minutes are in its summary, in the
      minutes of it that are not summarised yet, or were in those at a restart. */
  lemma {:induction false} SlotsAreConserved(acts: seq<Action>, slot: nat)
    requires Run(START, acts)
    ensures var e := After(START, acts).e;
      Totals(RecordsIn(acts, slot)) == Plus(Plus(SumAt(e.out, slot), Held(e, slot)), LostIn(START, acts, slot))
  {
    assert Inv(START) by { PlusLaws(ZERO, ZERO, ZERO); }
    SlotRun(START, acts, slot);
    SumIsTotals(RecordsIn(acts, slot));
    PlusLaws(SumRecords(RecordsIn(acts, slot)), ZERO, ZERO);
    PlusLaws(ZERO, ZERO, ZERO);
  }

  /** So the summary of a slot that no restart fell into shows exactly the records of its five minutes. */
  lemma {:induction false} SummaryIsItsRecords(acts: seq<Action>, i: nat)
    requires Run(START, acts) && i < |After(START, acts).e.out|
    requires LostIn(START, acts, After(START, acts).e.out[i].ts) == ZERO
    ensures var f := After(START, acts).e.out[i]; f.tot == Totals(RecordsIn(acts, f.ts))
  {
    assert Inv(START) by { PlusLaws(ZERO, ZERO, ZERO); }
    RunInv(START, acts);
    var e := After(START, acts).e;
    var f := e.out[i];
    SlotsAreConserved(acts, f.ts);
    OnlyOneAt(e.out, i);
    if e.cur.Some? { assert f.ts + f.span <= Slot(e.cur.value.ts); }
    PlusLaws(f.tot, ZERO, ZERO);
  }
}
