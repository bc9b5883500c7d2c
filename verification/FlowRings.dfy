/**
 * Flow aggregation of one exporter: records go into the open minute, finished minutes into a ring,
 * and the minutes of a finished 5-minute slot into one persisted summary.  Times are seconds since
 * the zero time; counters are 64-bit and wrap.
 */
module FlowRings {
  import opened Wrappers
  import opened Bytes

  const MINUTE_RING: nat := 60
  const FIVE_RING: nat := 288

  type uint64 = x: int | 0 <= x < 0x1_0000_0000_0000_0000

  /** A 64-bit sum that wraps around. */
  function Plus64(a: uint64, b: uint64): uint64 {
    var s: int := a + b;
    if s >= TWO64 then s - TWO64 else s
  }

  datatype Tot = Tot(bytes: uint64, packets: uint64, flows: uint64)

  const ZERO: Tot := Tot(0, 0, 0)

  function Plus(a: Tot, b: Tot): Tot {
    Tot(Plus64(a.bytes, b.bytes), Plus64(a.packets, b.packets), Plus64(a.flows, b.flows))
  }

  lemma {:induction false} PlusLaws(a: Tot, b: Tot, c: Tot)
    ensures Plus(Plus(a, b), c) == Plus(a, Plus(b, c)) && Plus(a, b) == Plus(b, a)
    ensures Plus(a, ZERO) == a && Plus(ZERO, a) == a
  {
  }

  /** A bucket or summary: its start, its span, its totals. */
  datatype Summary = Summary(ts: nat, span: nat, tot: Tot)

  function Sum(l: seq<Summary>): Tot {
    if l == [] then ZERO else Plus(l[0].tot, Sum(l[1..]))
  }

  lemma {:induction false} SumConcat(a: seq<Summary>, b: seq<Summary>)
    ensures Sum(a + b) == Plus(Sum(a), Sum(b))
  {
    if a == [] {
      assert a + b == b;
      PlusLaws(Sum(b), ZERO, ZERO);
    } else {
      assert (a + b)[1..] == a[1..] + b;
      SumConcat(a[1..], b);
      PlusLaws(a[0].tot, Sum(a[1..]), Sum(b));
    }
  }

  function Minute(t: nat): nat {
    t - t % 60
  }

  function Slot(t: nat): nat {
    t - t % 300
  }

  /** One flow record. */
  datatype Record = Record(bytes: uint64, packets: uint64)

  function TotOf(r: Record): Tot {
    Tot(r.bytes, r.packets, 1)
  }

  function SumRecords(recs: seq<Record>): Tot {
    if recs == [] then ZERO else Plus(SumRecords(recs[..|recs| - 1]), TotOf(recs[|recs| - 1]))
  }

  /** All bytes and packets of some records, without wrapping around. */
  function ByteCount(recs: seq<Record>): nat {
    if recs == [] then 0 else ByteCount(recs[..|recs| - 1]) + recs[|recs| - 1].bytes
  }

  function PacketCount(recs: seq<Record>): nat {
    if recs == [] then 0 else PacketCount(recs[..|recs| - 1]) + recs[|recs| - 1].packets
  }

  /** What 64-bit counters can show of them: each record is one flow. */
  function Totals(recs: seq<Record>): Tot {
    Tot(ByteCount(recs) % TWO64, PacketCount(recs) % TWO64, |recs| % TWO64)
  }

  lemma {:induction false} PlusWraps(n: nat, b: uint64)
    ensures Plus64(n % TWO64, b) == (n + b) % TWO64
  {
  }

  lemma {:induction false} SumIsTotals(recs: seq<Record>)
    ensures SumRecords(recs) == Totals(recs)
  {
    if recs != [] {
      var init, r := recs[..|recs| - 1], recs[|recs| - 1];
      SumIsTotals(init);
      PlusWraps(ByteCount(init), r.bytes);
      PlusWraps(PacketCount(init), r.packets);
      PlusWraps(|init|, 1);
    }
  }

  /** The working set of an exporter; `out` is what it has persisted, newest last. */
  datatype Exporter = Exporter(cur: Option<Summary>, minutes: seq<Summary>, fives: seq<Summary>, out: seq<Summary>)

  function Bucket(start: nat, tot: Tot): Summary {
    Summary(start, 60, tot)
  }

  function Newest(l: seq<Summary>, n: nat): seq<Summary> {
    if |l| > n then l[|l| - n..] else l
  }

  function InSlot(l: seq<Summary>, slot: nat): seq<Summary> {
    if l == [] then []
    else (if Slot(l[0].ts) == slot then [l[0]] else []) + InSlot(l[1..], slot)
  }

  /** Merge: totals add up. */
  function Merge(l: seq<Summary>, slot: nat): Summary {
    Summary(slot, 300, Sum(l))
  }

  /** The open minute is finished; when the next one lies beyond its slot, the slot is folded. */
  function Roll(e: Exporter, next: nat): Exporter
    requires e.cur.Some?
  {
    var s := e.cur.value;
    var minutes := Newest(e.minutes + [s], MINUTE_RING);
    var slot := Slot(s.ts);
    if next - slot >= 300 && InSlot(minutes, slot) != [] then
      var f := Merge(InSlot(minutes, slot), slot);
      Exporter(Some(Bucket(next, ZERO)), minutes, Newest(e.fives + [f], FIVE_RING), e.out + [f])
    else Exporter(Some(Bucket(next, ZERO)), minutes, e.fives, e.out)
  }

  function Turn(e: Exporter, now: nat): Exporter {
    if e.cur.Some? && e.cur.value.ts != Minute(now) then Roll(e, Minute(now)) else e
  }

  function Filled(e: Exporter, recs: seq<Record>): Exporter
    requires e.cur.Some?
  {
    e.(cur := Some(e.cur.value.(tot := Plus(e.cur.value.tot, SumRecords(recs)))))
  }

  function Added(e: Exporter, recs: seq<Record>, now: nat): Exporter {
    if recs == [] then e
    else Filled(if e.cur.None? then e.(cur := Some(Bucket(Minute(now), ZERO))) else Turn(e, now), recs)
  }

  // ---- the loops ------------------------------------------------------------------------------

  method MergeAll(l: seq<Summary>, slot: nat) returns (f: Summary)
    ensures f == Merge(l, slot)
  {
    var tot := ZERO;
    PlusLaws(Sum(l), ZERO, ZERO);
    for i := 0 to |l|
      invariant Plus(tot, Sum(l[i..])) == Sum(l)
    {
      assert l[i..][1..] == l[i + 1..];
      PlusLaws(tot, l[i].tot, Sum(l[i + 1..]));
      tot := Plus(tot, l[i].tot);
    }
    PlusLaws(tot, ZERO, ZERO);
    f := Summary(slot, 300, tot);
  }

  class Rings {
    var cur: Option<Summary>
    var minutes: seq<Summary>
    var fives: seq<Summary>
    var out: seq<Summary>

    ghost function State(): Exporter
      reads this
    {
      Exporter(cur, minutes, fives, out)
    }

    method MinutesOf(slot: nat) returns (found: seq<Summary>)
      ensures found == InSlot(minutes, slot)
    {
      found := [];
      for i := 0 to |minutes|
        invariant found + InSlot(minutes[i..], slot) == InSlot(minutes, slot)
      {
        assert minutes[i..][1..] == minutes[i + 1..];
        if Slot(minutes[i].ts) == slot {
          found := found + [minutes[i]];
        }
      }
    }

    method PushMinute(s: Summary)
      modifies this`minutes
      ensures minutes == Newest(old(minutes) + [s], MINUTE_RING)
    {
      minutes := minutes + [s];
      if |minutes| > MINUTE_RING {
        minutes := minutes[|minutes| - MINUTE_RING..];
      }
    }

    method PushFive(f: Summary)
      modifies this`fives, this`out
      ensures fives == Newest(old(fives) + [f], FIVE_RING) && out == old(out) + [f]
    {
      fives := fives + [f];
      if |fives| > FIVE_RING {
        fives := fives[|fives| - FIVE_RING..];
      }
      out := out + [f];
    }

    method RollLocked(next: nat)
      requires cur.Some?
      modifies this
      ensures State() == Roll(old(State()), next)
    {
      var s := cur.value;
      cur := Some(Bucket(next, ZERO));
      PushMinute(s);
      var slot := Slot(s.ts);
      if next - slot >= 300 {
        var found := MinutesOf(slot);
        if |found| > 0 {
          var f := MergeAll(found, slot);
          PushFive(f);
        }
      }
    }

    method Add(recs: seq<Record>, now: nat)
      modifies this
      ensures State() == Added(old(State()), recs, now)
    {
      if recs == [] {
        return;
      }
      var minute := Minute(now);
      if cur.None? {
        cur := Some(Bucket(minute, ZERO));
      } else if cur.value.ts != minute {
        RollLocked(minute);
      }
      ghost var base := cur.value.tot;
      ghost var before := State();
      PlusLaws(base, ZERO, ZERO);
      for i := 0 to |recs|
        invariant cur.Some? && State() == before.(cur := cur)
        invariant cur.value == before.cur.value.(tot := Plus(base, SumRecords(recs[..i])))
      {
        assert recs[..i + 1][..i] == recs[..i];
        PlusLaws(base, SumRecords(recs[..i]), TotOf(recs[i]));
        cur := Some(cur.value.(tot := Plus(cur.value.tot, TotOf(recs[i]))));
      }
      assert recs[..|recs|] == recs;
    }

    method Tick(now: nat)
      modifies this
      ensures State() == Turn(old(State()), now)
    {
      if cur.Some? && cur.value.ts != Minute(now) {
        RollLocked(Minute(now));
      }
    }
  }
}
