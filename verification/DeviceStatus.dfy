/**
 * The status of a device: confirmed outages, recovery after two good cycles, maintenance, folding
 * under an upstream outage, stale samples, restarts.
 */
module DeviceStatus {
  import opened Hysteresis
  import opened Wrappers

  datatype Status = Unknown | Up | Degraded | Down | Unreachable | Maintenance

  /** One poll of the device, with what the engine knows at that time: a maintenance window, metric
      flags that are on, an upstream device that is out, and the cycles an outage must last. */
  datatype Poll = Poll(reachable: bool, inMaintenance: bool, degraded: bool, upstreamOut: bool, forCycles: int)

  datatype Input = Sample(p: Poll) | Folded | Stale | Restart

  datatype Object = Object(status: Status, fails: nat, oks: nat)

  predicate Out(s: Status) {
    s == Down || s == Unreachable
  }

  /** Streaks first, then the status they lead to. */
  function Counted(o: Object, reachable: bool): Object {
    if reachable then o.(oks := o.oks + 1, fails := 0) else o.(fails := o.fails + 1, oks := 0)
  }

  function Decide(o: Object, p: Poll): Status {
    if p.inMaintenance then Maintenance
    else if !p.reachable && o.fails >= Max1(p.forCycles) then Down
    else if !p.reachable && o.status == Unknown then Unknown
    else if !p.reachable then if o.status == Maintenance then Up else o.status
    else if Out(o.status) && o.oks < 2 then o.status
    else if p.degraded then Degraded
    else Up
  }

  /** An outage behind an upstream outage is not the device's own. */
  function Suppress(s: Status, p: Poll): Status {
    if s == Down && p.upstreamOut then Unreachable else s
  }

  function OnSample(o: Object, p: Poll): Object {
    var c := Counted(o, p.reachable);
    c.(status := Suppress(Decide(c, p), p))
  }

  function Next(o: Object, i: Input): Object {
    match i
    case Sample(p) => OnSample(o, p)
    case Folded => if o.status == Down then o.(status := Unreachable) else o
    case Stale => o.(status := Unknown)
    case Restart => Object(o.status, 0, 0)
  }

  class Device {
    var status: Status
    var failStreak: nat
    var okStreak: nat

    ghost function State(): Object
      reads this
    {
      Object(status, failStreak, okStreak)
    }

    constructor (restored: Status)
      ensures State() == Object(restored, 0, 0)
    {
      status, failStreak, okStreak := restored, 0, 0;
    }

    method OnDevice(p: Poll)
      modifies this
      ensures State() == OnSample(old(State()), p)
      ensures failStreak == (if p.reachable then 0 else old(failStreak) + 1)
      ensures okStreak == (if p.reachable then old(okStreak) + 1 else 0)
      ensures p.inMaintenance ==> status == Maintenance
      ensures !p.inMaintenance && !p.reachable && failStreak >= Max1(p.forCycles) ==>
        status == if p.upstreamOut then Unreachable else Down
      ensures !p.inMaintenance && p.reachable && !(Out(old(status)) && okStreak < 2) ==>
        status == if p.degraded then Degraded else Up
      ensures !p.inMaintenance && (p.reachable ==> Out(old(status)) && okStreak < 2) && failStreak < Max1(p.forCycles)
        ==> status == if old(status) == Maintenance then Up
                      else if old(status) == Down && p.upstreamOut then Unreachable
                      else old(status)
    {
      if p.reachable {
        okStreak := okStreak + 1;
        failStreak := 0;
      } else {
        failStreak := failStreak + 1;
        okStreak := 0;
      }
      var next := status;
      if p.inMaintenance {
        next := Maintenance;
      } else if !p.reachable && failStreak >= Max1(p.forCycles) {
        next := Down;
      } else if !p.reachable && status == Unknown {
        next := Unknown;
      } else if !p.reachable {
        if next == Maintenance {
          next := Up;
        }
      } else if Out(status) && okStreak < 2 {
        next := status;
      } else if p.degraded {
        next := Degraded;
      } else {
        next := Up;
      }
      if next == Down && p.upstreamOut {
        next := Unreachable;
      }
      status := next;
    }

    method FoldUnder()
      modifies this
      ensures State() == Next(old(State()), Folded)
      ensures status == if old(status) == Down then Unreachable else old(status)
      ensures failStreak == old(failStreak) && okStreak == old(okStreak)
    {
      if status != Down {
        return;
      }
      status := Unreachable;
    }
  }

  // ---- histories ------------------------------------------------------------------------------

  const NEW: Object := Object(Unknown, 0, 0)

  function After(h: seq<Input>): Object {
    if h == [] then NEW else Next(After(h[..|h| - 1]), h[|h| - 1])
  }

  /** Samples in a row, up to the last one, that went unanswered (or were answered) since the last
      restart; folding and stale steps in between do not count. */
  function Trailing(h: seq<Input>, reachable: bool): nat {
    if h == [] then 0
    else
      match h[|h| - 1]
      case Sample(p) => if p.reachable == reachable then Trailing(h[..|h| - 1], reachable) + 1 else 0
      case Restart => 0
      case _ => Trailing(h[..|h| - 1], reachable)
  }

  lemma {:induction false} StreaksAreTrailing(h: seq<Input>)
    ensures After(h).fails == Trailing(h, false) && After(h).oks == Trailing(h, true)
  {
    if h != [] { StreaksAreTrailing(h[..|h| - 1]); }
  }

  /** At i the outage was confirmed. */
  ghost predicate Confirmed(h: seq<Input>, i: nat)
    requires i < |h|
  {
    h[i].Sample? && !h[i].p.inMaintenance && Trailing(h[..i + 1], false) >= Max1(h[i].p.forCycles)
  }

  /** At j an outage would end: maintenance, no samples any more, or a second answer in a row. */
  ghost predicate Ends(h: seq<Input>, j: nat)
    requires j < |h|
  {
    h[j].Stale? || (h[j].Sample? && (h[j].p.inMaintenance || Trailing(h[..j + 1], true) >= 2))
  }

  ghost predicate Outage(h: seq<Input>, i: nat) {
    i < |h| && Confirmed(h, i) && forall j :: i < j < |h| ==> !Ends(h, j)
  }

  /** One more input: the device is out exactly when the outage is confirmed now, or it was out and the
      outage does not end now. */
  lemma {:induction false} OutStep(h: seq<Input>)
    requires h != []
    ensures var k := |h| - 1;
      Out(After(h).status) <==> Confirmed(h, k) || (Out(After(h[..k]).status) && !Ends(h, k))
  {
    StreaksAreTrailing(h);
    assert h[..|h|] == h;
  }

  lemma {:induction false} OutageExtends(h: seq<Input>, x: Input, i: nat)
    requires i < |h|
    ensures Outage(h + [x], i) <==> Outage(h, i) && !Ends(h + [x], |h|)
  {
    var g := h + [x];
    assert forall j :: 0 <= j < |h| ==> g[j] == h[j] && g[..j + 1] == h[..j + 1];
    assert forall j :: 0 <= j < |h| ==> (Ends(g, j) <==> Ends(h, j));
  }

  /** In every run: the device is down or unreachable exactly when some sample ended at least
      max(1, forCycles) unanswered ones in a row and since then there was no maintenance, no lack of
      samples and no second answer in a row.  Folding and restarts change nothing about it. */
  lemma {:induction false} OutIsHistory(h: seq<Input>)
    ensures Out(After(h).status) <==> exists i :: Outage(h, i)
  {
    if h != [] {
      var init, x := h[..|h| - 1], h[|h| - 1];
      assert h == init + [x];
      OutIsHistory(init);
      OutStep(h);
      forall i: nat | i < |init| ensures Outage(h, i) <==> Outage(init, i) && !Ends(h, |init|) {
        OutageExtends(init, x, i);
      }
      assert Outage(h, |init|) <==> Confirmed(h, |init|);
    }
  }

  /** A device enters an outage only on a sample that ends enough unanswered ones; no folding, stale or
      restart step starts one. */
  lemma {:induction false} EntersOnlyConfirmed(h: seq<Input>)
    requires h != [] && !Out(After(h[..|h| - 1]).status) && Out(After(h).status)
    ensures h[|h| - 1].Sample? && !h[|h| - 1].p.inMaintenance
    ensures Trailing(h, false) >= Max1(h[|h| - 1].p.forCycles)
  {
    OutStep(h);
    assert h[..|h|] == h;
  }

  /** It leaves one for Up or Degraded only on a sample that ends at least two answered ones. */
  lemma {:induction false} RecoversOnlyAfterTwo(h: seq<Input>)
    requires h != [] && Out(After(h[..|h| - 1]).status)
    requires After(h).status == Up || After(h).status == Degraded
    ensures h[|h| - 1].Sample? && Trailing(h, true) >= 2
  {
    StreaksAreTrailing(h);
  }

  // ---- the whole status as a function of the history ------------------------------------------

  /** The first answer in a row while the device is out, which is not enough to recover. */
  ghost predicate HeldBack(h: seq<Input>, j: nat)
    requires j < |h|
  {
    Trailing(h[..j + 1], true) == 1 && exists i :: Outage(h[..j], i)
  }

  /** The status that an input gives whatever the device was before; None if it gives none: folding, restarts,
      unanswered samples that confirm nothing, and answers that are held back. */
  ghost function Verdict(h: seq<Input>, j: nat): Option<Status>
    requires j < |h|
  {
    match h[j]
    case Stale => Some(Unknown)
    case Sample(p) =>
      if p.inMaintenance then Some(Maintenance)
      else if p.reachable then
        if HeldBack(h, j) then None else Some(if p.degraded then Degraded else Up)
      else if Trailing(h[..j + 1], false) >= Max1(p.forCycles) then Some(Down)
      else None
    case _ => None
  }

  ghost predicate LastVerdict(h: seq<Input>, i: nat) {
    i < |h| && Verdict(h, i).Some? && forall j :: i < j < |h| ==> Verdict(h, j) == None
  }

  /** From i on some input found an upstream device out. */
  ghost predicate Covered(h: seq<Input>, i: nat) {
    exists j :: i <= j < |h| && (h[j].Folded? || (h[j].Sample? && h[j].p.upstreamOut))
  }

  ghost predicate SampledAfter(h: seq<Input>, i: nat) {
    exists j :: i < j < |h| && h[j].Sample?
  }

  /** What a last verdict has come to: maintenance ends with the next sample, and an outage behind an
      upstream outage is not the device's own. */
  ghost function Shown(h: seq<Input>, i: nat): Status
    requires LastVerdict(h, i)
  {
    match Verdict(h, i).value
    case Maintenance => if SampledAfter(h, i) then Up else Maintenance
    case Down => if Covered(h, i) then Unreachable else Down
    case s => s
  }

  lemma {:induction false} VerdictStays(h: seq<Input>, x: Input, j: nat)
    requires j < |h|
    ensures Verdict(h + [x], j) == Verdict(h, j)
  {
    assert (h + [x])[..j + 1] == h[..j + 1] && (h + [x])[..j] == h[..j];
  }

  /** One more input with a verdict of its own. */
  lemma {:induction false} VerdictStep(h: seq<Input>)
    requires h != [] && Verdict(h, |h| - 1).Some?
    ensures LastVerdict(h, |h| - 1) && After(h).status == Shown(h, |h| - 1)
  {
    var k := |h| - 1;
    StreaksAreTrailing(h);
    OutIsHistory(h[..k]);
    assert h[..k + 1] == h;
    assert Covered(h, k) <==> h[k].Folded? || (h[k].Sample? && h[k].p.upstreamOut);
  }

  /** One without: the status stays but for folding, and maintenance that a sample ends. */
  lemma {:induction false} KeepStep(h: seq<Input>)
    requires h != [] && Verdict(h, |h| - 1) == None
    ensures var was, x := After(h[..|h| - 1]).status, h[|h| - 1];
      After(h).status ==
        if was == Maintenance && x.Sample? then Up
        else if was == Down && (x.Folded? || (x.Sample? && x.p.upstreamOut)) then Unreachable
        else was
  {
    var k := |h| - 1;
    StreaksAreTrailing(h);
    OutIsHistory(h[..k]);
    assert h[..k + 1] == h;
  }

  lemma {:induction false} ShownLater(h: seq<Input>, x: Input, i: nat)
    requires i < |h| && LastVerdict(h + [x], i)
    ensures LastVerdict(h, i) && Verdict(h + [x], |h|) == None
    ensures Shown(h + [x], i) ==
      if Shown(h, i) == Maintenance && x.Sample? then Up
      else if Shown(h, i) == Down && (x.Folded? || (x.Sample? && x.p.upstreamOut)) then Unreachable
      else Shown(h, i)
  {
    var g := h + [x];
    forall j: nat | j < |h| ensures Verdict(g, j) == Verdict(h, j) { VerdictStays(h, x, j); }
    assert forall j :: 0 <= j < |h| ==> g[j] == h[j];
    assert g[|h|] == x;
    assert SampledAfter(g, i) <==> SampledAfter(h, i) || x.Sample?;
    assert Covered(g, i) <==> Covered(h, i) || x.Folded? || (x.Sample? && x.p.upstreamOut);
  }

  /** In every run the status is what the last verdict has come to, and unknown if there was none yet. */
  lemma {:induction false} StatusIsHistory(h: seq<Input>)
    ensures (forall j :: 0 <= j < |h| ==> Verdict(h, j) == None) ==> After(h).status == Unknown
    ensures forall i: nat :: LastVerdict(h, i) ==> After(h).status == Shown(h, i)
  {
    if h != [] {
      var k := |h| - 1;
      var init, x := h[..k], h[k];
      assert h == init + [x];
      StatusIsHistory(init);
      if Verdict(h, k).Some? {
        VerdictStep(h);
      } else {
        KeepStep(h);
        forall j: nat | j < k ensures Verdict(h, j) == Verdict(init, j) { VerdictStays(init, x, j); }
        forall i: nat | LastVerdict(h, i) ensures After(h).status == Shown(h, i) { ShownLater(init, x, i); }
      }
    }
  }

  /** Through maintenance one answer, or none, is enough: the outage is not remembered. */
  lemma {:induction false} MaintenanceForgetsOutage()
    ensures var down := Sample(Poll(false, false, false, false, 1));
      var maintained := Sample(Poll(false, true, false, false, 3));
      var unanswered := Sample(Poll(false, false, false, false, 3));
      var answered := Sample(Poll(true, false, false, false, 3));
      && After([down]).status == Down
      && After([down, maintained, answered]).status == Up
      && After([answered, maintained, unanswered]).status == Up
  {
    var down := Sample(Poll(false, false, false, false, 1));
    var maintained := Sample(Poll(false, true, false, false, 3));
    var unanswered := Sample(Poll(false, false, false, false, 3));
    var answered := Sample(Poll(true, false, false, false, 3));
    assert [down, maintained, answered][..2] == [down, maintained] && [down, maintained][..1] == [down];
    assert [answered, maintained, unanswered][..2] == [answered, maintained]
      && [answered, maintained][..1] == [answered];
    assert After([down]) == Object(Down, 1, 0);
    assert After([down, maintained]) == Object(Maintenance, 2, 0);
    assert After([answered]) == Object(Up, 0, 1);
    assert After([answered, maintained]) == Object(Maintenance, 1, 0);
  }
}
