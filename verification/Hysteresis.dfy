/** Metric thresholds with hysteresis: the flag as a function of everything sampled so far. */
module Hysteresis {
  /** A metric rule; its thresholds are reals. */
  datatype Rule = Rule(enter: real, exit: real, forCycles: int)

  function Max1(n: int): (r: int)
    ensures r >= 1
  {
    if n < 1 then 1 else n
  }

  datatype Gauge = Gauge(runs: nat, on: bool)

  /** The copy for devices. */
  function CheckDevice(r: Rule, g: Gauge, v: real): Gauge {
    if v >= r.enter && !g.on then Gauge(g.runs + 1, g.runs + 1 >= Max1(r.forCycles))
    else if v <= r.exit then Gauge(0, false)
    else g
  }

  /** The copy for interfaces. */
  function CheckInterface(r: Rule, g: Gauge, v: real): Gauge {
    if v >= r.enter then Gauge(g.runs + 1, g.on || g.runs + 1 >= Max1(r.forCycles))
    else if v <= r.exit then Gauge(0, false)
    else g
  }

  class Metric {
    var runs: nat
    var on: bool

    ghost function State(): Gauge
      reads this
    {
      Gauge(runs, on)
    }

    method OnDevice(r: Rule, value: real)
      modifies this
      ensures State() == CheckDevice(r, old(State()), value)
    {
      if value >= r.enter && !on {
        runs := runs + 1;
        if runs >= Max1(r.forCycles) {
          on := true;
        }
      } else if value <= r.exit {
        runs := 0;
        if on {
          on := false;
        }
      }
    }

    method OnInterface(r: Rule, value: real)
      modifies this
      ensures State() == CheckInterface(r, old(State()), value)
    {
      if value >= r.enter {
        runs := runs + 1;
        if runs >= Max1(r.forCycles) && !on {
          on := true;
        }
      } else if value <= r.exit {
        runs := 0;
        if on {
          on := false;
        }
      }
    }
  }

  // ---- histories ------------------------------------------------------------------------------

  function AfterDevice(r: Rule, h: seq<real>): Gauge {
    if h == [] then Gauge(0, false) else CheckDevice(r, AfterDevice(r, h[..|h| - 1]), h[|h| - 1])
  }

  function AfterInterface(r: Rule, h: seq<real>): Gauge {
    if h == [] then Gauge(0, false) else CheckInterface(r, AfterInterface(r, h[..|h| - 1]), h[|h| - 1])
  }

  /** Samples at or over the enter threshold in h. */
  function Hits(r: Rule, h: seq<real>): nat {
    if h == [] then 0 else Hits(r, h[..|h| - 1]) + if h[|h| - 1] >= r.enter then 1 else 0
  }

  /** No sample in h is at or under the exit threshold. */
  ghost predicate StaysOver(r: Rule, h: seq<real>) {
    forall i :: 0 <= i < |h| ==> h[i] > r.exit
  }

  /** h is split behind its last sample at or under the exit threshold. */
  ghost predicate LastExit(r: Rule, h: seq<real>, k: nat) {
    k <= |h| && StaysOver(r, h[k..]) && (k > 0 ==> h[k - 1] <= r.exit)
  }

  /** Enough hits since the last exit. */
  ghost predicate Exceeded(r: Rule, h: seq<real>) {
    exists k: nat :: LastExit(r, h, k) && Hits(r, h[k..]) >= Max1(r.forCycles)
  }

  lemma {:induction false} LastExitExtends(r: Rule, h: seq<real>, k: nat, v: real)
    requires LastExit(r, h, k) && v > r.exit
    ensures LastExit(r, h + [v], k) && Hits(r, (h + [v])[k..]) == Hits(r, h[k..]) + if v >= r.enter then 1 else 0
  {
    assert (h + [v])[k..] == h[k..] + [v];
    assert (h[k..] + [v])[..|h[k..]|] == h[k..];
  }

  /** Both copies have counted n hits; the device copy stops counting once it is on. */
  ghost predicate Counted(r: Rule, device: Gauge, interface: Gauge, n: nat) {
    && interface == Gauge(n, n >= Max1(r.forCycles))
    && device.on == (n >= Max1(r.forCycles))
    && (!device.on ==> device.runs == n)
  }

  lemma {:induction false} CountedStep(r: Rule, device: Gauge, interface: Gauge, n: nat, v: real)
    requires r.exit < r.enter && v > r.exit && Counted(r, device, interface, n)
    ensures Counted(r, CheckDevice(r, device, v), CheckInterface(r, interface, v), n + if v >= r.enter then 1 else 0)
  {
  }

  lemma {:induction false} LastExitShrinks(r: Rule, init: seq<real>, k: nat, v: real)
    requires LastExit(r, init + [v], k) && k <= |init|
    ensures LastExit(r, init, k) && v > r.exit
  {
    var h := init + [v];
    assert h[k..][|init| - k] == v;
    assert forall i :: 0 <= i < |init[k..]| ==> init[k..][i] == h[k..][i];
  }

  /** Both copies count hits since the last exit. */
  lemma {:induction false} GaugesAt(r: Rule, h: seq<real>, k: nat)
    requires r.exit < r.enter && LastExit(r, h, k)
    ensures Counted(r, AfterDevice(r, h), AfterInterface(r, h), Hits(r, h[k..]))
    decreases |h|
  {
    if k == |h| {
      assert h[k..] == [];
    } else {
      var init, v := h[..|h| - 1], h[|h| - 1];
      assert h == init + [v];
      LastExitShrinks(r, init, k, v);
      GaugesAt(r, init, k);
      LastExitExtends(r, init, k, v);
      CountedStep(r, AfterDevice(r, init), AfterInterface(r, init), Hits(r, init[k..]), v);
    }
  }

  lemma {:induction false} LastExitExists(r: Rule, h: seq<real>) returns (k: nat)
    ensures LastExit(r, h, k)
  {
    if h == [] {
      k := 0;
    } else if h[|h| - 1] <= r.exit {
      k := |h|;
    } else {
      var init := h[..|h| - 1];
      k := LastExitExists(r, init);
      LastExitExtends(r, init, k, h[|h| - 1]);
      assert h == init + [h[|h| - 1]];
    }
  }

  lemma {:induction false} LastExitUnique(r: Rule, h: seq<real>, j: nat, k: nat)
    requires LastExit(r, h, j) && LastExit(r, h, k)
    ensures j == k
  {
  }

  /** The flag is on exactly when enough samples reached the enter threshold since the last one at or
      under the exit threshold, in both copies, for every history. */
  lemma {:induction false} FlagIsHistory(r: Rule, h: seq<real>)
    requires r.exit < r.enter
    ensures AfterDevice(r, h).on <==> Exceeded(r, h)
    ensures AfterInterface(r, h).on <==> Exceeded(r, h)
  {
    var k := LastExitExists(r, h);
    GaugesAt(r, h, k);
    if Exceeded(r, h) {
      var j: nat :| LastExit(r, h, j) && Hits(r, h[j..]) >= Max1(r.forCycles);
      LastExitUnique(r, h, j, k);
    }
  }

  // ---- rules whose thresholds cross -----------------------------------------------------------

  function Steady(v: real, n: nat): seq<real> {
    seq(n, _ => v)
  }

  /** With crossed thresholds a value can be both: the device copy counts it while off, */
  lemma {:induction false} SteadyDevice(r: Rule, n: nat)
    requires r.enter <= r.exit && n <= Max1(r.forCycles)
    ensures AfterDevice(r, Steady(r.enter, n)) == Gauge(n, n >= Max1(r.forCycles))
    decreases n
  {
    if n > 0 {
      assert Steady(r.enter, n)[..n - 1] == Steady(r.enter, n - 1);
      SteadyDevice(r, n - 1);
    }
  }

  /** the interface copy always. */
  lemma {:induction false} SteadyInterface(r: Rule, n: nat)
    ensures AfterInterface(r, Steady(r.enter, n)) == Gauge(n, n >= Max1(r.forCycles))
    decreases n
  {
    if n > 0 {
      assert Steady(r.enter, n)[..n - 1] == Steady(r.enter, n - 1);
      SteadyInterface(r, n - 1);
    }
  }

  /** The two copies agree on every history exactly when the exit threshold is under the enter one. */
  lemma {:induction false} CopiesAgreeIff(r: Rule)
    ensures (forall h: seq<real> :: AfterDevice(r, h).on == AfterInterface(r, h).on) <==> r.exit < r.enter
  {
    if r.exit < r.enter {
      forall h: seq<real> ensures AfterDevice(r, h).on == AfterInterface(r, h).on {
        FlagIsHistory(r, h);
      }
    } else {
      var n := Max1(r.forCycles);
      SteadyDevice(r, n);
      SteadyInterface(r, n + 1);
      assert Steady(r.enter, n + 1)[..n] == Steady(r.enter, n);
      assert !AfterDevice(r, Steady(r.enter, n + 1)).on;
    }
  }
}
