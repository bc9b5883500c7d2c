/**
 * The forwarder: a standby queues what it collects and posts it to the leader in batches.  A batch in
 * flight that fails goes back in front of what was queued meanwhile.
 */
module Forwarder {
  import opened Wrappers
  import opened Subsequence

  datatype Kind = Device | Iface | Event | Metric | Log | Trap | Flow

  datatype Batch = Batch(devices: seq<Item>, ifaces: seq<Item>, events: seq<Item>, metrics: seq<Item>,
                         logs: seq<Item>, traps: seq<Item>, flows: seq<Item>)

  const EMPTY: Batch := Batch([], [], [], [], [], [], [])

  function Of(b: Batch, k: Kind): seq<Item> {
    match k
    case Device => b.devices
    case Iface => b.ifaces
    case Event => b.events
    case Metric => b.metrics
    case Log => b.logs
    case Trap => b.traps
    case Flow => b.flows
  }

  /** The streams that may be thinned out. */
  predicate Cheap(k: Kind) {
    k == Metric || k == Log || k == Flow
  }

  function Size(b: Batch): nat {
    |b.devices| + |b.ifaces| + |b.events| + |b.metrics| + |b.logs| + |b.traps| + |b.flows|
  }

  function Append(b: Batch, k: Kind, x: Item): Batch {
    match k
    case Device => b.(devices := b.devices + [x])
    case Iface => b.(ifaces := b.ifaces + [x])
    case Event => b.(events := b.events + [x])
    case Metric => b.(metrics := b.metrics + [x])
    case Log => b.(logs := b.logs + [x])
    case Trap => b.(traps := b.traps + [x])
    case Flow => b.(flows := b.flows + [x])
  }

  function Followed(a: Batch, b: Batch): Batch {
    Batch(a.devices + b.devices, a.ifaces + b.ifaces, a.events + b.events, a.metrics + b.metrics,
          a.logs + b.logs, a.traps + b.traps, a.flows + b.flows)
  }

  function NewerHalf(s: seq<Item>): seq<Item> {
    s[|s| / 2..]
  }

  function Trim(b: Batch): Batch {
    b.(metrics := NewerHalf(b.metrics), logs := NewerHalf(b.logs), flows := NewerHalf(b.flows))
  }

  datatype State = State(b: Batch, n: nat, dropped: nat)

  function Added(f: State, max: nat, k: Kind, x: Item): State {
    if f.n >= max then State(Append(Trim(f.b), k, x), Size(Trim(f.b)) + 1, f.dropped + 1)
    else State(Append(f.b, k, x), f.n + 1, f.dropped)
  }

  function Requeued(f: State, max: nat, batch: Batch): State {
    var b := Followed(batch, f.b);
    if Size(b) > max then State(Trim(b), Size(Trim(b)), f.dropped + 1) else State(b, Size(b), f.dropped)
  }

  class Queue {
    const max: nat
    var b: Batch
    var n: nat
    var dropped: nat

    ghost function Contents(): State
      reads this
    {
      State(b, n, dropped)
    }

    constructor (max: nat)
      ensures this.max == max && Contents() == State(EMPTY, 0, 0)
    {
      this.max, b, n, dropped := max, EMPTY, 0, 0;
    }

    /** Of each stream that may be thinned out the older half goes. */
    method Halve()
      modifies this
      ensures Contents() == State(Trim(old(b)), Size(Trim(old(b))), old(dropped) + 1)
    {
      b := b.(metrics := b.metrics[|b.metrics| / 2..]);
      b := b.(logs := b.logs[|b.logs| / 2..]);
      b := b.(flows := b.flows[|b.flows| / 2..]);
      dropped := dropped + 1;
      n := Size(b);
    }

    method Add(k: Kind, x: Item)
      modifies this
      ensures Contents() == Added(old(Contents()), max, k, x)
      ensures forall j :: (
        var was := old(Of(b, j));
        var left := if old(n) >= max && Cheap(j) then was[|was| / 2..] else was;
        Of(b, j) == left + if j == k then [x] else [])
      ensures dropped == old(dropped) + if old(n) >= max then 1 else 0
      ensures n == if old(n) >= max then Size(b) else old(n) + 1
    {
      if n >= max {
        Halve();
      }
      b := Append(b, k, x);
      n := n + 1;
    }

    /** Flush takes the whole queue, if there is anything in it. */
    method TakeBatch() returns (batch: Option<Batch>)
      modifies this
      ensures old(n) == 0 ==> batch == None && Contents() == old(Contents())
      ensures old(n) > 0 ==> batch == Some(old(b)) && Contents() == State(EMPTY, 0, old(dropped))
    {
      if n == 0 {
        return None;
      }
      batch := Some(b);
      b := EMPTY;
      n := 0;
    }

    method Requeue(batch: Batch)
      modifies this
      ensures Contents() == Requeued(old(Contents()), max, batch)
      ensures var over := Size(Followed(batch, old(b))) > max;
        && (forall j :: var all := Of(batch, j) + old(Of(b, j));
              Of(b, j) == if over && Cheap(j) then all[|all| / 2..] else all)
        && n == Size(b) && dropped == old(dropped) + if over then 1 else 0
    {
      b := Followed(batch, b);
      n := Size(b);
      if n > max {
        Halve();
      }
    }
  }

  // ---- runs -----------------------------------------------------------------------------------

  /** The queue, the batch in flight, and what was acknowledged so far. */
  datatype World = World(f: State, inFlight: Option<Batch>, acked: Batch)

  datatype Action = Add(k: Kind, x: Item) | Flush | Ack | Fail

  predicate Enabled(w: World, a: Action) {
    match a
    case Add(_, _) => true
    case Flush => w.inFlight.None?
    case Ack => w.inFlight.Some?
    case Fail => w.inFlight.Some?
  }

  function Next(max: nat, w: World, a: Action): World
    requires Enabled(w, a)
  {
    match a
    case Add(k, x) => w.(f := Added(w.f, max, k, x))
    case Flush => if w.f.n == 0 then w else w.(f := State(EMPTY, 0, w.f.dropped), inFlight := Some(w.f.b))
    case Ack => w.(acked := Followed(w.acked, w.inFlight.value), inFlight := None)
    case Fail => w.(f := Requeued(w.f, max, w.inFlight.value), inFlight := None)
  }

  /** The items that the actions of a run add to a stream, in their order. */
  function Items(acts: seq<Action>, k: Kind): seq<Item> {
    if acts == [] then []
    else Items(acts[..|acts| - 1], k) + Given(acts[|acts| - 1], k)
  }

  function Given(a: Action, k: Kind): seq<Item> {
    if a.Add? && a.k == k then [a.x] else []
  }

  function Carried(w: World): Batch {
    if w.inFlight.Some? then w.inFlight.value else EMPTY
  }

  /** All that is acknowledged, in flight or queued, in this order. */
  function Whole(w: World, k: Kind): seq<Item> {
    Of(w.acked, k) + Of(Carried(w), k) + Of(w.f.b, k)
  }

  /** The newest item is still there. */
  predicate EndsLike(s: seq<Item>, given: seq<Item>) {
    given != [] ==> s != [] && s[|s| - 1] == given[|given| - 1]
  }

  ghost predicate StreamOk(w: World, k: Kind, given: seq<Item>) {
    && (!Cheap(k) || w.f.dropped == 0 ==> Whole(w, k) == given)
    && Sub(Whole(w, k), given)
    && EndsLike(Whole(w, k), given)
  }

  ghost predicate Inv(w: World, done: seq<Action>) {
    w.f.n == Size(w.f.b) && forall k :: StreamOk(w, k, Items(done, k))
  }

  // ---- every step keeps every stream ----------------------------------------------------------

  /** The newer half of what follows p still ends with the newest item. */
  lemma {:induction false} HalfEnds(p: seq<Item>, s: seq<Item>, given: seq<Item>)
    requires EndsLike(p + s, given)
    ensures EndsLike(p + NewerHalf(s), given)
  {
    if s != [] { assert (p + NewerHalf(s))[|p + NewerHalf(s)| - 1] == s[|s| - 1]; }
  }

  /** Trimming what follows p. */
  lemma {:induction false} TrimStream(b: Batch, k: Kind, p: seq<Item>, given: seq<Item>)
    requires Sub(p + Of(b, k), given)
    ensures Sub(p + Of(Trim(b), k), given)
    ensures !Cheap(k) ==> Of(Trim(b), k) == Of(b, k)
    ensures EndsLike(p + Of(b, k), given) ==> EndsLike(p + Of(Trim(b), k), given)
  {
    if Cheap(k) {
      SubSuffix(Of(b, k), |Of(b, k)| / 2);
      SubBehind(p, Of(Trim(b), k), Of(b, k));
      SubTrans(p + Of(Trim(b), k), p + Of(b, k), given);
      if EndsLike(p + Of(b, k), given) { HalfEnds(p, Of(b, k), given); }
    }
  }

  lemma {:induction false} OneMore(p: seq<Item>, s: seq<Item>, given: seq<Item>, x: Item)
    requires Sub(p + s, given)
    ensures Sub(p + (s + [x]), given + [x]) && EndsLike(p + (s + [x]), given + [x])
    ensures p + s == given ==> p + (s + [x]) == given + [x]
  {
    SubSnoc(p + s, given, x);
    assert p + (s + [x]) == p + s + [x];
  }

  lemma {:induction false} AppendOf(b: Batch, a: Action, j: Kind)
    requires a.Add?
    ensures Of(Append(b, a.k, a.x), j) == Of(b, j) + Given(a, j)
  {
  }

  /** One more item behind what is there. */
  lemma {:induction false} AppendStream(p: seq<Item>, b: Batch, given: seq<Item>, a: Action, j: Kind)
    requires Sub(p + Of(b, j), given) && EndsLike(p + Of(b, j), given) && a.Add?
    ensures var s := p + Of(Append(b, a.k, a.x), j);
      && Sub(s, given + Given(a, j)) && EndsLike(s, given + Given(a, j))
      && (p + Of(b, j) == given ==> s == given + Given(a, j))
  {
    AppendOf(b, a, j);
    if j == a.k {
      OneMore(p, Of(b, j), given, a.x);
    } else {
      assert given + [] == given && Of(b, j) + [] == Of(b, j);
    }
  }

  lemma {:induction false} AddStream(max: nat, w: World, a: Action, j: Kind, given: seq<Item>)
    requires StreamOk(w, j, given) && a.Add?
    ensures StreamOk(Next(max, w, a), j, given + Given(a, j))
  {
    var p := Of(w.acked, j) + Of(Carried(w), j);
    if w.f.n >= max {
      TrimStream(w.f.b, j, p, given);
      AppendStream(p, Trim(w.f.b), given, a, j);
    } else {
      AppendStream(p, w.f.b, given, a, j);
    }
  }

  lemma {:induction false} FailStream(max: nat, w: World, j: Kind, given: seq<Item>)
    requires StreamOk(w, j, given) && w.inFlight.Some?
    ensures StreamOk(Next(max, w, Fail), j, given)
  {
    var batch := w.inFlight.value;
    var b := Followed(batch, w.f.b);
    assert Of(w.acked, j) + [] + (Of(batch, j) + Of(w.f.b, j)) == Whole(w, j);
    assert Of(w.acked, j) + [] == Of(w.acked, j);
    if Size(b) > max { TrimStream(b, j, Of(w.acked, j), given); }
  }

  lemma {:induction false} MoveStream(max: nat, w: World, a: Action, j: Kind, given: seq<Item>)
    requires StreamOk(w, j, given) && Enabled(w, a) && (a.Flush? || a.Ack?)
    ensures StreamOk(Next(max, w, a), j, given)
  {
    assert Whole(Next(max, w, a), j) == Whole(w, j);
  }

  lemma {:induction false} Step(max: nat, w: World, done: seq<Action>, a: Action)
    requires Inv(w, done) && Enabled(w, a)
    ensures Inv(Next(max, w, a), done + [a])
  {
    assert (done + [a])[..|done|] == done;
    forall j ensures StreamOk(Next(max, w, a), j, Items(done + [a], j)) {
      var given := Items(done, j);
      assert given + [] == given;
      match a
      case Add(_, _) => AddStream(max, w, a, j, given);
      case Fail => FailStream(max, w, j, given);
      case _ => MoveStream(max, w, a, j, given);
    }
  }

  predicate Run(max: nat, w: World, acts: seq<Action>)
    decreases |acts|
  {
    acts == [] || (Enabled(w, acts[0]) && Run(max, Next(max, w, acts[0]), acts[1..]))
  }

  function After(max: nat, w: World, acts: seq<Action>): World
    requires Run(max, w, acts)
    decreases |acts|
  {
    if acts == [] then w else After(max, Next(max, w, acts[0]), acts[1..])
  }

  lemma {:induction false} RunInv(max: nat, w: World, done: seq<Action>, acts: seq<Action>)
    requires Inv(w, done) && Run(max, w, acts)
    ensures Inv(After(max, w, acts), done + acts)
    decreases |acts|
  {
    if acts == [] {
      assert done + [] == done;
    } else {
      Step(max, w, done, acts[0]);
      RunInv(max, Next(max, w, acts[0]), done + [acts[0]], acts[1..]);
      assert done + [acts[0]] + acts[1..] == done + acts;
    }
  }

  const START: World := World(State(EMPTY, 0, 0), None, EMPTY)

  /** In every interleaving of adds with flushes that may fail, of the items that the run adds to each kind:
      device and interface samples, events and traps are neither lost, doubled nor reordered; metrics, logs
      and flows keep their order, lose items only once something was dropped, and never the newest one; the
      count is the number of queued items. */
  lemma {:induction false} NothingLost(max: nat, acts: seq<Action>, k: Kind)
    requires Run(max, START, acts)
    ensures var w, given := After(max, START, acts), Items(acts, k);
      var whole := Of(w.acked, k) + Of(Carried(w), k) + Of(w.f.b, k);
      && w.f.n == Size(w.f.b)
      && (!Cheap(k) || w.f.dropped == 0 ==> whole == given)
      && Sub(whole, given)
      && (given != [] ==> whole != [] && whole[|whole| - 1] == given[|given| - 1])
  {
    assert Inv(START, []);
    RunInv(max, START, [], acts);
    assert [] + acts == acts;
    assert StreamOk(After(max, START, acts), k, Items(acts, k));
  }
}
