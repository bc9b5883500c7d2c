/** The line diff shown for configuration backups: Myers' search, its backtracking, and `Diff`. */
module LineDiff {
  import opened Subsequence
  import opened EditScript
  import opened Furthest

  // ---- the forward search ---------------------------------------------------------------------

  /** The vector holds what round d reached, on every diagonal of that round below `hi`. */
  ghost predicate Row(a: seq<Line>, b: seq<Line>, v: seq<int>, d: nat, hi: int) {
    && |v| == 2 * (|a| + |b|) + 2 && d <= |a| + |b|
    && forall j :: On(d, j) && j < hi ==> v[|a| + |b| + j] == Reach(a, b, d, j)
  }

  /** The vector as round d finds it. */
  ghost predicate Snapshot(a: seq<Line>, b: seq<Line>, v: seq<int>, d: nat) {
    && |v| == 2 * (|a| + |b|) + 2 && d <= |a| + |b|
    && (d == 0 ==> v[|a| + |b| + 1] == 0)
    && (d > 0 ==> Row(a, b, v, d - 1, d))
  }

  ghost predicate NoHitBefore(a: seq<Line>, b: seq<Line>, d: nat) {
    forall e: nat, j: int :: e < d ==> !Hit(a, b, e, j)
  }

  /** One diagonal of one round: choose where to come from, then follow equal lines. */
  method Advance(a: seq<Line>, b: seq<Line>, v: array<int>, d: nat, k: int) returns (x: int)
    requires Snapshot(a, b, v[..], d) && On(d, k)
    ensures x == Reach(a, b, d, k) && 0 <= x && k <= x
  {
    var n, m, max := |a|, |b|, |a| + |b|;
    if k == 0 - d || (k != d && v[max + k - 1] < v[max + k + 1]) {
      x := v[max + k + 1];
    } else {
      x := v[max + k - 1] + 1;
    }
    assert x == Start(a, b, d, k) by {
      if k != d && d > 0 { assert On(d - 1, k + 1); }
      if k != 0 - d && d > 0 { assert On(d - 1, k - 1); }
    }
    ReachAbove(a, b, d, k);
    var y := x - k;
    while x < n && y < m && a[x] == b[y]
      invariant 0 <= x && k <= x && y == x - k
      invariant Slide(a, b, k, x) == Reach(a, b, d, k)
      decreases n - x
    {
      x := x + 1;
      y := y + 1;
    }
  }

  /** Writing one diagonal of round d leaves those of round d - 1, which have the other parity. */
  lemma {:induction false} WriteDiagonal(a: seq<Line>, b: seq<Line>, v: seq<int>, d: nat, k: int)
    requires Snapshot(a, b, v, d) && Row(a, b, v, d, k) && On(d, k)
    ensures var v' := v[|a| + |b| + k := Reach(a, b, d, k)];
      Snapshot(a, b, v', d) && Row(a, b, v', d, k + 2)
  {
  }

  lemma {:induction false} RoundOver(a: seq<Line>, b: seq<Line>, d: nat)
    requires NoHitBefore(a, b, d) && forall j :: j <= d ==> !Hit(a, b, d, j)
    ensures NoHitBefore(a, b, d + 1)
  {
    forall j: int ensures !Hit(a, b, d, j) { if j > d { assert !On(d, j); } }
  }

  /** The next diagonal of a round is two further: the one between has the other parity. */
  lemma {:induction false} NoHitYet(a: seq<Line>, b: seq<Line>, d: nat, k: int)
    requires On(d, k) && !Hit(a, b, d, k) && forall j :: j < k ==> !Hit(a, b, d, j)
    ensures forall j :: j < k + 2 ==> !Hit(a, b, d, j)
  {
    assert !On(d, k + 1);
    forall j | j < k + 2 ensures !Hit(a, b, d, j) { assert j < k || j == k || j == k + 1; }
  }

  lemma {:induction false} NextSnapshot(a: seq<Line>, b: seq<Line>, v: seq<int>, d: nat, k: int)
    requires Row(a, b, v, d, k) && k > d
    ensures d < |a| + |b| ==> Snapshot(a, b, v, d + 1)
  {
  }

  /** Round d updates the vector in place and stops at the first hit, which is the corner. */
  method Round(a: seq<Line>, b: seq<Line>, v: array<int>, d: nat) returns (found: bool)
    requires Snapshot(a, b, v[..], d) && NoHitBefore(a, b, d)
    modifies v
    ensures found ==> On(d, |a| - |b|) && Reach(a, b, d, |a| - |b|) == |a|
    ensures !found ==> NoHitBefore(a, b, d + 1)
    ensures !found && d < |a| + |b| ==> Snapshot(a, b, v[..], d + 1)
  {
    var n, m, max := |a|, |b|, |a| + |b|;
    found := false;
    var k := 0 - d;
    while k <= d
      invariant 0 - d <= k <= d + 2 && (d - k) % 2 == 0
      invariant Snapshot(a, b, v[..], d) && Row(a, b, v[..], d, k)
      invariant forall j :: j < k ==> !Hit(a, b, d, j)
      decreases d + 2 - k
    {
      var x := Advance(a, b, v, d, k);
      WriteDiagonal(a, b, v[..], d, k);
      ghost var before := v[..];
      v[max + k] := x;
      assert v[..] == before[max + k := x];
      if x >= n && x - k >= m {
        FirstHitIsCorner(a, b, d, k);
        found := true;
        return;
      }
      NoHitYet(a, b, d, k);
      k := k + 2;
    }
    NextSnapshot(a, b, v[..], d, k);
    RoundOver(a, b, d);
  }

  method Search(a: seq<Line>, b: seq<Line>) returns (trace: seq<seq<int>>)
    ensures trace != []
    ensures forall d :: 0 <= d < |trace| ==> Snapshot(a, b, trace[d], d)
    ensures On(|trace| - 1, |a| - |b|) && Reach(a, b, |trace| - 1, |a| - |b|) == |a|
    ensures NoHitBefore(a, b, |trace| - 1)
  {
    var n, m, max := |a|, |b|, |a| + |b|;
    var v := new int[2 * max + 2](_ => 0);
    trace := [];
    var found := false;
    var d := 0;
    while d <= max && !found
      invariant 0 <= d <= max + 1 && |trace| == d
      invariant forall e :: 0 <= e < d ==> Snapshot(a, b, trace[e], e)
      invariant !found && d <= max ==> Snapshot(a, b, v[..], d)
      invariant !found ==> NoHitBefore(a, b, d)
      invariant found ==> d > 0 && NoHitBefore(a, b, d - 1) && On(d - 1, n - m) && Reach(a, b, d - 1, n - m) == n
      decreases max + 1 - d
    {
      trace := trace + [v[..]];
      found := Round(a, b, v, d);
      d := d + 1;
    }
    assert found by {
      SomeHit(a, b);
    }
  }

  // ---- backtracking ---------------------------------------------------------------------------

  /** `r` turns what is left of both texts after (x, y) into each other, correctly numbered. */
  ghost predicate Finishes(r: seq<Op>, a: seq<Line>, b: seq<Line>, offA: nat, offB: nat, x: int, y: int) {
    && 0 <= x <= |a| && 0 <= y <= |b|
    && Transforms(r, a[x..], b[y..]) && Numbered(r, offA + x, offB + y)
  }

  lemma {:induction false} FinishesSame(r: seq<Op>, a: seq<Line>, b: seq<Line>, offA: nat, offB: nat, x: int, y: int)
    requires Finishes(r, a, b, offA, offB, x, y) && x > 0 && y > 0 && a[x - 1] == b[y - 1]
    ensures var r' := [Op(' ', a[x - 1], offA + x, offB + y)] + r;
      Finishes(r', a, b, offA, offB, x - 1, y - 1) && Edits(r') == Edits(r)
  {
  }

  lemma {:induction false} FinishesAdded(r: seq<Op>, a: seq<Line>, b: seq<Line>, offA: nat, offB: nat, x: int, y: int)
    requires Finishes(r, a, b, offA, offB, x, y) && y > 0
    ensures var r' := [Op('+', b[y - 1], 0, offB + y)] + r;
      Finishes(r', a, b, offA, offB, x, y - 1) && Edits(r') == Edits(r) + 1
  {
  }

  lemma {:induction false} FinishesRemoved(r: seq<Op>, a: seq<Line>, b: seq<Line>, offA: nat, offB: nat, x: int, y: int)
    requires Finishes(r, a, b, offA, offB, x, y) && x > 0
    ensures var r' := [Op('-', a[x - 1], offA + x, 0)] + r;
      Finishes(r', a, b, offA, offB, x - 1, y) && Edits(r') == Edits(r) + 1
  {
  }

  function Backwards(s: seq<Op>): (r: seq<Op>)
    ensures |r| == |s| && forall i :: 0 <= i < |s| ==> r[i] == s[|s| - 1 - i]
  {
    if s == [] then [] else Backwards(s[1..]) + [s[0]]
  }

  lemma {:induction false} BackwardsSnoc(ops: seq<Op>, op: Op)
    ensures Backwards(ops + [op]) == [op] + Backwards(ops)
  {
  }

  /** The point from which round d entered diagonal k: the forward choice, read off the trace. */
  method Previous(a: seq<Line>, b: seq<Line>, vv: seq<int>, d: nat, k: int) returns (prevX: int, prevY: int)
    requires Snapshot(a, b, vv, d) && On(d, k)
    ensures d == 0 ==> prevX == 0 && prevY == -1
    ensures d > 0 ==> On(d - 1, prevX - prevY) && prevX == Reach(a, b, d - 1, prevX - prevY) && 0 <= prevX && 0 <= prevY
    ensures var s := Start(a, b, d, k); (s == prevX && s - k == prevY + 1) || (s == prevX + 1 && s - k == prevY)
  {
    var max := |a| + |b|;
    var prevK;
    if k == 0 - d || (k != d && vv[max + k - 1] < vv[max + k + 1]) {
      prevK := k + 1;
    } else {
      prevK := k - 1;
    }
    prevX := vv[max + prevK];
    prevY := prevX - prevK;
    if d > 0 {
      if k != d { assert On(d - 1, k + 1); }
      if k != 0 - d { assert On(d - 1, k - 1); }
      ReachAbove(a, b, d - 1, prevK);
    }
  }

  ghost predicate Slid(a: seq<Line>, b: seq<Line>, k: int, s: int, x: int) {
    forall t :: s <= t < x ==> Match(a, b, k, t)
  }

  /** The equal lines of a slide, last one first.  Operations are collected backwards. */
  method SlideBack(a: seq<Line>, b: seq<Line>, offA: nat, offB: nat, x0: int, y0: int, prevX: int, prevY: int,
                   ops0: seq<Op>, ghost s: int)
    returns (x: int, y: int, ops: seq<Op>)
    requires Finishes(Backwards(ops0), a, b, offA, offB, x0, y0)
    requires s <= x0 && Slid(a, b, x0 - y0, s, x0)
    requires var t := s - (x0 - y0); (s == prevX && t == prevY + 1) || (s == prevX + 1 && t == prevY)
    ensures x == s && y == s - (x0 - y0)
    ensures Finishes(Backwards(ops), a, b, offA, offB, x, y) && Edits(Backwards(ops)) == Edits(Backwards(ops0))
  {
    x, y, ops := x0, y0, ops0;
    while x > prevX && y > prevY
      invariant s <= x <= x0 && y == x - (x0 - y0)
      invariant Finishes(Backwards(ops), a, b, offA, offB, x, y) && Edits(Backwards(ops)) == Edits(Backwards(ops0))
      decreases x
    {
      assert Match(a, b, x0 - y0, x - 1);
      var op := Op(' ', a[x - 1], offA + x, offB + y);
      FinishesSame(Backwards(ops), a, b, offA, offB, x, y);
      BackwardsSnoc(ops, op);
      ops := ops + [op];
      x := x - 1;
      y := y - 1;
    }
  }

  /** The edit between the previous point and the start of the slide. */
  method EditBack(a: seq<Line>, b: seq<Line>, offA: nat, offB: nat, x: int, y: int, prevX: int, prevY: int,
                  ops0: seq<Op>)
    returns (ops: seq<Op>)
    requires Finishes(Backwards(ops0), a, b, offA, offB, x, y)
    requires 0 <= prevX && 0 <= prevY
    requires (x == prevX && y == prevY + 1) || (x == prevX + 1 && y == prevY)
    ensures Finishes(Backwards(ops), a, b, offA, offB, prevX, prevY)
    ensures Edits(Backwards(ops)) == Edits(Backwards(ops0)) + 1
  {
    var op;
    if x == prevX {
      op := Op('+', b[y - 1], 0, offB + y);
      FinishesAdded(Backwards(ops0), a, b, offA, offB, x, y);
    } else {
      op := Op('-', a[x - 1], offA + x, 0);
      FinishesRemoved(Backwards(ops0), a, b, offA, offB, x, y);
    }
    BackwardsSnoc(ops0, op);
    ops := ops0 + [op];
  }

  /** Undoes what the search did in round d: the slide, then the edit that entered the diagonal. */
  method StepBack(a: seq<Line>, b: seq<Line>, offA: nat, offB: nat, vv: seq<int>, d: nat, x0: int, y0: int,
                  ops0: seq<Op>)
    returns (x: int, y: int, ops: seq<Op>)
    requires Snapshot(a, b, vv, d) && On(d, x0 - y0) && x0 == Reach(a, b, d, x0 - y0)
    requires Finishes(Backwards(ops0), a, b, offA, offB, x0, y0)
    ensures Edits(Backwards(ops)) == Edits(Backwards(ops0)) + (if d > 0 then 1 else 0)
    ensures d > 0 ==>
      Finishes(Backwards(ops), a, b, offA, offB, x, y) && On(d - 1, x - y) && x == Reach(a, b, d - 1, x - y)
    ensures d == 0 ==> Finishes(Backwards(ops), a, b, offA, offB, 0, 0)
  {
    ghost var s := Start(a, b, d, x0 - y0);
    SlideStops(a, b, x0 - y0, s);
    var prevX, prevY := Previous(a, b, vv, d, x0 - y0);
    x, y, ops := SlideBack(a, b, offA, offB, x0, y0, prevX, prevY, ops0, s);
    if d > 0 {
      ops := EditBack(a, b, offA, offB, x, y, prevX, prevY, ops);
    }
    x, y := prevX, prevY;
  }

  /** Replays the trace from the corner to the origin, one round at a time. */
  method Backtrack(a: seq<Line>, b: seq<Line>, offA: nat, offB: nat, trace: seq<seq<int>>) returns (ops: seq<Op>)
    requires trace != [] && forall d :: 0 <= d < |trace| ==> Snapshot(a, b, trace[d], d)
    requires On(|trace| - 1, |a| - |b|) && Reach(a, b, |trace| - 1, |a| - |b|) == |a|
    ensures Transforms(Backwards(ops), a, b) && Numbered(Backwards(ops), offA, offB)
    ensures Edits(Backwards(ops)) == |trace| - 1
  {
    var x, y := |a|, |b|;
    ops := [];
    var d := |trace| - 1;
    while d >= 0
      invariant -1 <= d < |trace|
      invariant d >= 0 ==> On(d, x - y) && x == Reach(a, b, d, x - y)
      invariant d >= 0 ==> Finishes(Backwards(ops), a, b, offA, offB, x, y) && Edits(Backwards(ops)) == |trace| - 1 - d
      invariant d < 0 ==> Finishes(Backwards(ops), a, b, offA, offB, 0, 0) && Edits(Backwards(ops)) == |trace| - 1
    {
      x, y, ops := StepBack(a, b, offA, offB, trace[d], d, x, y, ops);
      d := d - 1;
    }
    assert a[0..] == a && b[0..] == b;
  }

  method ReverseOps(ops: array<Op>)
    modifies ops
    ensures forall i :: 0 <= i < ops.Length ==> ops[i] == old(ops[ops.Length - 1 - i])
  {
    var i, j := 0, ops.Length - 1;
    while i < j
      invariant 0 <= i && j == ops.Length - 1 - i && i <= j + 1
      invariant forall t :: 0 <= t < ops.Length ==>
        ops[t] == (if t < i || t > j then old(ops[ops.Length - 1 - t]) else old(ops[t]))
      decreases j
    {
      ops[i], ops[j] := ops[j], ops[i];
      i, j := i + 1, j - 1;
    }
  }

  // ---- the diff -------------------------------------------------------------------------------

  /** A script that keeps a longest common subsequence is shortest. */
  lemma {:induction false} ShortestByCommon(ops: seq<Op>, a: seq<Line>, b: seq<Line>)
    requires Transforms(ops, a, b)
    requires forall c :: Sub(c, a) && Sub(c, b) ==> Edits(ops) + 2 * |c| <= |a| + |b|
    ensures Shortest(ops, a, b)
  {
    forall other | Transforms(other, a, b)
      ensures Edits(ops) <= Edits(other)
    {
      KeptIsOld(other);
      KeptIsNew(other);
      EditsByKept(other);
    }
  }

  lemma {:induction false} CommonDominates(a: seq<Line>, b: seq<Line>, c: seq<Line>)
    requires Sub(c, a) && Sub(c, b)
    ensures 2 * |c| <= |a| + |b| && Dominated(a, b, |a| + |b| - 2 * |c|, |a|, |b|)
  {
    assert a[0..] == a && b[0..] == b;
    DominatedOrigin(a, b);
    DominatedByCommon(a, b, 0, 0, 0, c);
  }

  lemma {:induction false} NoHitBelow(a: seq<Line>, b: seq<Line>, d: nat, e: nat)
    requires NoHitBefore(a, b, d) && Dominated(a, b, e, |a|, |b|)
    ensures d <= e
  {
    DominatedHits(a, b, e);
  }

  /** The round of the first hit is a lower bound for every way to keep common lines. */
  lemma {:induction false} SearchIsOptimal(a: seq<Line>, b: seq<Line>, d: nat, c: seq<Line>)
    requires NoHitBefore(a, b, d) && Sub(c, a) && Sub(c, b)
    ensures d + 2 * |c| <= |a| + |b|
  {
    CommonDominates(a, b, c);
    NoHitBelow(a, b, d, |a| + |b| - 2 * |c|);
  }

  method Myers(a: seq<Line>, b: seq<Line>, offA: nat, offB: nat) returns (ops: seq<Op>)
    ensures Transforms(ops, a, b) && Numbered(ops, offA, offB)
    ensures forall c :: Sub(c, a) && Sub(c, b) ==> Edits(ops) + 2 * |c| <= |a| + |b|
  {
    if |a| == 0 && |b| == 0 {
      ops := [];
      forall c | Sub(c, a) ensures |c| == 0 { SubLength(c, a); }
      return;
    }
    var trace := Search(a, b);
    var back := Backtrack(a, b, offA, offB, trace);
    var buffer := new Op[|back|](i requires 0 <= i < |back| => back[i]);
    ReverseOps(buffer);
    ops := buffer[..];
    assert ops == Backwards(back);
    forall c | Sub(c, a) && Sub(c, b) ensures Edits(ops) + 2 * |c| <= |a| + |b| {
      SearchIsOptimal(a, b, |trace| - 1, c);
    }
  }

  /** How far the texts agree from the front, at least p lines. */
  function PrefixFrom(a: seq<Line>, b: seq<Line>, p: nat): (r: nat)
    requires p <= |a| && p <= |b|
    ensures p <= r <= |a| && r <= |b|
    decreases |a| - p
  {
    if p < |a| && p < |b| && a[p] == b[p] then PrefixFrom(a, b, p + 1) else p
  }

  /** ... and from the back, at least s lines, leaving the first p alone. */
  function SuffixFrom(a: seq<Line>, b: seq<Line>, p: nat, s: nat): (r: nat)
    requires p + s <= |a| && p + s <= |b|
    ensures s <= r && p + r <= |a| && p + r <= |b|
    decreases |a| - s
  {
    if p + s < |a| && p + s < |b| && a[|a| - 1 - s] == b[|b| - 1 - s] then SuffixFrom(a, b, p, s + 1) else s
  }

  /** A text cut in three. */
  datatype Cut = Cut(pre: seq<Line>, mid: seq<Line>, post: seq<Line>)

  function Whole(x: Cut): seq<Line> {
    x.pre + (x.mid + x.post)
  }

  function CutAt(a: seq<Line>, p: nat, s: nat): (x: Cut)
    requires p + s <= |a|
    ensures Whole(x) == a
  {
    Cut(a[..p], a[p..|a| - s], a[|a| - s..])
  }

  /** What the common prefix and suffix leave of the two texts. */
  function Middle(a: seq<Line>, b: seq<Line>): (seq<Line>, seq<Line>) {
    var p := PrefixFrom(a, b, 0);
    var s := SuffixFrom(a, b, p, 0);
    (CutAt(a, p, s).mid, CutAt(b, p, s).mid)
  }

  method CommonPrefix(a: seq<Line>, b: seq<Line>) returns (p: nat)
    ensures p == PrefixFrom(a, b, 0) && a[..p] == b[..p]
    ensures p == |a| || p == |b| || a[p] != b[p]
  {
    p := 0;
    while p < |a| && p < |b| && a[p] == b[p]
      invariant p <= |a| && p <= |b| && a[..p] == b[..p]
      invariant PrefixFrom(a, b, p) == PrefixFrom(a, b, 0)
      decreases |a| - p
    {
      p := p + 1;
    }
  }

  lemma {:induction false} SuffixLonger(a: seq<Line>, b: seq<Line>, s: nat)
    requires s < |a| && s < |b| && a[|a| - s..] == b[|b| - s..] && a[|a| - 1 - s] == b[|b| - 1 - s]
    ensures a[|a| - (s + 1)..] == b[|b| - (s + 1)..]
  {
    var i, j := |a| - 1 - s, |b| - 1 - s;
    assert a[i..] == [a[i]] + a[i + 1..] && b[j..] == [b[j]] + b[j + 1..];
  }

  method CommonSuffix(a: seq<Line>, b: seq<Line>, p: nat) returns (s: nat)
    requires p <= |a| && p <= |b|
    ensures s == SuffixFrom(a, b, p, 0) && a[|a| - s..] == b[|b| - s..]
    ensures p + s == |a| || p + s == |b| || a[|a| - 1 - s] != b[|b| - 1 - s]
  {
    var n, m := |a|, |b|;
    s := 0;
    while s < n - p && s < m - p && a[n - 1 - s] == b[m - 1 - s]
      invariant s <= n - p && s <= m - p && a[n - s..] == b[m - s..]
      invariant SuffixFrom(a, b, p, s) == SuffixFrom(a, b, p, 0)
      decreases n - p - s
    {
      SuffixLonger(a, b, s);
      s := s + 1;
    }
  }

  lemma {:induction false} WholeMiddle(x: Cut)
    ensures Whole(x)[|x.pre|..|Whole(x)| - |x.post|] == x.mid
  {
  }

  lemma {:induction false} SubMiddle(c: seq<Line>, x: Cut)
    requires Sub(c, Whole(x)) && |x.pre| + |x.post| <= |c|
    ensures Sub(c[|x.pre|..|c| - |x.post|], x.mid)
  {
    WholeMiddle(x);
    SubTrim(c, Whole(x), |x.pre|, |x.post|);
  }

  /** Trimming a common prefix and a common suffix loses no optimality. */
  lemma {:induction false} TrimKeepsCommon(x: Cut, y: Cut, edits: nat, c: seq<Line>)
    requires |x.pre| == |y.pre| && |x.post| == |y.post|
    requires forall m :: Sub(m, x.mid) && Sub(m, y.mid) ==> edits + 2 * |m| <= |x.mid| + |y.mid|
    requires Sub(c, Whole(x)) && Sub(c, Whole(y))
    ensures edits + 2 * |c| <= |Whole(x)| + |Whole(y)|
  {
    var p, s := |x.pre|, |x.post|;
    if p + s <= |c| {
      SubMiddle(c, x);
      SubMiddle(c, y);
      assert |c[p..|c| - s]| == |c| - p - s;
    } else {
      assert Sub([], x.mid) && Sub([], y.mid);
    }
  }

  /** Lines equal on both sides, or all of one side: the parts of a diff that need no search. */
  function Same(l: seq<Line>, i: nat, j: nat): seq<Op> {
    seq(|l|, t requires 0 <= t < |l| => Op(' ', l[t], i + t + 1, j + t + 1))
  }

  function Removed(l: seq<Line>, i: nat): seq<Op> {
    seq(|l|, t requires 0 <= t < |l| => Op('-', l[t], i + t + 1, 0))
  }

  function Added(l: seq<Line>, j: nat): seq<Op> {
    seq(|l|, t requires 0 <= t < |l| => Op('+', l[t], 0, j + t + 1))
  }

  lemma {:induction false} SameScript(l: seq<Line>, i: nat, j: nat)
    ensures Transforms(Same(l, i, j), l, l) && Numbered(Same(l, i, j), i, j) && Edits(Same(l, i, j)) == 0
  {
    if l != [] {
      SameScript(l[1..], i + 1, j + 1);
      assert Same(l, i, j)[1..] == Same(l[1..], i + 1, j + 1);
    }
  }

  lemma {:induction false} RemovedScript(l: seq<Line>, i: nat, j: nat)
    ensures Transforms(Removed(l, i), l, []) && Numbered(Removed(l, i), i, j) && Edits(Removed(l, i)) == |l|
  {
    if l != [] {
      RemovedScript(l[1..], i + 1, j);
      assert Removed(l, i)[1..] == Removed(l[1..], i + 1);
    }
  }

  lemma {:induction false} AddedScript(l: seq<Line>, i: nat, j: nat)
    ensures Transforms(Added(l, j), [], l) && Numbered(Added(l, j), i, j) && Edits(Added(l, j)) == |l|
  {
    if l != [] {
      AddedScript(l[1..], i, j + 1);
      assert Added(l, j)[1..] == Added(l[1..], j + 1);
    }
  }

  /** Above this many lines the middle is replaced wholesale. */
  const SEARCH_LIMIT := 40000

  /** No line occurs in both texts. */
  predicate Disjoint(x: seq<Line>, y: seq<Line>) {
    forall i, j :: 0 <= i < |x| && 0 <= j < |y| ==> x[i] != y[j]
  }

  /** The middle is small enough to be searched. */
  predicate Searched(a: seq<Line>, b: seq<Line>) {
    |Middle(a, b).0| + |Middle(a, b).1| <= SEARCH_LIMIT
  }

  predicate Unrelated(a: seq<Line>, b: seq<Line>) {
    Disjoint(Middle(a, b).0, Middle(a, b).1)
  }

  method Replace(ma: seq<Line>, mb: seq<Line>, p: nat) returns (mid: seq<Op>)
    ensures Transforms(mid, ma, mb) && Numbered(mid, p, p) && Edits(mid) == |ma| + |mb|
  {
    var removed, added := [], [];
    for i := 0 to |ma|
      invariant removed == Removed(ma[..i], p)
    {
      removed := removed + [Op('-', ma[i], p + i + 1, 0)];
    }
    for i := 0 to |mb|
      invariant added == Added(mb[..i], p)
    {
      added := added + [Op('+', mb[i], 0, p + i + 1)];
    }
    assert ma[..|ma|] == ma && mb[..|mb|] == mb;
    RemovedScript(ma, p, p);
    AddedScript(mb, p + |ma|, p);
    Join(removed, added, ma, [], [], mb, p, p);
    assert ma + [] == ma && [] + mb == mb;
    mid := removed + added;
  }

  lemma {:induction false} ConcatAll(p: seq<Op>, q: seq<Op>, a: seq<Line>, b: seq<Line>, a': seq<Line>, b': seq<Line>)
    requires Transforms(p, a, b) && Transforms(q, a', b')
    ensures Transforms(p + q, a + a', b + b') && Edits(p + q) == Edits(p) + Edits(q)
  {
    ConcatOld(p, q);
    ConcatNew(p, q);
    ConcatEdits(p, q);
  }

  lemma {:induction false} Block(x: seq<Line>, y: seq<Line>) returns (ops: seq<Op>)
    ensures Transforms(ops, x, y) && Edits(ops) == |x| + |y|
  {
    RemovedScript(x, 0, 0);
    AddedScript(y, 0, 0);
    ops := Removed(x, 0) + Added(y, 0);
    ConcatAll(Removed(x, 0), Added(y, 0), x, [], [], y);
    assert x + [] == x && [] + y == y;
  }

  /** Keeping one common line of the middle saves two edits. */
  lemma {:induction false} KeepOne(x: seq<Line>, y: seq<Line>, i: nat, j: nat) returns (ops: seq<Op>)
    requires i < |x| && j < |y| && x[i] == y[j]
    ensures Transforms(ops, x, y) && Edits(ops) == |x| + |y| - 2
  {
    var before := Block(x[..i], y[..j]);
    var after := Block(x[i + 1..], y[j + 1..]);
    ops := before + [Op(' ', x[i], 0, 0)] + after;
    var keep := [Op(' ', x[i], 0, 0)];
    assert keep[1..] == [];
    ConcatAll(before, keep, x[..i], y[..j], [x[i]], [x[i]]);
    ConcatAll(before + keep, after, x[..i] + [x[i]], y[..j] + [y[j]], x[i + 1..], y[j + 1..]);
    assert x[..i] + [x[i]] + x[i + 1..] == x && y[..j] + [y[j]] + y[j + 1..] == y;
  }

  /** `mid` between scripts that keep everything. */
  ghost predicate Frames(head: seq<Op>, tail: seq<Op>, x: Cut, y: Cut) {
    && |x.pre| == |y.pre| && |x.post| == |y.post|
    && Transforms(head, x.pre, y.pre) && Edits(head) == 0
    && Transforms(tail, x.post, y.post) && Edits(tail) == 0
  }

  lemma {:induction false} FramedEdits(head: seq<Op>, mid: seq<Op>, tail: seq<Op>, x: Cut, y: Cut)
    requires Frames(head, tail, x, y) && Transforms(mid, x.mid, y.mid)
    ensures Transforms(head + (mid + tail), Whole(x), Whole(y)) && Edits(head + (mid + tail)) == Edits(mid)
  {
    ConcatAll(mid, tail, x.mid, y.mid, x.post, y.post);
    ConcatAll(head, mid + tail, x.pre, y.pre, x.mid + x.post, y.mid + y.post);
  }

  lemma {:induction false} FramedNumbers(head: seq<Op>, mid: seq<Op>, tail: seq<Op>, x: Cut, y: Cut)
    requires Frames(head, tail, x, y) && Transforms(mid, x.mid, y.mid)
    requires Numbered(head, 0, 0) && Numbered(mid, |x.pre|, |y.pre|)
    requires Numbered(tail, |x.pre| + |x.mid|, |y.pre| + |y.mid|)
    ensures Numbered(head + (mid + tail), 0, 0)
  {
    ConcatNumbered(mid, tail, |x.pre|, |y.pre|);
    ConcatNumbered(head, mid + tail, 0, 0);
  }

  /** A middle that keeps as much as any common subsequence makes a shortest whole. */
  lemma {:induction false} FramedShortest(head: seq<Op>, mid: seq<Op>, tail: seq<Op>, x: Cut, y: Cut)
    requires Frames(head, tail, x, y) && Transforms(mid, x.mid, y.mid)
    requires forall c :: Sub(c, x.mid) && Sub(c, y.mid) ==> Edits(mid) + 2 * |c| <= |x.mid| + |y.mid|
    ensures Shortest(head + (mid + tail), Whole(x), Whole(y))
  {
    FramedEdits(head, mid, tail, x, y);
    forall c | Sub(c, Whole(x)) && Sub(c, Whole(y))
      ensures Edits(mid) + 2 * |c| <= |Whole(x)| + |Whole(y)|
    {
      TrimKeepsCommon(x, y, Edits(mid), c);
    }
    ShortestByCommon(head + (mid + tail), Whole(x), Whole(y));
  }

  lemma {:induction false} NothingCommon(x: seq<Line>, y: seq<Line>, c: seq<Line>)
    requires Disjoint(x, y) && Sub(c, x) && Sub(c, y)
    ensures c == []
    decreases |x| + |y|
  {
    if c != [] {
      if c[0] == x[0] && Sub(c[1..], x[1..]) {
        NothingCommon(x, y[1..], c);
      } else {
        NothingCommon(x[1..], y, c);
      }
    }
  }

  /** Replacing the middle wholesale is shortest exactly when it has no line in common. */
  lemma {:induction false} ReplaceShortest(head: seq<Op>, mid: seq<Op>, tail: seq<Op>, x: Cut, y: Cut)
    requires Frames(head, tail, x, y) && Transforms(mid, x.mid, y.mid) && Edits(mid) == |x.mid| + |y.mid|
    ensures Shortest(head + (mid + tail), Whole(x), Whole(y)) <==> Disjoint(x.mid, y.mid)
  {
    if Disjoint(x.mid, y.mid) {
      forall c | Sub(c, x.mid) && Sub(c, y.mid)
        ensures c == []
      {
        NothingCommon(x.mid, y.mid, c);
      }
      FramedShortest(head, mid, tail, x, y);
    } else {
      var i, j :| 0 <= i < |x.mid| && 0 <= j < |y.mid| && x.mid[i] == y.mid[j];
      var better := KeepOne(x.mid, y.mid, i, j);
      FramedEdits(head, mid, tail, x, y);
      FramedEdits(head, better, tail, x, y);
      assert Edits(head + (better + tail)) < Edits(head + (mid + tail));
    }
  }

  /** What a middle part is good for: searched, it keeps as much as possible, else nothing. */
  ghost predicate MiddleDone(mid: seq<Op>, x: seq<Line>, y: seq<Line>) {
    if |x| + |y| <= SEARCH_LIMIT
    then forall c :: Sub(c, x) && Sub(c, y) ==> Edits(mid) + 2 * |c| <= |x| + |y|
    else Edits(mid) == |x| + |y|
  }

  method MiddleDiff(ma: seq<Line>, mb: seq<Line>, p: nat) returns (mid: seq<Op>)
    ensures Transforms(mid, ma, mb) && Numbered(mid, p, p) && MiddleDone(mid, ma, mb)
  {
    if |ma| + |mb| > SEARCH_LIMIT {
      mid := Replace(ma, mb, p);
    } else {
      mid := Myers(ma, mb, p, p);
    }
  }

  /** The three scripts together, whichever way the middle was made. */
  lemma {:induction false} Assembled(head: seq<Op>, mid: seq<Op>, tail: seq<Op>, x: Cut, y: Cut)
    requires Frames(head, tail, x, y) && Transforms(mid, x.mid, y.mid) && MiddleDone(mid, x.mid, y.mid)
    ensures Shortest(head + (mid + tail), Whole(x), Whole(y))
      <==> |x.mid| + |y.mid| <= SEARCH_LIMIT || Disjoint(x.mid, y.mid)
  {
    if |x.mid| + |y.mid| <= SEARCH_LIMIT {
      FramedShortest(head, mid, tail, x, y);
    } else {
      ReplaceShortest(head, mid, tail, x, y);
    }
  }

  lemma {:induction false} AssembledCut(head: seq<Op>, mid: seq<Op>, tail: seq<Op>, x: Cut, y: Cut)
    requires x.pre == y.pre && x.post == y.post
    requires Transforms(head, x.pre, x.pre) && Edits(head) == 0 && Numbered(head, 0, 0)
    requires Transforms(mid, x.mid, y.mid) && MiddleDone(mid, x.mid, y.mid) && Numbered(mid, |x.pre|, |x.pre|)
    requires Transforms(tail, x.post, x.post) && Edits(tail) == 0
    requires Numbered(tail, |x.pre| + |x.mid|, |y.pre| + |y.mid|)
    ensures var out := head + (mid + tail);
      && Transforms(out, Whole(x), Whole(y)) && Numbered(out, 0, 0)
      && (Shortest(out, Whole(x), Whole(y)) <==> |x.mid| + |y.mid| <= SEARCH_LIMIT || Disjoint(x.mid, y.mid))
  {
    assert Frames(head, tail, x, y);
    FramedEdits(head, mid, tail, x, y);
    FramedNumbers(head, mid, tail, x, y);
    Assembled(head, mid, tail, x, y);
  }

  /** Equal lines, found at position `i` of the old and `j` of the new text. */
  method Keep(l: seq<Line>, i: nat, j: nat) returns (ops: seq<Op>)
    ensures Transforms(ops, l, l) && Numbered(ops, i, j) && Edits(ops) == 0
  {
    ops := [];
    for t := 0 to |l|
      invariant ops == Same(l[..t], i, j)
    {
      ops := ops + [Op(' ', l[t], i + t + 1, j + t + 1)];
    }
    assert l[..|l|] == l;
    SameScript(l, i, j);
  }

  /** The diff of two texts that are cut alike: the outer parts are kept, the middles compared. */
  method Assemble(x: Cut, y: Cut) returns (out: seq<Op>)
    requires x.pre == y.pre && x.post == y.post
    ensures Transforms(out, Whole(x), Whole(y)) && Numbered(out, 0, 0)
    ensures Shortest(out, Whole(x), Whole(y)) <==> |x.mid| + |y.mid| <= SEARCH_LIMIT || Disjoint(x.mid, y.mid)
  {
    var head := Keep(x.pre, 0, 0);
    var mid := MiddleDiff(x.mid, y.mid, |x.pre|);
    var tail := Keep(x.post, |x.pre| + |x.mid|, |y.pre| + |y.mid|);
    AssembledCut(head, mid, tail, x, y);
    out := head + (mid + tail);
  }

  lemma {:induction false} CutAlike(a: seq<Line>, b: seq<Line>, p: nat, s: nat)
    requires p + s <= |a| && p + s <= |b| && a[..p] == b[..p] && a[|a| - s..] == b[|b| - s..]
    ensures CutAt(a, p, s).pre == CutAt(b, p, s).pre && CutAt(a, p, s).post == CutAt(b, p, s).post
  {
  }

  /** Both texts cut behind their common prefix and before their common suffix. */
  method TrimBoth(a: seq<Line>, b: seq<Line>) returns (x: Cut, y: Cut)
    ensures x.mid == Middle(a, b).0 && y.mid == Middle(a, b).1
    ensures x.pre == y.pre && x.post == y.post && Whole(x) == a && Whole(y) == b
  {
    var p := CommonPrefix(a, b);
    var s := CommonSuffix(a, b, p);
    CutAlike(a, b, p, s);
    x, y := CutAt(a, p, s), CutAt(b, p, s);
  }

  method Diff(a: seq<Line>, b: seq<Line>) returns (out: seq<Op>)
    ensures Transforms(out, a, b) && Numbered(out, 0, 0)
    ensures Shortest(out, a, b) <==> Searched(a, b) || Unrelated(a, b)
  {
    var x, y := TrimBoth(a, b);
    out := Assemble(x, y);
  }
}
