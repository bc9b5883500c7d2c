/**
 * The theory behind Myers' O(ND) search.
 *
 * Rounds and diagonals are taken on the unbounded grid, because the search does leave the
 * rectangle of the two texts: outside it no line matches.  `Furthest(d, k)` is the x the search
 * computes in round d on diagonal k.  A point (x, y) is `Dominated` in round d when the search
 * gets at least that far; every way of editing the texts stays dominated, step by step.
 */
module Furthest {
  import opened Subsequence
  import opened EditScript

  /** On diagonal k, the lines at x and x - k are equal. */
  predicate Match(a: seq<Line>, b: seq<Line>, k: int, x: int) {
    0 <= x < |a| && 0 <= x - k < |b| && a[x] == b[x - k]
  }

  function Slide(a: seq<Line>, b: seq<Line>, k: int, x: int): int
    decreases |a| - x
  {
    if Match(a, b, k, x) then Slide(a, b, k, x + 1) else x
  }

  /** Diagonal k is visited in round d. */
  predicate On(d: nat, k: int) {
    0 - d <= k <= d && (d - k) % 2 == 0
  }

  /** Whether round d enters diagonal k from the one above it (an added line). */
  predicate Down(a: seq<Line>, b: seq<Line>, d: nat, k: int)
    requires On(d, k) && d > 0
    decreases d, 0
  {
    k == 0 - d || (k != d && Reach(a, b, d - 1, k - 1) < Reach(a, b, d - 1, k + 1))
  }

  function Start(a: seq<Line>, b: seq<Line>, d: nat, k: int): int
    requires On(d, k)
    decreases d, 1
  {
    if d == 0 then 0
    else if Down(a, b, d, k) then Reach(a, b, d - 1, k + 1)
    else Reach(a, b, d - 1, k - 1) + 1
  }

  function Reach(a: seq<Line>, b: seq<Line>, d: nat, k: int): int
    requires On(d, k)
    decreases d, 2
  {
    Slide(a, b, k, Start(a, b, d, k))
  }

  lemma {:induction false} SlideStops(a: seq<Line>, b: seq<Line>, k: int, x: int)
    ensures x <= Slide(a, b, k, x) && !Match(a, b, k, Slide(a, b, k, x))
    ensures forall t :: x <= t < Slide(a, b, k, x) ==> Match(a, b, k, t)
    decreases |a| - x
  {
    if Match(a, b, k, x) {
      SlideStops(a, b, k, x + 1);
    }
  }

  /** The search never leaves the quarter plane. */
  lemma {:induction false} ReachAbove(a: seq<Line>, b: seq<Line>, d: nat, k: int)
    requires On(d, k)
    ensures 0 <= Start(a, b, d, k) && k <= Start(a, b, d, k) <= Reach(a, b, d, k)
  {
    if d > 0 {
      if Down(a, b, d, k) { ReachAbove(a, b, d - 1, k + 1); } else { ReachAbove(a, b, d - 1, k - 1); }
    }
    SlideStops(a, b, k, Start(a, b, d, k));
  }

  predicate Dominated(a: seq<Line>, b: seq<Line>, d: nat, x: int, y: int) {
    On(d, x - y) && x <= Reach(a, b, d, x - y)
  }

  lemma {:induction false} DominatedOrigin(a: seq<Line>, b: seq<Line>)
    ensures Dominated(a, b, 0, 0, 0)
  {
    ReachAbove(a, b, 0, 0);
  }

  lemma {:induction false} DominatedRight(a: seq<Line>, b: seq<Line>, d: nat, x: int, y: int)
    requires Dominated(a, b, d, x, y)
    ensures Dominated(a, b, d + 1, x + 1, y)
  {
    ReachAbove(a, b, d + 1, x + 1 - y);
  }

  lemma {:induction false} DominatedDown(a: seq<Line>, b: seq<Line>, d: nat, x: int, y: int)
    requires Dominated(a, b, d, x, y)
    ensures Dominated(a, b, d + 1, x, y + 1)
  {
    ReachAbove(a, b, d + 1, x - y - 1);
  }

  lemma {:induction false} DominatedDiagonal(a: seq<Line>, b: seq<Line>, d: nat, x: int, y: int)
    requires Dominated(a, b, d, x, y) && Match(a, b, x - y, x)
    ensures Dominated(a, b, d, x + 1, y + 1)
  {
    SlideStops(a, b, x - y, Start(a, b, d, x - y));
  }

  /** Both texts can always be walked to their ends by plain removals and additions. */
  lemma {:induction false} DominatedEnd(a: seq<Line>, b: seq<Line>, d: nat, x: nat, y: nat)
    requires x <= |a| && y <= |b| && Dominated(a, b, d, x, y)
    ensures Dominated(a, b, d + (|a| - x) + (|b| - y), |a|, |b|)
    decreases |a| - x + |b| - y
  {
    if x < |a| {
      DominatedRight(a, b, d, x, y);
      DominatedEnd(a, b, d + 1, x + 1, y);
    } else if y < |b| {
      DominatedDown(a, b, d, x, y);
      DominatedEnd(a, b, d + 1, x, y + 1);
    }
  }

  /** A common subsequence saves two rounds per line. */
  lemma {:induction false} DominatedByCommon(a: seq<Line>, b: seq<Line>, d: nat, x: nat, y: nat, c: seq<Line>)
    requires x <= |a| && y <= |b| && Dominated(a, b, d, x, y)
    requires Sub(c, a[x..]) && Sub(c, b[y..])
    ensures |c| <= |a| - x && |c| <= |b| - y
    ensures Dominated(a, b, d + (|a| - x) + (|b| - y) - 2 * |c|, |a|, |b|)
    decreases |a| - x + |b| - y
  {
    SubLength(c, a[x..]);
    SubLength(c, b[y..]);
    if c == [] {
      DominatedEnd(a, b, d, x, y);
    } else if !(c[0] == a[x] && Sub(c[1..], a[x..][1..])) {
      assert a[x..][1..] == a[x + 1..];
      DominatedRight(a, b, d, x, y);
      DominatedByCommon(a, b, d + 1, x + 1, y, c);
    } else if !(c[0] == b[y] && Sub(c[1..], b[y..][1..])) {
      assert b[y..][1..] == b[y + 1..];
      DominatedDown(a, b, d, x, y);
      DominatedByCommon(a, b, d + 1, x, y + 1, c);
    } else {
      assert a[x..][1..] == a[x + 1..] && b[y..][1..] == b[y + 1..];
      DominatedDiagonal(a, b, d, x, y);
      DominatedByCommon(a, b, d, x + 1, y + 1, c[1..]);
    }
  }

  /** Round d reaches the end of both texts: the test that stops the search. */
  predicate Hit(a: seq<Line>, b: seq<Line>, d: nat, k: int) {
    On(d, k) && Reach(a, b, d, k) >= |a| && Reach(a, b, d, k) - k >= |b|
  }

  lemma {:induction false} DominatedHits(a: seq<Line>, b: seq<Line>, d: nat)
    requires Dominated(a, b, d, |a|, |b|)
    ensures Hit(a, b, d, |a| - |b|)
  {
  }

  function Min(x: int, y: int): int {
    if x <= y then x else y
  }

  /** A point outside the rectangle was reached through the nearest point inside it, that many
      rounds earlier. */
  predicate Clamped(a: seq<Line>, b: seq<Line>, d: nat, x: int, y: int) {
    var cx, cy := Min(x, |a|), Min(y, |b|);
    var e := d - (x - cx) - (y - cy);
    0 <= e && Dominated(a, b, e, cx, cy)
  }

  lemma {:induction false} ClampedRight(a: seq<Line>, b: seq<Line>, d: nat, x: int, y: int)
    requires Clamped(a, b, d, x, y)
    ensures Clamped(a, b, d + 1, x + 1, y)
  {
    var cx, cy := Min(x, |a|), Min(y, |b|);
    if x < |a| { DominatedRight(a, b, d - (x - cx) - (y - cy), cx, cy); }
  }

  lemma {:induction false} ClampedDown(a: seq<Line>, b: seq<Line>, d: nat, x: int, y: int)
    requires Clamped(a, b, d, x, y)
    ensures Clamped(a, b, d + 1, x, y + 1)
  {
    var cx, cy := Min(x, |a|), Min(y, |b|);
    if y < |b| { DominatedDown(a, b, d - (x - cx) - (y - cy), cx, cy); }
  }

  /** Where a slide took place, it ended inside the rectangle. */
  lemma {:induction false} ClampedSlide(a: seq<Line>, b: seq<Line>, d: nat, k: int, r: int)
    requires On(d, k) && r == Reach(a, b, d, k) && Match(a, b, k, r - 1)
    ensures Clamped(a, b, d, r, r - k)
  {
    assert r - (r - k) == k;
  }

  lemma {:induction false} Clamp(a: seq<Line>, b: seq<Line>, d: nat, k: int, r: int)
    requires On(d, k) && r == Reach(a, b, d, k)
    ensures Clamped(a, b, d, r, r - k)
    decreases d, 1
  {
    var s := Start(a, b, d, k);
    SlideStops(a, b, k, s);
    if r > s {
      ClampedSlide(a, b, d, k, r);
    } else if d == 0 {
      DominatedOrigin(a, b);
    } else if Down(a, b, d, k) {
      ClampAbove(a, b, d, k, Reach(a, b, d - 1, k + 1));
    } else {
      ClampBelow(a, b, d, k, Reach(a, b, d - 1, k - 1));
    }
  }

  lemma {:induction false} ClampAbove(a: seq<Line>, b: seq<Line>, d: nat, k: int, r: int)
    requires d > 0 && On(d - 1, k + 1) && r == Reach(a, b, d - 1, k + 1)
    ensures Clamped(a, b, d, r, r - k)
    decreases d, 0
  {
    Clamp(a, b, d - 1, k + 1, r);
    ClampedDown(a, b, d - 1, r, r - (k + 1));
  }

  lemma {:induction false} ClampBelow(a: seq<Line>, b: seq<Line>, d: nat, k: int, r: int)
    requires d > 0 && On(d - 1, k - 1) && r == Reach(a, b, d - 1, k - 1)
    ensures Clamped(a, b, d, r + 1, r + 1 - k)
    decreases d, 0
  {
    Clamp(a, b, d - 1, k - 1, r);
    ClampedRight(a, b, d - 1, r, r - (k - 1));
  }

  /** The first hit is the corner itself, although the test also accepts points beyond it. */
  lemma {:induction false} FirstHitIsCorner(a: seq<Line>, b: seq<Line>, d: nat, k: int)
    requires Hit(a, b, d, k)
    requires forall e: nat, j: int :: e < d ==> !Hit(a, b, e, j)
    ensures k == |a| - |b| && Reach(a, b, d, k) == |a|
  {
    var x, y := Reach(a, b, d, k), Reach(a, b, d, k) - k;
    Clamp(a, b, d, k, x);
    var e := d - (x - |a|) - (y - |b|);
    DominatedHits(a, b, e);
  }

  /** The search ends by round |a| + |b|. */
  lemma {:induction false} SomeHit(a: seq<Line>, b: seq<Line>)
    ensures Hit(a, b, |a| + |b|, |a| - |b|)
  {
    DominatedOrigin(a, b);
    DominatedEnd(a, b, 0, 0, 0);
  }
}
