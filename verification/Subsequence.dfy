/** Ordered subsequences of lines or queued items, which are only compared: numbers stand for them. */
module Subsequence {
  type Item = nat

  ghost predicate Sub(c: seq<Item>, s: seq<Item>) {
    c == [] || (s != [] && ((c[0] == s[0] && Sub(c[1..], s[1..])) || Sub(c, s[1..])))
  }

  lemma {:induction false} SubLength(c: seq<Item>, s: seq<Item>)
    requires Sub(c, s)
    ensures |c| <= |s|
  {
    if c != [] {
      if c[0] == s[0] && Sub(c[1..], s[1..]) { SubLength(c[1..], s[1..]); } else { SubLength(c, s[1..]); }
    }
  }

  lemma {:induction false} SubMore(c: seq<Item>, s: seq<Item>)
    requires s != [] && Sub(c, s[1..])
    ensures Sub(c, s)
  {
  }

  /** The first member of a subsequence uses up at least the first member. */
  lemma {:induction false} SubTail(c: seq<Item>, s: seq<Item>)
    requires Sub(c, s) && c != []
    ensures Sub(c[1..], s[1..])
  {
    if !(c[0] == s[0] && Sub(c[1..], s[1..])) {
      SubTail(c, s[1..]);
      SubMore(c[1..], s[1..]);
    }
  }

  /** The same from the other end. */
  lemma {:induction false} SubInit(c: seq<Item>, s: seq<Item>)
    requires Sub(c, s) && c != []
    ensures Sub(c[..|c| - 1], s[..|s| - 1])
  {
    if |c| > 1 {
      var c', s' := c[..|c| - 1], s[..|s| - 1];
      if c[0] == s[0] && Sub(c[1..], s[1..]) {
        SubLength(c[1..], s[1..]);
        SubInit(c[1..], s[1..]);
        assert c'[1..] == c[1..][..|c| - 2] && s'[1..] == s[1..][..|s| - 2];
      } else {
        SubLength(c, s[1..]);
        SubInit(c, s[1..]);
        assert s'[1..] == s[1..][..|s| - 2];
      }
    }
  }

  lemma {:induction false} SubTrimFront(c: seq<Item>, s: seq<Item>, p: nat)
    requires Sub(c, s) && p <= |c|
    ensures p <= |s| && Sub(c[p..], s[p..])
    decreases p
  {
    if p > 0 {
      SubTail(c, s);
      SubTrimFront(c[1..], s[1..], p - 1);
      assert c[1..][p - 1..] == c[p..] && s[1..][p - 1..] == s[p..];
    }
  }

  lemma {:induction false} SubTrimBack(c: seq<Item>, s: seq<Item>, q: nat)
    requires Sub(c, s) && q <= |c|
    ensures q <= |s| && Sub(c[..|c| - q], s[..|s| - q])
    decreases q
  {
    if q > 0 {
      SubInit(c, s);
      SubTrimBack(c[..|c| - 1], s[..|s| - 1], q - 1);
      assert c[..|c| - 1][..|c| - q] == c[..|c| - q] && s[..|s| - 1][..|s| - q] == s[..|s| - q];
    } else {
      assert c[..|c|] == c && s[..|s|] == s;
    }
  }

  /** Cutting `p` members from the front and `q` from the back costs at most as many common ones. */
  lemma {:induction false} SubTrim(c: seq<Item>, s: seq<Item>, p: nat, q: nat)
    requires Sub(c, s) && p + q <= |s| && p + q <= |c|
    ensures Sub(c[p..|c| - q], s[p..|s| - q])
  {
    SubTrimFront(c, s, p);
    SubTrimBack(c[p..], s[p..], q);
    assert c[p..][..|c| - p - q] == c[p..|c| - q] && s[p..][..|s| - p - q] == s[p..|s| - q];
  }

  lemma {:induction false} SubRefl(s: seq<Item>)
    ensures Sub(s, s)
  {
    if s != [] { SubRefl(s[1..]); }
  }

  lemma {:induction false} SubTrans(a: seq<Item>, b: seq<Item>, c: seq<Item>)
    requires Sub(a, b) && Sub(b, c)
    ensures Sub(a, c)
    decreases |b| + |c|
  {
    if a != [] {
      if b[0] == c[0] && Sub(b[1..], c[1..]) {
        if a[0] == b[0] && Sub(a[1..], b[1..]) {
          SubTrans(a[1..], b[1..], c[1..]);
        } else {
          SubTrans(a, b[1..], c[1..]);
        }
      } else {
        SubTrans(a, b, c[1..]);
      }
    }
  }

  lemma {:induction false} SubSuffix(s: seq<Item>, n: nat)
    requires n <= |s|
    ensures Sub(s[n..], s)
    decreases n
  {
    if n > 0 {
      SubSuffix(s[1..], n - 1);
      assert s[1..][n - 1..] == s[n..];
    } else {
      assert s[0..] == s;
      SubRefl(s);
    }
  }

  lemma {:induction false} SubBehind(p: seq<Item>, c: seq<Item>, s: seq<Item>)
    requires Sub(c, s)
    ensures Sub(p + c, p + s)
    decreases |p|
  {
    if p != [] {
      assert (p + c)[1..] == p[1..] + c && (p + s)[1..] == p[1..] + s;
      SubBehind(p[1..], c, s);
    } else {
      assert p + c == c && p + s == s;
    }
  }

  lemma {:induction false} SubSnoc(c: seq<Item>, s: seq<Item>, x: Item)
    requires Sub(c, s)
    ensures Sub(c + [x], s + [x])
    decreases |s|
  {
    if s == [] {
      SubRefl([x]);
      assert c + [x] == [x] && s + [x] == [x];
    } else {
      assert (s + [x])[1..] == s[1..] + [x];
      if c != [] && c[0] == s[0] && Sub(c[1..], s[1..]) {
        assert (c + [x])[1..] == c[1..] + [x];
        SubSnoc(c[1..], s[1..], x);
      } else {
        SubSnoc(c, s[1..], x);
      }
    }
  }
}
