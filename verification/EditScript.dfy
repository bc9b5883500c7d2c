/** Line diffs as edit scripts: what a script does, how long it is, and which is shortest. */
module EditScript {
  import opened Subsequence

  /** Lines are only ever compared and copied, so numbers stand for the source's strings. */
  type Line = nat

  /** One line of a diff: ' ' same, '-' removed, '+' added, with 1-based line numbers. */
  datatype Op = Op(kind: char, line: Line, a: nat, b: nat)

  function Old(ops: seq<Op>): seq<Line> {
    if ops == [] then []
    else (if ops[0].kind != '+' then [ops[0].line] else []) + Old(ops[1..])
  }

  function New(ops: seq<Op>): seq<Line> {
    if ops == [] then []
    else (if ops[0].kind != '-' then [ops[0].line] else []) + New(ops[1..])
  }

  function Kept(ops: seq<Op>): seq<Line> {
    if ops == [] then []
    else (if ops[0].kind == ' ' then [ops[0].line] else []) + Kept(ops[1..])
  }

  function Edits(ops: seq<Op>): nat {
    if ops == [] then 0 else (if ops[0].kind == ' ' then 0 else 1) + Edits(ops[1..])
  }

  predicate Kinds(ops: seq<Op>) {
    forall i :: 0 <= i < |ops| ==> ops[i].kind in {' ', '+', '-'}
  }

  /** Dropping the added lines gives `a`, dropping the removed lines gives `b`. */
  predicate Transforms(ops: seq<Op>, a: seq<Line>, b: seq<Line>) {
    Kinds(ops) && Old(ops) == a && New(ops) == b
  }

  /** Line numbers are the true positions, when `i` old and `j` new lines come before. */
  predicate Numbered(ops: seq<Op>, i: nat, j: nat) {
    ops == [] ||
    match ops[0].kind
    case ' ' => ops[0].a == i + 1 && ops[0].b == j + 1 && Numbered(ops[1..], i + 1, j + 1)
    case '-' => ops[0].a == i + 1 && ops[0].b == 0 && Numbered(ops[1..], i + 1, j)
    case _ => ops[0].a == 0 && ops[0].b == j + 1 && Numbered(ops[1..], i, j + 1)
  }

  ghost predicate Shortest(ops: seq<Op>, a: seq<Line>, b: seq<Line>) {
    forall other :: Transforms(other, a, b) ==> Edits(ops) <= Edits(other)
  }

  lemma {:induction false} ConcatOld(p: seq<Op>, q: seq<Op>)
    ensures Old(p + q) == Old(p) + Old(q)
  {
    if p == [] {
      assert p + q == q;
    } else {
      assert (p + q)[1..] == p[1..] + q;
      ConcatOld(p[1..], q);
    }
  }

  lemma {:induction false} ConcatNew(p: seq<Op>, q: seq<Op>)
    ensures New(p + q) == New(p) + New(q)
  {
    if p == [] {
      assert p + q == q;
    } else {
      assert (p + q)[1..] == p[1..] + q;
      ConcatNew(p[1..], q);
    }
  }

  lemma {:induction false} ConcatEdits(p: seq<Op>, q: seq<Op>)
    ensures Edits(p + q) == Edits(p) + Edits(q)
  {
    if p == [] {
      assert p + q == q;
    } else {
      assert (p + q)[1..] == p[1..] + q;
      ConcatEdits(p[1..], q);
    }
  }

  lemma {:induction false} ConcatNumbered(p: seq<Op>, q: seq<Op>, i: nat, j: nat)
    requires Kinds(p) && Numbered(p, i, j) && Numbered(q, i + |Old(p)|, j + |New(p)|)
    ensures Numbered(p + q, i, j)
  {
    if p == [] {
      assert p + q == q;
    } else {
      assert (p + q)[1..] == p[1..] + q;
      assert p[0].kind in {' ', '+', '-'};
      ConcatNumbered(p[1..], q, i + (if p[0].kind != '+' then 1 else 0), j + (if p[0].kind != '-' then 1 else 0));
    }
  }

  /** Scripts for consecutive parts of the texts join into a script for the whole. */
  lemma {:induction false} Join(p: seq<Op>, q: seq<Op>, a: seq<Line>, b: seq<Line>, a': seq<Line>, b': seq<Line>,
                                i: nat, j: nat)
    requires Transforms(p, a, b) && Transforms(q, a', b')
    requires Numbered(p, i, j) && Numbered(q, i + |a|, j + |b|)
    ensures Transforms(p + q, a + a', b + b') && Numbered(p + q, i, j)
    ensures Edits(p + q) == Edits(p) + Edits(q)
  {
    ConcatOld(p, q);
    ConcatNew(p, q);
    ConcatEdits(p, q);
    ConcatNumbered(p, q, i, j);
  }

  // ---- kept lines ----------------------------------------------------------------------------

  /** The kept lines of a script are common to both texts. */
  lemma {:induction false} KeptIsOld(ops: seq<Op>)
    ensures Sub(Kept(ops), Old(ops))
  {
    if ops != [] {
      KeptIsOld(ops[1..]);
      if ops[0].kind == '+' {
        assert Old(ops) == Old(ops[1..]) && Kept(ops) == Kept(ops[1..]);
      } else {
        assert Old(ops)[1..] == Old(ops[1..]);
        if ops[0].kind == ' ' { assert Kept(ops)[1..] == Kept(ops[1..]); } else { assert Kept(ops) == Kept(ops[1..]); }
      }
    }
  }

  lemma {:induction false} KeptIsNew(ops: seq<Op>)
    ensures Sub(Kept(ops), New(ops))
  {
    if ops != [] {
      KeptIsNew(ops[1..]);
      if ops[0].kind == '-' {
        assert New(ops) == New(ops[1..]) && Kept(ops) == Kept(ops[1..]);
      } else {
        assert New(ops)[1..] == New(ops[1..]);
        if ops[0].kind == ' ' { assert Kept(ops)[1..] == Kept(ops[1..]); } else { assert Kept(ops) == Kept(ops[1..]); }
      }
    }
  }

  /** ... and their number decides its length. */
  lemma {:induction false} EditsByKept(ops: seq<Op>)
    requires Kinds(ops)
    ensures Edits(ops) + 2 * |Kept(ops)| == |Old(ops)| + |New(ops)|
  {
    if ops != [] {
      assert ops[0].kind in {' ', '+', '-'};
      EditsByKept(ops[1..]);
    }
  }
}
