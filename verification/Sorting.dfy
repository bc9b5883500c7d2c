/** Sorting a map's keys, as the source does before it writes or walks them. */
module Sorting {
  lemma {:induction false} LeastFirst(keys: set<int>, x: int, rest: seq<int>)
    requires x in keys && forall y <- keys :: x <= y
    requires forall i, j :: 0 <= i < j < |rest| ==> rest[i] < rest[j]
    requires forall y :: y in rest <==> y in keys - {x}
    ensures forall i, j :: 0 <= i < j < |[x] + rest| ==> ([x] + rest)[i] < ([x] + rest)[j]
    ensures forall y :: y in [x] + rest <==> y in keys
  {
    forall j | 0 <= j < |rest| ensures x < rest[j] {
      assert rest[j] in rest;
    }
  }

  ghost function Least(keys: set<int>): (l: int)
    requires keys != {}
    ensures l in keys && forall y <- keys :: l <= y
  {
    assert (forall x :: x !in keys) ==> keys == {};
    var x :| x in keys;
    var rest := keys - {x};
    if rest == {} then
      assert keys == {x};
      x
    else
      var l := Least(rest);
      assert forall y <- keys :: y == x || y in rest;
      if x < l then x else l
  }

  /** The members in ascending order, each once. */
  function Sorted(keys: set<int>): (r: seq<int>)
    ensures forall i, j :: 0 <= i < j < |r| ==> r[i] < r[j]
    ensures forall x :: x in r <==> x in keys
  {
    if keys == {} then []
    else
      assert Least(keys) in keys;
      var x :| x in keys && forall y <- keys :: x <= y;
      var rest := Sorted(keys - {x});
      LeastFirst(keys, x, rest);
      [x] + rest
  }

  lemma {:induction false} SortedSize(keys: set<int>)
    ensures |Sorted(keys)| == |keys|
  {
    var r := Sorted(keys);
    if keys != {} {
      SortedSize(keys - {r[0]});
    }
  }
}
