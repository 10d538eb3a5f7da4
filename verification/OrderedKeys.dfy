/** Iteration order of a `BTreeMap` with integer keys: ascending. */
module OrderedKeys {
  predicate StrictlyAscending(ks: seq<int>) {
    forall i, j :: 0 <= i < j < |ks| ==> ks[i] < ks[j]
  }

  lemma {:induction false} MinExists(s: set<int>)
    requires s != {}
    ensures exists m :: m in s && forall x :: x in s ==> m <= x
    decreases |s|
  {
    assert (forall x :: x !in s) ==> s == {};
    var x :| x in s;
    if s != {x} {
      MinExists(s - {x});
      var m :| m in s - {x} && forall y :: y in s - {x} ==> m <= y;
      var least := if x < m then x else m;
      assert forall y :: y in s ==> y == x || y in s - {x};
      assert least in s && forall y :: y in s ==> least <= y;
    }
  }

  function Min(s: set<int>): (m: int)
    requires s != {}
    ensures m in s && forall x :: x in s ==> m <= x
  {
    MinExists(s);
    var m :| m in s && forall x :: x in s ==> m <= x;
    m
  }

  /** The elements of `s`, smallest first. */
  function Ascending(s: set<int>): (ks: seq<int>)
    ensures StrictlyAscending(ks)
    ensures forall k :: k in ks <==> k in s
    ensures forall i :: 0 <= i < |ks| ==> ks[i] in s
  {
    if s == {} then []
    else
      var m := Min(s);
      [m] + Ascending(s - {m})
  }

  function Largest(s: set<int>): (m: int)
    requires s != {}
    ensures m in s && forall x :: x in s ==> x <= m
  {
    var ks := Ascending(s);
    assert Min(s) in ks;
    assert forall x :: x in s ==> x in ks;
    ks[|ks| - 1]
  }

  ghost predicate Lists(ks: seq<int>, s: set<int>) {
    StrictlyAscending(ks) && forall k :: k in ks <==> k in s
  }

  lemma HeadIsLeast(ks: seq<int>, s: set<int>)
    requires Lists(ks, s) && ks != []
    ensures ks[0] in s && forall k :: k in s ==> ks[0] <= k
    ensures Lists(ks[1..], s - {ks[0]})
  {
    assert ks[0] in ks;
    assert forall i :: 0 < i < |ks| ==> ks[i] == ks[1..][i - 1];
  }

  /** There is only one way to list a set in ascending order. */
  lemma {:induction false} AscendingUnique(ks: seq<int>, s: set<int>)
    requires Lists(ks, s)
    ensures ks == Ascending(s)
    decreases |ks|
  {
    if ks == [] {
      assert s == {};
    } else {
      HeadIsLeast(ks, s);
      AscendingUnique(ks[1..], s - {ks[0]});
      assert Min(s) == ks[0];
      assert ks == [ks[0]] + ks[1..];
    }
  }
}
