/** JSON values and their canonical form (crates/kasgraph-poi/src/lib.rs:163-186). */
module CanonicalJson {
  import opened Prelude
  import opened StableSort

  /** A `serde_json::Value`; an object lists its members in storage order. */
  datatype Json =
    | Null
    | Bool(flag: bool)
    | Number(digits: Text)
    | Str(text: Text)
    | Array(items: seq<Json>)
    | Object(members: seq<Keyed<Json>>)

  function MemberKey(name: Text): Key { Key(name, []) }

  ghost predicate UniqueKeys(ms: seq<Keyed<Json>>) {
    forall i, j :: 0 <= i < j < |ms| ==> ms[i].key != ms[j].key
  }

  const DIGIT: set<byte> := {48, 49, 50, 51, 52, 53, 54, 55, 56, 57}

  /** The text of a number: digits, with a sign, a point or an exponent (`-`, `+`, `.`, `E`, `e`). */
  predicate NumberText(t: Text) {
    t != [] && (t[0] == 45 || t[0] in DIGIT) && forall c :: c in t ==> c in DIGIT || c in {43, 45, 46, 69, 101}
  }

  /** What a JSON value is: numbers are numerals, and a map holds each plain name once, at every depth. */
  ghost predicate WellFormed(v: Json) {
    match v
    case Number(t) => NumberText(t)
    case Array(items) => forall i :: 0 <= i < |items| ==> WellFormed(items[i])
    case Object(ms) =>
      UniqueKeys(ms) && forall i :: 0 <= i < |ms| ==> WellFormedMember(ms[i])
    case _ => true
  }

  ghost predicate WellFormedMember(m: Keyed<Json>) {
    m.key == MemberKey(m.key.major) && WellFormed(m.value)
  }

  /** Array order is kept; members are put in name order, recursively. */
  function Canonicalize(v: Json): Json
    decreases v
  {
    match v
    case Array(items) =>
      Array(seq(|items|, i requires 0 <= i < |items| => Canonicalize(items[i])))
    case Object(ms) =>
      Object(Sort(seq(|ms|, i requires 0 <= i < |ms| => Keyed(ms[i].key, Canonicalize(ms[i].value)))))
    case _ => v
  }

  /** The same value up to the order of object members, at any depth. */
  ghost predicate Same(v: Json, w: Json)
    decreases v
  {
    match v
    case Array(xs) =>
      w.Array? && |xs| == |w.items| && forall i :: 0 <= i < |xs| ==> Same(xs[i], w.items[i])
    case Object(ms) =>
      && w.Object?
      && (forall i :: 0 <= i < |ms| ==> MatchedIn(ms[i], w.members))
      && (forall j :: 0 <= j < |w.members| ==> MatchOf(ms, w.members[j]))
    case _ => v == w
  }

  ghost predicate SameMember(m: Keyed<Json>, n: Keyed<Json>)
    decreases m, 0
  {
    m.key == n.key && Same(m.value, n.value)
  }

  ghost predicate MatchedIn(m: Keyed<Json>, ns: seq<Keyed<Json>>)
    decreases m, 1
  {
    exists j :: 0 <= j < |ns| && SameMember(m, ns[j])
  }

  ghost predicate MatchOf(ms: seq<Keyed<Json>>, n: Keyed<Json>)
    decreases ms
  {
    exists i :: 0 <= i < |ms| && SameMember(ms[i], n)
  }

  /** The members with canonical values, still in storage order. */
  function CanonicalMembers(ms: seq<Keyed<Json>>): (r: seq<Keyed<Json>>)
    ensures |r| == |ms|
    ensures forall i :: 0 <= i < |ms| ==> r[i] == Keyed(ms[i].key, Canonicalize(ms[i].value))
  {
    seq(|ms|, i requires 0 <= i < |ms| => Keyed(ms[i].key, Canonicalize(ms[i].value)))
  }

  lemma {:induction false} UniqueWithKey(ms: seq<Keyed<Json>>, i: nat)
    requires UniqueKeys(ms) && i < |ms|
    ensures WithKey(ms, ms[i].key) == [ms[i]]
  {
    if i == 0 {
      AbsentKey(ms[1..], ms[0].key);
    } else {
      UniqueWithKey(ms[1..], i - 1);
    }
  }

  lemma {:induction false} AbsentKey(ms: seq<Keyed<Json>>, k: Key)
    requires forall i :: 0 <= i < |ms| ==> ms[i].key != k
    ensures WithKey(ms, k) == []
  {
    if ms != [] {
      AbsentKey(ms[1..], k);
    }
  }

  lemma {:induction false} KeyPresent(ms: seq<Keyed<Json>>, k: Key) returns (i: nat)
    requires WithKey(ms, k) != []
    ensures i < |ms| && ms[i].key == k && ms[i] in WithKey(ms, k)
  {
    if ms[0].key == k {
      i := 0;
    } else {
      i := KeyPresent(ms[1..], k);
      i := i + 1;
    }
  }

  /** Two unique-key lists agree under every key iff each holds the other's members. */
  lemma SameMembers(ms: seq<Keyed<Json>>, ns: seq<Keyed<Json>>)
    requires UniqueKeys(ms) && UniqueKeys(ns)
    ensures SameUnderKeys(ms, ns) <==>
      (forall i :: 0 <= i < |ms| ==> ms[i] in ns) && (forall j :: 0 <= j < |ns| ==> ns[j] in ms)
  {
    if SameUnderKeys(ms, ns) {
      EachIn(ms, ns);
      EachIn(ns, ms);
    }
    if (forall i :: 0 <= i < |ms| ==> ms[i] in ns) && (forall j :: 0 <= j < |ns| ==> ns[j] in ms) {
      forall k ensures WithKey(ms, k) == WithKey(ns, k) {
        if WithKey(ms, k) != [] {
          var i := KeyPresent(ms, k);
          var j :| 0 <= j < |ns| && ns[j] == ms[i];
          UniqueWithKey(ms, i);
          UniqueWithKey(ns, j);
        } else if WithKey(ns, k) != [] {
          var j := KeyPresent(ns, k);
          var i :| 0 <= i < |ms| && ms[i] == ns[j];
          UniqueWithKey(ms, i);
          assert false;
        }
      }
    }
  }

  lemma EachIn(ms: seq<Keyed<Json>>, ns: seq<Keyed<Json>>)
    requires UniqueKeys(ms) && SameUnderKeys(ms, ns)
    ensures forall i :: 0 <= i < |ms| ==> ms[i] in ns
  {
    forall i | 0 <= i < |ms| ensures ms[i] in ns {
      UniqueWithKey(ms, i);
      assert WithKey(ns, ms[i].key) == [ms[i]];
      var j := KeyPresent(ns, ms[i].key);
    }
  }

  /** Canonical forms are equal exactly for values that differ only in member order. */
  lemma {:induction false} CanonicalIffSame(v: Json, w: Json)
    requires WellFormed(v) && WellFormed(w)
    ensures Canonicalize(v) == Canonicalize(w) <==> Same(v, w)
    decreases v
  {
    match v
    case Array(xs) =>
      if w.Array? && |xs| == |w.items| {
        forall i | 0 <= i < |xs| ensures Canonicalize(xs[i]) == Canonicalize(w.items[i]) <==> Same(xs[i], w.items[i]) {
          CanonicalIffSame(xs[i], w.items[i]);
        }
        CanonicalItems(xs, w.items);
      } else if w.Array? {
        assert |Canonicalize(v).items| != |Canonicalize(w).items|;
      }
    case Object(ms) =>
      if w.Object? {
        var ns := w.members;
        forall i, j | 0 <= i < |ms| && 0 <= j < |ns|
          ensures CanonicalMembers(ms)[i] == CanonicalMembers(ns)[j] <==> SameMember(ms[i], ns[j])
        {
          CanonicalIffSame(ms[i].value, ns[j].value);
        }
        assert Faithful(ms, ns);
        ObjectIff(ms, ns);
      }
    case _ =>
  }

  lemma CanonicalItems(xs: seq<Json>, ys: seq<Json>)
    requires |xs| == |ys|
    ensures Canonicalize(Array(xs)) == Canonicalize(Array(ys))
       <==> forall i :: 0 <= i < |xs| ==> Canonicalize(xs[i]) == Canonicalize(ys[i])
  {
    var cx, cy := Canonicalize(Array(xs)).items, Canonicalize(Array(ys)).items;
    assert forall i :: 0 <= i < |xs| ==> cx[i] == Canonicalize(xs[i]) && cy[i] == Canonicalize(ys[i]);
    assert cx == cy <==> forall i :: 0 <= i < |xs| ==> cx[i] == cy[i];
  }

  /** Canonical values compare as the members do. */
  ghost predicate Faithful(ms: seq<Keyed<Json>>, ns: seq<Keyed<Json>>) {
    forall i, j :: 0 <= i < |ms| && 0 <= j < |ns| ==>
      (CanonicalMembers(ms)[i] == CanonicalMembers(ns)[j] <==> SameMember(ms[i], ns[j]))
  }

  lemma MemberIn(ms: seq<Keyed<Json>>, ns: seq<Keyed<Json>>, i: nat)
    requires i < |ms| && Faithful(ms, ns)
    ensures CanonicalMembers(ms)[i] in CanonicalMembers(ns) <==> MatchedIn(ms[i], ns)
  {
    var cm, cn := CanonicalMembers(ms), CanonicalMembers(ns);
    if cm[i] in cn {
      var j :| 0 <= j < |cn| && cn[j] == cm[i];
      assert SameMember(ms[i], ns[j]);
    }
    if MatchedIn(ms[i], ns) {
      var j :| 0 <= j < |ns| && SameMember(ms[i], ns[j]);
      assert cn[j] == cm[i];
    }
  }

  lemma MemberOf(ms: seq<Keyed<Json>>, ns: seq<Keyed<Json>>, j: nat)
    requires j < |ns| && Faithful(ms, ns)
    ensures CanonicalMembers(ns)[j] in CanonicalMembers(ms) <==> MatchOf(ms, ns[j])
  {
    var cm, cn := CanonicalMembers(ms), CanonicalMembers(ns);
    if cn[j] in cm {
      var i :| 0 <= i < |cm| && cm[i] == cn[j];
      assert SameMember(ms[i], ns[j]);
    }
    if MatchOf(ms, ns[j]) {
      var i :| 0 <= i < |ms| && SameMember(ms[i], ns[j]);
      assert cn[j] == cm[i];
    }
  }

  lemma CanonicalObjects(ms: seq<Keyed<Json>>, ns: seq<Keyed<Json>>)
    requires UniqueKeys(ms) && UniqueKeys(ns)
    ensures Canonicalize(Object(ms)) == Canonicalize(Object(ns))
       <==> && (forall i :: 0 <= i < |ms| ==> CanonicalMembers(ms)[i] in CanonicalMembers(ns))
            && (forall j :: 0 <= j < |ns| ==> CanonicalMembers(ns)[j] in CanonicalMembers(ms))
  {
    var cm, cn := CanonicalMembers(ms), CanonicalMembers(ns);
    assert Canonicalize(Object(ms)) == Object(Sort(cm)) && Canonicalize(Object(ns)) == Object(Sort(cn));
    SortAlike(cm, cn);
    SameMembers(cm, cn);
  }

  lemma ObjectIff(ms: seq<Keyed<Json>>, ns: seq<Keyed<Json>>)
    requires UniqueKeys(ms) && UniqueKeys(ns) && Faithful(ms, ns)
    ensures Canonicalize(Object(ms)) == Canonicalize(Object(ns)) <==> Same(Object(ms), Object(ns))
  {
    CanonicalObjects(ms, ns);
    forall i | 0 <= i < |ms|
      ensures CanonicalMembers(ms)[i] in CanonicalMembers(ns) <==> MatchedIn(ms[i], ns)
    {
      MemberIn(ms, ns, i);
    }
    forall j | 0 <= j < |ns|
      ensures CanonicalMembers(ns)[j] in CanonicalMembers(ms) <==> MatchOf(ms, ns[j])
    {
      MemberOf(ms, ns, j);
    }
  }

  lemma SortedMembers(ms: seq<Keyed<Json>>)
    requires UniqueKeys(ms)
    ensures UniqueKeys(Sort(ms))
    ensures forall m :: m in Sort(ms) <==> m in ms
  {
    var r := Sort(ms);
    forall i, j | 0 <= i < j < |r| ensures r[i].key != r[j].key {
      if r[i].key == r[j].key {
        SortIsStable(ms);
        var k := r[i].key;
        TwoWithKey(r, i, j);
        var p := KeyPresent(ms, k);
        UniqueWithKey(ms, p);
        assert false;
      }
    }
    forall m ensures m in r <==> m in ms {
      assert m in multiset(r) <==> m in multiset(ms);
    }
  }

  lemma {:induction false} TwoWithKey(s: seq<Keyed<Json>>, i: nat, j: nat)
    requires i < j < |s| && s[i].key == s[j].key
    ensures |WithKey(s, s[i].key)| >= 2
  {
    if i == 0 {
      OneWithKey(s[1..], j - 1);
    } else {
      TwoWithKey(s[1..], i - 1, j - 1);
    }
  }

  lemma {:induction false} OneWithKey(s: seq<Keyed<Json>>, i: nat)
    requires i < |s|
    ensures |WithKey(s, s[i].key)| >= 1
  {
    if i > 0 {
      OneWithKey(s[1..], i - 1);
    }
  }

  lemma SortedWellFormed(ms: seq<Keyed<Json>>)
    requires UniqueKeys(ms) && forall i :: 0 <= i < |ms| ==> WellFormedMember(ms[i])
    ensures WellFormed(Object(Sort(ms)))
  {
    SortedMembers(ms);
    forall j | 0 <= j < |Sort(ms)| ensures WellFormedMember(Sort(ms)[j]) {
      assert Sort(ms)[j] in Sort(ms);
    }
  }

  /** The canonical members, in any order, are matched with the members. */
  lemma MatchedAll(ms: seq<Keyed<Json>>, r: seq<Keyed<Json>>)
    requires forall i :: 0 <= i < |ms| ==> SameMember(ms[i], CanonicalMembers(ms)[i])
    requires forall m :: m in r <==> m in CanonicalMembers(ms)
    ensures Same(Object(ms), Object(r))
  {
    forall i | 0 <= i < |ms| ensures MatchedIn(ms[i], r) {
      assert CanonicalMembers(ms)[i] in r;
    }
    forall j | 0 <= j < |r| ensures MatchOf(ms, r[j]) {
      assert r[j] in r;
    }
  }

  /** The canonical form is a well-formed value, the same up to member order ... */
  lemma {:induction false} CanonicalIsSame(v: Json)
    requires WellFormed(v)
    ensures WellFormed(Canonicalize(v)) && Same(v, Canonicalize(v))
    decreases v
  {
    match v
    case Array(xs) =>
      forall i | 0 <= i < |xs|
        ensures WellFormed(Canonicalize(xs[i])) && Same(xs[i], Canonicalize(xs[i]))
      {
        CanonicalIsSame(xs[i]);
      }
    case Object(ms) =>
      var cm := CanonicalMembers(ms);
      forall i | 0 <= i < |ms| ensures WellFormedMember(cm[i]) && SameMember(ms[i], cm[i]) {
        CanonicalIsSame(ms[i].value);
      }
      SortedMembers(cm);
      SortedWellFormed(cm);
      MatchedAll(ms, Sort(cm));
    case _ =>
  }

  /** ... so canonicalising twice changes nothing. */
  lemma CanonicalIdempotent(v: Json)
    requires WellFormed(v)
    ensures Canonicalize(Canonicalize(v)) == Canonicalize(v)
  {
    CanonicalIsSame(v);
    CanonicalIffSame(v, Canonicalize(v));
  }

  /** Members come in byte order of their names, at every depth. */
  ghost predicate InOrder(v: Json) {
    match v
    case Array(items) => forall i :: 0 <= i < |items| ==> InOrder(items[i])
    case Object(ms) =>
      && (forall i, j :: 0 <= i < j < |ms| ==> Before(ms[i].key.major, ms[j].key.major))
      && forall i :: 0 <= i < |ms| ==> InOrder(ms[i].value)
    case _ => true
  }

  lemma SortedInOrder(ms: seq<Keyed<Json>>)
    requires forall m :: m in ms ==> InOrder(m.value)
    ensures InOrder(Object(Sort(ms)))
  {
    var r := Sort(ms);
    forall i, j | 0 <= i < j < |r| ensures Before(r[i].key.major, r[j].key.major) {
      SortsByTypeThenId(ms, i, j);
    }
    forall i | 0 <= i < |r| ensures InOrder(r[i].value) {
      assert r[i] in multiset(r);
    }
  }

  /** The canonical form is the one whose members are in byte order. */
  lemma {:induction false} CanonicalInOrder(v: Json)
    ensures InOrder(Canonicalize(v))
    decreases v
  {
    match v
    case Array(xs) =>
      forall i | 0 <= i < |xs| ensures InOrder(Canonicalize(xs[i])) {
        CanonicalInOrder(xs[i]);
      }
    case Object(ms) =>
      forall i | 0 <= i < |ms| ensures InOrder(Canonicalize(ms[i].value)) {
        CanonicalInOrder(ms[i].value);
      }
      SortedInOrder(CanonicalMembers(ms));
    case _ =>
  }
}
