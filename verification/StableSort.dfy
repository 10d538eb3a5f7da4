/** The slice `sort_by` the canonical encoding relies on: a stable sort of keyed
    items by (major, minor), each compared bytewise as Rust compares `String`s. */
module StableSort {
  import opened Prelude

  type Text = seq<byte>

  datatype Key = Key(major: Text, minor: Text)

  datatype Keyed<V> = Keyed(key: Key, value: V)

  predicate TextLeq(a: Text, b: Text) {
    a == [] || (b != [] && (a[0] < b[0] || (a[0] == b[0] && TextLeq(a[1..], b[1..]))))
  }

  predicate KeyLeq(a: Key, b: Key) {
    if a.major != b.major then TextLeq(a.major, b.major) else TextLeq(a.minor, b.minor)
  }

  lemma {:induction false} TextTotal(a: Text, b: Text)
    ensures TextLeq(a, b) || TextLeq(b, a)
    ensures TextLeq(a, b) && TextLeq(b, a) ==> a == b
  {
    if a != [] && b != [] && a[0] == b[0] {
      TextTotal(a[1..], b[1..]);
      assert a == [a[0]] + a[1..] && b == [b[0]] + b[1..];
    }
  }

  lemma {:induction false} TextTransitive(a: Text, b: Text, c: Text)
    requires TextLeq(a, b) && TextLeq(b, c)
    ensures TextLeq(a, c)
  {
    if a != [] && a[0] == b[0] == c[0] {
      TextTransitive(a[1..], b[1..], c[1..]);
    }
  }

  lemma KeyTotal(a: Key, b: Key)
    ensures KeyLeq(a, b) || KeyLeq(b, a)
    ensures KeyLeq(a, b) && KeyLeq(b, a) ==> a == b
  {
    TextTotal(a.major, b.major);
    TextTotal(a.minor, b.minor);
  }

  lemma KeyTransitive(a: Key, b: Key, c: Key)
    requires KeyLeq(a, b) && KeyLeq(b, c)
    ensures KeyLeq(a, c)
  {
    if a.major == b.major == c.major {
      TextTransitive(a.minor, b.minor, c.minor);
    } else {
      if TextLeq(a.major, b.major) && TextLeq(b.major, c.major) {
        TextTransitive(a.major, b.major, c.major);
      }
      TextTotal(a.major, b.major);
      TextTotal(b.major, c.major);
    }
  }

  /** `e` goes before the first item whose key is not below its own. */
  function Insert<V>(e: Keyed<V>, s: seq<Keyed<V>>): (r: seq<Keyed<V>>)
    ensures multiset(r) == multiset(s) + multiset{e}
    ensures |r| == |s| + 1
  {
    if s == [] then [e]
    else if KeyLeq(e.key, s[0].key) then [e] + s
    else
      assert s == [s[0]] + s[1..];
      [s[0]] + Insert(e, s[1..])
  }

  function Sort<V>(s: seq<Keyed<V>>): (r: seq<Keyed<V>>)
    ensures multiset(r) == multiset(s)
    ensures |r| == |s|
  {
    if s == [] then []
    else
      assert s == [s[0]] + s[1..];
      Insert(s[0], Sort(s[1..]))
  }

  /** The same keys in the same places, each value replaced by its image. */
  function MapValues<V, W>(f: V -> W, s: seq<Keyed<V>>): (r: seq<Keyed<W>>)
    ensures |r| == |s|
    ensures forall i :: 0 <= i < |s| ==> r[i] == Keyed(s[i].key, f(s[i].value))
  {
    if s == [] then [] else [Keyed(s[0].key, f(s[0].value))] + MapValues(f, s[1..])
  }

  /** Adjacent items are in key order. */
  predicate Sorted<V(==)>(s: seq<Keyed<V>>) {
    |s| <= 1 || (KeyLeq(s[0].key, s[1].key) && Sorted(s[1..]))
  }

  /** The items with key `k`, in the order they stand. */
  function WithKey<V>(s: seq<Keyed<V>>, k: Key): seq<Keyed<V>> {
    if s == [] then []
    else (if s[0].key == k then [s[0]] else []) + WithKey(s[1..], k)
  }

  ghost predicate SameUnderKeys<V>(s: seq<Keyed<V>>, t: seq<Keyed<V>>) {
    forall k :: WithKey(s, k) == WithKey(t, k)
  }

  lemma {:induction false} InsertSorted<V>(e: Keyed<V>, s: seq<Keyed<V>>)
    requires Sorted(s)
    ensures Sorted(Insert(e, s))
  {
    if s != [] {
      if KeyLeq(e.key, s[0].key) {
        assert ([e] + s)[1..] == s;
      } else {
        KeyTotal(e.key, s[0].key);
        InsertSorted(e, s[1..]);
        assert Insert(e, s)[1..] == Insert(e, s[1..]);
      }
    }
  }

  function One<V>(e: Keyed<V>, k: Key): seq<Keyed<V>> {
    if e.key == k then [e] else []
  }

  lemma WithKeyCons<V>(e: Keyed<V>, s: seq<Keyed<V>>, k: Key)
    ensures WithKey([e] + s, k) == One(e, k) + WithKey(s, k)
  {
    assert ([e] + s)[1..] == s;
  }

  lemma Commute<V>(a: Keyed<V>, b: Keyed<V>, k: Key, rest: seq<Keyed<V>>)
    requires a.key != b.key
    ensures One(a, k) + (One(b, k) + rest) == One(b, k) + (One(a, k) + rest)
  {
  }

  lemma {:induction false} InsertWithKey<V>(e: Keyed<V>, s: seq<Keyed<V>>, k: Key)
    ensures WithKey(Insert(e, s), k) == One(e, k) + WithKey(s, k)
  {
    if s == [] || KeyLeq(e.key, s[0].key) {
      assert Insert(e, s) == [e] + s;
      WithKeyCons(e, s, k);
    } else {
      KeyTotal(e.key, e.key);
      InsertWithKey(e, s[1..], k);
      WithKeyCons(s[0], Insert(e, s[1..]), k);
      WithKeyCons(s[0], s[1..], k);
      assert s == [s[0]] + s[1..];
      Commute(s[0], e, k, WithKey(s[1..], k));
    }
  }

  lemma MapCons<V, W>(f: V -> W, e: Keyed<V>, s: seq<Keyed<V>>)
    ensures MapValues(f, [e] + s) == [Keyed(e.key, f(e.value))] + MapValues(f, s)
  {
    assert ([e] + s)[1..] == s;
  }

  lemma {:induction false} MapInsert<V, W>(f: V -> W, e: Keyed<V>, s: seq<Keyed<V>>)
    ensures MapValues(f, Insert(e, s)) == Insert(Keyed(e.key, f(e.value)), MapValues(f, s))
  {
    if s == [] || KeyLeq(e.key, s[0].key) {
      assert Insert(e, s) == [e] + s;
      MapCons(f, e, s);
    } else {
      MapInsert(f, e, s[1..]);
      MapCons(f, s[0], Insert(e, s[1..]));
    }
  }

  /** The sort looks at keys only: it commutes with any change of values. */
  lemma {:induction false} MapSort<V, W>(f: V -> W, s: seq<Keyed<V>>)
    ensures MapValues(f, Sort(s)) == Sort(MapValues(f, s))
  {
    if s != [] {
      MapSort(f, s[1..]);
      MapInsert(f, s[0], Sort(s[1..]));
    }
  }

  lemma {:induction false} MapWithKey<V, W>(f: V -> W, s: seq<Keyed<V>>, k: Key)
    ensures WithKey(MapValues(f, s), k) == MapValues(f, WithKey(s, k))
  {
    if s != [] {
      MapWithKey(f, s[1..], k);
      if s[0].key == k {
        MapCons(f, s[0], WithKey(s[1..], k));
      }
    }
  }

  /** The sort orders by key and is stable: it keeps the order of equal keys. */
  lemma {:induction false} SortIsStable<V>(s: seq<Keyed<V>>)
    ensures Sorted(Sort(s))
    ensures forall k :: WithKey(Sort(s), k) == WithKey(s, k)
  {
    if s != [] {
      SortIsStable(s[1..]);
      InsertSorted(s[0], Sort(s[1..]));
      forall k ensures WithKey(Sort(s), k) == WithKey(s, k) {
        InsertWithKey(s[0], Sort(s[1..]), k);
        WithKeyCons(s[0], s[1..], k);
        assert s == [s[0]] + s[1..];
      }
    }
  }

  lemma {:induction false} HeadLeast<V>(s: seq<Keyed<V>>, k: Key)
    requires Sorted(s) && WithKey(s, k) != []
    ensures s != [] && KeyLeq(s[0].key, k)
  {
    KeyTotal(k, k);
    if s[0].key != k {
      HeadLeast(s[1..], k);
      KeyTransitive(s[0].key, s[1].key, k);
    }
  }

  /** A sorted list is determined by what it holds under each key. */
  lemma {:induction false} SortedUnique<V>(s: seq<Keyed<V>>, t: seq<Keyed<V>>)
    requires Sorted(s) && Sorted(t)
    requires SameUnderKeys(s, t)
    ensures s == t
  {
    if s == [] {
      assert t == [] || WithKey(t, t[0].key) != WithKey(s, t[0].key);
    } else {
      var k := s[0].key;
      assert WithKey(s, k)[0] == s[0];
      HeadLeast(t, k);
      assert WithKey(t, t[0].key)[0] == t[0];
      HeadLeast(s, t[0].key);
      KeyTotal(k, t[0].key);
      assert s[0] == t[0];
      forall k' ensures WithKey(s[1..], k') == WithKey(t[1..], k') {
        var pre := if k == k' then [s[0]] else [];
        assert WithKey(s, k') == WithKey(t, k');
        assert pre + WithKey(s[1..], k') == pre + WithKey(t[1..], k');
        assert WithKey(s[1..], k') == (pre + WithKey(s[1..], k'))[|pre|..];
        assert WithKey(t[1..], k') == (pre + WithKey(t[1..], k'))[|pre|..];
      }
      SortedUnique(s[1..], t[1..]);
      assert s == [s[0]] + s[1..] && t == [t[0]] + t[1..];
    }
  }

  /** Two lists sort alike exactly when they agree under every key. */
  lemma SortAlike<V>(s: seq<Keyed<V>>, t: seq<Keyed<V>>)
    ensures Sort(s) == Sort(t) <==> SameUnderKeys(s, t)
  {
    SortIsStable(s);
    SortIsStable(t);
    if SameUnderKeys(s, t) {
      SortedUnique(Sort(s), Sort(t));
    } else {
      var k :| WithKey(s, k) != WithKey(t, k);
      assert WithKey(Sort(s), k) == WithKey(s, k);
      assert WithKey(Sort(t), k) == WithKey(t, k);
    }
  }

  // ----- The order, byte by byte -----

  /** One text comes before the other: it is a prefix, or smaller where they first differ. */
  ghost predicate Before(a: Text, b: Text) {
    a <= b || exists k :: 0 <= k < |a| && k < |b| && a[..k] == b[..k] && a[k] < b[k]
  }

  lemma BeforeMore(a: Text, b: Text)
    requires a != [] && b != [] && a[0] == b[0] && Before(a[1..], b[1..])
    ensures Before(a, b)
  {
    assert a == [a[0]] + a[1..] && b == [b[0]] + b[1..];
    if !(a[1..] <= b[1..]) {
      var k :| 0 <= k < |a[1..]| && k < |b[1..]| && a[1..][..k] == b[1..][..k] && a[1..][k] < b[1..][k];
      assert a[..k + 1] == [a[0]] + a[1..][..k] && b[..k + 1] == [b[0]] + b[1..][..k];
      assert a[k + 1] < b[k + 1];
    }
  }

  lemma BeforeTail(a: Text, b: Text)
    requires a != [] && b != [] && a[0] == b[0] && Before(a, b)
    ensures Before(a[1..], b[1..])
  {
    if !(a <= b) {
      var k :| 0 <= k < |a| && k < |b| && a[..k] == b[..k] && a[k] < b[k];
      assert a[1..][..k - 1] == a[..k][1..] && b[1..][..k - 1] == b[..k][1..];
      assert a[1..][k - 1] < b[1..][k - 1];
    }
  }

  lemma HeadsDiffer(a: Text, b: Text, k: nat)
    requires 0 < k <= |a| && k <= |b| && a[0] != b[0]
    ensures a[..k] != b[..k]
  {
    assert a[..k][0] == a[0] && b[..k][0] == b[0];
  }

  lemma {:induction false} TextLeqIs(a: Text, b: Text)
    ensures TextLeq(a, b) <==> Before(a, b)
  {
    if a != [] && b != [] {
      if a[0] == b[0] {
        TextLeqIs(a[1..], b[1..]);
        if TextLeq(a, b) {
          BeforeMore(a, b);
        }
        if Before(a, b) {
          BeforeTail(a, b);
        }
      } else {
        assert a[..0] == b[..0];
        forall k | 0 < k < |a| && k < |b| ensures a[..k] != b[..k] {
          HeadsDiffer(a, b, k);
        }
      }
    }
  }

  lemma {:induction false} SortedPair<V>(s: seq<Keyed<V>>, i: nat, j: nat)
    requires Sorted(s) && i < j < |s|
    ensures KeyLeq(s[i].key, s[j].key)
  {
    if i > 0 {
      SortedPair(s[1..], i - 1, j - 1);
    } else if j > 1 {
      SortedPair(s[1..], 0, j - 1);
      KeyTransitive(s[0].key, s[1].key, s[j].key);
    }
  }

  /** Sorted items come by type first, and under one type by id, each in byte order. */
  lemma SortsByTypeThenId<V>(s: seq<Keyed<V>>, i: nat, j: nat)
    requires i < j < |s|
    ensures Before(Sort(s)[i].key.major, Sort(s)[j].key.major)
    ensures Sort(s)[i].key.major == Sort(s)[j].key.major ==> Before(Sort(s)[i].key.minor, Sort(s)[j].key.minor)
  {
    var x, y := Sort(s)[i].key, Sort(s)[j].key;
    SortIsStable(s);
    SortedPair(Sort(s), i, j);
    TextLeqIs(x.major, y.major);
    TextLeqIs(x.minor, y.minor);
  }
}
