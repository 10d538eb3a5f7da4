/** Which version of an entity the store shows: the one emitted last. The versions are
    keyed by DAA, so this is about rising DAAs and, within a block, about the order of
    its emissions; and cutting the versions at a DAA brings back the earlier ones. */
module EntityVersions {
  import opened Prelude
  import opened StableSort
  import opened CanonicalJson
  import opened CanonicalBytes
  import opened Tables
  import opened Persist

  // ----- The last emission of each entity -----

  function KeyIn(e: Entity): Key { Key(e.entityType, e.entityId) }

  /** The states after these emissions, one after the other. */
  function Last(es: seq<Entity>): map<Key, Json> {
    if es == [] then map[] else Last(es[..|es| - 1])[KeyIn(es[|es| - 1]) := es[|es| - 1].state]
  }

  /** Nothing of that type and id is emitted after place `i`. */
  ghost predicate EmittedLast(es: seq<Entity>, i: nat) {
    i < |es| && forall j :: i < j < |es| ==> es[j].entityType != es[i].entityType || es[j].entityId != es[i].entityId
  }

  /** Exactly the emitted entities, each in the state of its last emission. */
  ghost predicate ShowsLast(shown: map<Key, Json>, es: seq<Entity>) {
    && (forall i: nat :: EmittedLast(es, i) ==>
          Key(es[i].entityType, es[i].entityId) in shown && shown[Key(es[i].entityType, es[i].entityId)] == es[i].state)
    && (forall k :: k in shown ==> exists i: nat :: EmittedLast(es, i) && Key(es[i].entityType, es[i].entityId) == k)
  }

  lemma {:induction false} LastShows(es: seq<Entity>, i: nat)
    requires EmittedLast(es, i)
    ensures KeyIn(es[i]) in Last(es) && Last(es)[KeyIn(es[i])] == es[i].state
    decreases |es|
  {
    var n := |es| - 1;
    if i < n {
      assert EmittedLast(es[..n], i);
      LastShows(es[..n], i);
    }
  }

  lemma {:induction false} LastOnly(es: seq<Entity>, k: Key) returns (i: nat)
    requires k in Last(es)
    ensures EmittedLast(es, i) && KeyIn(es[i]) == k
    decreases |es|
  {
    i := |es| - 1;
    if KeyIn(es[i]) != k {
      i := LastOnly(es[..i], k);
    }
  }

  lemma LastIsShown(es: seq<Entity>)
    ensures ShowsLast(Last(es), es)
  {
    forall i: nat | EmittedLast(es, i)
      ensures KeyIn(es[i]) in Last(es) && Last(es)[KeyIn(es[i])] == es[i].state
    {
      LastShows(es, i);
    }
    forall k | k in Last(es) ensures exists i: nat :: EmittedLast(es, i) && KeyIn(es[i]) == k {
      var i := LastOnly(es, k);
    }
  }

  // ----- One upsert -----

  ghost predicate AtMost(t: Tables, daa: int) { forall k :: k in t.entities ==> k.daa <= daa }

  lemma LatestAfter(was: map<EntityKey, Json>, now: map<EntityKey, Json>, top: EntityKey, k: EntityKey)
    requires now.Keys == was.Keys + {top} && forall j :: j in was ==> j.daa <= top.daa
    ensures IsLatest(now, k) <==>
      k == top || (IsLatest(was, k) && (k.entityType != top.entityType || k.entityId != top.entityId))
  {
  }

  lemma LatestShown(t: Tables, k: EntityKey)
    requires IsLatest(t.entities, k)
    ensures Key(k.entityType, k.entityId) in Snapshot(t)
    ensures Snapshot(t)[Key(k.entityType, k.entityId)] == t.entities[k]
  {
    var x := Key(k.entityType, k.entityId);
    var j :| j in t.entities && IsLatest(t.entities, j) && Key(j.entityType, j.entityId) == x
      && Snapshot(t)[x] == t.entities[j];
  }

  lemma ShownIsLatest(t: Tables, x: Key) returns (k: EntityKey)
    requires x in Snapshot(t)
    ensures IsLatest(t.entities, k) && Key(k.entityType, k.entityId) == x && Snapshot(t)[x] == t.entities[k]
  {
    k :| k in t.entities && IsLatest(t.entities, k) && Key(k.entityType, k.entityId) == x && Snapshot(t)[x] == t.entities[k];
  }

  /** What is shown of `x` is shown of it in `m`. */
  ghost predicate ShownAs(m: map<Key, Json>, n: map<Key, Json>, x: Key) {
    (x in m <==> x in n) && (x in m ==> m[x] == n[x])
  }

  lemma ShownAfter(t: Tables, u: Tables, top: EntityKey, e: Entity, x: Key, shown: map<Key, Json>)
    requires u.entities == t.entities[top := e.state] && Key(top.entityType, top.entityId) == KeyIn(e)
    requires forall k :: IsLatest(u.entities, k) <==>
      k == top || (IsLatest(t.entities, k) && Key(k.entityType, k.entityId) != KeyIn(e))
    requires shown == Snapshot(t)[KeyIn(e) := e.state]
    ensures ShownAs(Snapshot(u), shown, x)
  {
    if x == KeyIn(e) {
      LatestShown(u, top);
    } else if x in Snapshot(t) {
      var k := ShownIsLatest(t, x);
      LatestShown(u, k);
    } else if x in Snapshot(u) {
      var k := ShownIsLatest(u, x);
      LatestShown(t, k);
    }
  }

  lemma AllShown(m: map<Key, Json>, n: map<Key, Json>)
    requires forall x :: ShownAs(m, n, x)
    ensures m == n
  {
    forall x ensures (x in m <==> x in n) && (x in m ==> m[x] == n[x]) {
      assert ShownAs(m, n, x);
    }
  }

  /** A version at the highest DAA is the one shown from then on; the others stay. */
  lemma UpsertShows(t: Tables, daa: int, e: Entity)
    requires AtMost(t, daa)
    ensures Snapshot(UpsertVersion(t, daa, e)) == Snapshot(t)[KeyIn(e) := e.state]
  {
    var u, top := UpsertVersion(t, daa, e), EntityKey(e.entityType, e.entityId, daa);
    forall k ensures IsLatest(u.entities, k) <==>
      k == top || (IsLatest(t.entities, k) && Key(k.entityType, k.entityId) != KeyIn(e))
    {
      LatestAfter(t.entities, u.entities, top, k);
    }
    var shown := Snapshot(t)[KeyIn(e) := e.state];
    forall x ensures ShownAs(Snapshot(u), shown, x) {
      ShownAfter(t, u, top, e, x, shown);
    }
    AllShown(Snapshot(u), shown);
  }

  lemma SameShown(t: Tables, u: Tables)
    requires t.entities == u.entities
    ensures Snapshot(t) == Snapshot(u)
  {
  }

  lemma LastNext(seen: seq<Entity>, es: seq<Entity>, n: nat)
    requires |es| == n + 1
    ensures Last(seen + es) == Last(seen + es[..n])[KeyIn(es[n]) := es[n].state]
  {
    JoinLast(seen, es, n);
  }

  lemma {:induction false} UpsertsAtMost(t: Tables, daa: int, es: seq<Entity>)
    requires AtMost(t, daa)
    ensures AtMost(UpsertAll(t, daa, es), daa)
    decreases |es|
  {
    if es != [] {
      UpsertsAtMost(t, daa, es[..|es| - 1]);
    }
  }

  lemma {:induction false} UpsertsShow(t: Tables, daa: int, es: seq<Entity>, seen: seq<Entity>, shown: map<Key, Json>)
    requires AtMost(t, daa) && Snapshot(t) == Last(seen) && shown == Last(seen + es)
    ensures Snapshot(UpsertAll(t, daa, es)) == shown
    decreases |es|
  {
    if es == [] {
      JoinNothing(seen);
    } else {
      var n := |es| - 1;
      UpsertsShow(t, daa, es[..n], seen, Last(seen + es[..n]));
      UpsertsAtMost(t, daa, es[..n]);
      UpsertShows(UpsertAll(t, daa, es[..n]), daa, es[n]);
      LastNext(seen, es, n);
    }
  }

  // ----- The versions of a list of blocks -----

  /** What a block's lock handlers and its spend handlers emitted. */
  datatype Emitted = Emitted(daa: int, locks: seq<Entity>, spends: seq<Entity>)

  function Flat(log: seq<Emitted>): seq<Entity> {
    if log == [] then [] else Flat(log[..|log| - 1]) + (log[|log| - 1].locks + log[|log| - 1].spends)
  }

  function Stamp(v: map<EntityKey, Json>, daa: int, es: seq<Entity>): map<EntityKey, Json> {
    if es == [] then v
    else
      var n := |es| - 1;
      Stamp(v, daa, es[..n])[EntityKey(es[n].entityType, es[n].entityId, daa) := es[n].state]
  }

  function VersionsOf(log: seq<Emitted>): map<EntityKey, Json> {
    if log == [] then map[]
    else
      var n := |log| - 1;
      Stamp(VersionsOf(log[..n]), log[n].daa, log[n].locks + log[n].spends)
  }

  ghost predicate RisingBatches(log: seq<Emitted>) {
    forall i, j :: 0 <= i < j < |log| ==> log[i].daa < log[j].daa
  }

  lemma {:induction false} UpsertsStamp(t: Tables, daa: int, es: seq<Entity>)
    ensures UpsertAll(t, daa, es) == t.(entities := Stamp(t.entities, daa, es))
    decreases |es|
  {
    if es != [] {
      UpsertsStamp(t, daa, es[..|es| - 1]);
    }
  }

  lemma {:induction false} StampJoin(v: map<EntityKey, Json>, daa: int, es: seq<Entity>, fs: seq<Entity>)
    ensures Stamp(v, daa, es + fs) == Stamp(Stamp(v, daa, es), daa, fs)
    decreases |fs|
  {
    if fs == [] {
      JoinNothing(es);
    } else {
      var n := |fs| - 1;
      StampJoin(v, daa, es, fs[..n]);
      JoinLast(es, fs, n);
    }
  }

  /** The store that holds these versions and nothing else. */
  function Versioned(v: map<EntityKey, Json>): Tables { EMPTY.(entities := v) }

  lemma {:induction false} VersionsAtMost(log: seq<Emitted>, daa: int)
    requires forall i :: 0 <= i < |log| ==> log[i].daa <= daa
    ensures AtMost(Versioned(VersionsOf(log)), daa)
    decreases |log|
  {
    if log != [] {
      var n := |log| - 1;
      var before := Versioned(VersionsOf(log[..n]));
      VersionsAtMost(log[..n], daa);
      StampAtMost(before.entities, log[n].daa, log[n].locks + log[n].spends, daa);
    }
  }

  lemma {:induction false} StampAtMost(v: map<EntityKey, Json>, daa: int, es: seq<Entity>, top: int)
    requires AtMost(Versioned(v), top) && daa <= top
    ensures AtMost(Versioned(Stamp(v, daa, es)), top)
    decreases |es|
  {
    if es != [] {
      StampAtMost(v, daa, es[..|es| - 1], top);
    }
  }

  lemma BlockShows(v: map<EntityKey, Json>, daa: int, es: seq<Entity>, seen: seq<Entity>, shown: map<Key, Json>)
    requires AtMost(Versioned(v), daa) && Snapshot(Versioned(v)) == Last(seen) && shown == Last(seen + es)
    ensures Snapshot(Versioned(Stamp(v, daa, es))) == shown
  {
    UpsertsShow(Versioned(v), daa, es, seen, shown);
    UpsertsStamp(Versioned(v), daa, es);
  }

  lemma EmptyShows()
    ensures Snapshot(Versioned(map[])) == map[]
  {
  }

  /** What the store shows is what was emitted last, in the order of the blocks. */
  lemma {:induction false} VersionsShow(log: seq<Emitted>)
    requires RisingBatches(log)
    ensures Snapshot(Versioned(VersionsOf(log))) == Last(Flat(log))
    decreases |log|
  {
    if log != [] {
      var n := |log| - 1;
      VersionsShow(log[..n]);
      VersionsAtMost(log[..n], log[n].daa);
      BlockShows(VersionsOf(log[..n]), log[n].daa, log[n].locks + log[n].spends, Flat(log[..n]), Last(Flat(log)));
    } else {
      EmptyShows();
    }
  }

  // ----- Cutting them -----

  lemma {:induction false} StampAbove(v: map<EntityKey, Json>, daa: int, es: seq<Entity>, c: int)
    requires c <= daa
    ensures UnwindEntities(Versioned(Stamp(v, daa, es)), c).entities == UnwindEntities(Versioned(v), c).entities
    decreases |es|
  {
    if es != [] {
      StampAbove(v, daa, es[..|es| - 1], c);
    }
  }

  lemma CutNothing(v: map<EntityKey, Json>, c: int)
    requires forall k :: k in v ==> k.daa < c
    ensures UnwindEntities(Versioned(v), c).entities == v
  {
  }

  /** Cutting between two parts of the log leaves the versions of the first. */
  lemma {:induction false} CutVersions(p: seq<Emitted>, s: seq<Emitted>, c: int)
    requires RisingBatches(p + s) && (forall i :: 0 <= i < |p| ==> p[i].daa < c)
      && forall i :: 0 <= i < |s| ==> c <= s[i].daa
    ensures UnwindEntities(Versioned(VersionsOf(p + s)), c).entities == VersionsOf(p)
    decreases |s|
  {
    if s == [] {
      JoinNothing(p);
      VersionsAtMost(p, c - 1);
      CutNothing(VersionsOf(p), c);
    } else {
      var n := |s| - 1;
      JoinLast(p, s, n);
      CutVersions(p, s[..n], c);
      StampAbove(VersionsOf(p + s[..n]), s[n].daa, s[n].locks + s[n].spends, c);
    }
  }
}
