/** What a forest of lineage rows needs to survive a cut by DAA, whatever was overwritten
    above the cut: every tracked output has a row of its id no later than its own, and
    every row carries the DAA of a block that is listed. */
module ForestCuts {
  import opened Prelude
  import opened CanonicalBytes
  import opened Blocks
  import opened ChainWindow
  import opened Tables
  import opened Lineage
  import opened Persist
  import opened Truncation
  import opened Layers
  import opened Chains
  import opened Unwinding

  // ----- Every row carries the DAA of a listed block -----

  function DaaSet(bs: seq<Block>): set<int> {
    if bs == [] then {} else DaaSet(bs[..|bs| - 1]) + {bs[|bs| - 1].daa}
  }

  lemma {:induction false} InDaaSet(bs: seq<Block>, i: nat)
    requires i < |bs|
    ensures bs[i].daa in DaaSet(bs)
    decreases |bs|
  {
    if i < |bs| - 1 {
      InDaaSet(bs[..|bs| - 1], i);
    }
  }

  lemma {:induction false} DaaSetOnly(bs: seq<Block>, d: int) returns (i: nat)
    requires d in DaaSet(bs)
    ensures i < |bs| && bs[i].daa == d
    decreases |bs|
  {
    i := |bs| - 1;
    if d != bs[i].daa {
      i := DaaSetOnly(bs[..|bs| - 1], d);
    }
  }

  ghost predicate RowsDated(rs: seq<LineageRow>, ds: set<int>) {
    forall i :: 0 <= i < |rs| ==> rs[i].daa in ds
  }

  ghost predicate EntitiesDated(entities: map<EntityKey, CanonicalJson.Json>, ds: set<int>) {
    forall k :: k in entities ==> k.daa in ds
  }

  ghost predicate SpendsDated(spends: map<SpendKey, CovenantSpend>, ds: set<int>) {
    forall k :: k in spends ==> spends[k].daa in ds
  }

  /** UTXO and lineage rows. */
  ghost predicate HitsDated(t: Tables, ds: set<int>) {
    && (forall o :: o in t.utxos ==> t.utxos[o].daa in ds)
    && (forall id :: id in t.rows ==> RowsDated(t.rows[id], ds))
  }

  /** Committed and POI rows. */
  ghost predicate BlocksDated(t: Tables, ds: set<int>) {
    (forall h :: h in t.committed ==> t.committed[h] in ds) && forall d :: d in t.poi ==> d in ds
  }

  ghost predicate Dated(t: Tables, ds: set<int>) {
    BlocksDated(t, ds) && HitsDated(t, ds) && EntitiesDated(t.entities, ds) && SpendsDated(t.spends, ds)
  }

  lemma HitDates(cfg: Config, t: Tables, hit: Hit, b: Block, ds: set<int>)
    requires HitsDated(t, ds) && b.daa in ds
    ensures HitsDated(PersistHit(t, cfg.render, cfg.gid, hit, b.content, b.daa), ds)
  {
    var c := Classify(t, cfg.gid, hit, b.content.inputs);
    var after := PersistHit(t, cfg.render, cfg.gid, hit, b.content, b.daa);
    PersistedAt(t, cfg.render, cfg.gid, hit, b.content, b.daa, c, FetchHead(t, c.id), after);
    TrackedAt(t, cfg.render, cfg.gid, hit, b.content, b.daa);
    forall id | id in after.rows ensures RowsDated(after.rows[id], ds) {
      assert RowsDated(RowsOf(t, id), ds);
    }
  }

  lemma {:induction false} AllHitsDate(cfg: Config, t: Tables, hits: seq<Hit>, b: Block, ds: set<int>)
    requires HitsDated(t, ds) && b.daa in ds
    ensures HitsDated(PersistHits(cfg, t, hits, b), ds)
    decreases |hits|
  {
    if hits != [] {
      var n := |hits| - 1;
      AllHitsDate(cfg, t, hits[..n], b, ds);
      HitDates(cfg, PersistHits(cfg, t, hits[..n], b), hits[n], b, ds);
    }
  }

  lemma {:induction false} UpsertsDate(t: Tables, daa: int, es: seq<Entity>, ds: set<int>)
    requires EntitiesDated(t.entities, ds) && daa in ds
    ensures EntitiesDated(UpsertAll(t, daa, es).entities, ds)
    decreases |es|
  {
    if es != [] {
      UpsertsDate(t, daa, es[..|es| - 1], ds);
    }
  }

  lemma {:induction false} SpendsDate(t: Tables, inputs: seq<TxInput>, daa: int, ds: set<int>)
    requires SpendsDated(t.spends, ds) && daa in ds
    ensures SpendsDated(RecordSpends(t, inputs, daa).spends, ds)
    decreases |inputs|
  {
    if inputs != [] {
      SpendsDate(t, inputs[..|inputs| - 1], daa, ds);
    }
  }

  lemma SpentDates(m: Mapping, t: Tables, b: Block, ds: set<int>)
    requires Dated(t, ds) && b.daa in ds
    ensures Dated(Spent(m, t, b), ds)
  {
    SpendTouches(t, b.content.inputs, b.daa);
    SpendsDate(t, b.content.inputs, b.daa, ds);
    var emitted := m.onSpends(b.daa, b.hash, b.content.inputs, t.utxos, Snapshot(t));
    UpsertsDate(RecordSpends(t, b.content.inputs, b.daa), b.daa, emitted, ds);
    UpsertTouches(RecordSpends(t, b.content.inputs, b.daa), b.daa, emitted);
  }

  lemma BlockDates(cfg: Config, db: Db, b: Block, ds: set<int>)
    requires Dated(db.tables, ds) && b.daa in ds
    ensures Dated(PersistBlock(cfg, db, b).tables, ds)
  {
    WriteTouches(cfg, db.tables, b);
    if cfg.mapping.Some? {
      var m, t1 := cfg.mapping.value, RecordCommitted(db.tables, b.hash, b.daa);
      HitsTouch(cfg, t1, b.content.hits, b);
      var t2 := Locked(cfg, db.tables, b);
      AllHitsDate(cfg, t1, b.content.hits, b, ds);
      LocksTouch(cfg, t1, b.content.hits, b);
      UpsertsDate(t2, b.daa, Dispatched(cfg, m, db.tables, b), ds);
      UpsertTouches(t2, b.daa, Dispatched(cfg, m, db.tables, b));
      SpentDates(m, UpsertAll(t2, b.daa, Dispatched(cfg, m, db.tables, b)), b, ds);
    }
  }

  lemma {:induction false} LocksTouch(cfg: Config, t: Tables, hits: seq<Hit>, b: Block)
    ensures PersistHits(cfg, t, hits, b).entities == t.entities && PersistHits(cfg, t, hits, b).spends == t.spends
  {
    if hits != [] {
      var n := |hits| - 1;
      LocksTouch(cfg, t, hits[..n], b);
      TrackedAt(PersistHits(cfg, t, hits[..n], b), cfg.render, cfg.gid, hits[n], b.content, b.daa);
    }
  }

  // ----- Every tracked output has a row of its id that is no later -----

  ghost predicate RowSince(rs: seq<LineageRow>, o: Outpoint, daa: int) {
    exists i :: 0 <= i < |rs| && rs[i].outpoint == o && rs[i].daa <= daa
  }

  ghost predicate TrackedSince(t: Tables, o: Outpoint) {
    && o in t.utxos && t.utxos[o].covenantId.Some?
    && RowSince(RowsOf(t, t.utxos[o].covenantId.value), o, t.utxos[o].daa)
  }

  ghost predicate NoLater(t: Tables) { forall o :: o in t.utxos ==> TrackedSince(t, o) }

  lemma RowSinceGrows(rs: seq<LineageRow>, more: seq<LineageRow>, o: Outpoint, daa: int)
    requires RowSince(rs, o, daa)
    ensures RowSince(rs + more, o, daa)
  {
    var i :| 0 <= i < |rs| && rs[i].outpoint == o && rs[i].daa <= daa;
    assert (rs + more)[i] == rs[i];
  }

  lemma OwnRow(cfg: Config, t: Tables, hit: Hit, b: Block, id: string, after: Tables)
    requires Bounded(t, b.daa + 1) && id == Classify(t, cfg.gid, hit, b.content.inputs).id
    requires after == PersistHit(t, cfg.render, cfg.gid, hit, b.content, b.daa)
    ensures RowSince(RowsOf(after, id), OutpointOf(hit), b.daa)
  {
    var c, o := Classify(t, cfg.gid, hit, b.content.inputs), OutpointOf(hit);
    PersistedAt(t, cfg.render, cfg.gid, hit, b.content, b.daa, c, FetchHead(t, id), after);
    if RowExists(t, id, o) {
      assert RowsBounded(t.rows[id], b.daa + 1);
      var i :| 0 <= i < |RowsOf(t, id)| && RowsOf(t, id)[i].outpoint == o;
    } else {
      assert RowsOf(after, id)[|RowsOf(t, id)|].outpoint == o;
    }
  }

  lemma OtherRows(cfg: Config, t: Tables, hit: Hit, b: Block, id: string, o: Outpoint, daa: int, after: Tables)
    requires RowSince(RowsOf(t, id), o, daa)
    requires after == PersistHit(t, cfg.render, cfg.gid, hit, b.content, b.daa)
    ensures RowSince(RowsOf(after, id), o, daa)
  {
    var c := Classify(t, cfg.gid, hit, b.content.inputs);
    PersistedAt(t, cfg.render, cfg.gid, hit, b.content, b.daa, c, FetchHead(t, c.id), after);
    if id == c.id && !RowExists(t, id, OutpointOf(hit)) {
      RowSinceGrows(RowsOf(t, id), [NextRow(FetchHead(t, id), cfg.render, hit, c, b.daa)], o, daa);
    }
  }

  lemma HitNoLater(cfg: Config, t: Tables, hit: Hit, b: Block)
    requires NoLater(t) && Bounded(t, b.daa + 1)
    ensures NoLater(PersistHit(t, cfg.render, cfg.gid, hit, b.content, b.daa))
  {
    var after := PersistHit(t, cfg.render, cfg.gid, hit, b.content, b.daa);
    TrackedAt(t, cfg.render, cfg.gid, hit, b.content, b.daa);
    forall o | o in after.utxos ensures TrackedSince(after, o) {
      if o == OutpointOf(hit) {
        OwnRow(cfg, t, hit, b, after.utxos[o].covenantId.value, after);
      } else {
        assert TrackedSince(t, o);
        OtherRows(cfg, t, hit, b, t.utxos[o].covenantId.value, o, t.utxos[o].daa, after);
      }
    }
  }

  lemma {:induction false} HitsNoLater(cfg: Config, t: Tables, hits: seq<Hit>, b: Block)
    requires NoLater(t) && Bounded(t, b.daa + 1) && Forest(t, cfg.gid) && GenesisInjective(cfg.gid)
    requires forall i :: 0 <= i < |hits| ==> hits[i].index < TWO_31
    ensures NoLater(PersistHits(cfg, t, hits, b))
    decreases |hits|
  {
    if hits != [] {
      var n := |hits| - 1;
      HitsNoLater(cfg, t, hits[..n], b);
      HitsLayer(cfg, t, hits[..n], b);
      HitNoLater(cfg, PersistHits(cfg, t, hits[..n], b), hits[n], b);
    }
  }

  lemma LockedRows(cfg: Config, db: Db, b: Block, after: Tables)
    requires cfg.mapping.Some? && after == PersistBlock(cfg, db, b).tables
    ensures after.utxos == Locked(cfg, db.tables, b).utxos && after.rows == Locked(cfg, db.tables, b).rows
  {
    var m, t2 := cfg.mapping.value, Locked(cfg, db.tables, b);
    UpsertTouches(t2, b.daa, Dispatched(cfg, m, db.tables, b));
    SpentTouches(m, UpsertAll(t2, b.daa, Dispatched(cfg, m, db.tables, b)), b);
  }

  lemma SameNoLater(t: Tables, u: Tables)
    requires NoLater(t) && u.rows == t.rows && u.utxos == t.utxos
    ensures NoLater(u)
  {
    forall o | o in u.utxos ensures TrackedSince(u, o) {
      assert TrackedSince(t, o);
    }
  }

  lemma BlockNoLater(cfg: Config, db: Db, b: Block)
    requires Sane(cfg) && Layered(cfg, db.tables, b.daa) && SmallIndices(b) && NoLater(db.tables)
    ensures NoLater(PersistBlock(cfg, db, b).tables)
  {
    var after := PersistBlock(cfg, db, b).tables;
    if cfg.mapping.Some? {
      var t1 := RecordCommitted(db.tables, b.hash, b.daa);
      BoundedUp(db.tables, b.daa, b.daa + 1);
      ForestIgnores(db.tables, t1, cfg.gid);
      SameNoLater(db.tables, t1);
      HitsNoLater(cfg, t1, b.content.hits, b);
      LockedRows(cfg, db, b, after);
      SameNoLater(Locked(cfg, db.tables, b), after);
    } else {
      SameNoLater(db.tables, after);
    }
  }

  // ----- The invariant -----

  /** Layered, with every row at one of the DAAs and no output before its row. */
  ghost predicate Grown(cfg: Config, t: Tables, ds: set<int>, limit: int) {
    Layered(cfg, t, limit) && Dated(t, ds) && NoLater(t)
  }

  /** Every row lies at one of the DAAs, so any bound on those bounds the rows. */
  lemma Relimit(cfg: Config, t: Tables, ds: set<int>, was: int, limit: int)
    requires Layered(cfg, t, was) && Dated(t, ds) && forall d :: d in ds ==> d < limit
    ensures Layered(cfg, t, limit)
  {
    forall id | id in t.rows ensures RowsBounded(t.rows[id], limit) {
      assert RowsBounded(t.rows[id], was) && RowsDated(t.rows[id], ds);
    }
  }

  lemma DatedMore(t: Tables, ds: set<int>, more: set<int>)
    requires Dated(t, ds) && ds <= more
    ensures Dated(t, more)
  {
    forall id | id in t.rows ensures RowsDated(t.rows[id], more) {
      assert RowsDated(t.rows[id], ds);
    }
  }

  /** Blocks above those DAAs, rising. */
  ghost predicate Rising(ds: set<int>, ws: seq<Block>) {
    && DaaOrder(ws) && (forall i :: 0 <= i < |ws| ==> SmallIndices(ws[i]))
    && forall d, i :: d in ds && 0 <= i < |ws| ==> d < ws[i].daa
  }

  lemma RisingInit(ds: set<int>, ws: seq<Block>, n: nat)
    requires Rising(ds, ws) && |ws| == n + 1
    ensures Rising(ds, ws[..n]) && SmallIndices(ws[n]) && forall d :: d in ds + DaaSet(ws[..n]) ==> d < ws[n].daa
  {
    forall d | d in DaaSet(ws[..n]) ensures d < ws[n].daa {
      var i := DaaSetOnly(ws[..n], d);
    }
  }

  lemma {:induction false} BlocksDate(cfg: Config, db: Db, ds: set<int>, ws: seq<Block>)
    requires Dated(db.tables, ds)
    ensures Dated(PersistBlocks(cfg, db, ws).tables, ds + DaaSet(ws))
    decreases |ws|
  {
    if ws == [] {
      assert ds + DaaSet(ws) == ds;
    } else {
      var n := |ws| - 1;
      var before := PersistBlocks(cfg, db, ws[..n]);
      BlocksDate(cfg, db, ds, ws[..n]);
      DatedMore(before.tables, ds + DaaSet(ws[..n]), ds + DaaSet(ws));
      BlockDates(cfg, before, ws[n], ds + DaaSet(ws));
    }
  }

  /** Before its last block, everything lies below that block. */
  lemma LayeredBelow(cfg: Config, db: Db, ds: set<int>, ws: seq<Block>, n: nat, was: int, before: Db)
    requires Rising(ds, ws) && |ws| == n + 1 && Dated(db.tables, ds)
    requires before == PersistBlocks(cfg, db, ws[..n]) && Layered(cfg, before.tables, was)
    ensures Layered(cfg, before.tables, ws[n].daa)
  {
    RisingInit(ds, ws, n);
    BlocksDate(cfg, db, ds, ws[..n]);
    Relimit(cfg, before.tables, ds + DaaSet(ws[..n]), was, ws[n].daa);
  }

  lemma {:induction false} BlocksLayer(cfg: Config, db: Db, ds: set<int>, ws: seq<Block>, limit: int) returns (after: int)
    requires Sane(cfg) && Rising(ds, ws) && Dated(db.tables, ds) && Layered(cfg, db.tables, limit)
    ensures Layered(cfg, PersistBlocks(cfg, db, ws).tables, after)
    decreases |ws|
  {
    if ws == [] {
      after := limit;
    } else {
      var n := |ws| - 1;
      var before := PersistBlocks(cfg, db, ws[..n]);
      RisingInit(ds, ws, n);
      after := BlocksLayer(cfg, db, ds, ws[..n], limit);
      LayeredBelow(cfg, db, ds, ws, n, after, before);
      after := ws[n].daa + 1;
      LayeredStep(cfg, before, ws[n], after, PersistBlocks(cfg, db, ws));
    }
  }

  lemma {:induction false} BlocksNoLater(cfg: Config, db: Db, ds: set<int>, ws: seq<Block>, limit: int)
    requires Sane(cfg) && Rising(ds, ws) && Dated(db.tables, ds) && Layered(cfg, db.tables, limit) && NoLater(db.tables)
    ensures NoLater(PersistBlocks(cfg, db, ws).tables)
    decreases |ws|
  {
    if ws != [] {
      var n := |ws| - 1;
      var before := PersistBlocks(cfg, db, ws[..n]);
      RisingInit(ds, ws, n);
      BlocksNoLater(cfg, db, ds, ws[..n], limit);
      var was := BlocksLayer(cfg, db, ds, ws[..n], limit);
      LayeredBelow(cfg, db, ds, ws, n, was, before);
      BlockNoLater(cfg, before, ws[n]);
    }
  }

  lemma BlocksGrow(cfg: Config, db: Db, ds: set<int>, ws: seq<Block>, limit: int) returns (after: int)
    requires Sane(cfg) && Rising(ds, ws) && Grown(cfg, db.tables, ds, limit)
    ensures Grown(cfg, PersistBlocks(cfg, db, ws).tables, ds + DaaSet(ws), after)
  {
    BlocksDate(cfg, db, ds, ws);
    BlocksNoLater(cfg, db, ds, ws, limit);
    after := BlocksLayer(cfg, db, ds, ws, limit);
  }

  // ----- A cut keeps it -----

  lemma {:induction false} BelowHas(rs: seq<LineageRow>, c: int, i: nat) returns (j: nat)
    requires i < |rs| && rs[i].daa < c
    ensures j < |Below(rs, c)| && Below(rs, c)[j] == rs[i]
    decreases |rs|
  {
    var n := |rs| - 1;
    if i == n {
      j := |Below(rs[..n], c)|;
    } else {
      j := BelowHas(rs[..n], c, i);
    }
  }

  lemma {:induction false} BelowOnly(rs: seq<LineageRow>, c: int, j: nat) returns (i: nat)
    requires j < |Below(rs, c)|
    ensures i < |rs| && Below(rs, c)[j] == rs[i] && rs[i].daa < c
    decreases |rs|
  {
    var n := |rs| - 1;
    if j < |Below(rs[..n], c)| {
      i := BelowOnly(rs[..n], c, j);
    } else {
      i := n;
    }
  }

  lemma TreePrefix(gid: GenesisId, id: string, rs: seq<LineageRow>, n: nat)
    requires RootedTree(gid, id, rs) && 0 < n <= |rs|
    ensures RootedTree(gid, id, rs[..n])
  {
    forall i | 0 < i < n ensures HasParent(rs[..n], i) {
      assert HasParent(rs, i);
      var j :| 0 <= j < i && rs[i].parentUtxo.value == EdgeText(rs[j].outpoint);
      assert rs[..n][j] == rs[j];
    }
  }

  lemma HeadOfPrefix(rs: seq<LineageRow>, limit: int)
    requires rs != [] && RowsBounded(rs, limit)
    ensures HeadMatches(HeadOfRows(rs), rs)
  {
  }

  lemma PrefixBounded(rs: seq<LineageRow>, n: nat, limit: int)
    requires RowsBounded(rs, limit) && n <= |rs|
    ensures RowsBounded(rs[..n], limit)
  {
  }

  lemma CutTree(gid: GenesisId, id: string, rs: seq<LineageRow>, c: int, limit: int)
    requires RootedTree(gid, id, rs) && RowsBounded(rs, limit) && Below(rs, c) != []
    ensures RootedTree(gid, id, Below(rs, c)) && RowsBounded(Below(rs, c), limit)
  {
    var n := BelowIsPrefix(rs, c, limit);
    TreePrefix(gid, id, rs, n);
    PrefixBounded(rs, n, limit);
  }

  lemma CutSound(t: Tables, gid: GenesisId, id: string, c: int, limit: int)
    requires Forest(t, gid) && Bounded(t, limit) && id in CutRows(t.rows, c)
    ensures Sound(CutAt(t, c), gid, id) && RowsBounded(CutAt(t, c).rows[id], limit)
  {
    assert Sound(t, gid, id) && RowsBounded(t.rows[id], limit);
    CutTree(gid, id, t.rows[id], c, limit);
    HeadOfPrefix(Below(t.rows[id], c), limit);
  }

  /** A tracked output that the cut keeps has kept its row too. */
  lemma CutTracked(t: Tables, c: int, o: Outpoint)
    requires NoLater(t) && o in CutAt(t, c).utxos
    ensures TrackedSince(CutAt(t, c), o) && Tracked(CutAt(t, c), o)
  {
    assert TrackedSince(t, o);
    var id, daa := t.utxos[o].covenantId.value, t.utxos[o].daa;
    var i :| 0 <= i < |RowsOf(t, id)| && RowsOf(t, id)[i].outpoint == o && RowsOf(t, id)[i].daa <= daa;
    var j := BelowHas(t.rows[id], c, i);
    assert RowsOf(CutAt(t, c), id)[j] == RowsOf(t, id)[i];
  }

  lemma CutHeads(t: Tables, c: int)
    ensures CutAt(t, c).rows.Keys == CutAt(t, c).heads.Keys
  {
  }

  lemma CutTracks(t: Tables, c: int)
    requires NoLater(t)
    ensures forall o :: o in CutAt(t, c).utxos ==> Tracked(CutAt(t, c), o)
  {
    forall o | o in CutAt(t, c).utxos ensures Tracked(CutAt(t, c), o) {
      CutTracked(t, c, o);
    }
  }

  lemma CutForest(t: Tables, gid: GenesisId, c: int, limit: int)
    requires Forest(t, gid) && Bounded(t, limit) && NoLater(t)
    ensures Forest(CutAt(t, c), gid)
  {
    var u := CutAt(t, c);
    CutHeads(t, c);
    CutTracks(t, c);
    forall id | id in u.rows ensures Sound(u, gid, id) {
      CutSound(t, gid, id, c, limit);
    }
  }

  lemma CutBounded(t: Tables, gid: GenesisId, c: int, limit: int)
    requires Forest(t, gid) && Bounded(t, limit)
    ensures Bounded(CutAt(t, c), limit)
  {
    var u := CutAt(t, c);
    forall id | id in u.rows ensures RowsBounded(u.rows[id], limit) {
      CutSound(t, gid, id, c, limit);
    }
  }

  lemma CutNoLater(t: Tables, c: int)
    requires NoLater(t)
    ensures NoLater(CutAt(t, c))
  {
    forall o | o in CutAt(t, c).utxos ensures TrackedSince(CutAt(t, c), o) {
      CutTracked(t, c, o);
    }
  }

  /** Whatever was overwritten above the cut, what is below it is again a forest. */
  lemma CutLayered(cfg: Config, t: Tables, c: int, limit: int)
    requires Layered(cfg, t, limit) && NoLater(t)
    ensures Layered(cfg, CutAt(t, c), limit) && NoLater(CutAt(t, c))
  {
    CutForest(t, cfg.gid, c, limit);
    CutBounded(t, cfg.gid, c, limit);
    CutNoLater(t, c);
    if cfg.mapping.None? {
      BareCut(t, c);
    }
  }

  lemma CutRowsDated(rs: seq<LineageRow>, c: int, ds: set<int>, low: set<int>)
    requires RowsDated(rs, ds) && forall d :: d in ds && d < c ==> d in low
    ensures RowsDated(Below(rs, c), low)
  {
    forall j | 0 <= j < |Below(rs, c)| ensures Below(rs, c)[j].daa in low {
      var i := BelowOnly(rs, c, j);
    }
  }

  lemma CutDated(t: Tables, c: int, ds: set<int>, low: set<int>)
    requires Dated(t, ds) && forall d :: d in ds && d < c ==> d in low
    ensures Dated(CutAt(t, c), low)
  {
    var u := CutAt(t, c);
    forall id | id in u.rows ensures RowsDated(u.rows[id], low) {
      assert RowsDated(t.rows[id], ds);
      CutRowsDated(t.rows[id], c, ds, low);
    }
  }

  lemma CutGrown(cfg: Config, t: Tables, ds: set<int>, low: set<int>, c: int, limit: int)
    requires Grown(cfg, t, ds, limit) && forall d :: d in ds && d < c ==> d in low
    ensures Grown(cfg, CutAt(t, c), low, limit)
  {
    CutLayered(cfg, t, c, limit);
    CutDated(t, c, ds, low);
  }
}
