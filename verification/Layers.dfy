/** One block adds one layer to the tables: every row carries its DAA and the lineage
    stays a forest. So cutting above everything changes nothing, and the SQL unwind is
    such a cut. */
module Layers {
  import opened Prelude
  import opened CanonicalBytes
  import opened Blocks
  import opened Tables
  import opened Lineage
  import opened Persist
  import opened Truncation

  // ----- Every row carries its block's DAA -----

  ghost predicate Bounded(t: Tables, limit: int) {
    && (forall h :: h in t.committed ==> t.committed[h] < limit)
    && (forall d :: d in t.poi ==> d < limit)
    && (forall k :: k in t.entities ==> k.daa < limit)
    && (forall o :: o in t.utxos ==> t.utxos[o].daa < limit)
    && (forall k :: k in t.spends ==> t.spends[k].daa < limit)
    && (forall id :: id in t.rows ==> RowsBounded(t.rows[id], limit))
  }

  /** Rows in DAA order, each of an output index that fits the column. */
  ghost predicate RowsBounded(rs: seq<LineageRow>, limit: int) {
    && (forall i :: 0 <= i < |rs| ==> rs[i].daa < limit && 0 <= rs[i].outpoint.index)
    && (forall i, j :: 0 <= i < j < |rs| ==> rs[i].daa <= rs[j].daa)
  }

  ghost predicate SmallIndices(b: Block) {
    forall i :: 0 <= i < |b.content.hits| ==> b.content.hits[i].index < TWO_31
  }

  lemma BoundedRows(rs: seq<LineageRow>, r: LineageRow, daa: int)
    requires RowsBounded(rs, daa + 1) && r.daa == daa && 0 <= r.outpoint.index
    ensures RowsBounded(rs + [r], daa + 1)
  {
  }

  lemma BoundedHit(cfg: Config, t: Tables, hit: Hit, content: Content, daa: int)
    requires Bounded(t, daa + 1) && hit.index < TWO_31
    ensures Bounded(PersistHit(t, cfg.render, cfg.gid, hit, content, daa), daa + 1)
  {
    var c := Classify(t, cfg.gid, hit, content.inputs);
    var prior := FetchHead(t, c.id);
    var after := PersistHit(t, cfg.render, cfg.gid, hit, content, daa);
    PersistedAt(t, cfg.render, cfg.gid, hit, content, daa, c, prior, after);
    TrackedAt(t, cfg.render, cfg.gid, hit, content, daa);
    forall id | id in after.rows ensures RowsBounded(after.rows[id], daa + 1) {
      if id == c.id && !RowExists(t, c.id, OutpointOf(hit)) {
        BoundedRows(RowsOf(t, id), NextRow(prior, cfg.render, hit, c, daa), daa);
      }
    }
  }

  lemma {:induction false} HitsLayer(cfg: Config, t: Tables, hits: seq<Hit>, b: Block)
    requires Bounded(t, b.daa + 1) && Forest(t, cfg.gid) && GenesisInjective(cfg.gid)
    requires forall i :: 0 <= i < |hits| ==> hits[i].index < TWO_31
    ensures Bounded(PersistHits(cfg, t, hits, b), b.daa + 1)
    ensures Forest(PersistHits(cfg, t, hits, b), cfg.gid)
  {
    if hits != [] {
      var n := |hits| - 1;
      var before := PersistHits(cfg, t, hits[..n], b);
      HitsLayer(cfg, t, hits[..n], b);
      HitLayer(cfg, before, hits[n], b, PersistHits(cfg, t, hits, b));
    }
  }

  lemma HitLayer(cfg: Config, t: Tables, hit: Hit, b: Block, after: Tables)
    requires Bounded(t, b.daa + 1) && Forest(t, cfg.gid) && GenesisInjective(cfg.gid) && hit.index < TWO_31
    requires after == PersistHit(t, cfg.render, cfg.gid, hit, b.content, b.daa)
    ensures Bounded(after, b.daa + 1) && Forest(after, cfg.gid)
  {
    BoundedHit(cfg, t, hit, b.content, b.daa);
    PersistHitKeepsForest(t, cfg.render, cfg.gid, hit, b.content, b.daa);
  }

  lemma {:induction false} HitsTouch(cfg: Config, t: Tables, hits: seq<Hit>, b: Block)
    ensures PersistHits(cfg, t, hits, b).committed == t.committed
    ensures PersistHits(cfg, t, hits, b).poi == t.poi
    ensures PersistHits(cfg, t, hits, b).spends == t.spends
    ensures PersistHits(cfg, t, hits, b).utxos.Keys == t.utxos.Keys + OutpointsOf(hits)
  {
    if hits != [] {
      var n := |hits| - 1;
      var before := PersistHits(cfg, t, hits[..n], b);
      HitsTouch(cfg, t, hits[..n], b);
      TrackedAt(before, cfg.render, cfg.gid, hits[n], b.content, b.daa);
      OutpointsMore(hits, n);
    }
  }

  function OutpointsOf(hits: seq<Hit>): set<Outpoint> { set h | h in hits :: OutpointOf(h) }

  lemma OutpointsMore(hits: seq<Hit>, n: nat)
    requires |hits| == n + 1
    ensures OutpointsOf(hits) == OutpointsOf(hits[..n]) + {OutpointOf(hits[n])}
  {
    assert hits == hits[..n] + [hits[n]];
  }

  lemma {:induction false} UpsertLayer(t: Tables, daa: int, es: seq<Entity>)
    requires forall k :: k in t.entities ==> k.daa < daa + 1
    ensures var u := UpsertAll(t, daa, es);
      u == t.(entities := u.entities) && forall k :: k in u.entities ==> k.daa < daa + 1
  {
    if es != [] {
      UpsertLayer(t, daa, es[..|es| - 1]);
    }
  }

  lemma {:induction false} SpendLayer(t: Tables, inputs: seq<TxInput>, daa: int)
    requires forall k :: k in t.spends ==> t.spends[k].daa < daa + 1
    ensures var u := RecordSpends(t, inputs, daa);
      && u == t.(spends := u.spends)
      && (forall k :: k in u.spends ==> u.spends[k].daa < daa + 1)
      && u.spends.Keys <= t.spends.Keys + set i | i in inputs :: KeyOf(i)
  {
    if inputs != [] {
      SpendLayer(t, inputs[..|inputs| - 1], daa);
    }
  }

  lemma {:induction false} UpsertTouches(t: Tables, daa: int, es: seq<Entity>)
    ensures UpsertAll(t, daa, es) == t.(entities := UpsertAll(t, daa, es).entities)
  {
    if es != [] {
      UpsertTouches(t, daa, es[..|es| - 1]);
    }
  }

  lemma {:induction false} SpendTouches(t: Tables, inputs: seq<TxInput>, daa: int)
    ensures RecordSpends(t, inputs, daa) == t.(spends := RecordSpends(t, inputs, daa).spends)
  {
    if inputs != [] {
      SpendTouches(t, inputs[..|inputs| - 1], daa);
    }
  }

  /** Whatever the tables hold, a block records its own hash and leaves the POI rows. */
  lemma WriteTouches(cfg: Config, t: Tables, b: Block)
    ensures WriteBlock(cfg, t, b).committed == t.committed[b.hash := b.daa]
    ensures WriteBlock(cfg, t, b).poi == t.poi
  {
    if cfg.mapping.Some? {
      var m := cfg.mapping.value;
      HitsTouch(cfg, RecordCommitted(t, b.hash, b.daa), b.content.hits, b);
      var t2 := Locked(cfg, t, b);
      UpsertTouches(t2, b.daa, Dispatched(cfg, m, t, b));
      SpentTouches(m, UpsertAll(t2, b.daa, Dispatched(cfg, m, t, b)), b);
    }
  }

  lemma SpentTouches(m: Mapping, t: Tables, b: Block)
    ensures Spent(m, t, b) == t.(spends := Spent(m, t, b).spends, entities := Spent(m, t, b).entities)
  {
    SpendTouches(t, b.content.inputs, b.daa);
    UpsertTouches(RecordSpends(t, b.content.inputs, b.daa), b.daa,
                  m.onSpends(b.daa, b.hash, b.content.inputs, t.utxos, Snapshot(t)));
  }

  /** Only the mapping path fills the covenant and entity tables. */
  ghost predicate Bare(t: Tables) {
    t == EMPTY.(committed := t.committed, poi := t.poi)
  }

  /** Which table rows a block may bring. */
  function Outpoints(b: Block): set<Outpoint> { OutpointsOf(b.content.hits) }

  function SpendKeys(b: Block): set<SpendKey> { set i | i in b.content.inputs :: KeyOf(i) }

  ghost predicate Layered(cfg: Config, t: Tables, limit: int) {
    Bounded(t, limit) && Forest(t, cfg.gid) && (cfg.mapping.None? ==> Bare(t))
  }

  ghost predicate Sane(cfg: Config) {
    cfg.mapping.Some? ==> GenesisInjective(cfg.gid)
  }

  lemma BoundedUp(t: Tables, low: int, high: int)
    requires Bounded(t, low) && low <= high
    ensures Bounded(t, high)
  {
    forall id | id in t.rows ensures RowsBounded(t.rows[id], high) {
      assert RowsBounded(t.rows[id], low);
    }
  }

  lemma ForestIgnores(t: Tables, u: Tables, gid: GenesisId)
    requires Forest(t, gid) && u.rows == t.rows && u.heads == t.heads && u.utxos == t.utxos
    ensures Forest(u, gid)
  {
    forall id | id in u.rows ensures Sound(u, gid, id) {
      assert Sound(t, gid, id);
    }
    forall o | o in u.utxos ensures Tracked(u, o) {
      assert Tracked(t, o);
    }
  }

  /** The mapping path: what a block's hits, dispatches and spends leave. */
  lemma WrittenLayer(cfg: Config, m: Mapping, t: Tables, b: Block)
    requires Bounded(t, b.daa) && Forest(t, cfg.gid) && GenesisInjective(cfg.gid)
    requires cfg.mapping == Some(m) && SmallIndices(b)
    ensures Bounded(WriteBlock(cfg, t, b), b.daa + 1) && Forest(WriteBlock(cfg, t, b), cfg.gid)
  {
    BoundedUp(t, b.daa, b.daa + 1);
    var t1 := RecordCommitted(t, b.hash, b.daa);
    ForestIgnores(t, t1, cfg.gid);
    HitsLayer(cfg, t1, b.content.hits, b);
    var t2 := Locked(cfg, t, b);
    UpsertLayer(t2, b.daa, Dispatched(cfg, m, t, b));
    var t3 := UpsertAll(t2, b.daa, Dispatched(cfg, m, t, b));
    SpentLayer(m, t3, b);
    ForestIgnores(t2, Spent(m, t3, b), cfg.gid);
  }

  lemma SpentLayer(m: Mapping, t: Tables, b: Block)
    requires Bounded(t, b.daa + 1)
    ensures var u := Spent(m, t, b);
      && Bounded(u, b.daa + 1) && u == t.(spends := u.spends, entities := u.entities)
      && u.spends.Keys <= t.spends.Keys + SpendKeys(b)
  {
    SpendLayer(t, b.content.inputs, b.daa);
    UpsertLayer(RecordSpends(t, b.content.inputs, b.daa), b.daa,
                m.onSpends(b.daa, b.hash, b.content.inputs, t.utxos, Snapshot(t)));
  }

  lemma {:induction false} SpendsGrow(t: Tables, inputs: seq<TxInput>, daa: int)
    ensures RecordSpends(t, inputs, daa).spends.Keys <= t.spends.Keys + set i | i in inputs :: KeyOf(i)
  {
    if inputs != [] {
      SpendsGrow(t, inputs[..|inputs| - 1], daa);
    }
  }

  lemma SpentKeys(m: Mapping, t: Tables, b: Block)
    ensures Spent(m, t, b).utxos == t.utxos && Spent(m, t, b).spends.Keys <= t.spends.Keys + SpendKeys(b)
  {
    SpendsGrow(t, b.content.inputs, b.daa);
    SpentTouches(m, t, b);
    UpsertTouches(RecordSpends(t, b.content.inputs, b.daa), b.daa,
                  m.onSpends(b.daa, b.hash, b.content.inputs, t.utxos, Snapshot(t)));
  }

  lemma WrittenKeys(cfg: Config, m: Mapping, t: Tables, b: Block)
    requires cfg.mapping == Some(m)
    ensures WriteBlock(cfg, t, b).utxos.Keys == t.utxos.Keys + Outpoints(b)
    ensures WriteBlock(cfg, t, b).spends.Keys <= t.spends.Keys + SpendKeys(b)
  {
    HitsTouch(cfg, RecordCommitted(t, b.hash, b.daa), b.content.hits, b);
    UpsertTouches(Locked(cfg, t, b), b.daa, Dispatched(cfg, m, t, b));
    SpentKeys(m, UpsertAll(Locked(cfg, t, b), b.daa, Dispatched(cfg, m, t, b)), b);
  }

  /** One block adds one layer. */
  lemma BlockLayer(cfg: Config, db: Db, b: Block)
    requires Sane(cfg) && Layered(cfg, db.tables, b.daa) && SmallIndices(b)
    ensures var t, u := db.tables, PersistBlock(cfg, db, b).tables;
      && Layered(cfg, u, b.daa + 1)
      && u.committed == t.committed[b.hash := b.daa]
      && u.poi == t.poi[b.daa := PersistBlock(cfg, db, b).prior]
      && u.utxos.Keys <= t.utxos.Keys + Outpoints(b) && u.spends.Keys <= t.spends.Keys + SpendKeys(b)
  {
    var u := PersistBlock(cfg, db, b).tables;
    WriteTouches(cfg, db.tables, b);
    if cfg.mapping.Some? {
      WrittenLayer(cfg, cfg.mapping.value, db.tables, b);
      WrittenKeys(cfg, cfg.mapping.value, db.tables, b);
      ForestIgnores(WriteBlock(cfg, db.tables, b), u, cfg.gid);
    } else {
      BoundedUp(db.tables, b.daa, b.daa + 1);
      ForestIgnores(db.tables, u, cfg.gid);
    }
  }

  // ----- Cutting above everything changes nothing -----

  lemma {:induction false} BelowAll(rs: seq<LineageRow>, c: int)
    requires forall i :: 0 <= i < |rs| ==> rs[i].daa < c
    ensures Below(rs, c) == rs
  {
    if rs != [] {
      BelowAll(rs[..|rs| - 1], c);
    }
  }

  lemma HeadsAreOfRows(t: Tables, gid: GenesisId, limit: int)
    requires Forest(t, gid) && Bounded(t, limit)
    ensures t.heads == HeadsOf(t.rows)
  {
    forall id | id in t.rows
      ensures t.rows[id] != [] && id in t.heads && t.heads[id] == HeadOfRows(t.rows[id])
    {
      assert Sound(t, gid, id) && RowsBounded(t.rows[id], limit);
    }
  }

  lemma RowsAboveAll(t: Tables, gid: GenesisId, c: int)
    requires Forest(t, gid) && Bounded(t, c)
    ensures CutRows(t.rows, c) == t.rows
  {
    forall id | id in t.rows ensures Below(t.rows[id], c) == t.rows[id] && t.rows[id] != [] {
      assert Sound(t, gid, id) && RowsBounded(t.rows[id], c);
      BelowAll(t.rows[id], c);
    }
  }

  lemma BlocksAboveAll(t: Tables, c: int)
    requires Bounded(t, c)
    ensures CutAt(t, c).committed == t.committed && CutAt(t, c).poi == t.poi
  {
    assert (map h | h in t.committed && t.committed[h] < c :: t.committed[h]) == t.committed;
    assert (map d | d in t.poi && d < c :: t.poi[d]) == t.poi;
  }

  lemma DerivedAboveAll(t: Tables, c: int)
    requires Bounded(t, c)
    ensures UnwindEntities(t, c).entities == t.entities
    ensures UnwindUtxos(t, c).utxos == t.utxos
    ensures UnwindSpends(t, c).spends == t.spends
  {
  }

  lemma CutAboveAll(cfg: Config, t: Tables, c: int)
    requires Layered(cfg, t, c)
    ensures CutAt(t, c) == t
  {
    HeadsAreOfRows(t, cfg.gid, c);
    RowsAboveAll(t, cfg.gid, c);
    BlocksAboveAll(t, c);
    DerivedAboveAll(t, c);
  }

  // ----- The SQL unwind is such a cut -----

  lemma {:induction false} BelowIsPrefix(rs: seq<LineageRow>, c: int, limit: int) returns (n: nat)
    requires RowsBounded(rs, limit)
    ensures n <= |rs| && Below(rs, c) == rs[..n]
  {
    if rs == [] {
      n := 0;
    } else {
      var last := |rs| - 1;
      if rs[last].daa < c {
        BelowAll(rs, c);
        n := |rs|;
      } else {
        n := BelowIsPrefix(rs[..last], c, limit);
        assert rs[..last][..n] == rs[..n];
      }
    }
  }

  lemma {:induction false} TopRowIsLast(rs: seq<LineageRow>)
    requires rs != [] && forall i :: 0 <= i < |rs| ==> rs[i].position == i
    ensures TopRow(rs) == rs[|rs| - 1]
  {
    if |rs| > 1 {
      TopRowIsLast(rs[..|rs| - 1]);
    }
  }

  lemma RepointedHead(t: Tables, gid: GenesisId, id: string, c: int, limit: int)
    requires Sound(t, gid, id) && RowsBounded(t.rows[id], limit) && Below(t.rows[id], c) != []
    ensures Repoint(t.heads[id], TopRow(Below(t.rows[id], c))) == HeadOfRows(Below(t.rows[id], c))
  {
    var rs := t.rows[id];
    var n := BelowIsPrefix(rs, c, limit);
    assert rs[..n][0] == rs[0];
    TopRowIsLast(rs[..n]);
  }

  lemma HeadsRepointed(t: Tables, gid: GenesisId, c: int, limit: int, kept: map<string, seq<LineageRow>>)
    requires Forest(t, gid) && Bounded(t, limit) && kept == CutRows(t.rows, c)
    ensures forall id :: id in kept ==>
      id in t.heads && kept[id] != [] && Repoint(t.heads[id], TopRow(kept[id])) == HeadOfRows(kept[id])
  {
    forall id | id in kept ensures id in t.heads && Repoint(t.heads[id], TopRow(kept[id])) == HeadOfRows(kept[id]) {
      assert Sound(t, gid, id) && RowsBounded(t.rows[id], limit);
      RepointedHead(t, gid, id, c, limit);
    }
  }

  lemma LineageUnwound(t: Tables, gid: GenesisId, c: int, limit: int)
    requires Forest(t, gid) && Bounded(t, limit)
    ensures UnwindLineage(t, c).rows == CutRows(t.rows, c)
    ensures UnwindLineage(t, c).heads == HeadsOf(CutRows(t.rows, c))
  {
    var kept := CutRows(t.rows, c);
    HeadsRepointed(t, gid, c, limit, kept);
    SameHeads(t.heads, kept);
    LineageIs(t, c, kept);
  }

  lemma LineageIs(t: Tables, c: int, kept: map<string, seq<LineageRow>>)
    requires kept == CutRows(t.rows, c)
    ensures UnwindLineage(t, c).rows == kept
    ensures UnwindLineage(t, c).heads == map id | id in t.heads && id in kept :: Repoint(t.heads[id], TopRow(kept[id]))
  {
  }

  lemma SameHeads(heads: map<string, LineageHead>, kept: map<string, seq<LineageRow>>)
    requires forall id :: id in kept ==>
      id in heads && kept[id] != [] && Repoint(heads[id], TopRow(kept[id])) == HeadOfRows(kept[id])
    ensures (map id | id in heads && id in kept :: Repoint(heads[id], TopRow(kept[id]))) == HeadsOf(kept)
  {
  }
}
