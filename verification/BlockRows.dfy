/** Row by row: what persisting one block does to the UTXO and spend tables. */
module BlockRows {
  import opened Blocks
  import opened Tables
  import opened Lineage
  import opened Persist
  import opened Truncation
  import opened Layers

  /** The spend keys of the inputs that consume a listed output. */
  function Consuming(inputs: seq<TxInput>, locked: set<Outpoint>): set<SpendKey> {
    set i | i in inputs && Previous(i) in locked :: KeyOf(i)
  }

  /** The tables that a block's spends are read against. */
  function BeforeSpends(cfg: Config, t: Tables, b: Block): Tables
    requires cfg.mapping.Some?
  {
    UpsertAll(Locked(cfg, t, b), b.daa, Dispatched(cfg, cfg.mapping.value, t, b))
  }

  lemma BlockTables(cfg: Config, db: Db, b: Block, u: Tables, after: Tables)
    requires cfg.mapping.Some? && u == BeforeSpends(cfg, db.tables, b) && after == PersistBlock(cfg, db, b).tables
    ensures u.utxos == Locked(cfg, db.tables, b).utxos && u.spends == db.tables.spends
    ensures after.utxos == u.utxos && after.spends == RecordSpends(u, b.content.inputs, b.daa).spends
  {
    var m := cfg.mapping.value;
    HitsTouch(cfg, RecordCommitted(db.tables, b.hash, b.daa), b.content.hits, b);
    UpsertTouches(Locked(cfg, db.tables, b), b.daa, Dispatched(cfg, m, db.tables, b));
    SpentIs(m, u, b);
  }

  lemma SpentIs(m: Mapping, u: Tables, b: Block)
    ensures Spent(m, u, b).utxos == u.utxos
    ensures Spent(m, u, b).spends == RecordSpends(u, b.content.inputs, b.daa).spends
  {
    SpendTouches(u, b.content.inputs, b.daa);
    UpsertTouches(RecordSpends(u, b.content.inputs, b.daa), b.daa,
                  m.onSpends(b.daa, b.hash, b.content.inputs, u.utxos, Snapshot(u)));
  }

  lemma ConsumedIff(t: Tables, inputs: seq<TxInput>, k: SpendKey)
    ensures Consumed(t, inputs, k) <==> k in Consuming(inputs, t.utxos.Keys)
  {
    if Consumed(t, inputs, k) {
      var i :| 0 <= i < |inputs| && KeyOf(inputs[i]) == k;
      assert inputs[i] in inputs;
    }
  }

  /** Which keys the block adds. */
  lemma BlockKeys(cfg: Config, db: Db, b: Block)
    requires cfg.mapping.Some?
    ensures var t, u := db.tables, PersistBlock(cfg, db, b).tables;
      && u.utxos.Keys == t.utxos.Keys + Outpoints(b)
      && u.spends.Keys == t.spends.Keys + Consuming(b.content.inputs, t.utxos.Keys + Outpoints(b))
  {
    var u, after := BeforeSpends(cfg, db.tables, b), PersistBlock(cfg, db, b).tables;
    BlockTables(cfg, db, b, u, after);
    HitsTouch(cfg, RecordCommitted(db.tables, b.hash, b.daa), b.content.hits, b);
    forall k ensures k in after.spends <==> k in u.spends || k in Consuming(b.content.inputs, u.utxos.Keys) {
      RowsAre(u, b.content.inputs, b.daa, k);
      ConsumedIff(u, b.content.inputs, k);
    }
  }

  // ----- Whose DAA a row carries -----

  /** A locked output carries the block's DAA, any other row is as it was. */
  ghost predicate StampedAt(t: Tables, u: Tables, locked: bool, daa: int, o: Outpoint) {
    if locked then o in u.utxos && u.utxos[o].daa == daa
    else (o in u.utxos <==> o in t.utxos) && (o in t.utxos ==> u.utxos[o] == t.utxos[o])
  }

  lemma HitStamps(cfg: Config, t: Tables, u: Tables, hit: Hit, b: Block, o: Outpoint, locked: bool)
    requires StampedAt(t, u, locked, b.daa, o)
    ensures StampedAt(t, PersistHit(u, cfg.render, cfg.gid, hit, b.content, b.daa), locked || o == OutpointOf(hit), b.daa, o)
  {
    TrackedAt(u, cfg.render, cfg.gid, hit, b.content, b.daa);
  }

  lemma {:induction false} HitsStamp(cfg: Config, t: Tables, hits: seq<Hit>, b: Block, o: Outpoint)
    ensures StampedAt(t, PersistHits(cfg, t, hits, b), o in OutpointsOf(hits), b.daa, o)
    decreases |hits|
  {
    if hits != [] {
      var n := |hits| - 1;
      HitsStamp(cfg, t, hits[..n], b, o);
      HitStamps(cfg, t, PersistHits(cfg, t, hits[..n], b), hits[n], b, o, o in OutpointsOf(hits[..n]));
      OutpointsMore(hits, n);
    }
  }

  lemma BlockStamps(cfg: Config, db: Db, b: Block, o: Outpoint)
    requires cfg.mapping.Some? && o in Outpoints(b)
    ensures var u := PersistBlock(cfg, db, b).tables; o in u.utxos && u.utxos[o].daa == b.daa
  {
    BlockTables(cfg, db, b, BeforeSpends(cfg, db.tables, b), PersistBlock(cfg, db, b).tables);
    HitsStamp(cfg, RecordCommitted(db.tables, b.hash, b.daa), b.content.hits, b, o);
  }

  lemma BlockLeaves(cfg: Config, db: Db, b: Block, o: Outpoint)
    requires cfg.mapping.Some? && o !in Outpoints(b) && o in db.tables.utxos
    ensures var u := PersistBlock(cfg, db, b).tables; o in u.utxos && u.utxos[o] == db.tables.utxos[o]
  {
    BlockTables(cfg, db, b, BeforeSpends(cfg, db.tables, b), PersistBlock(cfg, db, b).tables);
    HitsStamp(cfg, RecordCommitted(db.tables, b.hash, b.daa), b.content.hits, b, o);
  }

  /** A recorded spend has the key of an input of the block. */
  lemma ConsumingIsInput(b: Block, locked: set<Outpoint>, k: SpendKey)
    ensures k in Consuming(b.content.inputs, locked) <==> k in SpendKeys(b) && k.previous in locked
  {
  }

  lemma BlockStampsSpend(cfg: Config, db: Db, b: Block, k: SpendKey)
    requires cfg.mapping.Some? && k in SpendKeys(b) && k.previous in db.tables.utxos
    ensures var u := PersistBlock(cfg, db, b).tables; k in u.spends && u.spends[k].daa == b.daa
  {
    var u := BeforeSpends(cfg, db.tables, b);
    BlockTables(cfg, db, b, u, PersistBlock(cfg, db, b).tables);
    HitsTouch(cfg, RecordCommitted(db.tables, b.hash, b.daa), b.content.hits, b);
    ConsumingIsInput(b, u.utxos.Keys, k);
    ConsumedIff(u, b.content.inputs, k);
    RowsAre(u, b.content.inputs, b.daa, k);
  }

  lemma BlockLeavesSpend(cfg: Config, db: Db, b: Block, k: SpendKey)
    requires cfg.mapping.Some? && k !in SpendKeys(b) && k in db.tables.spends
    ensures var u := PersistBlock(cfg, db, b).tables; k in u.spends && u.spends[k] == db.tables.spends[k]
  {
    var u := BeforeSpends(cfg, db.tables, b);
    BlockTables(cfg, db, b, u, PersistBlock(cfg, db, b).tables);
    ConsumingIsInput(b, u.utxos.Keys, k);
    ConsumedIff(u, b.content.inputs, k);
    RowsAre(u, b.content.inputs, b.daa, k);
  }

  /** A row that is not from below the cut never becomes one. */
  lemma BlockStaysFresh(cfg: Config, db: Db, b: Block, c: int, o: Outpoint)
    requires c <= b.daa && FreshOutpoint(db.tables, o, c)
    ensures FreshOutpoint(PersistBlock(cfg, db, b).tables, o, c)
  {
    if cfg.mapping.Some? {
      BlockTables(cfg, db, b, BeforeSpends(cfg, db.tables, b), PersistBlock(cfg, db, b).tables);
      HitsStamp(cfg, RecordCommitted(db.tables, b.hash, b.daa), b.content.hits, b, o);
    }
  }

  lemma BlockStaysFreshSpend(cfg: Config, db: Db, b: Block, c: int, k: SpendKey)
    requires c <= b.daa && FreshSpend(db.tables, k, c)
    ensures FreshSpend(PersistBlock(cfg, db, b).tables, k, c)
  {
    if cfg.mapping.Some? {
      var u := BeforeSpends(cfg, db.tables, b);
      BlockTables(cfg, db, b, u, PersistBlock(cfg, db, b).tables);
      RowsAre(u, b.content.inputs, b.daa, k);
    }
  }
}
