/** Why an unwind is exact: cutting the tables at a DAA undoes every block at or
    above it, provided no such block overwrote an older row. */
module Truncation {
  import opened CanonicalBytes
  import opened Blocks
  import opened UtxoText
  import opened Tables
  import opened Lineage
  import opened Persist

  /** The head a lineage's rows call for, in the form the unwind re-points to. */
  function HeadOfRows(rs: seq<LineageRow>): LineageHead
    requires rs != []
  {
    var last := rs[|rs| - 1];
    LineageHead(rs[0].outpoint.tx, Utxo(last.outpoint.tx, last.outpoint.index), last.daa, |rs|)
  }

  function HeadsOf(rows: map<string, seq<LineageRow>>): map<string, LineageHead> {
    map id | id in rows && rows[id] != [] :: HeadOfRows(rows[id])
  }

  /** Everything stamped below the cut, and the heads of the rows that are left. */
  function CutAt(t: Tables, c: int): Tables {
    var kept := CutRows(t.rows, c);
    Tables(map h | h in t.committed && t.committed[h] < c :: t.committed[h],
           map d | d in t.poi && d < c :: t.poi[d],
           UnwindEntities(t, c).entities, UnwindUtxos(t, c).utxos, UnwindSpends(t, c).spends,
           kept, HeadsOf(kept))
  }

  // ----- A block at or above the cut leaves nothing below it -----

  /** Nothing a block writes at or above `c` replaces a row from below `c`. */
  ghost predicate Fresh(t: Tables, b: Block, c: int) {
    && (b.hash in t.committed ==> c <= t.committed[b.hash])
    && (forall i :: 0 <= i < |b.content.hits| ==> FreshOutpoint(t, OutpointOf(b.content.hits[i]), c))
    && (forall i :: 0 <= i < |b.content.inputs| ==> FreshSpend(t, KeyOf(b.content.inputs[i]), c))
  }

  ghost predicate FreshOutpoint(t: Tables, o: Outpoint, c: int) {
    o in t.utxos ==> c <= t.utxos[o].daa
  }

  ghost predicate FreshSpend(t: Tables, k: SpendKey, c: int) {
    k in t.spends ==> c <= t.spends[k].daa
  }

  lemma BelowAppend(rs: seq<LineageRow>, r: LineageRow, c: int)
    requires c <= r.daa
    ensures Below(rs + [r], c) == Below(rs, c)
  {
    assert (rs + [r])[..|rs + [r]| - 1] == rs;
  }

  lemma CutRowsAppend(rows: map<string, seq<LineageRow>>, id: string, r: LineageRow, c: int)
    requires c <= r.daa
    ensures CutRows(rows[id := (if id in rows then rows[id] else []) + [r]], c) == CutRows(rows, c)
  {
    BelowAppend(if id in rows then rows[id] else [], r, c);
  }

  lemma HitRowsAboveCut(cfg: Config, t: Tables, hit: Hit, content: Content, daa: int, c: int)
    requires c <= daa
    ensures CutRows(PersistHit(t, cfg.render, cfg.gid, hit, content, daa).rows, c) == CutRows(t.rows, c)
  {
    var class_ := Classify(t, cfg.gid, hit, content.inputs);
    var prior := FetchHead(t, class_.id);
    PersistedAt(t, cfg.render, cfg.gid, hit, content, daa, class_, prior,
                PersistHit(t, cfg.render, cfg.gid, hit, content, daa));
    if !RowExists(t, class_.id, OutpointOf(hit)) {
      CutRowsAppend(t.rows, class_.id, NextRow(prior, cfg.render, hit, class_, daa), c);
    }
  }

  lemma UtxoAboveCut(t: Tables, o: Outpoint, u: CovenantUtxo, c: int)
    requires c <= u.daa && FreshOutpoint(t, o, c)
    ensures UnwindUtxos(TrackUtxo(t, o, u), c).utxos == UnwindUtxos(t, c).utxos
  {
  }

  lemma HitAboveCut(cfg: Config, t: Tables, hit: Hit, content: Content, daa: int, c: int)
    requires c <= daa && FreshOutpoint(t, OutpointOf(hit), c)
    ensures CutAt(PersistHit(t, cfg.render, cfg.gid, hit, content, daa), c) == CutAt(t, c)
  {
    HitRowsAboveCut(cfg, t, hit, content, daa, c);
    TrackedAt(t, cfg.render, cfg.gid, hit, content, daa);
    UtxoAboveCut(t, OutpointOf(hit), UtxoOf(t, cfg.gid, hit, content, daa), c);
  }

  lemma HitStaysFresh(cfg: Config, t: Tables, hit: Hit, content: Content, daa: int, c: int, o: Outpoint)
    requires c <= daa && FreshOutpoint(t, o, c)
    ensures FreshOutpoint(PersistHit(t, cfg.render, cfg.gid, hit, content, daa), o, c)
  {
    TrackedAt(t, cfg.render, cfg.gid, hit, content, daa);
  }

  lemma {:induction false} HitsAboveCut(cfg: Config, t: Tables, hits: seq<Hit>, b: Block, c: int)
    requires c <= b.daa
    requires forall i :: 0 <= i < |hits| ==> FreshOutpoint(t, OutpointOf(hits[i]), c)
    ensures CutAt(PersistHits(cfg, t, hits, b), c) == CutAt(t, c)
    ensures PersistHits(cfg, t, hits, b).spends == t.spends
    ensures forall o :: FreshOutpoint(t, o, c) ==> FreshOutpoint(PersistHits(cfg, t, hits, b), o, c)
  {
    if hits != [] {
      var n := |hits| - 1;
      var before := PersistHits(cfg, t, hits[..n], b);
      HitsAboveCut(cfg, t, hits[..n], b, c);
      HitAboveCut(cfg, before, hits[n], b.content, b.daa, c);
      TrackedAt(before, cfg.render, cfg.gid, hits[n], b.content, b.daa);
      forall o | FreshOutpoint(t, o, c) ensures FreshOutpoint(PersistHits(cfg, t, hits, b), o, c) {
        HitStaysFresh(cfg, before, hits[n], b.content, b.daa, c, o);
      }
    }
  }

  lemma {:induction false} UpsertsAboveCut(t: Tables, daa: int, es: seq<Entity>, c: int)
    requires c <= daa
    ensures CutAt(UpsertAll(t, daa, es), c) == CutAt(t, c)
    ensures UpsertAll(t, daa, es) == t.(entities := UpsertAll(t, daa, es).entities)
  {
    if es != [] {
      var n := |es| - 1;
      UpsertsAboveCut(t, daa, es[..n], c);
      var before, after := UpsertAll(t, daa, es[..n]), UpsertAll(t, daa, es);
      assert UnwindEntities(after, c).entities == UnwindEntities(before, c).entities;
    }
  }

  lemma {:induction false} SpendsAboveCut(t: Tables, inputs: seq<TxInput>, daa: int, c: int)
    requires c <= daa
    requires forall i :: 0 <= i < |inputs| ==> FreshSpend(t, KeyOf(inputs[i]), c)
    ensures CutAt(RecordSpends(t, inputs, daa), c) == CutAt(t, c)
    ensures forall k :: FreshSpend(t, k, c) ==> FreshSpend(RecordSpends(t, inputs, daa), k, c)
  {
    if inputs != [] {
      var n := |inputs| - 1;
      SpendsAboveCut(t, inputs[..n], daa, c);
      var before, after := RecordSpends(t, inputs[..n], daa), RecordSpends(t, inputs, daa);
      assert FreshSpend(before, KeyOf(inputs[n]), c);
      assert UnwindSpends(after, c).spends == UnwindSpends(before, c).spends;
    }
  }

  lemma CommittedAboveCut(t: Tables, hash: string, daa: int, c: int)
    requires c <= daa && (hash in t.committed ==> c <= t.committed[hash])
    ensures CutAt(RecordCommitted(t, hash, daa), c) == CutAt(t, c)
  {
    var after := RecordCommitted(t, hash, daa);
    assert (map h | h in after.committed && after.committed[h] < c :: after.committed[h])
        == (map h | h in t.committed && t.committed[h] < c :: t.committed[h]);
  }

  lemma PoiAboveCut(t: Tables, daa: int, poi: Poi.PoiHash, c: int)
    requires c <= daa
    ensures CutAt(InsertPoi(t, daa, poi), c) == CutAt(t, c)
  {
    var after := InsertPoi(t, daa, poi);
    assert (map d | d in after.poi && d < c :: after.poi[d]) == (map d | d in t.poi && d < c :: t.poi[d]);
  }

  lemma SpentAboveCut(m: Mapping, t: Tables, b: Block, c: int)
    requires c <= b.daa
    requires forall i :: 0 <= i < |b.content.inputs| ==> FreshSpend(t, KeyOf(b.content.inputs[i]), c)
    ensures CutAt(Spent(m, t, b), c) == CutAt(t, c)
  {
    SpendsAboveCut(t, b.content.inputs, b.daa, c);
    if b.content.inputs != [] {
      UpsertsAboveCut(RecordSpends(t, b.content.inputs, b.daa), b.daa,
                      m.onSpends(b.daa, b.hash, b.content.inputs, t.utxos, Snapshot(t)), c);
    }
  }

  /** Persisting a block leaves everything below the cut as it was. */
  lemma BlockAboveCut(cfg: Config, db: Db, b: Block, c: int)
    requires c <= b.daa && Fresh(db.tables, b, c)
    ensures CutAt(PersistBlock(cfg, db, b).tables, c) == CutAt(db.tables, c)
  {
    var t := db.tables;
    CommittedAboveCut(t, b.hash, b.daa, c);
    PoiAboveCut(WriteBlock(cfg, t, b), b.daa, PersistBlock(cfg, db, b).prior, c);
    if cfg.mapping.Some? {
      var m := cfg.mapping.value;
      var t1 := RecordCommitted(t, b.hash, b.daa);
      HitsAboveCut(cfg, t1, b.content.hits, b, c);
      var t2 := Locked(cfg, t, b);
      UpsertsAboveCut(t2, b.daa, Dispatched(cfg, m, t, b), c);
      SpentAboveCut(m, UpsertAll(t2, b.daa, Dispatched(cfg, m, t, b)), b, c);
    }
  }
}
