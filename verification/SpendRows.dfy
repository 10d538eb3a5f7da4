/** What a spend row holds: the consumed output's kind, id and value, and as successor its
    id, exactly when the spending transaction put a tracked output under it. */
module SpendRows {
  import opened Prelude
  import opened Blocks
  import opened UtxoText
  import opened Tables
  import opened Lineage
  import opened Persist
  import opened BlockRows

  /** The tracker holds an output of the transaction under the id. */
  ghost predicate Produces(utxos: map<Outpoint, CovenantUtxo>, tx: string, id: string) {
    exists o :: o in utxos && o.tx == tx && utxos[o].covenantId == Some(id)
  }

  /** The row of one input, read against the tracker. */
  ghost predicate RowTells(utxos: map<Outpoint, CovenantUtxo>, spends: map<SpendKey, CovenantSpend>, i: TxInput, daa: int) {
    var spent := Outpoint(i.previousTx, ToI32(i.previousIndex));
    var key := SpendKey(i.spendingTx, spent);
    && spent in utxos && key in spends
    && spends[key].daa == daa && spends[key].kind == utxos[spent].kind
    && spends[key].covenantId == utxos[spent].covenantId && spends[key].value == utxos[spent].value
    && (spends[key].successor.Some? ==> spends[key].successor == utxos[spent].covenantId)
    && (spends[key].successor.Some? <==>
          utxos[spent].covenantId.Some? && Produces(utxos, i.spendingTx, utxos[spent].covenantId.value))
  }

  lemma SpendTells(t: Tables, inputs: seq<TxInput>, j: nat, daa: int)
    requires j < |inputs| && Outpoint(inputs[j].previousTx, ToI32(inputs[j].previousIndex)) in t.utxos
    ensures RowTells(t.utxos, RecordSpends(t, inputs, daa).spends, inputs[j], daa)
  {
    var k := KeyOf(inputs[j]);
    assert Consumed(t, inputs, k);
    RowsAre(t, inputs, daa, k);
    KeyIsInput(inputs[j]);
    if t.utxos[k.previous].covenantId.Some? {
      var id := t.utxos[k.previous].covenantId.value;
      assert Continues(t, inputs[j].spendingTx, id) <==> Produces(t.utxos, inputs[j].spendingTx, id);
    }
  }

  /** Any other row stays as it is. */
  lemma SpendLeaves(t: Tables, inputs: seq<TxInput>, daa: int, k: SpendKey)
    requires k.previous in t.utxos ==> forall j :: 0 <= j < |inputs| ==>
      k != SpendKey(inputs[j].spendingTx, Outpoint(inputs[j].previousTx, ToI32(inputs[j].previousIndex)))
    ensures k in RecordSpends(t, inputs, daa).spends <==> k in t.spends
    ensures k in t.spends ==> RecordSpends(t, inputs, daa).spends[k] == t.spends[k]
  {
    RowsAre(t, inputs, daa, k);
    assert !Consumed(t, inputs, k);
  }

  /** After a block, the row of each of its inputs that consumes a tracked output tells
      what the tracker then holds. */
  lemma BlockSpendTells(cfg: Config, db: Db, b: Block, j: nat, after: Tables)
    requires cfg.mapping.Some? && after == PersistBlock(cfg, db, b).tables && j < |b.content.inputs|
    requires Outpoint(b.content.inputs[j].previousTx, ToI32(b.content.inputs[j].previousIndex)) in after.utxos
    ensures RowTells(after.utxos, after.spends, b.content.inputs[j], b.daa)
  {
    var u := BeforeSpends(cfg, db.tables, b);
    BlockTables(cfg, db, b, u, after);
    SpendTells(u, b.content.inputs, j, b.daa);
  }

  // ----- A transition's input names the lineage it passes on -----

  /** The hit's transaction spends the output of none of these. */
  ghost predicate SpendsNone(hit: Hit, inputs: seq<TxInput>, later: seq<Hit>) {
    later != [] ==>
      var n := |later| - 1;
      SpendsNone(hit, inputs, later[..n]) && !Spends(hit, inputs, OutpointOf(later[n]))
  }

  lemma HitKeepsClass(cfg: Config, t: Tables, hit: Hit, later: Hit, b: Block, after: Tables)
    requires after == PersistHit(t, cfg.render, cfg.gid, later, b.content, b.daa)
    requires !Spends(hit, b.content.inputs, OutpointOf(later))
    ensures Classify(after, cfg.gid, hit, b.content.inputs) == Classify(t, cfg.gid, hit, b.content.inputs)
  {
    TrackedAt(t, cfg.render, cfg.gid, later, b.content, b.daa);
    ClassifySame(t, after, cfg.gid, hit, b.content.inputs);
  }

  /** Such hits do not change what its inputs inherit from. */
  lemma {:induction false} ClassStays(cfg: Config, t: Tables, hit: Hit, later: seq<Hit>, b: Block)
    requires SpendsNone(hit, b.content.inputs, later)
    ensures Classify(PersistHits(cfg, t, later, b), cfg.gid, hit, b.content.inputs)
         == Classify(t, cfg.gid, hit, b.content.inputs)
    decreases |later|
  {
    if later != [] {
      var n := |later| - 1;
      ClassStays(cfg, t, hit, later[..n], b);
      HitKeepsClass(cfg, PersistHits(cfg, t, later[..n], b), hit, later[n], b, PersistHits(cfg, t, later, b));
    }
  }

  ghost predicate HeldUnder(t: Tables, o: Outpoint, id: string) {
    o in t.utxos && t.utxos[o].covenantId == Some(id)
  }

  lemma HitKeepsId(cfg: Config, t: Tables, hit: Hit, later: Hit, b: Block, after: Tables, id: string)
    requires after == PersistHit(t, cfg.render, cfg.gid, later, b.content, b.daa)
    requires id == Classify(t, cfg.gid, hit, b.content.inputs).id
    requires OutpointOf(later) == OutpointOf(hit) || HeldUnder(t, OutpointOf(hit), id)
    ensures HeldUnder(after, OutpointOf(hit), id)
  {
    TrackedAt(t, cfg.render, cfg.gid, later, b.content, b.daa);
    if OutpointOf(later) == OutpointOf(hit) {
      ClassOfOutpoint(t, cfg.gid, later, hit, b.content.inputs);
    }
  }

  /** Once hit, its own output stays tracked under its id, whoever hits it again. */
  lemma {:induction false} IdStays(cfg: Config, t: Tables, hit: Hit, later: seq<Hit>, b: Block, id: string)
    requires later != [] && later[0] == hit && SpendsNone(hit, b.content.inputs, later)
    requires id == Classify(t, cfg.gid, hit, b.content.inputs).id
    ensures HeldUnder(PersistHits(cfg, t, later, b), OutpointOf(hit), id)
    decreases |later|
  {
    var n := |later| - 1;
    if n > 0 {
      IdStays(cfg, t, hit, later[..n], b, id);
    }
    ClassStays(cfg, t, hit, later[..n], b);
    HitKeepsId(cfg, PersistHits(cfg, t, later[..n], b), hit, later[n], b, PersistHits(cfg, t, later, b), id);
  }

  lemma HitsLast(cfg: Config, t: Tables, shorter: seq<Hit>, all: seq<Hit>, b: Block, before: Tables)
    requires |all| == |shorter| + 1 && all[..|shorter|] == shorter && before == PersistHits(cfg, t, shorter, b)
    ensures PersistHits(cfg, t, all, b) == PersistHit(before, cfg.render, cfg.gid, all[|shorter|], b.content, b.daa)
  {
  }

  lemma {:induction false} HitsJoin(cfg: Config, t: Tables, xs: seq<Hit>, ys: seq<Hit>, b: Block, mid: Tables)
    requires mid == PersistHits(cfg, t, xs, b)
    ensures PersistHits(cfg, t, xs + ys, b) == PersistHits(cfg, mid, ys, b)
    decreases |ys|
  {
    if ys == [] {
      JoinNothing(xs);
    } else {
      var n := |ys| - 1;
      var before := PersistHits(cfg, mid, ys[..n], b);
      JoinLast(xs, ys, n);
      HitsJoin(cfg, t, xs, ys[..n], b, mid);
      HitsLast(cfg, t, xs + ys[..n], xs + ys, b, before);
      HitsLast(cfg, mid, ys[..n], ys, b, before);
    }
  }

  /** The input that decides a transition. */
  lemma {:induction false} DecidingInput(t: Tables, gid: GenesisId, hit: Hit, inputs: seq<TxInput>) returns (k: nat)
    requires Classify(t, gid, hit, inputs).Transition?
    ensures k < |inputs| && inputs[k].spendingTx == hit.txHash
    ensures Classify(t, gid, hit, inputs).parentUtxo == Utxo(inputs[k].previousTx, inputs[k].previousIndex)
    ensures var spent := Outpoint(inputs[k].previousTx, ToI32(inputs[k].previousIndex));
      spent in t.utxos && t.utxos[spent].covenantId == Some(Classify(t, gid, hit, inputs).id)
  {
    k := 0;
    if !PassesOn(t, hit, inputs[0]) {
      k := DecidingInput(t, gid, hit, inputs[1..]);
      k := k + 1;
    }
  }

  /** The tables when the hits after `first` come up. */
  function AfterHits(cfg: Config, db: Db, b: Block, first: seq<Hit>): Tables {
    PersistHits(cfg, RecordCommitted(db.tables, b.hash, b.daa), first, b)
  }

  lemma TrackerAfter(cfg: Config, db: Db, b: Block, first: seq<Hit>, later: seq<Hit>, after: Tables)
    requires cfg.mapping.Some? && after == PersistBlock(cfg, db, b).tables && b.content.hits == first + later
    ensures after.utxos == PersistHits(cfg, AfterHits(cfg, db, b, first), later, b).utxos
  {
    HitsJoin(cfg, RecordCommitted(db.tables, b.hash, b.daa), first, later, b, AfterHits(cfg, db, b, first));
    BlockTables(cfg, db, b, BeforeSpends(cfg, db.tables, b), after);
  }

  /** The row names the id as spent and as successor. */
  ghost predicate PassedOn(spends: map<SpendKey, CovenantSpend>, i: TxInput, daa: int, id: string) {
    var key := SpendKey(i.spendingTx, Outpoint(i.previousTx, ToI32(i.previousIndex)));
    key in spends && spends[key].daa == daa && spends[key].covenantId == Some(id) == spends[key].successor
  }

  lemma TellsPassedOn(after: Tables, i: TxInput, daa: int, o: Outpoint, id: string)
    requires RowTells(after.utxos, after.spends, i, daa) && HeldUnder(after, o, id) && o.tx == i.spendingTx
    requires HeldUnder(after, Outpoint(i.previousTx, ToI32(i.previousIndex)), id)
    ensures PassedOn(after.spends, i, daa, id)
  {
    assert Produces(after.utxos, i.spendingTx, id);
  }

  lemma InputPassesOn(cfg: Config, db: Db, b: Block, hit: Hit, t: Tables, c: LineageClass, after: Tables) returns (k: nat)
    requires cfg.mapping.Some? && after == PersistBlock(cfg, db, b).tables && after.utxos == t.utxos
    requires c == Classify(t, cfg.gid, hit, b.content.inputs) && c.Transition? && HeldUnder(t, OutpointOf(hit), c.id)
    ensures k < |b.content.inputs| && b.content.inputs[k].spendingTx == hit.txHash
    ensures c.parentUtxo == Utxo(b.content.inputs[k].previousTx, b.content.inputs[k].previousIndex)
    ensures PassedOn(after.spends, b.content.inputs[k], b.daa, c.id)
  {
    k := DecidingInput(t, cfg.gid, hit, b.content.inputs);
    BlockSpendTells(cfg, db, b, k, after);
    TellsPassedOn(after, b.content.inputs[k], b.daa, OutpointOf(hit), c.id);
  }

  /** After a block, each of its transition hits is answered by a spend row: that of the
      input it inherits from, which names the lineage both as spent and as successor. The
      hits come in an order in which no transaction spends an output listed later. */
  lemma TransitionNamesSuccessor(cfg: Config, db: Db, b: Block, first: seq<Hit>, later: seq<Hit>, c: LineageClass,
                                 after: Tables)
    returns (k: nat)
    requires cfg.mapping.Some? && after == PersistBlock(cfg, db, b).tables
    requires b.content.hits == first + later && later != [] && SpendsNone(later[0], b.content.inputs, later)
    requires c == Classify(AfterHits(cfg, db, b, first), cfg.gid, later[0], b.content.inputs) && c.Transition?
    ensures k < |b.content.inputs| && b.content.inputs[k].spendingTx == later[0].txHash
    ensures c.parentUtxo == Utxo(b.content.inputs[k].previousTx, b.content.inputs[k].previousIndex)
    ensures PassedOn(after.spends, b.content.inputs[k], b.daa, c.id)
  {
    var t := AfterHits(cfg, db, b, first);
    ClassStays(cfg, t, later[0], later, b);
    IdStays(cfg, t, later[0], later, b, c.id);
    TrackerAfter(cfg, db, b, first, later, after);
    k := InputPassesOn(cfg, db, b, later[0], PersistHits(cfg, t, later, b), c, after);
  }
}
