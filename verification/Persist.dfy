/** The persist loop (crates/kasgraph-node/src/main.rs:817-1322): what a committed
    block writes, and how a notification is applied to memory and store together.
    The wasm mapping is a deterministic function of what the node hands it. */
module Persist {
  import opened Prelude
  import opened StableSort
  import opened CanonicalJson
  import opened CanonicalBytes
  import opened Poi
  import opened Blocks
  import opened Ingestion
  import opened Tables
  import opened Lineage

  type EntityState = map<Key, Json>

  /** The loaded mapping: the entities its lock handlers emit for a block's hits,
      and those its spend handlers emit for a block's consumed covenant UTXOs. */
  datatype Mapping = Mapping(
    onHits: (int, string, seq<Hit>, EntityState) -> seq<Entity>,
    onSpends: (int, string, seq<TxInput>, map<Outpoint, CovenantUtxo>, EntityState) -> seq<Entity>)

  datatype Config = Config(hash: HashFn, render: Printer, gid: GenesisId, mapping: Option<Mapping>)

  /** What survives in the store, with the in-memory hash-chain anchor. */
  datatype Db = Db(tables: Tables, prior: PoiHash)

  function PersistHits(cfg: Config, t: Tables, hits: seq<Hit>, b: Block): Tables {
    if hits == [] then t
    else
      var n := |hits| - 1;
      PersistHit(PersistHits(cfg, t, hits[..n], b), cfg.render, cfg.gid, hits[n], b.content, b.daa)
  }

  function UpsertAll(t: Tables, daa: int, es: seq<Entity>): Tables {
    if es == [] then t
    else
      var n := |es| - 1;
      UpsertVersion(UpsertAll(t, daa, es[..n]), daa, es[n])
  }

  function UpsertVersion(t: Tables, daa: int, e: Entity): Tables {
    UpsertEntity(t, EntityKey(e.entityType, e.entityId, daa), e.state)
  }

  /** The covenant a spend continues under: its own id, when the spending
      transaction produced a tracked output that carries it. */
  predicate Continues(t: Tables, spendingTx: string, id: string) {
    exists o :: o in t.utxos && o.tx == spendingTx && t.utxos[o].covenantId == Some(id)
  }

  function SpendOf(t: Tables, i: TxInput, daa: int): CovenantSpend
    requires Previous(i) in t.utxos
  {
    var spent := t.utxos[Previous(i)];
    var successor := if spent.covenantId.Some? && Continues(t, i.spendingTx, spent.covenantId.value)
                     then spent.covenantId else None;
    CovenantSpend(daa, spent.kind, spent.covenantId, spent.value, successor)
  }

  function KeyOf(i: TxInput): SpendKey { SpendKey(i.spendingTx, Previous(i)) }

  /** One row per input that consumes a tracked UTXO. */
  function RecordSpends(t: Tables, inputs: seq<TxInput>, daa: int): Tables {
    if inputs == [] then t
    else
      var n := |inputs| - 1;
      SpendNext(RecordSpends(t, inputs[..n], daa), inputs[n], daa)
  }

  function SpendNext(t: Tables, i: TxInput, daa: int): Tables {
    if Previous(i) in t.utxos then RecordSpend(t, KeyOf(i), SpendOf(t, i, daa)) else t
  }

  // ----- A spend row depends on its key only, so the inputs' order never matters -----

  predicate Consumed(t: Tables, inputs: seq<TxInput>, k: SpendKey) {
    k.previous in t.utxos && exists i :: 0 <= i < |inputs| && KeyOf(inputs[i]) == k
  }

  function InputOf(k: SpendKey): TxInput { TxInput(k.spendingTx, k.previous.tx, ToU32(k.previous.index)) }

  ghost predicate RecordedAt(t: Tables, inputs: seq<TxInput>, daa: int, k: SpendKey, after: Tables) {
    if Consumed(t, inputs, k) then k in after.spends && after.spends[k] == SpendOf(t, InputOf(k), daa)
    else (k in after.spends <==> k in t.spends) && (k in t.spends ==> after.spends[k] == t.spends[k])
  }

  lemma KeyIsInput(i: TxInput)
    ensures InputOf(KeyOf(i)) == i
  {
  }

  lemma {:induction false} OnlySpends(t: Tables, inputs: seq<TxInput>, daa: int)
    ensures RecordSpends(t, inputs, daa) == t.(spends := RecordSpends(t, inputs, daa).spends)
  {
    if inputs != [] {
      OnlySpends(t, inputs[..|inputs| - 1], daa);
    }
  }

  lemma ConsumedNext(t: Tables, inputs: seq<TxInput>, n: nat, k: SpendKey)
    requires |inputs| == n + 1
    ensures Consumed(t, inputs, k) <==>
      Consumed(t, inputs[..n], k) || (k == KeyOf(inputs[n]) && Previous(inputs[n]) in t.utxos)
  {
    if Consumed(t, inputs, k) && k != KeyOf(inputs[n]) {
      var i :| 0 <= i < |inputs| && KeyOf(inputs[i]) == k;
      assert inputs[..n][i] == inputs[i];
    }
  }

  lemma RowsNext(t: Tables, inputs: seq<TxInput>, n: nat, daa: int, k: SpendKey, before: Tables)
    requires |inputs| == n + 1 && RecordedAt(t, inputs[..n], daa, k, before) && before == t.(spends := before.spends)
    ensures RecordedAt(t, inputs, daa, k, SpendNext(before, inputs[n], daa))
  {
    ConsumedNext(t, inputs, n, k);
    KeyIsInput(inputs[n]);
  }

  lemma {:induction false} RowsAre(t: Tables, inputs: seq<TxInput>, daa: int, k: SpendKey)
    ensures RecordedAt(t, inputs, daa, k, RecordSpends(t, inputs, daa))
  {
    if inputs != [] {
      var n := |inputs| - 1;
      RowsAre(t, inputs[..n], daa, k);
      OnlySpends(t, inputs[..n], daa);
      RowsNext(t, inputs, n, daa, k, RecordSpends(t, inputs[..n], daa));
    }
  }

  /** Lists with the same consuming inputs leave the same table, whatever their order. */
  lemma SpendOrderIsIrrelevant(t: Tables, xs: seq<TxInput>, ys: seq<TxInput>, daa: int)
    requires forall i :: Previous(i) in t.utxos ==> (i in xs <==> i in ys)
    ensures RecordSpends(t, xs, daa) == RecordSpends(t, ys, daa)
  {
    OnlySpends(t, xs, daa);
    OnlySpends(t, ys, daa);
    var u, w := RecordSpends(t, xs, daa), RecordSpends(t, ys, daa);
    forall k ensures RecordedAt(t, xs, daa, k, w) && RecordedAt(t, xs, daa, k, u) {
      RowsAre(t, xs, daa, k);
      RowsAre(t, ys, daa, k);
      if Consumed(t, xs, k) {
        ConsumedToo(t, xs, ys, k);
      }
      if Consumed(t, ys, k) {
        ConsumedToo(t, ys, xs, k);
      }
    }
    SameRows(t, xs, daa, u, w);
  }

  lemma ConsumedToo(t: Tables, xs: seq<TxInput>, ys: seq<TxInput>, k: SpendKey)
    requires forall i :: Previous(i) in t.utxos ==> (i in xs <==> i in ys)
    requires Consumed(t, xs, k)
    ensures Consumed(t, ys, k)
  {
    var i :| 0 <= i < |xs| && KeyOf(xs[i]) == k;
    assert xs[i] in ys;
  }

  lemma SameRows(t: Tables, xs: seq<TxInput>, daa: int, u: Tables, w: Tables)
    requires forall k :: RecordedAt(t, xs, daa, k, w) && RecordedAt(t, xs, daa, k, u)
    ensures u.spends == w.spends
  {
    forall k ensures (k in u.spends <==> k in w.spends) && (k in u.spends ==> u.spends[k] == w.spends[k]) {
      assert RecordedAt(t, xs, daa, k, w) && RecordedAt(t, xs, daa, k, u);
    }
  }

  lemma {:induction false} RecordsJoin(t: Tables, xs: seq<TxInput>, ys: seq<TxInput>, daa: int)
    ensures RecordSpends(t, xs + ys, daa) == RecordSpends(RecordSpends(t, xs, daa), ys, daa)
    decreases |ys|
  {
    if ys == [] {
      assert xs + ys == xs;
    } else {
      var n := |ys| - 1;
      RecordsJoin(t, xs, ys[..n], daa);
      assert (xs + ys)[..|xs + ys| - 1] == xs + ys[..n];
    }
  }

  type Groups = map<string, seq<TxInput>>

  /** The inputs that consume a tracked UTXO, under their spending transactions. */
  ghost predicate Grouped(t: Tables, inputs: seq<TxInput>, groups: Groups) {
    && (forall tx, i :: tx in groups && i in groups[tx] ==> i.spendingTx == tx && i in inputs)
    && (forall i :: i in inputs && Previous(i) in t.utxos ==> i.spendingTx in groups && i in groups[i.spendingTx])
  }

  function GroupNext(t: Tables, groups: Groups, i: TxInput): Groups {
    if Previous(i) !in t.utxos then groups
    else groups[i.spendingTx := (if i.spendingTx in groups then groups[i.spendingTx] else []) + [i]]
  }

  /** The inputs of the groups that are not left. */
  ghost predicate Visited(groups: Groups, left: set<string>, past: seq<TxInput>) {
    forall i :: i in past <==> InGroup(groups, i) && i.spendingTx !in left
  }

  ghost predicate InGroup(groups: Groups, i: TxInput) {
    i.spendingTx in groups && i in groups[i.spendingTx]
  }

  lemma VisitNext(t: Tables, inputs: seq<TxInput>, groups: Groups, left: set<string>, past: seq<TxInput>, tx: string)
    requires Grouped(t, inputs, groups) && tx in left && left <= groups.Keys && Visited(groups, left, past)
    ensures Visited(groups, left - {tx}, past + groups[tx])
  {
    forall i ensures i in past + groups[tx] <==> InGroup(groups, i) && i.spendingTx !in left - {tx} {
      assert i in past + groups[tx] <==> i in past || i in groups[tx];
      assert i in past <==> InGroup(groups, i) && i.spendingTx !in left;
    }
  }

  lemma AllVisited(t: Tables, inputs: seq<TxInput>, groups: Groups, past: seq<TxInput>)
    requires Grouped(t, inputs, groups) && Visited(groups, {}, past)
    ensures forall i :: Previous(i) in t.utxos ==> (i in past <==> i in inputs)
  {
    forall i | Previous(i) in t.utxos ensures i in past <==> i in inputs {
      assert i in past <==> InGroup(groups, i);
    }
  }

  lemma GroupedNext(t: Tables, inputs: seq<TxInput>, i: TxInput, groups: Groups)
    requires Grouped(t, inputs, groups)
    ensures Grouped(t, inputs + [i], GroupNext(t, groups, i))
  {
  }

  /** The tables after a block's hits have been recorded, before dispatch. */
  function Locked(cfg: Config, t: Tables, b: Block): Tables {
    PersistHits(cfg, RecordCommitted(t, b.hash, b.daa), b.content.hits, b)
  }

  function Dispatched(cfg: Config, m: Mapping, t: Tables, b: Block): seq<Entity> {
    if b.content.hits == [] then []
    else m.onHits(b.daa, b.hash, b.content.hits, Snapshot(Locked(cfg, t, b)))
  }

  function Spent(m: Mapping, t: Tables, b: Block): Tables {
    if b.content.inputs == [] then t
    else
      UpsertAll(RecordSpends(t, b.content.inputs, b.daa), b.daa,
                m.onSpends(b.daa, b.hash, b.content.inputs, t.utxos, Snapshot(t)))
  }

  function WriteBlock(cfg: Config, t: Tables, b: Block): Tables {
    match cfg.mapping
    case None => RecordCommitted(t, b.hash, b.daa)
    case Some(m) => Spent(m, UpsertAll(Locked(cfg, t, b), b.daa, Dispatched(cfg, m, t, b)), b)
  }

  /** `committed_poi_input`: the dispatched entity state, or the block's own bytes. */
  function PoiInput(cfg: Config, t: Tables, b: Block): (r: seq<byte>)
    ensures r != []
  {
    match cfg.mapping
    case None => b.content.entityBytes
    case Some(m) => BlockBytes(cfg.render, Dispatched(cfg, m, t, b))
  }

  function PersistBlock(cfg: Config, db: Db, b: Block): Db {
    var poi := cfg.hash(db.prior + PoiInput(cfg, db.tables, b));
    Db(InsertPoi(WriteBlock(cfg, db.tables, b), b.daa, poi), poi)
  }

  /** The hash chain covers what the lock handlers dispatch, and nothing that the
      spend handlers emit: they can be exchanged without changing a block's POI. */
  lemma SpendsAreOutsidePoi(cfg: Config, other: Config, db: Db, b: Block)
    requires cfg.mapping.Some? && other.mapping.Some? && other == cfg.(mapping := other.mapping)
    requires cfg.mapping.value.onHits == other.mapping.value.onHits
    ensures PersistBlock(cfg, db, b).prior == PersistBlock(other, db, b).prior
  {
    SameLocks(cfg, other, RecordCommitted(db.tables, b.hash, b.daa), b.content.hits, b);
    assert PoiInput(cfg, db.tables, b) == PoiInput(other, db.tables, b);
  }

  lemma {:induction false} SameLocks(cfg: Config, other: Config, t: Tables, hits: seq<Hit>, b: Block)
    requires other == cfg.(mapping := other.mapping)
    ensures PersistHits(cfg, t, hits, b) == PersistHits(other, t, hits, b)
    decreases |hits|
  {
    if hits != [] {
      SameLocks(cfg, other, t, hits[..|hits| - 1], b);
    }
  }

  function PersistBlocks(cfg: Config, db: Db, bs: seq<Block>): Db {
    if bs == [] then db
    else PersistBlock(cfg, PersistBlocks(cfg, db, bs[..|bs| - 1]), bs[|bs| - 1])
  }

  function Hashes(bs: seq<Block>): (r: seq<string>)
    ensures |r| == |bs|
    ensures forall i :: 0 <= i < |bs| ==> r[i] == bs[i].hash
  {
    seq(|bs|, i requires 0 <= i < |bs| => bs[i].hash)
  }

  function LowestDaa(bs: seq<Block>): int
    requires bs != []
  {
    if |bs| == 1 then bs[0].daa
    else
      var rest := LowestDaa(bs[1..]);
      if bs[0].daa < rest then bs[0].daa else rest
  }

  /** A reorg's unwind: committed rows and POI rows by hash, everything the
      mapping derived by the lowest unwound DAA. */
  function Unwind(cfg: Config, t: Tables, unwinds: seq<Block>): Tables
    requires unwinds != []
  {
    var cut := UnwindCommitted(t, Hashes(unwinds));
    if cfg.mapping.None? then cut
    else
      var fromDaa := LowestDaa(unwinds);
      UnwindLineage(UnwindSpends(UnwindUtxos(UnwindEntities(cut, fromDaa), fromDaa), fromDaa), fromDaa)
  }

  /** The anchor re-read from the store: the highest surviving checkpoint. */
  function Anchor(t: Tables): PoiHash {
    if LatestPoi(t).Some? then LatestPoi(t).value else GENESIS
  }

  function Reorg(cfg: Config, db: Db, unwinds: seq<Block>): Db {
    if unwinds == [] then db
    else
      var t := Unwind(cfg, db.tables, unwinds);
      Db(t, Anchor(t))
  }

  /** One indexed subgraph: its ingestion view and what it has persisted. */
  datatype Node = Node(view: View, db: Db)

  function NodeStep(cfg: Config, depth: Option<u64>, s: Node, n: Notification): Node {
    var step := NotificationStep(depth, s.view, n);
    Node(step.next, PersistBlocks(cfg, Reorg(cfg, s.db, step.out.unwinds), step.out.writes))
  }

  datatype NotificationOutcome = NotificationOutcome(committedCount: nat, recovery: Option<(u64, u64)>)

  /** The last state of the process: an abort happens before anything is changed. */
  function NodeAfter(cfg: Config, depth: Option<u64>, s: Node, n: Notification): Node {
    if Aborts(n) then s else NodeStep(cfg, depth, s, n)
  }

  /** A restart keeps the store only and re-seeds the chain from it. */
  function Restart(s: Node): Node {
    Node(View(map[], map[]), Db(s.db.tables, Anchor(s.db.tables)))
  }

  // ----- The source's loops, against the functions above -----

  class Store {
    var tables: Tables

    constructor ()
      ensures tables == EMPTY
    {
      tables := EMPTY;
    }
  }

  method PersistHitsLoop(cfg: Config, store: Store, b: Block)
    modifies store
    ensures store.tables == PersistHits(cfg, old(store.tables), b.content.hits, b)
  {
    var hits := b.content.hits;
    for i := 0 to |hits|
      invariant store.tables == PersistHits(cfg, old(store.tables), hits[..i], b)
    {
      assert hits[..i + 1][..i] == hits[..i];
      store.tables := PersistHit(store.tables, cfg.render, cfg.gid, hits[i], b.content, b.daa);
    }
    assert hits[..|hits|] == hits;
  }

  method UpsertLoop(store: Store, daa: int, es: seq<Entity>)
    modifies store
    ensures store.tables == UpsertAll(old(store.tables), daa, es)
  {
    for i := 0 to |es|
      invariant store.tables == UpsertAll(old(store.tables), daa, es[..i])
    {
      assert es[..i + 1][..i] == es[..i];
      store.tables := UpsertVersion(store.tables, daa, es[i]);
    }
    assert es[..|es|] == es;
  }

  method GroupByTx(store: Store, inputs: seq<TxInput>) returns (groups: Groups)
    ensures Grouped(store.tables, inputs, groups)
  {
    groups := map[];
    for i := 0 to |inputs|
      invariant Grouped(store.tables, inputs[..i], groups)
    {
      GroupedNext(store.tables, inputs[..i], inputs[i], groups);
      assert inputs[..i + 1] == inputs[..i] + [inputs[i]];
      groups := GroupNext(store.tables, groups, inputs[i]);
    }
    assert inputs[..|inputs|] == inputs;
  }

  method RecordGroup(store: Store, inputs: seq<TxInput>, daa: int)
    modifies store
    ensures store.tables == RecordSpends(old(store.tables), inputs, daa)
  {
    for i := 0 to |inputs|
      invariant store.tables == RecordSpends(old(store.tables), inputs[..i], daa)
    {
      assert inputs[..i + 1][..i] == inputs[..i];
      if Previous(inputs[i]) in store.tables.utxos {
        store.tables := RecordSpend(store.tables, KeyOf(inputs[i]), SpendOf(store.tables, inputs[i], daa));
      }
    }
    assert inputs[..|inputs|] == inputs;
  }

  /** Groups the inputs by spending transaction, then records group after group, in
      whatever order the groups come. */
  method SpendLoop(store: Store, inputs: seq<TxInput>, daa: int)
    modifies store
    ensures store.tables == RecordSpends(old(store.tables), inputs, daa)
  {
    ghost var t := store.tables;
    var groups := GroupByTx(store, inputs);
    var left := groups.Keys;
    ghost var past: seq<TxInput> := [];
    while left != {}
      invariant left <= groups.Keys && Visited(groups, left, past)
      invariant store.tables == RecordSpends(t, past, daa)
    {
      var tx :| tx in left;
      VisitNext(t, inputs, groups, left, past, tx);
      RecordsJoin(t, past, groups[tx], daa);
      RecordGroup(store, groups[tx], daa);
      past := past + groups[tx];
      left := left - {tx};
    }
    AllVisited(t, inputs, groups, past);
    SpendOrderIsIrrelevant(t, past, inputs, daa);
  }

  /** Persists one committed block and advances the in-memory hash chain. */
  method PersistCommitted(cfg: Config, store: Store, ingestion: IngestionState, b: Block)
    modifies store, ingestion`priorPoi
    ensures Db(store.tables, ingestion.priorPoi) == PersistBlock(cfg, old(Db(store.tables, ingestion.priorPoi)), b)
  {
    ghost var before := store.tables;
    var input: seq<byte> := b.content.entityBytes;
    store.tables := RecordCommitted(store.tables, b.hash, b.daa);
    if cfg.mapping.Some? {
      var m := cfg.mapping.value;
      PersistHitsLoop(cfg, store, b);
      var dispatched := [];
      if b.content.hits != [] {
        dispatched := m.onHits(b.daa, b.hash, b.content.hits, Snapshot(store.tables));
      }
      UpsertLoop(store, b.daa, dispatched);
      if b.content.inputs != [] {
        var emitted := m.onSpends(b.daa, b.hash, b.content.inputs, store.tables.utxos, Snapshot(store.tables));
        SpendLoop(store, b.content.inputs, b.daa);
        UpsertLoop(store, b.daa, emitted);
      }
      input := CanonicalBlockBytes(cfg.render, dispatched);
    }
    assert store.tables == WriteBlock(cfg, before, b) && input == PoiInput(cfg, before, b);
    var poi := ComputePoi(cfg.hash, ingestion.priorPoi, input);
    ingestion.priorPoi := poi.value;
    store.tables := InsertPoi(store.tables, b.daa, poi.value);
  }

  method PersistWrites(cfg: Config, store: Store, ingestion: IngestionState, writes: seq<Block>)
    modifies store, ingestion`priorPoi
    ensures Db(store.tables, ingestion.priorPoi) == PersistBlocks(cfg, old(Db(store.tables, ingestion.priorPoi)), writes)
  {
    for i := 0 to |writes|
      invariant Db(store.tables, ingestion.priorPoi)
             == PersistBlocks(cfg, old(Db(store.tables, ingestion.priorPoi)), writes[..i])
    {
      assert writes[..i + 1][..i] == writes[..i];
      PersistCommitted(cfg, store, ingestion, writes[i]);
    }
    assert writes[..|writes|] == writes;
  }

  /** `apply_and_persist_notification`: memory, store and hash chain move together.
      Without an outcome the node has aborted, with everything as it was. */
  method ApplyAndPersist(cfg: Config, store: Store, ingestion: IngestionState, n: Notification)
    returns (outcome: Option<NotificationOutcome>)
    modifies store, ingestion
    ensures outcome.None? <==> Aborts(n)
    ensures Node(ingestion.GetView(), Db(store.tables, ingestion.priorPoi))
         == NodeAfter(cfg, ingestion.finalityDepth, old(Node(ingestion.GetView(), Db(store.tables, ingestion.priorPoi))), n)
    ensures var out := NotificationStep(ingestion.finalityDepth, old(ingestion.GetView()), n).out;
      outcome.Some? ==> outcome.value == NotificationOutcome(|out.writes|, out.recovery)
  {
    var applied := ingestion.ApplyNotification(n);
    if applied.None? {
      return None;
    }
    var transition := applied.value;
    if transition.unwinds != [] {
      store.tables := Unwind(cfg, store.tables, transition.unwinds);
      ingestion.ReseedPriorPoi(Anchor(store.tables));
    }
    PersistWrites(cfg, store, ingestion, transition.writes);
    return Some(NotificationOutcome(|transition.writes|, transition.recovery));
  }
}
