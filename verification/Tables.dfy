/** The Postgres tables the persist loop writes for one subgraph, and its SQL
    statements as functions on them (crates/kasgraph-store/src/lib.rs). That the
    database does what the statements say is an assumption of the model. */
module Tables {
  import opened Prelude
  import opened OrderedKeys
  import opened StableSort
  import opened CanonicalJson
  import opened Poi
  import opened UtxoText

  /** `output_index` columns are INTEGER: a 32-bit signed value. */
  datatype Outpoint = Outpoint(tx: string, index: i32)

  datatype CovenantUtxo = CovenantUtxo(
    daa: int, kind: string, covenantId: Option<string>, value: i64, lockedState: Json)

  datatype SpendKey = SpendKey(spendingTx: string, previous: Outpoint)

  datatype CovenantSpend = CovenantSpend(
    daa: int, kind: string, covenantId: Option<string>, value: i64, successor: Option<string>)

  datatype EntityKey = EntityKey(entityType: Text, entityId: Text, daa: int)

  datatype LineageRow = LineageRow(
    position: nat, outpoint: Outpoint, parentUtxo: Option<string>, stateBytes: seq<byte>, daa: int)

  datatype LineageHead = LineageHead(genesisTx: string, currentUtxo: string, lastSeenDaa: int, lineageCount: nat)

  /** `rows` lists each covenant id's lineage rows in insertion order. */
  datatype Tables = Tables(
    committed: map<string, int>,
    poi: map<int, PoiHash>,
    entities: map<EntityKey, Json>,
    utxos: map<Outpoint, CovenantUtxo>,
    spends: map<SpendKey, CovenantSpend>,
    rows: map<string, seq<LineageRow>>,
    heads: map<string, LineageHead>)

  const EMPTY := Tables(map[], map[], map[], map[], map[], map[], map[])

  function RowsOf(t: Tables, id: string): seq<LineageRow> {
    if id in t.rows then t.rows[id] else []
  }

  // ----- Inserts and upserts -----

  function RecordCommitted(t: Tables, hash: string, daa: int): Tables {
    t.(committed := t.committed[hash := daa])
  }

  function InsertPoi(t: Tables, daa: int, poi: PoiHash): Tables {
    t.(poi := t.poi[daa := poi])
  }

  function UpsertEntity(t: Tables, key: EntityKey, state: Json): Tables {
    t.(entities := t.entities[key := state])
  }

  function TrackUtxo(t: Tables, outpoint: Outpoint, utxo: CovenantUtxo): Tables {
    t.(utxos := t.utxos[outpoint := utxo])
  }

  function RecordSpend(t: Tables, key: SpendKey, spend: CovenantSpend): Tables {
    t.(spends := t.spends[key := spend])
  }

  /** On conflict the head keeps the `genesis_tx` it was opened with. */
  function UpsertHead(t: Tables, id: string, head: LineageHead): Tables {
    var stored := if id in t.heads then head.(genesisTx := t.heads[id].genesisTx) else head;
    t.(heads := t.heads[id := stored])
  }

  function InsertRow(t: Tables, id: string, row: LineageRow): Tables {
    t.(rows := t.rows[id := RowsOf(t, id) + [row]])
  }

  // ----- Queries -----

  function LatestPoi(t: Tables): Option<PoiHash> {
    if t.poi == map[] then None
    else
      assert t.poi.Keys != {};
      Some(t.poi[Largest(t.poi.Keys)])
  }

  predicate HasOutpoint(rs: seq<LineageRow>, outpoint: Outpoint) {
    exists i :: 0 <= i < |rs| && rs[i].outpoint == outpoint
  }

  predicate RowExists(t: Tables, id: string, outpoint: Outpoint) {
    HasOutpoint(RowsOf(t, id), outpoint)
  }

  /** The current state of every entity: its highest-DAA version. */
  function Snapshot(t: Tables): map<Key, Json> {
    map k | k in t.entities && IsLatest(t.entities, k) :: Key(k.entityType, k.entityId) := t.entities[k]
  }

  predicate IsLatest(entities: map<EntityKey, Json>, k: EntityKey) {
    k in entities && forall j :: j in entities && j.entityType == k.entityType && j.entityId == k.entityId ==> j.daa <= k.daa
  }

  // ----- Reorg unwinds -----

  /** Drops the listed blocks that are committed, with the POI rows at their DAAs. */
  function UnwindCommitted(t: Tables, hashes: seq<string>): Tables {
    var gone := set h | h in t.committed && h in hashes;
    var scores := set h | h in t.committed && h in hashes :: t.committed[h];
    t.(committed := t.committed - gone, poi := t.poi - scores)
  }

  function UnwindEntities(t: Tables, fromDaa: int): Tables {
    t.(entities := map k | k in t.entities && k.daa < fromDaa :: t.entities[k])
  }

  function UnwindUtxos(t: Tables, fromDaa: int): Tables {
    t.(utxos := map k | k in t.utxos && t.utxos[k].daa < fromDaa :: t.utxos[k])
  }

  function UnwindSpends(t: Tables, fromDaa: int): Tables {
    t.(spends := map k | k in t.spends && t.spends[k].daa < fromDaa :: t.spends[k])
  }

  function Below(rs: seq<LineageRow>, fromDaa: int): seq<LineageRow> {
    if rs == [] then []
    else Below(rs[..|rs| - 1], fromDaa)
         + if rs[|rs| - 1].daa < fromDaa then [rs[|rs| - 1]] else []
  }

  function CutRows(rows: map<string, seq<LineageRow>>, fromDaa: int): map<string, seq<LineageRow>> {
    map id | id in rows && Below(rows[id], fromDaa) != [] :: Below(rows[id], fromDaa)
  }

  /** The row a head is re-pointed at: the one with the highest sequence number. */
  function TopRow(rs: seq<LineageRow>): LineageRow
    requires rs != []
  {
    if |rs| == 1 then rs[0]
    else
      var best := TopRow(rs[..|rs| - 1]);
      if best.position < rs[|rs| - 1].position then rs[|rs| - 1] else best
  }

  function Repoint(head: LineageHead, top: LineageRow): LineageHead {
    LineageHead(head.genesisTx, Utxo(top.outpoint.tx, top.outpoint.index), top.daa, top.position + 1)
  }

  function UnwindLineage(t: Tables, fromDaa: int): Tables {
    var kept := CutRows(t.rows, fromDaa);
    t.(rows := kept, heads := map id | id in t.heads && id in kept :: Repoint(t.heads[id], TopRow(kept[id])))
  }
}
