/** The gateway's read-back of a covenant's lineage (api/src/pg-resolvers.ts:347-378,
    453-483): rows in sequence order, each with the edge to its parent and the
    edges to its children. */
module Gateway {
  import opened Prelude
  import opened UtxoText
  import opened Tables
  import opened Lineage
  import opened Persist
  import opened Layers
  import opened ReplaySafety
  import opened FinalArrivals
  import opened ForestRuns

  datatype LineageEntry = LineageEntry(
    position: nat, utxo: string, childUtxos: seq<string>, parentUtxo: Option<string>, daa: int, stateBytes: seq<byte>)

  datatype CovenantLineage = CovenantLineage(
    id: string, genesisTx: string, currentUtxo: string, lineageCount: nat, lastSeenDaa: int, entries: seq<LineageEntry>)

  /** The text a row's own output is shown under: its index as the column holds it. */
  function RowUtxo(r: LineageRow): string { Utxo(r.outpoint.tx, r.outpoint.index) }

  /** The rows that name `p` as their parent, in row order. */
  function ChildrenOf(rows: seq<LineageRow>, p: string): seq<string> {
    if rows == [] then []
    else
      var n := |rows| - 1;
      ChildrenOf(rows[..n], p) + if rows[n].parentUtxo == Some(p) then [RowUtxo(rows[n])] else []
  }

  ghost predicate ChildEdges(byParent: map<string, seq<string>>, rows: seq<LineageRow>) {
    && (forall p :: p in byParent ==> byParent[p] == ChildrenOf(rows, p))
    && (forall p :: p !in byParent ==> ChildrenOf(rows, p) == [])
  }

  method BuildChildEdges(rows: seq<LineageRow>) returns (byParent: map<string, seq<string>>)
    ensures ChildEdges(byParent, rows)
  {
    byParent := map[];
    var i := 0;
    while i < |rows|
      invariant 0 <= i <= |rows|
      invariant ChildEdges(byParent, rows[..i])
    {
      var r := rows[i];
      assert rows[..i + 1][..i] == rows[..i];
      i := i + 1;
      if r.parentUtxo.None? {
        continue;
      }
      var parent := r.parentUtxo.value;
      if parent !in byParent {
        byParent := byParent[parent := [RowUtxo(r)]];
      } else {
        byParent := byParent[parent := byParent[parent] + [RowUtxo(r)]];
      }
    }
    assert rows[..i] == rows;
  }

  function EntryOf(rows: seq<LineageRow>, r: LineageRow): LineageEntry {
    LineageEntry(r.position, RowUtxo(r), ChildrenOf(rows, RowUtxo(r)), r.parentUtxo, r.daa, r.stateBytes)
  }

  function EntriesOf(rows: seq<LineageRow>): (es: seq<LineageEntry>)
    ensures |es| == |rows|
    ensures forall i :: 0 <= i < |rows| ==> es[i] == EntryOf(rows, rows[i])
  {
    seq(|rows|, i requires 0 <= i < |rows| => EntryOf(rows, rows[i]))
  }

  method RowToLineageEntry(r: LineageRow, byParent: map<string, seq<string>>, ghost rows: seq<LineageRow>)
    returns (e: LineageEntry)
    requires ChildEdges(byParent, rows)
    ensures e == EntryOf(rows, r)
  {
    var utxo := RowUtxo(r);
    e := LineageEntry(r.position, utxo, if utxo in byParent then byParent[utxo] else [], r.parentUtxo, r.daa, r.stateBytes);
  }

  /** `ORDER BY seq ASC`. */
  function InsertBySeq(rs: seq<LineageRow>, r: LineageRow): seq<LineageRow> {
    if rs == [] || rs[|rs| - 1].position <= r.position then rs + [r]
    else InsertBySeq(rs[..|rs| - 1], r) + [rs[|rs| - 1]]
  }

  function OrderBySeq(rs: seq<LineageRow>): seq<LineageRow> {
    if rs == [] then [] else InsertBySeq(OrderBySeq(rs[..|rs| - 1]), rs[|rs| - 1])
  }

  /** `covenantLineage`: nothing without a head. */
  function LineageOf(t: Tables, id: string): Option<CovenantLineage> {
    if id !in t.heads then None
    else
      var head := t.heads[id];
      Some(CovenantLineage(id, head.genesisTx, head.currentUtxo, head.lineageCount, head.lastSeenDaa,
                           EntriesOf(OrderBySeq(RowsOf(t, id)))))
  }

  lemma TakeNext<T>(s: seq<T>, i: nat)
    requires i < |s|
    ensures s[..i + 1] == s[..i] + [s[i]]
  {
  }

  method ReadEntries(rows: seq<LineageRow>) returns (entries: seq<LineageEntry>)
    ensures entries == EntriesOf(rows)
  {
    ghost var all := EntriesOf(rows);
    var byParent := BuildChildEdges(rows);
    entries := [];
    for i := 0 to |rows|
      invariant entries == all[..i]
    {
      var e := RowToLineageEntry(rows[i], byParent, rows);
      TakeNext(all, i);
      entries := entries + [e];
    }
  }

  method ReadLineage(t: Tables, id: string) returns (r: Option<CovenantLineage>)
    ensures r == LineageOf(t, id)
  {
    if id !in t.heads {
      return None;
    }
    var head := t.heads[id];
    var entries := ReadEntries(OrderBySeq(RowsOf(t, id)));
    r := Some(CovenantLineage(id, head.genesisTx, head.currentUtxo, head.lineageCount, head.lastSeenDaa, entries));
  }

  // ----- The forward edges invert the backward ones -----

  lemma {:induction false} ChildFound(rows: seq<LineageRow>, p: string, i: nat)
    requires i < |rows| && rows[i].parentUtxo == Some(p)
    ensures RowUtxo(rows[i]) in ChildrenOf(rows, p)
    decreases |rows|
  {
    var n := |rows| - 1;
    if i < n {
      ChildFound(rows[..n], p, i);
    } else {
      assert ChildrenOf(rows, p)[|ChildrenOf(rows[..n], p)|] == RowUtxo(rows[i]);
    }
  }

  lemma {:induction false} ChildSource(rows: seq<LineageRow>, p: string, u: string) returns (i: nat)
    requires u in ChildrenOf(rows, p)
    ensures i < |rows| && rows[i].parentUtxo == Some(p) && RowUtxo(rows[i]) == u
    decreases |rows|
  {
    var n := |rows| - 1;
    if u in ChildrenOf(rows[..n], p) {
      i := ChildSource(rows[..n], p, u);
    } else {
      i := n;
    }
  }

  ghost predicate Distinct(rows: seq<LineageRow>) {
    forall i, j :: 0 <= i < j < |rows| ==> rows[i].outpoint != rows[j].outpoint
  }

  lemma SameRow(rows: seq<LineageRow>, i: nat, j: nat)
    requires Distinct(rows) && i < |rows| && j < |rows| && RowUtxo(rows[i]) == RowUtxo(rows[j])
    ensures i == j
  {
    UtxoInjective(rows[i].outpoint.tx, rows[i].outpoint.index, rows[j].outpoint.tx, rows[j].outpoint.index);
  }

  /** For any two entries of one lineage: `j` is among the children of `i` exactly
      when `i` is the parent of `j`. */
  lemma EdgesAreInverse(rows: seq<LineageRow>, i: nat, j: nat)
    requires Distinct(rows) && i < |rows| && j < |rows|
    ensures var es := EntriesOf(rows);
      es[j].utxo in es[i].childUtxos <==> es[j].parentUtxo == Some(es[i].utxo)
  {
    var p, u := RowUtxo(rows[i]), RowUtxo(rows[j]);
    if u in ChildrenOf(rows, p) {
      var k := ChildSource(rows, p, u);
      SameRow(rows, k, j);
    } else if rows[j].parentUtxo == Some(p) {
      ChildFound(rows, p, j);
    }
  }

  lemma NewChild(rows: seq<LineageRow>, n: nat, p: string, a: nat)
    requires Distinct(rows) && |rows| == n + 1 && a < |ChildrenOf(rows[..n], p)|
    ensures ChildrenOf(rows[..n], p)[a] != RowUtxo(rows[n])
  {
    var i := ChildSource(rows[..n], p, ChildrenOf(rows[..n], p)[a]);
    if RowUtxo(rows[i]) == RowUtxo(rows[n]) {
      SameRow(rows, i, n);
    }
  }

  /** No child is listed twice. */
  lemma {:induction false} ChildrenOnce(rows: seq<LineageRow>, p: string, a: nat, b: nat)
    requires Distinct(rows) && a < b < |ChildrenOf(rows, p)|
    ensures ChildrenOf(rows, p)[a] != ChildrenOf(rows, p)[b]
    decreases |rows|
  {
    var n := |rows| - 1;
    if b < |ChildrenOf(rows[..n], p)| {
      ChildrenOnce(rows[..n], p, a, b);
    } else {
      NewChild(rows, n, p, a);
    }
  }

  // ----- Every entry is reached from the root -----

  ghost predicate Steps(es: seq<LineageEntry>, path: seq<nat>) {
    && path != []
    && (forall k :: 0 <= k < |path| ==> path[k] < |es|)
    && forall k :: 0 <= k < |path| - 1 ==> es[path[k + 1]].utxo in es[path[k]].childUtxos
  }

  /** Some chain of child edges leads from entry 0 to entry `i`. */
  ghost predicate Reached(es: seq<LineageEntry>, i: nat) {
    exists path :: Steps(es, path) && path[0] == 0 && path[|path| - 1] == i
  }

  ghost predicate Unsigned(rows: seq<LineageRow>) {
    forall i :: 0 <= i < |rows| ==> 0 <= rows[i].outpoint.index
  }

  lemma EdgeIsRowUtxo(r: LineageRow)
    ensures EdgeText(r.outpoint) == RowUtxo(r) <==> 0 <= r.outpoint.index
  {
    UtxoInjective(r.outpoint.tx, ToU32(r.outpoint.index), r.outpoint.tx, r.outpoint.index);
  }

  lemma StepOn(es: seq<LineageEntry>, j: nat, i: nat)
    requires Reached(es, j) && j < |es| && i < |es| && es[i].utxo in es[j].childUtxos
    ensures Reached(es, i)
  {
    var path :| Steps(es, path) && path[0] == 0 && path[|path| - 1] == j;
    assert Steps(es, path + [i]);
  }

  lemma {:induction false} AllReached(gid: GenesisId, id: string, rows: seq<LineageRow>, i: nat)
    requires RootedTree(gid, id, rows) && Unsigned(rows) && i < |rows|
    ensures Reached(EntriesOf(rows), i)
    decreases i
  {
    if i == 0 {
      assert Steps(EntriesOf(rows), [0]);
    } else {
      assert HasParent(rows, i);
      var j :| 0 <= j < i && rows[i].parentUtxo.value == EdgeText(rows[j].outpoint);
      EdgeIsRowUtxo(rows[j]);
      EdgesAreInverse(rows, j, i);
      AllReached(gid, id, rows, j);
      StepOn(EntriesOf(rows), j, i);
    }
  }

  // ----- What a client reads after any run -----

  /** A lineage as the API promises it: dense sequence numbers from one root, which is an
      output of the genesis transaction, edges in both directions, every state reached
      from the root, the head at the last. */
  ghost predicate Sensible(l: CovenantLineage) {
    && |l.entries| == l.lineageCount > 0
    && (exists index :: l.entries[0].utxo == Utxo(l.genesisTx, index))
    && Rooted(l.entries) && TwoWay(l.entries) && Forward(l.entries)
    && l.currentUtxo == l.entries[|l.entries| - 1].utxo && l.lastSeenDaa == l.entries[|l.entries| - 1].daa
  }

  ghost predicate Rooted(es: seq<LineageEntry>) {
    forall i :: 0 <= i < |es| ==> es[i].position == i && (es[i].parentUtxo.None? <==> i == 0) && Reached(es, i)
  }

  ghost predicate TwoWay(es: seq<LineageEntry>) {
    forall i, j :: 0 <= i < |es| && 0 <= j < |es| ==>
      (es[j].utxo in es[i].childUtxos <==> es[j].parentUtxo == Some(es[i].utxo))
  }

  ghost predicate Forward(es: seq<LineageEntry>) {
    forall i, j :: 0 <= i < |es| && 0 <= j < |es| && es[j].parentUtxo == Some(es[i].utxo) ==> i < j
  }

  lemma {:induction false} AlreadyOrdered(rs: seq<LineageRow>)
    requires forall i :: 0 <= i < |rs| ==> rs[i].position == i
    ensures OrderBySeq(rs) == rs
  {
    if rs != [] {
      var n := |rs| - 1;
      AlreadyOrdered(rs[..n]);
      AppendedInOrder(rs[..n], rs[n]);
      assert rs[..n] + [rs[n]] == rs;
    }
  }

  lemma AppendedInOrder(rs: seq<LineageRow>, r: LineageRow)
    requires rs == [] || rs[|rs| - 1].position <= r.position
    ensures InsertBySeq(rs, r) == rs + [r]
  {
  }

  /** A row's parent text names one row only, and it is an earlier one. */
  lemma ParentIsEarlier(gid: GenesisId, id: string, rows: seq<LineageRow>, i: nat, j: nat)
    requires RootedTree(gid, id, rows) && Unsigned(rows) && i < |rows| && j < |rows|
    requires rows[j].parentUtxo == Some(RowUtxo(rows[i]))
    ensures i < j
  {
    assert j != 0;
    assert HasParent(rows, j);
    var k :| 0 <= k < j && rows[j].parentUtxo.value == EdgeText(rows[k].outpoint);
    EdgeIsRowUtxo(rows[k]);
    SameRow(rows, k, i);
  }

  lemma TreeIsRooted(gid: GenesisId, id: string, rows: seq<LineageRow>)
    requires RootedTree(gid, id, rows) && Unsigned(rows)
    ensures Rooted(EntriesOf(rows))
  {
    var es := EntriesOf(rows);
    forall i | 0 <= i < |es| ensures es[i].position == i && (es[i].parentUtxo.None? <==> i == 0) && Reached(es, i) {
      AllReached(gid, id, rows, i);
      assert i > 0 ==> HasParent(rows, i);
    }
  }

  lemma TreeIsTwoWay(rows: seq<LineageRow>)
    requires Distinct(rows)
    ensures TwoWay(EntriesOf(rows))
  {
    var es := EntriesOf(rows);
    forall i, j | 0 <= i < |es| && 0 <= j < |es|
      ensures es[j].utxo in es[i].childUtxos <==> es[j].parentUtxo == Some(es[i].utxo)
    {
      EdgesAreInverse(rows, i, j);
    }
  }

  lemma TreeIsForward(gid: GenesisId, id: string, rows: seq<LineageRow>)
    requires RootedTree(gid, id, rows) && Unsigned(rows)
    ensures Forward(EntriesOf(rows))
  {
    var es := EntriesOf(rows);
    forall i, j | 0 <= i < |es| && 0 <= j < |es| && es[j].parentUtxo == Some(es[i].utxo) ensures i < j {
      ParentIsEarlier(gid, id, rows, i, j);
    }
  }

  lemma TreeIsSensible(gid: GenesisId, id: string, rows: seq<LineageRow>, head: LineageHead)
    requires RootedTree(gid, id, rows) && HeadMatches(head, rows) && Unsigned(rows)
    ensures Sensible(CovenantLineage(id, head.genesisTx, head.currentUtxo, head.lineageCount, head.lastSeenDaa, EntriesOf(rows)))
  {
    TreeIsRooted(gid, id, rows);
    TreeIsTwoWay(rows);
    TreeIsForward(gid, id, rows);
    EdgeIsRowUtxo(rows[|rows| - 1]);
    assert EntriesOf(rows)[0].utxo == Utxo(head.genesisTx, rows[0].outpoint.index);
  }

  /** The entries are the rows, in order and field by field. */
  ghost predicate Tells(l: CovenantLineage, id: string, rows: seq<LineageRow>) {
    && l.id == id && |l.entries| == |rows|
    && forall i :: 0 <= i < |rows| ==>
         && l.entries[i].position == rows[i].position && l.entries[i].parentUtxo == rows[i].parentUtxo
         && l.entries[i].utxo == Utxo(rows[i].outpoint.tx, rows[i].outpoint.index)
         && l.entries[i].daa == rows[i].daa && l.entries[i].stateBytes == rows[i].stateBytes
  }

  lemma ServedFromForest(cfg: Config, t: Tables, id: string, limit: int)
    requires Layered(cfg, t, limit)
    ensures LineageOf(t, id).Some? <==> RowsOf(t, id) != []
    ensures LineageOf(t, id).Some? ==>
      Sensible(LineageOf(t, id).value) && Tells(LineageOf(t, id).value, id, RowsOf(t, id))
  {
    if id in t.heads {
      assert Sound(t, cfg.gid, id) && RowsBounded(t.rows[id], limit);
      AlreadyOrdered(t.rows[id]);
      TreeIsSensible(cfg.gid, id, t.rows[id], t.heads[id]);
    }
  }

  /** Whatever reorgs and restarts an indexer went through, and whatever rows its reorgs
      took along, every lineage it serves is such a tree and shows the rows field by field,
      and it serves one for exactly the ids it has rows of. */
  lemma ServedLineageIsSensible(cfg: Config, depth: Option<u64>, es: seq<Event>, id: string)
    requires Sane(cfg) && cfg.mapping.Some? && SuffixRun(depth, es)
    ensures var t := RunNode(cfg, depth, es).db.tables;
      && (LineageOf(t, id).Some? <==> RowsOf(t, id) != [])
      && (LineageOf(t, id).Some? ==> Sensible(LineageOf(t, id).value) && Tells(LineageOf(t, id).value, id, RowsOf(t, id)))
  {
    var limit := RunGrown(cfg, depth, es);
    ServedFromForest(cfg, RunNode(cfg, depth, es).db.tables, id, limit);
  }

  // ----- Output indices of 2^31 and above -----

  /** A parent edge is written with the unsigned index, a row's own output is read
      back with the signed one: the edge is found again exactly when the parent's
      index is below 2^31. */
  lemma LargeIndexLosesChildren(rows: seq<LineageRow>, i: nat, j: nat)
    requires Distinct(rows) && i < |rows| && j < |rows|
    requires rows[j].parentUtxo == Some(EdgeText(rows[i].outpoint))
    ensures EntriesOf(rows)[j].utxo in EntriesOf(rows)[i].childUtxos <==> ToU32(rows[i].outpoint.index) < TWO_31
  {
    EdgesAreInverse(rows, i, j);
    EdgeIsRowUtxo(rows[i]);
  }
}
