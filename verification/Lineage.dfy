/** KIP-20 lineage recording (crates/kasgraph-node/src/main.rs:1610-1739). */
module Lineage {
  import opened Prelude
  import opened CanonicalBytes
  import opened Blocks
  import opened UtxoText
  import opened Tables

  /** The deterministic id of a covenant first seen at an outpoint. */
  type GenesisId = (string, u32) -> string

  datatype LineageClass =
    | Genesis(id: string)
    | Transition(id: string, parentUtxo: string)
  {
    function Parent(): Option<string> {
      if Genesis? then None else Some(parentUtxo)
    }
  }

  function Previous(i: TxInput): Outpoint { Outpoint(i.previousTx, ToI32(i.previousIndex)) }

  function OutpointOf(h: Hit): Outpoint { Outpoint(h.txHash, ToI32(h.index)) }

  /** The first input of the hit's transaction that consumes a tracked covenant
      UTXO passes its id on; without one the hit opens a new lineage. */
  function Classify(t: Tables, gid: GenesisId, hit: Hit, inputs: seq<TxInput>): LineageClass {
    if inputs == [] then Genesis(gid(hit.txHash, hit.index))
    else
      var i := inputs[0];
      if i.spendingTx == hit.txHash && Previous(i) in t.utxos && t.utxos[Previous(i)].covenantId.Some?
      then Transition(t.utxos[Previous(i)].covenantId.value, Utxo(i.previousTx, i.previousIndex))
      else Classify(t, gid, hit, inputs[1..])
  }

  /** The next `(seq, lineage_count)` from the prior head's count. */
  function NextLineageStep(prior: Option<nat>): (nat, nat) {
    var position := if prior.Some? then prior.value else 0;
    (position, position + 1)
  }

  function FetchHead(t: Tables, id: string): Option<LineageHead> {
    if id in t.heads then Some(t.heads[id]) else None
  }

  /** The head the step leaves, and the row it appends. */
  function NextHead(prior: Option<LineageHead>, hit: Hit, daa: int): LineageHead {
    var genesisTx := if prior.Some? then prior.value.genesisTx else hit.txHash;
    LineageHead(genesisTx, Utxo(hit.txHash, hit.index), daa, NextLineageStep(CountOf(prior)).1)
  }

  function NextRow(prior: Option<LineageHead>, render: Printer, hit: Hit, class_: LineageClass, daa: int): LineageRow {
    LineageRow(NextLineageStep(CountOf(prior)).0, OutpointOf(hit), class_.Parent(), render(hit.payload), daa)
  }

  function CountOf(prior: Option<LineageHead>): Option<nat> {
    if prior.Some? then Some(prior.value.lineageCount) else None
  }

  function PersistLineage(t: Tables, render: Printer, hit: Hit, class_: LineageClass, daa: int): Tables {
    if RowExists(t, class_.id, OutpointOf(hit)) then t
    else
      var prior := FetchHead(t, class_.id);
      InsertRow(UpsertHead(t, class_.id, NextHead(prior, hit, daa)), class_.id, NextRow(prior, render, hit, class_, daa))
  }

  /** The locked output's value, read from the block's outputs. */
  function LockedValue(hit: Hit, outputs: seq<TxOutput>): i64 {
    if outputs == [] then 0
    else if outputs[0].txHash == hit.txHash && outputs[0].index == hit.index then ToI64(outputs[0].value)
    else LockedValue(hit, outputs[1..])
  }

  /** Classify a hit, track its output as a covenant UTXO, record its lineage step. */
  function PersistHit(t: Tables, render: Printer, gid: GenesisId, hit: Hit, content: Content, daa: int): Tables {
    var class_ := Classify(t, gid, hit, content.inputs);
    PersistLineage(TrackUtxo(t, OutpointOf(hit), UtxoOf(t, gid, hit, content, daa)), render, hit, class_, daa)
  }

  function UtxoOf(t: Tables, gid: GenesisId, hit: Hit, content: Content, daa: int): CovenantUtxo {
    CovenantUtxo(daa, hit.kind, Some(Classify(t, gid, hit, content.inputs).id),
                 LockedValue(hit, content.outputs), hit.payload)
  }

  // ----- The rows of one covenant id form a rooted tree -----

  /** The text a parent edge to this row's output carries. */
  function EdgeText(o: Outpoint): string { Utxo(o.tx, ToU32(o.index)) }

  ghost predicate RootedTree(gid: GenesisId, id: string, rs: seq<LineageRow>) {
    && rs != []
    && (forall i :: 0 <= i < |rs| ==> rs[i].position == i)
    && (forall i, j :: 0 <= i < j < |rs| ==> rs[i].outpoint != rs[j].outpoint)
    && rs[0].parentUtxo == None && id == gid(rs[0].outpoint.tx, ToU32(rs[0].outpoint.index))
    && forall i :: 0 < i < |rs| ==> HasParent(rs, i)
  }

  /** Row `i` came from an earlier row of the same id. */
  ghost predicate HasParent(rs: seq<LineageRow>, i: nat)
    requires i < |rs|
  {
    rs[i].parentUtxo.Some? && exists j :: 0 <= j < i && rs[i].parentUtxo.value == EdgeText(rs[j].outpoint)
  }

  ghost predicate HeadMatches(head: LineageHead, rs: seq<LineageRow>) {
    rs != [] && head == LineageHead(
      rs[0].outpoint.tx, EdgeText(rs[|rs| - 1].outpoint), rs[|rs| - 1].daa, |rs|)
  }

  ghost predicate Sound(t: Tables, gid: GenesisId, id: string) {
    && id in t.rows && id in t.heads
    && RootedTree(gid, id, t.rows[id]) && HeadMatches(t.heads[id], t.rows[id])
  }

  ghost predicate Tracked(t: Tables, o: Outpoint) {
    o in t.utxos && t.utxos[o].covenantId.Some? && RowExists(t, t.utxos[o].covenantId.value, o)
  }

  ghost predicate Forest(t: Tables, gid: GenesisId) {
    && t.rows.Keys == t.heads.Keys
    && (forall id :: id in t.rows ==> Sound(t, gid, id))
    && (forall o :: o in t.utxos ==> Tracked(t, o))
  }

  ghost predicate GenesisInjective(gid: GenesisId) {
    forall tx, i, tx', i' :: gid(tx, i) == gid(tx', i') ==> tx == tx' && i == i'
  }

  lemma {:induction false} TransitionFrom(t: Tables, gid: GenesisId, hit: Hit, inputs: seq<TxInput>) returns (i: TxInput)
    requires Classify(t, gid, hit, inputs).Transition?
    ensures Previous(i) in t.utxos && t.utxos[Previous(i)].covenantId == Some(Classify(t, gid, hit, inputs).id)
    ensures Classify(t, gid, hit, inputs).parentUtxo == EdgeText(Previous(i))
  {
    i := inputs[0];
    if !(i.spendingTx == hit.txHash && Previous(i) in t.utxos && t.utxos[Previous(i)].covenantId.Some?) {
      i := TransitionFrom(t, gid, hit, inputs[1..]);
    }
  }

  lemma {:induction false} GenesisIs(t: Tables, gid: GenesisId, hit: Hit, inputs: seq<TxInput>)
    requires Classify(t, gid, hit, inputs).Genesis?
    ensures Classify(t, gid, hit, inputs).id == gid(hit.txHash, hit.index)
  {
    if inputs != [] {
      GenesisIs(t, gid, hit, inputs[1..]);
    }
  }

  /** The input is the hit's transaction consuming a tracked covenant UTXO. */
  ghost predicate PassesOn(t: Tables, hit: Hit, i: TxInput) {
    i.spendingTx == hit.txHash && Previous(i) in t.utxos && t.utxos[Previous(i)].covenantId.Some?
  }

  /** Of a block's inputs the first that passes an id on decides the class; without
      one the hit is a genesis. */
  lemma {:induction false} FirstPredecessorDecides(t: Tables, gid: GenesisId, hit: Hit, inputs: seq<TxInput>, k: nat)
    requires k <= |inputs| && (forall j :: 0 <= j < k ==> !PassesOn(t, hit, inputs[j]))
    requires k < |inputs| ==> PassesOn(t, hit, inputs[k])
    ensures Classify(t, gid, hit, inputs) ==
      if k == |inputs| then Genesis(gid(hit.txHash, hit.index))
      else Transition(t.utxos[Previous(inputs[k])].covenantId.value, Utxo(inputs[k].previousTx, inputs[k].previousIndex))
    decreases |inputs|
  {
    if k > 0 {
      assert !PassesOn(t, hit, inputs[0]);
      assert forall j :: 0 <= j < k - 1 ==> inputs[1..][j] == inputs[j + 1];
      FirstPredecessorDecides(t, gid, hit, inputs[1..], k - 1);
    } else if k < |inputs| {
      assert PassesOn(t, hit, inputs[0]);
    }
  }

  /** A fresh genesis id has no rows yet: its first row would be this very output. */
  lemma GenesisIsNew(t: Tables, gid: GenesisId, hit: Hit, id: string)
    requires Forest(t, gid) && GenesisInjective(gid)
    requires id == gid(hit.txHash, hit.index) && id in t.rows
    ensures RowExists(t, id, OutpointOf(hit))
  {
    var first := t.rows[id][0].outpoint;
    assert Sound(t, gid, id);
    assert gid(first.tx, ToU32(first.index)) == gid(hit.txHash, hit.index);
    assert RowsOf(t, id)[0].outpoint == OutpointOf(hit);
  }

  lemma TreeGrows(gid: GenesisId, id: string, rs: seq<LineageRow>, r: LineageRow, j: nat)
    requires RootedTree(gid, id, rs) && j < |rs|
    requires r.position == |rs| && r.parentUtxo == Some(EdgeText(rs[j].outpoint))
    requires !HasOutpoint(rs, r.outpoint)
    ensures RootedTree(gid, id, rs + [r])
  {
    var all := rs + [r];
    forall i | 0 < i < |all| ensures HasParent(all, i) {
      if i < |rs| {
        assert HasParent(rs, i);
        var p :| 0 <= p < i && rs[i].parentUtxo.value == EdgeText(rs[p].outpoint);
        assert all[p] == rs[p];
      } else {
        assert all[j] == rs[j];
      }
    }
  }

  lemma FirstRow(gid: GenesisId, hit: Hit, r: LineageRow, id: string, daa: int)
    requires id == gid(hit.txHash, hit.index)
    requires r.position == 0 && r.outpoint == OutpointOf(hit) && r.parentUtxo == None && r.daa == daa
    ensures RootedTree(gid, id, [r]) && HeadMatches(NextHead(None, hit, daa), [r])
  {
  }

  lemma HeadFollows(head: LineageHead, rs: seq<LineageRow>, hit: Hit, r: LineageRow, daa: int)
    requires HeadMatches(head, rs) && r.outpoint == OutpointOf(hit) && r.daa == daa
    ensures HeadMatches(NextHead(Some(head), hit, daa), rs + [r])
  {
    assert (rs + [r])[0] == rs[0];
  }

  /** Appending an unrecorded hit's row gives a rooted tree with a matching head. */
  lemma AppendedTree(t: Tables, render: Printer, gid: GenesisId, hit: Hit, inputs: seq<TxInput>, daa: int,
                     c: LineageClass, prior: Option<LineageHead>, r: LineageRow)
    requires Forest(t, gid) && GenesisInjective(gid)
    requires c == Classify(t, gid, hit, inputs) && !RowExists(t, c.id, OutpointOf(hit))
    requires prior == FetchHead(t, c.id) && r == NextRow(prior, render, hit, c, daa)
    ensures RootedTree(gid, c.id, RowsOf(t, c.id) + [r])
    ensures HeadMatches(NextHead(prior, hit, daa), RowsOf(t, c.id) + [r])
  {
    match c
    case Genesis(id) =>
      GenesisIs(t, gid, hit, inputs);
      if id in t.rows {
        GenesisIsNew(t, gid, hit, id);
      }
      assert RowsOf(t, id) + [r] == [r];
      FirstRow(gid, hit, r, id, daa);
    case Transition(id, parent) =>
      var i := TransitionFrom(t, gid, hit, inputs);
      assert Tracked(t, Previous(i));
      var j :| 0 <= j < |RowsOf(t, id)| && RowsOf(t, id)[j].outpoint == Previous(i);
      assert Sound(t, gid, id);
      TreeGrows(gid, id, t.rows[id], r, j);
      HeadFollows(t.heads[id], t.rows[id], hit, r, daa);
  }

  /** What recording a hit does to rows and heads. */
  lemma PersistedAt(t: Tables, render: Printer, gid: GenesisId, hit: Hit, content: Content, daa: int,
                    c: LineageClass, prior: Option<LineageHead>, after: Tables)
    requires c == Classify(t, gid, hit, content.inputs) && prior == FetchHead(t, c.id)
    requires after == PersistHit(t, render, gid, hit, content, daa)
    ensures RowExists(t, c.id, OutpointOf(hit)) ==> after.rows == t.rows && after.heads == t.heads
    ensures !RowExists(t, c.id, OutpointOf(hit)) ==>
      && after.rows == t.rows[c.id := RowsOf(t, c.id) + [NextRow(prior, render, hit, c, daa)]]
      && after.heads == t.heads[c.id := NextHead(prior, hit, daa)]
  {
    var u := TrackUtxo(t, OutpointOf(hit), UtxoOf(t, gid, hit, content, daa));
    LineageStep(u, render, hit, c, daa, prior, after);
  }

  lemma LineageStep(t: Tables, render: Printer, hit: Hit, c: LineageClass, daa: int, prior: Option<LineageHead>, after: Tables)
    requires prior == FetchHead(t, c.id) && after == PersistLineage(t, render, hit, c, daa)
    ensures RowExists(t, c.id, OutpointOf(hit)) ==> after.rows == t.rows && after.heads == t.heads
    ensures !RowExists(t, c.id, OutpointOf(hit)) ==>
      && after.rows == t.rows[c.id := RowsOf(t, c.id) + [NextRow(prior, render, hit, c, daa)]]
      && after.heads == t.heads[c.id := NextHead(prior, hit, daa)]
  {
  }

  /** ... and to the other tables. */
  lemma TrackedAt(t: Tables, render: Printer, gid: GenesisId, hit: Hit, content: Content, daa: int)
    ensures var after := PersistHit(t, render, gid, hit, content, daa);
      after.utxos == t.utxos[OutpointOf(hit) := UtxoOf(t, gid, hit, content, daa)]
      && after.committed == t.committed && after.poi == t.poi && after.entities == t.entities && after.spends == t.spends
  {
  }

  /** Rows are only ever appended, and the hit's own row is there afterwards. */
  lemma RowsOnlyGrow(t: Tables, render: Printer, gid: GenesisId, hit: Hit, content: Content, daa: int, id: string, o: Outpoint)
    requires RowExists(t, id, o) || (id == Classify(t, gid, hit, content.inputs).id && o == OutpointOf(hit))
    ensures RowExists(PersistHit(t, render, gid, hit, content, daa), id, o)
  {
    var c, after := Classify(t, gid, hit, content.inputs), PersistHit(t, render, gid, hit, content, daa);
    PersistedAt(t, render, gid, hit, content, daa, c, FetchHead(t, c.id), after);
    if RowExists(t, id, o) {
      var i :| 0 <= i < |RowsOf(t, id)| && RowsOf(t, id)[i].outpoint == o;
      assert RowsOf(after, id)[i] == RowsOf(t, id)[i];
    } else {
      assert RowsOf(after, id)[|RowsOf(t, id)|].outpoint == o;
    }
  }

  lemma StaysSound(t: Tables, render: Printer, gid: GenesisId, hit: Hit, content: Content, daa: int, id: string)
    requires Forest(t, gid) && GenesisInjective(gid)
    requires id in t.rows || (id == Classify(t, gid, hit, content.inputs).id && !RowExists(t, id, OutpointOf(hit)))
    ensures Sound(PersistHit(t, render, gid, hit, content, daa), gid, id)
  {
    var c, after := Classify(t, gid, hit, content.inputs), PersistHit(t, render, gid, hit, content, daa);
    PersistedAt(t, render, gid, hit, content, daa, c, FetchHead(t, c.id), after);
    if id == c.id && !RowExists(t, id, OutpointOf(hit)) {
      var prior := FetchHead(t, id);
      AppendedTree(t, render, gid, hit, content.inputs, daa, c, prior, NextRow(prior, render, hit, c, daa));
    } else {
      assert Sound(t, gid, id);
    }
  }

  lemma StaysTracked(t: Tables, render: Printer, gid: GenesisId, hit: Hit, content: Content, daa: int, o: Outpoint)
    requires Tracked(t, o) || o == OutpointOf(hit)
    ensures Tracked(PersistHit(t, render, gid, hit, content, daa), o)
  {
    TrackedAt(t, render, gid, hit, content, daa);
    var after := PersistHit(t, render, gid, hit, content, daa);
    RowsOnlyGrow(t, render, gid, hit, content, daa, after.utxos[o].covenantId.value, o);
  }

  lemma IdsAfter(t: Tables, render: Printer, gid: GenesisId, hit: Hit, content: Content, daa: int)
    requires t.rows.Keys == t.heads.Keys
    ensures var c, after := Classify(t, gid, hit, content.inputs), PersistHit(t, render, gid, hit, content, daa);
      && after.rows.Keys == after.heads.Keys
      && forall id :: id in after.rows ==> id in t.rows || (id == c.id && !RowExists(t, id, OutpointOf(hit)))
  {
    var c, after := Classify(t, gid, hit, content.inputs), PersistHit(t, render, gid, hit, content, daa);
    PersistedAt(t, render, gid, hit, content, daa, c, FetchHead(t, c.id), after);
  }

  lemma OutpointsAfter(t: Tables, render: Printer, gid: GenesisId, hit: Hit, content: Content, daa: int)
    ensures PersistHit(t, render, gid, hit, content, daa).utxos.Keys == t.utxos.Keys + {OutpointOf(hit)}
  {
    TrackedAt(t, render, gid, hit, content, daa);
  }

  /** Recording any hit keeps every covenant id's rows a rooted tree with a
      matching head, and every tracked UTXO one of the rows. */
  lemma PersistHitKeepsForest(t: Tables, render: Printer, gid: GenesisId, hit: Hit, content: Content, daa: int)
    requires Forest(t, gid) && GenesisInjective(gid)
    ensures Forest(PersistHit(t, render, gid, hit, content, daa), gid)
  {
    var after := PersistHit(t, render, gid, hit, content, daa);
    IdsAfter(t, render, gid, hit, content, daa);
    OutpointsAfter(t, render, gid, hit, content, daa);
    forall id | id in after.rows ensures Sound(after, gid, id) {
      StaysSound(t, render, gid, hit, content, daa, id);
    }
    forall o | o in after.utxos ensures Tracked(after, o) {
      StaysTracked(t, render, gid, hit, content, daa, o);
    }
  }

  /** One classified hit on a committed block. */
  datatype Sighting = Sighting(hit: Hit, content: Content, daa: int)

  function PersistAll(t: Tables, render: Printer, gid: GenesisId, seen: seq<Sighting>): Tables {
    if seen == [] then t
    else
      var n := |seen| - 1;
      PersistHit(PersistAll(t, render, gid, seen[..n]), render, gid, seen[n].hit, seen[n].content, seen[n].daa)
  }

  /** Over every sequence of hits, in any order and with any repetition. */
  lemma {:induction false} LineageIsForest(render: Printer, gid: GenesisId, seen: seq<Sighting>)
    requires GenesisInjective(gid)
    ensures Forest(PersistAll(EMPTY, render, gid, seen), gid)
  {
    if seen != [] {
      var n := |seen| - 1;
      LineageIsForest(render, gid, seen[..n]);
      PersistHitKeepsForest(PersistAll(EMPTY, render, gid, seen[..n]), render, gid,
                            seen[n].hit, seen[n].content, seen[n].daa);
    }
  }

  // ----- What a hit leaves, field by field -----

  /** The first output of the block with the hit's transaction and index gives the value;
      without one it is 0. */
  lemma {:induction false} FirstOutputDecides(hit: Hit, outputs: seq<TxOutput>, k: nat)
    requires k <= |outputs|
    requires forall j :: 0 <= j < k ==> !(outputs[j].txHash == hit.txHash && outputs[j].index == hit.index)
    requires k < |outputs| ==> outputs[k].txHash == hit.txHash && outputs[k].index == hit.index
    ensures LockedValue(hit, outputs) == if k < |outputs| then ToI64(outputs[k].value) else 0
    decreases |outputs|
  {
    if k > 0 {
      assert !(outputs[0].txHash == hit.txHash && outputs[0].index == hit.index);
      assert forall j :: 0 <= j < k - 1 ==> outputs[1..][j] == outputs[j + 1];
      FirstOutputDecides(hit, outputs[1..], k - 1);
    }
  }

  /** The tracked output carries the hit's DAA, kind, id, value and payload. */
  lemma TrackedTells(t: Tables, render: Printer, gid: GenesisId, hit: Hit, content: Content, daa: int, k: nat)
    requires k <= |content.outputs|
    requires forall j :: 0 <= j < k ==>
      !(content.outputs[j].txHash == hit.txHash && content.outputs[j].index == hit.index)
    requires k < |content.outputs| ==> content.outputs[k].txHash == hit.txHash && content.outputs[k].index == hit.index
    ensures PersistHit(t, render, gid, hit, content, daa).utxos
         == t.utxos[Outpoint(hit.txHash, ToI32(hit.index)) :=
              CovenantUtxo(daa, hit.kind, Some(Classify(t, gid, hit, content.inputs).id),
                           if k < |content.outputs| then ToI64(content.outputs[k].value) else 0, hit.payload)]
  {
    FirstOutputDecides(hit, content.outputs, k);
    TrackedAt(t, render, gid, hit, content, daa);
  }

  /** The head counts the rows. */
  lemma NextPlace(t: Tables, gid: GenesisId, id: string)
    requires Forest(t, gid)
    ensures NextLineageStep(CountOf(FetchHead(t, id))) == (|RowsOf(t, id)|, |RowsOf(t, id)| + 1)
  {
    if id in t.heads {
      assert Sound(t, gid, id);
    }
  }

  /** A recorded hit's row comes last under its id, with the text of its payload, and the
      head moves to it. */
  lemma RecordedTells(t: Tables, render: Printer, gid: GenesisId, hit: Hit, content: Content, daa: int,
                      c: LineageClass, after: Tables)
    requires Forest(t, gid) && c == Classify(t, gid, hit, content.inputs)
    requires !RowExists(t, c.id, OutpointOf(hit)) && after == PersistHit(t, render, gid, hit, content, daa)
    ensures after.rows == t.rows[c.id := RowsOf(t, c.id)
      + [LineageRow(|RowsOf(t, c.id)|, Outpoint(hit.txHash, ToI32(hit.index)),
                    if c.Transition? then Some(c.parentUtxo) else None, render(hit.payload), daa)]]
    ensures after.heads == t.heads[c.id := LineageHead(
      if c.id in t.heads then t.heads[c.id].genesisTx else hit.txHash, Utxo(hit.txHash, hit.index), daa,
      |RowsOf(t, c.id)| + 1)]
  {
    PersistedAt(t, render, gid, hit, content, daa, c, FetchHead(t, c.id), after);
    NextPlace(t, gid, c.id);
  }

  /** The row has the hit's output, DAA and payload text. */
  ghost predicate LeftBy(render: Printer, r: LineageRow, x: Sighting) {
    r.outpoint == Outpoint(x.hit.txHash, ToI32(x.hit.index)) && r.stateBytes == render(x.hit.payload) && r.daa == x.daa
  }

  lemma NewRowIsHit(t: Tables, render: Printer, gid: GenesisId, x: Sighting, id: string, i: nat, after: Tables)
    requires after == PersistHit(t, render, gid, x.hit, x.content, x.daa) && i < |RowsOf(after, id)|
    ensures i < |RowsOf(t, id)| ==> RowsOf(after, id)[i] == RowsOf(t, id)[i]
    ensures i >= |RowsOf(t, id)| ==> LeftBy(render, RowsOf(after, id)[i], x)
  {
    var c := Classify(t, gid, x.hit, x.content.inputs);
    PersistedAt(t, render, gid, x.hit, x.content, x.daa, c, FetchHead(t, c.id), after);
  }

  /** Every row there is was left by a hit. */
  lemma {:induction false} RowsAreHits(render: Printer, gid: GenesisId, seen: seq<Sighting>, id: string, i: nat)
    returns (j: nat)
    requires i < |RowsOf(PersistAll(EMPTY, render, gid, seen), id)|
    ensures j < |seen| && LeftBy(render, RowsOf(PersistAll(EMPTY, render, gid, seen), id)[i], seen[j])
    decreases |seen|
  {
    j := |seen| - 1;
    var before := PersistAll(EMPTY, render, gid, seen[..j]);
    NewRowIsHit(before, render, gid, seen[j], id, i, PersistAll(EMPTY, render, gid, seen));
    if i < |RowsOf(before, id)| {
      j := RowsAreHits(render, gid, seen[..j], id, i);
    }
  }

  // ----- Re-delivered hits -----

  /** What classification reads of a tracked output. */
  ghost predicate SameIdAt(t: Tables, u: Tables, o: Outpoint) {
    (o in t.utxos <==> o in u.utxos) && (o in t.utxos ==> t.utxos[o].covenantId == u.utxos[o].covenantId)
  }

  ghost predicate Spends(hit: Hit, inputs: seq<TxInput>, o: Outpoint) {
    exists i :: 0 <= i < |inputs| && inputs[i].spendingTx == hit.txHash && Previous(inputs[i]) == o
  }

  lemma {:induction false} ClassifySame(t: Tables, u: Tables, gid: GenesisId, hit: Hit, inputs: seq<TxInput>)
    requires forall o :: Spends(hit, inputs, o) ==> SameIdAt(t, u, o)
    ensures Classify(t, gid, hit, inputs) == Classify(u, gid, hit, inputs)
  {
    if inputs != [] {
      forall o | Spends(hit, inputs[1..], o) ensures SameIdAt(t, u, o) {
        var i :| 0 <= i < |inputs[1..]| && inputs[1..][i].spendingTx == hit.txHash && Previous(inputs[1..][i]) == o;
        assert inputs[i + 1] == inputs[1..][i];
        assert Spends(hit, inputs, o);
      }
      ClassifySame(t, u, gid, hit, inputs[1..]);
      if inputs[0].spendingTx == hit.txHash {
        assert Spends(hit, inputs, Previous(inputs[0]));
      }
    }
  }

  /** The hit's output is recorded under the class the hit has now. */
  ghost predicate Settled(t: Tables, gid: GenesisId, hit: Hit, inputs: seq<TxInput>) {
    var o, id := OutpointOf(hit), Classify(t, gid, hit, inputs).id;
    RowExists(t, id, o) && o in t.utxos && t.utxos[o].covenantId == Some(id)
  }

  /** Equal as far as lineage goes: rows, heads, and the id of every tracked output. */
  ghost predicate SameLineage(t: Tables, u: Tables) {
    t.rows == u.rows && t.heads == u.heads && forall o :: SameIdAt(t, u, o)
  }

  /** Delivering a hit again adds a row exactly when its class has none for its output. */
  lemma AddsNothingIff(t: Tables, render: Printer, gid: GenesisId, hit: Hit, content: Content, daa: int, after: Tables)
    requires after == PersistHit(t, render, gid, hit, content, daa)
    ensures after.rows == t.rows && after.heads == t.heads
       <==> RowExists(t, Classify(t, gid, hit, content.inputs).id, OutpointOf(hit))
  {
    var c := Classify(t, gid, hit, content.inputs);
    var prior := FetchHead(t, c.id);
    PersistedAt(t, render, gid, hit, content, daa, c, prior, after);
    if !RowExists(t, c.id, OutpointOf(hit)) {
      assert |after.rows[c.id]| == |RowsOf(t, c.id)| + 1;
    }
  }

  lemma SettledAgain(t: Tables, render: Printer, gid: GenesisId, hit: Hit, content: Content, daa: int)
    requires Settled(t, gid, hit, content.inputs)
    ensures SameLineage(t, PersistHit(t, render, gid, hit, content, daa))
  {
    AddsNothingIff(t, render, gid, hit, content, daa, PersistHit(t, render, gid, hit, content, daa));
    TrackedAt(t, render, gid, hit, content, daa);
  }

  lemma SettledStays(t: Tables, u: Tables, gid: GenesisId, hit: Hit, inputs: seq<TxInput>)
    requires Settled(t, gid, hit, inputs) && SameLineage(t, u)
    ensures Settled(u, gid, hit, inputs)
  {
    ClassifySame(t, u, gid, hit, inputs);
    assert SameIdAt(t, u, OutpointOf(hit));
  }

  function OwnInputs(tx: string, inputs: seq<TxInput>): seq<TxInput> {
    if inputs == [] then []
    else (if inputs[0].spendingTx == tx then [inputs[0]] else []) + OwnInputs(tx, inputs[1..])
  }

  /** Sightings of one output of one transaction, whatever blocks they come in. */
  ghost predicate Alike(x: Sighting, y: Sighting) {
    && OutpointOf(x.hit) == OutpointOf(y.hit)
    && OwnInputs(x.hit.txHash, x.content.inputs) == OwnInputs(y.hit.txHash, y.content.inputs)
  }

  lemma {:induction false} ClassifyOwn(t: Tables, gid: GenesisId, hit: Hit, inputs: seq<TxInput>)
    ensures Classify(t, gid, hit, inputs) == Classify(t, gid, hit, OwnInputs(hit.txHash, inputs))
  {
    if inputs != [] {
      ClassifyOwn(t, gid, hit, inputs[1..]);
      var own := OwnInputs(hit.txHash, inputs[1..]);
      assert [] + own == own && ([inputs[0]] + own)[1..] == own;
    }
  }

  lemma {:induction false} ClassOfOutpoint(t: Tables, gid: GenesisId, hit: Hit, other: Hit, inputs: seq<TxInput>)
    requires OutpointOf(hit) == OutpointOf(other)
    ensures Classify(t, gid, hit, inputs) == Classify(t, gid, other, inputs)
  {
    if inputs != [] {
      ClassOfOutpoint(t, gid, hit, other, inputs[1..]);
    }
  }

  lemma ClassAlike(t: Tables, gid: GenesisId, x: Sighting, y: Sighting)
    requires Alike(x, y)
    ensures Classify(t, gid, x.hit, x.content.inputs) == Classify(t, gid, y.hit, y.content.inputs)
  {
    ClassifyOwn(t, gid, x.hit, x.content.inputs);
    ClassifyOwn(t, gid, y.hit, y.content.inputs);
    ClassOfOutpoint(t, gid, x.hit, y.hit, OwnInputs(x.hit.txHash, x.content.inputs));
  }

  /** A transaction spends no output of its own or of a later sighting, and one
      output comes from one transaction. */
  ghost predicate Causal(seen: seq<Sighting>) {
    forall a, b :: 0 <= a <= b < |seen| ==> Precedes(seen[a], seen[b])
  }

  ghost predicate Precedes(x: Sighting, y: Sighting) {
    && !Spends(x.hit, x.content.inputs, OutpointOf(y.hit))
    && (OutpointOf(x.hit) == OutpointOf(y.hit) ==> Alike(x, y))
  }

  lemma SettledThrough(t: Tables, render: Printer, gid: GenesisId, x: Sighting, y: Sighting, after: Tables)
    requires Precedes(x, y) && after == PersistHit(t, render, gid, y.hit, y.content, y.daa)
    requires x == y || Settled(t, gid, x.hit, x.content.inputs)
    ensures Settled(after, gid, x.hit, x.content.inputs)
  {
    TrackedAt(t, render, gid, y.hit, y.content, y.daa);
    ClassifySame(t, after, gid, x.hit, x.content.inputs);
    var o, id := OutpointOf(x.hit), Classify(t, gid, x.hit, x.content.inputs).id;
    if o == OutpointOf(y.hit) {
      ClassAlike(t, gid, x, y);
    }
    RowsOnlyGrow(t, render, gid, y.hit, y.content, y.daa, id, o);
  }

  lemma {:induction false} AllSettled(t: Tables, render: Printer, gid: GenesisId, seen: seq<Sighting>, j: nat)
    requires Causal(seen) && j < |seen|
    ensures Settled(PersistAll(t, render, gid, seen), gid, seen[j].hit, seen[j].content.inputs)
    decreases |seen|
  {
    var n := |seen| - 1;
    if j < n {
      AllSettled(t, render, gid, seen[..n], j);
    }
    SettledThrough(PersistAll(t, render, gid, seen[..n]), render, gid, seen[j], seen[n], PersistAll(t, render, gid, seen));
  }

  ghost predicate Repeats(x: Sighting, seen: seq<Sighting>) {
    exists j :: 0 <= j < |seen| && Alike(x, seen[j])
  }

  lemma AlikeSettled(t: Tables, gid: GenesisId, x: Sighting, y: Sighting)
    requires Alike(x, y) && Settled(t, gid, y.hit, y.content.inputs)
    ensures Settled(t, gid, x.hit, x.content.inputs)
  {
    ClassAlike(t, gid, x, y);
  }

  lemma SameLineageTransitive(t: Tables, u: Tables, w: Tables)
    requires SameLineage(t, u) && SameLineage(u, w)
    ensures SameLineage(t, w)
  {
    forall o ensures SameIdAt(t, w, o) {
      assert SameIdAt(t, u, o) && SameIdAt(u, w, o);
    }
  }

  /** One more repeat on a store that differs from the settled one in nothing lineage sees. */
  lemma RepeatAddsNothing(once: Tables, before: Tables, render: Printer, gid: GenesisId, x: Sighting, y: Sighting)
    requires Alike(x, y) && Settled(once, gid, y.hit, y.content.inputs) && SameLineage(once, before)
    ensures SameLineage(once, PersistHit(before, render, gid, x.hit, x.content, x.daa))
  {
    AlikeSettled(once, gid, x, y);
    SettledStays(once, before, gid, x.hit, x.content.inputs);
    SettledAgain(before, render, gid, x.hit, x.content, x.daa);
    SameLineageTransitive(once, before, PersistHit(before, render, gid, x.hit, x.content, x.daa));
  }

  /** Re-delivering hits already recorded, any of them, any number of times, in any order
      and in whatever block, leaves every row, every head and every tracked id as they were. */
  lemma {:induction false} RedeliveryAddsNothing(t: Tables, render: Printer, gid: GenesisId,
                                                 seen: seq<Sighting>, again: seq<Sighting>)
    requires Causal(seen) && forall k :: 0 <= k < |again| ==> Repeats(again[k], seen)
    ensures SameLineage(PersistAll(t, render, gid, seen), PersistAll(PersistAll(t, render, gid, seen), render, gid, again))
    decreases |again|
  {
    if again != [] {
      var n := |again| - 1;
      var once := PersistAll(t, render, gid, seen);
      RedeliveryAddsNothing(t, render, gid, seen, again[..n]);
      var j :| 0 <= j < |seen| && Alike(again[n], seen[j]);
      AllSettled(t, render, gid, seen, j);
      RepeatAddsNothing(once, PersistAll(once, render, gid, again[..n]), render, gid, again[n], seen[j]);
    }
  }
}
