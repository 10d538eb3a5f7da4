/** The reorg-aware ingestion state (crates/kasgraph-node/src/main.rs:207-231, 1965-2166):
    what each notification does to the two DAA-keyed maps, and the class that
    does it step by step. */
module Ingestion {
  import opened Prelude
  import opened OrderedKeys
  import opened Poi
  import opened Blocks

  /** The two maps, as a value. */
  datatype View = View(committed: map<int, Block>, buffered: map<int, Block>)

  datatype Transition = Transition(
    writes: seq<Block>, rolledBack: seq<Block>, unwinds: seq<Block>, recovery: Option<(u64, u64)>)

  /** A view together with what the step surfaced on the way to it. */
  datatype Step = Step(next: View, out: Transition)

  const NOTHING := Transition([], [], [], None)

  predicate AllIn(ks: seq<int>, m: map<int, Block>) {
    forall i :: 0 <= i < |ks| ==> ks[i] in m
  }

  /** The blocks of `m` at the listed keys, in that order. */
  function Pick(m: map<int, Block>, ks: seq<int>): (r: seq<Block>)
    requires AllIn(ks, m)
    ensures |r| == |ks|
    ensures forall i :: 0 <= i < |ks| ==> r[i] == m[ks[i]]
  {
    seq(|ks|, i requires 0 <= i < |ks| => m[ks[i]])
  }

  function PickSet(m: map<int, Block>, s: set<int>): (r: seq<Block>)
    requires s <= m.Keys
  {
    Pick(m, Ascending(s))
  }

  function Restrict(m: map<int, Block>, s: set<int>): (r: map<int, Block>) {
    map k | k in m && k in s :: m[k]
  }

  /** `derived_finalized_cutoff`: none without a depth, or with one past `i64`. */
  function Cutoff(depth: Option<u64>, daa: i64): Option<i64> {
    match depth
    case None => None
    case Some(d) => if d < TWO_63 then Some(SaturatingSub(daa, d)) else None
  }

  /** In numbers: a score is reached when it lies a depth below the block's own, or is
      the lowest one, at which the subtraction saturates. */
  lemma CutoffReaches(depth: Option<u64>, daa: i64, k: i64)
    ensures Cutoff(depth, daa).Some? && k <= Cutoff(depth, daa).value
       <==> depth.Some? && depth.value < TWO_63 && (k + depth.value <= daa || k == -TWO_63)
  {
  }

  function Finalize(b: Block): Block { b.(isFinalized := true) }

  function Mark(b: Block, cutoff: Option<i64>): Block {
    if cutoff.Some? && b.daa <= cutoff.value then Finalize(b) else b
  }

  function MarkAll(m: map<int, Block>, cutoff: Option<i64>): (r: map<int, Block>) {
    map k | k in m :: Mark(m[k], cutoff)
  }

  function Finals(m: map<int, Block>): set<int> {
    set k | k in m && m[k].isFinalized
  }

  /** `highest_finalized_daa`: the highest key holding a finalised block, else 0. */
  function HighestFinalized(m: map<int, Block>): int {
    if Finals(m) == {} then 0 else Largest(Finals(m))
  }

  /** Buffered blocks at or above `b`'s DAA that are not `b`. */
  function Conflicts(m: map<int, Block>, b: Block): set<int> {
    set k | k in m && b.daa <= k && m[k].hash != b.hash
  }

  function Promotable(m: map<int, Block>): set<int> {
    set k | k in m && k <= HighestFinalized(m)
  }

  /** The buffer after `b` has displaced what conflicts with it and finality has been marked. */
  function Buffered(depth: Option<u64>, m: map<int, Block>, b: Block): map<int, Block> {
    MarkAll((m - Conflicts(m, b))[b.daa := b], Cutoff(depth, b.daa))
  }

  function BlockStep(depth: Option<u64>, v: View, b: Block): Step {
    if b.daa in v.committed then Step(v, NOTHING)
    else
      var dropped := PickSet(v.buffered, Conflicts(v.buffered, b));
      var pool := Buffered(depth, v.buffered, b);
      var ready := if b.isFinalized || Cutoff(depth, b.daa).Some? then Promotable(pool) else {};
      Step(View(v.committed + Restrict(pool, ready), pool - ready),
           Transition(PickSet(pool, ready), dropped, [], None))
  }

  function BlocksStep(depth: Option<u64>, v: View, bs: seq<Block>): Step {
    if bs == [] then Step(v, NOTHING)
    else
      var n := |bs| - 1;
      var before := BlocksStep(depth, v, bs[..n]);
      var last := BlockStep(depth, before.next, bs[n]);
      Step(last.next, Transition(before.out.writes + last.out.writes,
                                 before.out.rolledBack + last.out.rolledBack, [], None))
  }

  function Holding(m: map<int, Block>, hashes: seq<string>): set<int> {
    set k | k in m && m[k].hash in hashes
  }

  function Within(m: map<int, Block>, lo: int, hi: int): set<int> {
    set k | k in m && lo <= k <= hi
  }

  /** A gap whose start lies above its end, as signed scores, aborts the node. */
  predicate Aborts(n: Notification) {
    n.RecoveryRequired? && ToI64(n.fromDaa) > ToI64(n.toDaa)
  }

  /** What a notification that does not abort does. */
  function NotificationStep(depth: Option<u64>, v: View, n: Notification): Step {
    match n
    case BlockAdded(b) => BlockStep(depth, v, BlockFromRpc(b))
    case VirtualChainChanged(removed, added) =>
      var dropped := Holding(v.buffered, removed);
      var unwound := Holding(v.committed, removed);
      var after := BlocksStep(depth, View(v.committed - unwound, v.buffered - dropped), BlocksFromRpc(added));
      Step(after.next, Transition(after.out.writes, PickSet(v.buffered, dropped) + after.out.rolledBack,
                                  PickSet(v.committed, unwound), None))
    case RecoveryRequired(fromDaa, toDaa) =>
      var dropped := Within(v.buffered, ToI64(fromDaa), ToI64(toDaa));
      Step(View(v.committed, v.buffered - dropped),
           Transition([], PickSet(v.buffered, dropped), [], Some((fromDaa, toDaa))))
  }

  /** `recovery_anchor_hash`: the highest known block strictly below the gap. */
  function RecoveryAnchor(v: View, fromDaa: u64): Option<string> {
    var cutoff := ToI64(if fromDaa == 0 then 0 else fromDaa - 1);
    var known := set k | k in v.committed.Keys + v.buffered.Keys && k <= cutoff;
    if known == {} then None
    else
      var top := Largest(known);
      Some((if top in v.buffered then v.buffered[top] else v.committed[top]).hash)
  }

  function Keys(ks: seq<int>): set<int> { set k | k in ks }

  lemma PickPrefix(m: map<int, Block>, ks: seq<int>, i: nat)
    requires i < |ks| && AllIn(ks, m)
    ensures Pick(m, ks[..i + 1]) == Pick(m, ks[..i]) + [m[ks[i]]]
  {
  }

  lemma KeysStep(ks: seq<int>, i: nat)
    requires i < |ks| && StrictlyAscending(ks)
    ensures ks[i] !in Keys(ks[..i])
    ensures Keys(ks[..i + 1]) == Keys(ks[..i]) + {ks[i]}
  {
    assert ks[..i + 1] == ks[..i] + [ks[i]];
  }

  lemma TakeStep(m: map<int, Block>, s: set<int>, k: int)
    requires k in m && k !in s
    ensures (m - s) - {k} == m - (s + {k})
    ensures k in m - s && (m - s)[k] == m[k]
  {
  }

  lemma MoveStep(c: map<int, Block>, m: map<int, Block>, s: set<int>, k: int)
    requires k in m
    ensures (c + Restrict(m, s))[k := m[k]] == c + Restrict(m, s + {k})
  {
  }

  function MarkAt(m: map<int, Block>, cutoff: i64, k: int): (r: map<int, Block>)
    requires k in m
    ensures r.Keys == m.Keys
  {
    if m[k].daa <= cutoff then m[k := Finalize(m[k])] else m
  }

  /** The marking pass part-way: the first `n` listed keys have been visited. */
  function Marking(m: map<int, Block>, cutoff: i64, ks: seq<int>, n: nat): (r: map<int, Block>)
    requires n <= |ks| && AllIn(ks, m)
    ensures r.Keys == m.Keys
  {
    if n == 0 then m else MarkAt(Marking(m, cutoff, ks, n - 1), cutoff, ks[n - 1])
  }

  lemma {:induction false} MarkingOne(m: map<int, Block>, cutoff: i64, ks: seq<int>, n: nat, i: nat)
    requires n <= |ks| && i < |ks| && AllIn(ks, m) && StrictlyAscending(ks)
    ensures Marking(m, cutoff, ks, n)[ks[i]] == if i < n then Mark(m[ks[i]], Some(cutoff)) else m[ks[i]]
  {
    if n > 0 {
      MarkingOne(m, cutoff, ks, n - 1, i);
    }
  }

  /** The whole pass marks every block at or below the cutoff. */
  lemma MarkingAll(m: map<int, Block>, cutoff: i64, ks: seq<int>)
    requires AllIn(ks, m) && StrictlyAscending(ks) && forall k :: k in m ==> k in ks
    ensures Marking(m, cutoff, ks, |ks|) == MarkAll(m, Some(cutoff))
  {
    var r, goal := Marking(m, cutoff, ks, |ks|), MarkAll(m, Some(cutoff));
    assert r.Keys == goal.Keys;
    forall k | k in m ensures r[k] == goal[k] {
      var i :| 0 <= i < |ks| && ks[i] == k;
      MarkingOne(m, cutoff, ks, |ks|, i);
    }
  }

  lemma MarkTwice(m: map<int, Block>, b: Block, cutoff: Option<i64>)
    ensures MarkAll(m[b.daa := Mark(b, cutoff)], cutoff) == MarkAll(m[b.daa := b], cutoff)
  {
  }

  lemma MarkNone(m: map<int, Block>)
    ensures MarkAll(m, None) == m
  {
    var r := MarkAll(m, None);
    assert r.Keys == m.Keys;
    assert forall k :: k in m ==> r[k] == m[k];
  }

  lemma BlocksStepNext(depth: Option<u64>, v: View, bs: seq<Block>, i: nat)
    requires i < |bs|
    ensures var before := BlocksStep(depth, v, bs[..i]);
            var last := BlockStep(depth, before.next, bs[i]);
            BlocksStep(depth, v, bs[..i + 1]) == Step(last.next, Transition(
              before.out.writes + last.out.writes, before.out.rolledBack + last.out.rolledBack, [], None))
  {
    assert bs[..i + 1][..i] == bs[..i];
  }

  class IngestionState {
    var committed: map<int, Block>
    var probabilistic: map<int, Block>
    var priorPoi: PoiHash
    const finalityDepth: Option<u64>

    constructor (depth: Option<u64>)
      ensures finalityDepth == depth && priorPoi == GENESIS
      ensures GetView() == View(map[], map[])
    {
      committed, probabilistic, priorPoi, finalityDepth := map[], map[], GENESIS, depth;
    }

    function GetView(): View
      reads this
    {
      View(committed, probabilistic)
    }

    method ReseedPriorPoi(poi: PoiHash)
      modifies this`priorPoi
      ensures priorPoi == poi
    {
      priorPoi := poi;
    }

    /** Removes the listed keys from the buffer, in order, returning what they held. */
    method TakeProbabilistic(ks: seq<int>) returns (removed: seq<Block>)
      requires StrictlyAscending(ks) && AllIn(ks, probabilistic)
      modifies this`probabilistic
      ensures removed == Pick(old(probabilistic), ks)
      ensures probabilistic == old(probabilistic) - Keys(ks)
    {
      removed := [];
      var i := 0;
      while i < |ks|
        invariant 0 <= i <= |ks|
        invariant removed == Pick(old(probabilistic), ks[..i])
        invariant probabilistic == old(probabilistic) - Keys(ks[..i])
      {
        KeysStep(ks, i);
        PickPrefix(old(probabilistic), ks, i);
        TakeStep(old(probabilistic), Keys(ks[..i]), ks[i]);
        if ks[i] in probabilistic {
          removed := removed + [probabilistic[ks[i]]];
          probabilistic := probabilistic - {ks[i]};
        }
        i := i + 1;
      }
      assert ks[..i] == ks;
    }

    method RemoveCommittedByHashes(hashes: seq<string>) returns (removed: seq<Block>)
      modifies this`committed
      ensures removed == PickSet(old(committed), Holding(old(committed), hashes))
      ensures committed == old(committed) - Holding(old(committed), hashes)
    {
      var ks := Ascending(Holding(committed, hashes));
      removed := [];
      var i := 0;
      while i < |ks|
        invariant 0 <= i <= |ks|
        invariant removed == Pick(old(committed), ks[..i])
        invariant committed == old(committed) - Keys(ks[..i])
      {
        KeysStep(ks, i);
        PickPrefix(old(committed), ks, i);
        TakeStep(old(committed), Keys(ks[..i]), ks[i]);
        if ks[i] in committed {
          removed := removed + [committed[ks[i]]];
          committed := committed - {ks[i]};
        }
        i := i + 1;
      }
      assert ks[..i] == ks;
      assert Keys(ks) == Holding(old(committed), hashes);
    }

    method RemoveProbabilisticByHashes(hashes: seq<string>) returns (removed: seq<Block>)
      modifies this`probabilistic
      ensures removed == PickSet(old(probabilistic), Holding(old(probabilistic), hashes))
      ensures probabilistic == old(probabilistic) - Holding(old(probabilistic), hashes)
    {
      var ks := Ascending(Holding(probabilistic, hashes));
      removed := TakeProbabilistic(ks);
      assert Keys(ks) == Holding(old(probabilistic), hashes);
    }

    /** `BTreeMap::range` aborts on a range whose start lies above its end. */
    method RemoveProbabilisticInRange(fromDaa: i64, toDaa: i64) returns (removed: Option<seq<Block>>)
      modifies this`probabilistic
      ensures removed.None? <==> fromDaa > toDaa
      ensures removed.None? ==> probabilistic == old(probabilistic)
      ensures removed.Some? ==>
        && removed.value == PickSet(old(probabilistic), Within(old(probabilistic), fromDaa, toDaa))
        && probabilistic == old(probabilistic) - Within(old(probabilistic), fromDaa, toDaa)
    {
      if fromDaa > toDaa {
        return None;
      }
      var ks := Ascending(Within(probabilistic, fromDaa, toDaa));
      var taken := TakeProbabilistic(ks);
      assert Keys(ks) == Within(old(probabilistic), fromDaa, toDaa);
      return Some(taken);
    }

    /** The in-place pass over the finality flags of the blocks at the listed keys. */
    method MarkListed(ks: seq<int>, cutoff: i64)
      requires AllIn(ks, probabilistic)
      modifies this`probabilistic
      ensures probabilistic == Marking(old(probabilistic), cutoff, ks, |ks|)
    {
      ghost var m := probabilistic;
      for i := 0 to |ks|
        invariant probabilistic == Marking(m, cutoff, ks, i)
      {
        var b := probabilistic[ks[i]];
        if b.daa <= cutoff {
          probabilistic := probabilistic[ks[i] := Finalize(b)];
        }
      }
    }

    method MarkFinalized(cutoff: i64)
      modifies this`probabilistic
      ensures probabilistic == MarkAll(old(probabilistic), Some(cutoff))
    {
      var ks := Ascending(probabilistic.Keys);
      MarkingAll(probabilistic, cutoff, ks);
      MarkListed(ks, cutoff);
    }

    /** Moves the listed buffered blocks to the committed map, in order. */
    method Promote(ks: seq<int>) returns (writes: seq<Block>)
      requires StrictlyAscending(ks) && AllIn(ks, probabilistic)
      modifies this`probabilistic, this`committed
      ensures writes == Pick(old(probabilistic), ks)
      ensures probabilistic == old(probabilistic) - Keys(ks)
      ensures committed == old(committed) + Restrict(old(probabilistic), Keys(ks))
    {
      writes := [];
      var i := 0;
      while i < |ks|
        invariant 0 <= i <= |ks|
        invariant writes == Pick(old(probabilistic), ks[..i])
        invariant probabilistic == old(probabilistic) - Keys(ks[..i])
        invariant committed == old(committed) + Restrict(old(probabilistic), Keys(ks[..i]))
      {
        KeysStep(ks, i);
        PickPrefix(old(probabilistic), ks, i);
        TakeStep(old(probabilistic), Keys(ks[..i]), ks[i]);
        MoveStep(old(committed), old(probabilistic), Keys(ks[..i]), ks[i]);
        if ks[i] in probabilistic {
          var b := probabilistic[ks[i]];
          probabilistic := probabilistic - {ks[i]};
          committed := committed[ks[i] := b];
          writes := writes + [b];
        }
        i := i + 1;
      }
      assert ks[..i] == ks;
    }

    method ApplyBlock(incoming: Block) returns (t: Transition)
      modifies this`committed, this`probabilistic
      ensures Step(GetView(), t) == BlockStep(finalityDepth, old(GetView()), incoming)
    {
      var cutoff := Cutoff(finalityDepth, incoming.daa);
      if incoming.daa in committed {
        return NOTHING;
      }
      var clash := Ascending(Conflicts(probabilistic, incoming));
      var rolledBack := TakeProbabilistic(clash);
      assert Keys(clash) == Conflicts(old(probabilistic), incoming);
      var block := Mark(incoming, cutoff);
      if !block.isFinalized && cutoff.None? {
        probabilistic := probabilistic[block.daa := block];
        MarkNone(probabilistic);
        assert probabilistic == Buffered(finalityDepth, old(probabilistic), incoming);
        assert Pick(probabilistic, []) == [];
        assert old(committed) + Restrict(probabilistic, {}) == committed;
        return Transition([], rolledBack, [], None);
      }
      MarkTwice(probabilistic, incoming, cutoff);
      probabilistic := probabilistic[block.daa := block];
      if cutoff.Some? {
        MarkFinalized(cutoff.value);
      } else {
        MarkNone(probabilistic);
      }
      assert probabilistic == Buffered(finalityDepth, old(probabilistic), incoming);
      var ready := Ascending(Promotable(probabilistic));
      assert Keys(ready) == Promotable(probabilistic);
      var writes := Promote(ready);
      return Transition(writes, rolledBack, [], None);
    }

    method ApplyAdded(added: seq<IngestedBlock>) returns (writes: seq<Block>, rolledBack: seq<Block>)
      modifies this`committed, this`probabilistic
      ensures Step(GetView(), Transition(writes, rolledBack, [], None))
           == BlocksStep(finalityDepth, old(GetView()), BlocksFromRpc(added))
    {
      ghost var start := GetView();
      ghost var blocks := BlocksFromRpc(added);
      writes, rolledBack := [], [];
      var i := 0;
      while i < |added|
        invariant 0 <= i <= |added|
        invariant Step(GetView(), Transition(writes, rolledBack, [], None)) == BlocksStep(finalityDepth, start, blocks[..i])
      {
        BlocksStepNext(finalityDepth, start, blocks, i);
        var step := ApplyBlock(BlockFromRpc(added[i]));
        rolledBack := rolledBack + step.rolledBack;
        writes := writes + step.writes;
        i := i + 1;
      }
      assert blocks[..i] == blocks;
    }

    /** `None` is the node's abort; it leaves nothing changed. */
    method ApplyNotification(n: Notification) returns (t: Option<Transition>)
      modifies this`committed, this`probabilistic
      ensures t.None? <==> Aborts(n)
      ensures t.None? ==> GetView() == old(GetView())
      ensures t.Some? ==> Step(GetView(), t.value) == NotificationStep(finalityDepth, old(GetView()), n)
    {
      match n
      case BlockAdded(b) =>
        var applied := ApplyBlock(BlockFromRpc(b));
        t := Some(applied);
      case VirtualChainChanged(removed, added) =>
        var rolledBack := RemoveProbabilisticByHashes(removed);
        var unwinds := RemoveCommittedByHashes(removed);
        var writes, displaced := ApplyAdded(added);
        t := Some(Transition(writes, rolledBack + displaced, unwinds, None));
      case RecoveryRequired(fromDaa, toDaa) =>
        var rolledBack := RemoveProbabilisticInRange(ToI64(fromDaa), ToI64(toDaa));
        if rolledBack.None? {
          return None;
        }
        t := Some(Transition([], rolledBack.value, [], Some((fromDaa, toDaa))));
    }
  }
}
