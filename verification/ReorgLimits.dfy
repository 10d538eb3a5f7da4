/** Where the replay-safety contract stops: what the code does with blocks that
    arrive late or at a non-positive DAA, with a replacing tip below the orphaned one,
    and with removals after a restart. Removals that are no suffix, suffixes that
    overwrite older rows and blocks from before a restart are dealt with in `Removals`,
    `Unwinding` and `Restarts`. */
module ReorgLimits {
  import opened Prelude
  import opened OrderedKeys
  import opened Blocks
  import opened Ingestion
  import opened ChainWindow
  import opened IngestionInvariants
  import opened Persist
  import opened Layers
  import opened Chains
  import opened Unwinding
  import opened ReplaySafety
  import opened ReorgTrace

  // ----- Arrivals the main theorem excludes -----

  /** The highest finalised DAA is 0 when nothing is finalised, so with a depth set
      a first block is committed at once exactly when the depth is 0 or its DAA is
      not positive. */
  lemma FirstBlockCommitsIff(d: u64, b: Block)
    requires d < TWO_63 && !b.isFinalized
    ensures b.daa in BlockStep(Some(d), View(map[], map[]), b).next.committed <==> d == 0 || b.daa <= 0
  {
    var pool := Buffered(Some(d), map[], b);
    assert pool.Keys == {b.daa};
    var marked := b.daa <= SaturatingSub(b.daa, d);
    assert pool[b.daa].isFinalized == marked;
    assert Finals(pool) == if marked then {b.daa} else {};
    assert b.daa in Promotable(pool) <==> b.daa <= HighestFinalized(pool);
  }

  /** A block that arrives finalised is committed however late it comes. */
  lemma LateFinalizedCommits(depth: Option<u64>, v: View, w: IngestedBlock, daa: int)
    requires w.isFinalized && daa == ToI64(w.daa) && daa !in v.committed
    ensures var committed := NotificationStep(depth, v, BlockAdded(w)).next.committed;
      daa in committed && committed[daa] == Block(w.hash, daa, true, w.content)
  {
    var pool := Buffered(depth, v.buffered, BlockFromRpc(w));
    assert daa in Finals(pool);
    assert daa in Promotable(pool);
  }

  ghost predicate Positive(v: View, b: Block) {
    0 < b.daa && forall k :: k in v.buffered ==> 0 < k && (v.buffered[k].hash == b.hash ==> k == b.daa)
  }

  /** What the arrival of `b` leaves in the buffer before promotion: itself, and what
      was buffered below it. */
  predicate Stays(v: View, b: Block, k: int) {
    k == b.daa || (k in v.buffered && k < b.daa)
  }

  /** A finalised block settles everything below it, any other one what lies a depth below. */
  ghost predicate Due(depth: Option<u64>, b: Block, k: int) {
    b.isFinalized || (depth.Some? && depth.value < TWO_63 && k + depth.value <= b.daa)
  }

  lemma PoolIs(depth: Option<u64>, v: View, b: Block, k: int)
    requires Inv(v) && Positive(v, b)
    ensures k in Buffered(depth, v.buffered, b) <==> Stays(v, b, k)
    ensures k in Buffered(depth, v.buffered, b) ==> 0 < k
    ensures k in Buffered(depth, v.buffered, b) && !b.isFinalized ==>
      (Buffered(depth, v.buffered, b)[k].isFinalized <==> Due(depth, b, k))
  {
  }

  lemma PromotedIff(depth: Option<u64>, v: View, b: Block, k: int, pool: map<int, Block>)
    requires Inv(v) && Positive(v, b) && pool == Buffered(depth, v.buffered, b)
    requires b.isFinalized || Cutoff(depth, b.daa).Some?
    ensures k in Promotable(pool) <==> Stays(v, b, k) && Due(depth, b, k)
  {
    PoolIs(depth, v, b, k);
    PoolIs(depth, v, b, b.daa);
    if b.isFinalized {
      assert b.daa in Finals(pool);
    } else if Finals(pool) != {} {
      PoolIs(depth, v, b, HighestFinalized(pool));
      assert k in pool && Due(depth, b, k) ==> k in Finals(pool);
    } else {
      assert k !in Finals(pool);
    }
  }

  /** In any order of arrival: a DAA is written exactly when it stays and is due. */
  lemma WrittenIff(depth: Option<u64>, v: View, b: Block, k: int)
    requires Inv(v) && Positive(v, b) && b.daa !in v.committed
    ensures (exists i :: 0 <= i < |BlockStep(depth, v, b).out.writes| && BlockStep(depth, v, b).out.writes[i].daa == k)
       <==> Stays(v, b, k) && Due(depth, b, k)
  {
    var pool := Buffered(depth, v.buffered, b);
    PoolShape(depth, v, b);
    if b.isFinalized || Cutoff(depth, b.daa).Some? {
      PromotedIff(depth, v, b, k, pool);
      PickedAt(pool, Promotable(pool), k);
      assert BlockStep(depth, v, b).out.writes == PickSet(pool, Promotable(pool));
    } else {
      PickedAt(pool, {}, k);
      assert BlockStep(depth, v, b).out.writes == PickSet(pool, {});
    }
  }

  lemma PickedAt(m: map<int, Block>, s: set<int>, k: int)
    requires Keyed(m) && s <= m.Keys
    ensures (exists i :: 0 <= i < |PickSet(m, s)| && PickSet(m, s)[i].daa == k) <==> k in s
  {
    var ks := Ascending(s);
    if k in s {
      assert k in ks;
      var i :| 0 <= i < |ks| && ks[i] == k;
      assert PickSet(m, s)[i].daa == k;
    }
  }

  /** When a write can fall below what is committed already: exactly when something
      that stays, `b` itself or a block buffered below it, lies below and is due. */
  lemma LateWriteIff(depth: Option<u64>, v: View, b: Block, top: int)
    requires Inv(v) && Positive(v, b) && b.daa !in v.committed && top in v.committed
    ensures (exists i :: 0 <= i < |BlockStep(depth, v, b).out.writes| && BlockStep(depth, v, b).out.writes[i].daa < top)
       <==> exists k :: Stays(v, b, k) && k < top && Due(depth, b, k)
  {
    var writes := BlockStep(depth, v, b).out.writes;
    if i :| 0 <= i < |writes| && writes[i].daa < top {
      WrittenIff(depth, v, b, writes[i].daa);
    }
    if k :| Stays(v, b, k) && k < top && Due(depth, b, k) {
      WrittenIff(depth, v, b, k);
      var i :| 0 <= i < |writes| && writes[i].daa == k;
    }
  }

  // ----- A tip below the orphaned one -----

  ghost predicate Plain(w: IngestedBlock, daa: u64) {
    w.daa == daa && !w.isFinalized && w.content.hits == [] && w.content.inputs == []
  }

  lemma OneIsInOrder(b: Block)
    requires 0 < b.daa && !b.isFinalized && b.content.hits == []
    ensures InOrder([b]) && Legal([b])
  {
  }

  lemma StartContinues(b: Block, start: Track)
    requires start == Track([], [], []) && 0 < b.daa && !b.isFinalized && b.content.hits == []
    ensures Continue(start, [b]) && Recent(start) + [b] == [b]
  {
    OneIsInOrder(b);
    var nothing: seq<Block> := [];
    assert nothing + [b] == [b] && nothing + (nothing + [b]) == [b];
  }

  lemma TrackOfOne(cfg: Config, depth: Option<u64>, b: Block, ws: seq<IngestedBlock>, nothing: seq<Event>)
    requires depth == Some(3) && nothing == [] && BlocksFromRpc(ws) == [b] && b.daa == 5 && !b.isFinalized
    requires b.content.hits == []
    ensures InOrderRun(cfg, depth, Arrivals(ws)) && RunTrack(depth, Arrivals(ws)) == Track([], [], [b])
  {
    var start := RunTrack(depth, nothing);
    StartContinues(b, start);
    ArrivalsExtend(cfg, depth, nothing, ws, start);
    assert nothing + Arrivals(ws) == Arrivals(ws);
    ExtendIs(depth, start, [b], [b], 0);
    assert [b][..0] == [] && [b][0..] == [b];
  }

  lemma OneThenAnother(b: Block, c: Block)
    requires 0 < b.daa < c.daa && !b.isFinalized && !c.isFinalized && b.hash != c.hash
    requires b.content.hits == [] && b.content.inputs == [] && c.content.hits == [] && c.content.inputs == []
    ensures InOrder([b, c]) && Legal([b, c])
  {
    assert b.hash != c.hash;
  }

  lemma TwoContinue(x: IngestedBlock, w: IngestedBlock)
    requires InOrder([BlockFromRpc(x), BlockFromRpc(w)]) && Legal([BlockFromRpc(x), BlockFromRpc(w)])
    ensures Continue(Track([], [], [BlockFromRpc(x)]), BlocksFromRpc([w]))
  {
    var b, c := BlockFromRpc(x), BlockFromRpc(w);
    var tr := Track([], [], [b]);
    assert BlocksFromRpc([w]) == [c];
    assert Recent(tr) == [b] && [b] + [c] == [b, c];
    assert tr.base + (Recent(tr) + [c]) == [b, c];
  }

  lemma {:induction false} PlainIsClean(cfg: Config, p: seq<Block>, s: seq<Block>)
    requires forall i :: 0 <= i < |s| ==> s[i].content.hits == [] && s[i].content.inputs == []
    ensures AllOutpoints(s) == {} && AllSpendKeys(s) == {} && Clean(cfg, p, s)
    decreases |s|
  {
    if s != [] {
      PlainIsClean(cfg, p, s[..|s| - 1]);
    }
  }

  lemma PlainOrphan(cfg: Config, depth: Option<u64>, tr: Track, orphan: IngestedBlock)
    requires orphan.content.hits == [] && orphan.content.inputs == []
    ensures CleanOrphans(cfg, depth, tr, [orphan])
  {
    OrphansAreOrphans(depth, tr, [orphan]);
    PlainIsClean(cfg, tr.base + Recent(tr), CommittedOrphans(depth, tr, [orphan]));
  }

  /** With depth 3: an orphan at 10 settles the block at 5, the replacement at 6
      does not, and the node that saw the orphan ends in a different state. */
  lemma LowerTipLeavesTrace(cfg: Config, x: IngestedBlock, orphan: IngestedBlock, added: IngestedBlock)
    requires Sane(cfg) && Plain(x, 5) && Plain(orphan, 10) && Plain(added, 6)
    requires x.hash != orphan.hash && x.hash != added.hash
    ensures RunNode(cfg, Some(3), Detour(Arrivals([x]), [orphan], [added]))
         != RunNode(cfg, Some(3), Arrivals([x]) + Arrivals([added]))
  {
    var tr := Track([], [], [BlockFromRpc(x)]);
    assert BlocksFromRpc([x]) == [BlockFromRpc(x)];
    TrackOfOne(cfg, Some(3), BlockFromRpc(x), [x], []);
    OneThenAnother(BlockFromRpc(x), BlockFromRpc(orphan));
    OneThenAnother(BlockFromRpc(x), BlockFromRpc(added));
    TwoContinue(x, orphan);
    TwoContinue(x, added);
    PlainOrphan(cfg, Some(3), tr, orphan);
    ReorgLeavesNoTrace(cfg, Some(3), Arrivals([x]), [orphan], [added], tr);
    assert AtOrBelow(tr.waiting[0], LastCutoff(Some(3), [orphan]));
    assert !AtOrBelow(tr.waiting[0], LastCutoff(Some(3), [added]));
  }

  // ----- Removals after a restart -----

  /** The in-memory map that surfaces unwinds starts empty, so a restarted node pays
      no heed to what a notification removes, whatever it adds ... */
  lemma RestartForgets(cfg: Config, depth: Option<u64>, s: Node, removed: seq<string>, added: seq<IngestedBlock>)
    ensures NodeStep(cfg, depth, Restart(s), VirtualChainChanged(removed, added))
         == Node(BlocksStep(depth, View(map[], map[]), BlocksFromRpc(added)).next,
                 PersistBlocks(cfg, Restart(s).db, BlocksStep(depth, View(map[], map[]), BlocksFromRpc(added)).out.writes))
  {
    var v := View(map[], map[]);
    assert Holding(v.committed, removed) == {} && Holding(v.buffered, removed) == {};
    assert View(v.committed - {}, v.buffered - {}) == v;
    assert NotificationStep(depth, v, VirtualChainChanged(removed, added)).out.unwinds == [];
  }

  function HashSet(ws: seq<Block>): set<string> {
    if ws == [] then {} else HashSet(ws[..|ws| - 1]) + {ws[|ws| - 1].hash}
  }

  lemma {:induction false} NotInHashSet(ws: seq<Block>, h: string)
    requires forall j :: 0 <= j < |ws| ==> ws[j].hash != h
    ensures h !in HashSet(ws)
    decreases |ws|
  {
    if ws != [] {
      NotInHashSet(ws[..|ws| - 1], h);
    }
  }

  lemma PersistedHash(cfg: Config, db: Db, b: Block)
    ensures PersistBlock(cfg, db, b).tables.committed.Keys == db.tables.committed.Keys + {b.hash}
  {
    WriteTouches(cfg, db.tables, b);
  }

  lemma {:induction false} CommittedHashes(cfg: Config, db: Db, ws: seq<Block>)
    ensures PersistBlocks(cfg, db, ws).tables.committed.Keys == db.tables.committed.Keys + HashSet(ws)
    decreases |ws|
  {
    if ws != [] {
      var n := |ws| - 1;
      CommittedHashes(cfg, db, ws[..n]);
      PersistedHash(cfg, PersistBlocks(cfg, db, ws[..n]), ws[n]);
    }
  }

  /** ... so its store is that of the surviving prefix, followed by what was added,
      only when no committed block was removed; here nothing removed is added back. */
  lemma RestartKeepsOrphans(cfg: Config, depth: Option<u64>, bs: seq<Block>, m: nat, v: View, removed: seq<string>,
                            added: seq<IngestedBlock>, writes: seq<Block>, after: Db)
    requires DaaOrder(bs) && DistinctHashes(bs) && m <= |bs|
    requires writes == BlocksStep(depth, View(map[], map[]), BlocksFromRpc(added)).out.writes
    requires forall i, j :: m <= i < |bs| && 0 <= j < |writes| ==> writes[j].hash != bs[i].hash
    requires after == NodeStep(cfg, depth, Restart(Node(v, DbOf(cfg, bs))), VirtualChainChanged(removed, added)).db
    ensures after == PersistBlocks(cfg, DbOf(cfg, bs[..m]), writes) <==> m == |bs|
  {
    RestartForgets(cfg, depth, Node(v, DbOf(cfg, bs)), removed, added);
    AnchorIsPrior(cfg, bs);
    assert after == PersistBlocks(cfg, DbOf(cfg, bs), writes);
    if m < |bs| {
      OrphanStays(cfg, bs, m, writes);
    } else {
      assert bs[..m] == bs;
    }
  }

  lemma OrphanIsNew(cfg: Config, bs: seq<Block>, m: nat, low: seq<Block>)
    requires DistinctHashes(bs) && m < |bs| && low == bs[..m]
    ensures bs[m].hash in DbOf(cfg, bs).tables.committed && bs[m].hash !in DbOf(cfg, low).tables.committed
  {
    DbOfHashes(cfg, bs);
    DbOfHashes(cfg, low);
    forall i | 0 <= i < m ensures low[i].hash != bs[m].hash {
      assert bs[i].hash != bs[m].hash;
    }
  }

  lemma OrphanStays(cfg: Config, bs: seq<Block>, m: nat, writes: seq<Block>)
    requires DistinctHashes(bs) && m < |bs| && forall j :: 0 <= j < |writes| ==> writes[j].hash != bs[m].hash
    ensures PersistBlocks(cfg, DbOf(cfg, bs), writes) != PersistBlocks(cfg, DbOf(cfg, bs[..m]), writes)
  {
    OrphanIsNew(cfg, bs, m, bs[..m]);
    CommittedHashes(cfg, DbOf(cfg, bs), writes);
    CommittedHashes(cfg, DbOf(cfg, bs[..m]), writes);
    NotInHashSet(writes, bs[m].hash);
  }
}
