/** Blocks committed before the last start and delivered again. The node no longer
    knows them: it commits them a second time and chains their POI from the tip. What
    that leaves in the store, and when the published chain survives it. */
module Restarts {
  import opened Prelude
  import opened OrderedKeys
  import opened Poi
  import opened Blocks
  import opened Ingestion
  import opened ChainWindow
  import opened Tables
  import opened Lineage
  import opened Persist
  import opened Layers
  import opened Chains
  import opened Unwinding
  import opened ReplayTheorems
  import opened ReorgTrace
  import opened ReorgLimits

  // ----- The POI rows when blocks are committed on top of a chain -----

  /** The POI row at a DAA once the blocks have been persisted, one after the other. */
  ghost predicate RowAfter(cfg: Config, db: Db, ws: seq<Block>, d: int, poi: map<int, PoiHash>) {
    && ((forall i :: 0 <= i < |ws| ==> ws[i].daa != d) ==>
         (d in poi <==> d in db.tables.poi) && (d in poi ==> poi[d] == db.tables.poi[d]))
    && (forall i :: 0 <= i < |ws| && ws[i].daa == d ==> d in poi && poi[d] == PersistBlocks(cfg, db, ws[..i + 1]).prior)
  }

  lemma PersistedRow(cfg: Config, db: Db, b: Block)
    ensures PersistBlock(cfg, db, b).tables.poi == db.tables.poi[b.daa := PersistBlock(cfg, db, b).prior]
  {
    WriteTouches(cfg, db.tables, b);
  }

  lemma {:induction false} RowsAfter(cfg: Config, db: Db, ws: seq<Block>, d: int)
    requires DaaOrder(ws)
    ensures RowAfter(cfg, db, ws, d, PersistBlocks(cfg, db, ws).tables.poi)
    decreases |ws|
  {
    if ws != [] {
      var n := |ws| - 1;
      var before := PersistBlocks(cfg, db, ws[..n]);
      RowsAfter(cfg, db, ws[..n], d);
      PersistedRow(cfg, before, ws[n]);
      RowNext(cfg, db, ws, n, d, before.tables.poi, PersistBlocks(cfg, db, ws).prior);
    }
  }

  lemma RowNext(cfg: Config, db: Db, ws: seq<Block>, n: nat, d: int, poi: map<int, PoiHash>, prior: PoiHash)
    requires |ws| == n + 1 && DaaOrder(ws) && RowAfter(cfg, db, ws[..n], d, poi)
    requires prior == PersistBlocks(cfg, db, ws).prior
    ensures RowAfter(cfg, db, ws, d, poi[ws[n].daa := prior])
  {
    assert ws[..n + 1] == ws;
    forall i | 0 <= i < n ensures ws[..n][..i + 1] == ws[..i + 1] && ws[..n][i] == ws[i] && ws[i].daa != ws[n].daa {
    }
  }

  /** Every published row still holds what it held. */
  ghost predicate KeepsRows(was: map<int, PoiHash>, poi: map<int, PoiHash>) {
    forall d :: d in was ==> d in poi && poi[d] == was[d]
  }

  /** A block is committed again: it stands at the DAA of a committed one. */
  ghost predicate SameDaa(bs: seq<Block>, ws: seq<Block>, i: nat, k: nat) {
    i < |ws| && k < |bs| && ws[i].daa == bs[k].daa
  }

  ghost predicate Recommits(bs: seq<Block>, ws: seq<Block>) {
    exists i, k :: SameDaa(bs, ws, i, k)
  }

  lemma NotAmong(bs: seq<Block>, ws: seq<Block>, k: nat)
    requires k < |bs| && !Recommits(bs, ws)
    ensures forall i :: 0 <= i < |ws| ==> ws[i].daa != bs[k].daa
  {
    forall i | 0 <= i < |ws| ensures ws[i].daa != bs[k].daa {
      assert !SameDaa(bs, ws, i, k);
    }
  }

  lemma RowKept(cfg: Config, bs: seq<Block>, ws: seq<Block>, k: nat, db: Db, after: Db)
    requires DaaOrder(ws) && k < |bs| && !Recommits(bs, ws)
    requires db == DbOf(cfg, bs) && after == PersistBlocks(cfg, db, ws)
    ensures bs[k].daa in db.tables.poi ==>
      bs[k].daa in after.tables.poi && after.tables.poi[bs[k].daa] == db.tables.poi[bs[k].daa]
  {
    NotAmong(bs, ws, k);
    RowsAfter(cfg, db, ws, bs[k].daa);
  }

  lemma RowsKept(cfg: Config, bs: seq<Block>, ws: seq<Block>, db: Db, after: Db)
    requires DaaOrder(ws) && !Recommits(bs, ws)
    requires db == DbOf(cfg, bs) && after == DbOf(cfg, bs + ws)
    ensures KeepsRows(db.tables.poi, after.tables.poi)
  {
    PersistJoin(cfg, bs, ws);
    DbOfScores(cfg, bs);
    forall d | d in db.tables.poi ensures d in after.tables.poi && after.tables.poi[d] == db.tables.poi[d] {
      var k :| 0 <= k < |bs| && bs[k].daa == d;
      RowKept(cfg, bs, ws, k, db, after);
    }
  }

  /** The bytes hashed up to a block's second commit, and up to its first. */
  ghost predicate RehashBroken(cfg: Config, bs: seq<Block>, ws: seq<Block>, i: nat, k: nat) {
    SameDaa(bs, ws, i, k) && Broken(cfg.hash, Inputs(cfg, bs + ws[..i + 1]), Inputs(cfg, bs[..k + 1]))
  }

  lemma RowOfSecond(cfg: Config, bs: seq<Block>, ws: seq<Block>, i: nat, all: seq<Block>)
    requires DaaOrder(ws) && i < |ws| && all == bs + ws[..i + 1]
    ensures ws[i].daa in DbOf(cfg, bs + ws).tables.poi
    ensures DbOf(cfg, bs + ws).tables.poi[ws[i].daa] == ChainTip(cfg.hash, Inputs(cfg, all))
  {
    PersistJoin(cfg, bs, ws);
    RowsAfter(cfg, DbOf(cfg, bs), ws, ws[i].daa);
    PersistJoin(cfg, bs, ws[..i + 1]);
    PriorIsTip(cfg, all);
  }

  lemma RowOfFirst(cfg: Config, bs: seq<Block>, k: nat, first: seq<Block>)
    requires DaaOrder(bs) && k < |bs| && first == bs[..k + 1]
    ensures bs[k].daa in DbOf(cfg, bs).tables.poi
    ensures DbOf(cfg, bs).tables.poi[bs[k].daa] == ChainTip(cfg.hash, Inputs(cfg, first))
  {
    RowIsTip(cfg, bs, k);
    PriorIsTip(cfg, first);
  }

  /** A row that a second commit leaves as it was exhibits a broken hash: two chains of
      different lengths have one tip. */
  lemma SameRowIsBroken(cfg: Config, bs: seq<Block>, ws: seq<Block>, i: nat, k: nat)
    requires DaaOrder(bs) && DaaOrder(ws) && SameDaa(bs, ws, i, k)
    requires KeepsRows(DbOf(cfg, bs).tables.poi, DbOf(cfg, bs + ws).tables.poi)
    ensures RehashBroken(cfg, bs, ws, i, k)
  {
    var all, first := bs + ws[..i + 1], bs[..k + 1];
    RowOfFirst(cfg, bs, k, first);
    RowOfSecond(cfg, bs, ws, i, all);
    RowTwiceIsBroken(cfg.hash, DbOf(cfg, bs).tables.poi, DbOf(cfg, bs + ws).tables.poi, ws[i].daa,
                     Inputs(cfg, all), Inputs(cfg, first));
  }

  lemma RowTwiceIsBroken(hash: HashFn, was: map<int, PoiHash>, poi: map<int, PoiHash>, d: int,
                         xs: seq<seq<byte>>, ys: seq<seq<byte>>)
    requires d in was && was[d] == ChainTip(hash, ys) && d in poi && poi[d] == ChainTip(hash, xs)
    requires KeepsRows(was, poi) && |ys| < |xs|
    ensures Broken(hash, xs, ys)
  {
    AnyLengthBinding(hash, xs, ys);
  }

  // ----- After a restart -----

  /** What a restarted node makes of a notification, in whatever state it stopped: it
      commits the added blocks that the last one's cutoff settles, on top of everything. */
  lemma CommittedAgain(cfg: Config, depth: Option<u64>, bs: seq<Block>, v: View, removed: seq<string>,
                       added: seq<IngestedBlock>, ws: seq<Block>, after: Db)
    requires DaaOrder(bs) && InOrder(BlocksFromRpc(added))
    requires ws == Ripe(BlocksFromRpc(added), LastCutoff(depth, added))
    requires after == NodeStep(cfg, depth, Restart(Node(v, DbOf(cfg, bs))), VirtualChainChanged(removed, added)).db
    ensures after == DbOf(cfg, bs + ws) && DaaOrder(ws)
  {
    var again := BlocksFromRpc(added);
    RestartForgets(cfg, depth, Node(v, DbOf(cfg, bs)), removed, added);
    AnchorIsPrior(cfg, bs);
    if again != [] {
      WindowOfCutoff(depth, again, LastCutoff(depth, added));
    } else {
      assert Finalized(ws) == [];
    }
    PersistMore(cfg, bs, ws);
  }

  /** A restarted node is told again of blocks it has committed, any of them. The
      published chain stays as it was if the last one's cutoff settles none of those,
      and otherwise only if the hash is broken. */
  lemma RestartRehashes(cfg: Config, depth: Option<u64>, bs: seq<Block>, v: View, removed: seq<string>,
                        added: seq<IngestedBlock>, ws: seq<Block>, after: Db)
    requires DaaOrder(bs) && InOrder(BlocksFromRpc(added))
    requires ws == Ripe(BlocksFromRpc(added), LastCutoff(depth, added))
    requires after == NodeStep(cfg, depth, Restart(Node(v, DbOf(cfg, bs))), VirtualChainChanged(removed, added)).db
    ensures after == DbOf(cfg, bs + ws)
    ensures !Recommits(bs, ws) ==> KeepsRows(DbOf(cfg, bs).tables.poi, after.tables.poi)
    ensures Recommits(bs, ws) && KeepsRows(DbOf(cfg, bs).tables.poi, after.tables.poi) ==>
      exists i, k :: RehashBroken(cfg, bs, ws, i, k)
  {
    CommittedAgain(cfg, depth, bs, v, removed, added, ws, after);
    if !Recommits(bs, ws) {
      RowsKept(cfg, bs, ws, DbOf(cfg, bs), after);
    } else if KeepsRows(DbOf(cfg, bs).tables.poi, after.tables.poi) {
      var i, k :| SameDaa(bs, ws, i, k);
      SameRowIsBroken(cfg, bs, ws, i, k);
    }
  }

  // ----- One block, finalised or at once settled -----

  /** The block is committed the moment it arrives at an empty state. */
  predicate CommitsAtOnce(depth: Option<u64>, b: Block) {
    b.isFinalized || (depth.Some? && depth.value < TWO_63 && (depth.value == 0 || b.daa <= 0))
  }

  lemma FirstWrites(depth: Option<u64>, b: Block)
    requires CommitsAtOnce(depth, b)
    ensures BlockStep(depth, View(map[], map[]), b).out.writes == [Mark(b, Cutoff(depth, b.daa))]
  {
    var v, b' := View(map[], map[]), Mark(b, Cutoff(depth, b.daa));
    var pool := Buffered(depth, v.buffered, b);
    assert pool == map[b.daa := b'];
    assert b'.isFinalized ==> b.daa in Finals(pool);
    assert !b'.isFinalized ==> Finals(pool) == {};
    assert Promotable(pool) == {b.daa};
    AscendingUnique([b.daa], {b.daa});
    assert Pick(pool, [b.daa]) == [b'];
  }

  lemma RestartPersists(cfg: Config, depth: Option<u64>, bs: seq<Block>, v: View, w: IngestedBlock, b: Block)
    requires DaaOrder(bs) && b == BlockFromRpc(w) && CommitsAtOnce(depth, b)
    ensures NodeStep(cfg, depth, Restart(Node(v, DbOf(cfg, bs))), BlockAdded(w)).db == PersistBlock(cfg, DbOf(cfg, bs), b)
  {
    AnchorIsPrior(cfg, bs);
    FirstWrites(depth, b);
    BlockIgnoresFlag(cfg, DbOf(cfg, bs), b);
    var one := [Mark(b, Cutoff(depth, b.daa))];
    assert one[..0] == [];
    assert PersistBlocks(cfg, DbOf(cfg, bs), one) == PersistBlock(cfg, DbOf(cfg, bs), one[0]);
  }

  lemma JoinOne(cfg: Config, bs: seq<Block>, b: Block)
    ensures DbOf(cfg, bs + [b]) == PersistBlock(cfg, DbOf(cfg, bs), b)
  {
    var one := [b];
    assert one[..0] == [] && bs + one[..0] == bs;
    PersistNext(cfg, bs, one, 0);
  }

  /** One committed block, delivered again and committed at once: its POI row and the
      anchor become a hash chained from the tip, which is the row it had only if the
      hash is broken. */
  lemma RestartRehashesOne(cfg: Config, depth: Option<u64>, bs: seq<Block>, v: View, w: IngestedBlock, b: Block, k: nat,
                           after: Db)
    requires DaaOrder(bs) && k < |bs| && b == BlockFromRpc(w) && b.daa == bs[k].daa && CommitsAtOnce(depth, b)
    requires after == NodeStep(cfg, depth, Restart(Node(v, DbOf(cfg, bs))), BlockAdded(w)).db
    ensures after == DbOf(cfg, bs + [b])
    ensures after.tables.poi == DbOf(cfg, bs).tables.poi[b.daa := after.prior]
    ensures after.tables.poi == DbOf(cfg, bs).tables.poi ==> RehashBroken(cfg, bs, [b], 0, k)
  {
    RestartPersists(cfg, depth, bs, v, w, b);
    JoinOne(cfg, bs, b);
    PersistedRow(cfg, DbOf(cfg, bs), b);
    if after.tables.poi == DbOf(cfg, bs).tables.poi {
      SameRowIsBroken(cfg, bs, [b], 0, k);
    }
  }

  // ----- The other tables -----

  /** The hits of a chain, in the order they were recorded. */
  function Sightings(bs: seq<Block>): seq<Sighting> {
    if bs == [] then [] else Sightings(bs[..|bs| - 1]) + SightingsOf(bs[|bs| - 1].content.hits, bs[|bs| - 1])
  }

  function SightingsOf(hits: seq<Hit>, b: Block): (r: seq<Sighting>)
    ensures |r| == |hits|
    ensures forall i :: 0 <= i < |hits| ==> r[i] == Sighting(hits[i], b.content, b.daa)
  {
    seq(|hits|, i requires 0 <= i < |hits| => Sighting(hits[i], b.content, b.daa))
  }

  /** All that recording a hit reads and writes. */
  ghost predicate SameHitTables(t: Tables, u: Tables) {
    t.rows == u.rows && t.heads == u.heads && t.utxos == u.utxos
  }

  lemma SameHit(cfg: Config, t: Tables, u: Tables, x: Sighting)
    requires SameHitTables(t, u)
    ensures SameHitTables(PersistHit(t, cfg.render, cfg.gid, x.hit, x.content, x.daa),
                          PersistHit(u, cfg.render, cfg.gid, x.hit, x.content, x.daa))
  {
    ClassifySame(t, u, cfg.gid, x.hit, x.content.inputs);
    var c := Classify(t, cfg.gid, x.hit, x.content.inputs);
    PersistedAt(t, cfg.render, cfg.gid, x.hit, x.content, x.daa, c, FetchHead(t, c.id),
                PersistHit(t, cfg.render, cfg.gid, x.hit, x.content, x.daa));
    PersistedAt(u, cfg.render, cfg.gid, x.hit, x.content, x.daa, c, FetchHead(u, c.id),
                PersistHit(u, cfg.render, cfg.gid, x.hit, x.content, x.daa));
    TrackedAt(t, cfg.render, cfg.gid, x.hit, x.content, x.daa);
    TrackedAt(u, cfg.render, cfg.gid, x.hit, x.content, x.daa);
  }

  lemma {:induction false} SameHits(cfg: Config, t: Tables, u: Tables, hits: seq<Hit>, b: Block)
    requires SameHitTables(t, u)
    ensures SameHitTables(PersistHits(cfg, t, hits, b), PersistAll(u, cfg.render, cfg.gid, SightingsOf(hits, b)))
    decreases |hits|
  {
    if hits != [] {
      var n := |hits| - 1;
      SameHits(cfg, t, u, hits[..n], b);
      assert SightingsOf(hits, b)[..n] == SightingsOf(hits[..n], b);
      SameHit(cfg, PersistHits(cfg, t, hits[..n], b),
              PersistAll(u, cfg.render, cfg.gid, SightingsOf(hits[..n], b)), SightingsOf(hits, b)[n]);
    }
  }

  lemma PersistAllLast(t: Tables, cfg: Config, shorter: seq<Sighting>, all: seq<Sighting>, before: Tables)
    requires |all| == |shorter| + 1 && all[..|shorter|] == shorter
    requires before == PersistAll(t, cfg.render, cfg.gid, shorter)
    ensures var last := all[|shorter|];
      PersistAll(t, cfg.render, cfg.gid, all) == PersistHit(before, cfg.render, cfg.gid, last.hit, last.content, last.daa)
  {
  }

  lemma {:induction false} PersistAllJoin(t: Tables, cfg: Config, xs: seq<Sighting>, ys: seq<Sighting>)
    ensures PersistAll(t, cfg.render, cfg.gid, xs + ys)
         == PersistAll(PersistAll(t, cfg.render, cfg.gid, xs), cfg.render, cfg.gid, ys)
    decreases |ys|
  {
    if ys == [] {
      JoinNothing(xs);
    } else {
      var n := |ys| - 1;
      var mid := PersistAll(t, cfg.render, cfg.gid, xs);
      var before := PersistAll(mid, cfg.render, cfg.gid, ys[..n]);
      JoinLast(xs, ys, n);
      PersistAllJoin(t, cfg, xs, ys[..n]);
      PersistAllLast(t, cfg, xs + ys[..n], xs + ys, before);
      PersistAllLast(mid, cfg, ys[..n], ys, before);
    }
  }

  lemma BlockHits(cfg: Config, db: Db, b: Block)
    requires cfg.mapping.Some?
    ensures SameHitTables(PersistBlock(cfg, db, b).tables, PersistHits(cfg, db.tables, b.content.hits, b))
  {
    var t1 := RecordCommitted(db.tables, b.hash, b.daa);
    var m := cfg.mapping.value;
    SameHits(cfg, db.tables, db.tables, b.content.hits, b);
    SameHits(cfg, t1, db.tables, b.content.hits, b);
    UpsertTouches(Locked(cfg, db.tables, b), b.daa, Dispatched(cfg, m, db.tables, b));
    SpentTouches(m, UpsertAll(Locked(cfg, db.tables, b), b.daa, Dispatched(cfg, m, db.tables, b)), b);
  }

  /** A chain's lineage and UTXO tables are those of its hits alone. */
  lemma {:induction false} ChainLineage(cfg: Config, bs: seq<Block>)
    requires cfg.mapping.Some?
    ensures SameHitTables(DbOf(cfg, bs).tables, PersistAll(EMPTY, cfg.render, cfg.gid, Sightings(bs)))
    decreases |bs|
  {
    if bs != [] {
      var n := |bs| - 1;
      var before := Sightings(bs[..n]);
      ChainLineage(cfg, bs[..n]);
      BlockHits(cfg, DbOf(cfg, bs[..n]), bs[n]);
      SameHits(cfg, DbOf(cfg, bs[..n]).tables, PersistAll(EMPTY, cfg.render, cfg.gid, before), bs[n].content.hits, bs[n]);
      PersistAllJoin(EMPTY, cfg, before, SightingsOf(bs[n].content.hits, bs[n]));
    }
  }

  /** The blocks are committed ones, in whatever rendering of their finality. */
  ghost predicate AllKnown(bs: seq<Block>, ws: seq<Block>) {
    forall i :: 0 <= i < |ws| ==> Known(bs, ws[i])
  }

  ghost predicate Known(bs: seq<Block>, b: Block) {
    exists k :: 0 <= k < |bs| && SameBlock(bs[k], b)
  }

  ghost predicate SameBlock(a: Block, b: Block) {
    a.hash == b.hash && a.daa == b.daa && a.content == b.content
  }

  lemma {:induction false} SightingOf(bs: seq<Block>, k: nat, i: nat)
    requires k < |bs| && i < |bs[k].content.hits|
    ensures SightingsOf(bs[k].content.hits, bs[k])[i] in Sightings(bs)
    decreases |bs|
  {
    if k < |bs| - 1 {
      SightingOf(bs[..|bs| - 1], k, i);
    }
  }

  lemma {:induction false} SightingSource(ws: seq<Block>, j: nat) returns (k: nat, i: nat)
    requires j < |Sightings(ws)|
    ensures k < |ws| && i < |ws[k].content.hits| && Sightings(ws)[j] == SightingsOf(ws[k].content.hits, ws[k])[i]
    decreases |ws|
  {
    var n := |ws| - 1;
    if j < |Sightings(ws[..n])| {
      k, i := SightingSource(ws[..n], j);
    } else {
      k, i := n, j - |Sightings(ws[..n])|;
    }
  }

  lemma KnownRepeats(bs: seq<Block>, ws: seq<Block>, j: nat)
    requires AllKnown(bs, ws) && j < |Sightings(ws)|
    ensures Repeats(Sightings(ws)[j], Sightings(bs))
  {
    var n, i := SightingSource(ws, j);
    assert Known(bs, ws[n]);
    var k :| 0 <= k < |bs| && SameBlock(bs[k], ws[n]);
    SightingOf(bs, k, i);
    var m :| 0 <= m < |Sightings(bs)| && Sightings(bs)[m] == SightingsOf(bs[k].content.hits, bs[k])[i];
    assert Alike(Sightings(ws)[j], Sightings(bs)[m]);
  }

  lemma SeqAssoc(a: seq<Sighting>, b: seq<Sighting>, c: seq<Sighting>)
    ensures (a + b) + c == a + (b + c)
  {
  }

  lemma SightingsLast(shorter: seq<Block>, all: seq<Block>, before: seq<Sighting>)
    requires |all| == |shorter| + 1 && all[..|shorter|] == shorter && before == Sightings(shorter)
    ensures Sightings(all) == before + SightingsOf(all[|shorter|].content.hits, all[|shorter|])
  {
  }

  lemma {:induction false} SightingsJoin(bs: seq<Block>, ws: seq<Block>)
    ensures Sightings(bs + ws) == Sightings(bs) + Sightings(ws)
    decreases |ws|
  {
    if ws == [] {
      JoinNothing(bs);
      JoinNothing(Sightings(bs));
    } else {
      var n := |ws| - 1;
      JoinLast(bs, ws, n);
      SightingsJoin(bs, ws[..n]);
      SightingsLast(bs + ws[..n], bs + ws, Sightings(bs) + Sightings(ws[..n]));
      SightingsLast(ws[..n], ws, Sightings(ws[..n]));
      SeqAssoc(Sightings(bs), Sightings(ws[..n]), SightingsOf(ws[n].content.hits, ws[n]));
    }
  }

  lemma KnownRow(committed: map<string, int>, bs: seq<Block>, b: Block)
    requires ListsHashes(committed, bs) && Known(bs, b)
    ensures committed[b.hash := b.daa] == committed
  {
    var k :| 0 <= k < |bs| && SameBlock(bs[k], b);
  }

  lemma {:induction false} CommittedKnown(cfg: Config, bs: seq<Block>, ws: seq<Block>)
    requires DistinctHashes(bs) && AllKnown(bs, ws)
    ensures DbOf(cfg, bs + ws).tables.committed == DbOf(cfg, bs).tables.committed
    decreases |ws|
  {
    if ws == [] {
      assert bs + ws == bs;
    } else {
      var n := |ws| - 1;
      CommittedKnown(cfg, bs, ws[..n]);
      PersistNext(cfg, bs, ws, n);
      WriteTouches(cfg, DbOf(cfg, bs + ws[..n]).tables, ws[n]);
      DbOfHashes(cfg, bs);
      KnownRow(DbOf(cfg, bs).tables.committed, bs, ws[n]);
    }
  }

  /** Whatever it does to the POI rows, committing known blocks again changes no
      committed row, no lineage row or head, and the id of no tracked output. */
  lemma RecommitKeepsLineage(cfg: Config, bs: seq<Block>, ws: seq<Block>)
    requires cfg.mapping.Some? && DistinctHashes(bs) && Causal(Sightings(bs)) && AllKnown(bs, ws)
    ensures DbOf(cfg, bs + ws).tables.committed == DbOf(cfg, bs).tables.committed
    ensures SameLineage(DbOf(cfg, bs).tables, DbOf(cfg, bs + ws).tables)
  {
    CommittedKnown(cfg, bs, ws);
    ChainLineage(cfg, bs);
    ChainLineage(cfg, bs + ws);
    SightingsJoin(bs, ws);
    PersistAllJoin(EMPTY, cfg, Sightings(bs), Sightings(ws));
    forall j | 0 <= j < |Sightings(ws)| ensures Repeats(Sightings(ws)[j], Sightings(bs)) {
      KnownRepeats(bs, ws, j);
    }
    RedeliveryAddsNothing(EMPTY, cfg.render, cfg.gid, Sightings(bs), Sightings(ws));
    SameTablesSameLineage(cfg, bs, ws);
  }

  lemma SameTablesSameLineage(cfg: Config, bs: seq<Block>, ws: seq<Block>)
    requires var once := PersistAll(EMPTY, cfg.render, cfg.gid, Sightings(bs));
             var twice := PersistAll(once, cfg.render, cfg.gid, Sightings(ws));
      SameLineage(once, twice) && SameHitTables(DbOf(cfg, bs).tables, once) && SameHitTables(DbOf(cfg, bs + ws).tables, twice)
    ensures SameLineage(DbOf(cfg, bs).tables, DbOf(cfg, bs + ws).tables)
  {
    var once := PersistAll(EMPTY, cfg.render, cfg.gid, Sightings(bs));
    var twice := PersistAll(once, cfg.render, cfg.gid, Sightings(ws));
    forall o ensures SameIdAt(DbOf(cfg, bs).tables, DbOf(cfg, bs + ws).tables, o) {
      assert SameIdAt(once, twice, o);
    }
  }
}
