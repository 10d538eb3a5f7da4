/** What a chain of blocks leaves in the store when it is persisted from empty: which
    rows there are, and which block each carries the DAA of. */
module Chains {
  import opened Poi
  import opened Blocks
  import opened ChainWindow
  import opened Tables
  import opened Persist
  import opened Truncation
  import opened Layers
  import opened BlockRows

  /** The store and anchor after the blocks have been persisted, in order, from empty. */
  function DbOf(cfg: Config, bs: seq<Block>): Db {
    PersistBlocks(cfg, Db(EMPTY, GENESIS), bs)
  }

  ghost predicate DistinctHashes(bs: seq<Block>) {
    forall i, j :: 0 <= i < j < |bs| ==> bs[i].hash != bs[j].hash
  }

  /** Different blocks at rising DAAs. They may carry the same transactions. */
  ghost predicate Legal(bs: seq<Block>) {
    DaaOrder(bs) && DistinctHashes(bs) && forall i :: 0 <= i < |bs| ==> SmallIndices(bs[i])
  }

  ghost predicate AllBelow(bs: seq<Block>, limit: int) {
    forall i :: 0 <= i < |bs| ==> bs[i].daa < limit
  }

  lemma DbOfLast(cfg: Config, bs: seq<Block>, n: nat)
    requires |bs| == n + 1
    ensures DbOf(cfg, bs) == PersistBlock(cfg, DbOf(cfg, bs[..n]), bs[n])
  {
  }

  // ----- The committed and POI tables: one row per block -----

  /** The committed and POI tables hold one row per block of the chain. */
  ghost predicate Lists(t: Tables, bs: seq<Block>) {
    ListsHashes(t.committed, bs) && ListsScores(t.poi.Keys, bs)
  }

  ghost predicate ListsHashes(committed: map<string, int>, bs: seq<Block>) {
    && (forall i :: 0 <= i < |bs| ==> bs[i].hash in committed && committed[bs[i].hash] == bs[i].daa)
    && (forall h :: h in committed ==> exists i :: 0 <= i < |bs| && bs[i].hash == h)
  }

  ghost predicate ListsScores(scores: set<int>, bs: seq<Block>) {
    && (forall i :: 0 <= i < |bs| ==> bs[i].daa in scores)
    && (forall d :: d in scores ==> exists i :: 0 <= i < |bs| && bs[i].daa == d)
  }

  lemma OneMoreHash(committed: map<string, int>, bs: seq<Block>, n: nat)
    requires |bs| == n + 1 && ListsHashes(committed, bs[..n]) && forall i :: 0 <= i < n ==> bs[i].hash != bs[n].hash
    ensures ListsHashes(committed[bs[n].hash := bs[n].daa], bs)
  {
    var after := committed[bs[n].hash := bs[n].daa];
    forall h | h in after ensures exists i :: 0 <= i < |bs| && bs[i].hash == h {
      if h == bs[n].hash {
        assert bs[n].hash == h;
      } else {
        var i :| 0 <= i < n && bs[..n][i].hash == h;
        assert bs[i].hash == h;
      }
    }
    assert forall i :: 0 <= i < n ==> bs[..n][i] == bs[i];
  }

  lemma OneMoreScore(poi: map<int, PoiHash>, bs: seq<Block>, n: nat, h: PoiHash)
    requires |bs| == n + 1 && ListsScores(poi.Keys, bs[..n])
    ensures ListsScores(poi[bs[n].daa := h].Keys, bs)
  {
    var scores := poi[bs[n].daa := h].Keys;
    forall d | d in scores ensures exists i :: 0 <= i < |bs| && bs[i].daa == d {
      if d == bs[n].daa {
        assert bs[n].daa == d;
      } else {
        var i :| 0 <= i < n && bs[..n][i].daa == d;
        assert bs[i].daa == d;
      }
    }
    assert forall i :: 0 <= i < n ==> bs[..n][i] == bs[i];
  }

  /** What the last block adds to the committed and POI tables. */
  lemma LastBlock(cfg: Config, bs: seq<Block>, t: Tables, db: Db)
    requires bs != [] && t == DbOf(cfg, bs[..|bs| - 1]).tables && db == DbOf(cfg, bs)
    ensures var b := bs[|bs| - 1];
      db.tables.committed == t.committed[b.hash := b.daa] && db.tables.poi == t.poi[b.daa := db.prior]
  {
    var n := |bs| - 1;
    DbOfLast(cfg, bs, n);
    WriteTouches(cfg, t, bs[n]);
  }

  lemma {:induction false} DbOfHashes(cfg: Config, bs: seq<Block>)
    requires DistinctHashes(bs)
    ensures ListsHashes(DbOf(cfg, bs).tables.committed, bs)
    decreases |bs|
  {
    if bs != [] {
      var n := |bs| - 1;
      DbOfHashes(cfg, bs[..n]);
      var t := DbOf(cfg, bs[..n]).tables;
      LastBlock(cfg, bs, t, DbOf(cfg, bs));
      OneMoreHash(t.committed, bs, n);
    }
  }

  lemma {:induction false} DbOfScores(cfg: Config, bs: seq<Block>)
    ensures ListsScores(DbOf(cfg, bs).tables.poi.Keys, bs)
    decreases |bs|
  {
    if bs != [] {
      var n := |bs| - 1;
      DbOfScores(cfg, bs[..n]);
      var t, db := DbOf(cfg, bs[..n]).tables, DbOf(cfg, bs);
      LastBlock(cfg, bs, t, db);
      OneMoreScore(t.poi, bs, n, db.prior);
    }
  }

  // ----- Every row carries a DAA of the chain, and the lineage is a forest -----

  lemma LegalInit(bs: seq<Block>)
    requires Legal(bs) && bs != []
    ensures var n := |bs| - 1;
      Legal(bs[..n]) && AllBelow(bs[..n], bs[n].daa) && SmallIndices(bs[n])
      && forall i :: 0 <= i < n ==> bs[..n][i].hash != bs[n].hash
  {
  }

  lemma LegalParts(p: seq<Block>, s: seq<Block>)
    requires Legal(p + s)
    ensures Legal(p) && forall i :: 0 <= i < |s| ==> AllBelow(p, s[i].daa)
  {
    var all := p + s;
    assert forall i :: 0 <= i < |p| ==> all[i] == p[i];
    assert forall i :: 0 <= i < |s| ==> all[|p| + i] == s[i];
  }

  lemma LayeredStep(cfg: Config, db: Db, b: Block, limit: int, after: Db)
    requires Sane(cfg) && Layered(cfg, db.tables, b.daa) && SmallIndices(b) && b.daa < limit
    requires after == PersistBlock(cfg, db, b)
    ensures Layered(cfg, after.tables, limit)
  {
    BlockLayer(cfg, db, b);
    BoundedUp(after.tables, b.daa + 1, limit);
  }

  lemma {:induction false} DbOfLayered(cfg: Config, bs: seq<Block>, limit: int)
    requires Sane(cfg) && Legal(bs) && AllBelow(bs, limit)
    ensures Layered(cfg, DbOf(cfg, bs).tables, limit)
    decreases |bs|
  {
    if bs != [] {
      var n := |bs| - 1;
      LegalInit(bs);
      DbOfLayered(cfg, bs[..n], bs[n].daa);
      LayeredStep(cfg, DbOf(cfg, bs[..n]), bs[n], limit, DbOf(cfg, bs));
    }
  }

  // ----- The outputs a chain locks and the spends it records -----

  function AllOutpoints(bs: seq<Block>): set<Outpoint> {
    if bs == [] then {} else AllOutpoints(bs[..|bs| - 1]) + Outpoints(bs[|bs| - 1])
  }

  function AllSpendKeys(bs: seq<Block>): set<SpendKey> {
    if bs == [] then {} else AllSpendKeys(bs[..|bs| - 1]) + SpendKeys(bs[|bs| - 1])
  }

  /** The inputs that consume an output locked by then, in the same block or before. */
  function Recorded(bs: seq<Block>): set<SpendKey> {
    if bs == [] then {}
    else Recorded(bs[..|bs| - 1]) + Consuming(bs[|bs| - 1].content.inputs, AllOutpoints(bs))
  }

  lemma {:induction false} RecordedIsLocked(bs: seq<Block>, k: SpendKey)
    requires k in Recorded(bs)
    ensures k.previous in AllOutpoints(bs)
    decreases |bs|
  {
    if k in Recorded(bs[..|bs| - 1]) {
      RecordedIsLocked(bs[..|bs| - 1], k);
    }
  }

  /** With a mapping, the UTXO and spend tables hold exactly those rows. */
  lemma {:induction false} DbOfKeys(cfg: Config, bs: seq<Block>)
    requires cfg.mapping.Some?
    ensures DbOf(cfg, bs).tables.utxos.Keys == AllOutpoints(bs)
    ensures DbOf(cfg, bs).tables.spends.Keys == Recorded(bs)
    decreases |bs|
  {
    if bs != [] {
      var n := |bs| - 1;
      DbOfKeys(cfg, bs[..n]);
      DbOfLast(cfg, bs, n);
      BlockKeys(cfg, DbOf(cfg, bs[..n]), bs[n]);
    }
  }

  lemma {:induction false} DbOfBare(cfg: Config, bs: seq<Block>)
    requires cfg.mapping.None?
    ensures Bare(DbOf(cfg, bs).tables)
    decreases |bs|
  {
    if bs != [] {
      DbOfBare(cfg, bs[..|bs| - 1]);
      DbOfLast(cfg, bs, |bs| - 1);
    }
  }

  // ----- What later blocks do to earlier rows -----

  lemma {:induction false} SuffixFreshOutpoint(cfg: Config, p: seq<Block>, s: seq<Block>, c: int, o: Outpoint)
    requires (forall i :: 0 <= i < |s| ==> c <= s[i].daa) && FreshOutpoint(DbOf(cfg, p).tables, o, c)
    ensures FreshOutpoint(DbOf(cfg, p + s).tables, o, c)
    decreases |s|
  {
    if s == [] {
      assert p + s == p;
    } else {
      var n := |s| - 1;
      SuffixFreshOutpoint(cfg, p, s[..n], c, o);
      PersistNext(cfg, p, s, n);
      BlockStaysFresh(cfg, DbOf(cfg, p + s[..n]), s[n], c, o);
    }
  }

  lemma {:induction false} SuffixFreshSpend(cfg: Config, p: seq<Block>, s: seq<Block>, c: int, k: SpendKey)
    requires (forall i :: 0 <= i < |s| ==> c <= s[i].daa) && FreshSpend(DbOf(cfg, p).tables, k, c)
    ensures FreshSpend(DbOf(cfg, p + s).tables, k, c)
    decreases |s|
  {
    if s == [] {
      assert p + s == p;
    } else {
      var n := |s| - 1;
      SuffixFreshSpend(cfg, p, s[..n], c, k);
      PersistNext(cfg, p, s, n);
      BlockStaysFreshSpend(cfg, DbOf(cfg, p + s[..n]), s[n], c, k);
    }
  }

  lemma PersistNext(cfg: Config, p: seq<Block>, s: seq<Block>, n: nat)
    requires |s| == n + 1
    ensures DbOf(cfg, p + s) == PersistBlock(cfg, DbOf(cfg, p + s[..n]), s[n])
  {
    var all := p + s;
    assert all[..|all| - 1] == p + s[..n] && all[|all| - 1] == s[n];
  }

  lemma {:induction false} PersistJoin(cfg: Config, bs: seq<Block>, ws: seq<Block>)
    ensures PersistBlocks(cfg, DbOf(cfg, bs), ws) == DbOf(cfg, bs + ws)
    decreases |ws|
  {
    if ws == [] {
      assert bs + ws == bs;
    } else {
      var n := |ws| - 1;
      PersistJoin(cfg, bs, ws[..n]);
      PersistNext(cfg, bs, ws, n);
    }
  }

  /** An output that the suffix locks carries a DAA of the suffix, whoever locked it before. */
  lemma {:induction false} SuffixStamps(cfg: Config, p: seq<Block>, s: seq<Block>, c: int, o: Outpoint)
    requires cfg.mapping.Some? && o in AllOutpoints(s) && forall i :: 0 <= i < |s| ==> c <= s[i].daa
    ensures o in DbOf(cfg, p + s).tables.utxos && c <= DbOf(cfg, p + s).tables.utxos[o].daa
    decreases |s|
  {
    var n := |s| - 1;
    PersistNext(cfg, p, s, n);
    var before := DbOf(cfg, p + s[..n]);
    if o in Outpoints(s[n]) {
      BlockStamps(cfg, before, s[n], o);
    } else {
      SuffixStamps(cfg, p, s[..n], c, o);
      BlockKeys(cfg, before, s[n]);
      BlockStaysFresh(cfg, before, s[n], c, o);
    }
  }

  /** The same for a spend of something already locked. */
  lemma {:induction false} SuffixStampsSpend(cfg: Config, p: seq<Block>, s: seq<Block>, c: int, k: SpendKey)
    requires cfg.mapping.Some? && k in AllSpendKeys(s) && k.previous in AllOutpoints(p)
    requires forall i :: 0 <= i < |s| ==> c <= s[i].daa
    ensures k in DbOf(cfg, p + s).tables.spends && c <= DbOf(cfg, p + s).tables.spends[k].daa
    decreases |s|
  {
    var n := |s| - 1;
    PersistNext(cfg, p, s, n);
    var before := DbOf(cfg, p + s[..n]);
    if k in SpendKeys(s[n]) {
      SuffixKeeps(cfg, p, s[..n]);
      DbOfKeys(cfg, p);
      BlockStampsSpend(cfg, before, s[n], k);
    } else {
      SuffixStampsSpend(cfg, p, s[..n], c, k);
      BlockKeys(cfg, before, s[n]);
      BlockStaysFreshSpend(cfg, before, s[n], c, k);
    }
  }

  lemma {:induction false} SuffixKeeps(cfg: Config, p: seq<Block>, s: seq<Block>)
    requires cfg.mapping.Some?
    ensures DbOf(cfg, p).tables.utxos.Keys <= DbOf(cfg, p + s).tables.utxos.Keys
    decreases |s|
  {
    if s == [] {
      assert p + s == p;
    } else {
      var n := |s| - 1;
      SuffixKeeps(cfg, p, s[..n]);
      PersistNext(cfg, p, s, n);
      BlockKeys(cfg, DbOf(cfg, p + s[..n]), s[n]);
    }
  }

  /** A row whose output or spend the suffix does not carry stays as it was. */
  lemma {:induction false} SuffixLeaves(cfg: Config, p: seq<Block>, s: seq<Block>, o: Outpoint)
    requires cfg.mapping.Some? && o !in AllOutpoints(s) && o in DbOf(cfg, p).tables.utxos
    ensures o in DbOf(cfg, p + s).tables.utxos
    ensures DbOf(cfg, p + s).tables.utxos[o] == DbOf(cfg, p).tables.utxos[o]
    decreases |s|
  {
    if s == [] {
      assert p + s == p;
    } else {
      var n := |s| - 1;
      SuffixLeaves(cfg, p, s[..n], o);
      PersistNext(cfg, p, s, n);
      BlockLeaves(cfg, DbOf(cfg, p + s[..n]), s[n], o);
    }
  }

  lemma {:induction false} SuffixLeavesSpend(cfg: Config, p: seq<Block>, s: seq<Block>, k: SpendKey)
    requires cfg.mapping.Some? && k !in AllSpendKeys(s) && k in DbOf(cfg, p).tables.spends
    ensures k in DbOf(cfg, p + s).tables.spends
    ensures DbOf(cfg, p + s).tables.spends[k] == DbOf(cfg, p).tables.spends[k]
    decreases |s|
  {
    if s == [] {
      assert p + s == p;
    } else {
      var n := |s| - 1;
      SuffixLeavesSpend(cfg, p, s[..n], k);
      PersistNext(cfg, p, s, n);
      BlockLeavesSpend(cfg, DbOf(cfg, p + s[..n]), s[n], k);
    }
  }
}
