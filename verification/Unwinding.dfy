/** A reorg unwinds a committed suffix. Exactly when that gives back what the prefix
    leaves, in every table and in the anchor of the hash chain. */
module Unwinding {
  import opened Poi
  import opened Blocks
  import opened ChainWindow
  import opened Tables
  import opened Lineage
  import opened Persist
  import opened Truncation
  import opened Layers
  import opened Chains

  /** The suffix writes over no UTXO or spend row of the prefix. */
  ghost predicate Clean(cfg: Config, p: seq<Block>, s: seq<Block>) {
    cfg.mapping.None? || (AllOutpoints(p) !! AllOutpoints(s) && Recorded(p) !! AllSpendKeys(s))
  }

  lemma {:induction false} OutpointOfBlock(s: seq<Block>, n: nat, o: Outpoint)
    requires n < |s| && o in Outpoints(s[n])
    ensures o in AllOutpoints(s)
    decreases |s|
  {
    if n < |s| - 1 {
      OutpointOfBlock(s[..|s| - 1], n, o);
    }
  }

  lemma {:induction false} SpendOfBlock(s: seq<Block>, n: nat, k: SpendKey)
    requires n < |s| && k in SpendKeys(s[n])
    ensures k in AllSpendKeys(s)
    decreases |s|
  {
    if n < |s| - 1 {
      SpendOfBlock(s[..|s| - 1], n, k);
    }
  }

  lemma CleanOutpoint(cfg: Config, p: seq<Block>, s: seq<Block>, n: nat, o: Outpoint)
    requires Clean(cfg, p, s) && n < |s| && o in Outpoints(s[n])
    ensures o !in DbOf(cfg, p).tables.utxos
  {
    if cfg.mapping.Some? {
      DbOfKeys(cfg, p);
      OutpointOfBlock(s, n, o);
    } else {
      DbOfBare(cfg, p);
    }
  }

  lemma CleanSpend(cfg: Config, p: seq<Block>, s: seq<Block>, n: nat, k: SpendKey)
    requires Clean(cfg, p, s) && n < |s| && k in SpendKeys(s[n])
    ensures k !in DbOf(cfg, p).tables.spends
  {
    if cfg.mapping.Some? {
      DbOfKeys(cfg, p);
      SpendOfBlock(s, n, k);
    } else {
      DbOfBare(cfg, p);
    }
  }

  lemma HashIsNew(cfg: Config, p: seq<Block>, s: seq<Block>, n: nat)
    requires DistinctHashes(p + s) && n < |s|
    ensures s[n].hash !in DbOf(cfg, p + s[..n]).tables.committed
  {
    var all, before := p + s, p + s[..n];
    assert before == all[..|p| + n] && all[|p| + n] == s[n];
    DbOfHashes(cfg, before);
    forall i | 0 <= i < |before| ensures before[i].hash != s[n].hash {
      assert before[i] == all[i];
    }
  }

  /** Nothing block `n` of the suffix writes replaces a row of the prefix. */
  lemma SuffixIsFresh(cfg: Config, p: seq<Block>, s: seq<Block>, n: nat, c: int)
    requires DistinctHashes(p + s) && Clean(cfg, p, s) && n < |s| && forall i :: 0 <= i < |s| ==> c <= s[i].daa
    ensures Fresh(DbOf(cfg, p + s[..n]).tables, s[n], c)
  {
    var b, t := s[n], DbOf(cfg, p + s[..n]).tables;
    HashIsNew(cfg, p, s, n);
    forall i | 0 <= i < |b.content.hits| ensures FreshOutpoint(t, OutpointOf(b.content.hits[i]), c) {
      var o := OutpointOf(b.content.hits[i]);
      assert o in Outpoints(b);
      CleanOutpoint(cfg, p, s, n, o);
      SuffixFreshOutpoint(cfg, p, s[..n], c, o);
    }
    forall i | 0 <= i < |b.content.inputs| ensures FreshSpend(t, KeyOf(b.content.inputs[i]), c) {
      var k := KeyOf(b.content.inputs[i]);
      assert k in SpendKeys(b);
      CleanSpend(cfg, p, s, n, k);
      SuffixFreshSpend(cfg, p, s[..n], c, k);
    }
  }

  lemma PersistUpTo(cfg: Config, p: seq<Block>, s: seq<Block>, n: nat)
    requires n < |s|
    ensures DbOf(cfg, p + s[..n + 1]) == PersistBlock(cfg, DbOf(cfg, p + s[..n]), s[n])
  {
    assert s[..n + 1][..n] == s[..n];
    PersistNext(cfg, p, s[..n + 1], n);
  }

  lemma CutNext(cfg: Config, p: seq<Block>, s: seq<Block>, c: int, n: nat)
    requires DistinctHashes(p + s) && Clean(cfg, p, s) && n < |s| && forall i :: 0 <= i < |s| ==> c <= s[i].daa
    ensures CutAt(DbOf(cfg, p + s[..n + 1]).tables, c) == CutAt(DbOf(cfg, p + s[..n]).tables, c)
  {
    SuffixIsFresh(cfg, p, s, n, c);
    PersistUpTo(cfg, p, s, n);
    BlockAboveCut(cfg, DbOf(cfg, p + s[..n]), s[n], c);
  }

  lemma {:induction false} CutForgetsUpTo(cfg: Config, p: seq<Block>, s: seq<Block>, c: int, n: nat)
    requires DistinctHashes(p + s) && Clean(cfg, p, s) && n <= |s| && forall i :: 0 <= i < |s| ==> c <= s[i].daa
    ensures CutAt(DbOf(cfg, p + s[..n]).tables, c) == CutAt(DbOf(cfg, p).tables, c)
    decreases n
  {
    if n == 0 {
      assert p + s[..n] == p;
    } else {
      CutForgetsUpTo(cfg, p, s, c, n - 1);
      CutNext(cfg, p, s, c, n - 1);
    }
  }

  /** Cutting at or below every block of a clean suffix forgets the suffix. */
  lemma CutForgets(cfg: Config, p: seq<Block>, s: seq<Block>, c: int)
    requires DistinctHashes(p + s) && Clean(cfg, p, s) && forall i :: 0 <= i < |s| ==> c <= s[i].daa
    ensures CutAt(DbOf(cfg, p + s).tables, c) == CutAt(DbOf(cfg, p).tables, c)
  {
    CutForgetsUpTo(cfg, p, s, c, |s|);
    assert s[..|s|] == s;
  }

  // ----- The unwind by hash and by DAA agree on a suffix -----

  lemma HashesOfSuffix(p: seq<Block>, s: seq<Block>, unwinds: seq<Block>, i: nat)
    requires Legal(p + s) && s != [] && unwinds == Finalized(s) && i < |p + s|
    ensures (p + s)[i].hash in Hashes(unwinds) <==> s[0].daa <= (p + s)[i].daa
  {
    var all := p + s;
    assert forall j :: 0 <= j < |s| ==> all[|p| + j] == s[j];
    if i >= |p| {
      assert Hashes(unwinds)[i - |p|] == all[i].hash;
    } else {
      forall j | 0 <= j < |s| ensures Hashes(unwinds)[j] != all[i].hash {
        assert all[i].hash != all[|p| + j].hash;
      }
    }
  }

  /** Deleting a suffix by hash, POI rows included, cuts both tables at its first block. */
  lemma CommittedUnwound(t: Tables, p: seq<Block>, s: seq<Block>, unwinds: seq<Block>)
    requires Lists(t, p + s) && Legal(p + s) && s != [] && unwinds == Finalized(s)
    ensures UnwindCommitted(t, Hashes(unwinds)).committed == CutAt(t, s[0].daa).committed
    ensures UnwindCommitted(t, Hashes(unwinds)).poi == CutAt(t, s[0].daa).poi
  {
    var all, c := p + s, s[0].daa;
    forall h | h in t.committed ensures h in Hashes(unwinds) <==> c <= t.committed[h] {
      var i :| 0 <= i < |all| && all[i].hash == h;
      HashesOfSuffix(p, s, unwinds, i);
    }
    ScoresAre(t, all, Hashes(unwinds), c);
  }

  function Scores(committed: map<string, int>, hashes: seq<string>): set<int> {
    set h | h in committed && h in hashes :: committed[h]
  }

  lemma ScoreIff(t: Tables, all: seq<Block>, hashes: seq<string>, c: int, d: int)
    requires Lists(t, all) && d in t.poi
    requires forall h :: h in t.committed ==> (h in hashes <==> c <= t.committed[h])
    ensures d in Scores(t.committed, hashes) <==> c <= d
  {
    var i :| 0 <= i < |all| && all[i].daa == d;
    assert t.committed[all[i].hash] == d;
  }

  /** The POI rows deleted are those at or above the lowest removed block. */
  lemma ScoresAre(t: Tables, all: seq<Block>, hashes: seq<string>, c: int)
    requires Lists(t, all)
    requires forall h :: h in t.committed ==> (h in hashes <==> c <= t.committed[h])
    ensures UnwindCommitted(t, hashes).committed == (map h | h in t.committed && t.committed[h] < c :: t.committed[h])
    ensures UnwindCommitted(t, hashes).poi == (map d | d in t.poi && d < c :: t.poi[d])
  {
    forall d | d in t.poi ensures d in Scores(t.committed, hashes) <==> c <= d {
      ScoreIff(t, all, hashes, c, d);
    }
    assert UnwindCommitted(t, hashes).poi == t.poi - Scores(t.committed, hashes);
  }

  lemma {:induction false} LowestIsFirst(bs: seq<Block>)
    requires bs != [] && DaaOrder(bs)
    ensures LowestDaa(bs) == bs[0].daa
  {
    if |bs| > 1 {
      LowestIsFirst(bs[1..]);
    }
  }

  /** The derived tables, cut by DAA after the committed ones were cut by hash. */
  lemma MappedCut(t: Tables, hashes: seq<string>, c: int)
    requires UnwindLineage(t, c).heads == HeadsOf(CutRows(t.rows, c))
    requires UnwindCommitted(t, hashes).committed == CutAt(t, c).committed
    requires UnwindCommitted(t, hashes).poi == CutAt(t, c).poi
    ensures UnwindLineage(UnwindSpends(UnwindUtxos(UnwindEntities(UnwindCommitted(t, hashes), c), c), c), c) == CutAt(t, c)
  {
    var u := UnwindSpends(UnwindUtxos(UnwindEntities(UnwindCommitted(t, hashes), c), c), c);
    LineageCut(u, t, c);
  }

  lemma LineageCut(u: Tables, t: Tables, c: int)
    requires u.rows == t.rows && u.heads == t.heads
    ensures UnwindLineage(u, c).rows == UnwindLineage(t, c).rows && UnwindLineage(u, c).heads == UnwindLineage(t, c).heads
  {
  }

  lemma BareUnwound(t: Tables, hashes: seq<string>, c: int)
    requires Bare(t)
    requires UnwindCommitted(t, hashes).committed == CutAt(t, c).committed
    requires UnwindCommitted(t, hashes).poi == CutAt(t, c).poi
    ensures UnwindCommitted(t, hashes) == CutAt(t, c)
  {
    BareCut(t, c);
  }

  lemma UnwindIsCut(cfg: Config, p: seq<Block>, s: seq<Block>, unwinds: seq<Block>)
    requires Sane(cfg) && Legal(p + s) && s != [] && unwinds == Finalized(s)
    ensures Unwind(cfg, DbOf(cfg, p + s).tables, unwinds) == CutAt(DbOf(cfg, p + s).tables, s[0].daa)
  {
    var all := p + s;
    SuffixFacts(p, s, unwinds);
    DbOfHashes(cfg, all);
    DbOfScores(cfg, all);
    CommittedUnwound(DbOf(cfg, all).tables, p, s, unwinds);
    DbOfLayered(cfg, all, all[|all| - 1].daa + 1);
    CutsAgree(cfg, DbOf(cfg, all).tables, unwinds, s[0].daa, all[|all| - 1].daa + 1);
  }

  lemma SuffixFacts(p: seq<Block>, s: seq<Block>, unwinds: seq<Block>)
    requires DaaOrder(p + s) && s != [] && unwinds == Finalized(s)
    ensures unwinds != [] && LowestDaa(unwinds) == s[0].daa
    ensures AllBelow(p + s, (p + s)[|p + s| - 1].daa + 1)
  {
    var all := p + s;
    assert forall i :: 0 <= i < |s| ==> all[|p| + i] == s[i];
    LowestIsFirst(unwinds);
  }

  lemma CutsAgree(cfg: Config, t: Tables, unwinds: seq<Block>, c: int, limit: int)
    requires Layered(cfg, t, limit) && unwinds != [] && LowestDaa(unwinds) == c
    requires UnwindCommitted(t, Hashes(unwinds)).committed == CutAt(t, c).committed
    requires UnwindCommitted(t, Hashes(unwinds)).poi == CutAt(t, c).poi
    ensures Unwind(cfg, t, unwinds) == CutAt(t, c)
  {
    if cfg.mapping.Some? {
      LineageUnwound(t, cfg.gid, c, limit);
      MappedCut(t, Hashes(unwinds), c);
    } else {
      BareUnwound(t, Hashes(unwinds), c);
    }
  }

  lemma BareCut(t: Tables, c: int)
    requires Bare(t)
    ensures CutAt(t, c) == EMPTY.(committed := CutAt(t, c).committed, poi := CutAt(t, c).poi)
  {
    var u := CutAt(t, c);
    assert u.entities == map[] && u.utxos == map[] && u.spends == map[] && u.rows == map[] && u.heads == map[];
  }

  lemma TopScore(scores: set<int>, bs: seq<Block>)
    requires DaaOrder(bs) && bs != [] && ListsScores(scores, bs)
    ensures bs[|bs| - 1].daa in scores && forall d :: d in scores ==> d <= bs[|bs| - 1].daa
  {
  }

  lemma AnchorAtTop(t: Tables, top: int)
    requires top in t.poi && forall d :: d in t.poi ==> d <= top
    ensures Anchor(t) == t.poi[top]
  {
    assert top in t.poi.Keys;
  }

  /** The anchor re-read from the tables is the hash the chain ended on. */
  lemma AnchorIsPrior(cfg: Config, bs: seq<Block>)
    requires DaaOrder(bs)
    ensures Anchor(DbOf(cfg, bs).tables) == DbOf(cfg, bs).prior
  {
    if bs != [] {
      var n, db := |bs| - 1, DbOf(cfg, bs);
      DbOfScores(cfg, bs);
      TopScore(db.tables.poi.Keys, bs);
      LastBlock(cfg, bs, DbOf(cfg, bs[..n]).tables, db);
      AnchorAtTop(db.tables, bs[n].daa);
    }
  }

  // ----- Exactly when the unwind gives back the prefix -----

  lemma SuffixOrder(p: seq<Block>, s: seq<Block>, c: int)
    requires DaaOrder(p + s) && s != [] && c == s[0].daa
    ensures forall i :: 0 <= i < |s| ==> c <= s[i].daa
    ensures AllBelow(p, c)
  {
    var all := p + s;
    assert forall i :: 0 <= i < |s| ==> all[|p| + i] == s[i];
    assert forall i :: 0 <= i < |p| ==> all[i] == p[i];
  }

  lemma InPrefix(p: seq<Block>, s: seq<Block>, c: int)
    requires forall i :: 0 <= i < |s| ==> c <= s[i].daa
    ensures forall i :: 0 <= i < |p| ==> (p + s)[i] == p[i]
    ensures forall i :: 0 <= i < |p + s| && (p + s)[i].daa < c ==> i < |p|
  {
    assert forall i :: |p| <= i < |p + s| ==> (p + s)[i] == s[i - |p|];
  }

  lemma CleanUnwind(cfg: Config, p: seq<Block>, s: seq<Block>, c: int)
    requires Sane(cfg) && Legal(p + s) && s != [] && c == s[0].daa && Clean(cfg, p, s)
    ensures Reorg(cfg, DbOf(cfg, p + s), Finalized(s)) == DbOf(cfg, p)
  {
    LegalParts(p, s);
    SuffixOrder(p, s, c);
    UnwindIsCut(cfg, p, s, Finalized(s));
    CutForgets(cfg, p, s, c);
    DbOfLayered(cfg, p, c);
    CutAboveAll(cfg, DbOf(cfg, p).tables, c);
    AnchorIsPrior(cfg, p);
  }

  lemma UnwindRows(cfg: Config, t: Tables, unwinds: seq<Block>, c: int)
    requires cfg.mapping.Some? && unwinds != [] && LowestDaa(unwinds) == c
    ensures Unwind(cfg, t, unwinds).utxos == UnwindUtxos(t, c).utxos
    ensures Unwind(cfg, t, unwinds).spends == UnwindSpends(t, c).spends
  {
  }

  /** With a mapping, the derived rows an unwind leaves are those below the suffix. */
  lemma ReorgRows(cfg: Config, p: seq<Block>, s: seq<Block>, c: int, db: Db)
    requires cfg.mapping.Some? && DaaOrder(p + s) && s != [] && c == s[0].daa && db == DbOf(cfg, p + s)
    ensures Reorg(cfg, db, Finalized(s)).tables.utxos == UnwindUtxos(db.tables, c).utxos
    ensures Reorg(cfg, db, Finalized(s)).tables.spends == UnwindSpends(db.tables, c).spends
  {
    SuffixFacts(p, s, Finalized(s));
    UnwindRows(cfg, db.tables, Finalized(s), c);
  }

  /** A UTXO row of the prefix survives the unwind exactly when the suffix locks that
      output nowhere: a row is overwritten with the later block's DAA. */
  lemma RelockLosesUtxo(cfg: Config, p: seq<Block>, s: seq<Block>, o: Outpoint, u: Tables)
    requires Sane(cfg) && Legal(p + s) && cfg.mapping.Some? && o in AllOutpoints(p)
    requires u == Reorg(cfg, DbOf(cfg, p + s), Finalized(s)).tables
    ensures o in u.utxos <==> o !in AllOutpoints(s)
  {
    DbOfKeys(cfg, p);
    if s == [] {
      assert p + s == p;
    } else {
      var c := s[0].daa;
      SuffixOrder(p, s, c);
      ReorgRows(cfg, p, s, c, DbOf(cfg, p + s));
      if o in AllOutpoints(s) {
        SuffixStamps(cfg, p, s, c, o);
      } else {
        LegalParts(p, s);
        SuffixLeaves(cfg, p, s, o);
        DbOfLayered(cfg, p, c);
      }
    }
  }

  /** The same for a recorded spend: a suffix that carries its input again loses it. */
  lemma RespendLosesSpend(cfg: Config, p: seq<Block>, s: seq<Block>, k: SpendKey, u: Tables)
    requires Sane(cfg) && Legal(p + s) && cfg.mapping.Some? && k in Recorded(p)
    requires u == Reorg(cfg, DbOf(cfg, p + s), Finalized(s)).tables
    ensures k in u.spends <==> k !in AllSpendKeys(s)
  {
    DbOfKeys(cfg, p);
    if s == [] {
      assert p + s == p;
    } else {
      var c := s[0].daa;
      SuffixOrder(p, s, c);
      ReorgRows(cfg, p, s, c, DbOf(cfg, p + s));
      if k in AllSpendKeys(s) {
        RecordedIsLocked(p, k);
        SuffixStampsSpend(cfg, p, s, c, k);
      } else {
        LegalParts(p, s);
        SuffixLeavesSpend(cfg, p, s, k);
        DbOfLayered(cfg, p, c);
      }
    }
  }

  lemma UncleanUnwind(cfg: Config, p: seq<Block>, s: seq<Block>)
    requires Sane(cfg) && Legal(p + s) && !Clean(cfg, p, s)
    ensures Reorg(cfg, DbOf(cfg, p + s), Finalized(s)) != DbOf(cfg, p)
  {
    var u := Reorg(cfg, DbOf(cfg, p + s), Finalized(s)).tables;
    DbOfKeys(cfg, p);
    if o :| o in AllOutpoints(p) && o in AllOutpoints(s) {
      RelockLosesUtxo(cfg, p, s, o, u);
    } else {
      var k :| k in Recorded(p) && k in AllSpendKeys(s);
      RespendLosesSpend(cfg, p, s, k, u);
    }
  }

  /** The reorg unwind leaves what the surviving prefix leaves, in every table and in
      the anchor of the hash chain, if and only if (without a mapping, or) the suffix
      locks no output the prefix locks and carries no input the prefix recorded. */
  lemma UnwindRestoresPrefix(cfg: Config, p: seq<Block>, s: seq<Block>)
    requires Sane(cfg) && Legal(p + s)
    ensures Reorg(cfg, DbOf(cfg, p + s), Finalized(s)) == DbOf(cfg, p) <==> Clean(cfg, p, s)
  {
    if !Clean(cfg, p, s) {
      UncleanUnwind(cfg, p, s);
    } else if s == [] {
      assert p + s == p;
    } else {
      CleanUnwind(cfg, p, s, s[0].daa);
    }
  }

  // ----- Persisting more blocks -----

  lemma {:induction false} HitsIgnoreFlag(cfg: Config, t: Tables, hits: seq<Hit>, b: Block)
    ensures PersistHits(cfg, t, hits, Ingestion.Finalize(b)) == PersistHits(cfg, t, hits, b)
  {
    if hits != [] {
      HitsIgnoreFlag(cfg, t, hits[..|hits| - 1], b);
    }
  }

  /** Promotion's finality flag does not reach the store. */
  lemma BlockIgnoresFlag(cfg: Config, db: Db, b: Block)
    ensures PersistBlock(cfg, db, Ingestion.Finalize(b)) == PersistBlock(cfg, db, b)
  {
    HitsIgnoreFlag(cfg, RecordCommitted(db.tables, b.hash, b.daa), b.content.hits, b);
  }

  lemma PersistLast(cfg: Config, db: Db, bs: seq<Block>, b: Block)
    ensures PersistBlocks(cfg, db, bs + [b]) == PersistBlock(cfg, PersistBlocks(cfg, db, bs), b)
  {
    assert (bs + [b])[..|bs + [b]| - 1] == bs;
  }

  lemma PersistOneMore(cfg: Config, p: seq<Block>, s: seq<Block>, b: Block, db: Db)
    requires db == DbOf(cfg, p + s) && PersistBlocks(cfg, DbOf(cfg, p), Finalized(s)) == db
    ensures PersistBlocks(cfg, DbOf(cfg, p), Finalized(s) + [Ingestion.Finalize(b)]) == DbOf(cfg, p + s + [b])
  {
    PersistLast(cfg, DbOf(cfg, p), Finalized(s), Ingestion.Finalize(b));
    PersistLast(cfg, Db(EMPTY, GENESIS), p + s, b);
    BlockIgnoresFlag(cfg, db, b);
  }

  lemma {:induction false} PersistMore(cfg: Config, p: seq<Block>, s: seq<Block>)
    ensures PersistBlocks(cfg, DbOf(cfg, p), Finalized(s)) == DbOf(cfg, p + s)
    decreases |s|
  {
    if s == [] {
      assert p + s == p;
    } else {
      var n := |s| - 1;
      PersistMore(cfg, p, s[..n]);
      PersistOneMore(cfg, p, s[..n], s[n], DbOf(cfg, p + s[..n]));
      OneMore(p, s, n);
    }
  }

  lemma OneMore(p: seq<Block>, s: seq<Block>, n: nat)
    requires |s| == n + 1
    ensures Finalized(s) == Finalized(s[..n]) + [Ingestion.Finalize(s[n])]
    ensures p + s == p + s[..n] + [s[n]]
  {
  }
}
