/** What the published chain covers, whatever a run went through: one checkpoint per
    surviving block, over the bytes that block hashed when it was committed. Rows that
    an unwind did not give back change nothing in this. */
module Survivors {
  import opened Prelude
  import opened Poi
  import opened Blocks
  import opened Ingestion
  import opened ChainWindow
  import opened Tables
  import opened Persist
  import opened Truncation
  import opened Layers
  import opened Chains
  import opened Unwinding
  import opened ReplaySafety
  import opened FinalArrivals
  import opened ReplayTheorems

  // ----- The bytes hashed at each commit -----

  /** A committed block, and what is remembered of its commit. */
  datatype Entry<+T> = Entry(hash: string, value: T)

  /** The bytes that were hashed then. */
  type ByteEntry = Entry<seq<byte>>

  function BytesOf(log: seq<ByteEntry>): (r: seq<seq<byte>>)
    ensures |r| == |log|
    ensures forall i :: 0 <= i < |log| ==> r[i] == log[i].value
  {
    seq(|log|, i requires 0 <= i < |log| => log[i].value)
  }

  function EntryOf(cfg: Config, t: Tables, b: Block): ByteEntry { Entry(b.hash, PoiInput(cfg, t, b)) }

  /** The entries of blocks committed one after the other on top of a store. */
  function Logged(cfg: Config, db: Db, ws: seq<Block>): seq<ByteEntry> {
    if ws == [] then []
    else
      var n := |ws| - 1;
      Logged(cfg, db, ws[..n]) + [EntryOf(cfg, PersistBlocks(cfg, db, ws[..n]).tables, ws[n])]
  }

  /** The entries of the blocks that are not unwound. */
  function Without<T>(log: seq<Entry<T>>, hashes: seq<string>): seq<Entry<T>> {
    if log == [] then []
    else
      var n := |log| - 1;
      Without(log[..n], hashes) + if log[n].hash in hashes then [] else [log[n]]
  }

  /** What a run has hashed and not unwound, in the order of the commits. */
  function RunLog(cfg: Config, depth: Option<u64>, es: seq<Event>): seq<ByteEntry> {
    if es == [] then []
    else
      var n := |es| - 1;
      LogAfter(cfg, depth, RunNode(cfg, depth, es[..n]), RunLog(cfg, depth, es[..n]), es[n])
  }

  function LogAfter(cfg: Config, depth: Option<u64>, s: Node, log: seq<ByteEntry>, e: Event): seq<ByteEntry> {
    if e.Restarted? || Aborts(e.n) then log
    else
      var out := NotificationStep(depth, s.view, e.n).out;
      Without(log, Hashes(out.unwinds)) + Logged(cfg, Reorg(cfg, s.db, out.unwinds), out.writes)
  }

  // ----- The invariant -----

  /** One entry per block. */
  ghost predicate Lined<T>(log: seq<Entry<T>>, bs: seq<Block>) {
    |log| == |bs| && forall i :: 0 <= i < |bs| ==> log[i].hash == bs[i].hash
  }

  ghost predicate Names(log: seq<ByteEntry>, bs: seq<Block>) {
    Lined(log, bs) && forall i :: 0 <= i < |bs| ==> log[i].value != []
  }

  /** Each block's POI row is the hash that the bytes up to its own end on. */
  ghost predicate RowsChain(hash: HashFn, poi: map<int, PoiHash>, bs: seq<Block>, log: seq<ByteEntry>) {
    |log| == |bs| && forall i :: 0 <= i < |bs| ==> RowIs(poi, bs[i].daa, ChainTip(hash, BytesOf(log)[..i + 1]))
  }

  ghost predicate RowIs(poi: map<int, PoiHash>, d: int, tip: PoiHash) { d in poi && poi[d] == tip }

  /** The POI rows of the blocks, and the anchor, chain the logged bytes from genesis. */
  ghost predicate Chained(hash: HashFn, db: Db, bs: seq<Block>, log: seq<ByteEntry>) {
    && Lists(db.tables, bs) && Names(log, bs)
    && RowsChain(hash, db.tables.poi, bs, log) && db.prior == ChainTip(hash, BytesOf(log))
  }

  lemma BytesInit(log: seq<ByteEntry>, m: nat, i: nat)
    requires i <= m <= |log|
    ensures BytesOf(log[..m]) == BytesOf(log)[..m] && BytesOf(log[..m])[..i] == BytesOf(log)[..i]
  {
  }

  // ----- A commit -----

  lemma BytesMore(log: seq<ByteEntry>, e: ByteEntry)
    ensures BytesOf(log + [e]) == BytesOf(log) + [e.value]
    ensures forall i :: 0 <= i <= |log| ==> BytesOf(log + [e])[..i] == BytesOf(log)[..i]
  {
  }

  lemma CommitRows(hash: HashFn, poi: map<int, PoiHash>, bs: seq<Block>, n: nat, log: seq<ByteEntry>, e: ByteEntry, tip: PoiHash)
    requires |bs| == n + 1 && DaaOrder(bs) && RowsChain(hash, poi, bs[..n], log)
    requires tip == ChainTip(hash, BytesOf(log + [e]))
    ensures RowsChain(hash, poi[bs[n].daa := tip], bs, log + [e])
  {
    BytesMore(log, e);
    forall i | 0 <= i <= n ensures RowIs(poi[bs[n].daa := tip], bs[i].daa, ChainTip(hash, BytesOf(log + [e])[..i + 1])) {
      if i < n {
        assert RowIs(poi, bs[..n][i].daa, ChainTip(hash, BytesOf(log)[..i + 1]));
      } else {
        assert BytesOf(log + [e])[..n + 1] == BytesOf(log + [e]);
      }
    }
  }

  lemma CommitNames(bs: seq<Block>, n: nat, log: seq<ByteEntry>, e: ByteEntry)
    requires |bs| == n + 1 && Names(log, bs[..n]) && e.hash == bs[n].hash && e.value != []
    ensures Names(log + [e], bs)
  {
    assert forall i :: 0 <= i < n ==> bs[..n][i] == bs[i];
  }

  lemma TipMore(cfg: Config, db: Db, b: Block, log: seq<ByteEntry>, e: ByteEntry)
    requires db.prior == ChainTip(cfg.hash, BytesOf(log)) && e == EntryOf(cfg, db.tables, b)
    ensures PersistBlock(cfg, db, b).prior == ChainTip(cfg.hash, BytesOf(log + [e]))
  {
    BytesMore(log, e);
    assert BytesOf(log + [e])[..|log|] == BytesOf(log);
  }

  /** The last block of a chain is committed on top of the others. */
  lemma CommitOne(cfg: Config, before: Db, shorter: seq<Block>, all: seq<Block>, log: seq<ByteEntry>, longer: seq<ByteEntry>)
    requires |all| == |shorter| + 1 && shorter == all[..|shorter|] && Legal(all)
    requires Chained(cfg.hash, before, shorter, log) && longer == log + [EntryOf(cfg, before.tables, all[|shorter|])]
    ensures Chained(cfg.hash, PersistBlock(cfg, before, all[|shorter|]), all, longer)
  {
    var n := |shorter|;
    var e, after := EntryOf(cfg, before.tables, all[n]), PersistBlock(cfg, before, all[n]);
    WriteTouches(cfg, before.tables, all[n]);
    OneMoreHash(before.tables.committed, all, n);
    OneMoreScore(before.tables.poi, all, n, after.prior);
    TipMore(cfg, before, all[n], log, e);
    CommitNames(all, n, log, e);
    CommitRows(cfg.hash, before.tables.poi, all, n, log, e, after.prior);
  }

  lemma {:induction false} CommitAll(cfg: Config, db: Db, bs: seq<Block>, ws: seq<Block>, log: seq<ByteEntry>)
    requires Legal(bs + ws) && Chained(cfg.hash, db, bs, log)
    ensures Chained(cfg.hash, PersistBlocks(cfg, db, ws), bs + ws, log + Logged(cfg, db, ws))
    decreases |ws|
  {
    if ws == [] {
      JoinNothing(bs);
      JoinNothing(log);
    } else {
      var n := |ws| - 1;
      LegalPrefix(bs, ws, n);
      CommitAll(cfg, db, bs, ws[..n], log);
      JoinLast(bs, ws, n);
      JoinMore(log, Logged(cfg, db, ws[..n]), EntryOf(cfg, PersistBlocks(cfg, db, ws[..n]).tables, ws[n]));
      CommitOne(cfg, PersistBlocks(cfg, db, ws[..n]), bs + ws[..n], bs + ws,
                log + Logged(cfg, db, ws[..n]), log + Logged(cfg, db, ws));
    }
  }

  // ----- An unwind -----

  lemma {:induction false} WithoutPrefix<T>(log: seq<Entry<T>>, hashes: seq<string>, m: nat)
    requires m <= |log| && forall i :: 0 <= i < |log| ==> (log[i].hash in hashes <==> m <= i)
    ensures Without(log, hashes) == log[..m]
    decreases |log|
  {
    if log != [] {
      var n := |log| - 1;
      if m <= n {
        SliceTwice(log, n, m);
        WithoutPrefix(log[..n], hashes, m);
      } else {
        SliceTwice(log, n, n);
        WithoutPrefix(log[..n], hashes, n);
      }
    }
  }

  lemma LastEntriesGo<T>(p: seq<Block>, s: seq<Block>, log: seq<Entry<T>>)
    requires DistinctHashes(p + s) && Lined(log, p + s)
    ensures Without(log, Hashes(s)) == log[..|p|]
  {
    forall i | 0 <= i < |log| ensures log[i].hash in Hashes(s) <==> |p| <= i {
      NamedBySuffix(p, s, i);
    }
    WithoutPrefix(log, Hashes(s), |p|);
  }

  lemma NamedBySuffix(p: seq<Block>, s: seq<Block>, i: nat)
    requires DistinctHashes(p + s) && i < |p + s|
    ensures (p + s)[i].hash in Hashes(s) <==> |p| <= i
  {
    var all := p + s;
    if i < |p| {
      forall j | 0 <= j < |s| ensures Hashes(s)[j] != all[i].hash {
        assert all[|p| + j] == s[j];
      }
    } else {
      assert Hashes(s)[i - |p|] == all[i].hash;
    }
  }

  lemma CutHashes(was: map<string, int>, now: map<string, int>, p: seq<Block>, s: seq<Block>, c: int)
    requires ListsHashes(was, p + s) && AllBelow(p, c) && forall i :: 0 <= i < |s| ==> c <= s[i].daa
    requires now == map h | h in was && was[h] < c :: was[h]
    ensures ListsHashes(now, p)
  {
    InPrefix(p, s, c);
    forall h | h in now ensures exists i :: 0 <= i < |p| && p[i].hash == h {
      var i :| 0 <= i < |p + s| && (p + s)[i].hash == h;
      assert (p + s)[i] == p[i];
    }
  }

  lemma CutScores(was: set<int>, now: set<int>, p: seq<Block>, s: seq<Block>, c: int)
    requires ListsScores(was, p + s) && AllBelow(p, c) && forall i :: 0 <= i < |s| ==> c <= s[i].daa
    requires forall d :: d in now <==> d in was && d < c
    ensures ListsScores(now, p)
  {
    InPrefix(p, s, c);
    forall d | d in now ensures exists i :: 0 <= i < |p| && p[i].daa == d {
      var i :| 0 <= i < |p + s| && (p + s)[i].daa == d;
      assert (p + s)[i] == p[i];
    }
  }

  /** Both tables, cut at the suffix, list the prefix. */
  lemma CutLists(t: Tables, u: Tables, p: seq<Block>, s: seq<Block>, c: int)
    requires Lists(t, p + s) && DaaOrder(p + s) && s != [] && c == s[0].daa
    requires u.committed == CutAt(t, c).committed && u.poi == CutAt(t, c).poi
    ensures Lists(u, p)
  {
    SuffixOrder(p, s, c);
    CutHashes(t.committed, u.committed, p, s, c);
    CutScores(t.poi.Keys, u.poi.Keys, p, s, c);
  }

  /** The rows below the cut stay as they were. */
  lemma CutChains(hash: HashFn, t: Tables, u: Tables, p: seq<Block>, s: seq<Block>, log: seq<ByteEntry>, c: int)
    requires RowsChain(hash, t.poi, p + s, log) && AllBelow(p, c) && u.poi == CutAt(t, c).poi
    ensures RowsChain(hash, u.poi, p, log[..|p|])
  {
    forall i | 0 <= i < |p| ensures RowIs(u.poi, p[i].daa, ChainTip(hash, BytesOf(log[..|p|])[..i + 1])) {
      assert (p + s)[i] == p[i];
      assert RowIs(t.poi, (p + s)[i].daa, ChainTip(hash, BytesOf(log)[..i + 1]));
      BytesInit(log, |p|, i + 1);
    }
  }

  /** The anchor re-read from the store is the tip of what survives. */
  lemma AnchorIsTip(hash: HashFn, t: Tables, bs: seq<Block>, log: seq<ByteEntry>)
    requires DaaOrder(bs) && ListsScores(t.poi.Keys, bs) && RowsChain(hash, t.poi, bs, log)
    ensures Anchor(t) == ChainTip(hash, BytesOf(log))
  {
    if bs == [] {
      assert t.poi == map[];
    } else {
      var n := |bs| - 1;
      TopScore(t.poi.Keys, bs);
      AnchorAtTop(t, bs[n].daa);
      assert RowIs(t.poi, bs[n].daa, ChainTip(hash, BytesOf(log)[..n + 1]));
      assert BytesOf(log)[..|bs|] == BytesOf(log);
    }
  }

  lemma UnwoundTables(cfg: Config, t: Tables, unwinds: seq<Block>)
    requires unwinds != []
    ensures Unwind(cfg, t, unwinds).committed == UnwindCommitted(t, Hashes(unwinds)).committed
    ensures Unwind(cfg, t, unwinds).poi == UnwindCommitted(t, Hashes(unwinds)).poi
  {
  }

  lemma PrefixNames(log: seq<ByteEntry>, p: seq<Block>, s: seq<Block>)
    requires Names(log, p + s)
    ensures Names(log[..|p|], p)
  {
    assert forall i :: 0 <= i < |p| ==> (p + s)[i] == p[i];
  }

  lemma UnwindLast(cfg: Config, db: Db, p: seq<Block>, s: seq<Block>, log: seq<ByteEntry>, after: Db)
    requires Legal(p + s) && Chained(cfg.hash, db, p + s, log) && s != []
    requires after == Reorg(cfg, db, Finalized(s))
    ensures Chained(cfg.hash, after, p, log[..|p|])
  {
    LegalParts(p, s);
    SuffixOrder(p, s, s[0].daa);
    CommittedUnwound(db.tables, p, s, Finalized(s));
    UnwoundTables(cfg, db.tables, Finalized(s));
    CutLists(db.tables, after.tables, p, s, s[0].daa);
    CutChains(cfg.hash, db.tables, after.tables, p, s, log, s[0].daa);
    PrefixNames(log, p, s);
    AnchorIsTip(cfg.hash, after.tables, p, log[..|p|]);
  }

  /** Unwinding a suffix takes rows, anchor and log back to what is below it. */
  lemma UnwindSuffix(cfg: Config, db: Db, p: seq<Block>, s: seq<Block>, log: seq<ByteEntry>)
    requires Legal(p + s) && Chained(cfg.hash, db, p + s, log)
    ensures Chained(cfg.hash, Reorg(cfg, db, s), p, Without(log, Hashes(s)))
  {
    LastEntriesGo(p, s, log);
    if s == [] {
      assert p + s == p && log[..|p|] == log;
    } else {
      ReorgIgnoresFlags(cfg, db, s);
      UnwindLast(cfg, db, p, s, log, Reorg(cfg, db, s));
    }
  }

  // ----- Runs -----

  lemma EntryIgnoresFlag(cfg: Config, t: Tables, b: Block)
    ensures EntryOf(cfg, t, Finalize(b)) == EntryOf(cfg, t, b)
  {
    HitsIgnoreFlag(cfg, RecordCommitted(t, b.hash, b.daa), b.content.hits, b);
  }

  lemma {:induction false} LoggedIgnoresFlags(cfg: Config, db: Db, ws: seq<Block>)
    ensures Logged(cfg, db, Finalized(ws)) == Logged(cfg, db, ws)
    decreases |ws|
  {
    if ws != [] {
      var n := |ws| - 1;
      assert Finalized(ws)[..n] == Finalized(ws[..n]);
      LoggedIgnoresFlags(cfg, db, ws[..n]);
      PersistIgnoresFlags(cfg, db, ws[..n]);
      EntryIgnoresFlag(cfg, PersistBlocks(cfg, db, ws[..n]).tables, ws[n]);
    }
  }

  /** The log follows the same moves as the store. */
  lemma LogMoves(cfg: Config, tr: Track, cut: Track, after: Track, db: Db, log: seq<ByteEntry>, step: Step)
    requires Moves(tr, cut, after) && StepMoves(tr, cut, after, step)
    ensures Without(log, Hashes(step.out.unwinds)) + Logged(cfg, Reorg(cfg, db, step.out.unwinds), step.out.writes)
         == Without(log, Hashes(tr.done[|cut.done|..]))
            + Logged(cfg, Reorg(cfg, db, tr.done[|cut.done|..]), after.done[|cut.done|..])
  {
    var gone, gained := tr.done[|cut.done|..], after.done[|cut.done|..];
    assert Hashes(step.out.unwinds) == Hashes(Finalized(step.out.unwinds)) == Hashes(Finalized(gone)) == Hashes(gone);
    ReorgIgnoresFlags(cfg, db, step.out.unwinds);
    ReorgIgnoresFlags(cfg, db, gone);
    LoggedIgnoresFlags(cfg, Reorg(cfg, db, gone), step.out.writes);
    LoggedIgnoresFlags(cfg, Reorg(cfg, db, gone), gained);
  }

  lemma MovesChain(cfg: Config, tr: Track, cut: Track, after: Track, db: Db, log: seq<ByteEntry>, mid: Db)
    requires Good(tr) && Moves(tr, cut, after) && Chained(cfg.hash, db, tr.base + tr.done, log)
    requires mid == Reorg(cfg, db, tr.done[|cut.done|..])
    ensures Chained(cfg.hash, PersistBlocks(cfg, mid, after.done[|cut.done|..]), after.base + after.done,
                    Without(log, Hashes(tr.done[|cut.done|..])) + Logged(cfg, mid, after.done[|cut.done|..]))
  {
    var p, gone := tr.base + cut.done, tr.done[|cut.done|..];
    CommittedIsLegal(tr);
    CommittedIsLegal(after);
    ThroughCut(tr, cut, after);
    UnwindSuffix(cfg, db, p, gone, log);
    CommitAll(cfg, mid, p, after.done[|cut.done|..], Without(log, Hashes(gone)));
  }

  lemma EventChains(cfg: Config, depth: Option<u64>, tr: Track, s: Node, e: Event, log: seq<ByteEntry>)
    requires Good(tr) && Followed(depth, tr, e) && Forget(s.view) == Split(tr.done, tr.waiting)
    requires Chained(cfg.hash, s.db, tr.base + tr.done, log)
    ensures var next := AnyNextTrack(depth, tr, e);
      Chained(cfg.hash, NodeEvent(cfg, depth, s, e).db, next.base + next.done, LogAfter(cfg, depth, s, log, e))
  {
    if e.Restarted? || Aborts(e.n) {
      CommittedIsLegal(tr);
      AnchorIsTip(cfg.hash, s.db.tables, tr.base + tr.done, log);
      RestartGood(tr, AnyNextTrack(depth, tr, e));
    } else {
      var cut, after, step := Cut(tr, e.n), AnyAfter(depth, tr, e.n), NotificationStep(depth, s.view, e.n);
      NotificationMoves(depth, tr, s.view, e.n);
      StepPersists(cfg, tr, cut, after, s.db, step);
      LogMoves(cfg, tr, cut, after, s.db, log, step);
      MovesChain(cfg, tr, cut, after, s.db, log, Reorg(cfg, s.db, tr.done[|cut.done|..]));
    }
  }

  lemma {:induction false} RunChained(cfg: Config, depth: Option<u64>, es: seq<Event>)
    requires SuffixRun(depth, es)
    ensures Chained(cfg.hash, RunNode(cfg, depth, es).db, Surviving(depth, es), RunLog(cfg, depth, es))
  {
    if es == [] {
      assert Surviving(depth, es) == [];
    } else {
      var before := es[..|es| - 1];
      RunChained(cfg, depth, before);
      MemoryRefines(cfg, depth, before);
      EventChains(cfg, depth, AnyTrack(depth, before), RunNode(cfg, depth, before), es[|es| - 1], RunLog(cfg, depth, before));
    }
  }

  // ----- What a third party is shown -----

  /** The hashed bytes of each surviving block, with the POI row at its DAA. */
  function Shown(poi: map<int, PoiHash>, bs: seq<Block>, log: seq<ByteEntry>): (r: seq<Checkpoint>)
    requires |log| == |bs| && forall i :: 0 <= i < |bs| ==> bs[i].daa in poi
    ensures |r| == |bs|
    ensures forall i :: 0 <= i < |bs| ==> r[i] == Checkpoint(log[i].value, poi[bs[i].daa])
  {
    seq(|bs|, i requires 0 <= i < |bs| => Checkpoint(log[i].value, poi[bs[i].daa]))
  }

  lemma ChainedVerifies(hash: HashFn, db: Db, bs: seq<Block>, log: seq<ByteEntry>)
    requires Chained(hash, db, bs, log)
    ensures Verdict(hash, Shown(db.tables.poi, bs, log), Ok(Valid(db.prior)))
  {
    var cps := Shown(db.tables.poi, bs, log);
    assert Bytes(cps) == BytesOf(log);
    forall i | 0 <= i < |cps| ensures HonestAt(hash, cps, i) {
      assert RowIs(db.tables.poi, bs[i].daa, ChainTip(hash, BytesOf(log)[..i + 1]));
    }
  }

  /** After every run whose removals name suffixes, whatever rows its reorgs took along:
      there is one committed row and one checkpoint per surviving block, a verifier
      accepts the checkpoints from genesis over the bytes each block hashed when it was
      committed, and they end on the anchor the node chains its next block from, which
      is also the one a restart would read. */
  lemma PublishedChainVerifies(cfg: Config, depth: Option<u64>, es: seq<Event>, db: Db, bs: seq<Block>, log: seq<ByteEntry>)
    requires SuffixRun(depth, es) && db == RunNode(cfg, depth, es).db
    requires bs == Surviving(depth, es) && log == RunLog(cfg, depth, es)
    ensures Lists(db.tables, bs) && Names(log, bs)
    ensures Verdict(cfg.hash, Shown(db.tables.poi, bs, log), Ok(Valid(db.prior)))
    ensures Anchor(db.tables) == db.prior
  {
    RunChained(cfg, depth, es);
    ChainedVerifies(cfg.hash, db, bs, log);
    MemoryRefines(cfg, depth, es);
    CommittedIsLegal(AnyTrack(depth, es));
    AnchorIsTip(cfg.hash, db.tables, bs, log);
  }

  /** Two nodes that end on one anchor, whatever each went through, have hashed the same
      bytes for the same number of surviving blocks, or exhibit a broken hash. */
  lemma OneAnchorOneLog(cfg: Config, depth: Option<u64>, es: seq<Event>, depth': Option<u64>, es': seq<Event>,
                        xs: seq<seq<byte>>, ys: seq<seq<byte>>)
    requires SuffixRun(depth, es) && SuffixRun(depth', es')
    requires xs == BytesOf(RunLog(cfg, depth, es)) && ys == BytesOf(RunLog(cfg, depth', es'))
    requires RunNode(cfg, depth, es).db.prior == RunNode(cfg, depth', es').db.prior
    ensures xs == ys || Broken(cfg.hash, xs, ys)
  {
    RunChained(cfg, depth, es);
    RunChained(cfg, depth', es');
    AnyLengthBinding(cfg.hash, xs, ys);
  }

  /** Ingesting the surviving chain from genesis ends on the anchor of the live node exactly
      when it hashes the bytes the live node did, unless the two exhibit a collision. */
  lemma ReplayedPoiIff(cfg: Config, depth: Option<u64>, es: seq<Event>, bs: seq<Block>, xs: seq<seq<byte>>)
    requires SuffixRun(depth, es) && bs == Surviving(depth, es) && xs == BytesOf(RunLog(cfg, depth, es))
    ensures xs == Inputs(cfg, bs) ==> RunNode(cfg, depth, es).db.prior == DbOf(cfg, bs).prior
    ensures RunNode(cfg, depth, es).db.prior == DbOf(cfg, bs).prior ==>
      xs == Inputs(cfg, bs) || exists i :: CollideAt(cfg.hash, xs, Inputs(cfg, bs), i)
  {
    RunChained(cfg, depth, es);
    PriorIsTip(cfg, bs);
    if RunNode(cfg, depth, es).db.prior == DbOf(cfg, bs).prior {
      ChainBinding(cfg.hash, xs, Inputs(cfg, bs));
    }
  }

  // ----- When every unwind was exact, the bytes are those of the chain -----

  lemma InputsMore(cfg: Config, shorter: seq<Block>, all: seq<Block>, logged: seq<ByteEntry>, e: ByteEntry, xs: seq<seq<byte>>)
    requires |all| == |shorter| + 1 && all[..|shorter|] == shorter
    requires e == EntryOf(cfg, DbOf(cfg, shorter).tables, all[|shorter|])
    requires Inputs(cfg, shorter) == xs + BytesOf(logged)
    ensures Inputs(cfg, all) == xs + BytesOf(logged + [e])
  {
    BytesMore(logged, e);
    JoinMore(xs, BytesOf(logged), e.value);
  }

  lemma {:induction false} InputsJoin(cfg: Config, p: seq<Block>, s: seq<Block>)
    ensures Inputs(cfg, p + s) == Inputs(cfg, p) + BytesOf(Logged(cfg, DbOf(cfg, p), s))
    decreases |s|
  {
    if s == [] {
      JoinNothing(p);
      assert BytesOf([]) == [];
      JoinNothing(Inputs(cfg, p));
    } else {
      var n := |s| - 1;
      JoinLast(p, s, n);
      InputsJoin(cfg, p, s[..n]);
      PersistJoin(cfg, p, s[..n]);
      InputsMore(cfg, p + s[..n], p + s, Logged(cfg, DbOf(cfg, p), s[..n]),
                 EntryOf(cfg, DbOf(cfg, p + s[..n]).tables, s[n]), Inputs(cfg, p));
    }
  }

  lemma BytesJoin(xs: seq<ByteEntry>, ys: seq<ByteEntry>)
    ensures BytesOf(xs + ys) == BytesOf(xs) + BytesOf(ys)
  {
  }

  lemma CleanMoves(cfg: Config, tr: Track, cut: Track, after: Track, log: seq<ByteEntry>, p: seq<Block>, gone: seq<Block>)
    requires Sane(cfg) && Good(tr) && Moves(tr, cut, after) && p == tr.base + cut.done && gone == tr.done[|cut.done|..]
    requires Clean(cfg, p, gone) && Names(log, tr.base + tr.done) && BytesOf(log) == Inputs(cfg, tr.base + tr.done)
    ensures Inputs(cfg, after.base + after.done)
         == BytesOf(Without(log, Hashes(gone)) + Logged(cfg, Reorg(cfg, DbOf(cfg, tr.base + tr.done), gone), after.done[|cut.done|..]))
  {
    var gained := after.done[|cut.done|..];
    CommittedIsLegal(tr);
    ThroughCut(tr, cut, after);
    LastEntriesGo(p, gone, log);
    BytesInit(log, |p|, |p|);
    InputsPrefix(cfg, p + gone, |p|);
    assert (p + gone)[..|p|] == p;
    UnwindRestoresPrefix(cfg, p, gone);
    ReorgIgnoresFlags(cfg, DbOf(cfg, p + gone), gone);
    BytesJoin(log[..|p|], Logged(cfg, DbOf(cfg, p), gained));
    InputsJoin(cfg, p, gained);
  }

  lemma CleanEventLog(cfg: Config, depth: Option<u64>, tr: Track, s: Node, e: Event, log: seq<ByteEntry>)
    requires Sane(cfg) && Good(tr) && Followed(depth, tr, e) && CleanEvent(cfg, tr, e)
    requires Forget(s.view) == Split(tr.done, tr.waiting) && s.db == DbOf(cfg, tr.base + tr.done)
    requires Names(log, tr.base + tr.done) && BytesOf(log) == Inputs(cfg, tr.base + tr.done)
    ensures var next := AnyNextTrack(depth, tr, e);
      BytesOf(LogAfter(cfg, depth, s, log, e)) == Inputs(cfg, next.base + next.done)
  {
    if e.Restarted? || Aborts(e.n) {
      RestartGood(tr, AnyNextTrack(depth, tr, e));
    } else {
      var cut, after, step := Cut(tr, e.n), AnyAfter(depth, tr, e.n), NotificationStep(depth, s.view, e.n);
      NotificationMoves(depth, tr, s.view, e.n);
      LogMoves(cfg, tr, cut, after, s.db, log, step);
      CleanMoves(cfg, tr, cut, after, log, tr.base + cut.done, tr.done[|cut.done|..]);
    }
  }

  lemma {:induction false} CleanRunLog(cfg: Config, depth: Option<u64>, es: seq<Event>)
    requires Sane(cfg) && AnyRun(cfg, depth, es)
    ensures BytesOf(RunLog(cfg, depth, es)) == Inputs(cfg, Surviving(depth, es))
  {
    if es == [] {
      assert Surviving(depth, es) == [];
    } else {
      var before := es[..|es| - 1];
      CleanRunLog(cfg, depth, before);
      AnyIsSuffix(cfg, depth, before);
      AnyRunRefines(cfg, depth, before);
      RunChained(cfg, depth, before);
      CleanEventLog(cfg, depth, AnyTrack(depth, before), RunNode(cfg, depth, before), es[|es| - 1], RunLog(cfg, depth, before));
    }
  }

  /** When no unwind met a row its blocks had overwritten, those bytes are the ones that
      persisting the surviving chain from empty hashes. */
  lemma CleanChainVerifies(cfg: Config, depth: Option<u64>, es: seq<Event>, db: Db, bs: seq<Block>)
    requires Sane(cfg) && AnyRun(cfg, depth, es)
    requires db == RunNode(cfg, depth, es).db && bs == Surviving(depth, es)
    ensures BytesOf(RunLog(cfg, depth, es)) == Inputs(cfg, bs)
    ensures ListsScores(db.tables.poi.Keys, bs)
    ensures Verdict(cfg.hash, Published(cfg, db.tables, bs), Ok(Valid(db.prior)))
  {
    CleanRunLog(cfg, depth, es);
    AnyIsSuffix(cfg, depth, es);
    PublishedChainVerifies(cfg, depth, es, db, bs, RunLog(cfg, depth, es));
    assert Published(cfg, db.tables, bs) == Shown(db.tables.poi, bs, RunLog(cfg, depth, es));
  }
}
