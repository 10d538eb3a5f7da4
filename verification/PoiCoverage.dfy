/** What a node's POI covers. With a mapping: the canonical encoding of what each block's
    lock handlers returned, and nothing else of the block's own rendering. Without one:
    the blocks' own bytes. */
module PoiCoverage {
  import opened Prelude
  import opened Poi
  import opened StableSort
  import opened CanonicalBytes
  import opened JsonText
  import opened StateBinding
  import opened Blocks
  import opened ChainWindow
  import opened Tables
  import opened Lineage
  import opened Persist
  import opened Chains
  import opened ReplaySafety
  import opened FinalArrivals
  import opened ReplayTheorems
  import opened Survivors
  import opened EntityVersions
  import opened Emissions

  /** What the handlers return for a chain that is persisted from empty. */
  function ChainEmissions(cfg: Config, m: Mapping, bs: seq<Block>): StateLog {
    Emit(cfg, m, Db(EMPTY, GENESIS), [], bs)
  }

  /** What the lock handlers returned, block by block. */
  function LockStates(log: StateLog): (r: seq<seq<Entity>>)
    ensures |r| == |log|
    ensures forall i :: 0 <= i < |log| ==> r[i] == log[i].value.locks
  {
    seq(|log|, i requires 0 <= i < |log| => log[i].value.locks)
  }

  function Encoded(render: Printer, states: seq<seq<Entity>>): (r: seq<seq<byte>>)
    ensures |r| == |states|
    ensures forall i :: 0 <= i < |states| ==> r[i] == BlockBytes(render, states[i])
  {
    seq(|states|, i requires 0 <= i < |states| => BlockBytes(render, states[i]))
  }

  lemma EncodesIs(render: Printer, bytes: seq<ByteEntry>, log: StateLog)
    requires Encodes(render, bytes, log)
    ensures BytesOf(bytes) == Encoded(render, LockStates(log))
  {
  }

  // ----- Chains -----

  lemma ChainStated(cfg: Config, m: Mapping, bs: seq<Block>)
    requires cfg.mapping == Some(m) && DaaOrder(bs)
    ensures Stated(DbOf(cfg, bs).tables, bs, ChainEmissions(cfg, m, bs))
    ensures Inputs(cfg, bs) == Encoded(cfg.render, LockStates(ChainEmissions(cfg, m, bs)))
  {
    var none: seq<Block>, nothing: seq<ByteEntry> := [], [];
    var empty := Db(EMPTY, GENESIS);
    assert none + bs == bs && nothing + Logged(cfg, empty, bs) == Logged(cfg, empty, bs);
    CommitsState(cfg, m, empty, none, bs, [], nothing);
    EncodesIs(cfg.render, Logged(cfg, empty, bs), ChainEmissions(cfg, m, bs));
    InputsJoin(cfg, none, bs);
    assert Inputs(cfg, none) + BytesOf(Logged(cfg, empty, bs)) == BytesOf(Logged(cfg, empty, bs));
  }

  /** After any chain of rising DAAs, the store shows exactly the entities emitted on it,
      each in the state of its last emission. */
  lemma ChainShowsLast(cfg: Config, m: Mapping, bs: seq<Block>)
    requires cfg.mapping == Some(m) && DaaOrder(bs)
    ensures ShowsLast(Snapshot(DbOf(cfg, bs).tables), EmittedIn(ChainEmissions(cfg, m, bs)))
  {
    ChainStated(cfg, m, bs);
    StatedShows(DbOf(cfg, bs).tables, bs, ChainEmissions(cfg, m, bs));
    LastIsShown(EmittedIn(ChainEmissions(cfg, m, bs)));
  }

  lemma {:induction false} EmitJoin(cfg: Config, m: Mapping, p: seq<Block>, s: seq<Block>, log: StateLog)
    requires log == ChainEmissions(cfg, m, p)
    ensures log <= ChainEmissions(cfg, m, p + s)
    decreases |s|
  {
    if s == [] {
      JoinNothing(p);
    } else {
      var n := |s| - 1;
      JoinLast(p, s, n);
      EmitJoin(cfg, m, p, s[..n], log);
      EmitLast(cfg, m, Db(EMPTY, GENESIS), [], p + s[..n], p + s, ChainEmissions(cfg, m, p + s[..n]));
    }
  }

  lemma EmissionsOfPrefix(cfg: Config, m: Mapping, p: seq<Block>, s: seq<Block>, low: StateLog, all: StateLog)
    requires low <= all && Lined(low, p) && Lined(all, p + s) && DistinctHashes(p + s)
    ensures Without(all, Hashes(s)) == low
  {
    LastEntriesGo(p, s, all);
  }

  /** After an unwind it shows what the surviving blocks emitted last, whether or not the
      unwind gave back every other row. */
  lemma UnwoundShowsLast(cfg: Config, m: Mapping, p: seq<Block>, s: seq<Block>, after: Db)
    requires cfg.mapping == Some(m) && Legal(p + s) && after == Reorg(cfg, DbOf(cfg, p + s), s)
    ensures ShowsLast(Snapshot(after.tables), EmittedIn(ChainEmissions(cfg, m, p)))
  {
    var empty, all, low := Db(EMPTY, GENESIS), ChainEmissions(cfg, m, p + s), ChainEmissions(cfg, m, p);
    LegalParts(p, s);
    ChainStated(cfg, m, p + s);
    ChainStated(cfg, m, p);
    EmitJoin(cfg, m, p, s, low);
    EmissionsOfPrefix(cfg, m, p, s, low, all);
    UnwindEntityState(cfg, DbOf(cfg, p + s), p, s, all);
    StatedShows(after.tables, p, low);
    LastIsShown(EmittedIn(low));
  }

  /** With a mapping, the anchor is the chained hash of the canonical encodings of what the
      lock handlers returned, each handed what was emitted last before its block. */
  lemma PriorCoversState(cfg: Config, m: Mapping, bs: seq<Block>)
    requires cfg.mapping == Some(m) && DaaOrder(bs)
    ensures DbOf(cfg, bs).prior == ChainTip(cfg.hash, Encoded(cfg.render, LockStates(ChainEmissions(cfg, m, bs))))
  {
    ChainStated(cfg, m, bs);
    PriorIsTip(cfg, bs);
  }

  // ----- Runs -----

  /** The same of the anchor after every run whose removals name suffixes. */
  lemma AnchorCoversState(cfg: Config, m: Mapping, depth: Option<u64>, es: seq<Event>)
    requires cfg.mapping == Some(m) && SuffixRun(depth, es)
    ensures RunNode(cfg, depth, es).db.prior
         == ChainTip(cfg.hash, Encoded(cfg.render, LockStates(RunEmissions(cfg, m, depth, es))))
  {
    RunStated(cfg, m, depth, es);
    RunChained(cfg, depth, es);
    EncodesIs(cfg.render, RunLog(cfg, depth, es), RunEmissions(cfg, m, depth, es));
  }

  lemma EncodedIsInputs(states: seq<seq<Entity>>)
    ensures Encoded(Render, states) == ChainInputs(states)
  {
  }

  /** Two nodes with mappings, over any two such runs, under any two mappings and depths:
      if the lock handlers returned the same state for each surviving block the anchors
      agree, and if the anchors agree they did, or the hash is broken. */
  lemma OneAnchorOneState(cfg: Config, m: Mapping, depth: Option<u64>, es: seq<Event>,
                          cfg': Config, m': Mapping, depth': Option<u64>, es': seq<Event>,
                          xs: seq<seq<Entity>>, ys: seq<seq<Entity>>)
    requires cfg.mapping == Some(m) && cfg'.mapping == Some(m') && cfg.hash == cfg'.hash
    requires cfg.render == Render && cfg'.render == Render && SuffixRun(depth, es) && SuffixRun(depth', es')
    requires xs == LockStates(RunEmissions(cfg, m, depth, es)) && ys == LockStates(RunEmissions(cfg', m', depth', es'))
    requires Encodable(xs) && Encodable(ys)
    ensures SameStates(xs, ys) ==> RunNode(cfg, depth, es).db.prior == RunNode(cfg', depth', es').db.prior
    ensures RunNode(cfg, depth, es).db.prior == RunNode(cfg', depth', es').db.prior ==>
      SameStates(xs, ys) || Broken(cfg.hash, ChainInputs(xs), ChainInputs(ys))
  {
    AnchorCoversState(cfg, m, depth, es);
    AnchorCoversState(cfg', m', depth', es');
    EncodedIsInputs(xs);
    EncodedIsInputs(ys);
    OnePoiOneHistory(cfg.hash, xs, ys);
  }

  // ----- What it does not cover -----

  /** The blocks differ in nothing but finality, serving endpoint and own bytes. */
  ghost predicate SameBody(a: Block, b: Block) {
    && a.hash == b.hash && a.daa == b.daa && a.content.outputs == b.content.outputs
    && a.content.inputs == b.content.inputs && a.content.hits == b.content.hits
  }

  lemma HitReadsBody(cfg: Config, t: Tables, hit: Hit, a: Block, b: Block)
    requires SameBody(a, b)
    ensures PersistHit(t, cfg.render, cfg.gid, hit, a.content, a.daa) == PersistHit(t, cfg.render, cfg.gid, hit, b.content, b.daa)
  {
  }

  lemma {:induction false} HitsReadBody(cfg: Config, t: Tables, hits: seq<Hit>, a: Block, b: Block)
    requires SameBody(a, b)
    ensures PersistHits(cfg, t, hits, a) == PersistHits(cfg, t, hits, b)
    decreases |hits|
  {
    if hits != [] {
      var n := |hits| - 1;
      HitsReadBody(cfg, t, hits[..n], a, b);
      HitReadsBody(cfg, PersistHits(cfg, t, hits[..n], a), hits[n], a, b);
    }
  }

  lemma BlockReadsBody(cfg: Config, db: Db, a: Block, b: Block)
    requires cfg.mapping.Some? && SameBody(a, b)
    ensures PersistBlock(cfg, db, a) == PersistBlock(cfg, db, b)
  {
    HitsReadBody(cfg, RecordCommitted(db.tables, a.hash, a.daa), a.content.hits, a, b);
  }

  /** With a mapping, two chains whose blocks differ in nothing else leave the same store
      and the same POI at every block: indexers fed by different endpoints agree. */
  lemma {:induction false} ServedByIsOutsidePoi(cfg: Config, bs: seq<Block>, cs: seq<Block>)
    requires cfg.mapping.Some? && |bs| == |cs| && forall i :: 0 <= i < |bs| ==> SameBody(bs[i], cs[i])
    ensures DbOf(cfg, bs) == DbOf(cfg, cs)
    decreases |bs|
  {
    if bs != [] {
      var n := |bs| - 1;
      ServedByIsOutsidePoi(cfg, bs[..n], cs[..n]);
      BlockReadsBody(cfg, DbOf(cfg, bs[..n]), bs[n], cs[n]);
    }
  }

  function OwnBytes(bs: seq<Block>): (r: seq<seq<byte>>)
    ensures |r| == |bs|
    ensures forall i :: 0 <= i < |bs| ==> r[i] == bs[i].content.entityBytes
  {
    seq(|bs|, i requires 0 <= i < |bs| => bs[i].content.entityBytes)
  }

  lemma {:induction false} BareInputs(cfg: Config, bs: seq<Block>)
    requires cfg.mapping.None?
    ensures Inputs(cfg, bs) == OwnBytes(bs)
    decreases |bs|
  {
    if bs != [] {
      BareInputs(cfg, bs[..|bs| - 1]);
    }
  }

  /** Without a mapping the anchor chains the blocks' own bytes. */
  lemma BarePriorCoversBlocks(cfg: Config, bs: seq<Block>)
    requires cfg.mapping.None?
    ensures DbOf(cfg, bs).prior == ChainTip(cfg.hash, OwnBytes(bs))
  {
    BareInputs(cfg, bs);
    PriorIsTip(cfg, bs);
  }

  /** No state is encoded as a count of zero, in four bytes. */
  lemma NothingEncoded(render: Printer)
    ensures BlockBytes(render, []) == [0, 0, 0, 0]
  {
    assert Keying([]) == [];
    assert Sort(Keying([])) == [];
    assert SortedRecords(render, []) == [];
    assert EncodeAll(SortedRecords(render, [])) == [];
  }

  /** The first block is chained from thirty-two zero bytes. */
  lemma FirstPoi(cfg: Config, b: Block, zeros: seq<byte>)
    requires |zeros| == 32 && forall i :: 0 <= i < 32 ==> zeros[i] == 0
    ensures cfg.mapping.None? ==> DbOf(cfg, [b]).prior == cfg.hash(zeros + b.content.entityBytes)
    ensures cfg.mapping.Some? && b.content.hits == [] ==> DbOf(cfg, [b]).prior == cfg.hash(zeros + [0, 0, 0, 0])
  {
    assert zeros == GENESIS;
    assert [b][..0] == [];
    assert DbOf(cfg, [b][..0]) == Db(EMPTY, GENESIS);
    DbOfLast(cfg, [b], 0);
    NothingEncoded(cfg.render);
  }
}
