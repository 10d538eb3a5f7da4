/** Runs in which blocks may also arrive finalised. Such a block settles everything up
    to its own DAA, as any block does with depth 0; what it promotes on the way keeps an
    unset finality flag in memory, which nothing reads. Up to those flags every run
    theorem holds. */
module FinalArrivals {
  import opened Prelude
  import opened Blocks
  import opened Ingestion
  import opened ChainWindow
  import opened ChainEdits
  import opened Persist
  import opened Layers
  import opened Chains
  import opened Unwinding
  import opened ReplaySafety

  function Plain(b: Block): Block { b.(isFinalized := false) }

  function DepthFor(depth: Option<u64>, b: Block): Option<u64> {
    if b.isFinalized then Some(0) else depth
  }

  function Flagged(m: map<int, Block>): (r: map<int, Block>)
    ensures r.Keys == m.Keys
    ensures forall k :: k in m ==> r[k] == Finalize(m[k])
  {
    map k | k in m :: Finalize(m[k])
  }

  /** The view without the finality flags of its committed blocks. */
  function Forget(v: View): View { View(Flagged(v.committed), v.buffered) }

  // ----- One block -----

  /** A finalised block with blocks below it: all are promoted. */
  lemma FinalPool(low: map<int, Block>, b: Block, cutoff: Option<i64>, pool: map<int, Block>)
    requires b.isFinalized && pool == MarkAll(low[b.daa := b], cutoff) && forall k :: k in low ==> k < b.daa
    ensures Promotable(pool) == pool.Keys && Flagged(pool) == Flagged(low[b.daa := b])
  {
    assert b.daa in Finals(pool);
    PromotesAll(pool, b.daa);
    SameFlags(low[b.daa := b], cutoff, pool);
  }

  lemma PromotesAll(pool: map<int, Block>, top: int)
    requires top in Finals(pool) && forall k :: k in pool ==> k <= top
    ensures Promotable(pool) == pool.Keys
  {
  }

  lemma SameFlags(m: map<int, Block>, cutoff: Option<i64>, pool: map<int, Block>)
    requires pool == MarkAll(m, cutoff)
    ensures Flagged(pool) == Flagged(m)
  {
    forall k | k in m ensures Flagged(pool)[k] == Flagged(m)[k] {
    }
  }

  lemma MarksEvery(m: map<int, Block>, cutoff: i64, pool: map<int, Block>)
    requires pool == MarkAll(m, Some(cutoff)) && forall k :: k in m ==> m[k].daa <= cutoff
    ensures pool == Flagged(m) && Finals(pool) == pool.Keys
  {
    forall k | k in m ensures pool[k] == Flagged(m)[k] {
    }
  }

  lemma PlainFlags(low: map<int, Block>, b: Block)
    ensures Flagged(low[b.daa := Plain(b)]) == Flagged(low[b.daa := b])
  {
    var l, r := Flagged(low[b.daa := Plain(b)]), Flagged(low[b.daa := b]);
    assert l.Keys == r.Keys;
    forall k | k in l ensures l[k] == r[k] {
    }
  }

  /** With depth 0 the plain block does the same, and sets every flag. */
  lemma PlainPool(low: map<int, Block>, b: Block, pool: map<int, Block>)
    requires pool == MarkAll(low[b.daa := Plain(b)], Cutoff(Some(0), b.daa))
    requires forall k :: k in low ==> k < b.daa && low[k].daa == k
    ensures Promotable(pool) == pool.Keys && pool == Flagged(low[b.daa := b])
  {
    MarksEvery(low[b.daa := Plain(b)], b.daa, pool);
    PromotesAll(pool, b.daa);
    PlainFlags(low, b);
  }

  lemma AllPromoted(committed: map<int, Block>, pool: map<int, Block>)
    ensures Flagged(committed + Restrict(pool, pool.Keys)) == Flagged(committed) + Flagged(pool)
    ensures Flagged(committed) + Restrict(pool, pool.Keys) == Flagged(committed) + pool
    ensures pool - pool.Keys == map[]
  {
  }

  lemma FlaggedPick(pool: map<int, Block>, s: set<int>)
    requires s <= pool.Keys
    ensures Finalized(PickSet(pool, s)) == PickSet(Flagged(pool), s)
  {
  }

  lemma PoolOf(depth: Option<u64>, m: map<int, Block>, low: map<int, Block>, b: Block)
    requires (m - Conflicts(m, b))[b.daa := b] == low[b.daa := b] && forall k :: k in low ==> k < b.daa
    ensures Buffered(depth, m, b) == MarkAll(low[b.daa := b], Cutoff(depth, b.daa))
    ensures Buffered(depth, m, Plain(b)) == MarkAll(low[b.daa := Plain(b)], Cutoff(depth, b.daa))
  {
    assert Conflicts(m, Plain(b)) == Conflicts(m, b);
    assert (m - Conflicts(m, b))[b.daa := Plain(b)] == (m - Conflicts(m, b))[b.daa := b][b.daa := Plain(b)];
    assert low[b.daa := Plain(b)] == low[b.daa := b][b.daa := Plain(b)];
  }

  lemma FinalStep(depth: Option<u64>, v: View, b: Block, low: map<int, Block>)
    requires b.isFinalized && b.daa !in v.committed && forall k :: k in low ==> k < b.daa && low[k].daa == k
    requires (v.buffered - Conflicts(v.buffered, b))[b.daa := b] == low[b.daa := b]
    ensures var s, t := BlockStep(depth, v, b), BlockStep(Some(0), Forget(v), Plain(b));
      Forget(s.next) == t.next && Finalized(s.out.writes) == t.out.writes
  {
    PoolOf(depth, v.buffered, low, b);
    PoolOf(Some(0), v.buffered, low, b);
    var pool := MarkAll(low[b.daa := b], Cutoff(depth, b.daa));
    var plain := MarkAll(low[b.daa := Plain(b)], Cutoff(Some(0), b.daa));
    FinalPool(low, b, Cutoff(depth, b.daa), pool);
    PlainPool(low, b, plain);
    FlaggedPick(pool, pool.Keys);
    AllPromoted(v.committed, pool);
    AllPromoted(v.committed, plain);
  }

  /** The flags of what is committed are not read. */
  lemma ForgetStep(depth: Option<u64>, v: View, b: Block)
    ensures BlockStep(depth, v, b).out == BlockStep(depth, Forget(v), b).out
    ensures Forget(BlockStep(depth, v, b).next) == Forget(BlockStep(depth, Forget(v), b).next)
  {
    if b.daa !in v.committed {
      var pool := Buffered(depth, v.buffered, b);
      var ready := if b.isFinalized || Cutoff(depth, b.daa).Some? then Promotable(pool) else {};
      FlagsJoin(v.committed, Restrict(pool, ready));
    } else {
      FlagsTwice(v.committed);
    }
  }

  lemma FlagsJoin(committed: map<int, Block>, more: map<int, Block>)
    ensures Flagged(committed + more) == Flagged(Flagged(committed) + more)
  {
    var l, r := Flagged(committed + more), Flagged(Flagged(committed) + more);
    assert l.Keys == r.Keys;
    forall k | k in l ensures l[k] == r[k] {
    }
  }

  lemma FlagsTwice(m: map<int, Block>)
    ensures Flagged(Flagged(m)) == Flagged(m)
  {
    assert forall k :: k in m ==> Flagged(Flagged(m))[k] == Flagged(m)[k];
  }

  lemma SplitIsFlagged(done: seq<Block>, waiting: seq<Block>)
    requires DaaOrder(done)
    ensures Forget(Split(done, waiting)) == Split(done, waiting)
  {
    var m := ByDaa(Finalized(done));
    FinalizedOrder(done);
    ByDaaRepresents(Finalized(done));
    forall k | k in m ensures Flagged(m)[k] == m[k] {
      var i :| 0 <= i < |Finalized(done)| && Finalized(done)[i].daa == k;
    }
    assert Flagged(m) == m;
  }

  // ----- What is followed -----

  ghost predicate AnyArrives(tr: Track, b: Block) { Arrives(tr, Plain(b)) }

  function AnyNext(depth: Option<u64>, tr: Track, b: Block): Track {
    NextBlock(DepthFor(depth, b), tr, Plain(b))
  }

  function AnyFollow(depth: Option<u64>, tr: Track, bs: seq<Block>): Track {
    if bs == [] then tr
    else AnyNext(depth, AnyFollow(depth, tr, bs[..|bs| - 1]), bs[|bs| - 1])
  }

  ghost predicate AnyArriveAll(depth: Option<u64>, tr: Track, bs: seq<Block>) {
    bs != [] ==>
      AnyArriveAll(depth, tr, bs[..|bs| - 1]) && AnyArrives(AnyFollow(depth, tr, bs[..|bs| - 1]), bs[|bs| - 1])
  }

  lemma FinalBlockRefines(depth: Option<u64>, tr: Track, v: View, b: Block, kept: seq<Block>)
    requires Good(tr) && AnyArrives(tr, b) && b.isFinalized && !Committed(tr.done, b.daa)
    requires Forget(v) == Split(tr.done, tr.waiting) && kept == Displace(tr, b.daa).waiting
    ensures var s, t := BlockStep(depth, v, b), BlockStep(Some(0), Split(tr.done, tr.waiting), Plain(b));
      Forget(s.next) == t.next && Finalized(s.out.writes) == t.out.writes
  {
    PartsOrder(tr.done, tr.waiting);
    CommittedIff(tr.done, b.daa);
    assert b.daa !in v.committed by {
      assert b.daa !in Flagged(v.committed);
    }
    Displaced(tr.waiting, Plain(b), kept);
    SameConflicts(tr.waiting, b, kept);
    KeptBelow(tr.waiting, b, kept);
    KeyedByDaa(kept);
    FinalStep(depth, v, b, ByDaa(kept));
  }

  lemma SameConflicts(waiting: seq<Block>, b: Block, kept: seq<Block>)
    requires (ByDaa(waiting) - Conflicts(ByDaa(waiting), Plain(b)))[b.daa := Plain(b)] == ByDaa(kept)[b.daa := Plain(b)]
    ensures (ByDaa(waiting) - Conflicts(ByDaa(waiting), b))[b.daa := b] == ByDaa(kept)[b.daa := b]
  {
    var m, low := ByDaa(waiting), ByDaa(kept);
    assert Conflicts(m, Plain(b)) == Conflicts(m, b);
    assert (m - Conflicts(m, b))[b.daa := Plain(b)][b.daa := b] == (m - Conflicts(m, b))[b.daa := b];
    assert low[b.daa := Plain(b)][b.daa := b] == low[b.daa := b];
  }

  lemma KeyedByDaa(bs: seq<Block>)
    requires DaaOrder(bs)
    ensures forall k :: k in ByDaa(bs) ==> ByDaa(bs)[k].daa == k
  {
    ByDaaRepresents(bs);
  }

  /** One block, finalised or not: views agree up to flags, and writes up to flags are
      what the committed part gained. */
  lemma AnyBlockRefines(depth: Option<u64>, tr: Track, v: View, b: Block, next: Track)
    requires Good(tr) && AnyArrives(tr, b) && next == AnyNext(depth, tr, b)
    requires Forget(v) == Split(tr.done, tr.waiting)
    ensures Good(next) && next.base == tr.base && tr.done <= next.done
    ensures Forget(BlockStep(depth, v, b).next) == Split(next.done, next.waiting)
    ensures Finalized(BlockStep(depth, v, b).out.writes) == Finalized(next.done[|tr.done|..])
  {
    var d := DepthFor(depth, b);
    NextBlockGood(d, tr, Plain(b));
    BlockRefines(d, tr, Plain(b), next);
    PartsOrder(next.done, next.waiting);
    SplitIsFlagged(next.done, next.waiting);
    FinalizedTwice(next.done[|tr.done|..]);
    if b.isFinalized && !Committed(tr.done, b.daa) {
      FinalBlockRefines(depth, tr, v, b, Displace(tr, b.daa).waiting);
    } else if b.isFinalized {
      PartsOrder(tr.done, tr.waiting);
      CommittedIff(tr.done, b.daa);
      SkippedStep(depth, tr, v, b);
    } else {
      assert Plain(b) == b;
      ForgetStep(depth, v, b);
    }
  }

  lemma SkippedStep(depth: Option<u64>, tr: Track, v: View, b: Block)
    requires Forget(v) == Split(tr.done, tr.waiting) && b.daa in Split(tr.done, tr.waiting).committed
    ensures BlockStep(depth, v, b) == Step(v, NOTHING)
  {
    assert b.daa in Flagged(v.committed);
  }

  lemma FinalizedTwice(bs: seq<Block>)
    ensures Finalized(Finalized(bs)) == Finalized(bs)
  {
  }

  lemma {:induction false} AnyBlocksRefine(depth: Option<u64>, tr: Track, v: View, bs: seq<Block>)
    requires Good(tr) && AnyArriveAll(depth, tr, bs) && Forget(v) == Split(tr.done, tr.waiting)
    ensures var next := AnyFollow(depth, tr, bs);
      Good(next) && next.base == tr.base && tr.done <= next.done
    ensures var s, next := BlocksStep(depth, v, bs), AnyFollow(depth, tr, bs);
      Forget(s.next) == Split(next.done, next.waiting) && Finalized(s.out.writes) == Finalized(next.done[|tr.done|..])
    decreases |bs|
  {
    if bs == [] {
      assert Finalized([]) == [];
    } else {
      var n := |bs| - 1;
      var before, mid := BlocksStep(depth, v, bs[..n]), AnyFollow(depth, tr, bs[..n]);
      AnyBlocksRefine(depth, tr, v, bs[..n]);
      AnyBlockRefines(depth, mid, before.next, bs[n], AnyFollow(depth, tr, bs));
      GainsJoin(tr.done, mid.done, AnyFollow(depth, tr, bs).done);
      FinalizedJoin(before.out.writes, BlockStep(depth, before.next, bs[n]).out.writes);
    }
  }

  // ----- Whole nodes -----

  function Seen(s: Node): Node { Node(Forget(s.view), s.db) }

  lemma {:induction false} PersistIgnoresFlags(cfg: Config, db: Db, ws: seq<Block>)
    ensures PersistBlocks(cfg, db, Finalized(ws)) == PersistBlocks(cfg, db, ws)
    decreases |ws|
  {
    if ws != [] {
      var n := |ws| - 1;
      PersistIgnoresFlags(cfg, db, ws[..n]);
      BlockIgnoresFlag(cfg, PersistBlocks(cfg, db, ws[..n]), ws[n]);
      assert Finalized(ws)[..n] == Finalized(ws[..n]);
    }
  }

  lemma {:induction false} LowestIgnoresFlags(ws: seq<Block>)
    requires ws != []
    ensures LowestDaa(Finalized(ws)) == LowestDaa(ws)
  {
    if |ws| > 1 {
      LowestIgnoresFlags(ws[1..]);
      assert Finalized(ws)[1..] == Finalized(ws[1..]);
    }
  }

  lemma ReorgIgnoresFlags(cfg: Config, db: Db, us: seq<Block>)
    ensures Reorg(cfg, db, Finalized(us)) == Reorg(cfg, db, us)
  {
    if us != [] {
      LowestIgnoresFlags(us);
      assert Hashes(Finalized(us)) == Hashes(us);
    }
  }

  lemma RemovedForgets(v: View, removed: seq<string>, unwound: set<int>, dropped: set<int>, cut: View)
    requires unwound == Holding(v.committed, removed) && dropped == Holding(v.buffered, removed)
    requires cut == View(v.committed - unwound, v.buffered - dropped)
    ensures unwound == Holding(Forget(v).committed, removed) && dropped == Holding(Forget(v).buffered, removed)
    ensures Forget(cut) == View(Forget(v).committed - unwound, Forget(v).buffered - dropped)
    ensures Finalized(PickSet(v.committed, unwound)) == PickSet(Forget(v).committed, unwound)
  {
    forall k ensures k in Holding(Flagged(v.committed), removed) <==> k in unwound {
    }
    assert Flagged(v.committed - unwound) == Flagged(v.committed) - unwound;
    FlaggedPick(v.committed, unwound);
  }

  // ----- Notifications -----

  /** What is left of a track when the removals of a notification have been done. */
  function Cut(tr: Track, n: Notification): Track {
    if n.VirtualChainChanged? then Shrink(tr, n.removed) else tr
  }

  /** Every block arrives as above, and the committed blocks that a removal names are a
      suffix of those committed since the last start. */
  ghost predicate Follows(depth: Option<u64>, tr: Track, n: Notification) {
    match n
    case BlockAdded(w) => AnyArrives(tr, BlockFromRpc(w))
    case VirtualChainChanged(removed, added) =>
      NamesSuffix(tr.done, |Cut(tr, n).done|, removed) && AnyArriveAll(depth, Cut(tr, n), BlocksFromRpc(added))
    case RecoveryRequired(_, _) => true
  }

  function AnyAfter(depth: Option<u64>, tr: Track, n: Notification): Track {
    match n
    case BlockAdded(w) => AnyNext(depth, tr, BlockFromRpc(w))
    case VirtualChainChanged(_, added) => AnyFollow(depth, Cut(tr, n), BlocksFromRpc(added))
    case RecoveryRequired(_, _) => Next(depth, tr, n)
  }

  /** From `tr` back to `cut`, and on to `after`. */
  ghost predicate Moves(tr: Track, cut: Track, after: Track) {
    && Good(cut) && Good(after) && tr.base == cut.base == after.base
    && cut.done <= tr.done && cut.done <= after.done
  }

  /** A step from a view of `tr` to one of `after` unwinds, up to flags, the committed
      blocks that `cut` lacks, and writes those that `after` has gained. */
  ghost predicate StepMoves(tr: Track, cut: Track, after: Track, step: Step)
    requires Moves(tr, cut, after)
  {
    && Forget(step.next) == Split(after.done, after.waiting)
    && Finalized(step.out.unwinds) == Finalized(tr.done[|cut.done|..])
    && Finalized(step.out.writes) == Finalized(after.done[|cut.done|..])
  }

  lemma ArrivalUnwindsNothing(depth: Option<u64>, v: View, w: IngestedBlock, step: Step)
    requires step == NotificationStep(depth, v, BlockAdded(w))
    ensures step == BlockStep(depth, v, BlockFromRpc(w)) && step.out.unwinds == []
  {
  }

  lemma ArrivalMoves(depth: Option<u64>, tr: Track, v: View, w: IngestedBlock)
    requires Good(tr) && AnyArrives(tr, BlockFromRpc(w)) && Forget(v) == Split(tr.done, tr.waiting)
    ensures var after := AnyNext(depth, tr, BlockFromRpc(w));
      Moves(tr, tr, after) && StepMoves(tr, tr, after, NotificationStep(depth, v, BlockAdded(w)))
  {
    AnyBlockRefines(depth, tr, v, BlockFromRpc(w), AnyNext(depth, tr, BlockFromRpc(w)));
    ArrivalUnwindsNothing(depth, v, w, NotificationStep(depth, v, BlockAdded(w)));
    assert tr.done[|tr.done|..] == [];
  }

  lemma ReorgMoves(depth: Option<u64>, tr: Track, v: View, removed: seq<string>, added: seq<IngestedBlock>, cut: Track)
    requires Good(tr) && Forget(v) == Split(tr.done, tr.waiting)
    requires Follows(depth, tr, VirtualChainChanged(removed, added)) && cut == Shrink(tr, removed)
    ensures var after := AnyFollow(depth, cut, BlocksFromRpc(added));
      Moves(tr, cut, after) && StepMoves(tr, cut, after, NotificationStep(depth, v, VirtualChainChanged(removed, added)))
  {
    var unwound, dropped := Holding(v.committed, removed), Holding(v.buffered, removed);
    var left := View(v.committed - unwound, v.buffered - dropped);
    RemovedForgets(v, removed, unwound, dropped, left);
    RemovalShrinks(tr, removed, cut);
    FinalizedTwice(tr.done[|cut.done|..]);
    AnyBlocksRefine(depth, cut, left, BlocksFromRpc(added));
  }

  lemma GapMoves(depth: Option<u64>, tr: Track, v: View, lo: u64, hi: u64)
    requires Good(tr) && Forget(v) == Split(tr.done, tr.waiting)
    ensures var n := RecoveryRequired(lo, hi);
            var after := Next(depth, tr, n);
      Moves(tr, tr, after) && StepMoves(tr, tr, after, NotificationStep(depth, v, n))
  {
    PartsOrder(tr.done, tr.waiting);
    GapRemoved(tr.waiting, ToI64(lo), ToI64(hi));
    GapGood(tr, Outside(ToI64(lo), ToI64(hi)));
    assert tr.done[|tr.done|..] == [] == NotificationStep(depth, v, RecoveryRequired(lo, hi)).out.unwinds;
    assert NotificationStep(depth, v, RecoveryRequired(lo, hi)).out.writes == [];
  }

  lemma NotificationMoves(depth: Option<u64>, tr: Track, v: View, n: Notification)
    requires Good(tr) && Follows(depth, tr, n) && Forget(v) == Split(tr.done, tr.waiting)
    ensures var cut, after := Cut(tr, n), AnyAfter(depth, tr, n);
      Moves(tr, cut, after) && StepMoves(tr, cut, after, NotificationStep(depth, v, n))
  {
    match n
    case BlockAdded(w) => ArrivalMoves(depth, tr, v, w);
    case VirtualChainChanged(removed, added) => ReorgMoves(depth, tr, v, removed, added, Cut(tr, n));
    case RecoveryRequired(lo, hi) => GapMoves(depth, tr, v, lo, hi);
  }

  /** What the store makes of it: the blocks that are gone are unwound, those gained persisted. */
  lemma StepPersists(cfg: Config, tr: Track, cut: Track, after: Track, db: Db, step: Step)
    requires Moves(tr, cut, after) && StepMoves(tr, cut, after, step)
    ensures PersistBlocks(cfg, Reorg(cfg, db, step.out.unwinds), step.out.writes)
         == PersistBlocks(cfg, Reorg(cfg, db, tr.done[|cut.done|..]), after.done[|cut.done|..])
  {
    var gone, gained := tr.done[|cut.done|..], after.done[|cut.done|..];
    ReorgIgnoresFlags(cfg, db, step.out.unwinds);
    ReorgIgnoresFlags(cfg, db, gone);
    PersistIgnoresFlags(cfg, Reorg(cfg, db, gone), step.out.writes);
    PersistIgnoresFlags(cfg, Reorg(cfg, db, gone), gained);
  }

  // ----- Runs, and what they leave in memory -----

  function AnyNextTrack(depth: Option<u64>, tr: Track, e: Event): Track {
    if e.Restarted? || Aborts(e.n) then Track(tr.base + tr.done, [], []) else AnyAfter(depth, tr, e.n)
  }

  function AnyTrack(depth: Option<u64>, es: seq<Event>): Track {
    if es == [] then Track([], [], [])
    else AnyNextTrack(depth, AnyTrack(depth, es[..|es| - 1]), es[|es| - 1])
  }

  /** The committed blocks that have not been unwound, in order. */
  function Surviving(depth: Option<u64>, es: seq<Event>): seq<Block> {
    AnyTrack(depth, es).base + AnyTrack(depth, es).done
  }

  ghost predicate Followed(depth: Option<u64>, tr: Track, e: Event) {
    e.Heard? && !Aborts(e.n) ==> Follows(depth, tr, e.n)
  }

  /** Blocks arrive as above and removals name suffixes, whatever rows they overwrote. */
  ghost predicate SuffixRun(depth: Option<u64>, es: seq<Event>) {
    es != [] ==>
      SuffixRun(depth, es[..|es| - 1]) && Followed(depth, AnyTrack(depth, es[..|es| - 1]), es[|es| - 1])
  }

  lemma EventMoves(depth: Option<u64>, tr: Track, v: View, e: Event)
    requires Good(tr) && Followed(depth, tr, e) && Forget(v) == Split(tr.done, tr.waiting)
    ensures Good(AnyNextTrack(depth, tr, e))
    ensures e.Heard? && !Aborts(e.n) ==>
      Forget(NotificationStep(depth, v, e.n).next) == Split(AnyAfter(depth, tr, e.n).done, AnyAfter(depth, tr, e.n).waiting)
  {
    if e.Heard? && !Aborts(e.n) {
      NotificationMoves(depth, tr, v, e.n);
    } else {
      RestartGood(tr, AnyNextTrack(depth, tr, e));
    }
  }

  /** Memory, up to the flags of committed blocks, is that of what was followed. */
  lemma {:induction false} MemoryRefines(cfg: Config, depth: Option<u64>, es: seq<Event>)
    requires SuffixRun(depth, es)
    ensures Good(AnyTrack(depth, es))
    ensures Forget(RunNode(cfg, depth, es).view) == Split(AnyTrack(depth, es).done, AnyTrack(depth, es).waiting)
  {
    if es != [] {
      MemoryRefines(cfg, depth, es[..|es| - 1]);
      EventMoves(depth, AnyTrack(depth, es[..|es| - 1]), RunNode(cfg, depth, es[..|es| - 1]).view, es[|es| - 1]);
    } else {
      var nothing: seq<Block> := [];
      assert nothing + nothing == nothing;
    }
    assert Flagged(map[]) == map[];
  }

  // ----- When no unwind meets an overwritten row, the store too -----

  /** What the notification unwinds overwrote no row of what is below it. */
  ghost predicate CleanEvent(cfg: Config, tr: Track, e: Event) {
    e.Heard? && !Aborts(e.n) ==>
      var kept := Cut(tr, e.n).done;
      kept <= tr.done && Clean(cfg, tr.base + kept, tr.done[|kept|..])
  }

  /** In order as before, but for blocks that arrive finalised. */
  ghost predicate AnyRun(cfg: Config, depth: Option<u64>, es: seq<Event>) {
    es != [] ==>
      var tr := AnyTrack(depth, es[..|es| - 1]);
      AnyRun(cfg, depth, es[..|es| - 1]) && Followed(depth, tr, es[|es| - 1]) && CleanEvent(cfg, tr, es[|es| - 1])
  }

  lemma {:induction false} AnyIsSuffix(cfg: Config, depth: Option<u64>, es: seq<Event>)
    requires AnyRun(cfg, depth, es)
    ensures SuffixRun(depth, es)
  {
    if es != [] {
      AnyIsSuffix(cfg, depth, es[..|es| - 1]);
    }
  }

  lemma ThroughCut(tr: Track, cut: Track, after: Track)
    requires Moves(tr, cut, after)
    ensures tr.base + tr.done == (tr.base + cut.done) + tr.done[|cut.done|..]
    ensures after.base + after.done == (tr.base + cut.done) + after.done[|cut.done|..]
  {
  }

  /** From the store of one chain to the store of the next. */
  lemma StoreMoves(cfg: Config, tr: Track, cut: Track, after: Track)
    requires Sane(cfg) && Good(tr) && Moves(tr, cut, after)
    requires Clean(cfg, tr.base + cut.done, tr.done[|cut.done|..])
    ensures PersistBlocks(cfg, Reorg(cfg, DbOf(cfg, tr.base + tr.done), tr.done[|cut.done|..]), after.done[|cut.done|..])
         == DbOf(cfg, after.base + after.done)
  {
    var p, gone, gained := tr.base + cut.done, tr.done[|cut.done|..], after.done[|cut.done|..];
    CommittedIsLegal(tr);
    ThroughCut(tr, cut, after);
    UnwindRestoresPrefix(cfg, p, gone);
    ReorgIgnoresFlags(cfg, DbOf(cfg, p + gone), gone);
    PersistJoin(cfg, p, gained);
  }

  lemma AnyEventRefines(cfg: Config, depth: Option<u64>, tr: Track, s: Node, e: Event)
    requires Sane(cfg) && Good(tr) && Seen(s) == NodeOf(cfg, tr) && Followed(depth, tr, e) && CleanEvent(cfg, tr, e)
    ensures NodeEvent(cfg, depth, s, e).db == NodeOf(cfg, AnyNextTrack(depth, tr, e)).db
  {
    if e.Restarted? || Aborts(e.n) {
      RestartRefines(cfg, tr, AnyNextTrack(depth, tr, e));
    } else {
      var cut, after := Cut(tr, e.n), AnyAfter(depth, tr, e.n);
      NotificationMoves(depth, tr, s.view, e.n);
      StepPersists(cfg, tr, cut, after, s.db, NotificationStep(depth, s.view, e.n));
      StoreMoves(cfg, tr, cut, after);
    }
  }

  /** The main theorem with finalised arrivals: store and anchor are exactly those of
      what was followed, and so is memory up to the flags of committed blocks. */
  lemma {:induction false} AnyRunRefines(cfg: Config, depth: Option<u64>, es: seq<Event>)
    requires Sane(cfg) && AnyRun(cfg, depth, es)
    ensures Seen(RunNode(cfg, depth, es)) == NodeOf(cfg, AnyTrack(depth, es))
    ensures Good(AnyTrack(depth, es))
  {
    AnyIsSuffix(cfg, depth, es);
    MemoryRefines(cfg, depth, es);
    if es != [] {
      var before := es[..|es| - 1];
      AnyRunRefines(cfg, depth, before);
      AnyEventRefines(cfg, depth, AnyTrack(depth, before), RunNode(cfg, depth, before), es[|es| - 1]);
    }
  }

  // ----- Every in-order run is one of these -----

  lemma ArrivesAny(depth: Option<u64>, tr: Track, b: Block)
    requires Arrives(tr, b)
    ensures AnyArrives(tr, b) && AnyNext(depth, tr, b) == NextBlock(depth, tr, b)
  {
    if Committed(tr.done, b.daa) {
    } else {
      var all := Recent(Displace(tr, b.daa)) + [b];
      assert all[|all| - 1] == b;
      assert Plain(b) == b;
    }
  }

  lemma {:induction false} ArriveAllAny(depth: Option<u64>, tr: Track, bs: seq<Block>)
    requires ArriveAll(depth, tr, bs)
    ensures AnyArriveAll(depth, tr, bs) && AnyFollow(depth, tr, bs) == Follow(depth, tr, bs)
    decreases |bs|
  {
    if bs != [] {
      ArriveAllAny(depth, tr, bs[..|bs| - 1]);
      ArrivesAny(depth, Follow(depth, tr, bs[..|bs| - 1]), bs[|bs| - 1]);
    }
  }

  lemma EventIsAny(cfg: Config, depth: Option<u64>, tr: Track, e: Event)
    requires InOrderEvent(cfg, depth, tr, e)
    ensures Followed(depth, tr, e) && CleanEvent(cfg, tr, e) && AnyNextTrack(depth, tr, e) == NextTrack(depth, tr, e)
  {
    if e.Heard? && !Aborts(e.n) {
      match e.n {
        case BlockAdded(w) =>
          ArrivesAny(depth, tr, BlockFromRpc(w));
          NothingUnwound(cfg, tr);
        case VirtualChainChanged(removed, added) =>
          ArriveAllAny(depth, Shrink(tr, removed), BlocksFromRpc(added));
          SuffixKept(tr.done, |Shrink(tr, removed).done|, removed);
        case RecoveryRequired(_, _) =>
          NothingUnwound(cfg, tr);
      }
    }
  }

  lemma NothingUnwound(cfg: Config, tr: Track)
    ensures Clean(cfg, tr.base + tr.done, tr.done[|tr.done|..])
  {
    assert tr.done[|tr.done|..] == [];
  }

  lemma {:induction false} InOrderIsAny(cfg: Config, depth: Option<u64>, es: seq<Event>)
    requires InOrderRun(cfg, depth, es)
    ensures AnyRun(cfg, depth, es) && AnyTrack(depth, es) == RunTrack(depth, es)
  {
    if es != [] {
      InOrderIsAny(cfg, depth, es[..|es| - 1]);
      EventIsAny(cfg, depth, RunTrack(depth, es[..|es| - 1]), es[|es| - 1]);
    }
  }
}
