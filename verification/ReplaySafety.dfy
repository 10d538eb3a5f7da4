/** The replay-safety contract: the same chain gives the same memory, the same
    tables and the same POI hash, whatever reorgs, gaps and restarts happened on
    the way (docs/references/BLOCKDAG_REORG_SEMANTICS.md, "POI re-anchoring"). */
module ReplaySafety {
  import opened Prelude
  import opened Poi
  import opened Blocks
  import opened Ingestion
  import opened ChainWindow
  import opened ChainEdits
  import opened Tables
  import opened Persist
  import opened Layers
  import opened Chains
  import opened Unwinding

  /** What a node has followed: blocks persisted before its last start, blocks
      committed since, and blocks it buffers. */
  datatype Track = Track(base: seq<Block>, done: seq<Block>, waiting: seq<Block>)

  function Chain(tr: Track): seq<Block> { tr.base + (tr.done + tr.waiting) }

  /** The one state a node can be in after following a track. */
  function NodeOf(cfg: Config, tr: Track): Node {
    Node(Split(tr.done, tr.waiting), DbOf(cfg, tr.base + tr.done))
  }

  ghost predicate Good(tr: Track) {
    InOrder(tr.done + tr.waiting) && Legal(Chain(tr))
  }

  /** Blocks arriving at the tip: what still waits after the last of them ... */
  function Left(depth: Option<u64>, waiting: seq<Block>, bs: seq<Block>): seq<Block> {
    if bs == [] then waiting
    else
      var n := |bs| - 1;
      Unripe(Left(depth, waiting, bs[..n]) + [bs[n]], Cutoff(depth, bs[n].daa))
  }

  /** ... and what they commit on the way. */
  function Gained(depth: Option<u64>, waiting: seq<Block>, bs: seq<Block>): seq<Block> {
    if bs == [] then []
    else
      var n := |bs| - 1;
      Gained(depth, waiting, bs[..n]) + Ripe(Left(depth, waiting, bs[..n]) + [bs[n]], Cutoff(depth, bs[n].daa))
  }

  lemma {:induction false} FollowKeepsAll(depth: Option<u64>, waiting: seq<Block>, bs: seq<Block>)
    ensures Gained(depth, waiting, bs) + Left(depth, waiting, bs) == waiting + bs
    decreases |bs|
  {
    if bs == [] {
      assert waiting + bs == waiting;
    } else {
      var n := |bs| - 1;
      var gained, left := Gained(depth, waiting, bs[..n]), Left(depth, waiting, bs[..n]);
      FollowKeepsAll(depth, waiting, bs[..n]);
      Regroup(gained, left, bs[n], Settled(left + [bs[n]], Cutoff(depth, bs[n].daa)));
      assert waiting + bs == waiting + bs[..n] + [bs[n]];
    }
  }

  lemma Regroup(gained: seq<Block>, left: seq<Block>, b: Block, k: nat)
    requires k <= |left + [b]|
    ensures gained + (left + [b])[..k] + (left + [b])[k..] == gained + left + [b]
  {
  }

  lemma OrderPrefix(xs: seq<Block>, bs: seq<Block>)
    requires InOrder(xs + bs) && bs != []
    ensures var n := |bs| - 1;
      InOrder(xs + bs[..n]) && Above(bs[n], xs + bs[..n])
  {
    var all, n := xs + bs, |bs| - 1;
    assert xs + bs[..n] == all[..|all| - 1];
    assert bs[n] == all[|all| - 1];
  }

  lemma Assoc(a: seq<Block>, b: seq<Block>, c: seq<Block>)
    ensures (a + b) + c == a + (b + c)
  {
  }

  lemma SameChain(done: seq<Block>, gained: seq<Block>, left: seq<Block>, waiting: seq<Block>, bs: seq<Block>)
    requires gained + left == waiting + bs
    ensures (done + gained) + left == (done + waiting) + bs
  {
    Assoc(done, gained, left);
    Assoc(done, waiting, bs);
  }

  lemma FollowOne(depth: Option<u64>, done: seq<Block>, gained: seq<Block>, left: seq<Block>, b: Block)
    requires InOrder((done + gained) + left) && Above(b, (done + gained) + left)
    ensures var w, cutoff := left + [b], Cutoff(depth, b.daa);
      && BlockStep(depth, Split(done + gained, left), b).next == Split(done + (gained + Ripe(w, cutoff)), Unripe(w, cutoff))
      && BlockStep(depth, Split(done + gained, left), b).out == Transition(Finalized(Ripe(w, cutoff)), [], [], None)
  {
    ChainWindow.TipStep(depth, done + gained, left, b);
    Assoc(done, gained, Ripe(left + [b], Cutoff(depth, b.daa)));
  }

  lemma FollowLast(depth: Option<u64>, done: seq<Block>, waiting: seq<Block>, bs: seq<Block>, n: nat,
                   gained: seq<Block>, left: seq<Block>, w: seq<Block>, cutoff: Option<i64>)
    requires |bs| == n + 1 && w == left + [bs[n]] && cutoff == Cutoff(depth, bs[n].daa)
    requires BlocksStep(depth, Split(done, waiting), bs[..n]) == Commits(done, gained, left)
    requires InOrder((done + gained) + left) && Above(bs[n], (done + gained) + left)
    ensures BlocksStep(depth, Split(done, waiting), bs) == Commits(done, gained + Ripe(w, cutoff), Unripe(w, cutoff))
  {
    FollowOne(depth, done, gained, left, bs[n]);
    FinalizedJoin(gained, Ripe(w, cutoff));
  }

  /** Blocks in order above the tip roll nothing back, and what they commit is
      written exactly once, in chain order. */
  lemma {:induction false} FollowRefines(depth: Option<u64>, done: seq<Block>, waiting: seq<Block>, bs: seq<Block>)
    requires InOrder((done + waiting) + bs)
    ensures BlocksStep(depth, Split(done, waiting), bs)
         == Commits(done, Gained(depth, waiting, bs), Left(depth, waiting, bs))
    decreases |bs|
  {
    if bs == [] {
      assert done + [] == done;
      assert Finalized([]) == [];
    } else {
      var n := |bs| - 1;
      var gained, left := Gained(depth, waiting, bs[..n]), Left(depth, waiting, bs[..n]);
      OrderPrefix(done + waiting, bs);
      FollowRefines(depth, done, waiting, bs[..n]);
      FollowKeepsAll(depth, waiting, bs[..n]);
      SameChain(done, gained, left, waiting, bs[..n]);
      FollowLast(depth, done, waiting, bs, n, gained, left, left + [bs[n]], Cutoff(depth, bs[n].daa));
    }
  }

  // ----- The notifications of an in-order run -----

  predicate Committed(done: seq<Block>, daa: int) {
    exists i :: 0 <= i < |done| && done[i].daa == daa
  }

  /** What a node has followed since its last start. */
  function Recent(tr: Track): seq<Block> { tr.done + tr.waiting }

  /** The blocks continue the chain a node follows. */
  ghost predicate Continue(tr: Track, bs: seq<Block>) {
    InOrder(Recent(tr) + bs) && Legal(tr.base + (Recent(tr) + bs))
  }

  /** The track without the buffered blocks at or above a DAA. */
  function Displace(tr: Track, daa: int): Track {
    Track(tr.base, tr.done, tr.waiting[..Lower(tr.waiting, daa)])
  }

  /** A block may arrive at a DAA committed since the last start, or anywhere above
      the committed blocks: above the buffered tip, in its place, or below it. */
  ghost predicate Arrives(tr: Track, b: Block) {
    || Committed(tr.done, b.daa)
    || (OneDaa(tr.waiting, b) && Continue(Displace(tr, b.daa), [b]))
  }

  /** A committed DAA is skipped; any other block displaces what is buffered at or
      above it and settles what its own cutoff reaches. */
  function NextBlock(depth: Option<u64>, tr: Track, b: Block): Track {
    if Committed(tr.done, b.daa) then tr
    else
      var w := Displace(tr, b.daa).waiting + [b];
      Track(tr.base, tr.done + Ripe(w, Cutoff(depth, b.daa)), Unripe(w, Cutoff(depth, b.daa)))
  }

  /** The blocks of one notification, in order. */
  function Follow(depth: Option<u64>, tr: Track, bs: seq<Block>): Track {
    if bs == [] then tr
    else NextBlock(depth, Follow(depth, tr, bs[..|bs| - 1]), bs[|bs| - 1])
  }

  ghost predicate ArriveAll(depth: Option<u64>, tr: Track, bs: seq<Block>) {
    bs != [] ==>
      ArriveAll(depth, tr, bs[..|bs| - 1]) && Arrives(Follow(depth, tr, bs[..|bs| - 1]), bs[|bs| - 1])
  }

  function Shrink(tr: Track, removed: seq<string>): Track {
    Track(tr.base, Keep(tr.done, Unnamed(removed)), Keep(tr.waiting, Unnamed(removed)))
  }

  /** A run is in order when every block arrives as above, and the committed blocks a
      removal names are a suffix of those committed since the last start. Buffered
      blocks may be removed by hash, by gap or by displacement, in any pattern. */
  ghost predicate InOrderNext(cfg: Config, depth: Option<u64>, tr: Track, n: Notification) {
    match n
    case BlockAdded(w) => Arrives(tr, BlockFromRpc(w))
    case VirtualChainChanged(removed, added) =>
      && NamesSuffix(tr.done, |Shrink(tr, removed).done|, removed)
      && Clean(cfg, tr.base + Shrink(tr, removed).done, tr.done[|Shrink(tr, removed).done|..])
      && ArriveAll(depth, Shrink(tr, removed), BlocksFromRpc(added))
    case RecoveryRequired(_, _) => true
  }

  function Next(depth: Option<u64>, tr: Track, n: Notification): Track {
    match n
    case BlockAdded(w) => NextBlock(depth, tr, BlockFromRpc(w))
    case VirtualChainChanged(removed, added) => Follow(depth, Shrink(tr, removed), BlocksFromRpc(added))
    case RecoveryRequired(lo, hi) =>
      Track(tr.base, tr.done, Keep(tr.waiting, Outside(ToI64(lo), ToI64(hi))))
  }

  // ----- Chains stay legal -----

  lemma LegalPrefix(p: seq<Block>, s: seq<Block>, n: nat)
    requires Legal(p + s) && n <= |s|
    ensures Legal(p + s[..n])
  {
    var all := p + s;
    assert p + s[..n] == all[..|p| + n];
    assert forall i :: 0 <= i < |p| + n ==> all[..|p| + n][i] == all[i];
  }

  lemma LegalAppend(xs: seq<Block>, b: Block)
    requires Legal(xs) && AllBelow(xs, b.daa) && SmallIndices(b) && forall i :: 0 <= i < |xs| ==> xs[i].hash != b.hash
    ensures Legal(xs + [b])
  {
  }

  lemma KeptDiffer(p: seq<Block>, s: seq<Block>, test: Block -> bool, b: Block)
    requires AllBelow(p + s, b.daa) && forall i :: 0 <= i < |p + s| ==> (p + s)[i].hash != b.hash
    ensures var xs := p + Keep(s, test);
      AllBelow(xs, b.daa) && forall i :: 0 <= i < |xs| ==> xs[i].hash != b.hash
  {
    var all, kept := p + s, Keep(s, test);
    var xs := p + kept;
    forall i | 0 <= i < |xs| ensures xs[i].daa < b.daa && xs[i].hash != b.hash {
      if i < |p| {
        assert xs[i] == all[i];
      } else {
        assert xs[i] == kept[i - |p|];
        KeepMembers(s, test, kept[i - |p|]);
        var j :| 0 <= j < |s| && s[j] == kept[i - |p|];
        assert all[|p| + j] == s[j];
      }
    }
  }

  lemma {:induction false} KeepLegal(p: seq<Block>, s: seq<Block>, test: Block -> bool)
    requires Legal(p + s)
    ensures Legal(p + Keep(s, test))
    decreases |s|
  {
    if s == [] {
      assert p + Keep(s, test) == p + s;
    } else {
      var n := |s| - 1;
      LastOfLegal(p, s, n);
      KeepLegal(p, s[..n], test);
      if test(s[n]) {
        KeptDiffer(p, s[..n], test, s[n]);
        LegalAppend(p + Keep(s[..n], test), s[n]);
        assert p + Keep(s, test) == p + Keep(s[..n], test) + [s[n]];
      } else {
        assert Keep(s, test) == Keep(s[..n], test);
      }
    }
  }

  lemma LastOfLegal(p: seq<Block>, s: seq<Block>, n: nat)
    requires Legal(p + s) && |s| == n + 1
    ensures Legal(p + s[..n]) && AllBelow(p + s[..n], s[n].daa) && SmallIndices(s[n])
    ensures forall i :: 0 <= i < |p + s[..n]| ==> (p + s[..n])[i].hash != s[n].hash
  {
    var all := p + s;
    assert all[..|all| - 1] == p + s[..n] && all[|all| - 1] == s[n];
    LegalInit(all);
  }

  lemma {:induction false} KeepJoins(xs: seq<Block>, ys: seq<Block>, test: Block -> bool)
    ensures Keep(xs + ys, test) == Keep(xs, test) + Keep(ys, test)
    decreases |ys|
  {
    if ys == [] {
      assert xs + ys == xs;
    } else {
      var n := |ys| - 1;
      assert (xs + ys)[..|xs| + n] == xs + ys[..n];
      KeepJoins(xs, ys[..n], test);
    }
  }

  lemma KeepGood(tr: Track, test: Block -> bool)
    requires Good(tr)
    ensures Good(Track(tr.base, Keep(tr.done, test), Keep(tr.waiting, test)))
  {
    KeepJoins(tr.done, tr.waiting, test);
    KeepLegal(tr.base, tr.done + tr.waiting, test);
    var nothing: seq<Block> := [];
    assert nothing + (tr.done + tr.waiting) == tr.done + tr.waiting;
    KeepInOrder(nothing, tr.done + tr.waiting, test);
    assert nothing + Keep(tr.done + tr.waiting, test) == Keep(tr.done + tr.waiting, test);
  }

  lemma GapGood(tr: Track, test: Block -> bool)
    requires Good(tr)
    ensures Good(Track(tr.base, tr.done, Keep(tr.waiting, test)))
  {
    KeepInOrder(tr.done, tr.waiting, test);
    Assoc(tr.base, tr.done, tr.waiting);
    KeepLegal(tr.base + tr.done, tr.waiting, test);
    Assoc(tr.base, tr.done, Keep(tr.waiting, test));
  }

  // ----- Each block takes the view of a track to the view of the next -----

  lemma RipeJoins(done: seq<Block>, w: seq<Block>, cutoff: Option<i64>)
    ensures (done + Ripe(w, cutoff)) + Unripe(w, cutoff) == done + w
  {
  }

  lemma NextBlockGood(depth: Option<u64>, tr: Track, b: Block)
    requires Good(tr) && Arrives(tr, b)
    ensures Good(NextBlock(depth, tr, b)) && NextBlock(depth, tr, b).base == tr.base
    ensures tr.done <= NextBlock(depth, tr, b).done
  {
    if !Committed(tr.done, b.daa) {
      var kept := Displace(tr, b.daa).waiting;
      RipeJoins(tr.done, kept + [b], Cutoff(depth, b.daa));
      Assoc(tr.done, kept, [b]);
    }
  }

  lemma CommittedIff(done: seq<Block>, daa: int)
    requires DaaOrder(done)
    ensures Committed(done, daa) <==> daa in ByDaa(Finalized(done))
  {
    FinalizedOrder(done);
    ByDaaRepresents(Finalized(done));
    if Committed(done, daa) {
      var i :| 0 <= i < |done| && done[i].daa == daa;
      assert Finalized(done)[i].daa == daa;
    }
  }

  /** What one block writes is what the committed part gained. */
  lemma BlockRefines(depth: Option<u64>, tr: Track, b: Block, next: Track)
    requires Good(tr) && Arrives(tr, b) && next == NextBlock(depth, tr, b)
    ensures tr.done <= next.done
    ensures BlockStep(depth, Split(tr.done, tr.waiting), b).next == Split(next.done, next.waiting)
    ensures BlockStep(depth, Split(tr.done, tr.waiting), b).out.writes == Finalized(next.done[|tr.done|..])
  {
    PartsOrder(tr.done, tr.waiting);
    CommittedIff(tr.done, b.daa);
    if !Committed(tr.done, b.daa) {
      DisplacingStep(depth, tr.done, tr.waiting, b, Displace(tr, b.daa).waiting);
    }
  }

  lemma GainsJoin(x: seq<Block>, y: seq<Block>, z: seq<Block>)
    requires x <= y <= z
    ensures x <= z && Finalized(y[|x|..]) + Finalized(z[|y|..]) == Finalized(z[|x|..])
  {
    assert y[|x|..] + z[|y|..] == z[|x|..];
    FinalizedJoin(y[|x|..], z[|y|..]);
  }

  lemma {:induction false} FollowGood(depth: Option<u64>, tr: Track, bs: seq<Block>)
    requires Good(tr) && ArriveAll(depth, tr, bs)
    ensures Good(Follow(depth, tr, bs)) && Follow(depth, tr, bs).base == tr.base && tr.done <= Follow(depth, tr, bs).done
    decreases |bs|
  {
    if bs != [] {
      var n := |bs| - 1;
      FollowGood(depth, tr, bs[..n]);
      NextBlockGood(depth, Follow(depth, tr, bs[..n]), bs[n]);
    }
  }

  lemma {:induction false} BlocksRefine(depth: Option<u64>, tr: Track, bs: seq<Block>)
    requires Good(tr) && ArriveAll(depth, tr, bs)
    ensures tr.done <= Follow(depth, tr, bs).done
    ensures BlocksStep(depth, Split(tr.done, tr.waiting), bs).next
         == Split(Follow(depth, tr, bs).done, Follow(depth, tr, bs).waiting)
    ensures BlocksStep(depth, Split(tr.done, tr.waiting), bs).out.writes
         == Finalized(Follow(depth, tr, bs).done[|tr.done|..])
    decreases |bs|
  {
    if bs != [] {
      var n := |bs| - 1;
      var before, next := Follow(depth, tr, bs[..n]), Follow(depth, tr, bs);
      BlocksRefine(depth, tr, bs[..n]);
      FollowGood(depth, tr, bs[..n]);
      BlockRefines(depth, before, bs[n], next);
      GainsJoin(tr.done, before.done, next.done);
    }
  }

  // ----- ... and each notification the whole node -----

  /** Writes that continue the committed prefix, persisted. */
  lemma WritesPersisted(cfg: Config, base: seq<Block>, done: seq<Block>, next: seq<Block>)
    requires done <= next
    ensures PersistBlocks(cfg, DbOf(cfg, base + done), Finalized(next[|done|..])) == DbOf(cfg, base + next)
  {
    var gained := next[|done|..];
    assert next == done + gained;
    Assoc(base, done, gained);
    PersistMore(cfg, base + done, gained);
  }

  /** The node after the blocks have been applied and what they commit persisted. */
  function Arrived(cfg: Config, depth: Option<u64>, tr: Track, bs: seq<Block>): Node {
    var step := BlocksStep(depth, Split(tr.done, tr.waiting), bs);
    Node(step.next, PersistBlocks(cfg, DbOf(cfg, tr.base + tr.done), step.out.writes))
  }

  lemma ArrivedRefines(cfg: Config, depth: Option<u64>, tr: Track, bs: seq<Block>)
    requires Good(tr) && ArriveAll(depth, tr, bs)
    ensures Arrived(cfg, depth, tr, bs) == NodeOf(cfg, Follow(depth, tr, bs)) && Good(Follow(depth, tr, bs))
  {
    BlocksRefine(depth, tr, bs);
    FollowGood(depth, tr, bs);
    WritesPersisted(cfg, tr.base, tr.done, Follow(depth, tr, bs).done);
  }

  lemma BlockAddedIs(cfg: Config, depth: Option<u64>, tr: Track, w: IngestedBlock)
    ensures NodeStep(cfg, depth, NodeOf(cfg, tr), BlockAdded(w)) == Arrived(cfg, depth, tr, [BlockFromRpc(w)])
  {
    var v, b := Split(tr.done, tr.waiting), BlockFromRpc(w);
    assert NotificationStep(depth, v, BlockAdded(w)).out.unwinds == [];
    OneBlock(depth, v, b);
  }

  lemma OneBlock(depth: Option<u64>, v: View, b: Block)
    ensures BlocksStep(depth, v, [b]).next == BlockStep(depth, v, b).next
    ensures BlocksStep(depth, v, [b]).out.writes == BlockStep(depth, v, b).out.writes
  {
    assert [b][..0] == [];
    assert BlocksStep(depth, v, []) == Step(v, NOTHING);
  }

  lemma FollowOneBlock(depth: Option<u64>, tr: Track, b: Block)
    ensures Follow(depth, tr, [b]) == NextBlock(depth, tr, b)
    ensures Arrives(tr, b) ==> ArriveAll(depth, tr, [b])
  {
    assert [b][..0] == [];
  }

  lemma BlockAddedRefines(cfg: Config, depth: Option<u64>, tr: Track, w: IngestedBlock)
    requires Good(tr) && Arrives(tr, BlockFromRpc(w))
    ensures NodeStep(cfg, depth, NodeOf(cfg, tr), BlockAdded(w)) == NodeOf(cfg, Next(depth, tr, BlockAdded(w)))
    ensures Good(Next(depth, tr, BlockAdded(w)))
  {
    BlockAddedIs(cfg, depth, tr, w);
    FollowOneBlock(depth, tr, BlockFromRpc(w));
    ArrivedRefines(cfg, depth, tr, [BlockFromRpc(w)]);
  }

  lemma SplitAt(base: seq<Block>, done: seq<Block>, m: nat)
    requires m <= |done|
    ensures base + done == (base + done[..m]) + done[m..]
  {
  }

  /** A removal takes memory back to what it leaves, and surfaces the rest as unwinds. */
  lemma RemovalShrinks(tr: Track, removed: seq<string>, cut: Track)
    requires Good(tr) && cut == Shrink(tr, removed) && NamesSuffix(tr.done, |cut.done|, removed)
    ensures Good(cut) && cut.done == tr.done[..|cut.done|]
    ensures var v := Split(tr.done, tr.waiting);
      && View(v.committed - Holding(v.committed, removed), v.buffered - Holding(v.buffered, removed))
           == Split(cut.done, cut.waiting)
      && PickSet(v.committed, Holding(v.committed, removed)) == Finalized(tr.done[|cut.done|..])
  {
    PartsOrder(tr.done, tr.waiting);
    NamedRemoved(tr.done, tr.waiting, removed);
    SuffixKept(tr.done, |cut.done|, removed);
    KeepGood(tr, Unnamed(removed));
  }

  /** ... and the store too, if what is unwound overwrote no older row. */
  lemma RemovalRefines(cfg: Config, tr: Track, removed: seq<string>, cut: Track)
    requires Sane(cfg) && Good(tr) && cut == Shrink(tr, removed) && NamesSuffix(tr.done, |cut.done|, removed)
    requires Clean(cfg, tr.base + cut.done, tr.done[|cut.done|..])
    ensures var v := Split(tr.done, tr.waiting);
      && View(v.committed - Holding(v.committed, removed), v.buffered - Holding(v.buffered, removed))
           == Split(cut.done, cut.waiting)
      && Reorg(cfg, DbOf(cfg, tr.base + tr.done), PickSet(v.committed, Holding(v.committed, removed)))
           == DbOf(cfg, tr.base + cut.done)
  {
    var m := |cut.done|;
    RemovalShrinks(tr, removed, cut);
    CommittedIsLegal(tr);
    SplitAt(tr.base, tr.done, m);
    UnwindRestoresPrefix(cfg, tr.base + tr.done[..m], tr.done[m..]);
  }

  lemma ReorgRefines(cfg: Config, depth: Option<u64>, tr: Track, removed: seq<string>, added: seq<IngestedBlock>)
    requires Sane(cfg) && Good(tr) && InOrderNext(cfg, depth, tr, VirtualChainChanged(removed, added))
    ensures var n := VirtualChainChanged(removed, added);
      NodeStep(cfg, depth, NodeOf(cfg, tr), n) == NodeOf(cfg, Next(depth, tr, n)) && Good(Next(depth, tr, n))
  {
    var cut, bs := Shrink(tr, removed), BlocksFromRpc(added);
    RemovalRefines(cfg, tr, removed, cut);
    KeepGood(tr, Unnamed(removed));
    assert NodeStep(cfg, depth, NodeOf(cfg, tr), VirtualChainChanged(removed, added)) == Arrived(cfg, depth, cut, bs);
    ArrivedRefines(cfg, depth, cut, bs);
  }

  lemma GapRefines(cfg: Config, depth: Option<u64>, tr: Track, lo: u64, hi: u64)
    requires Good(tr)
    ensures var n := RecoveryRequired(lo, hi);
      NodeStep(cfg, depth, NodeOf(cfg, tr), n) == NodeOf(cfg, Next(depth, tr, n)) && Good(Next(depth, tr, n))
  {
    PartsOrder(tr.done, tr.waiting);
    GapRemoved(tr.waiting, ToI64(lo), ToI64(hi));
    GapGood(tr, Outside(ToI64(lo), ToI64(hi)));
  }

  // ----- Whole runs, with restarts and aborts -----

  datatype Event = Heard(n: Notification) | Restarted

  ghost predicate InOrderEvent(cfg: Config, depth: Option<u64>, tr: Track, e: Event) {
    e.Heard? && !Aborts(e.n) ==> InOrderNext(cfg, depth, tr, e.n)
  }

  function NextTrack(depth: Option<u64>, tr: Track, e: Event): Track {
    if e.Restarted? || Aborts(e.n) then Track(tr.base + tr.done, [], []) else Next(depth, tr, e.n)
  }

  /** An abort loses the process and keeps the store, like any other restart. */
  function NodeEvent(cfg: Config, depth: Option<u64>, s: Node, e: Event): Node {
    if e.Restarted? || Aborts(e.n) then Restart(s) else NodeStep(cfg, depth, s, e.n)
  }

  function RunNode(cfg: Config, depth: Option<u64>, es: seq<Event>): Node {
    if es == [] then Node(View(map[], map[]), Db(EMPTY, GENESIS))
    else NodeEvent(cfg, depth, RunNode(cfg, depth, es[..|es| - 1]), es[|es| - 1])
  }

  function RunTrack(depth: Option<u64>, es: seq<Event>): Track {
    if es == [] then Track([], [], [])
    else NextTrack(depth, RunTrack(depth, es[..|es| - 1]), es[|es| - 1])
  }

  ghost predicate InOrderRun(cfg: Config, depth: Option<u64>, es: seq<Event>) {
    es != [] ==>
      InOrderRun(cfg, depth, es[..|es| - 1]) && InOrderEvent(cfg, depth, RunTrack(depth, es[..|es| - 1]), es[|es| - 1])
  }

  lemma RestartGood(tr: Track, again: Track)
    requires Good(tr) && again == Track(tr.base + tr.done, [], [])
    ensures Good(again) && again.base + again.done == again.base
  {
    CommittedIsLegal(tr);
    var nothing: seq<Block> := [];
    assert again.base + nothing == again.base && nothing + nothing == nothing;
  }

  lemma RestartRefines(cfg: Config, tr: Track, again: Track)
    requires Sane(cfg) && Good(tr) && again == Track(tr.base + tr.done, [], [])
    ensures Restart(NodeOf(cfg, tr)) == NodeOf(cfg, again) && Good(again)
  {
    RestartGood(tr, again);
    CommittedIsLegal(tr);
    AnchorIsPrior(cfg, tr.base + tr.done);
  }

  lemma EventRefines(cfg: Config, depth: Option<u64>, tr: Track, e: Event)
    requires Sane(cfg) && Good(tr) && InOrderEvent(cfg, depth, tr, e)
    ensures NodeEvent(cfg, depth, NodeOf(cfg, tr), e) == NodeOf(cfg, NextTrack(depth, tr, e))
    ensures Good(NextTrack(depth, tr, e))
  {
    if e.Restarted? || Aborts(e.n) {
      RestartRefines(cfg, tr, NextTrack(depth, tr, e));
    } else {
      match e.n {
        case BlockAdded(w) => BlockAddedRefines(cfg, depth, tr, w);
        case VirtualChainChanged(removed, added) => ReorgRefines(cfg, depth, tr, removed, added);
        case RecoveryRequired(lo, hi) => GapRefines(cfg, depth, tr, lo, hi);
      }
    }
  }

  /** After every in-order run, memory and store are a function of what was
      followed: reorgs, gaps, re-deliveries, restarts and aborts leave no other trace. */
  lemma {:induction false} RunRefines(cfg: Config, depth: Option<u64>, es: seq<Event>)
    requires Sane(cfg) && InOrderRun(cfg, depth, es)
    ensures RunNode(cfg, depth, es) == NodeOf(cfg, RunTrack(depth, es))
    ensures Good(RunTrack(depth, es))
  {
    if es != [] {
      RunRefines(cfg, depth, es[..|es| - 1]);
      EventRefines(cfg, depth, RunTrack(depth, es[..|es| - 1]), es[|es| - 1]);
    } else {
      var nothing: seq<Block> := [];
      assert nothing + nothing == nothing;
    }
  }

  lemma CommittedIsLegal(tr: Track)
    requires Good(tr)
    ensures Legal(tr.base + tr.done)
  {
    Assoc(tr.base, tr.done, tr.waiting);
    LegalParts(tr.base + tr.done, tr.waiting);
  }
}
