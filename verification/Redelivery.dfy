/** Blocks that come twice. A chain block is heard alone and again in the
    virtual-chain change that confirms it, and its RPC rendering may differ; the main
    theorem covers that. Here: exactly when it changes nothing. */
module Redelivery {
  import opened Prelude
  import opened Blocks
  import opened Ingestion
  import opened ChainWindow
  import opened ChainEdits
  import opened Persist
  import opened Layers
  import opened Chains
  import opened Unwinding
  import opened ReplaySafety
  import opened ReplayTheorems
  import opened ReorgTrace

  // ----- Nothing buffered is overdue -----

  /** No waiting block is settled by the cutoff of any waiting block. */
  ghost predicate Calm(depth: Option<u64>, tr: Track) {
    forall i, j :: 0 <= i < |tr.waiting| && 0 <= j < |tr.waiting| ==>
      !AtOrBelow(tr.waiting[i], Cutoff(depth, tr.waiting[j].daa))
  }

  lemma CalmSettles(depth: Option<u64>, tr: Track, j: nat)
    requires Calm(depth, tr) && DaaOrder(tr.waiting) && j < |tr.waiting|
    ensures Settled(tr.waiting, Cutoff(depth, tr.waiting[j].daa)) == 0
  {
    SettledIs(tr.waiting, Cutoff(depth, tr.waiting[j].daa), 0);
  }

  lemma UnripeAbove(w: seq<Block>, cutoff: Option<i64>, i: nat)
    requires DaaOrder(w) && i < |Unripe(w, cutoff)|
    ensures !AtOrBelow(Unripe(w, cutoff)[i], cutoff) && Unripe(w, cutoff)[i].daa <= w[|w| - 1].daa
  {
    SettledIs(w, cutoff, Settled(w, cutoff) + i);
  }

  lemma UnripeCalm(depth: Option<u64>, w: seq<Block>, b: Block, left: seq<Block>)
    requires w != [] && DaaOrder(w) && w[|w| - 1] == b && left == Unripe(w, Cutoff(depth, b.daa))
    ensures forall i, j :: 0 <= i < |left| && 0 <= j < |left| ==> !AtOrBelow(left[i], Cutoff(depth, left[j].daa))
  {
    forall i, j | 0 <= i < |left| && 0 <= j < |left| ensures !AtOrBelow(left[i], Cutoff(depth, left[j].daa)) {
      UnripeAbove(w, Cutoff(depth, b.daa), i);
      UnripeAbove(w, Cutoff(depth, b.daa), j);
      CutoffGrows(depth, left[j].daa, b.daa);
    }
  }

  lemma NextBlockCalm(depth: Option<u64>, tr: Track, b: Block)
    requires Good(tr) && Calm(depth, tr) && Arrives(tr, b)
    ensures Calm(depth, NextBlock(depth, tr, b))
  {
    if !Committed(tr.done, b.daa) {
      var kept := Displace(tr, b.daa).waiting;
      Assoc(tr.done, kept, [b]);
      PartsOrder(tr.done, kept + [b]);
      UnripeCalm(depth, kept + [b], b, Unripe(kept + [b], Cutoff(depth, b.daa)));
    }
  }

  lemma KeepCalm(depth: Option<u64>, tr: Track, done: seq<Block>, test: Block -> bool)
    requires Calm(depth, tr)
    ensures Calm(depth, Track(tr.base, done, Keep(tr.waiting, test)))
  {
    var kept := Keep(tr.waiting, test);
    forall i | 0 <= i < |kept| ensures kept[i] in tr.waiting {
      KeepMembers(tr.waiting, test, kept[i]);
    }
  }

  lemma {:induction false} FollowCalm(depth: Option<u64>, tr: Track, bs: seq<Block>)
    requires Good(tr) && Calm(depth, tr) && ArriveAll(depth, tr, bs)
    ensures Calm(depth, Follow(depth, tr, bs))
    decreases |bs|
  {
    if bs != [] {
      var n := |bs| - 1;
      FollowCalm(depth, tr, bs[..n]);
      FollowGood(depth, tr, bs[..n]);
      NextBlockCalm(depth, Follow(depth, tr, bs[..n]), bs[n]);
    }
  }

  lemma EventCalm(cfg: Config, depth: Option<u64>, tr: Track, e: Event)
    requires Good(tr) && Calm(depth, tr) && InOrderEvent(cfg, depth, tr, e)
    ensures Good(NextTrack(depth, tr, e)) && Calm(depth, NextTrack(depth, tr, e))
  {
    if e.Restarted? || Aborts(e.n) {
      RestartGood(tr, NextTrack(depth, tr, e));
    } else {
      match e.n {
        case BlockAdded(w) =>
          NextBlockGood(depth, tr, BlockFromRpc(w));
          NextBlockCalm(depth, tr, BlockFromRpc(w));
        case VirtualChainChanged(removed, added) =>
          KeepGood(tr, Unnamed(removed));
          KeepCalm(depth, tr, Shrink(tr, removed).done, Unnamed(removed));
          FollowGood(depth, Shrink(tr, removed), BlocksFromRpc(added));
          FollowCalm(depth, Shrink(tr, removed), BlocksFromRpc(added));
        case RecoveryRequired(lo, hi) =>
          GapGood(tr, Outside(ToI64(lo), ToI64(hi)));
          KeepCalm(depth, tr, tr.done, Outside(ToI64(lo), ToI64(hi)));
      }
    }
  }

  /** In every in-order run, whatever waits is above every waiting block's cutoff. */
  lemma {:induction false} RunIsCalm(cfg: Config, depth: Option<u64>, es: seq<Event>)
    requires InOrderRun(cfg, depth, es)
    ensures Good(RunTrack(depth, es)) && Calm(depth, RunTrack(depth, es))
  {
    if es != [] {
      RunIsCalm(cfg, depth, es[..|es| - 1]);
      EventCalm(cfg, depth, RunTrack(depth, es[..|es| - 1]), es[|es| - 1]);
    } else {
      var nothing: seq<Block> := [];
      assert nothing + nothing == nothing;
    }
  }

  // ----- A buffered block, heard again -----

  lemma ByDaaInjective(xs: seq<Block>, ys: seq<Block>)
    requires DaaOrder(xs) && DaaOrder(ys) && ByDaa(xs) == ByDaa(ys)
    ensures xs == ys
  {
    ByDaaRepresents(xs);
    ByDaaRepresents(ys);
    PickAll(ByDaa(xs), ByDaa(xs).Keys, xs);
    PickAll(ByDaa(ys), ByDaa(ys).Keys, ys);
  }

  ghost predicate SameName(a: Block, b: Block) {
    a.hash == b.hash && a.daa == b.daa
  }

  /** The buffer below the block, and the block: still in order. */
  lemma ReplacedInOrder(done: seq<Block>, waiting: seq<Block>, b: Block, j: nat)
    requires InOrder(done + waiting) && j < |waiting| && b.daa == waiting[j].daa && !b.isFinalized
    ensures Lower(waiting, b.daa) == j && InOrder((done + waiting[..j]) + [b])
  {
    PartsOrder(done, waiting);
    LowerIs(waiting, b.daa, j);
    if j > 0 {
      LowerIs(waiting, b.daa, j - 1);
    }
    AboveLower(done, waiting, b, j);
    Extended(done + waiting[..j], b);
  }

  lemma AboveLower(done: seq<Block>, waiting: seq<Block>, b: Block, j: nat)
    requires InOrder(done + waiting) && j < |waiting| && b.daa == waiting[j].daa && !b.isFinalized
    ensures InOrder(done + waiting[..j]) && Above(b, done + waiting[..j])
  {
    var all := done + waiting;
    assert all[|done| + j] == waiting[j];
    assert done + waiting[..j] == all[..|done| + j];
  }

  lemma NamesDiffer(base: seq<Block>, done: seq<Block>, waiting: seq<Block>, i: nat, j: nat)
    requires Legal(base + (done + waiting)) && i < j < |waiting|
    ensures waiting[i].hash != waiting[j].hash
  {
    var recent := done + waiting;
    var all := base + recent;
    var k := |base| + |done|;
    assert all[k + i] == recent[|done| + i] == waiting[i];
    assert all[k + j] == recent[|done| + j] == waiting[j];
    assert all[k + i].hash != all[k + j].hash;
  }

  lemma NamesApart(base: seq<Block>, done: seq<Block>, waiting: seq<Block>, i: nat, j: nat)
    requires Legal(base + (done + waiting)) && i < |waiting| && j < |waiting| && waiting[i].hash == waiting[j].hash
    ensures i == j
  {
    if i < j {
      NamesDiffer(base, done, waiting, i, j);
    } else if j < i {
      NamesDiffer(base, done, waiting, j, i);
    }
  }

  /** Exactly when hearing a buffered block again leaves the view as it was: it is
      the very tip, and its own cutoff settles nothing. Below the tip it drops
      everything buffered above it. */
  lemma BufferedAgainIff(depth: Option<u64>, tr: Track, b: Block, j: nat)
    requires Good(tr) && j < |tr.waiting| && SameName(b, tr.waiting[j]) && !b.isFinalized
    ensures BlockStep(depth, Split(tr.done, tr.waiting), b).next == Split(tr.done, tr.waiting)
       <==> j == |tr.waiting| - 1 && b == tr.waiting[j] && Settled(tr.waiting, Cutoff(depth, b.daa)) == 0
  {
    var kept, cutoff := tr.waiting[..j], Cutoff(depth, b.daa);
    var w := kept + [b];
    BufferedAgain(depth, tr, b, j);
    Assoc(tr.done, kept, [b]);
    ReplacedInOrder(tr.done, tr.waiting, b, j);
    SplitTells(tr.done, w, cutoff, tr.waiting);
    SameAsTip(tr.waiting, b, j);
  }

  lemma SameAsTip(waiting: seq<Block>, b: Block, j: nat)
    requires j < |waiting|
    ensures waiting[..j] + [b] == waiting <==> j == |waiting| - 1 && b == waiting[j]
  {
    assert (waiting[..j] + [b])[j] == b;
  }

  /** What it does to the view: as if everything from it on were heard for the first time. */
  lemma BufferedAgain(depth: Option<u64>, tr: Track, b: Block, j: nat)
    requires Good(tr) && j < |tr.waiting| && SameName(b, tr.waiting[j]) && !b.isFinalized
    ensures var s, w, cutoff := BlockStep(depth, Split(tr.done, tr.waiting), b), tr.waiting[..j] + [b], Cutoff(depth, b.daa);
      s.next == Split(tr.done + Ripe(w, cutoff), Unripe(w, cutoff)) && s.out.writes == Finalized(Ripe(w, cutoff))
  {
    ReplacedInOrder(tr.done, tr.waiting, b, j);
    forall i | 0 <= i < |tr.waiting| && tr.waiting[i].hash == b.hash ensures tr.waiting[i].daa == b.daa {
      NamesApart(tr.base, tr.done, tr.waiting, i, j);
    }
    DisplacingStep(depth, tr.done, tr.waiting, b, tr.waiting[..j]);
  }

  lemma SplitTells(done: seq<Block>, w: seq<Block>, cutoff: Option<i64>, waiting: seq<Block>)
    requires InOrder(done + w) && InOrder(done + waiting)
    ensures Split(done + Ripe(w, cutoff), Unripe(w, cutoff)) == Split(done, waiting)
       <==> w == waiting && Settled(waiting, cutoff) == 0
  {
    PartsOrder(done, w);
    PartsOrder(done, waiting);
    var n := Settled(w, cutoff);
    if n == 0 {
      assert Ripe(w, cutoff) == [] && done + [] == done && Unripe(w, cutoff) == w;
      if ByDaa(w) == ByDaa(waiting) {
        ByDaaInjective(w, waiting);
      }
    } else {
      assert done + Ripe(w, cutoff) == (done + w)[..|done| + n];
      MoreCommitted(done, Ripe(w, cutoff));
    }
  }

  lemma MoreCommitted(done: seq<Block>, ripe: seq<Block>)
    requires DaaOrder(done + ripe) && ripe != []
    ensures ByDaa(Finalized(done + ripe)) != ByDaa(Finalized(done))
  {
    var all := done + ripe;
    HalvesInOrder(done, ripe);
    CommittedIff(all, ripe[0].daa);
    CommittedIff(done, ripe[0].daa);
    assert all[|done|] == ripe[0];
    forall i | 0 <= i < |done| ensures done[i].daa != ripe[0].daa {
      assert all[i] == done[i];
    }
  }

  /** In every run: hearing a buffered block again changes nothing, in memory, tables
      or POI chain, if and only if it is the very tip. */
  lemma OnlyTheTipIsSilent(cfg: Config, depth: Option<u64>, es: seq<Event>, w: IngestedBlock, tr: Track, j: nat)
    requires Sane(cfg) && InOrderRun(cfg, depth, es) && tr == RunTrack(depth, es)
    requires j < |tr.waiting| && SameName(BlockFromRpc(w), tr.waiting[j]) && !w.isFinalized
    ensures NodeEvent(cfg, depth, RunNode(cfg, depth, es), Heard(BlockAdded(w))) == RunNode(cfg, depth, es)
       <==> j == |tr.waiting| - 1 && BlockFromRpc(w) == tr.waiting[j]
  {
    var b := BlockFromRpc(w);
    RunRefines(cfg, depth, es);
    RunIsCalm(cfg, depth, es);
    PartsOrder(tr.done, tr.waiting);
    CalmSettles(depth, tr, j);
    BufferedAgainIff(depth, tr, b, j);
    BlockAddedView(cfg, depth, tr, w);
    if j == |tr.waiting| - 1 && b == tr.waiting[j] {
      BufferedAgain(depth, tr, b, j);
      SameAsTip(tr.waiting, b, j);
      assert Finalized([]) == [];
    }
  }

  lemma BlockAddedView(cfg: Config, depth: Option<u64>, tr: Track, w: IngestedBlock)
    ensures var s := BlockStep(depth, Split(tr.done, tr.waiting), BlockFromRpc(w));
      NodeStep(cfg, depth, NodeOf(cfg, tr), BlockAdded(w))
        == Node(s.next, PersistBlocks(cfg, DbOf(cfg, tr.base + tr.done), s.out.writes))
  {
    BlockAddedIs(cfg, depth, tr, w);
    OneBlock(depth, Split(tr.done, tr.waiting), BlockFromRpc(w));
  }

  // ----- A virtual-chain change that announces what was already heard -----

  /** The same blocks by hash and DAA, whatever else their rendering carries. */
  ghost predicate Renamed(waiting: seq<Block>, u: seq<Block>) {
    |u| == |waiting| && forall i :: 0 <= i < |u| ==> SameName(u[i], waiting[i])
  }

  /** A track that agrees with the announced blocks up to `k` and by name beyond. */
  ghost predicate Midway(tr: Track, u: seq<Block>, k: nat) {
    && k < |u| && k <= |tr.waiting| <= |u| && tr.waiting[..k] == u[..k] && DaaOrder(tr.waiting)
    && forall i :: 0 <= i < |tr.waiting| ==> SameName(u[i], tr.waiting[i])
  }

  lemma MidwayLower(tr: Track, u: seq<Block>, k: nat)
    requires Midway(tr, u, k) && DaaOrder(u)
    ensures Lower(tr.waiting, u[k].daa) == k
  {
    if k < |tr.waiting| {
      LowerIs(tr.waiting, u[k].daa, k);
      if k > 0 {
        LowerIs(tr.waiting, u[k].daa, k - 1);
      }
    } else {
      assert tr.waiting == u[..k];
      AllLower(tr.waiting, u[k].daa);
    }
  }

  lemma NotCommitted(done: seq<Block>, u: seq<Block>, k: nat)
    requires DaaOrder(done + u) && k < |u|
    ensures !Committed(done, u[k].daa)
  {
    forall i | 0 <= i < |done| ensures done[i].daa != u[k].daa {
      Halves(done, u, i, k);
    }
  }

  lemma PrefixContinues(tr: Track, u: seq<Block>, k: nat, short: Track)
    requires Good(Track(tr.base, tr.done, u)) && k < |u| && short == Track(tr.base, tr.done, u[..k])
    ensures Continue(short, [u[k]])
  {
    var longer := u[..k + 1];
    assert Recent(short) + [u[k]] == tr.done + longer;
    assert tr.done + longer == (tr.done + u)[..|tr.done| + k + 1];
    LegalPrefix(tr.base, tr.done + u, |tr.done| + k + 1);
  }

  lemma MidwayArrives(tr: Track, u: seq<Block>, k: nat)
    requires Midway(tr, u, k) && Good(Track(tr.base, tr.done, u))
    ensures Arrives(tr, u[k]) && !Committed(tr.done, u[k].daa) && Displace(tr, u[k].daa) == Track(tr.base, tr.done, u[..k])
  {
    PartsOrder(tr.done, u);
    MidwayLower(tr, u, k);
    NotCommitted(tr.done, u, k);
    PrefixContinues(tr, u, k, Track(tr.base, tr.done, u[..k]));
    forall i | 0 <= i < |tr.waiting| && tr.waiting[i].hash == u[k].hash ensures tr.waiting[i].daa == u[k].daa {
      NamesApart(tr.base, tr.done, u, i, k);
    }
  }

  lemma MidwayStep(depth: Option<u64>, tr: Track, u: seq<Block>, k: nat, calm: Track)
    requires Midway(tr, u, k) && Good(Track(tr.base, tr.done, u))
    requires Calm(depth, calm) && calm.waiting == u
    ensures Arrives(tr, u[k]) && NextBlock(depth, tr, u[k]) == Track(tr.base, tr.done, u[..k + 1])
  {
    MidwayArrives(tr, u, k);
    PartsOrder(tr.done, u);
    var w, cutoff := u[..k + 1], Cutoff(depth, u[k].daa);
    assert u[..k] + [u[k]] == w;
    assert !AtOrBelow(calm.waiting[0], cutoff);
    SettledIs(w, cutoff, 0);
    assert tr.done + [] == tr.done;
  }

  lemma CalmByName(depth: Option<u64>, tr: Track, again: Track)
    requires Calm(depth, tr) && Renamed(tr.waiting, again.waiting)
    ensures Calm(depth, again)
  {
    forall i, j | 0 <= i < |again.waiting| && 0 <= j < |again.waiting|
      ensures !AtOrBelow(again.waiting[i], Cutoff(depth, again.waiting[j].daa))
    {
      assert SameName(again.waiting[i], tr.waiting[i]) && SameName(again.waiting[j], tr.waiting[j]);
    }
  }

  /** Blocks that bear the buffer's names and could stand in its place. */
  ghost predicate Renders(depth: Option<u64>, tr: Track, u: seq<Block>) {
    Good(tr) && Calm(depth, tr) && Renamed(tr.waiting, u) && Good(Track(tr.base, tr.done, u))
  }

  lemma AnnouncedMidway(depth: Option<u64>, tr: Track, u: seq<Block>, j: nat, k: nat, before: Track)
    requires Renders(depth, tr, u) && j <= k < |u| && u[..j] == tr.waiting[..j]
    requires before == if k == j then tr else Track(tr.base, tr.done, u[..k])
    ensures Midway(before, u, k)
  {
    PartsOrder(tr.done, tr.waiting);
    PartsOrder(tr.done, u);
  }

  lemma AnnouncedOne(depth: Option<u64>, tr: Track, u: seq<Block>, j: nat, k: nat, before: Track)
    requires Renders(depth, tr, u) && j <= k < |u| && u[..j] == tr.waiting[..j]
    requires before == if k == j then tr else Track(tr.base, tr.done, u[..k])
    ensures Arrives(before, u[k]) && NextBlock(depth, before, u[k]) == Track(tr.base, tr.done, u[..k + 1])
  {
    var calm := Track(tr.base, tr.done, u);
    CalmByName(depth, tr, calm);
    AnnouncedMidway(depth, tr, u, j, k, before);
    MidwayStep(depth, before, u, k, calm);
  }

  ghost predicate Moves(depth: Option<u64>, tr: Track, b: Block, next: Track) {
    Arrives(tr, b) && NextBlock(depth, tr, b) == next
  }

  /** Blocks that arrive one after the other take a track through the listed ones. */
  lemma {:induction false} FollowThrough(depth: Option<u64>, bs: seq<Block>, tracks: seq<Track>)
    requires |tracks| == |bs| + 1
    requires forall i :: 0 <= i < |bs| ==> Moves(depth, tracks[i], bs[i], tracks[i + 1])
    ensures ArriveAll(depth, tracks[0], bs) && Follow(depth, tracks[0], bs) == tracks[|bs|]
    decreases |bs|
  {
    if bs != [] {
      var n := |bs| - 1;
      FollowThrough(depth, bs[..n], tracks[..n + 1]);
      assert Moves(depth, tracks[n], bs[n], tracks[n + 1]);
    }
  }

  function Through(tr: Track, u: seq<Block>, j: nat): (r: seq<Track>)
    requires j <= |u|
    ensures |r| == |u| - j + 1
    ensures forall i :: 0 <= i < |r| ==> r[i] == if i == 0 then tr else Track(tr.base, tr.done, u[..j + i])
  {
    seq(|u| - j + 1, i requires 0 <= i <= |u| - j => if i == 0 then tr else Track(tr.base, tr.done, u[..j + i]))
  }

  /** Announcing buffered blocks again, from the `j`-th on: each takes its old place,
      with the rendering it comes with, and nothing settles. */
  lemma Announced(depth: Option<u64>, tr: Track, u: seq<Block>, j: nat)
    requires Renders(depth, tr, u) && j <= |u| && u[..j] == tr.waiting[..j]
    ensures ArriveAll(depth, tr, u[j..])
    ensures Follow(depth, tr, u[j..]) == if j == |u| then tr else Track(tr.base, tr.done, u)
  {
    AnnouncedSteps(depth, tr, u, j, u[j..], Through(tr, u, j));
    FollowThrough(depth, u[j..], Through(tr, u, j));
    assert u[..|u|] == u;
  }

  lemma AnnouncedSteps(depth: Option<u64>, tr: Track, u: seq<Block>, j: nat, bs: seq<Block>, tracks: seq<Track>)
    requires Renders(depth, tr, u) && j <= |u| && u[..j] == tr.waiting[..j]
    requires bs == u[j..] && tracks == Through(tr, u, j)
    ensures forall i :: 0 <= i < |bs| ==> Moves(depth, tracks[i], bs[i], tracks[i + 1])
  {
    forall i | 0 <= i < |bs| ensures Moves(depth, tracks[i], bs[i], tracks[i + 1]) {
      AnnouncedOne(depth, tr, u, j, j + i, tracks[i]);
    }
  }

  lemma {:induction false} CommittedSkipped(depth: Option<u64>, tr: Track, xs: seq<Block>)
    requires forall i :: 0 <= i < |xs| ==> Committed(tr.done, xs[i].daa)
    ensures ArriveAll(depth, tr, xs) && Follow(depth, tr, xs) == tr
    decreases |xs|
  {
    if xs != [] {
      CommittedSkipped(depth, tr, xs[..|xs| - 1]);
    }
  }

  lemma {:induction false} FollowJoin(depth: Option<u64>, tr: Track, xs: seq<Block>, ys: seq<Block>)
    ensures Follow(depth, tr, xs + ys) == Follow(depth, Follow(depth, tr, xs), ys)
    ensures ArriveAll(depth, tr, xs) && ArriveAll(depth, Follow(depth, tr, xs), ys) ==> ArriveAll(depth, tr, xs + ys)
    decreases |ys|
  {
    if ys == [] {
      assert xs + ys == xs;
    } else {
      var n := |ys| - 1;
      assert (xs + ys)[..|xs| + n] == xs + ys[..n];
      FollowJoin(depth, tr, xs, ys[..n]);
    }
  }

  /** What was followed, announced again: committed blocks, then the buffer from some
      block on. The track does not move. */
  lemma AnnouncedAgain(depth: Option<u64>, tr: Track, xs: seq<Block>, j: nat)
    requires Good(tr) && Calm(depth, tr) && j <= |tr.waiting|
    requires forall i :: 0 <= i < |xs| ==> Committed(tr.done, xs[i].daa)
    ensures ArriveAll(depth, tr, xs + tr.waiting[j..]) && Follow(depth, tr, xs + tr.waiting[j..]) == tr
  {
    var u := tr.waiting;
    CommittedSkipped(depth, tr, xs);
    Announced(depth, tr, u, j);
    FollowJoin(depth, tr, xs, u[j..]);
  }

  lemma NothingRemoved(cfg: Config, tr: Track)
    ensures Shrink(tr, []) == tr && NamesSuffix(tr.done, |tr.done|, [])
    ensures Clean(cfg, tr.base + tr.done, tr.done[|tr.done|..])
  {
    KeepAll(tr.done, Unnamed([]));
    KeepAll(tr.waiting, Unnamed([]));
  }

  /** In every run, whatever the rendering of the announced blocks: memory holds the
      buffer in that rendering, and store and POI chain stay as they were. */
  lemma AnnouncementRenders(cfg: Config, depth: Option<u64>, es: seq<Event>, added: seq<IngestedBlock>, tr: Track,
                            xs: seq<Block>, u: seq<Block>, j: nat)
    requires Sane(cfg) && InOrderRun(cfg, depth, es) && tr == RunTrack(depth, es) && j < |u|
    requires Renamed(tr.waiting, u) && Good(Track(tr.base, tr.done, u)) && u[..j] == tr.waiting[..j]
    requires BlocksFromRpc(added) == xs + u[j..] && forall i :: 0 <= i < |xs| ==> Committed(tr.done, xs[i].daa)
    ensures var e := Heard(VirtualChainChanged([], added));
      InOrderEvent(cfg, depth, tr, e)
      && NodeEvent(cfg, depth, RunNode(cfg, depth, es), e) == Node(Split(tr.done, u), RunNode(cfg, depth, es).db)
  {
    RunRefines(cfg, depth, es);
    RunIsCalm(cfg, depth, es);
    CommittedSkipped(depth, tr, xs);
    Announced(depth, tr, u, j);
    FollowJoin(depth, tr, xs, u[j..]);
    NothingRemoved(cfg, tr);
    ReorgRefines(cfg, depth, tr, [], added);
  }

  /** In every run: a virtual-chain change that announces committed blocks and then
      the buffer from some block on leaves the whole node as it was ... */
  lemma AnnouncementIsSilent(cfg: Config, depth: Option<u64>, es: seq<Event>, added: seq<IngestedBlock>, tr: Track,
                             xs: seq<Block>, j: nat)
    requires Sane(cfg) && InOrderRun(cfg, depth, es) && tr == RunTrack(depth, es) && j <= |tr.waiting|
    requires BlocksFromRpc(added) == xs + tr.waiting[j..]
    requires forall i :: 0 <= i < |xs| ==> Committed(tr.done, xs[i].daa)
    ensures var e := Heard(VirtualChainChanged([], added));
      InOrderEvent(cfg, depth, tr, e) && NodeEvent(cfg, depth, RunNode(cfg, depth, es), e) == RunNode(cfg, depth, es)
  {
    RunRefines(cfg, depth, es);
    RunIsCalm(cfg, depth, es);
    AnnouncedAgain(depth, tr, xs, j);
    NothingRemoved(cfg, tr);
    ReorgRefines(cfg, depth, tr, [], added);
  }

  /** ... and one that goes on to announce fresh blocks has the effect of those alone. */
  lemma AnnouncementThenFresh(cfg: Config, depth: Option<u64>, es: seq<Event>, added: seq<IngestedBlock>, tr: Track,
                              xs: seq<Block>, j: nat, fresh_: seq<IngestedBlock>)
    requires Sane(cfg) && InOrderRun(cfg, depth, es) && tr == RunTrack(depth, es) && j <= |tr.waiting|
    requires BlocksFromRpc(added) == (xs + tr.waiting[j..]) + BlocksFromRpc(fresh_)
    requires forall i :: 0 <= i < |xs| ==> Committed(tr.done, xs[i].daa)
    requires Continue(tr, BlocksFromRpc(fresh_))
    ensures var e := Heard(VirtualChainChanged([], added));
      && InOrderEvent(cfg, depth, tr, e)
      && NodeEvent(cfg, depth, RunNode(cfg, depth, es), e) == RunNode(cfg, depth, es + Arrivals(fresh_))
  {
    RunRefines(cfg, depth, es);
    RunIsCalm(cfg, depth, es);
    AnnouncedThenFresh(cfg, depth, tr, xs, j, BlocksFromRpc(fresh_), added);
    ReorgRefines(cfg, depth, tr, [], added);
    ArrivalsExtend(cfg, depth, es, fresh_, tr);
    RunRefines(cfg, depth, es + Arrivals(fresh_));
  }

  lemma AnnouncedThenFresh(cfg: Config, depth: Option<u64>, tr: Track, xs: seq<Block>, j: nat, bs: seq<Block>, added: seq<IngestedBlock>)
    requires Good(tr) && Calm(depth, tr) && j <= |tr.waiting| && Continue(tr, bs)
    requires BlocksFromRpc(added) == (xs + tr.waiting[j..]) + bs
    requires forall i :: 0 <= i < |xs| ==> Committed(tr.done, xs[i].daa)
    ensures var n := VirtualChainChanged([], added);
      InOrderNext(cfg, depth, tr, n) && Next(depth, tr, n) == Extend(depth, tr, bs)
  {
    AnnouncedAgain(depth, tr, xs, j);
    FollowAbove(depth, tr, bs);
    FollowJoin(depth, tr, xs + tr.waiting[j..], bs);
    NothingRemoved(cfg, tr);
  }
}
