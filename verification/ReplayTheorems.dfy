/** What replay safety means for a reader of the store: the same chain gives the
    same store, the published POI chain verifies, and the finality window is exact. */
module ReplayTheorems {
  import opened Prelude
  import opened Poi
  import opened Blocks
  import opened Ingestion
  import opened ChainWindow
  import opened Tables
  import opened Persist
  import opened Layers
  import opened Chains
  import opened ReplaySafety
  import opened FinalArrivals

  /** Two nodes whose committed blocks agree hold the same tables and the same
      POI anchor, whatever each of them went through. */
  lemma SameChainSameStore(cfg: Config, depth: Option<u64>, es: seq<Event>, depth': Option<u64>, es': seq<Event>)
    requires Sane(cfg) && AnyRun(cfg, depth, es) && AnyRun(cfg, depth', es')
    requires var tr, tr' := AnyTrack(depth, es), AnyTrack(depth', es');
             tr.base + tr.done == tr'.base + tr'.done
    ensures RunNode(cfg, depth, es).db == RunNode(cfg, depth', es').db
  {
    AnyRunRefines(cfg, depth, es);
    AnyRunRefines(cfg, depth', es');
  }

  // ----- The published chain -----

  /** The bytes each block contributed to the chain. */
  function Inputs(cfg: Config, bs: seq<Block>): (r: seq<seq<byte>>)
    ensures |r| == |bs|
    ensures forall i :: 0 <= i < |r| ==> r[i] != []
  {
    if bs == [] then []
    else
      var n := |bs| - 1;
      Inputs(cfg, bs[..n]) + [PoiInput(cfg, DbOf(cfg, bs[..n]).tables, bs[n])]
  }

  /** What a third party is shown for a chain of committed blocks: those bytes,
      with the POI row the store holds at each block's DAA. */
  function Published(cfg: Config, t: Tables, bs: seq<Block>): (r: seq<Checkpoint>)
    requires forall i :: 0 <= i < |bs| ==> bs[i].daa in t.poi
    ensures |r| == |bs|
    ensures forall i :: 0 <= i < |bs| ==> r[i] == Checkpoint(Inputs(cfg, bs)[i], t.poi[bs[i].daa])
  {
    seq(|bs|, i requires 0 <= i < |bs| => Checkpoint(Inputs(cfg, bs)[i], t.poi[bs[i].daa]))
  }

  lemma InputsInit(cfg: Config, bs: seq<Block>, shorter: seq<seq<byte>>, m: nat)
    requires |bs| == m + 1 && shorter == Inputs(cfg, bs[..m])
    ensures Inputs(cfg, bs)[..m] == shorter
  {
  }

  lemma {:induction false} InputsPrefix(cfg: Config, bs: seq<Block>, n: nat)
    requires n <= |bs|
    ensures Inputs(cfg, bs)[..n] == Inputs(cfg, bs[..n])
    decreases |bs|
  {
    if n == |bs| {
      assert bs[..n] == bs;
    } else {
      var m := |bs| - 1;
      InputsInit(cfg, bs, Inputs(cfg, bs[..m]), m);
      InputsPrefix(cfg, bs[..m], n);
      SliceTwice(bs, m, n);
      SliceTwice(Inputs(cfg, bs), m, n);
    }
  }

  lemma {:induction false} PriorIsTip(cfg: Config, bs: seq<Block>)
    ensures DbOf(cfg, bs).prior == ChainTip(cfg.hash, Inputs(cfg, bs))
    decreases |bs|
  {
    if bs != [] {
      var n := |bs| - 1;
      PriorIsTip(cfg, bs[..n]);
      assert Inputs(cfg, bs)[..n] == Inputs(cfg, bs[..n]);
    }
  }

  lemma TipOfPrefix(cfg: Config, bs: seq<Block>, i: nat)
    requires i <= |bs|
    ensures DbOf(cfg, bs[..i]).prior == ChainTip(cfg.hash, Inputs(cfg, bs)[..i])
  {
    PriorIsTip(cfg, bs[..i]);
    InputsPrefix(cfg, bs, i);
  }

  ghost predicate DistinctDaas(bs: seq<Block>) {
    forall i, j :: 0 <= i < j < |bs| ==> bs[i].daa != bs[j].daa
  }

  /** The POI row at a block's DAA is the hash its own prefix ends on. */
  lemma {:induction false} RowIsTip(cfg: Config, bs: seq<Block>, i: nat)
    requires DistinctDaas(bs) && i < |bs|
    ensures bs[i].daa in DbOf(cfg, bs).tables.poi
    ensures DbOf(cfg, bs).tables.poi[bs[i].daa] == DbOf(cfg, bs[..i + 1]).prior
    decreases |bs|
  {
    var n := |bs| - 1;
    LastBlock(cfg, bs, DbOf(cfg, bs[..n]).tables, DbOf(cfg, bs));
    if i < n {
      RowIsTip(cfg, bs[..n], i);
      assert bs[..n][..i + 1] == bs[..i + 1];
    } else {
      assert bs[..i + 1] == bs;
    }
  }

  lemma HonestRow(cfg: Config, t: Tables, bs: seq<Block>, i: nat)
    requires DaaOrder(bs) && t == DbOf(cfg, bs).tables && i < |bs|
    requires forall i :: 0 <= i < |bs| ==> bs[i].daa in t.poi
    ensures HonestAt(cfg.hash, Published(cfg, t, bs), i)
  {
    RowIsTip(cfg, bs, i);
    PriorIsTip(cfg, bs[..i + 1]);
    InputsPrefix(cfg, bs, i + 1);
    assert Inputs(cfg, bs)[i] != [];
    assert Bytes(Published(cfg, t, bs)) == Inputs(cfg, bs);
  }

  lemma AllHonest(cfg: Config, t: Tables, bs: seq<Block>, cps: seq<Checkpoint>)
    requires DaaOrder(bs) && t == DbOf(cfg, bs).tables
    requires (forall i :: 0 <= i < |bs| ==> bs[i].daa in t.poi) && cps == Published(cfg, t, bs)
    ensures HonestBefore(cfg.hash, cps, |cps|) && Bytes(cps) == Inputs(cfg, bs)
  {
    forall i | 0 <= i < |cps| ensures HonestAt(cfg.hash, cps, i) {
      HonestRow(cfg, t, bs, i);
    }
  }

  /** The POI rows of a chain persisted from empty are one per block, a verifier accepts
      them from genesis over the bytes of its blocks, and they end on its anchor. */
  lemma ChainVerifies(cfg: Config, bs: seq<Block>)
    requires DaaOrder(bs)
    ensures ListsScores(DbOf(cfg, bs).tables.poi.Keys, bs)
    ensures Verdict(cfg.hash, Published(cfg, DbOf(cfg, bs).tables, bs), Ok(Valid(DbOf(cfg, bs).prior)))
  {
    var t := DbOf(cfg, bs).tables;
    DbOfScores(cfg, bs);
    AllHonest(cfg, t, bs, Published(cfg, t, bs));
    PriorIsTip(cfg, bs);
  }

  // ----- The finality window -----

  lemma CutoffGrows(depth: Option<u64>, low: i64, high: i64)
    requires low <= high
    ensures Cutoff(depth, low).Some? <==> Cutoff(depth, high).Some?
    ensures Cutoff(depth, low).Some? ==> Cutoff(depth, low).value <= Cutoff(depth, high).value
  {
  }

  ghost predicate AtMost(a: Option<i64>, b: Option<i64>) {
    a.Some? ==> b.Some? && a.value <= b.value
  }

  lemma {:induction false} SettledGrows(xs: seq<Block>, ys: seq<Block>, low: Option<i64>, high: Option<i64>)
    requires AtMost(low, high)
    ensures Settled(xs, low) <= Settled(xs + ys, high)
  {
    if xs != [] {
      assert (xs + ys)[1..] == xs[1..] + ys;
      SettledGrows(xs[1..], ys, low, high);
    }
  }

  function Longer(a: nat, b: nat): nat { if a < b then b else a }

  /** Following blocks commits the longest of what was committed and what the last
      block's cutoff settles: earlier cutoffs leave no trace. */
  lemma {:induction false} GainedReach(depth: Option<u64>, done: seq<Block>, waiting: seq<Block>, bs: seq<Block>,
                                       all: seq<Block>, reach: nat)
    requires InOrder(all) && all == (done + waiting) + bs && bs != []
    requires reach == Longer(|done|, Settled(all, Cutoff(depth, bs[|bs| - 1].daa)))
    ensures reach <= |all|
    ensures done + Gained(depth, waiting, bs) == all[..reach] && Left(depth, waiting, bs) == all[reach..]
    decreases |bs|, 1
  {
    var n := |bs| - 1;
    var gained, left := Gained(depth, waiting, bs[..n]), Left(depth, waiting, bs[..n]);
    BeforeLast(depth, done, waiting, bs, n, all, reach, gained, left);
    LastReached(done, gained, left, bs[n], Cutoff(depth, bs[n].daa), all, reach);
  }

  /** What is committed before the last block never decides how far it reaches. */
  lemma {:induction false} BeforeLast(depth: Option<u64>, done: seq<Block>, waiting: seq<Block>, bs: seq<Block>, n: nat,
                                      all: seq<Block>, reach: nat, gained: seq<Block>, left: seq<Block>)
    requires InOrder(all) && all == (done + waiting) + bs && |bs| == n + 1
    requires reach == Longer(|done|, Settled(all, Cutoff(depth, bs[n].daa)))
    requires gained == Gained(depth, waiting, bs[..n]) && left == Left(depth, waiting, bs[..n])
    ensures all == ((done + gained) + left) + [bs[n]]
    ensures reach == Longer(|done + gained|, Settled(all, Cutoff(depth, bs[n].daa)))
    decreases |bs|, 0
  {
    var before := (done + waiting) + bs[..n];
    assert all == before + [bs[n]];
    FollowKeepsAll(depth, waiting, bs[..n]);
    SameChain(done, gained, left, waiting, bs[..n]);
    if n > 0 {
      OrderPrefix(done + waiting, bs);
      GainedReach(depth, done, waiting, bs[..n], before,
                  Longer(|done|, Settled(before, Cutoff(depth, bs[..n][n - 1].daa))));
      EarlierSettles(depth, before, all, bs, |(done + waiting)|);
    }
  }

  lemma LastReached(done: seq<Block>, gained: seq<Block>, left: seq<Block>, b: Block, cutoff: Option<i64>,
                    all: seq<Block>, reach: nat)
    requires DaaOrder(all) && all == ((done + gained) + left) + [b]
    requires reach == Longer(|done + gained|, Settled(all, cutoff))
    ensures reach <= |all| && done + (gained + Ripe(left + [b], cutoff)) == all[..reach]
    ensures Unripe(left + [b], cutoff) == all[reach..]
  {
    Assoc(done + gained, left, [b]);
    Reached(all, done + gained, left + [b], cutoff, reach);
    Assoc(done, gained, Ripe(left + [b], cutoff));
  }

  lemma EarlierSettles(depth: Option<u64>, before: seq<Block>, all: seq<Block>, bs: seq<Block>, k: nat)
    requires InOrder(all) && |bs| >= 2 && k + |bs| == |all| && all[k..] == bs && all == before + [bs[|bs| - 1]]
    ensures Settled(before, Cutoff(depth, bs[|bs| - 2].daa)) <= Settled(all, Cutoff(depth, bs[|bs| - 1].daa))
  {
    var n := |bs| - 1;
    assert all[k + n - 1] == bs[n - 1] && all[k + n] == bs[n];
    CutoffGrows(depth, bs[n - 1].daa, bs[n].daa);
    SettledGrows(before, [bs[n]], Cutoff(depth, bs[n - 1].daa), Cutoff(depth, bs[n].daa));
  }

  lemma {:induction false} SettledSuffix(bs: seq<Block>, k: nat, cutoff: Option<i64>)
    requires DaaOrder(bs) && k <= |bs|
    ensures k + Settled(bs[k..], cutoff) == Longer(k, Settled(bs, cutoff))
    decreases k
  {
    if k > 0 {
      assert bs[1..][k - 1..] == bs[k..];
      SettledSuffix(bs[1..], k - 1, cutoff);
    }
  }

  lemma Reached(all: seq<Block>, done: seq<Block>, w: seq<Block>, cutoff: Option<i64>, reach: nat)
    requires DaaOrder(all) && all == done + w && Longer(|done|, Settled(all, cutoff)) == reach
    ensures reach <= |all| && done + Ripe(w, cutoff) == all[..reach] && Unripe(w, cutoff) == all[reach..]
  {
    SettledSuffix(all, |done|, cutoff);
    assert all[|done|..] == w;
  }

  /** From an empty state, a run of unfinalised blocks in DAA order commits what its
      last cutoff settles, and nothing else. */
  lemma WindowOfCutoff(depth: Option<u64>, bs: seq<Block>, cutoff: Option<i64>)
    requires InOrder(bs) && bs != [] && cutoff == Cutoff(depth, bs[|bs| - 1].daa)
    ensures BlocksStep(depth, View(map[], map[]), bs).next == Split(Ripe(bs, cutoff), Unripe(bs, cutoff))
    ensures BlocksStep(depth, View(map[], map[]), bs).out == Transition(Finalized(Ripe(bs, cutoff)), [], [], None)
  {
    var nothing: seq<Block> := [];
    var gained, left := Gained(depth, nothing, bs), Left(depth, nothing, bs);
    assert Split(nothing, nothing) == View(map[], map[]);
    assert (nothing + nothing) + bs == bs;
    FollowRefines(depth, nothing, nothing, bs);
    GainedReach(depth, nothing, nothing, bs, bs, Settled(bs, cutoff));
    NothingBefore(gained, Ripe(bs, cutoff));
  }

  lemma NothingBefore(gained: seq<Block>, reached: seq<Block>)
    requires [] + gained == reached
    ensures gained == reached
  {
  }

  /** What a cutoff settles of a chain, in numbers: the blocks that lie a depth below the
      block it is derived from. */
  lemma SettledInNumbers(depth: Option<u64>, bs: seq<Block>, i: nat, tip: i64)
    requires InOrder(bs) && i < |bs|
    ensures i < Settled(bs, Cutoff(depth, tip))
       <==> depth.Some? && depth.value < TWO_63 && bs[i].daa + depth.value <= tip
  {
    SettledIs(bs, Cutoff(depth, tip), i);
    CutoffReaches(depth, tip, bs[i].daa);
  }

  /** The block lies at least a depth below the tip. */
  predicate Deep(depth: Option<u64>, b: Block, tip: int) {
    depth.Some? && depth.value < TWO_63 && b.daa + depth.value <= tip
  }

  lemma SettledCount(depth: Option<u64>, bs: seq<Block>, m: nat, tip: i64)
    requires InOrder(bs) && m <= |bs| && forall i :: 0 <= i < |bs| ==> (i < m <==> Deep(depth, bs[i], tip))
    ensures m == Settled(bs, Cutoff(depth, tip))
  {
    var n := Settled(bs, Cutoff(depth, tip));
    if n < m {
      SettledInNumbers(depth, bs, n, tip);
    } else if m < n {
      SettledInNumbers(depth, bs, m, tip);
    }
  }

  /** So with the deep blocks in front, `m` of them: those are committed and written, once
      each and in ascending order, and the rest is buffered. */
  lemma FinalityWindow(depth: Option<u64>, bs: seq<Block>, m: nat)
    requires InOrder(bs) && bs != [] && m <= |bs|
    requires forall i :: 0 <= i < |bs| ==> (i < m <==> Deep(depth, bs[i], bs[|bs| - 1].daa))
    ensures BlocksStep(depth, View(map[], map[]), bs).next == Split(bs[..m], bs[m..])
    ensures BlocksStep(depth, View(map[], map[]), bs).out == Transition(Finalized(bs[..m]), [], [], None)
  {
    SettledCount(depth, bs, m, bs[|bs| - 1].daa);
    WindowOfCutoff(depth, bs, Cutoff(depth, bs[|bs| - 1].daa));
  }

  /** The same in terms of the maps a caller sees, block by block. */
  lemma WindowMembership(depth: Option<u64>, bs: seq<Block>, i: nat, v: View)
    requires InOrder(bs) && i < |bs| && v == BlocksStep(depth, View(map[], map[]), bs).next
    ensures bs[i].daa in v.committed <==>
      depth.Some? && depth.value < TWO_63 && bs[i].daa + depth.value <= bs[|bs| - 1].daa
    ensures bs[i].daa in v.buffered <==> bs[i].daa !in v.committed
    ensures bs[i].daa in v.committed ==> v.committed[bs[i].daa] == Finalize(bs[i])
    ensures bs[i].daa in v.buffered ==> v.buffered[bs[i].daa] == bs[i]
  {
    var cutoff := Cutoff(depth, bs[|bs| - 1].daa);
    WindowOfCutoff(depth, bs, cutoff);
    SettledInNumbers(depth, bs, i, bs[|bs| - 1].daa);
    InSplit(bs, Settled(bs, cutoff), i);
  }

  lemma InSplit(bs: seq<Block>, n: nat, i: nat)
    requires DaaOrder(bs) && n <= |bs| && i < |bs|
    ensures var v, x := Split(bs[..n], bs[n..]), bs[i].daa;
      if i < n then x in v.committed && v.committed[x] == Finalize(bs[i]) && x !in v.buffered
      else x in v.buffered && v.buffered[x] == bs[i] && x !in v.committed
  {
    FinalizedOrder(bs[..n]);
    if i < n {
      ByDaaHolds(Finalized(bs[..n]), i);
      NotInHigh(bs[n..], bs[i].daa, bs, n, i);
    } else {
      ByDaaHolds(bs[n..], i - n);
      NotInLow(Finalized(bs[..n]), bs[i].daa, bs, n, i);
    }
  }

  lemma NotInHigh(high: seq<Block>, x: int, bs: seq<Block>, n: nat, i: nat)
    requires DaaOrder(bs) && i < n <= |bs| && high == bs[n..] && x == bs[i].daa
    ensures x !in ByDaa(high)
  {
    assert forall j :: 0 <= j < |high| ==> high[j] == bs[n + j];
    if x in ByDaa(high) {
      var j := ByDaaOnly(high, x);
    }
  }

  lemma NotInLow(low: seq<Block>, x: int, bs: seq<Block>, n: nat, i: nat)
    requires DaaOrder(bs) && n <= i < |bs| && low == Finalized(bs[..n]) && x == bs[i].daa
    ensures x !in ByDaa(low)
  {
    assert forall j :: 0 <= j < |low| ==> low[j].daa == bs[j].daa;
    if x in ByDaa(low) {
      var j := ByDaaOnly(low, x);
    }
  }
}
