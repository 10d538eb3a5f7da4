/** When does a reorg leave no trace? A node that follows an orphaned branch and is
    then told to leave it is compared with one that only ever saw the branch that
    won: exactly when the two agree. */
module ReorgTrace {
  import opened Prelude
  import opened Blocks
  import opened Ingestion
  import opened ChainWindow
  import opened ChainEdits
  import opened Persist
  import opened Layers
  import opened Chains
  import opened Unwinding
  import opened ReplaySafety
  import opened ReplayTheorems

  /** Blocks delivered one notification at a time. */
  function Arrivals(ws: seq<IngestedBlock>): (es: seq<Event>)
    ensures |es| == |ws|
    ensures forall i :: 0 <= i < |ws| ==> es[i] == Heard(BlockAdded(ws[i]))
  {
    seq(|ws|, i requires 0 <= i < |ws| => Heard(BlockAdded(ws[i])))
  }

  /** The track after blocks above its tip have arrived. */
  function Extend(depth: Option<u64>, tr: Track, bs: seq<Block>): Track {
    Track(tr.base, tr.done + Gained(depth, tr.waiting, bs), Left(depth, tr.waiting, bs))
  }

  /** How much of `all` is committed once its last part has arrived, if `k` was. */
  function Reach(depth: Option<u64>, k: nat, all: seq<Block>, arrived: seq<Block>): nat {
    if arrived == [] then k else Longer(k, Settled(all, Cutoff(depth, arrived[|arrived| - 1].daa)))
  }

  lemma ExtendIs(depth: Option<u64>, tr: Track, bs: seq<Block>, all: seq<Block>, r: nat)
    requires InOrder(Recent(tr) + bs) && all == Recent(tr) + bs && r == Reach(depth, |tr.done|, all, bs)
    ensures r <= |all| && Extend(depth, tr, bs) == Track(tr.base, all[..r], all[r..])
  {
    if bs == [] {
      assert tr.done + [] == tr.done && all == Recent(tr);
    } else {
      GainedReach(depth, tr.done, tr.waiting, bs, all, r);
    }
  }

  lemma ExtendOne(depth: Option<u64>, tr: Track, bs: seq<Block>, n: nat, shorter: seq<Block>)
    requires |bs| == n + 1 && shorter == bs[..n]
    ensures Extend(depth, Extend(depth, tr, shorter), [bs[n]]) == Extend(depth, tr, bs)
  {
    var left := Left(depth, tr.waiting, shorter);
    var one := [bs[n]];
    assert one[..0] == [];
    var ripe := Ripe(left + one, Cutoff(depth, bs[n].daa));
    assert Gained(depth, left, one) == [] + ripe == ripe;
    Assoc(tr.done, Gained(depth, tr.waiting, shorter), ripe);
  }

  lemma AboveIsNew(tr: Track, b: Block)
    requires InOrder(Recent(tr) + [b])
    ensures !Committed(tr.done, b.daa) && Displace(tr, b.daa) == tr
  {
    var all := Recent(tr) + [b];
    assert all[|all| - 1] == b;
    assert forall i :: 0 <= i < |tr.done| ==> all[i] == tr.done[i];
    AllLower(tr.waiting, b.daa) by {
      assert forall i :: 0 <= i < |tr.waiting| ==> all[|tr.done| + i] == tr.waiting[i];
    }
  }

  lemma {:induction false} AllLower(bs: seq<Block>, daa: int)
    requires forall i :: 0 <= i < |bs| ==> bs[i].daa < daa
    ensures Lower(bs, daa) == |bs|
  {
    if bs != [] {
      AllLower(bs[1..], daa);
    }
  }

  lemma LegalInitial(base: seq<Block>, a: seq<Block>, bs: seq<Block>)
    requires InOrder(a + bs) && Legal(base + (a + bs)) && bs != []
    ensures var n := |bs| - 1;
      InOrder(a + bs[..n]) && Legal(base + (a + bs[..n])) && (a + bs[..n]) + [bs[n]] == a + bs
  {
    var n := |bs| - 1;
    InitInOrder(a, bs, n);
    LegalPrefix(base, a + bs, |a| + n);
    assert (a + bs)[..|a| + n] == a + bs[..n];
  }

  /** The buffer holds no other block by `b`'s hash. */
  lemma FreshHash(tr: Track, b: Block)
    requires Legal(tr.base + (Recent(tr) + [b]))
    ensures OneDaa(tr.waiting, b)
  {
    var recent := Recent(tr) + [b];
    var all := tr.base + recent;
    forall i | 0 <= i < |tr.waiting| ensures tr.waiting[i].hash != b.hash {
      var k := |tr.base| + |tr.done| + i;
      assert all[k] == recent[|tr.done| + i] == tr.waiting[i];
      assert all[|all| - 1] == recent[|recent| - 1] == b;
      assert all[k].hash != all[|all| - 1].hash;
    }
  }

  lemma NextAbove(depth: Option<u64>, tr: Track, b: Block)
    requires Continue(tr, [b])
    ensures Arrives(tr, b) && NextBlock(depth, tr, b) == Extend(depth, tr, [b])
  {
    AboveIsNew(tr, b);
    FreshHash(tr, b);
    assert [b][..0] == [];
    var ripe := Ripe(tr.waiting + [b], Cutoff(depth, b.daa));
    assert Gained(depth, tr.waiting, [b]) == [] + ripe == ripe;
  }

  lemma RecentAfter(depth: Option<u64>, tr: Track, bs: seq<Block>)
    ensures Recent(Extend(depth, tr, bs)) == Recent(tr) + bs
  {
    var gained, left := Gained(depth, tr.waiting, bs), Left(depth, tr.waiting, bs);
    FollowKeepsAll(depth, tr.waiting, bs);
    SameChain(tr.done, gained, left, tr.waiting, bs);
  }

  lemma ContinueOne(depth: Option<u64>, tr: Track, bs: seq<Block>, n: nat, shorter: seq<Block>)
    requires Continue(tr, bs) && |bs| == n + 1 && shorter == bs[..n]
    ensures Continue(tr, shorter) && Continue(Extend(depth, tr, shorter), [bs[n]])
  {
    LegalInitial(tr.base, Recent(tr), bs);
    RecentAfter(depth, tr, shorter);
  }

  /** Blocks that continue the chain all arrive, and extend it. */
  lemma {:induction false} FollowAbove(depth: Option<u64>, tr: Track, bs: seq<Block>)
    requires Continue(tr, bs)
    ensures ArriveAll(depth, tr, bs) && Follow(depth, tr, bs) == Extend(depth, tr, bs)
    decreases |bs|
  {
    if bs == [] {
      assert tr.done + [] == tr.done;
    } else {
      var n := |bs| - 1;
      ContinueOne(depth, tr, bs, n, bs[..n]);
      FollowAbove(depth, tr, bs[..n]);
      NextAbove(depth, Extend(depth, tr, bs[..n]), bs[n]);
      ExtendOne(depth, tr, bs, n, bs[..n]);
    }
  }

  lemma HeardOne(cfg: Config, depth: Option<u64>, es: seq<Event>, n: Notification, tr: Track)
    requires InOrderRun(cfg, depth, es) && tr == RunTrack(depth, es) && !Aborts(n) && InOrderNext(cfg, depth, tr, n)
    ensures InOrderRun(cfg, depth, es + [Heard(n)]) && RunTrack(depth, es + [Heard(n)]) == Next(depth, tr, n)
  {
    var run := es + [Heard(n)];
    assert run[..|run| - 1] == es;
  }

  lemma OneMoreArrival(cfg: Config, depth: Option<u64>, es: seq<Event>, w: IngestedBlock, tr: Track, longer: seq<Event>)
    requires InOrderRun(cfg, depth, es) && tr == RunTrack(depth, es) && Continue(tr, [BlockFromRpc(w)])
    requires longer == es + [Heard(BlockAdded(w))]
    ensures InOrderRun(cfg, depth, longer) && RunTrack(depth, longer) == Extend(depth, tr, [BlockFromRpc(w)])
  {
    NextAbove(depth, tr, BlockFromRpc(w));
    HeardOne(cfg, depth, es, BlockAdded(w), tr);
  }

  lemma ArrivalsInit(es: seq<Event>, ws: seq<IngestedBlock>, n: nat)
    requires |ws| == n + 1
    ensures es + Arrivals(ws) == es + Arrivals(ws[..n]) + [Heard(BlockAdded(ws[n]))]
    ensures BlocksFromRpc(ws[..n]) == BlocksFromRpc(ws)[..n]
  {
  }

  /** Blocks arriving one by one at the tip take a run to the track they extend. */
  lemma {:induction false} ArrivalsExtend(cfg: Config, depth: Option<u64>, es: seq<Event>, ws: seq<IngestedBlock>, tr: Track)
    requires InOrderRun(cfg, depth, es) && tr == RunTrack(depth, es) && Continue(tr, BlocksFromRpc(ws))
    ensures InOrderRun(cfg, depth, es + Arrivals(ws))
    ensures RunTrack(depth, es + Arrivals(ws)) == Extend(depth, tr, BlocksFromRpc(ws))
    decreases |ws|
  {
    if ws == [] {
      assert es + Arrivals(ws) == es && tr.done + [] == tr.done;
    } else {
      var n := |ws| - 1;
      var bs, shorter, run := BlocksFromRpc(ws), BlocksFromRpc(ws[..n]), es + Arrivals(ws[..n]);
      ArrivalsInit(es, ws, n);
      ContinueOne(depth, tr, bs, n, shorter);
      ArrivalsExtend(cfg, depth, es, ws[..n], tr);
      ExtendOne(depth, tr, bs, n, shorter);
      OneMoreArrival(cfg, depth, run, ws[n], Extend(depth, tr, shorter), es + Arrivals(ws));
    }
  }

  // ----- Leaving the orphaned branch -----

  lemma OrphansNamed(base: seq<Block>, a: seq<Block>, ws: seq<IngestedBlock>, i: nat)
    requires Legal(base + (a + BlocksFromRpc(ws))) && i < |a + BlocksFromRpc(ws)|
    ensures (a + BlocksFromRpc(ws))[i].hash in Hashes(BlocksFromRpc(ws)) <==> |a| <= i
  {
    var os, hashes := BlocksFromRpc(ws), Hashes(BlocksFromRpc(ws));
    var all := a + os;
    var chain := base + all;
    assert chain[|base| + i] == all[i];
    if i < |a| {
      forall j | 0 <= j < |hashes| ensures hashes[j] != all[i].hash {
        assert chain[|base| + |a| + j] == os[j];
        assert chain[|base| + i].hash != chain[|base| + |a| + j].hash;
      }
    } else {
      assert hashes[i - |a|] == all[i].hash;
    }
  }

  /** The orphans' hashes name what lies beyond `a`, in the committed part and in
      the buffer alike. */
  lemma OrphansAreSuffixes(base: seq<Block>, a: seq<Block>, ws: seq<IngestedBlock>, all: seq<Block>, r: nat)
    requires all == a + BlocksFromRpc(ws) && Legal(base + all) && r <= |all|
    ensures var q := if r < |a| then r else |a|;
      NamesSuffix(all[..r], q, Hashes(BlocksFromRpc(ws))) && NamesSuffix(all[r..], |a| - q, Hashes(BlocksFromRpc(ws)))
  {
    forall i | 0 <= i < |all| ensures all[i].hash in Hashes(BlocksFromRpc(ws)) <==> |a| <= i {
      OrphansNamed(base, a, ws, i);
    }
    assert forall i :: 0 <= i < |all| - r ==> all[r..][i] == all[r + i];
  }

  lemma BackTo(a: seq<Block>, os: seq<Block>, r: nat, q: nat)
    requires r <= |a + os| && q == (if r < |a| then r else |a|)
    ensures (a + os)[..r][..q] == a[..q] && |a| - q <= |(a + os)[r..]| && (a + os)[r..][..|a| - q] == a[q..]
  {
  }

  /** Removing the orphans leaves what was followed before, with as much of it
      committed as the orphans' arrival had settled. */
  lemma OrphansRemoved(depth: Option<u64>, tr: Track, ws: seq<IngestedBlock>, q: nat, after: Track)
    requires Continue(tr, BlocksFromRpc(ws)) && after == Extend(depth, tr, BlocksFromRpc(ws))
    requires q == Reach(depth, |tr.done|, Recent(tr), BlocksFromRpc(ws))
    ensures q <= |Recent(tr)|
    ensures Shrink(after, Hashes(BlocksFromRpc(ws))) == Track(tr.base, Recent(tr)[..q], Recent(tr)[q..])
    ensures NamesSuffix(after.done, q, Hashes(BlocksFromRpc(ws)))
  {
    var a, os := Recent(tr), BlocksFromRpc(ws);
    var all := a + os;
    var r := Reach(depth, |tr.done|, all, os);
    ExtendIs(depth, tr, os, all, r);
    if os != [] {
      SettledOfPrefix(a, os, Cutoff(depth, os[|os| - 1].daa));
    }
    OrphansDropped(tr.base, a, ws, all, r, q);
  }

  lemma OrphansDropped(base: seq<Block>, a: seq<Block>, ws: seq<IngestedBlock>, all: seq<Block>, r: nat, q: nat)
    requires all == a + BlocksFromRpc(ws) && Legal(base + all) && r <= |all| && q == (if r < |a| then r else |a|)
    ensures Keep(all[..r], Unnamed(Hashes(BlocksFromRpc(ws)))) == a[..q]
    ensures Keep(all[r..], Unnamed(Hashes(BlocksFromRpc(ws)))) == a[q..]
    ensures NamesSuffix(all[..r], q, Hashes(BlocksFromRpc(ws)))
  {
    OrphansAreSuffixes(base, a, ws, all, r);
    SuffixKept(all[..r], q, Hashes(BlocksFromRpc(ws)));
    SuffixKept(all[r..], |a| - q, Hashes(BlocksFromRpc(ws)));
    BackTo(a, BlocksFromRpc(ws), r, q);
  }

  lemma {:induction false} SettledOfPrefix(a: seq<Block>, os: seq<Block>, cutoff: Option<i64>)
    ensures var n := Settled(a + os, cutoff);
      Settled(a, cutoff) == if n < |a| then n else |a|
  {
    if a != [] {
      assert (a + os)[1..] == a[1..] + os;
      SettledOfPrefix(a[1..], os, cutoff);
    }
  }

  // ----- The comparison -----

  lemma SplitsDiffer(bs: seq<Block>, m: nat, n: nat)
    requires DaaOrder(bs) && m <= |bs| && n <= |bs|
    ensures Split(bs[..m], bs[m..]) == Split(bs[..n], bs[n..]) <==> m == n
  {
    if m < n {
      InSplit(bs, m, m);
      InSplit(bs, n, m);
    } else if n < m {
      InSplit(bs, m, n);
      InSplit(bs, n, n);
    }
  }

  /** What is heard on the orphaned branch, and on the other one only. */
  function Detour(es: seq<Event>, orphans: seq<IngestedBlock>, added: seq<IngestedBlock>): seq<Event> {
    es + Arrivals(orphans) + [Heard(VirtualChainChanged(Hashes(BlocksFromRpc(orphans)), added))]
  }

  ghost predicate AtOrBelow(b: Block, cutoff: Option<i64>) {
    cutoff.Some? && b.daa <= cutoff.value
  }

  /** The cutoff the last of these blocks derives, if there is one. */
  function LastCutoff(depth: Option<u64>, ws: seq<IngestedBlock>): Option<i64> {
    if ws == [] then None else Cutoff(depth, ToI64(ws[|ws| - 1].daa))
  }

  /** The orphans that were committed before they were left. */
  function CommittedOrphans(depth: Option<u64>, tr: Track, ws: seq<IngestedBlock>): seq<Block> {
    var done, k := Extend(depth, tr, BlocksFromRpc(ws)).done, |Recent(tr)|;
    if |done| <= k then [] else done[k..]
  }

  /** Leaving them overwrites no UTXO or spend row of what was followed before. */
  ghost predicate CleanOrphans(cfg: Config, depth: Option<u64>, tr: Track, ws: seq<IngestedBlock>) {
    Clean(cfg, tr.base + Recent(tr), CommittedOrphans(depth, tr, ws))
  }

  lemma OrphansAreOrphans(depth: Option<u64>, tr: Track, ws: seq<IngestedBlock>)
    ensures CommittedOrphans(depth, tr, ws) <= BlocksFromRpc(ws)
  {
    var os := BlocksFromRpc(ws);
    var gained, left := Gained(depth, tr.waiting, os), Left(depth, tr.waiting, os);
    FollowKeepsAll(depth, tr.waiting, os);
    SameChain(tr.done, gained, left, tr.waiting, os);
    PrefixTail(tr.done + gained, left, Recent(tr), os);
  }

  lemma PrefixTail(x: seq<Block>, y: seq<Block>, a: seq<Block>, b: seq<Block>)
    requires x + y == a + b
    ensures |a| < |x| ==> x[|a|..] <= b
  {
    if |a| < |x| {
      assert x == (a + b)[..|x|];
    }
  }

  lemma OrphansClean(cfg: Config, depth: Option<u64>, tr: Track, ws: seq<IngestedBlock>, q: nat, after: Track)
    requires Continue(tr, BlocksFromRpc(ws)) && after == Extend(depth, tr, BlocksFromRpc(ws))
    requires q == Reach(depth, |tr.done|, Recent(tr), BlocksFromRpc(ws)) && q <= |Recent(tr)|
    requires CleanOrphans(cfg, depth, tr, ws)
    ensures q <= |after.done| && Clean(cfg, tr.base + Recent(tr)[..q], after.done[q..])
  {
    var a, os := Recent(tr), BlocksFromRpc(ws);
    var all := a + os;
    var r := Reach(depth, |tr.done|, all, os);
    ExtendIs(depth, tr, os, all, r);
    if os != [] {
      SettledOfPrefix(a, os, Cutoff(depth, os[|os| - 1].daa));
    }
    if q == |a| {
      assert a[..q] == a;
    }
  }

  lemma CutInTwo(bs: seq<Block>, q: nat)
    requires q <= |bs|
    ensures bs[..q] + bs[q..] == bs
  {
  }

  lemma LeaveOrphans(cfg: Config, depth: Option<u64>, tr: Track, orphans: seq<IngestedBlock>, added: seq<IngestedBlock>,
                     all: seq<Block>, q: nat, r: nat)
    requires Continue(tr, BlocksFromRpc(orphans)) && Continue(tr, BlocksFromRpc(added))
    requires CleanOrphans(cfg, depth, tr, orphans)
    requires all == Recent(tr) + BlocksFromRpc(added)
    requires q == Reach(depth, |tr.done|, Recent(tr), BlocksFromRpc(orphans))
    requires r == Reach(depth, q, all, BlocksFromRpc(added))
    ensures var after := Extend(depth, tr, BlocksFromRpc(orphans));
            var n := VirtualChainChanged(Hashes(BlocksFromRpc(orphans)), added);
      r <= |all| && InOrderNext(cfg, depth, after, n) && Next(depth, after, n) == Track(tr.base, all[..r], all[r..])
  {
    OrphansRemoved(depth, tr, orphans, q, Extend(depth, tr, BlocksFromRpc(orphans)));
    OrphansClean(cfg, depth, tr, orphans, q, Extend(depth, tr, BlocksFromRpc(orphans)));
    var cut := Track(tr.base, Recent(tr)[..q], Recent(tr)[q..]);
    CutInTwo(Recent(tr), q);
    FollowAbove(depth, cut, BlocksFromRpc(added));
    ExtendIs(depth, cut, BlocksFromRpc(added), all, r);
  }

  lemma DetourTrack(cfg: Config, depth: Option<u64>, es: seq<Event>, orphans: seq<IngestedBlock>,
                    added: seq<IngestedBlock>, tr: Track, all: seq<Block>, q: nat, r: nat)
    requires InOrderRun(cfg, depth, es) && tr == RunTrack(depth, es)
    requires Continue(tr, BlocksFromRpc(orphans)) && Continue(tr, BlocksFromRpc(added))
    requires CleanOrphans(cfg, depth, tr, orphans)
    requires all == Recent(tr) + BlocksFromRpc(added)
    requires q == Reach(depth, |tr.done|, Recent(tr), BlocksFromRpc(orphans))
    requires r == Reach(depth, q, all, BlocksFromRpc(added))
    ensures InOrderRun(cfg, depth, Detour(es, orphans, added)) && r <= |all|
    ensures RunTrack(depth, Detour(es, orphans, added)) == Track(tr.base, all[..r], all[r..])
  {
    var after := Extend(depth, tr, BlocksFromRpc(orphans));
    ArrivalsExtend(cfg, depth, es, orphans, tr);
    LeaveOrphans(cfg, depth, tr, orphans, added, all, q, r);
    HeardOne(cfg, depth, es + Arrivals(orphans), VirtualChainChanged(Hashes(BlocksFromRpc(orphans)), added), after);
  }

  lemma StraightTrack(cfg: Config, depth: Option<u64>, es: seq<Event>, added: seq<IngestedBlock>, tr: Track,
                      all: seq<Block>, r: nat)
    requires InOrderRun(cfg, depth, es) && tr == RunTrack(depth, es) && Continue(tr, BlocksFromRpc(added))
    requires all == Recent(tr) + BlocksFromRpc(added)
    requires r == Reach(depth, |tr.done|, all, BlocksFromRpc(added))
    ensures InOrderRun(cfg, depth, es + Arrivals(added)) && r <= |all|
    ensures RunTrack(depth, es + Arrivals(added)) == Track(tr.base, all[..r], all[r..])
  {
    ArrivalsExtend(cfg, depth, es, added, tr);
    ExtendIs(depth, tr, BlocksFromRpc(added), all, r);
  }

  /** No waiting block was settled by the orphans alone. */
  ghost predicate NothingSettledEarly(depth: Option<u64>, tr: Track, orphans: seq<IngestedBlock>, added: seq<IngestedBlock>) {
    forall i :: 0 <= i < |tr.waiting| && AtOrBelow(tr.waiting[i], LastCutoff(depth, orphans)) ==>
      AtOrBelow(tr.waiting[i], LastCutoff(depth, added))
  }

  lemma ReachIs(depth: Option<u64>, k: nat, all: seq<Block>, ws: seq<IngestedBlock>)
    requires k <= |all|
    ensures Reach(depth, k, all, BlocksFromRpc(ws)) == Longer(k, Settled(all, LastCutoff(depth, ws)))
  {
  }

  lemma WaitingSettled(tr: Track, bs: seq<Block>, all: seq<Block>, cutoff: Option<i64>, i: nat)
    requires DaaOrder(all) && all == Recent(tr) + bs && i < |tr.waiting|
    ensures |tr.done| + i < Settled(all, cutoff) <==> AtOrBelow(tr.waiting[i], cutoff)
  {
    assert all[|tr.done| + i] == tr.waiting[i];
    SettledIs(all, cutoff, |tr.done| + i);
  }

  lemma EarlyIff(depth: Option<u64>, tr: Track, orphans: seq<IngestedBlock>, added: seq<IngestedBlock>,
                 all: seq<Block>, m: nat, n: nat)
    requires DaaOrder(all) && all == Recent(tr) + BlocksFromRpc(added)
    requires m == Settled(Recent(tr), LastCutoff(depth, orphans)) && n == Settled(all, LastCutoff(depth, added))
    ensures NothingSettledEarly(depth, tr, orphans, added) <==> m <= Longer(|tr.done|, n)
  {
    var a, k := Recent(tr), |tr.done|;
    HalvesInOrder(a, BlocksFromRpc(added));
    forall i | 0 <= i < |tr.waiting| ensures k + i < m <==> AtOrBelow(tr.waiting[i], LastCutoff(depth, orphans)) {
      assert a == a + [];
      WaitingSettled(tr, [], a, LastCutoff(depth, orphans), i);
    }
    forall i | 0 <= i < |tr.waiting| ensures k + i < n <==> AtOrBelow(tr.waiting[i], LastCutoff(depth, added)) {
      WaitingSettled(tr, BlocksFromRpc(added), all, LastCutoff(depth, added), i);
    }
    EarlyCount(depth, tr, orphans, added, k, m, n);
  }

  lemma EarlyCount(depth: Option<u64>, tr: Track, orphans: seq<IngestedBlock>, added: seq<IngestedBlock>,
                   k: nat, m: nat, n: nat)
    requires k == |tr.done| && m <= k + |tr.waiting|
    requires forall i :: 0 <= i < |tr.waiting| ==> (k + i < m <==> AtOrBelow(tr.waiting[i], LastCutoff(depth, orphans)))
    requires forall i :: 0 <= i < |tr.waiting| ==> (k + i < n <==> AtOrBelow(tr.waiting[i], LastCutoff(depth, added)))
    ensures NothingSettledEarly(depth, tr, orphans, added) <==> m <= Longer(k, n)
  {
    if m > Longer(k, n) {
      assert AtOrBelow(tr.waiting[m - 1 - k], LastCutoff(depth, orphans));
    }
  }

  /** Two runs over the same chain agree when they committed equally much of it. */
  lemma NodesDiffer(cfg: Config, depth: Option<u64>, es: seq<Event>, es': seq<Event>, base: seq<Block>, all: seq<Block>,
                    m: nat, n: nat)
    requires Sane(cfg) && InOrderRun(cfg, depth, es) && InOrderRun(cfg, depth, es')
    requires DaaOrder(all) && m <= |all| && n <= |all|
    requires RunTrack(depth, es) == Track(base, all[..m], all[m..])
    requires RunTrack(depth, es') == Track(base, all[..n], all[n..])
    ensures RunNode(cfg, depth, es) == RunNode(cfg, depth, es') <==> m == n
    ensures RunNode(cfg, depth, es).view == RunNode(cfg, depth, es').view <==> m == n
  {
    RunRefines(cfg, depth, es);
    RunRefines(cfg, depth, es');
    SplitsDiffer(all, m, n);
  }

  lemma TracesMeet(cfg: Config, depth: Option<u64>, es: seq<Event>, orphans: seq<IngestedBlock>,
                   added: seq<IngestedBlock>, tr: Track, all: seq<Block>, q: nat, r: nat, straight: nat)
    requires Sane(cfg) && InOrderRun(cfg, depth, es) && tr == RunTrack(depth, es)
    requires Continue(tr, BlocksFromRpc(orphans)) && Continue(tr, BlocksFromRpc(added))
    requires CleanOrphans(cfg, depth, tr, orphans)
    requires all == Recent(tr) + BlocksFromRpc(added)
    requires q == Reach(depth, |tr.done|, Recent(tr), BlocksFromRpc(orphans))
    requires r == Reach(depth, q, all, BlocksFromRpc(added))
    requires straight == Reach(depth, |tr.done|, all, BlocksFromRpc(added))
    ensures RunNode(cfg, depth, Detour(es, orphans, added)) == RunNode(cfg, depth, es + Arrivals(added)) <==> r == straight
    ensures RunNode(cfg, depth, Detour(es, orphans, added)).view == RunNode(cfg, depth, es + Arrivals(added)).view
       <==> r == straight
  {
    DetourTrack(cfg, depth, es, orphans, added, tr, all, q, r);
    StraightTrack(cfg, depth, es, added, tr, all, straight);
    NodesDiffer(cfg, depth, Detour(es, orphans, added), es + Arrivals(added), tr.base, all, r, straight);
  }

  /** The exact condition. A node that followed any orphaned branch and left it is
      in the state of one that never saw it, in memory, tables and POI chain, if
      and only if every block the orphans' cutoff settled while it waited is also
      settled by the branch that replaced them. So are the two maps in memory alone. */
  lemma ReorgLeavesNoTrace(cfg: Config, depth: Option<u64>, es: seq<Event>, orphans: seq<IngestedBlock>,
                           added: seq<IngestedBlock>, tr: Track)
    requires Sane(cfg) && InOrderRun(cfg, depth, es) && tr == RunTrack(depth, es)
    requires Continue(tr, BlocksFromRpc(orphans)) && Continue(tr, BlocksFromRpc(added))
    requires CleanOrphans(cfg, depth, tr, orphans)
    ensures RunNode(cfg, depth, Detour(es, orphans, added)) == RunNode(cfg, depth, es + Arrivals(added))
       <==> NothingSettledEarly(depth, tr, orphans, added)
    ensures RunNode(cfg, depth, Detour(es, orphans, added)).view == RunNode(cfg, depth, es + Arrivals(added)).view
       <==> NothingSettledEarly(depth, tr, orphans, added)
  {
    var a, k, bs := Recent(tr), |tr.done|, BlocksFromRpc(added);
    var all := a + bs;
    var m, n := Settled(a, LastCutoff(depth, orphans)), Settled(all, LastCutoff(depth, added));
    ReachIs(depth, k, a, orphans);
    ReachIs(depth, Longer(k, m), all, added);
    ReachIs(depth, k, all, added);
    TracesMeet(cfg, depth, es, orphans, added, tr, all, Longer(k, m), Longer(Longer(k, m), n), Longer(k, n));
    EarlyIff(depth, tr, orphans, added, all, m, n);
  }

  // ----- In memory, whatever the orphans wrote -----

  /** Memory is no function of the mapping: the same node without one has the same. */
  function Unmapped(cfg: Config): Config { cfg.(mapping := None) }

  lemma {:induction false} SameMemory(cfg: Config, other: Config, depth: Option<u64>, es: seq<Event>)
    ensures RunNode(cfg, depth, es).view == RunNode(other, depth, es).view
  {
    if es != [] {
      SameMemory(cfg, other, depth, es[..|es| - 1]);
    }
  }

  lemma {:induction false} InOrderUnmapped(cfg: Config, depth: Option<u64>, es: seq<Event>)
    requires InOrderRun(cfg, depth, es)
    ensures InOrderRun(Unmapped(cfg), depth, es)
  {
    if es != [] {
      InOrderUnmapped(cfg, depth, es[..|es| - 1]);
    }
  }

  /** The two maps agree on that same condition for any orphans, and after any run that
      only has to be in order for a node without a mapping. */
  lemma ReorgLeavesNoTraceInMemory(cfg: Config, depth: Option<u64>, es: seq<Event>, orphans: seq<IngestedBlock>,
                                   added: seq<IngestedBlock>, tr: Track)
    requires InOrderRun(Unmapped(cfg), depth, es) && tr == RunTrack(depth, es)
    requires Continue(tr, BlocksFromRpc(orphans)) && Continue(tr, BlocksFromRpc(added))
    ensures RunNode(cfg, depth, Detour(es, orphans, added)).view == RunNode(cfg, depth, es + Arrivals(added)).view
       <==> NothingSettledEarly(depth, tr, orphans, added)
  {
    ReorgLeavesNoTrace(Unmapped(cfg), depth, es, orphans, added, tr);
    SameMemory(cfg, Unmapped(cfg), depth, Detour(es, orphans, added));
    SameMemory(cfg, Unmapped(cfg), depth, es + Arrivals(added));
  }

  /** In particular when the new tip is no lower than the old one. */
  lemma HigherTipLeavesNoTrace(cfg: Config, depth: Option<u64>, es: seq<Event>, orphans: seq<IngestedBlock>,
                               added: seq<IngestedBlock>, tr: Track)
    requires Sane(cfg) && InOrderRun(cfg, depth, es) && tr == RunTrack(depth, es)
    requires Continue(tr, BlocksFromRpc(orphans)) && Continue(tr, BlocksFromRpc(added))
    requires CleanOrphans(cfg, depth, tr, orphans)
    requires orphans != [] && added != []
    requires ToI64(orphans[|orphans| - 1].daa) <= ToI64(added[|added| - 1].daa)
    ensures RunNode(cfg, depth, Detour(es, orphans, added)) == RunNode(cfg, depth, es + Arrivals(added))
  {
    CutoffGrows(depth, ToI64(orphans[|orphans| - 1].daa), ToI64(added[|added| - 1].daa));
    ReorgLeavesNoTrace(cfg, depth, es, orphans, added, tr);
  }
}
