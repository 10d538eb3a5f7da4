/** What removals, gaps and late arrivals do to the chain a node follows: blocks
    drop out of either part by hash, out of the buffer by DAA, and a block that
    arrives at or below the buffered tip displaces what it conflicts with. */
module ChainEdits {
  import opened Prelude
  import opened Blocks
  import opened Ingestion
  import opened ChainWindow

  // ----- Keeping some blocks of a chain -----

  /** The blocks that pass a test, in order. */
  function Keep(bs: seq<Block>, test: Block -> bool): seq<Block> {
    if bs == [] then []
    else
      var n := |bs| - 1;
      Keep(bs[..n], test) + if test(bs[n]) then [bs[n]] else []
  }

  function Named(hashes: seq<string>): Block -> bool { (b: Block) => b.hash in hashes }

  function Unnamed(hashes: seq<string>): Block -> bool { (b: Block) => b.hash !in hashes }

  function Outside(lo: int, hi: int): Block -> bool { (b: Block) => b.daa < lo || hi < b.daa }

  lemma {:induction false} KeepMembers(bs: seq<Block>, test: Block -> bool, b: Block)
    ensures b in Keep(bs, test) <==> b in bs && test(b)
    decreases |bs|
  {
    if bs != [] {
      var n := |bs| - 1;
      KeepMembers(bs[..n], test, b);
      assert bs == bs[..n] + [bs[n]];
    }
  }

  lemma {:induction false} KeepAll(bs: seq<Block>, test: Block -> bool)
    requires forall i :: 0 <= i < |bs| ==> test(bs[i])
    ensures Keep(bs, test) == bs
    decreases |bs|
  {
    if bs != [] {
      KeepAll(bs[..|bs| - 1], test);
    }
  }

  /** A test that only a prefix passes keeps that prefix. */
  lemma {:induction false} KeepPrefix(bs: seq<Block>, test: Block -> bool, m: nat)
    requires m <= |bs| && forall i :: 0 <= i < |bs| ==> (test(bs[i]) <==> i < m)
    ensures Keep(bs, test) == bs[..m]
    decreases |bs|
  {
    if m == |bs| {
      KeepAll(bs, test);
      assert bs[..m] == bs;
    } else {
      var n := |bs| - 1;
      KeepPrefix(bs[..n], test, m);
      assert bs[..n][..m] == bs[..m];
    }
  }

  /** ... and one that only a suffix passes, that suffix. */
  lemma {:induction false} KeepSuffix(bs: seq<Block>, test: Block -> bool, m: nat)
    requires m <= |bs| && forall i :: 0 <= i < |bs| ==> (test(bs[i]) <==> m <= i)
    ensures Keep(bs, test) == bs[m..]
    decreases |bs|
  {
    if m < |bs| {
      var n := |bs| - 1;
      KeepSuffix(bs[..n], test, m);
      assert bs[m..] == bs[..n][m..] + [bs[n]];
    } else {
      KeepPrefix(bs, test, 0);
    }
  }

  lemma InitInOrder(xs: seq<Block>, bs: seq<Block>, n: nat)
    requires InOrder(xs + bs) && |bs| == n + 1
    ensures InOrder(xs + bs[..n]) && Above(bs[n], xs + bs[..n])
  {
    var all := xs + bs;
    assert xs + bs[..n] == all[..|xs| + n];
    assert bs[n] == all[|xs| + n];
  }

  lemma AboveKept(p: seq<Block>, bs: seq<Block>, test: Block -> bool, b: Block)
    requires Above(b, p + bs)
    ensures Above(b, p + Keep(bs, test))
  {
    var kept := Keep(bs, test);
    assert forall i :: 0 <= i < |p| ==> (p + bs)[i] == p[i];
    forall i | 0 <= i < |kept| ensures kept[i].daa < b.daa {
      KeepMembers(bs, test, kept[i]);
      var j :| 0 <= j < |bs| && bs[j] == kept[i];
      assert (p + bs)[|p| + j] == bs[j];
    }
  }

  /** Dropping blocks keeps a chain in order. */
  lemma {:induction false} KeepInOrder(p: seq<Block>, bs: seq<Block>, test: Block -> bool)
    requires InOrder(p + bs)
    ensures InOrder(p + Keep(bs, test))
    decreases |bs|
  {
    if bs == [] {
      assert p + [] == p + bs;
    } else {
      var n := |bs| - 1;
      InitInOrder(p, bs, n);
      KeepInOrder(p, bs[..n], test);
      if test(bs[n]) {
        AboveKept(p, bs[..n], test, bs[n]);
        Extended(p + Keep(bs[..n], test), bs[n]);
        assert p + Keep(bs, test) == p + Keep(bs[..n], test) + [bs[n]];
      } else {
        assert Keep(bs, test) == Keep(bs[..n], test);
      }
    }
  }

  lemma {:induction false} KeepDaaOrder(bs: seq<Block>, test: Block -> bool)
    requires DaaOrder(bs)
    ensures DaaOrder(Keep(bs, test))
    decreases |bs|
  {
    if bs != [] {
      var n := |bs| - 1;
      KeepDaaOrder(bs[..n], test);
      var kept := Keep(bs[..n], test);
      forall i | 0 <= i < |kept| ensures kept[i].daa < bs[n].daa {
        KeepMembers(bs[..n], test, kept[i]);
        var j :| 0 <= j < n && bs[..n][j] == kept[i];
      }
    }
  }

  function Passing(m: map<int, Block>, test: Block -> bool): map<int, Block> {
    map k | k in m && test(m[k]) :: m[k]
  }

  /** The map of what is kept is what passes in the map. */
  lemma KeepByDaa(bs: seq<Block>, test: Block -> bool)
    requires DaaOrder(bs)
    ensures Passing(ByDaa(bs), test) == ByDaa(Keep(bs, test))
  {
    var kept, m := Keep(bs, test), Passing(ByDaa(bs), test);
    KeepDaaOrder(bs, test);
    ByDaaRepresents(bs);
    forall i | 0 <= i < |kept| ensures kept[i].daa in m && m[kept[i].daa] == kept[i] {
      KeepMembers(bs, test, kept[i]);
      var j :| 0 <= j < |bs| && bs[j] == kept[i];
    }
    forall x | x in m ensures exists i :: 0 <= i < |kept| && kept[i].daa == x {
      var j :| 0 <= j < |bs| && bs[j].daa == x;
      KeepMembers(bs, test, bs[j]);
      var i :| 0 <= i < |kept| && kept[i] == bs[j];
    }
    OnlyByDaa(m, kept);
  }

  /** Taking the rest out by key lists it in chain order. */
  lemma PickKept(bs: seq<Block>, test: Block -> bool, s: set<int>)
    requires DaaOrder(bs) && s <= ByDaa(bs).Keys
    requires forall k :: k in ByDaa(bs) ==> (k in s <==> test(ByDaa(bs)[k]))
    ensures PickSet(ByDaa(bs), s) == Keep(bs, test)
  {
    var kept := Keep(bs, test);
    KeepDaaOrder(bs, test);
    ByDaaRepresents(bs);
    forall i | 0 <= i < |kept| ensures kept[i].daa in s && ByDaa(bs)[kept[i].daa] == kept[i] {
      KeepMembers(bs, test, kept[i]);
      var j :| 0 <= j < |bs| && bs[j] == kept[i];
    }
    forall x | x in s ensures exists i :: 0 <= i < |kept| && kept[i].daa == x {
      var j :| 0 <= j < |bs| && bs[j].daa == x;
      KeepMembers(bs, test, bs[j]);
      var i :| 0 <= i < |kept| && kept[i] == bs[j];
    }
    PickAll(ByDaa(bs), s, kept);
  }

  // ----- Removal by hash -----

  lemma {:induction false} KeepFinalized(bs: seq<Block>, hashes: seq<string>)
    ensures Keep(Finalized(bs), Named(hashes)) == Finalized(Keep(bs, Named(hashes)))
    ensures Keep(Finalized(bs), Unnamed(hashes)) == Finalized(Keep(bs, Unnamed(hashes)))
    decreases |bs|
  {
    if bs != [] {
      var n := |bs| - 1;
      KeepFinalized(bs[..n], hashes);
      assert Finalized(bs)[..n] == Finalized(bs[..n]);
    }
  }

  lemma DropHolding(m: map<int, Block>, hashes: seq<string>)
    ensures m - Holding(m, hashes) == Passing(m, Unnamed(hashes))
  {
  }

  /** Any hashes removed from both parts: what is left is what they do not name, and
      the committed blocks they name are surfaced as unwinds, in chain order. */
  lemma NamedRemoved(done: seq<Block>, waiting: seq<Block>, hashes: seq<string>)
    requires DaaOrder(done) && DaaOrder(waiting)
    ensures var v := Split(done, waiting);
      && View(v.committed - Holding(v.committed, hashes), v.buffered - Holding(v.buffered, hashes))
           == Split(Keep(done, Unnamed(hashes)), Keep(waiting, Unnamed(hashes)))
      && PickSet(v.committed, Holding(v.committed, hashes)) == Finalized(Keep(done, Named(hashes)))
  {
    var m := ByDaa(Finalized(done));
    FinalizedOrder(done);
    KeepFinalized(done, hashes);
    DropHolding(m, hashes);
    DropHolding(ByDaa(waiting), hashes);
    KeepByDaa(Finalized(done), Unnamed(hashes));
    KeepByDaa(waiting, Unnamed(hashes));
    PickKept(Finalized(done), Named(hashes), Holding(m, hashes));
  }

  /** The hashes name exactly the blocks from `m` on. */
  ghost predicate NamesSuffix(bs: seq<Block>, m: nat, hashes: seq<string>) {
    && m <= |bs|
    && forall i :: 0 <= i < |bs| ==> (bs[i].hash in hashes <==> m <= i)
  }

  lemma SuffixKept(bs: seq<Block>, m: nat, hashes: seq<string>)
    requires NamesSuffix(bs, m, hashes)
    ensures Keep(bs, Unnamed(hashes)) == bs[..m] && Keep(bs, Named(hashes)) == bs[m..]
  {
    KeepPrefix(bs, Unnamed(hashes), m);
    KeepSuffix(bs, Named(hashes), m);
  }

  // ----- A gap in the buffer -----

  lemma KeyIsDaa(bs: seq<Block>, k: int)
    requires DaaOrder(bs) && k in ByDaa(bs)
    ensures ByDaa(bs)[k].daa == k
  {
    var i := ByDaaOnly(bs, k);
    ByDaaHolds(bs, i);
  }

  lemma GapRemoved(waiting: seq<Block>, lo: int, hi: int)
    requires DaaOrder(waiting)
    ensures ByDaa(waiting) - Within(ByDaa(waiting), lo, hi) == ByDaa(Keep(waiting, Outside(lo, hi)))
  {
    var m := ByDaa(waiting);
    forall k | k in m ensures m[k].daa == k {
      KeyIsDaa(waiting, k);
    }
    assert m - Within(m, lo, hi) == Passing(m, Outside(lo, hi));
    KeepByDaa(waiting, Outside(lo, hi));
  }

  // ----- A block at or below the buffered tip -----

  /** How many leading blocks lie below a DAA. */
  function Lower(bs: seq<Block>, daa: int): (n: nat)
    ensures n <= |bs|
  {
    if bs == [] || bs[0].daa >= daa then 0 else 1 + Lower(bs[1..], daa)
  }

  lemma {:induction false} LowerIs(bs: seq<Block>, daa: int, i: nat)
    requires DaaOrder(bs) && i < |bs|
    ensures i < Lower(bs, daa) <==> bs[i].daa < daa
  {
    if i > 0 {
      LowerIs(bs[1..], daa, i - 1);
    }
  }

  /** One hash, one DAA: a buffered block with `b`'s hash has its DAA. */
  ghost predicate OneDaa(waiting: seq<Block>, b: Block) {
    forall i :: 0 <= i < |waiting| && waiting[i].hash == b.hash ==> waiting[i].daa == b.daa
  }

  /** What the arrival of `b` leaves of the buffer: the blocks below it, and `b`. */
  lemma Displaced(waiting: seq<Block>, b: Block, kept: seq<Block>)
    requires DaaOrder(waiting) && OneDaa(waiting, b) && kept == waiting[..Lower(waiting, b.daa)]
    ensures (ByDaa(waiting) - Conflicts(ByDaa(waiting), b))[b.daa := b] == ByDaa(kept)[b.daa := b]
    ensures Conflicts(ByDaa(kept), b) == {}
  {
    KeptBelow(waiting, b, kept);
    BelowKept(waiting, b, kept);
    OthersConflict(waiting, b, ByDaa(waiting));
    OnlyLow(ByDaa(waiting), ByDaa(kept), b);
  }

  lemma OnlyLow(m: map<int, Block>, low: map<int, Block>, b: Block)
    requires forall k :: k in low ==> k < b.daa && k in m && low[k] == m[k]
    requires forall k :: k in m && k < b.daa ==> k in low
    requires forall k :: k in m && b.daa <= k && k !in Conflicts(m, b) ==> k == b.daa
    ensures (m - Conflicts(m, b))[b.daa := b] == low[b.daa := b] && Conflicts(low, b) == {}
  {
    var left, right := (m - Conflicts(m, b))[b.daa := b], low[b.daa := b];
    forall k ensures k in left <==> k in right {
      assert k in m && k !in Conflicts(m, b) && k != b.daa ==> k < b.daa;
    }
    forall k | k in left ensures left[k] == right[k] {
      assert k != b.daa ==> k in low;
    }
  }

  lemma BelowKept(waiting: seq<Block>, b: Block, kept: seq<Block>)
    requires DaaOrder(waiting) && kept == waiting[..Lower(waiting, b.daa)]
    ensures forall k :: k in ByDaa(waiting) && k < b.daa ==> k in ByDaa(kept)
  {
    forall k | k in ByDaa(waiting) && k < b.daa ensures k in ByDaa(kept) {
      var i := ByDaaOnly(waiting, k);
      LowerIs(waiting, b.daa, i);
      ByDaaHolds(kept, i);
    }
  }

  lemma OthersConflict(waiting: seq<Block>, b: Block, m: map<int, Block>)
    requires DaaOrder(waiting) && OneDaa(waiting, b) && m == ByDaa(waiting)
    ensures forall k :: k in m && b.daa <= k && k !in Conflicts(m, b) ==> k == b.daa
  {
    forall k | k in m && b.daa <= k && k !in Conflicts(m, b) ensures k == b.daa {
      var i := ByDaaOnly(waiting, k);
      ByDaaHolds(waiting, i);
    }
  }

  lemma KeptBelow(waiting: seq<Block>, b: Block, kept: seq<Block>)
    requires DaaOrder(waiting) && kept == waiting[..Lower(waiting, b.daa)]
    ensures DaaOrder(kept)
    ensures forall k :: k in ByDaa(kept) ==> k < b.daa && k in ByDaa(waiting) && ByDaa(kept)[k] == ByDaa(waiting)[k]
  {
    forall k | k in ByDaa(kept) ensures k < b.daa && k in ByDaa(waiting) && ByDaa(kept)[k] == ByDaa(waiting)[k] {
      var i := ByDaaOnly(kept, k);
      LowerIs(waiting, b.daa, i);
      ByDaaHolds(kept, i);
      ByDaaHolds(waiting, i);
    }
  }

  lemma SamePool(depth: Option<u64>, committed: map<int, Block>, m: map<int, Block>, low: map<int, Block>, b: Block)
    requires (m - Conflicts(m, b))[b.daa := b] == low[b.daa := b] && Conflicts(low, b) == {}
    ensures BlockStep(depth, View(committed, m), b).out.writes == BlockStep(depth, View(committed, low), b).out.writes
    ensures b.daa !in committed ==>
      BlockStep(depth, View(committed, m), b).next == BlockStep(depth, View(committed, low), b).next
  {
    assert low - {} == low;
    assert Buffered(depth, m, b) == Buffered(depth, low, b);
  }

  /** A block above everything committed, wherever it meets the buffer: what it
      conflicts with is gone, and the rest with it settles as at the tip. */
  lemma DisplacingStep(depth: Option<u64>, done: seq<Block>, waiting: seq<Block>, b: Block, kept: seq<Block>)
    requires InOrder(done + waiting) && OneDaa(waiting, b) && kept == waiting[..Lower(waiting, b.daa)]
    requires InOrder((done + kept) + [b])
    ensures var s, w, cutoff := BlockStep(depth, Split(done, waiting), b), kept + [b], Cutoff(depth, b.daa);
      s.next == Split(done + Ripe(w, cutoff), Unripe(w, cutoff)) && s.out.writes == Finalized(Ripe(w, cutoff))
  {
    PartsOrder(done, waiting);
    InitInOrder(done + kept, [b], 0);
    assert done + kept + [b][..0] == done + kept;
    SplitOrder(done, kept, b);
    Displaced(waiting, b, kept);
    BeyondTip(done, kept, b);
    SamePool(depth, ByDaa(Finalized(done)), ByDaa(waiting), ByDaa(kept), b);
    TipStep(depth, done, kept, b);
  }
}
