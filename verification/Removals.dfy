/** Committed blocks unwound by hash, in any pattern. The committed rows and POI rows
    of the named blocks go; the rows of all others stay, each still the hash of the
    chain it was committed on. Exactly when the surviving chain then verifies. */
module Removals {
  import opened Prelude
  import opened Poi
  import opened Blocks
  import opened Ingestion
  import opened ChainWindow
  import opened ChainEdits
  import opened Tables
  import opened Persist
  import opened Chains
  import opened Unwinding
  import opened ReplayTheorems

  /** The store once the named blocks have been unwound. */
  function Removed(cfg: Config, bs: seq<Block>, hashes: seq<string>): Db {
    Reorg(cfg, DbOf(cfg, bs), Finalized(Keep(bs, Named(hashes))))
  }

  lemma NothingAdded(depth: Option<u64>, v: View, hashes: seq<string>)
    ensures var out := NotificationStep(depth, v, VirtualChainChanged(hashes, [])).out;
      out.writes == [] && out.unwinds == PickSet(v.committed, Holding(v.committed, hashes))
  {
  }

  /** A node that committed `bs` and hears of the removal has that store. */
  lemma RemovalIsHeard(cfg: Config, depth: Option<u64>, bs: seq<Block>, waiting: seq<Block>, hashes: seq<string>)
    requires DaaOrder(bs) && DaaOrder(waiting)
    ensures NodeStep(cfg, depth, Node(Split(bs, waiting), DbOf(cfg, bs)), VirtualChainChanged(hashes, [])).db
         == Removed(cfg, bs, hashes)
  {
    NamedRemoved(bs, waiting, hashes);
    NothingAdded(depth, Split(bs, waiting), hashes);
  }

  // ----- The rows that stay -----

  lemma NamedHashes(bs: seq<Block>, hashes: seq<string>, i: nat)
    requires i < |bs|
    ensures bs[i].hash in Hashes(Finalized(Keep(bs, Named(hashes)))) <==> bs[i].hash in hashes
  {
    var named := Keep(bs, Named(hashes));
    var ks := Hashes(Finalized(named));
    KeepMembers(bs, Named(hashes), bs[i]);
    if bs[i].hash in hashes {
      var j :| 0 <= j < |named| && named[j] == bs[i];
      assert ks[j] == bs[i].hash;
    } else if bs[i].hash in ks {
      var j :| 0 <= j < |ks| && ks[j] == bs[i].hash;
      KeepMembers(bs, Named(hashes), named[j]);
    }
  }

  /** A row's score is deleted exactly when its own block is named. */
  lemma ScoreNamed(t: Tables, bs: seq<Block>, ks: seq<string>, i: nat)
    requires DaaOrder(bs) && ListsHashes(t.committed, bs) && i < |bs|
    ensures bs[i].daa in Scores(t.committed, ks) <==> bs[i].hash in ks
  {
    if bs[i].daa in Scores(t.committed, ks) {
      var h :| h in t.committed && h in ks && t.committed[h] == bs[i].daa;
      var j :| 0 <= j < |bs| && bs[j].hash == h;
      assert j == i;
    }
  }

  lemma RowsLeft(cfg: Config, bs: seq<Block>, hashes: seq<string>, t: Tables, after: Tables, i: nat)
    requires DaaOrder(bs) && DistinctHashes(bs) && t == DbOf(cfg, bs).tables && after == Removed(cfg, bs, hashes).tables && i < |bs|
    ensures bs[i].daa in after.poi <==> bs[i].hash !in hashes
    ensures bs[i].hash !in hashes ==> after.poi[bs[i].daa] == DbOf(cfg, bs[..i + 1]).prior
  {
    var ks := Hashes(Finalized(Keep(bs, Named(hashes))));
    DbOfHashes(cfg, bs);
    RowIsTip(cfg, bs, i);
    NamedHashes(bs, hashes, i);
    ScoreNamed(t, bs, ks, i);
    RemovedRows(cfg, bs, hashes, t, after, ks);
  }

  lemma RemovedRows(cfg: Config, bs: seq<Block>, hashes: seq<string>, t: Tables, after: Tables, ks: seq<string>)
    requires t == DbOf(cfg, bs).tables && after == Removed(cfg, bs, hashes).tables
    requires ks == Hashes(Finalized(Keep(bs, Named(hashes))))
    ensures after.poi == t.poi - Scores(t.committed, ks)
  {
    UnwoundRows(cfg, t, Finalized(Keep(bs, Named(hashes))));
  }

  lemma UnwoundRows(cfg: Config, t: Tables, unwinds: seq<Block>)
    ensures unwinds != [] ==> Unwind(cfg, t, unwinds).poi == t.poi - Scores(t.committed, Hashes(unwinds))
    ensures unwinds == [] ==> t.poi == t.poi - Scores(t.committed, Hashes(unwinds))
  {
    if unwinds == [] {
      assert Scores(t.committed, Hashes(unwinds)) == {};
    } else {
      assert UnwindCommitted(t, Hashes(unwinds)).poi == t.poi - Scores(t.committed, Hashes(unwinds));
    }
  }

  // ----- Leaving blocks out of a chain of bytes -----

  /** The kept entries of a chain. */
  function LeftOf(xs: seq<seq<byte>>, keep: seq<bool>): seq<seq<byte>>
    requires |keep| == |xs|
  {
    if xs == [] then []
    else
      var n := |xs| - 1;
      LeftOf(xs[..n], keep[..n]) + if keep[n] then [xs[n]] else []
  }

  /** What is then published: each kept entry with the POI of its own full prefix. */
  function Claims(hash: HashFn, xs: seq<seq<byte>>, keep: seq<bool>): seq<Checkpoint>
    requires |keep| == |xs|
  {
    if xs == [] then []
    else
      var n := |xs| - 1;
      Claims(hash, xs[..n], keep[..n]) + if keep[n] then [Checkpoint(xs[n], ChainTip(hash, xs))] else []
  }

  /** Hashing entry `i` on the full prefix and on what is left of it gives one POI. */
  ghost predicate SamePoi(hash: HashFn, xs: seq<seq<byte>>, keep: seq<bool>, i: nat)
    requires |keep| == |xs| && i < |xs|
  {
    hash(ChainTip(hash, xs[..i]) + xs[i]) == hash(ChainTip(hash, LeftOf(xs[..i], keep[..i])) + xs[i])
  }

  ghost predicate SamePois(hash: HashFn, xs: seq<seq<byte>>, keep: seq<bool>)
    requires |keep| == |xs|
  {
    forall i :: 0 <= i < |xs| && keep[i] ==> SamePoi(hash, xs, keep, i)
  }

  lemma {:induction false} ClaimedBytes(hash: HashFn, xs: seq<seq<byte>>, keep: seq<bool>)
    requires |keep| == |xs|
    ensures Bytes(Claims(hash, xs, keep)) == LeftOf(xs, keep)
    decreases |xs|
  {
    if xs != [] {
      ClaimedBytes(hash, xs[..|xs| - 1], keep[..|xs| - 1]);
    }
  }

  ghost predicate Honest(hash: HashFn, cps: seq<Checkpoint>) {
    HonestBefore(hash, cps, |cps|)
  }

  /** A good chain and one more checkpoint: all is honest if and only if that one is. */
  lemma HonestPrefix(hash: HashFn, pub: seq<Checkpoint>, c: Checkpoint)
    ensures HonestBefore(hash, pub + [c], |pub|) <==> HonestBefore(hash, pub, |pub|)
    ensures HonestAt(hash, pub + [c], |pub|) <==>
      c.entityBytes != [] && c.expectedPoi == hash(ChainTip(hash, Bytes(pub)) + c.entityBytes)
  {
    var all := pub + [c];
    forall i | 0 <= i < |pub| ensures HonestAt(hash, all, i) <==> HonestAt(hash, pub, i) {
      assert Bytes(all)[..i + 1] == Bytes(pub)[..i + 1];
    }
    assert HonestBefore(hash, all, |pub|) ==> forall i :: 0 <= i < |pub| ==> HonestAt(hash, all, i);
    ChainTipStep(hash, Bytes(all), |pub|);
    assert Bytes(all)[..|pub|] == Bytes(pub) && Bytes(all)[..|pub| + 1] == Bytes(all);
  }

  lemma HonestMore(hash: HashFn, pub: seq<Checkpoint>, c: Checkpoint)
    requires c.entityBytes != []
    ensures HonestBefore(hash, pub + [c], |pub| + 1) <==>
      HonestBefore(hash, pub, |pub|) && c.expectedPoi == hash(ChainTip(hash, Bytes(pub)) + c.entityBytes)
  {
    var all := pub + [c];
    HonestPrefix(hash, pub, c);
    if HonestBefore(hash, all, |pub|) && HonestAt(hash, all, |pub|) {
      forall i | 0 <= i < |pub| + 1 ensures HonestAt(hash, all, i) {
      }
    }
    assert HonestBefore(hash, all, |pub| + 1) ==> HonestAt(hash, all, |pub|) && HonestBefore(hash, all, |pub|);
  }

  lemma SamePoisInit(hash: HashFn, xs: seq<seq<byte>>, keep: seq<bool>, n: nat)
    requires |keep| == |xs| == n + 1
    ensures SamePois(hash, xs, keep) <==>
      SamePois(hash, xs[..n], keep[..n]) && (keep[n] ==> SamePoi(hash, xs, keep, n))
  {
    forall i | 0 <= i < n ensures SamePoi(hash, xs[..n], keep[..n], i) <==> SamePoi(hash, xs, keep, i) {
      assert xs[..n][..i] == xs[..i] && keep[..n][..i] == keep[..i];
    }
    assert SamePois(hash, xs[..n], keep[..n]) ==> forall i :: 0 <= i < n && keep[..n][i] ==> SamePoi(hash, xs[..n], keep[..n], i);
    assert SamePois(hash, xs, keep) ==> forall i :: 0 <= i < n && keep[i] ==> SamePoi(hash, xs, keep, i);
  }

  lemma HonestStep(hash: HashFn, xs: seq<seq<byte>>, keep: seq<bool>, n: nat)
    requires |keep| == |xs| == n + 1 && xs[n] != []
    ensures Honest(hash, Claims(hash, xs, keep)) <==>
      Honest(hash, Claims(hash, xs[..n], keep[..n])) && (keep[n] ==> SamePoi(hash, xs, keep, n))
  {
    var before := Claims(hash, xs[..n], keep[..n]);
    if keep[n] {
      ClaimedBytes(hash, xs[..n], keep[..n]);
      HonestMore(hash, before, Checkpoint(xs[n], ChainTip(hash, xs)));
    } else {
      assert before + [] == before;
    }
  }

  /** What is left is honest exactly when every pair of hashes coincides. */
  lemma {:induction false} HonestIff(hash: HashFn, xs: seq<seq<byte>>, keep: seq<bool>)
    requires |keep| == |xs| && forall i :: 0 <= i < |xs| ==> xs[i] != []
    ensures Honest(hash, Claims(hash, xs, keep)) <==> SamePois(hash, xs, keep)
    decreases |xs|
  {
    if xs != [] {
      var n := |xs| - 1;
      HonestIff(hash, xs[..n], keep[..n]);
      SamePoisInit(hash, xs, keep, n);
      HonestStep(hash, xs, keep, n);
    }
  }

  lemma ValidIffHonest(hash: HashFn, cps: seq<Checkpoint>, r: Result<Verification, PoiError>)
    requires Verdict(hash, cps, r)
    ensures r.Ok? && r.value.Valid? <==> Honest(hash, cps)
  {
    var i := StopsAt(hash, cps, r);
    if i < |cps| {
      assert !HonestAt(hash, cps, i);
    }
  }

  // ----- What a verifier is shown -----

  /** Which blocks the hashes leave. */
  function Flags(bs: seq<Block>, hashes: seq<string>): (r: seq<bool>)
    ensures |r| == |bs|
    ensures forall i :: 0 <= i < |bs| ==> r[i] == (bs[i].hash !in hashes)
  {
    seq(|bs|, i requires 0 <= i < |bs| => bs[i].hash !in hashes)
  }

  function RowAt(poi: map<int, PoiHash>, daa: int): PoiHash {
    if daa in poi then poi[daa] else GENESIS
  }

  /** The bytes each surviving block contributed when it was committed, with the POI
      row the store holds for it now. */
  function Shown(poi: map<int, PoiHash>, bs: seq<Block>, hashes: seq<string>, inputs: seq<seq<byte>>): seq<Checkpoint>
    requires |inputs| == |bs|
  {
    if bs == [] then []
    else
      var n := |bs| - 1;
      Shown(poi, bs[..n], hashes, inputs[..n])
      + if bs[n].hash in hashes then [] else [Checkpoint(inputs[n], RowAt(poi, bs[n].daa))]
  }

  lemma {:induction false} ShownIsClaimed(hash: HashFn, poi: map<int, PoiHash>, bs: seq<Block>, hashes: seq<string>,
                                          inputs: seq<seq<byte>>)
    requires |inputs| == |bs|
    requires forall i :: 0 <= i < |bs| && bs[i].hash !in hashes ==> RowAt(poi, bs[i].daa) == ChainTip(hash, inputs[..i + 1])
    ensures Shown(poi, bs, hashes, inputs) == Claims(hash, inputs, Flags(bs, hashes))
    decreases |bs|
  {
    if bs != [] {
      var n := |bs| - 1;
      forall i | 0 <= i < n && bs[..n][i].hash !in hashes
        ensures RowAt(poi, bs[..n][i].daa) == ChainTip(hash, inputs[..n][..i + 1])
      {
        assert inputs[..n][..i + 1] == inputs[..i + 1];
      }
      ShownIsClaimed(hash, poi, bs[..n], hashes, inputs[..n]);
      assert Flags(bs, hashes)[..n] == Flags(bs[..n], hashes);
      assert inputs[..n + 1] == inputs;
    }
  }

  /** Any chain, any set of removed hashes: the surviving checkpoints verify if
      and only if, at every survivor, hashing its bytes on the full prefix and on the
      surviving prefix gives the same POI. */
  lemma RemovalKeepsChainIff(cfg: Config, bs: seq<Block>, hashes: seq<string>, inputs: seq<seq<byte>>,
                             poi: map<int, PoiHash>, r: Result<Verification, PoiError>)
    requires DaaOrder(bs) && DistinctHashes(bs) && inputs == Inputs(cfg, bs) && poi == Removed(cfg, bs, hashes).tables.poi
    requires Verdict(cfg.hash, Shown(poi, bs, hashes, inputs), r)
    ensures r.Ok? && r.value.Valid? <==> SamePois(cfg.hash, inputs, Flags(bs, hashes))
  {
    forall i | 0 <= i < |bs| && bs[i].hash !in hashes
      ensures RowAt(poi, bs[i].daa) == ChainTip(cfg.hash, inputs[..i + 1])
    {
      RowsLeft(cfg, bs, hashes, DbOf(cfg, bs).tables, Removed(cfg, bs, hashes).tables, i);
      TipOfPrefix(cfg, bs, i + 1);
    }
    ShownIsClaimed(cfg.hash, poi, bs, hashes, inputs);
    HonestIff(cfg.hash, inputs, Flags(bs, hashes));
    ValidIffHonest(cfg.hash, Shown(poi, bs, hashes, inputs), r);
  }

  // ----- Suffixes, and nothing else short of a broken hash -----

  /** Two prefixes of the chain give a later entry one POI. */
  ghost predicate Twice(hash: HashFn, xs: seq<seq<byte>>, m: nat, i: nat) {
    m < i < |xs| && hash(ChainTip(hash, xs[..m]) + xs[i]) == hash(ChainTip(hash, xs[..i]) + xs[i])
  }

  lemma {:induction false} AllLeft(xs: seq<seq<byte>>, keep: seq<bool>)
    requires |keep| == |xs| && forall i :: 0 <= i < |xs| ==> keep[i]
    ensures LeftOf(xs, keep) == xs
    decreases |xs|
  {
    if xs != [] {
      AllLeft(xs[..|xs| - 1], keep[..|xs| - 1]);
    }
  }

  lemma {:induction false} PrefixLeft(xs: seq<seq<byte>>, keep: seq<bool>, m: nat)
    requires |keep| == |xs| && m <= |xs| && forall i :: 0 <= i < |xs| ==> (keep[i] <==> i < m)
    ensures LeftOf(xs, keep) == xs[..m]
    decreases |xs|
  {
    if m == |xs| {
      AllLeft(xs, keep);
      assert xs[..m] == xs;
    } else {
      var n := |xs| - 1;
      PrefixLeft(xs[..n], keep[..n], m);
      assert xs[..n][..m] == xs[..m];
    }
  }

  /** How many leading entries are kept. */
  function Untouched(keep: seq<bool>): (m: nat)
    ensures m <= |keep| && (m < |keep| ==> !keep[m])
    ensures forall i :: 0 <= i < m ==> keep[i]
  {
    if keep == [] || !keep[0] then 0 else 1 + Untouched(keep[1..])
  }

  ghost predicate OnlyPrefix(keep: seq<bool>) {
    forall i :: Untouched(keep) <= i < |keep| ==> !keep[i]
  }

  /** The first kept entry above one that is not. */
  lemma {:induction false} FirstAbove(keep: seq<bool>, m: nat, k: nat) returns (i: nat)
    requires m < k < |keep| && !keep[m] && keep[k]
    ensures m < i < |keep| && keep[i] && forall j :: m <= j < i ==> !keep[j]
    decreases k
  {
    if forall j :: m <= j < k ==> !keep[j] {
      i := k;
    } else {
      var j :| m <= j < k && keep[j];
      i := FirstAbove(keep, m, j);
    }
  }

  lemma SurvivorOnHole(hash: HashFn, xs: seq<seq<byte>>, keep: seq<bool>, m: nat, i: nat)
    requires |keep| == |xs| && m < i < |xs|
    requires (forall j :: 0 <= j < m ==> keep[j]) && forall j :: m <= j < i ==> !keep[j]
    ensures SamePoi(hash, xs, keep, i) <==> Twice(hash, xs, m, i)
  {
    PrefixLeft(xs[..i], keep[..i], m);
    assert xs[..i][..m] == xs[..m];
  }

  lemma PrefixIsSame(hash: HashFn, xs: seq<seq<byte>>, keep: seq<bool>)
    requires |keep| == |xs| && OnlyPrefix(keep)
    ensures SamePois(hash, xs, keep)
  {
    forall i | 0 <= i < |xs| && keep[i] ensures SamePoi(hash, xs, keep, i) {
      AllLeft(xs[..i], keep[..i]);
    }
  }

  /** A removal that names a suffix keeps the chain; any other keeps it only if two
      prefixes of the chain give some later block one POI. */
  lemma OnlySuffixesKeepChain(cfg: Config, bs: seq<Block>, hashes: seq<string>, inputs: seq<seq<byte>>,
                              poi: map<int, PoiHash>, r: Result<Verification, PoiError>)
    requires DaaOrder(bs) && DistinctHashes(bs) && inputs == Inputs(cfg, bs) && poi == Removed(cfg, bs, hashes).tables.poi
    requires Verdict(cfg.hash, Shown(poi, bs, hashes, inputs), r)
    ensures OnlyPrefix(Flags(bs, hashes)) ==> r.Ok? && r.value.Valid?
    ensures r.Ok? && r.value.Valid? ==>
      OnlyPrefix(Flags(bs, hashes)) || exists i :: Twice(cfg.hash, inputs, Untouched(Flags(bs, hashes)), i)
  {
    var keep := Flags(bs, hashes);
    RemovalKeepsChainIff(cfg, bs, hashes, inputs, poi, r);
    if OnlyPrefix(keep) {
      PrefixIsSame(cfg.hash, inputs, keep);
    } else if SamePois(cfg.hash, inputs, keep) {
      HoleIsTwice(cfg.hash, inputs, keep);
    }
  }

  lemma HoleIsTwice(hash: HashFn, xs: seq<seq<byte>>, keep: seq<bool>)
    requires |keep| == |xs| && !OnlyPrefix(keep) && SamePois(hash, xs, keep)
    ensures exists i :: Twice(hash, xs, Untouched(keep), i)
  {
    var m := Untouched(keep);
    var k :| m <= k < |keep| && keep[k];
    var i := FirstAbove(keep, m, k);
    SurvivorOnHole(hash, xs, keep, m, i);
    assert SamePoi(hash, xs, keep, i);
    assert Twice(hash, xs, m, i);
  }

  /** And that exhibits a broken hash: two inputs with one hash, or an input that
      hashes to the empty chain's anchor. */
  lemma TwiceIsBroken(hash: HashFn, xs: seq<seq<byte>>, m: nat, i: nat)
    requires Twice(hash, xs, m, i)
    ensures var x, y := ChainTip(hash, xs[..m]) + xs[i], ChainTip(hash, xs[..i]) + xs[i];
      (x != y && hash(x) == hash(y)) || Broken(hash, xs[..m], xs[..i])
  {
    var p, q := ChainTip(hash, xs[..m]), ChainTip(hash, xs[..i]);
    if p == q {
      AnyLengthBinding(hash, xs[..m], xs[..i]);
    } else if p + xs[i] == q + xs[i] {
      SameInput(p, xs[i], q, xs[i]);
    }
  }
}
