/** The proof-of-indexing hash chain (crates/kasgraph-poi/src/lib.rs).
    BLAKE2b-256 is a library call: it is a parameter of type `HashFn`, and
    every statement holds whatever function it is. */
module Poi {
  import opened Prelude

  type PoiHash = s: seq<byte> | |s| == 32 witness seq(32, _ => 0)
  type HashFn = seq<byte> -> PoiHash

  /** `[0u8; 32]`, the anchor before any block. */
  const GENESIS: PoiHash :=
    [0, 0, 0, 0, 0, 0, 0, 0, 0, 0, 0, 0, 0, 0, 0, 0, 0, 0, 0, 0, 0, 0, 0, 0, 0, 0, 0, 0, 0, 0, 0, 0]

  datatype PoiError = EmptyEntityBytes

  datatype Checkpoint = Checkpoint(entityBytes: seq<byte>, expectedPoi: PoiHash)

  datatype Verification =
    | Valid(finalPoi: PoiHash)
    | Diverged(index: nat, expected: PoiHash, recomputed: PoiHash)

  function ComputePoi(hash: HashFn, prior: PoiHash, entityBytes: seq<byte>): Result<PoiHash, PoiError> {
    if entityBytes == [] then Err(EmptyEntityBytes) else Ok(hash(prior + entityBytes))
  }

  /** The POI an honest indexer holds after committing blocks with these bytes. */
  function ChainTip(hash: HashFn, blocks: seq<seq<byte>>): PoiHash {
    if blocks == [] then GENESIS
    else hash(ChainTip(hash, blocks[..|blocks| - 1]) + blocks[|blocks| - 1])
  }

  function Bytes(cps: seq<Checkpoint>): (bs: seq<seq<byte>>)
    ensures |bs| == |cps|
    ensures forall i :: 0 <= i < |cps| ==> bs[i] == cps[i].entityBytes
  {
    seq(|cps|, i requires 0 <= i < |cps| => cps[i].entityBytes)
  }

  /** Block `i` is published as honest recomputation from genesis gives it. */
  ghost predicate HonestAt(hash: HashFn, cps: seq<Checkpoint>, i: nat) {
    && i < |cps|
    && cps[i].entityBytes != []
    && cps[i].expectedPoi == ChainTip(hash, Bytes(cps)[..i + 1])
  }

  lemma ChainTipStep(hash: HashFn, blocks: seq<seq<byte>>, i: nat)
    requires i < |blocks|
    ensures ChainTip(hash, blocks[..i + 1]) == hash(ChainTip(hash, blocks[..i]) + blocks[i])
  {
    assert blocks[..i + 1][..i] == blocks[..i];
  }

  /** Honest recomputation agrees with every block before `n`. */
  ghost predicate HonestBefore(hash: HashFn, cps: seq<Checkpoint>, n: nat)
    requires n <= |cps|
  {
    forall i :: 0 <= i < n ==> HonestAt(hash, cps, i)
  }

  /** What a replay must report: the first block at which it cannot go on, if any. */
  ghost predicate Verdict(hash: HashFn, cps: seq<Checkpoint>, r: Result<Verification, PoiError>) {
    match r
    case Ok(Valid(p)) => HonestBefore(hash, cps, |cps|) && p == ChainTip(hash, Bytes(cps))
    case Ok(Diverged(i, expected, recomputed)) =>
      && i < |cps| && HonestBefore(hash, cps, i)
      && cps[i].entityBytes != [] && expected == cps[i].expectedPoi
      && recomputed == ChainTip(hash, Bytes(cps)[..i + 1]) && expected != recomputed
    case Err(EmptyEntityBytes) =>
      exists i :: 0 <= i < |cps| && HonestBefore(hash, cps, i) && cps[i].entityBytes == []
  }

  /** The third party's replay: its verdict names the first block whose
      published POI differs from honest recomputation. */
  method VerifyPoiChain(hash: HashFn, cps: seq<Checkpoint>) returns (r: Result<Verification, PoiError>)
    ensures Verdict(hash, cps, r)
  {
    var prior := GENESIS;
    var index := 0;
    ghost var bytes := Bytes(cps);
    while index < |cps|
      invariant 0 <= index <= |cps|
      invariant prior == ChainTip(hash, bytes[..index])
      invariant HonestBefore(hash, cps, index)
    {
      var recomputed := ComputePoi(hash, prior, cps[index].entityBytes);
      if recomputed.Err? {
        assert cps[index].entityBytes == [];
        return Err(recomputed.error);
      }
      ChainTipStep(hash, bytes, index);
      if recomputed.value != cps[index].expectedPoi {
        return Ok(Diverged(index, cps[index].expectedPoi, recomputed.value));
      }
      assert HonestAt(hash, cps, index);
      prior := recomputed.value;
      index := index + 1;
    }
    assert bytes[..|cps|] == bytes;
    return Ok(Valid(prior));
  }

  /** A chain has one verdict only, so `Verdict` pins the result down. */
  lemma VerdictUnique(hash: HashFn, cps: seq<Checkpoint>,
                      r: Result<Verification, PoiError>, s: Result<Verification, PoiError>)
    requires Verdict(hash, cps, r) && Verdict(hash, cps, s)
    ensures r == s
  {
    var i := StopsAt(hash, cps, r);
    var j := StopsAt(hash, cps, s);
    assert i < j ==> HonestAt(hash, cps, i);
    assert j < i ==> HonestAt(hash, cps, j);
    if r.Err? {
      assert r.error.EmptyEntityBytes? && s.error.EmptyEntityBytes?;
    }
  }

  lemma StopsAt(hash: HashFn, cps: seq<Checkpoint>, r: Result<Verification, PoiError>) returns (i: nat)
    requires Verdict(hash, cps, r)
    ensures i <= |cps| && HonestBefore(hash, cps, i)
    ensures i < |cps| ==> !HonestAt(hash, cps, i)
    ensures i == |cps| <==> r.Ok? && r.value.Valid?
    ensures r.Ok? && r.value.Diverged? ==> i == r.value.index && cps[i].entityBytes != []
    ensures r.Err? ==> i < |cps| && cps[i].entityBytes == []
  {
    match r
    case Ok(Valid(p)) => i := |cps|;
    case Ok(Diverged(n, _, _)) => i := n;
    case Err(_) =>
      i :| 0 <= i < |cps| && HonestBefore(hash, cps, i) && cps[i].entityBytes == [];
  }

  /** What is hashed at block `i` of a chain. */
  function HashInput(hash: HashFn, blocks: seq<seq<byte>>, i: nat): seq<byte>
    requires i < |blocks|
  {
    ChainTip(hash, blocks[..i]) + blocks[i]
  }

  /** The two chains exhibit a hash collision: different inputs at block `i`, one hash. */
  ghost predicate CollideAt(hash: HashFn, xs: seq<seq<byte>>, ys: seq<seq<byte>>, i: nat) {
    && i < |xs| && i < |ys|
    && HashInput(hash, xs, i) != HashInput(hash, ys, i)
    && hash(HashInput(hash, xs, i)) == hash(HashInput(hash, ys, i))
  }

  lemma SameInput(p: PoiHash, x: seq<byte>, q: PoiHash, y: seq<byte>)
    requires p + x == q + y
    ensures p == q && x == y
  {
    assert p == (p + x)[..32] && x == (p + x)[32..];
    assert q == (q + y)[..32] && y == (q + y)[32..];
  }

  lemma CollideLater(hash: HashFn, xs: seq<seq<byte>>, ys: seq<seq<byte>>, n: nat, i: nat)
    requires n <= |xs| && n <= |ys| && CollideAt(hash, xs[..n], ys[..n], i)
    ensures CollideAt(hash, xs, ys, i)
  {
    assert xs[..n][..i] == xs[..i] && ys[..n][..i] == ys[..i];
  }

  /** A final POI binds every block's bytes, unless these very chains exhibit a
      hash collision. */
  lemma {:induction false} ChainBinding(hash: HashFn, xs: seq<seq<byte>>, ys: seq<seq<byte>>)
    requires |xs| == |ys|
    requires ChainTip(hash, xs) == ChainTip(hash, ys)
    ensures xs == ys || exists i :: CollideAt(hash, xs, ys, i)
    decreases |xs|
  {
    if xs != [] {
      var n := |xs| - 1;
      if HashInput(hash, xs, n) != HashInput(hash, ys, n) {
        assert CollideAt(hash, xs, ys, n);
      } else {
        SameInput(ChainTip(hash, xs[..n]), xs[n], ChainTip(hash, ys[..n]), ys[n]);
        ChainBinding(hash, xs[..n], ys[..n]);
        if xs[..n] != ys[..n] {
          var i :| CollideAt(hash, xs[..n], ys[..n], i);
          CollideLater(hash, xs, ys, n, i);
        } else {
          assert xs == xs[..n] + [xs[n]] && ys == ys[..n] + [ys[n]];
        }
      }
    }
  }

  /** The same for two published chains a verifier accepts. */
  lemma PublishedChainBinding(hash: HashFn, xs: seq<Checkpoint>, ys: seq<Checkpoint>)
    requires |xs| == |ys| > 0
    requires forall i :: 0 <= i < |xs| ==> HonestAt(hash, xs, i) && HonestAt(hash, ys, i)
    requires xs[|xs| - 1].expectedPoi == ys[|ys| - 1].expectedPoi
    ensures xs == ys || exists i :: CollideAt(hash, Bytes(xs), Bytes(ys), i)
  {
    var n := |xs|;
    assert HonestAt(hash, xs, n - 1) && HonestAt(hash, ys, n - 1);
    assert Bytes(xs)[..n] == Bytes(xs) && Bytes(ys)[..n] == Bytes(ys);
    ChainBinding(hash, Bytes(xs), Bytes(ys));
    if Bytes(xs) == Bytes(ys) {
      forall i | 0 <= i < n ensures xs[i] == ys[i] {
        assert HonestAt(hash, xs, i) && HonestAt(hash, ys, i);
        assert Bytes(xs)[i] == Bytes(ys)[i];
      }
    }
  }

  // ----- Chains of any two lengths -----

  /** The same, counted from the ends of two chains. */
  ghost predicate CollideBack(hash: HashFn, xs: seq<seq<byte>>, ys: seq<seq<byte>>, k: nat) {
    && k < |xs| && k < |ys|
    && HashInput(hash, xs, |xs| - 1 - k) != HashInput(hash, ys, |ys| - 1 - k)
    && hash(HashInput(hash, xs, |xs| - 1 - k)) == hash(HashInput(hash, ys, |ys| - 1 - k))
  }

  /** Block `i` of the chain hashes to the anchor of the empty chain. */
  ghost predicate HitsGenesis(hash: HashFn, xs: seq<seq<byte>>, i: nat) {
    i < |xs| && hash(HashInput(hash, xs, i)) == GENESIS
  }

  ghost predicate Broken(hash: HashFn, xs: seq<seq<byte>>, ys: seq<seq<byte>>) {
    || (exists k: nat :: CollideBack(hash, xs, ys, k))
    || (exists i: nat :: HitsGenesis(hash, xs, i))
    || (exists i: nat :: HitsGenesis(hash, ys, i))
  }

  lemma CollideLonger(hash: HashFn, xs: seq<seq<byte>>, ys: seq<seq<byte>>, m: nat, n: nat, k: nat)
    requires |xs| == m + 1 && |ys| == n + 1 && CollideBack(hash, xs[..m], ys[..n], k)
    ensures CollideBack(hash, xs, ys, k + 1)
  {
    assert xs[..m][..m - 1 - k] == xs[..m - 1 - k];
    assert ys[..n][..n - 1 - k] == ys[..n - 1 - k];
  }

  lemma HitsLonger(hash: HashFn, xs: seq<seq<byte>>, m: nat, i: nat)
    requires m <= |xs| && HitsGenesis(hash, xs[..m], i)
    ensures HitsGenesis(hash, xs, i)
  {
    assert xs[..m][..i] == xs[..i];
  }

  lemma BrokenLonger(hash: HashFn, xs: seq<seq<byte>>, ys: seq<seq<byte>>, m: nat, n: nat)
    requires |xs| == m + 1 && |ys| == n + 1 && Broken(hash, xs[..m], ys[..n])
    ensures Broken(hash, xs, ys)
  {
    if k: nat :| CollideBack(hash, xs[..m], ys[..n], k) {
      CollideLonger(hash, xs, ys, m, n, k);
    } else if i: nat :| HitsGenesis(hash, xs[..m], i) {
      HitsLonger(hash, xs, m, i);
    } else {
      var i: nat :| HitsGenesis(hash, ys[..n], i);
      HitsLonger(hash, ys, n, i);
    }
  }

  /** One final POI, two chains of whatever lengths: they are the same chain, or they
      exhibit a collision, or a block that hashes to the empty chain's anchor. */
  lemma {:induction false} AnyLengthBinding(hash: HashFn, xs: seq<seq<byte>>, ys: seq<seq<byte>>)
    requires ChainTip(hash, xs) == ChainTip(hash, ys)
    ensures xs == ys || Broken(hash, xs, ys)
    decreases |xs|
  {
    if xs == [] && ys != [] {
      assert HitsGenesis(hash, ys, |ys| - 1);
    } else if ys == [] && xs != [] {
      assert HitsGenesis(hash, xs, |xs| - 1);
    } else if xs != [] {
      var m, n := |xs| - 1, |ys| - 1;
      if HashInput(hash, xs, m) != HashInput(hash, ys, n) {
        assert CollideBack(hash, xs, ys, 0);
      } else {
        SameInput(ChainTip(hash, xs[..m]), xs[m], ChainTip(hash, ys[..n]), ys[n]);
        AnyLengthBinding(hash, xs[..m], ys[..n]);
        if xs[..m] == ys[..n] {
          assert xs == xs[..m] + [xs[m]] && ys == ys[..n] + [ys[n]];
        } else {
          BrokenLonger(hash, xs, ys, m, n);
        }
      }
    }
  }
}
