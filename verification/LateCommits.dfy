/** Blocks committed below a DAA that is committed already: a gap filled late, a late
    finalised block, a fresh lower DAA after a restart. The hash chain follows the order
    of the commits, and its rows are read in DAA order: when a verifier accepts them. */
module LateCommits {
  import opened Prelude
  import opened Poi
  import opened Blocks
  import opened Ingestion
  import opened ChainWindow
  import opened Tables
  import opened Persist
  import opened Chains
  import opened ReplayTheorems

  /** The commits' indices, by rising DAA. */
  ghost predicate Sorts(order: seq<nat>, cs: seq<Block>) {
    && |order| == |cs| && (forall j :: 0 <= j < |cs| ==> order[j] < |cs|)
    && forall i, j :: 0 <= i < j < |cs| ==> cs[order[i]].daa < cs[order[j]].daa
  }

  /** How many of the sorted commits lie below a DAA. */
  lemma {:induction false} BelowCount(order: seq<nat>, cs: seq<Block>, d: int, m: nat) returns (k: nat)
    requires Sorts(order, cs) && m <= |cs|
    ensures k <= m && (forall j :: 0 <= j < k ==> cs[order[j]].daa < d)
    ensures k < m ==> cs[order[k]].daa >= d
    decreases m
  {
    k := m;
    if m > 0 {
      k := BelowCount(order, cs, d, m - 1);
      if k == m - 1 && cs[order[k]].daa < d {
        k := m;
      }
    }
  }

  lemma Inserted(order: seq<nat>, shorter: seq<Block>, cs: seq<Block>, k: nat)
    requires |cs| == |shorter| + 1 && shorter == cs[..|shorter|] && Sorts(order, shorter) && k <= |shorter|
    requires forall j :: 0 <= j < |shorter| ==> (shorter[order[j]].daa < cs[|shorter|].daa <==> j < k)
    requires DistinctDaas(cs)
    ensures Sorts(order[..k] + [|shorter|] + order[k..], cs)
  {
    var n, longer := |shorter|, order[..k] + [|shorter|] + order[k..];
    forall j | 0 <= j <= n
      ensures longer[j] == (if j < k then order[j] else if j == k then n else order[j - 1]) && longer[j] <= n
    {
    }
    forall i, j | 0 <= i < j <= n ensures cs[longer[i]].daa < cs[longer[j]].daa {
    }
  }

  /** Distinct DAAs can be read in order. */
  lemma {:induction false} OrderExists(cs: seq<Block>) returns (order: seq<nat>)
    requires DistinctDaas(cs)
    ensures Sorts(order, cs)
    decreases |cs|
  {
    if cs == [] {
      order := [];
    } else {
      var n := |cs| - 1;
      order := OrderExists(cs[..n]);
      var k := BelowCount(order, cs[..n], cs[n].daa, n);
      Inserted(order, cs[..n], cs, k);
      order := order[..k] + [n] + order[k..];
    }
  }

  // ----- In order exactly when nothing is late -----

  lemma {:induction false} AtLeast(order: seq<nat>, cs: seq<Block>, j: nat)
    requires Sorts(order, cs) && DaaOrder(cs) && j < |cs|
    ensures j <= order[j]
    decreases j
  {
    if j > 0 {
      AtLeast(order, cs, j - 1);
      assert cs[order[j - 1]].daa < cs[order[j]].daa;
    }
  }

  lemma {:induction false} AtMostIndex(order: seq<nat>, cs: seq<Block>, j: nat)
    requires Sorts(order, cs) && DaaOrder(cs) && j < |cs|
    ensures order[j] <= j
    decreases |cs| - j
  {
    if j < |cs| - 1 {
      AtMostIndex(order, cs, j + 1);
      assert cs[order[j]].daa < cs[order[j + 1]].daa;
    }
  }

  lemma InPlaceIff(order: seq<nat>, cs: seq<Block>)
    requires Sorts(order, cs)
    ensures DaaOrder(cs) <==> forall j :: 0 <= j < |cs| ==> order[j] == j
  {
    if DaaOrder(cs) {
      forall j | 0 <= j < |cs| ensures order[j] == j {
        AtLeast(order, cs, j);
        AtMostIndex(order, cs, j);
      }
    } else if forall j :: 0 <= j < |cs| ==> order[j] == j {
      forall i, j | 0 <= i < j < |cs| ensures cs[i].daa < cs[j].daa {
        assert cs[order[i]].daa < cs[order[j]].daa;
      }
      assert false;
    }
  }

  // ----- What a third party is shown -----

  /** The hashed bytes of the commits, by rising DAA. */
  function Reordered(xs: seq<seq<byte>>, order: seq<nat>): (ys: seq<seq<byte>>)
    requires forall j :: 0 <= j < |order| ==> order[j] < |xs|
    ensures |ys| == |order|
    ensures forall j :: 0 <= j < |order| ==> ys[j] == xs[order[j]]
  {
    seq(|order|, j requires 0 <= j < |order| => xs[order[j]])
  }

  function ShownByDaa(poi: map<int, PoiHash>, cs: seq<Block>, order: seq<nat>, xs: seq<seq<byte>>): (r: seq<Checkpoint>)
    requires Sorts(order, cs) && |xs| == |cs| && forall i :: 0 <= i < |cs| ==> cs[i].daa in poi
    ensures |r| == |cs|
    ensures forall j :: 0 <= j < |cs| ==> r[j] == Checkpoint(xs[order[j]], poi[cs[order[j]].daa])
  {
    seq(|cs|, j requires 0 <= j < |cs| => Checkpoint(xs[order[j]], poi[cs[order[j]].daa]))
  }

  ghost predicate Accepted(hash: HashFn, cps: seq<Checkpoint>) {
    exists p :: Verdict(hash, cps, Ok(Valid(p)))
  }

  lemma AcceptedIff(hash: HashFn, cps: seq<Checkpoint>)
    ensures Accepted(hash, cps) <==> HonestBefore(hash, cps, |cps|)
  {
    if HonestBefore(hash, cps, |cps|) {
      assert Verdict(hash, cps, Ok(Valid(ChainTip(hash, Bytes(cps)))));
    }
  }

  /** Reading `j`: hashing the bytes by DAA gives what hashing them by commit gave. */
  ghost predicate SameTip(hash: HashFn, xs: seq<seq<byte>>, order: seq<nat>, j: nat)
    requires j < |order| && forall i :: 0 <= i < |order| ==> order[i] < |xs|
  {
    ChainTip(hash, Reordered(xs, order)[..j + 1]) == ChainTip(hash, xs[..order[j] + 1])
  }

  lemma RowAt(cfg: Config, cs: seq<Block>, xs: seq<seq<byte>>, i: nat)
    requires DistinctDaas(cs) && xs == Inputs(cfg, cs) && i < |cs|
    ensures cs[i].daa in DbOf(cfg, cs).tables.poi && xs[i] != []
    ensures DbOf(cfg, cs).tables.poi[cs[i].daa] == ChainTip(cfg.hash, xs[..i + 1])
  {
    RowIsTip(cfg, cs, i);
    TipOfPrefix(cfg, cs, i + 1);
  }

  lemma ShownBytes(poi: map<int, PoiHash>, cs: seq<Block>, order: seq<nat>, xs: seq<seq<byte>>)
    requires Sorts(order, cs) && |xs| == |cs| && forall i :: 0 <= i < |cs| ==> cs[i].daa in poi
    ensures Bytes(ShownByDaa(poi, cs, order, xs)) == Reordered(xs, order)
  {
  }

  lemma HonestIs(hash: HashFn, cps: seq<Checkpoint>, ys: seq<seq<byte>>, j: nat, tip: PoiHash)
    requires Bytes(cps) == ys && j < |cps| && cps[j].entityBytes != [] && cps[j].expectedPoi == tip
    ensures HonestAt(hash, cps, j) <==> ChainTip(hash, ys[..j + 1]) == tip
  {
  }

  lemma ShownRow(cfg: Config, cs: seq<Block>, order: seq<nat>, xs: seq<seq<byte>>, poi: map<int, PoiHash>, j: nat)
    requires DistinctDaas(cs) && Sorts(order, cs) && xs == Inputs(cfg, cs) && poi == DbOf(cfg, cs).tables.poi && j < |cs|
    requires forall i :: 0 <= i < |cs| ==> cs[i].daa in poi
    ensures HonestAt(cfg.hash, ShownByDaa(poi, cs, order, xs), j) <==> SameTip(cfg.hash, xs, order, j)
  {
    ShownBytes(poi, cs, order, xs);
    RowAt(cfg, cs, xs, order[j]);
    HonestIs(cfg.hash, ShownByDaa(poi, cs, order, xs), Reordered(xs, order), j, ChainTip(cfg.hash, xs[..order[j] + 1]));
  }

  /** Two prefixes of different lengths, one read by DAA and one hashed by commit. */
  ghost predicate Misplaced(hash: HashFn, xs: seq<seq<byte>>, order: seq<nat>, j: nat)
    requires forall i :: 0 <= i < |order| ==> order[i] < |xs|
  {
    j < |order| && order[j] != j && Broken(hash, Reordered(xs, order)[..j + 1], xs[..order[j] + 1])
  }

  lemma MisplacedIsBroken(hash: HashFn, xs: seq<seq<byte>>, order: seq<nat>, j: nat)
    requires j < |order| && forall i :: 0 <= i < |order| ==> order[i] < |xs|
    requires order[j] != j && SameTip(hash, xs, order, j)
    ensures Misplaced(hash, xs, order, j)
  {
    AnyLengthBinding(hash, Reordered(xs, order)[..j + 1], xs[..order[j] + 1]);
  }

  lemma InOrderShown(cfg: Config, cs: seq<Block>, order: seq<nat>, xs: seq<seq<byte>>, t: Tables)
    requires Sorts(order, cs) && DaaOrder(cs) && xs == Inputs(cfg, cs) && t == DbOf(cfg, cs).tables
    requires forall i :: 0 <= i < |cs| ==> cs[i].daa in t.poi
    ensures Accepted(cfg.hash, ShownByDaa(t.poi, cs, order, xs))
  {
    InPlaceIff(order, cs);
    ChainVerifies(cfg, cs);
    assert ShownByDaa(t.poi, cs, order, xs) == Published(cfg, t, cs);
  }

  lemma AcceptedRows(cfg: Config, cs: seq<Block>, order: seq<nat>, xs: seq<seq<byte>>, poi: map<int, PoiHash>)
    requires DistinctDaas(cs) && Sorts(order, cs) && xs == Inputs(cfg, cs) && poi == DbOf(cfg, cs).tables.poi
    requires forall i :: 0 <= i < |cs| ==> cs[i].daa in poi
    ensures Accepted(cfg.hash, ShownByDaa(poi, cs, order, xs)) <==> forall j :: 0 <= j < |cs| ==> SameTip(cfg.hash, xs, order, j)
  {
    AcceptedIff(cfg.hash, ShownByDaa(poi, cs, order, xs));
    forall j | 0 <= j < |cs|
      ensures HonestAt(cfg.hash, ShownByDaa(poi, cs, order, xs), j) <==> SameTip(cfg.hash, xs, order, j)
    {
      ShownRow(cfg, cs, order, xs, poi, j);
    }
  }

  /** Blocks committed in any order at distinct DAAs. A verifier accepts the rows in DAA
      order if they were committed in it, and otherwise only if the hash is broken. */
  lemma LateCommitsVerify(cfg: Config, cs: seq<Block>, order: seq<nat>, xs: seq<seq<byte>>, poi: map<int, PoiHash>)
    requires DistinctDaas(cs) && Sorts(order, cs) && xs == Inputs(cfg, cs) && poi == DbOf(cfg, cs).tables.poi
    ensures forall i :: 0 <= i < |cs| ==> cs[i].daa in poi
    ensures Accepted(cfg.hash, ShownByDaa(poi, cs, order, xs)) <==> forall j :: 0 <= j < |cs| ==> SameTip(cfg.hash, xs, order, j)
    ensures DaaOrder(cs) ==> Accepted(cfg.hash, ShownByDaa(poi, cs, order, xs))
    ensures !DaaOrder(cs) && Accepted(cfg.hash, ShownByDaa(poi, cs, order, xs)) ==>
      exists j :: Misplaced(cfg.hash, xs, order, j)
  {
    DbOfScores(cfg, cs);
    AcceptedRows(cfg, cs, order, xs, poi);
    if DaaOrder(cs) {
      InOrderShown(cfg, cs, order, xs, DbOf(cfg, cs).tables);
    } else if Accepted(cfg.hash, ShownByDaa(poi, cs, order, xs)) {
      InPlaceIff(order, cs);
      var j :| 0 <= j < |cs| && order[j] != j;
      assert SameTip(cfg.hash, xs, order, j);
      MisplacedIsBroken(cfg.hash, xs, order, j);
    }
  }

  // ----- A node that commits late -----

  lemma ArrivalPersists(cfg: Config, depth: Option<u64>, s: Node, w: IngestedBlock, cs: seq<Block>, ws: seq<Block>)
    requires s.db == DbOf(cfg, cs) && ws == BlockStep(depth, s.view, BlockFromRpc(w)).out.writes
    ensures NodeStep(cfg, depth, s, BlockAdded(w)).db == DbOf(cfg, cs + ws)
  {
    assert NotificationStep(depth, s.view, BlockAdded(w)).out.unwinds == [];
    PersistJoin(cfg, cs, ws);
  }

  lemma LateIsOutOfOrder(cs: seq<Block>, ws: seq<Block>, i: nat, k: nat)
    requires i < |ws| && k < |cs| && ws[i].daa < cs[k].daa
    ensures !DaaOrder(cs + ws)
  {
    assert (cs + ws)[k] == cs[k] && (cs + ws)[|cs| + i] == ws[i];
  }

  /** In whatever state: a block arrives, and something it commits lies below a committed
      DAA. The published rows then verify only if the hash is broken. */
  lemma LateArrivalBreaksChain(cfg: Config, depth: Option<u64>, s: Node, w: IngestedBlock, cs: seq<Block>, ws: seq<Block>,
                               i: nat, k: nat, all: seq<Block>, order: seq<nat>, after: Db)
    requires s.db == DbOf(cfg, cs) && ws == BlockStep(depth, s.view, BlockFromRpc(w)).out.writes && all == cs + ws
    requires after == NodeStep(cfg, depth, s, BlockAdded(w)).db
    requires i < |ws| && k < |cs| && ws[i].daa < cs[k].daa
    requires DistinctDaas(all) && Sorts(order, all)
    ensures forall i :: 0 <= i < |all| ==> all[i].daa in after.tables.poi
    ensures Accepted(cfg.hash, ShownByDaa(after.tables.poi, all, order, Inputs(cfg, all))) ==>
      exists j :: Misplaced(cfg.hash, Inputs(cfg, all), order, j)
  {
    ArrivalPersists(cfg, depth, s, w, cs, ws);
    LateIsOutOfOrder(cs, ws, i, k);
    LateCommitsVerify(cfg, all, order, Inputs(cfg, all), after.tables.poi);
  }
}
