/** The ingestion state seen through the chain it follows: a list of blocks in
    DAA order, of which a prefix is committed and the rest is buffered. */
module ChainWindow {
  import opened Prelude
  import opened OrderedKeys
  import opened Blocks
  import opened Ingestion

  ghost predicate DaaOrder(bs: seq<Block>) {
    forall i, j :: 0 <= i < j < |bs| ==> bs[i].daa < bs[j].daa
  }

  /** Blocks in strictly increasing positive DAA order, unfinalised on the wire. */
  ghost predicate InOrder(bs: seq<Block>) {
    DaaOrder(bs) && forall i :: 0 <= i < |bs| ==> 0 < bs[i].daa && !bs[i].isFinalized
  }

  function Finalized(bs: seq<Block>): (r: seq<Block>)
    ensures |r| == |bs|
    ensures forall i :: 0 <= i < |bs| ==> r[i] == Finalize(bs[i])
  {
    seq(|bs|, i requires 0 <= i < |bs| => Finalize(bs[i]))
  }

  function ByDaa(bs: seq<Block>): map<int, Block> {
    if bs == [] then map[]
    else ByDaa(bs[..|bs| - 1])[bs[|bs| - 1].daa := bs[|bs| - 1]]
  }

  /** The view of a chain whose first part is committed and whose rest waits. */
  function Split(done: seq<Block>, waiting: seq<Block>): View {
    View(ByDaa(Finalized(done)), ByDaa(waiting))
  }

  /** How many leading blocks lie at or below the cutoff. */
  function Settled(bs: seq<Block>, cutoff: Option<i64>): (n: nat)
    ensures n <= |bs|
  {
    if bs == [] || cutoff.None? || bs[0].daa > cutoff.value then 0
    else 1 + Settled(bs[1..], cutoff)
  }

  /** The leading blocks at or below the cutoff, and the rest. */
  function Ripe(bs: seq<Block>, cutoff: Option<i64>): seq<Block> { bs[..Settled(bs, cutoff)] }

  function Unripe(bs: seq<Block>, cutoff: Option<i64>): seq<Block> { bs[Settled(bs, cutoff)..] }

  /** The step that commits `gained` in order, rolling nothing back. */
  function Commits(done: seq<Block>, gained: seq<Block>, left: seq<Block>): Step {
    Step(Split(done + gained, left), Transition(Finalized(gained), [], [], None))
  }

  lemma {:induction false} SettledIs(bs: seq<Block>, cutoff: Option<i64>, i: nat)
    requires DaaOrder(bs) && i < |bs|
    ensures i < Settled(bs, cutoff) <==> cutoff.Some? && bs[i].daa <= cutoff.value
  {
    if i > 0 {
      SettledIs(bs[1..], cutoff, i - 1);
    }
  }

  lemma {:induction false} ByDaaHolds(bs: seq<Block>, i: nat)
    requires DaaOrder(bs) && i < |bs|
    ensures bs[i].daa in ByDaa(bs) && ByDaa(bs)[bs[i].daa] == bs[i]
    decreases |bs|
  {
    if i < |bs| - 1 {
      ByDaaHolds(bs[..|bs| - 1], i);
    }
  }

  lemma {:induction false} ByDaaOnly(bs: seq<Block>, x: int) returns (i: nat)
    requires x in ByDaa(bs)
    ensures i < |bs| && bs[i].daa == x
    decreases |bs|
  {
    if x == bs[|bs| - 1].daa {
      i := |bs| - 1;
    } else {
      i := ByDaaOnly(bs[..|bs| - 1], x);
    }
  }

  ghost predicate Represents(m: map<int, Block>, bs: seq<Block>) {
    && (forall i :: 0 <= i < |bs| ==> bs[i].daa in m && m[bs[i].daa] == bs[i])
    && (forall x :: x in m ==> exists i :: 0 <= i < |bs| && bs[i].daa == x)
  }

  lemma ByDaaRepresents(bs: seq<Block>)
    requires DaaOrder(bs)
    ensures Represents(ByDaa(bs), bs)
  {
    forall i | 0 <= i < |bs| ensures bs[i].daa in ByDaa(bs) && ByDaa(bs)[bs[i].daa] == bs[i] {
      ByDaaHolds(bs, i);
    }
    forall x | x in ByDaa(bs) ensures exists i :: 0 <= i < |bs| && bs[i].daa == x {
      var i := ByDaaOnly(bs, x);
    }
  }

  /** Only one map holds exactly these blocks at their DAAs. */
  lemma OnlyByDaa(m: map<int, Block>, bs: seq<Block>)
    requires DaaOrder(bs) && Represents(m, bs)
    ensures m == ByDaa(bs)
  {
    ByDaaRepresents(bs);
    var r := ByDaa(bs);
    forall x | x in m ensures x in r && m[x] == r[x] {
      var i :| 0 <= i < |bs| && bs[i].daa == x;
    }
    forall x | x in r ensures x in m {
      var i :| 0 <= i < |bs| && bs[i].daa == x;
    }
  }

  function Daas(bs: seq<Block>): (r: seq<int>)
    ensures |r| == |bs|
    ensures forall i :: 0 <= i < |bs| ==> r[i] == bs[i].daa
  {
    seq(|bs|, i requires 0 <= i < |bs| => bs[i].daa)
  }

  /** Picking the whole of such a map lists the blocks in chain order. */
  lemma PickAll(m: map<int, Block>, s: set<int>, bs: seq<Block>)
    requires DaaOrder(bs) && s <= m.Keys
    requires forall i :: 0 <= i < |bs| ==> bs[i].daa in s && m[bs[i].daa] == bs[i]
    requires forall x :: x in s ==> exists i :: 0 <= i < |bs| && bs[i].daa == x
    ensures PickSet(m, s) == bs
  {
    var ks := Daas(bs);
    forall k ensures k in ks <==> k in s {
      if k in s {
        var i :| 0 <= i < |bs| && bs[i].daa == k;
        assert ks[i] == k;
      }
    }
    AscendingUnique(ks, s);
    assert Pick(m, ks) == bs;
  }

  // ----- A block arrives at the tip -----

  function UpTo(s: set<int>, c: int): set<int> {
    set x | x in s && x <= c
  }

  lemma TopOf(s: set<int>, c: int)
    requires forall x :: x in s ==> 0 < x
    ensures UpTo(s, if UpTo(s, c) == {} then 0 else Largest(UpTo(s, c))) == UpTo(s, c)
  {
  }

  lemma FinalsAre(bs: seq<Block>, cutoff: i64)
    requires InOrder(bs)
    ensures Finals(MarkAll(ByDaa(bs), Some(cutoff))) == UpTo(ByDaa(bs).Keys, cutoff)
    ensures forall x :: x in ByDaa(bs) ==> 0 < x
  {
    ByDaaRepresents(bs);
    var m := ByDaa(bs);
    var pool := MarkAll(m, Some(cutoff));
    forall x | x in m ensures (pool[x].isFinalized <==> x <= cutoff) && 0 < x {
      var i :| 0 <= i < |bs| && bs[i].daa == x;
    }
  }

  /** What is promotable once the cutoff has been marked: everything at or below it. */
  lemma PromotableIs(bs: seq<Block>, cutoff: i64)
    requires InOrder(bs)
    ensures Promotable(MarkAll(ByDaa(bs), Some(cutoff))) == UpTo(ByDaa(bs).Keys, cutoff)
  {
    FinalsAre(bs, cutoff);
    TopOf(ByDaa(bs).Keys, cutoff);
    var pool := MarkAll(ByDaa(bs), Some(cutoff));
    assert pool.Keys == ByDaa(bs).Keys;
    assert Promotable(pool) == UpTo(pool.Keys, HighestFinalized(pool));
  }

  /** The pool cut at the cutoff: a settled prefix, now final, and the rest. */
  lemma CutPool(bs: seq<Block>, cutoff: i64)
    requires InOrder(bs)
    ensures var n, pool := Settled(bs, Some(cutoff)), MarkAll(ByDaa(bs), Some(cutoff));
            var ready := Promotable(pool);
      && Restrict(pool, ready) == ByDaa(Finalized(bs[..n]))
      && pool - ready == ByDaa(bs[n..])
      && PickSet(pool, ready) == Finalized(bs[..n])
  {
    var n := Settled(bs, Some(cutoff));
    forall i | 0 <= i < |bs| ensures i < n <==> bs[i].daa <= cutoff {
      SettledIs(bs, Some(cutoff), i);
    }
    LowPart(bs, cutoff, n);
    HighPart(bs, cutoff, n);
  }

  lemma ReadyIs(bs: seq<Block>, cutoff: i64, n: nat)
    requires InOrder(bs) && n <= |bs|
    requires forall i :: 0 <= i < |bs| ==> (i < n <==> bs[i].daa <= cutoff)
    ensures var pool, low := MarkAll(ByDaa(bs), Some(cutoff)), Finalized(bs[..n]);
            var ready := Promotable(pool);
      && ready <= pool.Keys
      && (forall i :: 0 <= i < |low| ==> low[i].daa in ready && pool[low[i].daa] == low[i])
      && (forall x :: x in ready ==> exists i :: 0 <= i < |low| && low[i].daa == x)
  {
    PromotableIs(bs, cutoff);
    ByDaaRepresents(bs);
    var pool := MarkAll(ByDaa(bs), Some(cutoff));
    var ready, low := Promotable(pool), Finalized(bs[..n]);
    forall i | 0 <= i < |low| ensures low[i].daa in ready && pool[low[i].daa] == low[i] {
      assert ByDaa(bs)[bs[i].daa] == bs[i];
    }
    forall x | x in ready ensures exists i :: 0 <= i < |low| && low[i].daa == x {
      var i :| 0 <= i < |bs| && bs[i].daa == x;
      assert low[i].daa == x;
    }
  }

  lemma LowPart(bs: seq<Block>, cutoff: i64, n: nat)
    requires InOrder(bs) && n <= |bs|
    requires forall i :: 0 <= i < |bs| ==> (i < n <==> bs[i].daa <= cutoff)
    ensures var pool := MarkAll(ByDaa(bs), Some(cutoff));
      && Restrict(pool, Promotable(pool)) == ByDaa(Finalized(bs[..n]))
      && PickSet(pool, Promotable(pool)) == Finalized(bs[..n])
  {
    ReadyIs(bs, cutoff, n);
    Assembled(MarkAll(ByDaa(bs), Some(cutoff)), Promotable(MarkAll(ByDaa(bs), Some(cutoff))), Finalized(bs[..n]));
  }

  lemma Assembled(m: map<int, Block>, s: set<int>, bs: seq<Block>)
    requires DaaOrder(bs) && s <= m.Keys
    requires forall i :: 0 <= i < |bs| ==> bs[i].daa in s && m[bs[i].daa] == bs[i]
    requires forall x :: x in s ==> exists i :: 0 <= i < |bs| && bs[i].daa == x
    ensures Restrict(m, s) == ByDaa(bs) && PickSet(m, s) == bs
  {
    OnlyByDaa(Restrict(m, s), bs);
    PickAll(m, s, bs);
  }

  lemma HighPart(bs: seq<Block>, cutoff: i64, n: nat)
    requires InOrder(bs) && n <= |bs|
    requires forall i :: 0 <= i < |bs| ==> (i < n <==> bs[i].daa <= cutoff)
    ensures MarkAll(ByDaa(bs), Some(cutoff)) - Promotable(MarkAll(ByDaa(bs), Some(cutoff))) == ByDaa(bs[n..])
  {
    PromotableIs(bs, cutoff);
    ByDaaRepresents(bs);
    var pool := MarkAll(ByDaa(bs), Some(cutoff));
    var rest, high := pool - Promotable(pool), bs[n..];
    forall i | 0 <= i < |high| ensures high[i].daa in rest && rest[high[i].daa] == high[i] {
      assert high[i] == bs[n + i];
    }
    forall x | x in rest ensures exists i :: 0 <= i < |high| && high[i].daa == x {
      var i :| 0 <= i < |bs| && bs[i].daa == x;
      assert high[i - n].daa == x;
    }
    OnlyByDaa(rest, high);
  }

  lemma Halves(xs: seq<Block>, ys: seq<Block>, i: nat, j: nat)
    requires DaaOrder(xs + ys) && i < |xs| && j < |ys|
    ensures xs[i].daa < ys[j].daa
  {
    assert (xs + ys)[i] == xs[i] && (xs + ys)[|xs| + j] == ys[j];
  }

  lemma HalvesInOrder(xs: seq<Block>, ys: seq<Block>)
    requires DaaOrder(xs + ys)
    ensures DaaOrder(xs) && DaaOrder(ys)
  {
    var all := xs + ys;
    assert forall i :: 0 <= i < |xs| ==> all[i] == xs[i];
    assert forall i :: 0 <= i < |ys| ==> all[|xs| + i] == ys[i];
  }

  lemma Joined(xs: seq<Block>, ys: seq<Block>)
    requires DaaOrder(xs + ys)
    ensures ByDaa(xs) + ByDaa(ys) == ByDaa(xs + ys)
  {
    var all, m := xs + ys, ByDaa(xs) + ByDaa(ys);
    HalvesInOrder(xs, ys);
    ByDaaRepresents(xs);
    ByDaaRepresents(ys);
    forall i | 0 <= i < |xs| ensures xs[i].daa !in ByDaa(ys) {
      if xs[i].daa in ByDaa(ys) {
        var j := ByDaaOnly(ys, xs[i].daa);
        Halves(xs, ys, i, j);
      }
    }
    forall i | 0 <= i < |all| ensures all[i].daa in m && m[all[i].daa] == all[i] {
      assert all[i] == if i < |xs| then xs[i] else ys[i - |xs|];
    }
    forall x | x in m ensures exists i :: 0 <= i < |all| && all[i].daa == x {
      if x in ByDaa(ys) {
        var j :| 0 <= j < |ys| && ys[j].daa == x;
        assert all[|xs| + j].daa == x;
      } else {
        var j :| 0 <= j < |xs| && xs[j].daa == x;
        assert all[j].daa == x;
      }
    }
    OnlyByDaa(m, all);
  }

  lemma FinalizedJoin(xs: seq<Block>, ys: seq<Block>)
    ensures Finalized(xs) + Finalized(ys) == Finalized(xs + ys)
  {
  }

  lemma FinalizedOrder(bs: seq<Block>)
    requires DaaOrder(bs)
    ensures DaaOrder(Finalized(bs))
  {
  }

  lemma JoinedFinal(xs: seq<Block>, ys: seq<Block>)
    requires DaaOrder(xs + ys)
    ensures ByDaa(Finalized(xs)) + ByDaa(Finalized(ys)) == ByDaa(Finalized(xs + ys))
  {
    FinalizedJoin(xs, ys);
    FinalizedOrder(xs + ys);
    Joined(Finalized(xs), Finalized(ys));
  }

  /** `b` comes after everything the view holds. */
  lemma BeyondTip(done: seq<Block>, waiting: seq<Block>, b: Block)
    requires DaaOrder(done + waiting) && (forall i :: 0 <= i < |done + waiting| ==> (done + waiting)[i].daa < b.daa)
    ensures b.daa !in Split(done, waiting).committed
    ensures Conflicts(Split(done, waiting).buffered, b) == {}
  {
    var all := done + waiting;
    forall x | x in ByDaa(Finalized(done)) ensures x < b.daa {
      var i := ByDaaOnly(Finalized(done), x);
      assert all[i].daa == x;
    }
    forall x | x in ByDaa(waiting) ensures x < b.daa {
      var i := ByDaaOnly(waiting, x);
      assert all[|done| + i].daa == x;
    }
  }

  lemma NothingPicked(m: map<int, Block>)
    ensures PickSet(m, {}) == [] && Restrict(m, {}) == map[] && m - {} == m
  {
  }

  lemma NoneSettled(bs: seq<Block>)
    ensures Settled(bs, None) == 0 && bs[..0] == [] && bs[0..] == bs
  {
  }

  ghost predicate Above(b: Block, bs: seq<Block>) {
    0 < b.daa && !b.isFinalized && forall i :: 0 <= i < |bs| ==> bs[i].daa < b.daa
  }

  lemma Extended(bs: seq<Block>, b: Block)
    requires InOrder(bs) && Above(b, bs)
    ensures InOrder(bs + [b])
  {
  }

  lemma SplitOrder(xs: seq<Block>, ys: seq<Block>, b: Block)
    requires InOrder(xs + ys) && Above(b, xs + ys)
    ensures InOrder(xs) && InOrder(ys) && Above(b, xs) && Above(b, ys)
    ensures InOrder(xs + (ys + [b])) && InOrder(ys + [b])
  {
    assert forall i :: 0 <= i < |xs| ==> (xs + ys)[i] == xs[i];
    assert forall i :: 0 <= i < |ys| ==> (xs + ys)[|xs| + i] == ys[i];
    Extended(xs + ys, b);
    assert xs + (ys + [b]) == xs + ys + [b];
  }

  lemma CutOrder(xs: seq<Block>, ys: seq<Block>, n: nat)
    requires DaaOrder(xs + ys) && n <= |ys|
    ensures DaaOrder(xs + ys[..n])
  {
    assert xs + ys[..n] == (xs + ys)[..|xs| + n];
  }

  /** Committing `ready` out of a marked pool, with nothing rolled back. */
  function Committing(committed: map<int, Block>, pool: map<int, Block>, ready: set<int>): Step
    requires ready <= pool.Keys
  {
    Step(View(committed + Restrict(pool, ready), pool - ready), Transition(PickSet(pool, ready), [], [], None))
  }

  /** A block that displaces nothing: it joins the buffer, which is then marked. */
  lemma CleanStep(depth: Option<u64>, v: View, b: Block, m: map<int, Block>)
    requires b.daa !in v.committed && Conflicts(v.buffered, b) == {} && !b.isFinalized
    requires m == v.buffered[b.daa := b]
    ensures var pool := MarkAll(m, Cutoff(depth, b.daa));
      BlockStep(depth, v, b) == Committing(v.committed, pool, if Cutoff(depth, b.daa).Some? then Promotable(pool) else {})
  {
    NothingPicked(v.buffered);
  }

  lemma TipPool(depth: Option<u64>, done: seq<Block>, waiting: seq<Block>, b: Block)
    requires InOrder(done + waiting) && Above(b, done + waiting)
    ensures var pool := MarkAll(ByDaa(waiting + [b]), Cutoff(depth, b.daa));
      BlockStep(depth, Split(done, waiting), b)
        == Committing(ByDaa(Finalized(done)), pool, if Cutoff(depth, b.daa).Some? then Promotable(pool) else {})
  {
    var v, w := Split(done, waiting), waiting + [b];
    BeyondTip(done, waiting, b);
    assert w[..|w| - 1] == waiting;
    CleanStep(depth, v, b, ByDaa(w));
  }

  lemma TipSettles(done: seq<Block>, w: seq<Block>, cutoff: i64)
    requires InOrder(w) && DaaOrder(done + w)
    ensures Committing(ByDaa(Finalized(done)), MarkAll(ByDaa(w), Some(cutoff)), Promotable(MarkAll(ByDaa(w), Some(cutoff))))
         == Commits(done, Ripe(w, Some(cutoff)), Unripe(w, Some(cutoff)))
  {
    CutPool(w, cutoff);
    var n := Settled(w, Some(cutoff));
    CutOrder(done, w, n);
    JoinedFinal(done, w[..n]);
  }

  lemma TipWaits(done: seq<Block>, w: seq<Block>)
    ensures Committing(ByDaa(Finalized(done)), MarkAll(ByDaa(w), None), {})
         == Commits(done, Ripe(w, None), Unripe(w, None))
  {
    MarkNone(ByDaa(w));
    NothingPicked(ByDaa(w));
    NoneSettled(w);
    assert done + [] == done;
    assert ByDaa(Finalized(done)) + map[] == ByDaa(Finalized(done));
  }

  /** A block above the tip: nothing is rolled back, the waiting blocks at or below
      the new cutoff are committed, and exactly those are written, in order. */
  lemma TipStep(depth: Option<u64>, done: seq<Block>, waiting: seq<Block>, b: Block)
    requires InOrder(done + waiting) && Above(b, done + waiting)
    ensures BlockStep(depth, Split(done, waiting), b)
         == Commits(done, Ripe(waiting + [b], Cutoff(depth, b.daa)), Unripe(waiting + [b], Cutoff(depth, b.daa)))
  {
    var w, cutoff := waiting + [b], Cutoff(depth, b.daa);
    SplitOrder(done, waiting, b);
    TipPool(depth, done, waiting, b);
    if cutoff.Some? {
      TipSettles(done, w, cutoff.value);
    } else {
      TipWaits(done, w);
    }
  }

  /** The buffered tip, re-delivered: the buffer is as it was, cut at the tip's cutoff. */
  lemma TipAgain(depth: Option<u64>, done: seq<Block>, waiting: seq<Block>)
    requires InOrder(done + waiting) && waiting != []
    ensures var cutoff := Cutoff(depth, waiting[|waiting| - 1].daa);
      BlockStep(depth, Split(done, waiting), waiting[|waiting| - 1])
        == Commits(done, Ripe(waiting, cutoff), Unripe(waiting, cutoff))
  {
    var cutoff := Cutoff(depth, waiting[|waiting| - 1].daa);
    TipAgainPool(depth, done, waiting);
    if cutoff.Some? {
      PartsOrder(done, waiting);
      TipSettles(done, waiting, cutoff.value);
    } else {
      TipWaits(done, waiting);
    }
  }

  lemma PartsOrder(xs: seq<Block>, ys: seq<Block>)
    requires InOrder(xs + ys)
    ensures InOrder(xs) && InOrder(ys)
  {
    assert forall i :: 0 <= i < |xs| ==> (xs + ys)[i] == xs[i];
    assert forall i :: 0 <= i < |ys| ==> (xs + ys)[|xs| + i] == ys[i];
  }

  lemma TipAgainPool(depth: Option<u64>, done: seq<Block>, waiting: seq<Block>)
    requires InOrder(done + waiting) && waiting != []
    ensures var b := waiting[|waiting| - 1];
            var pool := MarkAll(ByDaa(waiting), Cutoff(depth, b.daa));
      BlockStep(depth, Split(done, waiting), b)
        == Committing(ByDaa(Finalized(done)), pool, if Cutoff(depth, b.daa).Some? then Promotable(pool) else {})
  {
    var b := waiting[|waiting| - 1];
    TipHeld(done, waiting, b);
    PartsOrder(done, waiting);
    CleanStep(depth, Split(done, waiting), b, ByDaa(waiting));
  }

  /** The view holds its own tip, and nothing above it. */
  lemma TipHeld(done: seq<Block>, waiting: seq<Block>, b: Block)
    requires InOrder(done + waiting) && waiting != [] && b == waiting[|waiting| - 1]
    ensures b.daa !in ByDaa(Finalized(done)) && Conflicts(ByDaa(waiting), b) == {} && ByDaa(waiting)[b.daa := b] == ByDaa(waiting)
  {
    var last := |waiting| - 1;
    PartsOrder(done, waiting);
    if b.daa in ByDaa(Finalized(done)) {
      var i := ByDaaOnly(Finalized(done), b.daa);
      Halves(done, waiting, i, last);
    }
    ByDaaHolds(waiting, last);
    forall x | x in ByDaa(waiting) && b.daa <= x ensures ByDaa(waiting)[x] == b {
      var i := ByDaaOnly(waiting, x);
    }
  }
}
