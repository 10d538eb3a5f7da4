/** What every notification keeps, in any order of arrival: the shape of the two
    maps, and that no block is lost or invented on its way through them. */
module IngestionInvariants {
  import opened Prelude
  import opened OrderedKeys
  import opened Blocks
  import opened Ingestion

  // ----- Shape -----

  ghost predicate Keyed(m: map<int, Block>) {
    forall k :: k in m ==> m[k].daa == k
  }

  ghost predicate Inv(v: View) {
    && Keyed(v.committed) && Keyed(v.buffered)
    && v.committed.Keys !! v.buffered.Keys
    && forall k :: k in v.buffered ==> !v.buffered[k].isFinalized
  }

  lemma HighestIsHighest(m: map<int, Block>, k: int)
    requires k in m && m[k].isFinalized
    ensures k <= HighestFinalized(m)
  {
    assert k in Finals(m);
  }

  lemma NoFinalsLeft(depth: Option<u64>, v: View, b: Block, k: int)
    requires Inv(v) && b.daa !in v.committed
    requires k in BlockStep(depth, v, b).next.buffered
    ensures !BlockStep(depth, v, b).next.buffered[k].isFinalized
  {
    var pool := Buffered(depth, v.buffered, b);
    if pool[k].isFinalized {
      HighestIsHighest(pool, k);
    }
  }

  lemma PoolShape(depth: Option<u64>, v: View, b: Block)
    requires Inv(v)
    ensures Keyed(Buffered(depth, v.buffered, b))
    ensures Buffered(depth, v.buffered, b).Keys <= v.buffered.Keys + {b.daa}
  {
  }

  lemma BlockKeepsInv(depth: Option<u64>, v: View, b: Block)
    requires Inv(v)
    ensures Inv(BlockStep(depth, v, b).next)
  {
    if b.daa !in v.committed {
      PoolShape(depth, v, b);
      forall k | k in BlockStep(depth, v, b).next.buffered
        ensures !BlockStep(depth, v, b).next.buffered[k].isFinalized
      {
        NoFinalsLeft(depth, v, b, k);
      }
    }
  }

  lemma {:induction false} BlocksKeepInv(depth: Option<u64>, v: View, bs: seq<Block>)
    requires Inv(v)
    ensures Inv(BlocksStep(depth, v, bs).next)
  {
    if bs != [] {
      BlocksKeepInv(depth, v, bs[..|bs| - 1]);
      BlockKeepsInv(depth, BlocksStep(depth, v, bs[..|bs| - 1]).next, bs[|bs| - 1]);
    }
  }

  lemma NotificationKeepsInv(depth: Option<u64>, v: View, n: Notification)
    requires Inv(v)
    ensures Inv(NotificationStep(depth, v, n).next)
  {
    match n
    case BlockAdded(b) => BlockKeepsInv(depth, v, BlockFromRpc(b));
    case VirtualChainChanged(removed, added) =>
      var cut := View(v.committed - Holding(v.committed, removed), v.buffered - Holding(v.buffered, removed));
      assert Inv(cut);
      BlocksKeepInv(depth, cut, BlocksFromRpc(added));
    case RecoveryRequired(_, _) =>
  }

  /** Some notification was a gap that aborts the process. */
  predicate Stopped(ns: seq<Notification>) {
    exists i :: 0 <= i < |ns| && Aborts(ns[i])
  }

  /** The last state of a process that is sent these notifications: after an abort
      it hears no more of them. */
  function Run(depth: Option<u64>, v: View, ns: seq<Notification>): View {
    if ns == [] then v
    else if Stopped(ns) then Run(depth, v, ns[..|ns| - 1])
    else NotificationStep(depth, Run(depth, v, ns[..|ns| - 1]), ns[|ns| - 1]).next
  }

  /** The invariant holds after every sequence of notifications, whatever its order
      and wherever it stops. */
  lemma {:induction false} RunKeepsInv(depth: Option<u64>, v: View, ns: seq<Notification>)
    requires Inv(v)
    ensures Inv(Run(depth, v, ns))
  {
    if ns != [] {
      RunKeepsInv(depth, v, ns[..|ns| - 1]);
      NotificationKeepsInv(depth, Run(depth, v, ns[..|ns| - 1]), ns[|ns| - 1]);
    }
  }

  ghost predicate Known(v: View, b: Block) {
    (b.daa in v.committed && v.committed[b.daa] == b) || (b.daa in v.buffered && v.buffered[b.daa] == b)
  }

  /** Only a gap asks for recovery, of exactly the range whose buffered blocks it drops. */
  lemma RecoveryIsWhatWasDropped(depth: Option<u64>, v: View, n: Notification, after: Step)
    requires after == NotificationStep(depth, v, n)
    ensures after.out.recovery.Some? <==> n.RecoveryRequired?
    ensures n.RecoveryRequired? ==>
      && after.out.recovery.value.0 == n.fromDaa && after.out.recovery.value.1 == n.toDaa
      && after.next.committed == v.committed && after.next.buffered.Keys <= v.buffered.Keys
      && forall k :: k in v.buffered ==> (k !in after.next.buffered <==>
           ToI64(after.out.recovery.value.0) <= k <= ToI64(after.out.recovery.value.1))
  {
    if n.BlockAdded? {
      assert BlockStep(depth, v, BlockFromRpc(n.block)).out.recovery == None;
    }
  }

  /** In any reachable state, a gap recovers from the one known block that is
      highest strictly below it; there is no anchor only when no such block is known. */
  lemma RecoveryAnchorIsHighestBelow(depth: Option<u64>, ns: seq<Notification>, fromDaa: u64)
    requires 1 <= fromDaa < TWO_63
    ensures var v := Run(depth, View(map[], map[]), ns);
            match RecoveryAnchor(v, fromDaa)
            case None => forall b :: Known(v, b) ==> b.daa >= fromDaa
            case Some(h) =>
              exists b :: Known(v, b) && b.hash == h && b.daa < fromDaa
                && forall c :: Known(v, c) && c.daa < fromDaa ==> c == b || c.daa < b.daa
  {
    var v := Run(depth, View(map[], map[]), ns);
    RunKeepsInv(depth, View(map[], map[]), ns);
    AnchorAt(v, fromDaa);
  }

  lemma AnchorAt(v: View, fromDaa: u64)
    requires Inv(v) && 1 <= fromDaa < TWO_63
    ensures match RecoveryAnchor(v, fromDaa)
            case None => forall b :: Known(v, b) ==> b.daa >= fromDaa
            case Some(h) =>
              exists b :: Known(v, b) && b.hash == h && b.daa < fromDaa
                && forall c :: Known(v, c) && c.daa < fromDaa ==> c == b || c.daa < b.daa
  {
    var known := set k | k in v.committed.Keys + v.buffered.Keys && k <= fromDaa - 1;
    if known != {} {
      TopIsAnchor(v, fromDaa, known);
    } else {
      forall b | Known(v, b) ensures b.daa >= fromDaa {
        assert b.daa !in known;
      }
    }
  }

  lemma TopIsAnchor(v: View, fromDaa: u64, known: set<int>)
    requires Inv(v) && known == (set k | k in v.committed.Keys + v.buffered.Keys && k <= fromDaa - 1) && known != {}
    ensures var top := Largest(known);
            var b := if top in v.buffered then v.buffered[top] else v.committed[top];
      Known(v, b) && b.daa < fromDaa && forall c :: Known(v, c) && c.daa < fromDaa ==> c == b || c.daa < b.daa
  {
    var top := Largest(known);
    var b := if top in v.buffered then v.buffered[top] else v.committed[top];
    forall c | Known(v, c) && c.daa < fromDaa ensures c == b || c.daa < b.daa {
      assert c.daa in known;
    }
  }

  // ----- What a block displaces -----

  /** A block that is taken in leaves no other fork at or above it in the buffer,
      and loses nothing below it: what was buffered there is buffered still or
      committed now. */
  lemma DisplacesOnlyAbove(depth: Option<u64>, v: View, b: Block, k: int)
    requires Inv(v) && b.daa !in v.committed
    ensures var next := BlockStep(depth, v, b).next;
      && (b.daa <= k && k in next.buffered ==> next.buffered[k].hash == b.hash)
      && (b.daa <= k && k in next.committed && k !in v.committed ==> next.committed[k].hash == b.hash)
      && (k < b.daa && k in v.buffered ==>
            if k in next.buffered then next.buffered[k].hash == v.buffered[k].hash
            else k in next.committed && next.committed[k].hash == v.buffered[k].hash)
  {
    var pool := Buffered(depth, v.buffered, b);
    assert k in pool && b.daa <= k ==> pool[k].hash == b.hash;
    assert k < b.daa && k in v.buffered ==> k in pool && pool[k].hash == v.buffered[k].hash;
  }

  // ----- Flow -----

  /** A block apart from its finality flag, which promotion sets. */
  function Bare(b: Block): Block { b.(isFinalized := false) }

  /** How many copies of `x` the map holds: its key is its DAA, so 0 or 1. */
  function Held(m: map<int, Block>, x: Block): nat {
    if x.daa in m && Bare(m[x.daa]) == Bare(x) then 1 else 0
  }

  function Count(bs: seq<Block>, x: Block): nat {
    if bs == [] then 0
    else Count(bs[..|bs| - 1], x) + if Bare(bs[|bs| - 1]) == Bare(x) then 1 else 0
  }

  lemma {:induction false} CountAppend(xs: seq<Block>, ys: seq<Block>, x: Block)
    ensures Count(xs + ys, x) == Count(xs, x) + Count(ys, x)
  {
    if ys == [] {
      assert xs + ys == xs;
    } else {
      CountAppend(xs, ys[..|ys| - 1], x);
      assert (xs + ys)[..|xs + ys| - 1] == xs + ys[..|ys| - 1];
    }
  }

  lemma {:induction false} CountPick(m: map<int, Block>, ks: seq<int>, x: Block)
    requires Keyed(m) && StrictlyAscending(ks) && AllIn(ks, m)
    ensures Count(Pick(m, ks), x) == if x.daa in ks then Held(m, x) else 0
    decreases |ks|
  {
    if ks != [] {
      var n := |ks| - 1;
      CountPick(m, ks[..n], x);
      assert Pick(m, ks)[..n] == Pick(m, ks[..n]);
      assert x.daa in ks <==> x.daa in ks[..n] || x.daa == ks[n];
      assert ks[n] !in ks[..n];
      assert m[ks[n]].daa == ks[n];
    }
  }

  lemma CountPickSet(m: map<int, Block>, s: set<int>, x: Block)
    requires Keyed(m) && s <= m.Keys
    ensures Count(PickSet(m, s), x) == if x.daa in s then Held(m, x) else 0
  {
    CountPick(m, Ascending(s), x);
  }

  /** The incoming block, unless its DAA is already committed and it is ignored. */
  function Taken(v: View, b: Block, x: Block): nat {
    if b.daa !in v.committed && Bare(b) == Bare(x) then 1 else 0
  }

  /** The older copy a re-delivered buffered block stands in for. */
  function Replaced(v: View, b: Block, x: Block): nat {
    if b.daa !in v.committed && b.daa in v.buffered && v.buffered[b.daa].hash == b.hash && x.daa == b.daa
    then Held(v.buffered, x) else 0
  }

  lemma PoolHeld(depth: Option<u64>, v: View, b: Block, x: Block)
    requires Inv(v)
    ensures Keyed(Buffered(depth, v.buffered, b))
    ensures Held(Buffered(depth, v.buffered, b), x) ==
      if x.daa == b.daa then (if Bare(b) == Bare(x) then 1 else 0)
      else if x.daa in Conflicts(v.buffered, b) then 0 else Held(v.buffered, x)
  {
  }

  lemma PromotedHeld(committed: map<int, Block>, pool: map<int, Block>, ready: set<int>, x: Block)
    requires ready <= pool.Keys && committed.Keys !! ready
    ensures Held(committed + Restrict(pool, ready), x)
         == Held(committed, x) + if x.daa in ready then Held(pool, x) else 0
    ensures Held(pool - ready, x) == if x.daa in ready then 0 else Held(pool, x)
  {
  }

  /** One block: what was buffered or taken is buffered, written, rolled back or
      replaced afterwards; what is committed grew by exactly the writes. */
  lemma BlockFlow(depth: Option<u64>, v: View, b: Block, x: Block)
    requires Inv(v)
    ensures var s := BlockStep(depth, v, b);
      && Held(v.buffered, x) + Taken(v, b, x)
           == Held(s.next.buffered, x) + Count(s.out.writes, x) + Count(s.out.rolledBack, x) + Replaced(v, b, x)
      && Held(s.next.committed, x) == Held(v.committed, x) + Count(s.out.writes, x)
  {
    if b.daa !in v.committed {
      var pool := Buffered(depth, v.buffered, b);
      var ready := if b.isFinalized || Cutoff(depth, b.daa).Some? then Promotable(pool) else {};
      CountPickSet(v.buffered, Conflicts(v.buffered, b), x);
      PoolHeld(depth, v, b, x);
      CountPickSet(pool, ready, x);
      assert Held(v.buffered, x) + Taken(v, b, x)
          == Held(pool, x) + Count(PickSet(v.buffered, Conflicts(v.buffered, b)), x) + Replaced(v, b, x);
      PromotedHeld(v.committed, pool, ready, x);
    }
  }

  function TakenAll(depth: Option<u64>, v: View, bs: seq<Block>, x: Block): nat {
    if bs == [] then 0
    else
      var n := |bs| - 1;
      TakenAll(depth, v, bs[..n], x) + Taken(BlocksStep(depth, v, bs[..n]).next, bs[n], x)
  }

  function ReplacedAll(depth: Option<u64>, v: View, bs: seq<Block>, x: Block): nat {
    if bs == [] then 0
    else
      var n := |bs| - 1;
      ReplacedAll(depth, v, bs[..n], x) + Replaced(BlocksStep(depth, v, bs[..n]).next, bs[n], x)
  }

  lemma {:induction false} BlocksFlow(depth: Option<u64>, v: View, bs: seq<Block>, x: Block)
    requires Inv(v)
    ensures var s := BlocksStep(depth, v, bs);
      && Held(v.buffered, x) + TakenAll(depth, v, bs, x)
           == Held(s.next.buffered, x) + Count(s.out.writes, x) + Count(s.out.rolledBack, x) + ReplacedAll(depth, v, bs, x)
      && Held(s.next.committed, x) == Held(v.committed, x) + Count(s.out.writes, x)
  {
    if bs != [] {
      var n := |bs| - 1;
      var before := BlocksStep(depth, v, bs[..n]);
      var last := BlockStep(depth, before.next, bs[n]);
      BlocksFlow(depth, v, bs[..n], x);
      BlocksKeepInv(depth, v, bs[..n]);
      BlockFlow(depth, before.next, bs[n], x);
      CountAppend(before.out.writes, last.out.writes, x);
      CountAppend(before.out.rolledBack, last.out.rolledBack, x);
    }
  }

  /** The blocks a notification delivers, in order, and the view they meet. */
  function Delivered(n: Notification): seq<Block> {
    match n
    case BlockAdded(b) => [BlockFromRpc(b)]
    case VirtualChainChanged(_, added) => BlocksFromRpc(added)
    case RecoveryRequired(_, _) => []
  }

  function MetBy(v: View, n: Notification): View {
    match n
    case VirtualChainChanged(removed, _) =>
      View(v.committed - Holding(v.committed, removed), v.buffered - Holding(v.buffered, removed))
    case _ => v
  }

  /** Any notification, in any state: every block buffered before or taken in is
      afterwards in exactly one place, and the committed map lost exactly the
      unwinds and gained exactly the writes. */
  lemma NotificationFlow(depth: Option<u64>, v: View, n: Notification, x: Block)
    requires Inv(v)
    ensures var s := NotificationStep(depth, v, n);
      && Held(v.buffered, x) + TakenAll(depth, MetBy(v, n), Delivered(n), x)
           == Held(s.next.buffered, x) + Count(s.out.writes, x) + Count(s.out.rolledBack, x)
              + ReplacedAll(depth, MetBy(v, n), Delivered(n), x)
      && Held(s.next.committed, x) + Count(s.out.unwinds, x) == Held(v.committed, x) + Count(s.out.writes, x)
  {
    match n
    case BlockAdded(b) =>
      OneBlock(depth, v, BlockFromRpc(b), x);
      BlockFlow(depth, v, BlockFromRpc(b), x);
    case VirtualChainChanged(removed, added) =>
      var cut := MetBy(v, n);
      CountPickSet(v.buffered, Holding(v.buffered, removed), x);
      CountPickSet(v.committed, Holding(v.committed, removed), x);
      assert Inv(cut);
      BlocksFlow(depth, cut, BlocksFromRpc(added), x);
      CountAppend(PickSet(v.buffered, Holding(v.buffered, removed)),
                  BlocksStep(depth, cut, BlocksFromRpc(added)).out.rolledBack, x);
    case RecoveryRequired(fromDaa, toDaa) =>
      CountPickSet(v.buffered, Within(v.buffered, ToI64(fromDaa), ToI64(toDaa)), x);
  }

  lemma OneBlock(depth: Option<u64>, v: View, b: Block, x: Block)
    ensures TakenAll(depth, v, [b], x) == Taken(v, b, x) && ReplacedAll(depth, v, [b], x) == Replaced(v, b, x)
  {
    assert [b][..0] == [];
  }

  /** What a whole run took in of `x`, and where it went. */
  datatype Flow = Flow(taken: nat, rolledBack: nat, unwound: nat, replaced: nat)

  function FlowNext(depth: Option<u64>, w: View, n: Notification, x: Block, f: Flow): Flow {
    var out := NotificationStep(depth, w, n).out;
    Flow(f.taken + TakenAll(depth, MetBy(w, n), Delivered(n), x),
         f.rolledBack + Count(out.rolledBack, x), f.unwound + Count(out.unwinds, x),
         f.replaced + ReplacedAll(depth, MetBy(w, n), Delivered(n), x))
  }

  function RunFlow(depth: Option<u64>, v: View, ns: seq<Notification>, x: Block): Flow {
    if ns == [] then Flow(0, 0, 0, 0)
    else
      var i := |ns| - 1;
      var f := RunFlow(depth, v, ns[..i], x);
      if Stopped(ns) then f else FlowNext(depth, Run(depth, v, ns[..i]), ns[i], x, f)
  }

  ghost predicate Balanced(v: View, w: View, f: Flow, x: Block) {
    Held(v.buffered, x) + Held(v.committed, x) + f.taken
      == Held(w.buffered, x) + Held(w.committed, x) + f.rolledBack + f.unwound + f.replaced
  }

  lemma StepBalanced(depth: Option<u64>, v: View, w: View, n: Notification, x: Block, f: Flow)
    requires Inv(w) && Balanced(v, w, f, x)
    ensures Balanced(v, NotificationStep(depth, w, n).next, FlowNext(depth, w, n, x, f), x)
  {
    NotificationFlow(depth, w, n, x);
  }

  /** Conservation of every block `x` over every run, from every well-shaped state. */
  lemma {:induction false} RunConserves(depth: Option<u64>, v: View, ns: seq<Notification>, x: Block)
    requires Inv(v)
    ensures Balanced(v, Run(depth, v, ns), RunFlow(depth, v, ns, x), x)
  {
    if ns != [] {
      var i := |ns| - 1;
      RunConserves(depth, v, ns[..i], x);
      RunKeepsInv(depth, v, ns[..i]);
      StepBalanced(depth, v, Run(depth, v, ns[..i]), ns[i], x, RunFlow(depth, v, ns[..i], x));
    }
  }
}
