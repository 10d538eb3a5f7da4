/** Which rows the UTXO table holds after any run, exactly: those of the outputs that the
    surviving blocks lock, without the ones that an unwound block locked again and no
    block has locked since. */
module UtxoRuns {
  import opened Prelude
  import opened Blocks
  import opened Ingestion
  import opened ChainWindow
  import opened Tables
  import opened Persist
  import opened Layers
  import opened BlockRows
  import opened Chains
  import opened Unwinding
  import opened ReplaySafety
  import opened FinalArrivals
  import opened Survivors

  function From(bs: seq<Block>, n: nat): seq<Block> { if n <= |bs| then bs[n..] else [] }

  /** The outputs that unwound blocks locked and no block committed since has locked. */
  function Lost(depth: Option<u64>, es: seq<Event>): set<Outpoint> {
    if es == [] then {}
    else
      var n := |es| - 1;
      LostAfter(depth, AnyTrack(depth, es[..n]), Lost(depth, es[..n]), es[n])
  }

  function LostAfter(depth: Option<u64>, tr: Track, lost: set<Outpoint>, e: Event): set<Outpoint> {
    if e.Restarted? || Aborts(e.n) then lost
    else
      var kept := |Cut(tr, e.n).done|;
      (lost + AllOutpoints(From(tr.done, kept))) - AllOutpoints(From(AnyAfter(depth, tr, e.n).done, kept))
  }

  /** The DAA of the last block of a chain that locks an output. */
  function LastLock(bs: seq<Block>, o: Outpoint): int
    requires o in AllOutpoints(bs)
  {
    var n := |bs| - 1;
    if o in Outpoints(bs[n]) then bs[n].daa else LastLock(bs[..n], o)
  }

  ghost predicate RowOfLast(t: Tables, bs: seq<Block>, o: Outpoint) {
    o in t.utxos && o in AllOutpoints(bs) && t.utxos[o].daa == LastLock(bs, o)
  }

  /** The table holds those rows, each of the last surviving block that locks its output. */
  ghost predicate Holds(t: Tables, bs: seq<Block>, lost: set<Outpoint>) {
    t.utxos.Keys == AllOutpoints(bs) - lost && forall o :: o in t.utxos ==> RowOfLast(t, bs, o)
  }

  // ----- A commit -----

  lemma CommitHolds(cfg: Config, db: Db, shorter: seq<Block>, all: seq<Block>, lost: set<Outpoint>, left: set<Outpoint>,
                    after: Db)
    requires cfg.mapping.Some? && |all| == |shorter| + 1 && shorter == all[..|shorter|]
    requires Holds(db.tables, shorter, lost) && left == lost - Outpoints(all[|shorter|])
    requires after == PersistBlock(cfg, db, all[|shorter|])
    ensures Holds(after.tables, all, left)
  {
    var b := all[|shorter|];
    BlockKeys(cfg, db, b);
    forall o | o in after.tables.utxos ensures RowOfLast(after.tables, all, o) {
      if o in Outpoints(b) {
        BlockStamps(cfg, db, b, o);
      } else {
        assert RowOfLast(db.tables, shorter, o);
        BlockLeaves(cfg, db, b, o);
      }
    }
  }

  lemma {:induction false} CommitsHold(cfg: Config, db: Db, bs: seq<Block>, ws: seq<Block>, lost: set<Outpoint>)
    requires cfg.mapping.Some? && Holds(db.tables, bs, lost)
    ensures Holds(PersistBlocks(cfg, db, ws).tables, bs + ws, lost - AllOutpoints(ws))
    decreases |ws|
  {
    if ws == [] {
      JoinNothing(bs);
      assert lost - AllOutpoints(ws) == lost;
    } else {
      var n := |ws| - 1;
      CommitsHold(cfg, db, bs, ws[..n], lost);
      JoinLast(bs, ws, n);
      CommitHolds(cfg, PersistBlocks(cfg, db, ws[..n]), bs + ws[..n], bs + ws, lost - AllOutpoints(ws[..n]),
                  lost - AllOutpoints(ws), PersistBlocks(cfg, db, ws));
    }
  }

  // ----- An unwind -----

  lemma {:induction false} LockedIn(p: seq<Block>, s: seq<Block>, o: Outpoint, c: int)
    requires AllBelow(p, c) && forall i :: 0 <= i < |s| ==> c <= s[i].daa
    ensures o in AllOutpoints(p + s) <==> o in AllOutpoints(p) || o in AllOutpoints(s)
    ensures o in AllOutpoints(s) ==> c <= LastLock(p + s, o)
    ensures o in AllOutpoints(p) && o !in AllOutpoints(s) ==> LastLock(p + s, o) == LastLock(p, o) < c
    decreases |s|
  {
    if s == [] {
      JoinNothing(p);
      if o in AllOutpoints(p) {
        LockedBelow(p, o, c);
      }
    } else {
      JoinLast(p, s, |s| - 1);
      LockedIn(p, s[..|s| - 1], o, c);
    }
  }

  lemma {:induction false} LockedBelow(p: seq<Block>, o: Outpoint, c: int)
    requires AllBelow(p, c) && o in AllOutpoints(p)
    ensures LastLock(p, o) < c
    decreases |p|
  {
    var n := |p| - 1;
    if o !in Outpoints(p[n]) {
      LockedBelow(p[..n], o, c);
    }
  }

  lemma UnwindHolds(t: Tables, u: Tables, p: seq<Block>, s: seq<Block>, c: int, lost: set<Outpoint>)
    requires AllBelow(p, c) && forall i :: 0 <= i < |s| ==> c <= s[i].daa
    requires Holds(t, p + s, lost) && u.utxos == UnwindUtxos(t, c).utxos
    ensures Holds(u, p, lost + AllOutpoints(s))
  {
    forall o ensures o in u.utxos <==> o in AllOutpoints(p) && o !in lost && o !in AllOutpoints(s) {
      LockedIn(p, s, o, c);
      assert o in t.utxos ==> RowOfLast(t, p + s, o);
    }
    forall o | o in u.utxos ensures RowOfLast(u, p, o) {
      LockedIn(p, s, o, c);
      assert RowOfLast(t, p + s, o);
    }
  }

  lemma ReorgHolds(cfg: Config, db: Db, p: seq<Block>, s: seq<Block>, lost: set<Outpoint>)
    requires cfg.mapping.Some? && DaaOrder(p + s) && Holds(db.tables, p + s, lost)
    ensures Holds(Reorg(cfg, db, s).tables, p, lost + AllOutpoints(s))
  {
    if s == [] {
      JoinNothing(p);
      assert lost + AllOutpoints(s) == lost;
    } else {
      SuffixFacts(p, s, Finalized(s));
      SuffixOrder(p, s, s[0].daa);
      ReorgIgnoresFlags(cfg, db, s);
      UnwindRows(cfg, db.tables, Finalized(s), s[0].daa);
      UnwindHolds(db.tables, Reorg(cfg, db, s).tables, p, s, s[0].daa, lost);
    }
  }

  // ----- Runs -----

  lemma MovesHold(cfg: Config, tr: Track, cut: Track, after: Track, db: Db, mid: Db, lost: set<Outpoint>)
    requires cfg.mapping.Some? && Good(tr) && Moves(tr, cut, after) && Holds(db.tables, tr.base + tr.done, lost)
    requires mid == Reorg(cfg, db, tr.done[|cut.done|..])
    ensures Holds(PersistBlocks(cfg, mid, after.done[|cut.done|..]).tables, after.base + after.done,
                  (lost + AllOutpoints(tr.done[|cut.done|..])) - AllOutpoints(after.done[|cut.done|..]))
  {
    var p, gone := tr.base + cut.done, tr.done[|cut.done|..];
    CommittedIsLegal(tr);
    ThroughCut(tr, cut, after);
    ReorgHolds(cfg, db, p, gone, lost);
    CommitsHold(cfg, mid, p, after.done[|cut.done|..], lost + AllOutpoints(gone));
  }

  lemma EventHolds(cfg: Config, depth: Option<u64>, tr: Track, s: Node, e: Event, lost: set<Outpoint>)
    requires cfg.mapping.Some? && Good(tr) && Followed(depth, tr, e) && Forget(s.view) == Split(tr.done, tr.waiting)
    requires Holds(s.db.tables, tr.base + tr.done, lost)
    ensures var next := AnyNextTrack(depth, tr, e);
      Holds(NodeEvent(cfg, depth, s, e).db.tables, next.base + next.done, LostAfter(depth, tr, lost, e))
  {
    if e.Restarted? || Aborts(e.n) {
      RestartGood(tr, AnyNextTrack(depth, tr, e));
    } else {
      var cut, after, step := Cut(tr, e.n), AnyAfter(depth, tr, e.n), NotificationStep(depth, s.view, e.n);
      NotificationMoves(depth, tr, s.view, e.n);
      StepPersists(cfg, tr, cut, after, s.db, step);
      MovesHold(cfg, tr, cut, after, s.db, Reorg(cfg, s.db, tr.done[|cut.done|..]), lost);
    }
  }

  /** After every run whose removals name suffixes: a surviving block's output has no row
      exactly when a block unwound since has locked it too and none has since then, and
      each row there is has the DAA of the last surviving block that locks its output. */
  lemma {:induction false} RunUtxos(cfg: Config, depth: Option<u64>, es: seq<Event>)
    requires cfg.mapping.Some? && SuffixRun(depth, es)
    ensures Holds(RunNode(cfg, depth, es).db.tables, Surviving(depth, es), Lost(depth, es))
  {
    if es == [] {
      assert Surviving(depth, es) == [];
    } else {
      var before := es[..|es| - 1];
      RunUtxos(cfg, depth, before);
      MemoryRefines(cfg, depth, before);
      EventHolds(cfg, depth, AnyTrack(depth, before), RunNode(cfg, depth, before), es[|es| - 1], Lost(depth, before));
    }
  }
}
