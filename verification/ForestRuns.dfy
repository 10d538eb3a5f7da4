/** The lineage stays a forest over every run, whatever rows its reorgs take along: an
    unwind of a suffix is a cut by DAA. */
module ForestRuns {
  import opened Prelude
  import opened Blocks
  import opened Ingestion
  import opened ChainWindow
  import opened Tables
  import opened Persist
  import opened Layers
  import opened Chains
  import opened Unwinding
  import opened ReplaySafety
  import opened FinalArrivals
  import opened Survivors
  import opened ForestCuts

  // ----- An unwind -----

  lemma LowDaas(p: seq<Block>, s: seq<Block>, c: int)
    requires forall i :: 0 <= i < |s| ==> c <= s[i].daa
    ensures forall d :: d in DaaSet(p + s) && d < c ==> d in DaaSet(p)
  {
    InPrefix(p, s, c);
    forall d | d in DaaSet(p + s) && d < c ensures d in DaaSet(p) {
      var i := DaaSetOnly(p + s, d);
      InDaaSet(p, i);
    }
  }

  /** The SQL unwind of a suffix is a cut at its first block. */
  lemma UnwindGrown(cfg: Config, db: Db, p: seq<Block>, s: seq<Block>, limit: int)
    requires Legal(p + s) && Lists(db.tables, p + s) && Grown(cfg, db.tables, DaaSet(p + s), limit)
    ensures Grown(cfg, Reorg(cfg, db, s).tables, DaaSet(p), limit)
  {
    if s == [] {
      JoinNothing(p);
    } else {
      var c := s[0].daa;
      ReorgIgnoresFlags(cfg, db, s);
      SuffixFacts(p, s, Finalized(s));
      CommittedUnwound(db.tables, p, s, Finalized(s));
      CutsAgree(cfg, db.tables, Finalized(s), c, limit);
      SuffixOrder(p, s, c);
      LowDaas(p, s, c);
      CutGrown(cfg, db.tables, DaaSet(p + s), DaaSet(p), c, limit);
    }
  }

  // ----- Commits -----

  lemma {:induction false} DaaSetJoin(p: seq<Block>, s: seq<Block>)
    ensures DaaSet(p + s) == DaaSet(p) + DaaSet(s)
    decreases |s|
  {
    if s == [] {
      JoinNothing(p);
    } else {
      JoinLast(p, s, |s| - 1);
      DaaSetJoin(p, s[..|s| - 1]);
    }
  }

  lemma RisingOn(p: seq<Block>, s: seq<Block>)
    requires Legal(p + s)
    ensures Rising(DaaSet(p), s)
  {
    LegalParts(p, s);
    assert forall i :: 0 <= i < |s| ==> (p + s)[|p| + i] == s[i];
    forall d, i | d in DaaSet(p) && 0 <= i < |s| ensures d < s[i].daa {
      var j := DaaSetOnly(p, d);
    }
  }

  // ----- Runs -----

  lemma MovesGrow(cfg: Config, tr: Track, cut: Track, after: Track, db: Db, mid: Db, limit: int)
    returns (high: int)
    requires Sane(cfg) && Good(tr) && Moves(tr, cut, after) && Lists(db.tables, tr.base + tr.done)
    requires Grown(cfg, db.tables, DaaSet(tr.base + tr.done), limit) && mid == Reorg(cfg, db, tr.done[|cut.done|..])
    ensures Grown(cfg, PersistBlocks(cfg, mid, after.done[|cut.done|..]).tables, DaaSet(after.base + after.done), high)
  {
    var p, gone, gained := tr.base + cut.done, tr.done[|cut.done|..], after.done[|cut.done|..];
    CommittedIsLegal(tr);
    CommittedIsLegal(after);
    ThroughCut(tr, cut, after);
    UnwindGrown(cfg, db, p, gone, limit);
    RisingOn(p, gained);
    high := BlocksGrow(cfg, mid, DaaSet(p), gained, limit);
    DaaSetJoin(p, gained);
  }

  lemma EventGrows(cfg: Config, depth: Option<u64>, tr: Track, s: Node, e: Event, limit: int)
    returns (high: int)
    requires Sane(cfg) && Good(tr) && Followed(depth, tr, e) && Forget(s.view) == Split(tr.done, tr.waiting)
    requires Lists(s.db.tables, tr.base + tr.done) && Grown(cfg, s.db.tables, DaaSet(tr.base + tr.done), limit)
    ensures var next := AnyNextTrack(depth, tr, e);
      Grown(cfg, NodeEvent(cfg, depth, s, e).db.tables, DaaSet(next.base + next.done), high)
  {
    if e.Restarted? || Aborts(e.n) {
      RestartGood(tr, AnyNextTrack(depth, tr, e));
      high := limit;
    } else {
      var cut, after, step := Cut(tr, e.n), AnyAfter(depth, tr, e.n), NotificationStep(depth, s.view, e.n);
      NotificationMoves(depth, tr, s.view, e.n);
      StepPersists(cfg, tr, cut, after, s.db, step);
      high := MovesGrow(cfg, tr, cut, after, s.db, Reorg(cfg, s.db, tr.done[|cut.done|..]), limit);
    }
  }

  lemma NothingGrown(cfg: Config, none: seq<Block>)
    requires none == []
    ensures Grown(cfg, EMPTY, DaaSet(none), 0)
  {
  }

  /** After every run whose removals name suffixes, the lineage rows are rooted trees with
      matching heads, every row carries the DAA of a surviving block, and every
      tracked output has a row of its own id that is no later than it. */
  lemma {:induction false} RunGrown(cfg: Config, depth: Option<u64>, es: seq<Event>) returns (limit: int)
    requires Sane(cfg) && SuffixRun(depth, es)
    ensures Grown(cfg, RunNode(cfg, depth, es).db.tables, DaaSet(Surviving(depth, es)), limit)
  {
    if es == [] {
      NothingGrown(cfg, Surviving(depth, es));
      limit := 0;
    } else {
      var before := es[..|es| - 1];
      limit := RunGrown(cfg, depth, before);
      RunChained(cfg, depth, before);
      MemoryRefines(cfg, depth, before);
      limit := EventGrows(cfg, depth, AnyTrack(depth, before), RunNode(cfg, depth, before), es[|es| - 1], limit);
    }
  }
}
