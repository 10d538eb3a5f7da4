/** What the mapping's handlers are handed and what becomes of their answers: over every
    run, each block's handlers see each entity in the state emitted last by the blocks
    that survive, and so does whoever reads the store. */
module Emissions {
  import opened Prelude
  import opened StableSort
  import opened CanonicalJson
  import opened CanonicalBytes
  import opened Blocks
  import opened Ingestion
  import opened ChainWindow
  import opened Tables
  import opened Persist
  import opened Layers
  import opened Chains
  import opened Unwinding
  import opened ReplaySafety
  import opened FinalArrivals
  import opened Survivors
  import opened ForestCuts
  import opened EntityVersions

  /** The answers of the committed blocks, under their hashes. */
  type StateLog = seq<Entry<Emitted>>

  function Batches(log: StateLog): (r: seq<Emitted>)
    ensures |r| == |log|
    ensures forall i :: 0 <= i < |log| ==> r[i] == log[i].value
  {
    seq(|log|, i requires 0 <= i < |log| => log[i].value)
  }

  /** Everything emitted, in the order of the blocks. */
  function EmittedIn(log: StateLog): seq<Entity> { Flat(Batches(log)) }

  /** What a block's handlers return: those of its locks are handed what was emitted last
      before the block, those of its spends also what the locks have just emitted. */
  function Answer(m: Mapping, b: Block, seen: seq<Entity>, utxos: map<Outpoint, CovenantUtxo>): Emitted {
    var locks := if b.content.hits == [] then [] else m.onHits(b.daa, b.hash, b.content.hits, Last(seen));
    var spends := if b.content.inputs == [] then []
                  else m.onSpends(b.daa, b.hash, b.content.inputs, utxos, Last(seen + locks));
    Emitted(b.daa, locks, spends)
  }

  /** The log once the blocks have been committed too, one after the other. */
  function Emit(cfg: Config, m: Mapping, db: Db, log: StateLog, ws: seq<Block>): StateLog {
    if ws == [] then log
    else
      var n := |ws| - 1;
      var before := Emit(cfg, m, db, log, ws[..n]);
      before + [Entry(ws[n].hash, Answer(m, ws[n], EmittedIn(before), PersistBlocks(cfg, db, ws).tables.utxos))]
  }

  /** The log of a run: answers of unwound blocks are dropped. */
  function RunEmissions(cfg: Config, m: Mapping, depth: Option<u64>, es: seq<Event>): StateLog {
    if es == [] then []
    else
      var n := |es| - 1;
      EmissionsAfter(cfg, m, depth, RunNode(cfg, depth, es[..n]), RunEmissions(cfg, m, depth, es[..n]), es[n])
  }

  function EmissionsAfter(cfg: Config, m: Mapping, depth: Option<u64>, s: Node, log: StateLog, e: Event): StateLog {
    if e.Restarted? || Aborts(e.n) then log
    else
      var out := NotificationStep(depth, s.view, e.n).out;
      Emit(cfg, m, Reorg(cfg, s.db, out.unwinds), Without(log, Hashes(out.unwinds)), out.writes)
  }

  // ----- The invariant -----

  /** One answer per block, at its DAA. */
  ghost predicate Answers(log: StateLog, bs: seq<Block>) {
    Lined(log, bs) && forall i :: 0 <= i < |bs| ==> log[i].value.daa == bs[i].daa
  }

  ghost predicate Stated(t: Tables, bs: seq<Block>, log: StateLog) {
    Answers(log, bs) && t.entities == VersionsOf(Batches(log))
  }

  lemma AnswersRise(log: StateLog, bs: seq<Block>)
    requires Answers(log, bs) && DaaOrder(bs)
    ensures RisingBatches(Batches(log))
  {
    forall i, j | 0 <= i < j < |log| ensures Batches(log)[i].daa < Batches(log)[j].daa {
      assert bs[i].daa < bs[j].daa;
    }
  }

  lemma StatedShows(t: Tables, bs: seq<Block>, log: StateLog)
    requires Stated(t, bs, log) && DaaOrder(bs)
    ensures Snapshot(t) == Last(EmittedIn(log))
  {
    AnswersRise(log, bs);
    VersionsShow(Batches(log));
    SameShown(t, Versioned(VersionsOf(Batches(log))));
  }

  // ----- A commit -----

  lemma HandedToLocks(cfg: Config, db: Db, b: Block, seen: seq<Entity>)
    requires Snapshot(db.tables) == Last(seen)
    ensures Locked(cfg, db.tables, b).entities == db.tables.entities
    ensures Snapshot(Locked(cfg, db.tables, b)) == Last(seen)
  {
    LocksTouch(cfg, RecordCommitted(db.tables, b.hash, b.daa), b.content.hits, b);
    SameShown(Locked(cfg, db.tables, b), db.tables);
  }

  lemma HandedToSpends(t: Tables, v: map<EntityKey, Json>, daa: int, es: seq<Entity>, seen: seq<Entity>)
    requires t.entities == v && Snapshot(t) == Last(seen) && AtMost(t, daa)
    ensures UpsertAll(t, daa, es).entities == Stamp(v, daa, es) && UpsertAll(t, daa, es).utxos == t.utxos
    ensures Snapshot(UpsertAll(t, daa, es)) == Last(seen + es)
  {
    UpsertsStamp(t, daa, es);
    UpsertsShow(t, daa, es, seen, Last(seen + es));
  }

  lemma SpentStamps(m: Mapping, t: Tables, b: Block, seen: seq<Entity>, spends: seq<Entity>)
    requires Snapshot(t) == Last(seen)
    requires spends == if b.content.inputs == [] then []
                       else m.onSpends(b.daa, b.hash, b.content.inputs, t.utxos, Last(seen))
    ensures Spent(m, t, b).entities == Stamp(t.entities, b.daa, spends) && Spent(m, t, b).utxos == t.utxos
  {
    SpendTouches(t, b.content.inputs, b.daa);
    UpsertsStamp(RecordSpends(t, b.content.inputs, b.daa), b.daa, spends);
  }

  /** One block's answer, and what it leaves: its versions, and the bytes that are hashed. */
  lemma BlockEmits(cfg: Config, m: Mapping, db: Db, b: Block, seen: seq<Entity>, a: Emitted)
    requires cfg.mapping == Some(m) && AtMost(db.tables, b.daa) && Snapshot(db.tables) == Last(seen)
    requires a == Answer(m, b, seen, PersistBlock(cfg, db, b).tables.utxos)
    ensures PersistBlock(cfg, db, b).tables.entities == Stamp(db.tables.entities, b.daa, a.locks + a.spends)
    ensures PoiInput(cfg, db.tables, b) == BlockBytes(cfg.render, a.locks)
  {
    var t2 := Locked(cfg, db.tables, b);
    LockedRows(cfg, db, b, PersistBlock(cfg, db, b).tables);
    HandedToLocks(cfg, db, b, seen);
    assert Dispatched(cfg, m, db.tables, b) == a.locks;
    HandedToSpends(t2, db.tables.entities, b.daa, a.locks, seen);
    SpentStamps(m, UpsertAll(t2, b.daa, a.locks), b, seen + a.locks, a.spends);
    StampJoin(db.tables.entities, b.daa, a.locks, a.spends);
  }

  lemma StatedAtMost(t: Tables, bs: seq<Block>, log: StateLog, daa: int)
    requires Stated(t, bs, log) && forall i :: 0 <= i < |bs| ==> bs[i].daa < daa
    ensures AtMost(t, daa)
  {
    VersionsAtMost(Batches(log), daa);
  }

  lemma AnswersMore(bs: seq<Block>, n: nat, log: StateLog, e: Entry<Emitted>)
    requires |bs| == n + 1 && Answers(log, bs[..n]) && e.hash == bs[n].hash && e.value.daa == bs[n].daa
    ensures Answers(log + [e], bs)
    ensures Batches(log + [e]) == Batches(log) + [e.value]
  {
    assert forall i :: 0 <= i < n ==> bs[..n][i] == bs[i];
  }

  lemma VersionsMore(log: seq<Emitted>, a: Emitted)
    ensures VersionsOf(log + [a]) == Stamp(VersionsOf(log), a.daa, a.locks + a.spends)
  {
    assert (log + [a])[..|log|] == log;
  }

  lemma CommitStates(cfg: Config, m: Mapping, before: Db, shorter: seq<Block>, all: seq<Block>, log: StateLog,
                     longer: StateLog, after: Db)
    requires |all| == |shorter| + 1 && shorter == all[..|shorter|] && DaaOrder(all) && cfg.mapping == Some(m)
    requires Stated(before.tables, shorter, log) && after == PersistBlock(cfg, before, all[|shorter|])
    requires longer == log + [Entry(all[|shorter|].hash, Answer(m, all[|shorter|], EmittedIn(log), after.tables.utxos))]
    ensures Stated(after.tables, all, longer)
    ensures PoiInput(cfg, before.tables, all[|shorter|]) == BlockBytes(cfg.render, longer[|shorter|].value.locks)
  {
    var b := all[|shorter|];
    var a := Answer(m, b, EmittedIn(log), after.tables.utxos);
    StatedShows(before.tables, shorter, log);
    StatedAtMost(before.tables, shorter, log, b.daa);
    BlockEmits(cfg, m, before, b, EmittedIn(log), a);
    AnswersMore(all, |shorter|, log, Entry(b.hash, a));
    VersionsMore(Batches(log), a);
  }

  // ----- The log of hashed bytes beside it -----

  /** The bytes hashed at each commit are the encoding of what its locks emitted. */
  ghost predicate Encodes(render: Printer, bytes: seq<ByteEntry>, log: StateLog) {
    |bytes| == |log| && forall i :: 0 <= i < |log| ==> bytes[i].value == BlockBytes(render, log[i].value.locks)
  }

  lemma EncodesMore(render: Printer, bytes: seq<ByteEntry>, log: StateLog, x: ByteEntry, e: Entry<Emitted>)
    requires Encodes(render, bytes, log) && x.value == BlockBytes(render, e.value.locks)
    ensures Encodes(render, bytes + [x], log + [e])
  {
  }

  /** The last block of a chain on top of the others, in both logs. */
  lemma CommitBoth(cfg: Config, m: Mapping, before: Db, shorter: seq<Block>, all: seq<Block>, log: StateLog,
                   longer: StateLog, after: Db, bytes: seq<ByteEntry>)
    requires |all| == |shorter| + 1 && shorter == all[..|shorter|] && DaaOrder(all) && cfg.mapping == Some(m)
    requires Stated(before.tables, shorter, log) && after == PersistBlock(cfg, before, all[|shorter|])
    requires Encodes(cfg.render, bytes, log)
    requires longer == log + [Entry(all[|shorter|].hash, Answer(m, all[|shorter|], EmittedIn(log), after.tables.utxos))]
    ensures Stated(after.tables, all, longer)
    ensures Encodes(cfg.render, bytes + [EntryOf(cfg, before.tables, all[|shorter|])], longer)
  {
    CommitStates(cfg, m, before, shorter, all, log, longer, after);
    EncodesMore(cfg.render, bytes, log, EntryOf(cfg, before.tables, all[|shorter|]), longer[|shorter|]);
  }

  lemma {:induction false} CommitsState(cfg: Config, m: Mapping, db: Db, bs: seq<Block>, ws: seq<Block>, log: StateLog,
                                        bytes: seq<ByteEntry>)
    requires cfg.mapping == Some(m) && DaaOrder(bs + ws) && Stated(db.tables, bs, log) && Encodes(cfg.render, bytes, log)
    ensures Stated(PersistBlocks(cfg, db, ws).tables, bs + ws, Emit(cfg, m, db, log, ws))
    ensures Encodes(cfg.render, bytes + Logged(cfg, db, ws), Emit(cfg, m, db, log, ws))
    decreases |ws|
  {
    if ws == [] {
      JoinNothing(bs);
      JoinNothing(bytes);
    } else {
      var n := |ws| - 1;
      var before, logged := PersistBlocks(cfg, db, ws[..n]), Logged(cfg, db, ws[..n]);
      OrderInit(bs, ws, n);
      CommitsState(cfg, m, db, bs, ws[..n], log, bytes);
      JoinLast(bs, ws, n);
      JoinMore(bytes, logged, EntryOf(cfg, before.tables, ws[n]));
      CommitBoth(cfg, m, before, bs + ws[..n], bs + ws, Emit(cfg, m, db, log, ws[..n]), Emit(cfg, m, db, log, ws),
                 PersistBlocks(cfg, db, ws), bytes + logged);
    }
  }

  lemma OrderInit(bs: seq<Block>, ws: seq<Block>, n: nat)
    requires DaaOrder(bs + ws) && |ws| == n + 1
    ensures DaaOrder(bs + ws[..n])
  {
    assert bs + ws[..n] == (bs + ws)[..|bs| + n];
  }

  // ----- An unwind -----

  lemma AnswersPrefix(log: StateLog, p: seq<Block>, s: seq<Block>, low: seq<Emitted>, high: seq<Emitted>, c: int)
    requires Answers(log, p + s) && low == Batches(log)[..|p|] && high == Batches(log)[|p|..]
    requires AllBelow(p, c) && forall i :: 0 <= i < |s| ==> c <= s[i].daa
    ensures Answers(log[..|p|], p) && Batches(log[..|p|]) == low && Batches(log) == low + high
    ensures forall i :: 0 <= i < |low| ==> low[i].daa < c
    ensures forall i :: 0 <= i < |high| ==> c <= high[i].daa
  {
    assert forall i :: 0 <= i < |p| ==> (p + s)[i] == p[i];
    assert forall i :: 0 <= i < |s| ==> (p + s)[|p| + i] == s[i];
  }

  lemma CutStates(t: Tables, u: Tables, p: seq<Block>, s: seq<Block>, log: StateLog, c: int)
    requires DaaOrder(p + s) && s != [] && c == s[0].daa && Stated(t, p + s, log)
    requires u.entities == UnwindEntities(t, c).entities
    ensures Stated(u, p, log[..|p|])
  {
    var low, high := Batches(log)[..|p|], Batches(log)[|p|..];
    SuffixOrder(p, s, c);
    AnswersPrefix(log, p, s, low, high, c);
    AnswersRise(log, p + s);
    CutVersions(low, high, c);
  }

  lemma UnwindsEntities(cfg: Config, t: Tables, unwinds: seq<Block>, c: int)
    requires cfg.mapping.Some? && unwinds != [] && LowestDaa(unwinds) == c
    ensures Unwind(cfg, t, unwinds).entities == UnwindEntities(t, c).entities
  {
  }

  lemma EncodesPrefix(render: Printer, bytes: seq<ByteEntry>, log: StateLog, m: nat)
    requires Encodes(render, bytes, log) && m <= |log|
    ensures Encodes(render, bytes[..m], log[..m])
  {
  }

  /** Unwinding a suffix takes the versions and the log back to what is below it. */
  lemma UnwindEntityState(cfg: Config, db: Db, p: seq<Block>, s: seq<Block>, log: StateLog)
    requires cfg.mapping.Some? && Legal(p + s) && Stated(db.tables, p + s, log)
    ensures Stated(Reorg(cfg, db, s).tables, p, Without(log, Hashes(s)))
  {
    LastEntriesGo(p, s, log);
    if s == [] {
      JoinNothing(p);
      assert log[..|p|] == log;
    } else {
      SuffixFacts(p, s, Finalized(s));
      ReorgIgnoresFlags(cfg, db, s);
      UnwindsEntities(cfg, db.tables, Finalized(s), s[0].daa);
      CutStates(db.tables, Reorg(cfg, db, s).tables, p, s, log, s[0].daa);
    }
  }

  /** ... and so the log of hashed bytes. */
  lemma UnwindStates(cfg: Config, db: Db, p: seq<Block>, s: seq<Block>, log: StateLog, bytes: seq<ByteEntry>)
    requires cfg.mapping.Some? && Legal(p + s) && Stated(db.tables, p + s, log)
    requires Lined(bytes, p + s) && Encodes(cfg.render, bytes, log)
    ensures Stated(Reorg(cfg, db, s).tables, p, Without(log, Hashes(s)))
    ensures Encodes(cfg.render, Without(bytes, Hashes(s)), Without(log, Hashes(s)))
  {
    UnwindEntityState(cfg, db, p, s, log);
    LastEntriesGo(p, s, log);
    LastEntriesGo(p, s, bytes);
    EncodesPrefix(cfg.render, bytes, log, |p|);
  }

  // ----- Runs -----

  lemma EmitLast(cfg: Config, m: Mapping, db: Db, log: StateLog, shorter: seq<Block>, all: seq<Block>, before: StateLog)
    requires |all| == |shorter| + 1 && all[..|shorter|] == shorter && before == Emit(cfg, m, db, log, shorter)
    ensures var b := all[|shorter|];
      Emit(cfg, m, db, log, all)
        == before + [Entry(b.hash, Answer(m, b, EmittedIn(before), PersistBlocks(cfg, db, all).tables.utxos))]
  {
  }

  lemma FinalizedInit(ws: seq<Block>, n: nat)
    requires |ws| == n + 1
    ensures Finalized(ws)[..n] == Finalized(ws[..n]) && Finalized(ws)[n] == Finalize(ws[n])
  {
  }

  lemma {:induction false} EmitIgnoresFlags(cfg: Config, m: Mapping, db: Db, log: StateLog, ws: seq<Block>)
    ensures Emit(cfg, m, db, log, Finalized(ws)) == Emit(cfg, m, db, log, ws)
    decreases |ws|
  {
    if ws != [] {
      var n := |ws| - 1;
      var before := Emit(cfg, m, db, log, ws[..n]);
      EmitIgnoresFlags(cfg, m, db, log, ws[..n]);
      PersistIgnoresFlags(cfg, db, ws);
      FinalizedInit(ws, n);
      EmitLast(cfg, m, db, log, Finalized(ws[..n]), Finalized(ws), before);
      EmitLast(cfg, m, db, log, ws[..n], ws, before);
    }
  }

  /** The log follows the same moves as the store. */
  lemma EmissionsMove(cfg: Config, m: Mapping, tr: Track, cut: Track, after: Track, db: Db, log: StateLog, step: Step)
    requires Moves(tr, cut, after) && StepMoves(tr, cut, after, step)
    ensures Emit(cfg, m, Reorg(cfg, db, step.out.unwinds), Without(log, Hashes(step.out.unwinds)), step.out.writes)
         == Emit(cfg, m, Reorg(cfg, db, tr.done[|cut.done|..]), Without(log, Hashes(tr.done[|cut.done|..])),
                 after.done[|cut.done|..])
  {
    var gone, gained := tr.done[|cut.done|..], after.done[|cut.done|..];
    assert Hashes(step.out.unwinds) == Hashes(Finalized(step.out.unwinds)) == Hashes(Finalized(gone)) == Hashes(gone);
    ReorgIgnoresFlags(cfg, db, step.out.unwinds);
    ReorgIgnoresFlags(cfg, db, gone);
    EmitIgnoresFlags(cfg, m, Reorg(cfg, db, gone), Without(log, Hashes(gone)), step.out.writes);
    EmitIgnoresFlags(cfg, m, Reorg(cfg, db, gone), Without(log, Hashes(gone)), gained);
  }

  lemma MovesState(cfg: Config, m: Mapping, tr: Track, cut: Track, after: Track, db: Db, mid: Db, gone: seq<Block>,
                   gained: seq<Block>, log: StateLog, bytes: seq<ByteEntry>)
    requires cfg.mapping == Some(m) && Good(tr) && Moves(tr, cut, after) && Stated(db.tables, tr.base + tr.done, log)
    requires Lined(bytes, tr.base + tr.done) && Encodes(cfg.render, bytes, log)
    requires gone == tr.done[|cut.done|..] && gained == after.done[|cut.done|..] && mid == Reorg(cfg, db, gone)
    ensures Stated(PersistBlocks(cfg, mid, gained).tables, after.base + after.done,
                   Emit(cfg, m, mid, Without(log, Hashes(gone)), gained))
    ensures Encodes(cfg.render, Without(bytes, Hashes(gone)) + Logged(cfg, mid, gained),
                    Emit(cfg, m, mid, Without(log, Hashes(gone)), gained))
  {
    var p := tr.base + cut.done;
    CommittedIsLegal(tr);
    CommittedIsLegal(after);
    ThroughCut(tr, cut, after);
    UnwindStates(cfg, db, p, gone, log, bytes);
    CommitsState(cfg, m, mid, p, gained, Without(log, Hashes(gone)), Without(bytes, Hashes(gone)));
  }

  lemma EventStates(cfg: Config, m: Mapping, depth: Option<u64>, tr: Track, s: Node, e: Event, log: StateLog,
                    bytes: seq<ByteEntry>)
    requires cfg.mapping == Some(m) && Good(tr) && Followed(depth, tr, e)
    requires Forget(s.view) == Split(tr.done, tr.waiting) && Stated(s.db.tables, tr.base + tr.done, log)
    requires Lined(bytes, tr.base + tr.done) && Encodes(cfg.render, bytes, log)
    ensures var next := AnyNextTrack(depth, tr, e);
      Stated(NodeEvent(cfg, depth, s, e).db.tables, next.base + next.done, EmissionsAfter(cfg, m, depth, s, log, e))
    ensures Encodes(cfg.render, LogAfter(cfg, depth, s, bytes, e), EmissionsAfter(cfg, m, depth, s, log, e))
  {
    if e.Restarted? || Aborts(e.n) {
      RestartGood(tr, AnyNextTrack(depth, tr, e));
    } else {
      var cut, after, step := Cut(tr, e.n), AnyAfter(depth, tr, e.n), NotificationStep(depth, s.view, e.n);
      NotificationMoves(depth, tr, s.view, e.n);
      StepPersists(cfg, tr, cut, after, s.db, step);
      LogMoves(cfg, tr, cut, after, s.db, bytes, step);
      EmissionsMove(cfg, m, tr, cut, after, s.db, log, step);
      var gone := tr.done[|cut.done|..];
      MovesState(cfg, m, tr, cut, after, s.db, Reorg(cfg, s.db, gone), gone, after.done[|cut.done|..], log, bytes);
    }
  }

  lemma {:induction false} RunStated(cfg: Config, m: Mapping, depth: Option<u64>, es: seq<Event>)
    requires cfg.mapping == Some(m) && SuffixRun(depth, es)
    ensures Stated(RunNode(cfg, depth, es).db.tables, Surviving(depth, es), RunEmissions(cfg, m, depth, es))
    ensures Encodes(cfg.render, RunLog(cfg, depth, es), RunEmissions(cfg, m, depth, es))
  {
    if es == [] {
      assert Surviving(depth, es) == [];
    } else {
      var before := es[..|es| - 1];
      RunStated(cfg, m, depth, before);
      RunChained(cfg, depth, before);
      MemoryRefines(cfg, depth, before);
      EventStates(cfg, m, depth, AnyTrack(depth, before), RunNode(cfg, depth, before), es[|es| - 1],
                  RunEmissions(cfg, m, depth, before), RunLog(cfg, depth, before));
    }
  }

  /** After every run whose removals name suffixes, whatever rows its reorgs took along:
      the store shows exactly the entities that surviving blocks emitted, each in the
      state of its last emission, and that is what the next block's handlers are handed. */
  lemma RunShowsLast(cfg: Config, m: Mapping, depth: Option<u64>, es: seq<Event>, log: StateLog, shown: map<Key, Json>)
    requires cfg.mapping == Some(m) && SuffixRun(depth, es) && log == RunEmissions(cfg, m, depth, es)
    requires shown == Snapshot(RunNode(cfg, depth, es).db.tables)
    ensures Answers(log, Surviving(depth, es))
    ensures shown == Last(EmittedIn(log)) && ShowsLast(shown, EmittedIn(log))
  {
    RunStated(cfg, m, depth, es);
    MemoryRefines(cfg, depth, es);
    CommittedIsLegal(AnyTrack(depth, es));
    StatedShows(RunNode(cfg, depth, es).db.tables, Surviving(depth, es), log);
    LastIsShown(EmittedIn(log));
  }
}
