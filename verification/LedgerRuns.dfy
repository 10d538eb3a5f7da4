/** Whole runs of a ledger with its journal: ops performed at rising DAA scores,
    reorg unwinds by DAA cutoff, and restarts, each rebuilding the in-memory ledger
    from what the journal table gives back. */
module LedgerRuns {
  import opened Ledger

  /** An act with its transaction and the DAA of the block that accepted it. */
  datatype Stamped<+Op> = Stamped(act: Act<Op>, tx: string, daa: int)

  function Acts<Op>(xs: seq<Stamped<Op>>): (r: seq<Act<Op>>)
    ensures |r| == |xs|
    ensures forall i :: 0 <= i < |xs| ==> r[i] == xs[i].act
  {
    seq(|xs|, i requires 0 <= i < |xs| => xs[i].act)
  }

  function Before<Op>(xs: seq<Stamped<Op>>, c: int): seq<Stamped<Op>> {
    if xs == [] then []
    else Before(xs[..|xs| - 1], c) + if xs[|xs| - 1].daa < c then [xs[|xs| - 1]] else []
  }

  ghost predicate NeverFalls<Op>(xs: seq<Stamped<Op>>) {
    forall i, j :: 0 <= i < j < |xs| ==> xs[i].daa <= xs[j].daa
  }

  /** The row of an accepted act: its tick's next acceptance number. */
  function RowOf<Op>(rows: seq<Row<Op>>, x: Stamped<Op>): Row<Op> {
    Row(x.act, x.tx, x.daa, NextSeq(rows, x.act.tick))
  }

  /** The journal records each transaction once. */
  predicate HasTx<Op>(rows: seq<Row<Op>>, tx: string) {
    exists i :: 0 <= i < |rows| && rows[i].tx == tx
  }

  /** The journal rows a stream leaves: one per accepted act. */
  function RowsFor<S, Op>(rule: Rule<S, Op>, xs: seq<Stamped<Op>>): seq<Row<Op>> {
    if xs == [] then []
    else
      var n := |xs| - 1;
      var before := RowsFor(rule, xs[..n]);
      if Ruling(rule, Replay(rule, Acts(xs[..n])), xs[n].act).Ok?
      then before + [RowOf(before, xs[n])] else before
  }

  lemma ActsAppend<Op>(xs: seq<Stamped<Op>>, x: Stamped<Op>)
    ensures Acts(xs + [x]) == Acts(xs) + [x.act]
  {
  }

  lemma RowsForAppend<S, Op>(rule: Rule<S, Op>, xs: seq<Stamped<Op>>, x: Stamped<Op>)
    ensures RowsFor(rule, xs + [x]) ==
      RowsFor(rule, xs) + if Ruling(rule, Replay(rule, Acts(xs)), x.act).Ok? then [RowOf(RowsFor(rule, xs), x)] else []
  {
    assert (xs + [x])[..|xs|] == xs;
  }

  lemma {:induction false} RowsAreJournal<S, Op>(rule: Rule<S, Op>, xs: seq<Stamped<Op>>)
    ensures ActsOf(RowsFor(rule, xs)) == Journal(rule, Acts(xs))
    decreases |xs|
  {
    if xs != [] {
      var before, x := xs[..|xs| - 1], xs[|xs| - 1];
      assert xs == before + [x];
      RowsAreJournal(rule, before);
      JournalAppend(rule, before, x);
    }
  }

  lemma JournalAppend<S, Op>(rule: Rule<S, Op>, xs: seq<Stamped<Op>>, x: Stamped<Op>)
    requires ActsOf(RowsFor(rule, xs)) == Journal(rule, Acts(xs))
    ensures ActsOf(RowsFor(rule, xs + [x])) == Journal(rule, Acts(xs + [x]))
  {
    RowsForAppend(rule, xs, x);
    ActsAppend(xs, x);
    ReplayAppend(rule, Acts(xs), x.act);
  }

  lemma {:induction false} NextSeqAbove<Op>(rows: seq<Row<Op>>, tick: string, i: nat)
    requires i < |rows| && rows[i].act.tick == tick
    ensures rows[i].position < NextSeq(rows, tick)
    decreases |rows|
  {
    if i < |rows| - 1 {
      NextSeqAbove(rows[..|rows| - 1], tick, i);
    }
  }

  lemma {:induction false} RowsWithin<S, Op>(rule: Rule<S, Op>, xs: seq<Stamped<Op>>, top: int)
    requires forall i :: 0 <= i < |xs| ==> xs[i].daa <= top
    ensures forall i :: 0 <= i < |RowsFor(rule, xs)| ==> RowsFor(rule, xs)[i].daa <= top
    decreases |xs|
  {
    if xs != [] {
      RowsWithin(rule, xs[..|xs| - 1], top);
    }
  }

  lemma {:induction false} RowsAreOrdered<S, Op>(rule: Rule<S, Op>, xs: seq<Stamped<Op>>)
    requires NeverFalls(xs)
    ensures Ordered(RowsFor(rule, xs))
    decreases |xs|
  {
    if xs != [] {
      var n := |xs| - 1;
      var before := RowsFor(rule, xs[..n]);
      RowsAreOrdered(rule, xs[..n]);
      RowsWithin(rule, xs[..n], xs[n].daa);
      forall i | 0 <= i < |before| && before[i].act.tick == xs[n].act.tick
        ensures before[i].position < NextSeq(before, xs[n].act.tick)
      {
        NextSeqAbove(before, xs[n].act.tick, i);
      }
    }
  }

  lemma {:induction false} AllBelow<Op>(rows: seq<Row<Op>>, c: int)
    requires forall i :: 0 <= i < |rows| ==> rows[i].daa < c
    ensures RowsBelow(rows, c) == rows
  {
    if rows != [] {
      AllBelow(rows[..|rows| - 1], c);
    }
  }

  lemma {:induction false} AllBefore<Op>(xs: seq<Stamped<Op>>, c: int)
    requires forall i :: 0 <= i < |xs| ==> xs[i].daa < c
    ensures Before(xs, c) == xs
  {
    if xs != [] {
      AllBefore(xs[..|xs| - 1], c);
    }
  }

  lemma RowDropped<Op>(rows: seq<Row<Op>>, r: Row<Op>, c: int)
    requires c <= r.daa
    ensures RowsBelow(rows + [r], c) == RowsBelow(rows, c)
  {
    assert (rows + [r])[..|rows + [r]| - 1] == rows;
  }

  /** Deleting the rows at or above the cutoff leaves the journal of the ops before it. */
  lemma {:induction false} UnwindIsPrefix<S, Op>(rule: Rule<S, Op>, xs: seq<Stamped<Op>>, c: int)
    requires NeverFalls(xs)
    ensures RowsBelow(RowsFor(rule, xs), c) == RowsFor(rule, Before(xs, c))
    decreases |xs|
  {
    if xs != [] {
      var n := |xs| - 1;
      if xs[n].daa < c {
        AllKept(rule, xs, c);
      } else {
        UnwindIsPrefix(rule, xs[..n], c);
        LastDropped(rule, xs, c, n);
      }
    }
  }

  lemma AllKept<S, Op>(rule: Rule<S, Op>, xs: seq<Stamped<Op>>, c: int)
    requires forall i :: 0 <= i < |xs| ==> xs[i].daa < c
    ensures RowsBelow(RowsFor(rule, xs), c) == RowsFor(rule, xs) && Before(xs, c) == xs
  {
    RowsWithin(rule, xs, c - 1);
    AllBelow(RowsFor(rule, xs), c);
    AllBefore(xs, c);
  }

  lemma LastDropped<S, Op>(rule: Rule<S, Op>, xs: seq<Stamped<Op>>, c: int, n: nat)
    requires |xs| == n + 1 && c <= xs[n].daa
    ensures RowsBelow(RowsFor(rule, xs), c) == RowsBelow(RowsFor(rule, xs[..n]), c)
    ensures Before(xs, c) == Before(xs[..n], c)
  {
    var before := RowsFor(rule, xs[..n]);
    RowDropped(before, RowOf(before, xs[n]), c);
  }

  // ----- Runs -----

  datatype Event<+Op> = Performed(x: Stamped<Op>) | Unwound(fromDaa: int) | Restarted

  /** The ledger in memory and the journal table. */
  datatype Indexer<+S, +Op> = Indexer(live: map<string, S>, rows: seq<Row<Op>>)

  /** The ledger is rebuilt from the rows, in whatever replay order they come back. */
  ghost predicate Rebuilt<S, Op(!new)>(rule: Rule<S, Op>, rows: seq<Row<Op>>, next: Indexer<S, Op>) {
    next.rows == rows && exists out :: Fetched(rows, out) && next.live == Replay(rule, ActsOf(out))
  }

  ghost predicate Steps<S, Op(!new)>(rule: Rule<S, Op>, s: Indexer<S, Op>, e: Event<Op>, next: Indexer<S, Op>) {
    match e
    case Performed(x) =>
      next == if HasTx(s.rows, x.tx) || Ruling(rule, s.live, x.act).Err? then s
              else Indexer(Apply(rule, s.live, x.act), s.rows + [RowOf(s.rows, x)])
    case Unwound(c) => Rebuilt(rule, RowsBelow(s.rows, c), next)
    case Restarted => Rebuilt(rule, s.rows, next)
  }

  /** A transaction already in the journal is passed over before its op is looked at. */
  predicate Repeats<S, Op>(rule: Rule<S, Op>, xs: seq<Stamped<Op>>, x: Stamped<Op>) {
    HasTx(RowsFor(rule, xs), x.tx)
  }

  function Survive<S, Op>(rule: Rule<S, Op>, xs: seq<Stamped<Op>>, e: Event<Op>): seq<Stamped<Op>> {
    match e
    case Performed(x) => if Repeats(rule, xs, x) then xs else xs + [x]
    case Unwound(c) => Before(xs, c)
    case Restarted => xs
  }

  /** The performed ops, repeats of journaled ones aside, that no unwind has taken back. */
  function Surviving<S, Op>(rule: Rule<S, Op>, es: seq<Event<Op>>): seq<Stamped<Op>> {
    if es == [] then [] else Survive(rule, Surviving(rule, es[..|es| - 1]), es[|es| - 1])
  }

  ghost predicate Follows<S, Op>(rule: Rule<S, Op>, xs: seq<Stamped<Op>>, e: Event<Op>) {
    e.Performed? && !Repeats(rule, xs, e.x) ==> forall i :: 0 <= i < |xs| ==> xs[i].daa <= e.x.daa
  }

  /** What is new is accepted in DAA order, above what survives; repeats come at any time. */
  ghost predicate InOrder<S, Op>(rule: Rule<S, Op>, es: seq<Event<Op>>) {
    forall k :: 0 <= k < |es| ==> Follows(rule, Surviving(rule, es[..k]), es[k])
  }

  ghost predicate IsRun<S, Op(!new)>(rule: Rule<S, Op>, es: seq<Event<Op>>, states: seq<Indexer<S, Op>>) {
    && |states| == |es| + 1 && states[0] == Indexer(map[], [])
    && forall k :: 0 <= k < |es| ==> Steps(rule, states[k], es[k], states[k + 1])
  }

  /** Where a run must be: the ledger and the journal of the surviving ops. */
  ghost predicate Tracks<S, Op>(rule: Rule<S, Op>, xs: seq<Stamped<Op>>, s: Indexer<S, Op>) {
    NeverFalls(xs) && s.rows == RowsFor(rule, xs) && s.live == Replay(rule, Acts(xs))
  }

  /** Whatever the table gives back in replay order rebuilds the stream's ledger. */
  lemma ReadBack<S, Op>(rule: Rule<S, Op>, xs: seq<Stamped<Op>>, out: seq<Row<Op>>)
    requires NeverFalls(xs) && Fetched(RowsFor(rule, xs), out)
    ensures Replay(rule, ActsOf(out)) == Replay(rule, Acts(xs))
  {
    RowsAreOrdered(rule, xs);
    FetchedReplays(rule, RowsFor(rule, xs), out);
    RowsAreJournal(rule, xs);
    JournalReplays(rule, Acts(xs));
  }

  lemma RebuiltTracks<S, Op(!new)>(rule: Rule<S, Op>, xs: seq<Stamped<Op>>, next: Indexer<S, Op>)
    requires NeverFalls(xs) && Rebuilt(rule, RowsFor(rule, xs), next)
    ensures Tracks(rule, xs, next)
  {
    var out :| Fetched(RowsFor(rule, xs), out) && next.live == Replay(rule, ActsOf(out));
    ReadBack(rule, xs, out);
  }

  lemma {:induction false} BeforeIn<Op>(xs: seq<Stamped<Op>>, c: int, i: nat)
    requires i < |Before(xs, c)|
    ensures Before(xs, c)[i] in xs
    decreases |xs|
  {
    var n := |xs| - 1;
    if i < |Before(xs[..n], c)| {
      BeforeIn(xs[..n], c, i);
    }
  }

  lemma {:induction false} BeforeNeverFalls<Op>(xs: seq<Stamped<Op>>, c: int)
    requires NeverFalls(xs)
    ensures NeverFalls(Before(xs, c))
    decreases |xs|
  {
    if xs != [] {
      var n := |xs| - 1;
      BeforeNeverFalls(xs[..n], c);
      forall i | 0 <= i < |Before(xs[..n], c)| ensures Before(xs[..n], c)[i].daa <= xs[n].daa {
        BeforeIn(xs[..n], c, i);
      }
    }
  }

  lemma PerformedTracks<S, Op(!new)>(rule: Rule<S, Op>, xs: seq<Stamped<Op>>, s: Indexer<S, Op>, x: Stamped<Op>, next: Indexer<S, Op>)
    requires Tracks(rule, xs, s) && Steps(rule, s, Performed(x), next) && Follows(rule, xs, Performed(x))
    ensures Tracks(rule, Survive(rule, xs, Performed(x)), next)
  {
    RowsForAppend(rule, xs, x);
    ActsAppend(xs, x);
    ReplayAppend(rule, Acts(xs), x.act);
  }

  lemma StepTracks<S, Op(!new)>(rule: Rule<S, Op>, xs: seq<Stamped<Op>>, s: Indexer<S, Op>, e: Event<Op>, next: Indexer<S, Op>)
    requires Tracks(rule, xs, s) && Steps(rule, s, e, next) && Follows(rule, xs, e)
    ensures Tracks(rule, Survive(rule, xs, e), next)
  {
    match e
    case Performed(x) => PerformedTracks(rule, xs, s, x, next);
    case Unwound(c) =>
      UnwindIsPrefix(rule, xs, c);
      BeforeNeverFalls(xs, c);
      RebuiltTracks(rule, Before(xs, c), next);
    case Restarted => RebuiltTracks(rule, xs, next);
  }

  lemma SurvivingNext<S, Op>(rule: Rule<S, Op>, es: seq<Event<Op>>, k: nat)
    requires k < |es|
    ensures Surviving(rule, es[..k + 1]) == Survive(rule, Surviving(rule, es[..k]), es[k])
  {
    assert es[..k + 1][..k] == es[..k];
  }

  lemma {:induction false} RunTracks<S, Op(!new)>(rule: Rule<S, Op>, es: seq<Event<Op>>, states: seq<Indexer<S, Op>>, k: nat)
    requires IsRun(rule, es, states) && InOrder(rule, es) && k <= |es|
    ensures Tracks(rule, Surviving(rule, es[..k]), states[k])
  {
    if k > 0 {
      RunTracks(rule, es, states, k - 1);
      SurvivingNext(rule, es, k - 1);
      StepTracks(rule, Surviving(rule, es[..k - 1]), states[k - 1], es[k - 1], states[k]);
    }
  }

  /** After any run of ops, repeats, reorg unwinds and restarts, the ledger is the one a
      node holds that performed the surviving ops only, and so is the journal. */
  lemma RunIsSurvivors<S, Op(!new)>(rule: Rule<S, Op>, es: seq<Event<Op>>, states: seq<Indexer<S, Op>>)
    requires IsRun(rule, es, states) && InOrder(rule, es)
    ensures Tracks(rule, Surviving(rule, es), states[|es|])
  {
    RunTracks(rule, es, states, |es|);
    assert es[..|es|] == es;
  }

  // ----- Each transaction at most once -----

  ghost predicate OncePerTx<Op>(rows: seq<Row<Op>>) {
    forall i, j :: 0 <= i < j < |rows| ==> rows[i].tx != rows[j].tx
  }

  lemma {:induction false} BelowIn<Op>(rows: seq<Row<Op>>, c: int, i: nat)
    requires i < |RowsBelow(rows, c)|
    ensures RowsBelow(rows, c)[i] in rows
    decreases |rows|
  {
    var n := |rows| - 1;
    if i < |RowsBelow(rows[..n], c)| {
      BelowIn(rows[..n], c, i);
    }
  }

  lemma OncePerTxMore<Op>(low: seq<Row<Op>>, r: Row<Op>)
    requires OncePerTx(low) && forall i :: 0 <= i < |low| ==> low[i].tx != r.tx
    ensures OncePerTx(low + [r])
  {
  }

  lemma {:induction false} BelowOncePerTx<Op>(rows: seq<Row<Op>>, c: int)
    requires OncePerTx(rows)
    ensures OncePerTx(RowsBelow(rows, c))
    decreases |rows|
  {
    if rows != [] {
      var n := |rows| - 1;
      var low := RowsBelow(rows[..n], c);
      BelowOncePerTx(rows[..n], c);
      if rows[n].daa < c {
        forall i | 0 <= i < |low| ensures low[i].tx != rows[n].tx {
          BelowIn(rows[..n], c, i);
        }
        OncePerTxMore(low, rows[n]);
      } else {
        assert low + [] == low;
      }
    }
  }

  lemma StepOncePerTx<S, Op(!new)>(rule: Rule<S, Op>, s: Indexer<S, Op>, e: Event<Op>, next: Indexer<S, Op>)
    requires OncePerTx(s.rows) && Steps(rule, s, e, next)
    ensures OncePerTx(next.rows)
  {
    if e.Unwound? {
      BelowOncePerTx(s.rows, e.fromDaa);
    }
  }

  lemma {:induction false} OncePerTxUpTo<S, Op(!new)>(rule: Rule<S, Op>, es: seq<Event<Op>>, states: seq<Indexer<S, Op>>, k: nat)
    requires IsRun(rule, es, states) && k <= |es|
    ensures OncePerTx(states[k].rows)
  {
    if k > 0 {
      OncePerTxUpTo(rule, es, states, k - 1);
      StepOncePerTx(rule, states[k - 1], es[k - 1], states[k]);
    }
  }

  /** No run, in whatever order its blocks come, journals a transaction twice. */
  lemma RunIsOncePerTx<S, Op(!new)>(rule: Rule<S, Op>, es: seq<Event<Op>>, states: seq<Indexer<S, Op>>)
    requires IsRun(rule, es, states)
    ensures OncePerTx(states[|es|].rows)
  {
    OncePerTxUpTo(rule, es, states, |es|);
  }
}
