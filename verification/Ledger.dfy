/** What the two legacy inscription ledgers share: a registry of ticks, each with a
    state of its own, driven by an op stream of which only accepted ops count; and
    the journal those ops are replayed from after a restart or a reorg
    (docs/references/KRC20_KRC721_REFERENCE.md:54). */
module Ledger {
  import opened Prelude

  /** An op on a tick, as performed by `sender`. */
  datatype Act<+Op> = Act(tick: string, op: Op, sender: string)

  /** An acceptance rule: the tick's next state, or why the op is dropped. */
  type Rule<!S, !Op> = (Option<S>, Op, string) -> Result<S, string>

  datatype Outcome = Accepted | Rejected(reason: string)

  function At<S>(m: map<string, S>, tick: string): Option<S> {
    if tick in m then Some(m[tick]) else None
  }

  function Ruling<S, Op>(rule: Rule<S, Op>, m: map<string, S>, a: Act<Op>): Result<S, string> {
    rule(At(m, a.tick), a.op, a.sender)
  }

  function Apply<S, Op>(rule: Rule<S, Op>, m: map<string, S>, a: Act<Op>): map<string, S> {
    match Ruling(rule, m, a)
    case Ok(s) => m[a.tick := s]
    case Err(_) => m
  }

  function Replay<S, Op>(rule: Rule<S, Op>, acts: seq<Act<Op>>): map<string, S> {
    if acts == [] then map[]
    else Apply(rule, Replay(rule, acts[..|acts| - 1]), acts[|acts| - 1])
  }

  /** The last act is accepted where it stands in the stream. */
  predicate LastAccepted<S, Op>(rule: Rule<S, Op>, acts: seq<Act<Op>>)
    requires acts != []
  {
    Ruling(rule, Replay(rule, acts[..|acts| - 1]), acts[|acts| - 1]).Ok?
  }

  /** The accepted acts, in order: what the journal records. */
  function Journal<S, Op>(rule: Rule<S, Op>, acts: seq<Act<Op>>): seq<Act<Op>> {
    if acts == [] then []
    else
      var n := |acts| - 1;
      Journal(rule, acts[..n]) + if LastAccepted(rule, acts) then [acts[n]] else []
  }

  lemma ReplayAppend<S, Op>(rule: Rule<S, Op>, acts: seq<Act<Op>>, a: Act<Op>)
    ensures Replay(rule, acts + [a]) == Apply(rule, Replay(rule, acts), a)
    ensures LastAccepted(rule, acts + [a]) == Ruling(rule, Replay(rule, acts), a).Ok?
    ensures Journal(rule, acts + [a]) == Journal(rule, acts) + if Ruling(rule, Replay(rule, acts), a).Ok? then [a] else []
  {
    var all := acts + [a];
    assert all[..|all| - 1] == acts && all[|all| - 1] == a;
  }

  // ----- Replaying the journal -----

  /** The accepted acts alone rebuild the ledger, and every one is accepted again. */
  lemma {:induction false} JournalReplays<S, Op>(rule: Rule<S, Op>, acts: seq<Act<Op>>)
    ensures Replay(rule, Journal(rule, acts)) == Replay(rule, acts)
    ensures Journal(rule, Journal(rule, acts)) == Journal(rule, acts)
    decreases |acts|
  {
    if acts != [] {
      var n := |acts| - 1;
      var before := Journal(rule, acts[..n]);
      JournalReplays(rule, acts[..n]);
      ReplayAppend(rule, before, acts[n]);
      assert before + [] == before;
    }
  }

  // ----- Ticks do not interact -----

  function OnTick<Op>(acts: seq<Act<Op>>, tick: string): seq<Act<Op>> {
    if acts == [] then []
    else
      var n := |acts| - 1;
      OnTick(acts[..n], tick) + if acts[n].tick == tick then [acts[n]] else []
  }

  /** A tick's state is a function of that tick's own acts. */
  lemma {:induction false} TickAlone<S, Op>(rule: Rule<S, Op>, acts: seq<Act<Op>>, tick: string)
    ensures At(Replay(rule, acts), tick) == At(Replay(rule, OnTick(acts, tick)), tick)
    decreases |acts|
  {
    if acts != [] {
      var n := |acts| - 1;
      var own := OnTick(acts[..n], tick);
      TickAlone(rule, acts[..n], tick);
      ReplayAppend(rule, own, acts[n]);
      assert own + [] == own;
    }
  }

  lemma SameAt<S>(m: map<string, S>, n: map<string, S>)
    requires forall t :: At(m, t) == At(n, t)
    ensures m == n
  {
    forall t ensures t in m <==> t in n {
      assert At(m, t) == At(n, t);
    }
    forall t | t in m ensures m[t] == n[t] {
      assert At(m, t) == At(n, t);
    }
  }

  /** Any reordering that keeps each tick's own order leaves the ledger as it is. */
  lemma ReorderedReplays<S, Op>(rule: Rule<S, Op>, xs: seq<Act<Op>>, ys: seq<Act<Op>>)
    requires forall t :: OnTick(xs, t) == OnTick(ys, t)
    ensures Replay(rule, xs) == Replay(rule, ys)
  {
    forall t ensures At(Replay(rule, xs), t) == At(Replay(rule, ys), t) {
      TickAlone(rule, xs, t);
      TickAlone(rule, ys, t);
    }
    SameAt(Replay(rule, xs), Replay(rule, ys));
  }

  // ----- The journal table -----

  /** A journal row: the act with its acceptance DAA and its tick's next counter. */
  datatype Row<+Op> = Row(act: Act<Op>, tx: string, daa: int, position: nat)

  function ActsOf<Op>(rows: seq<Row<Op>>): (r: seq<Act<Op>>)
    ensures |r| == |rows|
    ensures forall i :: 0 <= i < |rows| ==> r[i] == rows[i].act
  {
    seq(|rows|, i requires 0 <= i < |rows| => rows[i].act)
  }

  /** `COALESCE(MAX(seq) + 1, 0)` over the tick's rows. */
  function NextSeq<Op>(rows: seq<Row<Op>>, tick: string): nat {
    if rows == [] then 0
    else
      var rest, last := NextSeq(rows[..|rows| - 1], tick), rows[|rows| - 1];
      if last.act.tick == tick && rest <= last.position then last.position + 1 else rest
  }

  /** `DELETE ... WHERE accepting_daa_score >= c`. */
  function RowsBelow<Op>(rows: seq<Row<Op>>, c: int): seq<Row<Op>> {
    if rows == [] then []
    else RowsBelow(rows[..|rows| - 1], c) + if rows[|rows| - 1].daa < c then [rows[|rows| - 1]] else []
  }

  /** `ORDER BY accepting_daa_score, tick, seq`, as far as one tick's rows see it. */
  ghost predicate Fetched<Op>(rows: seq<Row<Op>>, out: seq<Row<Op>>) {
    && multiset(out) == multiset(rows)
    && forall i, j :: 0 <= i < j < |out| && out[i].act.tick == out[j].act.tick ==>
         out[i].daa < out[j].daa || (out[i].daa == out[j].daa && out[i].position <= out[j].position)
  }

  /** The journal of an acceptance order: DAAs never fall, and each tick's counter rises. */
  ghost predicate Ordered<Op>(rows: seq<Row<Op>>) {
    forall i, j :: 0 <= i < j < |rows| ==>
      rows[i].daa <= rows[j].daa && (rows[i].act.tick == rows[j].act.tick ==> rows[i].position < rows[j].position)
  }

  function RowsOn<Op>(rows: seq<Row<Op>>, tick: string): (r: seq<Row<Op>>)
    ensures forall i :: 0 <= i < |r| ==> r[i] in rows && r[i].act.tick == tick
  {
    if rows == [] then []
    else
      var n := |rows| - 1;
      RowsOn(rows[..n], tick) + if rows[n].act.tick == tick then [rows[n]] else []
  }

  lemma {:induction false} ActsOnTick<Op>(rows: seq<Row<Op>>, tick: string)
    ensures OnTick(ActsOf(rows), tick) == ActsOf(RowsOn(rows, tick))
    decreases |rows|
  {
    if rows != [] {
      var n := |rows| - 1;
      ActsOnTick(rows[..n], tick);
      assert ActsOf(rows)[..n] == ActsOf(rows[..n]);
    }
  }

  ghost predicate Rising<Op>(rows: seq<Row<Op>>) {
    forall i, j :: 0 <= i < j < |rows| ==> rows[i].position < rows[j].position
  }

  lemma {:induction false} CountOn<Op>(rows: seq<Row<Op>>, tick: string, r: Row<Op>)
    ensures multiset(RowsOn(rows, tick))[r] == if r.act.tick == tick then multiset(rows)[r] else 0
    decreases |rows|
  {
    if rows != [] {
      var n := |rows| - 1;
      CountOn(rows[..n], tick, r);
      assert rows == rows[..n] + [rows[n]];
    }
  }

  lemma {:induction false} RowsOnRising<Op>(rows: seq<Row<Op>>, tick: string)
    requires forall i, j :: 0 <= i < j < |rows| && rows[i].act.tick == tick == rows[j].act.tick ==>
      rows[i].position < rows[j].position
    ensures Rising(RowsOn(rows, tick))
    decreases |rows|
  {
    if rows != [] {
      var n := |rows| - 1;
      RowsOnRising(rows[..n], tick);
      var before := RowsOn(rows[..n], tick);
      forall i | 0 <= i < |before| && rows[n].act.tick == tick ensures before[i].position < rows[n].position {
        assert before[i] in rows[..n];
      }
    }
  }

  lemma SameLength<Op>(xs: seq<Row<Op>>, ys: seq<Row<Op>>)
    requires multiset(xs) == multiset(ys)
    ensures |xs| == |ys|
  {
    assert |xs| == |multiset(xs)| == |multiset(ys)| == |ys|;
  }

  lemma LastIsSame<Op>(xs: seq<Row<Op>>, ys: seq<Row<Op>>, n: nat)
    requires Rising(xs) && Rising(ys) && multiset(xs) == multiset(ys) && |xs| == |ys| == n + 1
    ensures xs[n] == ys[n]
  {
    assert xs[n] in multiset(ys) && ys[n] in multiset(xs);
    var i :| 0 <= i < |ys| && ys[i] == xs[n];
    var j :| 0 <= j < |xs| && xs[j] == ys[n];
  }

  /** Two rising lists of the same rows are the same list. */
  lemma {:induction false} RisingUnique<Op>(xs: seq<Row<Op>>, ys: seq<Row<Op>>)
    requires Rising(xs) && Rising(ys) && multiset(xs) == multiset(ys)
    ensures xs == ys
    decreases |xs|
  {
    SameLength(xs, ys);
    if xs != [] {
      var n := |xs| - 1;
      LastIsSame(xs, ys, n);
      WithoutLast(xs, n);
      WithoutLast(ys, n);
      RisingUnique(xs[..n], ys[..n]);
    }
  }

  lemma WithoutLast<Op>(xs: seq<Row<Op>>, n: nat)
    requires |xs| == n + 1
    ensures xs == xs[..n] + [xs[n]] && multiset(xs[..n]) == multiset(xs) - multiset{xs[n]}
  {
    assert xs == xs[..n] + [xs[n]];
    assert multiset(xs) == multiset(xs[..n]) + multiset{xs[n]};
  }

  lemma PairRises<Op>(rows: seq<Row<Op>>, out: seq<Row<Op>>, i: nat, j: nat)
    requires Ordered(rows) && Fetched(rows, out) && i < j < |out| && out[i].act.tick == out[j].act.tick
    requires out[i] != out[j]
    ensures out[i].position < out[j].position
  {
    assert out[i] in multiset(rows) && out[j] in multiset(rows);
    var a :| 0 <= a < |rows| && rows[a] == out[i];
    var b :| 0 <= b < |rows| && rows[b] == out[j];
    assert a < b || b < a;
  }

  lemma RowOnce<Op>(rows: seq<Row<Op>>, k: nat)
    requires Ordered(rows) && k < |rows|
    ensures multiset(rows)[rows[k]] == 1
  {
    assert rows == rows[..k] + [rows[k]] + rows[k + 1..];
    var low, high := rows[..k], rows[k + 1..];
    assert forall i :: 0 <= i < |low| ==> low[i].daa <= rows[k].daa && low[i] != rows[k];
    assert forall i :: 0 <= i < |high| ==> rows[k].daa <= high[i].daa && high[i] != rows[k];
    assert multiset(rows) == multiset(low) + multiset{rows[k]} + multiset(high);
  }

  lemma NoRepeat<Op>(rows: seq<Row<Op>>, out: seq<Row<Op>>, i: nat, j: nat)
    requires Ordered(rows) && multiset(out) == multiset(rows) && i < j < |out|
    ensures out[i] != out[j]
  {
    assert out[i] in multiset(rows);
    var k :| 0 <= k < |rows| && rows[k] == out[i];
    RowOnce(rows, k);
    assert out == out[..i] + [out[i]] + out[i + 1..j] + [out[j]] + out[j + 1..];
  }

  /** Reading the journal back keeps each tick's acceptance order. */
  lemma FetchKeepsOrder<Op>(rows: seq<Row<Op>>, out: seq<Row<Op>>, tick: string)
    requires Ordered(rows) && Fetched(rows, out)
    ensures OnTick(ActsOf(out), tick) == OnTick(ActsOf(rows), tick)
  {
    forall i, j | 0 <= i < j < |out| && out[i].act.tick == tick == out[j].act.tick
      ensures out[i].position < out[j].position
    {
      NoRepeat(rows, out, i, j);
      PairRises(rows, out, i, j);
    }
    RowsOnRising(rows, tick);
    RowsOnRising(out, tick);
    forall r ensures multiset(RowsOn(rows, tick))[r] == multiset(RowsOn(out, tick))[r] {
      CountOn(rows, tick, r);
      CountOn(out, tick, r);
    }
    RisingUnique(RowsOn(rows, tick), RowsOn(out, tick));
    ActsOnTick(rows, tick);
    ActsOnTick(out, tick);
  }

  /** So the ledger replayed from the table is the ledger of the journal. */
  lemma FetchedReplays<S, Op>(rule: Rule<S, Op>, rows: seq<Row<Op>>, out: seq<Row<Op>>)
    requires Ordered(rows) && Fetched(rows, out)
    ensures Replay(rule, ActsOf(out)) == Replay(rule, ActsOf(rows))
  {
    forall t ensures OnTick(ActsOf(out), t) == OnTick(ActsOf(rows), t) {
      FetchKeepsOrder(rows, out, t);
    }
    ReorderedReplays(rule, ActsOf(out), ActsOf(rows));
  }
}
