/** In-memory fan-out of detected patterns (api/src/subscriptions.ts): one subscriber
    as a state machine, the source that feeds all of them, and what every
    interleaving of subscribe, publish, next and return guarantees. */
module Subscriptions {
  import opened Prelude

  datatype DetectedPattern = DetectedPattern(
    subgraph: string, detectorKind: string, covenantId: Option<string>, payload: string)

  datatype Filter = Filter(subgraph: Option<string>, kind: Option<string>, covenantId: Option<string>)

  predicate Matches(e: DetectedPattern, f: Filter) {
    && (f.subgraph.Some? ==> e.subgraph == f.subgraph.value)
    && (f.kind.Some? ==> e.detectorKind == f.kind.value)
    && (f.covenantId.Some? ==> e.covenantId == f.covenantId)
  }

  /** What a promise resolves to. */
  datatype Answer = Value(event: DetectedPattern) | Done

  /** A subscriber: `next` calls are numbered, `pending` is the call whose resolver
      is stored, and `answers` lists the resolved calls in order of resolution. */
  datatype Sub = Sub(
    filter: Filter, queue: seq<DetectedPattern>, pending: Option<nat>, closed: bool,
    calls: nat, answers: seq<(nat, Answer)>)

  function Opened(f: Filter): Sub { Sub(f, [], None, false, 0, []) }

  function Push(s: Sub, e: DetectedPattern): Sub {
    if s.closed then s
    else if s.pending.Some? then s.(pending := None, answers := s.answers + [(s.pending.value, Value(e))])
    else s.(queue := s.queue + [e])
  }

  function Offer(s: Sub, e: DetectedPattern): Sub {
    if Matches(e, s.filter) then Push(s, e) else s
  }

  function Next(s: Sub): Sub {
    if s.closed then s.(calls := s.calls + 1, answers := s.answers + [(s.calls, Done)])
    else if s.queue != [] then
      s.(queue := s.queue[1..], calls := s.calls + 1, answers := s.answers + [(s.calls, Value(s.queue[0]))])
    else s.(pending := Some(s.calls), calls := s.calls + 1)
  }

  function Close(s: Sub): Sub {
    if s.closed then s
    else if s.pending.Some? then
      s.(closed := true, pending := None, answers := s.answers + [(s.pending.value, Done)])
    else s.(closed := true)
  }

  // ----- One subscriber, any run -----

  datatype Op = Published(event: DetectedPattern) | Nexted | Returned

  function Step(s: Sub, op: Op): Sub {
    match op
    case Published(e) => Offer(s, e)
    case Nexted => Next(s)
    case Returned => Close(s)
  }

  function Run(f: Filter, ops: seq<Op>): Sub {
    if ops == [] then Opened(f) else Step(Run(f, ops[..|ops| - 1]), ops[|ops| - 1])
  }

  lemma RunMore(f: Filter, ops: seq<Op>, op: Op)
    ensures Run(f, ops + [op]) == Step(Run(f, ops), op)
  {
    assert (ops + [op])[..|ops + [op]| - 1] == ops;
  }

  /** The matching events published before the subscriber closed, in order. */
  function Feed(f: Filter, ops: seq<Op>): seq<DetectedPattern> {
    if ops == [] then []
    else
      var n := |ops| - 1;
      Feed(f, ops[..n])
      + if Returned !in ops[..n] && ops[n].Published? && Matches(ops[n].event, f) then [ops[n].event] else []
  }

  /** The events answered so far. */
  function Delivered(answers: seq<(nat, Answer)>): seq<DetectedPattern> {
    if answers == [] then []
    else
      var last := answers[|answers| - 1].1;
      Delivered(answers[..|answers| - 1]) + if last.Value? then [last.event] else []
  }

  lemma DeliveredMore(answers: seq<(nat, Answer)>, a: (nat, Answer))
    ensures Delivered(answers + [a]) == Delivered(answers) + if a.1.Value? then [a.1.event] else []
  {
    assert (answers + [a])[..|answers + [a]| - 1] == answers;
  }

  ghost predicate Inv(s: Sub, f: Filter, ops: seq<Op>) {
    && s.filter == f && (s.closed <==> Returned in ops)
    && (s.pending.Some? ==> s.queue == [] && !s.closed && s.pending.value + 1 == s.calls)
    && (forall i :: 0 <= i < |s.answers| ==> s.answers[i].0 < s.calls)
    && (forall i :: 0 <= i < |s.answers| && s.pending.Some? ==> s.answers[i].0 < s.pending.value)
    && (forall i, j :: 0 <= i < j < |s.answers| ==> s.answers[i].0 < s.answers[j].0)
  }

  /** Whatever the interleaving: what was answered followed by what is queued is
      exactly the feed, nothing lost, repeated or reordered. */
  lemma {:induction false} NothingLost(f: Filter, ops: seq<Op>)
    ensures Inv(Run(f, ops), f, ops)
    ensures Delivered(Run(f, ops).answers) + Run(f, ops).queue == Feed(f, ops)
    decreases |ops|
  {
    if ops != [] {
      var n := |ops| - 1;
      NothingLost(f, ops[..n]);
      assert ops == ops[..n] + [ops[n]];
      StepKeepsInv(Run(f, ops[..n]), f, ops[..n], ops[n]);
      StepDelivers(Run(f, ops[..n]), f, ops[..n], ops[n]);
    }
  }

  lemma StepKeepsInv(s: Sub, f: Filter, ops: seq<Op>, op: Op)
    requires Inv(s, f, ops)
    ensures Inv(Step(s, op), f, ops + [op])
  {
  }

  /** What one step adds to delivered-then-queued. */
  lemma StepDelivers(s: Sub, f: Filter, ops: seq<Op>, op: Op)
    requires Inv(s, f, ops)
    ensures var next := Step(s, op);
      Delivered(next.answers) + next.queue
        == Delivered(s.answers) + s.queue
           + if !s.closed && op.Published? && Matches(op.event, f) then [op.event] else []
  {
    match op
    case Published(e) => OfferDelivers(s, e);
    case Nexted => NextDelivers(s);
    case Returned =>
      if s.pending.Some? {
        DeliveredMore(s.answers, (s.pending.value, Done));
      }
  }

  lemma OfferDelivers(s: Sub, e: DetectedPattern)
    requires s.pending.Some? ==> s.queue == [] && !s.closed
    ensures Delivered(Offer(s, e).answers) + Offer(s, e).queue
         == Delivered(s.answers) + s.queue + if !s.closed && Matches(e, s.filter) then [e] else []
  {
    if s.pending.Some? {
      DeliveredMore(s.answers, (s.pending.value, Value(e)));
      assert Delivered(s.answers) + [] == Delivered(s.answers);
    }
  }

  lemma NextDelivers(s: Sub)
    ensures Delivered(Next(s).answers) + Next(s).queue == Delivered(s.answers) + s.queue
  {
    if s.closed {
      DeliveredMore(s.answers, (s.calls, Done));
    } else if s.queue != [] {
      DeliveredMore(s.answers, (s.calls, Value(s.queue[0])));
      assert s.queue == [s.queue[0]] + s.queue[1..];
    }
  }

  /** A waiting `next` means there is nothing queued. */
  lemma WaitingMeansEmpty(f: Filter, ops: seq<Op>)
    requires Run(f, ops).pending.Some?
    ensures Run(f, ops).queue == [] && Delivered(Run(f, ops).answers) == Feed(f, ops)
  {
    NothingLost(f, ops);
    var s := Run(f, ops);
    assert Delivered(s.answers) + [] == Delivered(s.answers);
  }

  // ----- What a filter lets through -----

  function Those(es: seq<DetectedPattern>, test: DetectedPattern -> bool): seq<DetectedPattern> {
    if es == [] then []
    else Those(es[..|es| - 1], test) + if test(es[|es| - 1]) then [es[|es| - 1]] else []
  }

  /** Everything published before the subscriber closed. */
  function Everything(ops: seq<Op>): seq<DetectedPattern> {
    if ops == [] then []
    else
      var n := |ops| - 1;
      Everything(ops[..n]) + if Returned !in ops[..n] && ops[n].Published? then [ops[n].event] else []
  }

  lemma ThoseMore(es: seq<DetectedPattern>, e: DetectedPattern, test: DetectedPattern -> bool)
    ensures Those(es + [e], test) == Those(es, test) + if test(e) then [e] else []
  {
    assert (es + [e])[..|es|] == es;
  }

  lemma {:induction false} FeedNarrows(f: Filter, g: Filter, test: DetectedPattern -> bool, ops: seq<Op>)
    requires forall e :: Matches(e, f) <==> Matches(e, g) && test(e)
    ensures Feed(f, ops) == Those(Feed(g, ops), test)
    decreases |ops|
  {
    if ops != [] {
      var n := |ops| - 1;
      FeedNarrows(f, g, test, ops[..n]);
      if Returned !in ops[..n] && ops[n].Published? && Matches(ops[n].event, g) {
        ThoseMore(Feed(g, ops[..n]), ops[n].event, test);
      } else {
        assert Feed(g, ops[..n]) + [] == Feed(g, ops[..n]);
      }
    }
  }

  lemma {:induction false} OpenFeed(f: Filter, ops: seq<Op>)
    requires f.subgraph.None? && f.kind.None? && f.covenantId.None?
    ensures Feed(f, ops) == Everything(ops)
    decreases |ops|
  {
    if ops != [] {
      OpenFeed(f, ops[..|ops| - 1]);
    }
  }

  /** A filter with nothing set lets everything through, and setting a field keeps
      exactly the events that carry its value there. */
  lemma FilterKeepsThose(f: Filter, ops: seq<Op>, subgraph: string, kind: string, id: string)
    ensures Feed(Filter(None, None, None), ops) == Everything(ops)
    ensures Feed(f.(subgraph := Some(subgraph)), ops)
         == Those(Feed(f.(subgraph := None), ops), (e: DetectedPattern) => e.subgraph == subgraph)
    ensures Feed(f.(kind := Some(kind)), ops)
         == Those(Feed(f.(kind := None), ops), (e: DetectedPattern) => e.detectorKind == kind)
    ensures Feed(f.(covenantId := Some(id)), ops)
         == Those(Feed(f.(covenantId := None), ops), (e: DetectedPattern) => e.covenantId == Some(id))
  {
    OpenFeed(Filter(None, None, None), ops);
    FeedNarrows(f.(subgraph := Some(subgraph)), f.(subgraph := None), (e: DetectedPattern) => e.subgraph == subgraph, ops);
    FeedNarrows(f.(kind := Some(kind)), f.(kind := None), (e: DetectedPattern) => e.detectorKind == kind, ops);
    FeedNarrows(f.(covenantId := Some(id)), f.(covenantId := None), (e: DetectedPattern) => e.covenantId == Some(id), ops);
  }

  // ----- Is every `next` answered? -----

  ghost predicate Answered(s: Sub, call: nat) {
    exists i :: 0 <= i < |s.answers| && s.answers[i].0 == call
  }

  /** At most one `next` is outstanding at any time. */
  ghost predicate OneAtATime(f: Filter, ops: seq<Op>) {
    ops != [] ==>
      && OneAtATime(f, ops[..|ops| - 1])
      && (ops[|ops| - 1].Nexted? ==> Run(f, ops[..|ops| - 1]).pending.None?)
  }

  /** Every call made has been answered, or is the one waiting. */
  ghost predicate AllAnswered(s: Sub) {
    forall call :: 0 <= call < s.calls ==> Answered(s, call) || s.pending == Some(call)
  }

  lemma StaysAnswered(s: Sub, op: Op, call: nat)
    requires Answered(s, call)
    ensures Answered(Step(s, op), call)
  {
    var i :| 0 <= i < |s.answers| && s.answers[i].0 == call;
    assert Step(s, op).answers[i] == s.answers[i];
  }

  lemma StepAnswers(s: Sub, op: Op)
    requires AllAnswered(s) && (op.Nexted? ==> s.pending.None?)
    ensures AllAnswered(Step(s, op))
  {
    var next := Step(s, op);
    forall call | 0 <= call < next.calls ensures Answered(next, call) || next.pending == Some(call) {
      if call < s.calls && Answered(s, call) {
        StaysAnswered(s, op, call);
      } else {
        NewAnswer(s, op, call);
      }
    }
  }

  /** The call that was waiting, or the one just made. */
  lemma NewAnswer(s: Sub, op: Op, call: nat)
    requires call < Step(s, op).calls && (op.Nexted? ==> s.pending.None?)
    requires s.pending == Some(call) || call == s.calls
    ensures Answered(Step(s, op), call) || Step(s, op).pending == Some(call)
  {
    var next := Step(s, op);
    if |next.answers| > |s.answers| {
      assert next.answers[|s.answers|].0 == call;
    }
  }

  /** A call overtaken while it waits is never answered, whatever follows. */
  lemma {:induction false} OvertakenIsLost(f: Filter, ops: seq<Op>, more: seq<Op>, call: nat)
    requires Run(f, ops).pending == Some(call)
    ensures !Answered(Run(f, ops + [Nexted] + more), call)
    ensures Run(f, ops + [Nexted] + more).pending != Some(call)
    decreases |more|
  {
    var start := ops + [Nexted];
    if more == [] {
      Overtaken(f, ops, call);
      assert start + more == start;
    } else {
      var n := |more| - 1;
      var before, all := start + more[..n], start + more;
      OvertakenIsLost(f, ops, more[..n], call);
      Overtaken(f, ops, call);
      CallsGrow(f, start, more[..n]);
      assert all[..|all| - 1] == before && all[|all| - 1] == more[n];
      LostStays(Run(f, before), more[n], call);
    }
  }

  lemma Overtaken(f: Filter, ops: seq<Op>, call: nat)
    requires Run(f, ops).pending == Some(call)
    ensures var s := Run(f, ops + [Nexted]);
      call < s.calls && !Answered(s, call) && s.pending != Some(call)
  {
    NothingLost(f, ops);
    RunMore(f, ops, Nexted);
  }

  lemma {:induction false} CallsGrow(f: Filter, ops: seq<Op>, more: seq<Op>)
    ensures Run(f, ops).calls <= Run(f, ops + more).calls
    decreases |more|
  {
    var all := ops + more;
    if more == [] {
      assert all == ops;
    } else {
      assert all[..|all| - 1] == ops + more[..|more| - 1];
      CallsGrow(f, ops, more[..|more| - 1]);
    }
  }

  lemma LostStays(s: Sub, op: Op, call: nat)
    requires !Answered(s, call) && s.pending != Some(call) && call < s.calls
    ensures !Answered(Step(s, op), call) && Step(s, op).pending != Some(call)
  {
    var next := Step(s, op);
    forall i | 0 <= i < |next.answers| ensures next.answers[i].0 != call {
      if i < |s.answers| {
        assert next.answers[i] == s.answers[i];
      }
    }
  }

  /** Every call is answered or still waiting exactly when no call was made while
      another waited. */
  lemma {:induction false} AnsweredIffOneAtATime(f: Filter, ops: seq<Op>)
    ensures AllAnswered(Run(f, ops)) <==> OneAtATime(f, ops)
    decreases |ops|
  {
    if ops != [] {
      var n := |ops| - 1;
      AnsweredIffOneAtATime(f, ops[..n]);
      if OneAtATime(f, ops) {
        StepAnswers(Run(f, ops[..n]), ops[n]);
      } else {
        StepLoses(f, ops[..n], ops[n]);
      }
      assert ops == ops[..n] + [ops[n]];
    }
  }

  /** A call made while another waits, or after one was lost, leaves one lost. */
  lemma StepLoses(f: Filter, ops: seq<Op>, op: Op)
    requires !AllAnswered(Run(f, ops)) || (op.Nexted? && Run(f, ops).pending.Some?)
    ensures !AllAnswered(Step(Run(f, ops), op))
  {
    var s := Run(f, ops);
    if !AllAnswered(s) {
      var call :| 0 <= call < s.calls && !Answered(s, call) && s.pending != Some(call);
      LostStays(s, op, call);
    } else {
      Overtaken(f, ops, s.pending.value);
      RunMore(f, ops, op);
    }
  }

  // ----- The classes -----

  class InMemorySubscriber {
    const filter: Filter
    var queue: seq<DetectedPattern>
    var pending: Option<nat>
    var closed: bool
    var calls: nat
    var answers: seq<(nat, Answer)>

    function State(): Sub
      reads this
    {
      Sub(filter, queue, pending, closed, calls, answers)
    }

    constructor (f: Filter)
      ensures State() == Opened(f)
    {
      filter, queue, pending, closed, calls, answers := f, [], None, false, 0, [];
    }

    method PushEvent(e: DetectedPattern)
      modifies this
      ensures State() == Push(old(State()), e)
    {
      if closed {
        return;
      }
      if pending.Some? {
        var call := pending.value;
        pending := None;
        answers := answers + [(call, Value(e))];
        return;
      }
      queue := queue + [e];
    }

    method NextCall()
      modifies this
      ensures State() == Next(old(State()))
    {
      var call := calls;
      calls := calls + 1;
      if closed {
        answers := answers + [(call, Done)];
        return;
      }
      if queue != [] {
        var queued := queue[0];
        queue := queue[1..];
        answers := answers + [(call, Value(queued))];
        return;
      }
      pending := Some(call);
    }

    /** Returns whether the source's clean-up callback is due. */
    method CloseStream() returns (cleanUp: bool)
      modifies this
      ensures State() == Close(old(State())) && cleanUp == !old(closed)
    {
      if closed {
        return false;
      }
      closed := true;
      if pending.Some? {
        var call := pending.value;
        pending := None;
        answers := answers + [(call, Done)];
      }
      return true;
    }
  }

  /** The subscriber set without one of its members. */
  function Without(subs: seq<InMemorySubscriber>, s: InMemorySubscriber): (r: seq<InMemorySubscriber>)
    ensures forall i :: 0 <= i < |r| ==> r[i] in subs && r[i] != s
    ensures forall i :: 0 <= i < |subs| && subs[i] != s ==> subs[i] in r
  {
    if subs == [] then []
    else if subs[0] == s then Without(subs[1..], s)
    else [subs[0]] + Without(subs[1..], s)
  }

  ghost predicate NoRepeats(subs: seq<InMemorySubscriber>) {
    forall i, j :: 0 <= i < j < |subs| ==> subs[i] != subs[j]
  }

  lemma {:induction false} WithoutNoRepeats(subs: seq<InMemorySubscriber>, s: InMemorySubscriber)
    requires NoRepeats(subs)
    ensures NoRepeats(Without(subs, s))
  {
    if subs != [] {
      var rest := subs[1..];
      assert forall i :: 0 <= i < |rest| ==> rest[i] != subs[0];
      WithoutNoRepeats(rest, s);
      assert forall i :: 0 <= i < |Without(rest, s)| ==> Without(rest, s)[i] in rest;
    }
  }

  class InMemorySubscriptionSource {
    /** The open subscribers, in insertion order. */
    var subscribers: seq<InMemorySubscriber>
    /** Every subscriber ever handed out. */
    ghost var all: seq<InMemorySubscriber>

    ghost predicate Valid()
      reads this, all
    {
      && NoRepeats(all) && NoRepeats(subscribers)
      && (forall s :: s in subscribers ==> s in all && !s.closed)
      && forall s :: s in all && !s.closed ==> s in subscribers
    }

    ghost function States(): (r: seq<Sub>)
      reads this, all
      ensures |r| == |all|
      ensures forall k :: 0 <= k < |all| ==> r[k] == all[k].State()
    {
      seq(|all|, k requires 0 <= k < |all| reads this, all => all[k].State())
    }

    constructor ()
      ensures Valid() && all == []
    {
      subscribers, all := [], [];
    }

    method Subscribe(f: Filter) returns (s: InMemorySubscriber)
      requires Valid()
      modifies this
      ensures Valid() && fresh(s) && all == old(all) + [s]
      ensures States() == HubStep(old(States()), SubscribeOp(f))
    {
      s := new InMemorySubscriber(f);
      subscribers := subscribers + [s];
      all := all + [s];
    }

    /** Every subscriber, open or closed, is offered the event once. */
    method Publish(e: DetectedPattern)
      requires Valid()
      modifies all
      ensures Valid()
      ensures States() == HubStep(old(States()), PublishOp(e))
    {
      for i := 0 to |subscribers|
        invariant forall s :: s in all && s !in subscribers[..i] ==> s.State() == old(s.State())
        invariant forall s :: s in subscribers[..i] ==> s.State() == Offer(old(s.State()), e)
      {
        var s := subscribers[i];
        assert s !in subscribers[..i];
        assert subscribers[..i + 1] == subscribers[..i] + [s];
        if Matches(e, s.filter) {
          s.PushEvent(e);
        }
      }
      assert subscribers[..|subscribers|] == subscribers;
      forall k | 0 <= k < |all| ensures all[k].State() == Offer(old(all[k].State()), e) {
        assert all[k] in all;
      }
      assert forall s :: s in all ==> s.closed == old(s.closed);
    }

    method NextFor(s: InMemorySubscriber, ghost k: nat)
      requires Valid() && k < |all| && all[k] == s
      modifies s
      ensures Valid() && States() == HubStep(old(States()), NextOp(k))
    {
      s.NextCall();
      assert forall x :: x in all ==> x.closed == old(x.closed);
    }

    /** `return` or `throw`: closes one subscriber and drops it; the others stay as they are. */
    method ReturnFor(s: InMemorySubscriber, ghost k: nat)
      requires Valid() && k < |all| && all[k] == s
      modifies this`subscribers, s
      ensures Valid() && States() == HubStep(old(States()), ReturnOp(k))
      ensures s !in subscribers
    {
      WithoutNoRepeats(subscribers, s);
      assert s.closed ==> s !in subscribers;
      var cleanUp := s.CloseStream();
      if cleanUp {
        subscribers := Without(subscribers, s);
      }
      assert s !in subscribers;
      assert forall i :: 0 <= i < |subscribers| ==> subscribers[i] in old(subscribers) && subscribers[i] != s;
      assert forall x :: x in all && x != s ==> x.closed == old(x.closed);
    }
  }

  // ----- All subscribers together -----

  datatype HubOp = SubscribeOp(filter: Filter) | PublishOp(event: DetectedPattern) | NextOp(k: nat) | ReturnOp(k: nat)

  /** The source's methods as one step on the states of all subscribers. */
  function HubStep(subs: seq<Sub>, op: HubOp): seq<Sub> {
    match op
    case SubscribeOp(f) => subs + [Opened(f)]
    case PublishOp(e) => seq(|subs|, k requires 0 <= k < |subs| => Offer(subs[k], e))
    case NextOp(k) => if k < |subs| then subs[k := Next(subs[k])] else subs
    case ReturnOp(k) => if k < |subs| then subs[k := Close(subs[k])] else subs
  }

  function HubRun(ops: seq<HubOp>): seq<Sub> {
    if ops == [] then [] else HubStep(HubRun(ops[..|ops| - 1]), ops[|ops| - 1])
  }

  /** What subscriber `k` experiences of one operation ... */
  function Sees(op: HubOp, k: nat): (r: seq<Op>)
    ensures |r| <= 1
  {
    match op
    case SubscribeOp(_) => []
    case PublishOp(e) => [Published(e)]
    case NextOp(j) => if j == k then [Nexted] else []
    case ReturnOp(j) => if j == k then [Returned] else []
  }

  /** ... and of a run: the publications since it was opened and its own calls. */
  function Seen(ops: seq<HubOp>, k: nat): seq<Op> {
    if ops == [] then []
    else
      var n := |ops| - 1;
      if k < |HubRun(ops[..n])| then Seen(ops[..n], k) + Sees(ops[n], k) else []
  }

  lemma RunSome(f: Filter, ops: seq<Op>, x: seq<Op>)
    requires |x| <= 1
    ensures Run(f, ops + x) == if x == [] then Run(f, ops) else Step(Run(f, ops), x[0])
  {
    if x == [] {
      assert ops + x == ops;
    } else {
      RunMore(f, ops, x[0]);
      assert ops + x == ops + [x[0]];
    }
  }

  lemma HubStepAt(subs: seq<Sub>, op: HubOp, k: nat)
    requires k < |subs|
    ensures k < |HubStep(subs, op)|
    ensures HubStep(subs, op)[k] == if Sees(op, k) == [] then subs[k] else Step(subs[k], Sees(op, k)[0])
    ensures HubStep(subs, op)[k].filter == subs[k].filter
  {
  }

  /** Under any interleaving, a subscriber's state depends on what it has seen only:
      another one's calls, or its closing, make no difference. */
  lemma {:induction false} SubscribersAreIndependent(ops: seq<HubOp>, k: nat)
    requires k < |HubRun(ops)|
    ensures HubRun(ops)[k] == Run(HubRun(ops)[k].filter, Seen(ops, k))
    decreases |ops|
  {
    var n := |ops| - 1;
    var before := HubRun(ops[..n]);
    if k < |before| {
      SubscribersAreIndependent(ops[..n], k);
      HubStepAt(before, ops[n], k);
      RunSome(before[k].filter, Seen(ops[..n], k), Sees(ops[n], k));
    }
  }

  /** So every open subscriber's resolved events followed by its queue are, in order,
      the matching events published since it subscribed. */
  lemma OpenSubscriberMissesNothing(ops: seq<HubOp>, k: nat)
    requires k < |HubRun(ops)| && !HubRun(ops)[k].closed
    ensures var s := HubRun(ops)[k];
      Delivered(s.answers) + s.queue == MatchingSince(ops, k, s.filter)
  {
    var s := HubRun(ops)[k];
    SubscribersAreIndependent(ops, k);
    NothingLost(s.filter, Seen(ops, k));
    FeedIsMatching(ops, k, s.filter);
  }

  function MatchingSince(ops: seq<HubOp>, k: nat, f: Filter): seq<DetectedPattern> {
    if ops == [] then []
    else
      var n := |ops| - 1;
      if k >= |HubRun(ops[..n])| then []
      else
        MatchingSince(ops[..n], k, f)
        + if ops[n].PublishOp? && Matches(ops[n].event, f) then [ops[n].event] else []
  }

  lemma SinceNext(ops: seq<HubOp>, k: nat, f: Filter, n: nat)
    requires |ops| == n + 1 && k < |HubRun(ops[..n])|
    ensures Seen(ops, k) == Seen(ops[..n], k) + Sees(ops[n], k)
    ensures MatchingSince(ops, k, f) == MatchingSince(ops[..n], k, f)
      + if ops[n].PublishOp? && Matches(ops[n].event, f) then [ops[n].event] else []
  {
  }

  lemma {:induction false} FeedIsMatching(ops: seq<HubOp>, k: nat, f: Filter)
    requires Returned !in Seen(ops, k)
    ensures Feed(f, Seen(ops, k)) == MatchingSince(ops, k, f)
    decreases |ops|
  {
    if ops != [] {
      var n := |ops| - 1;
      if k < |HubRun(ops[..n])| {
        SinceNext(ops, k, f, n);
        NotInEither(Seen(ops[..n], k), Sees(ops[n], k));
        FeedIsMatching(ops[..n], k, f);
        FeedSome(f, Seen(ops[..n], k), Sees(ops[n], k));
      }
    }
  }

  lemma NotInEither(xs: seq<Op>, ys: seq<Op>)
    requires Returned !in xs + ys
    ensures Returned !in xs
  {
    assert forall op :: op in xs ==> op in xs + ys;
  }

  lemma FeedSome(f: Filter, ops: seq<Op>, x: seq<Op>)
    requires |x| <= 1 && Returned !in ops
    ensures Feed(f, ops + x) == Feed(f, ops)
      + if x != [] && x[0].Published? && Matches(x[0].event, f) then [x[0].event] else []
  {
    if x == [] {
      assert ops + x == ops && Feed(f, ops) + [] == Feed(f, ops);
    } else {
      assert (ops + x)[..|ops|] == ops;
    }
  }
}
