/** The legacy KRC-721 ledger (crates/kasgraph-detectors/src/krc721_ledger.rs): token
    ownership per collection, the class that changes it in place, and permanent
    uniqueness over every op stream. */
module Krc721 {
  import opened Prelude
  import opened Ledger

  datatype Krc721Op =
    | Deploy(max: u64)
    | Mint(id: u64, uri: string)
    | Transfer(id: u64, to: string)
    | Burn(id: u64)

  datatype CollectionState = CollectionState(max: u64, owners: map<u64, string>, minted: set<u64>)

  function Krc721Rule(state: Option<CollectionState>, op: Krc721Op, sender: string): Result<CollectionState, string> {
    match op
    case Deploy(max) =>
      if state.Some? then Err("collection already deployed") else Ok(CollectionState(max, map[], {}))
    case Mint(id, _) =>
      if state.None? then Err("mint for undeployed collection")
      else
        var c := state.value;
        if id >= c.max then Err("token id outside collection size")
        else if id in c.minted then Err("token id already minted")
        else Ok(c.(minted := c.minted + {id}, owners := c.owners[id := sender]))
    case Transfer(id, to) =>
      if state.None? then Err("transfer for undeployed collection")
      else
        var c := state.value;
        if Owns(c, id, sender) then Ok(c.(owners := c.owners[id := to]))
        else Err("transfer of a token the sender does not own")
    case Burn(id) =>
      if state.None? then Err("burn for undeployed collection")
      else
        var c := state.value;
        if Owns(c, id, sender) then Ok(c.(owners := c.owners - {id}))
        else Err("burn of a token the sender does not own")
  }

  predicate Owns(c: CollectionState, id: u64, sender: string) {
    id in c.owners && c.owners[id] == sender
  }

  // ----- The class -----

  class Krc721Ledger {
    var collections: map<string, CollectionState>

    constructor ()
      ensures collections == map[]
    {
      collections := map[];
    }

    method ApplyAct(a: Act<Krc721Op>) returns (r: Outcome)
      modifies this
      ensures collections == Apply(Krc721Rule, old(collections), a)
      ensures match Ruling(Krc721Rule, old(collections), a)
              case Ok(_) => r == Accepted
              case Err(reason) => r == Rejected(reason)
    {
      match a.op
      case Deploy(max) => r := ApplyDeploy(a.tick, max);
      case Mint(id, uri) => r := ApplyMint(a.tick, a.sender, id, uri);
      case Transfer(id, to) => r := ApplyTransfer(a.tick, a.sender, to, id);
      case Burn(id) => r := ApplyBurn(a.tick, a.sender, id);
    }

    method ApplyDeploy(tick: string, max: u64) returns (r: Outcome)
      modifies this
      ensures match Krc721Rule(At(old(collections), tick), Deploy(max), "")
              case Ok(c) => collections == old(collections)[tick := c] && r == Accepted
              case Err(reason) => collections == old(collections) && r == Rejected(reason)
    {
      if tick in collections {
        return Rejected("collection already deployed");
      }
      collections := collections[tick := CollectionState(max, map[], {})];
      return Accepted;
    }

    method ApplyMint(tick: string, sender: string, id: u64, ghost uri: string) returns (r: Outcome)
      modifies this
      ensures match Krc721Rule(At(old(collections), tick), Mint(id, uri), sender)
              case Ok(c) => collections == old(collections)[tick := c] && r == Accepted
              case Err(reason) => collections == old(collections) && r == Rejected(reason)
    {
      if tick !in collections {
        return Rejected("mint for undeployed collection");
      }
      var collection := collections[tick];
      if id >= collection.max {
        return Rejected("token id outside collection size");
      }
      if id in collection.minted {
        return Rejected("token id already minted");
      }
      collection := collection.(minted := collection.minted + {id});
      collection := collection.(owners := collection.owners[id := sender]);
      collections := collections[tick := collection];
      return Accepted;
    }

    method ApplyTransfer(tick: string, sender: string, to: string, id: u64) returns (r: Outcome)
      modifies this
      ensures match Krc721Rule(At(old(collections), tick), Transfer(id, to), sender)
              case Ok(c) => collections == old(collections)[tick := c] && r == Accepted
              case Err(reason) => collections == old(collections) && r == Rejected(reason)
    {
      if tick !in collections {
        return Rejected("transfer for undeployed collection");
      }
      var collection := collections[tick];
      if !Owns(collection, id, sender) {
        return Rejected("transfer of a token the sender does not own");
      }
      collections := collections[tick := collection.(owners := collection.owners[id := to])];
      return Accepted;
    }

    method ApplyBurn(tick: string, sender: string, id: u64) returns (r: Outcome)
      modifies this
      ensures match Krc721Rule(At(old(collections), tick), Burn(id), sender)
              case Ok(c) => collections == old(collections)[tick := c] && r == Accepted
              case Err(reason) => collections == old(collections) && r == Rejected(reason)
    {
      if tick !in collections {
        return Rejected("burn for undeployed collection");
      }
      var collection := collections[tick];
      if !Owns(collection, id, sender) {
        return Rejected("burn of a token the sender does not own");
      }
      collections := collections[tick := collection.(owners := collection.owners - {id})];
      return Accepted;
    }

    /** Rebuilds a ledger from an op stream. */
    static method ReplayActs(acts: seq<Act<Krc721Op>>) returns (ledger: Krc721Ledger)
      ensures fresh(ledger) && ledger.collections == Replay(Krc721Rule, acts)
    {
      ledger := new Krc721Ledger();
      for i := 0 to |acts|
        invariant fresh(ledger) && ledger.collections == Replay(Krc721Rule, acts[..i])
      {
        assert acts[..i + 1][..i] == acts[..i];
        var outcome := ledger.ApplyAct(acts[i]);
      }
      assert acts[..|acts|] == acts;
    }
  }

  // ----- The life of one token, read off the journal alone -----

  /** Where a token stands: never minted, held by someone, or burned. */
  datatype Life = Unminted | Held(owner: string) | Burnt

  predicate Names(a: Act<Krc721Op>, tick: string, id: u64) {
    a.tick == tick && !a.op.Deploy? && a.op.id == id
  }

  /** The last accepted op on the token decides, whatever the ledger's state. */
  function LifeOf(journal: seq<Act<Krc721Op>>, tick: string, id: u64): Life {
    if journal == [] then Unminted
    else
      var a := journal[|journal| - 1];
      if !Names(a, tick, id) then LifeOf(journal[..|journal| - 1], tick, id)
      else match a.op
        case Mint(_, _) => Held(a.sender)
        case Transfer(_, to) => Held(to)
        case Burn(_) => Burnt
        case Deploy(_) => Unminted
  }

  lemma LifeAppend(journal: seq<Act<Krc721Op>>, a: Act<Krc721Op>, tick: string, id: u64)
    ensures LifeOf(journal + [a], tick, id) ==
      if !Names(a, tick, id) then LifeOf(journal, tick, id)
      else match a.op
        case Mint(_, _) => Held(a.sender)
        case Transfer(_, to) => Held(to)
        case Burn(_) => Burnt
        case Deploy(_) => Unminted
  {
    assert (journal + [a])[..|journal + [a]| - 1] == journal;
  }

  /** What a collection records of a token. */
  function Recorded(state: Option<CollectionState>, id: u64): Life {
    if state.None? || id !in state.value.minted then Unminted
    else if id in state.value.owners then Held(state.value.owners[id])
    else Burnt
  }

  ghost predicate Sound(c: CollectionState) {
    (forall id :: id in c.owners ==> id in c.minted) && forall id :: id in c.minted ==> id < c.max
  }

  /** Owned ids are minted ids, minted ids lie in the collection, and both agree with
      the journal: the owner is the recipient of the token's last accepted transfer,
      or its minter. */
  ghost predicate Faithful(m: map<string, CollectionState>, journal: seq<Act<Krc721Op>>, tick: string, id: u64) {
    && (tick in m ==> Sound(m[tick]))
    && Recorded(At(m, tick), id) == LifeOf(journal, tick, id)
  }

  lemma RulingKeeps(c: Option<CollectionState>, op: Krc721Op, sender: string, id: u64)
    requires (c.Some? ==> Sound(c.value)) && Krc721Rule(c, op, sender).Ok?
    ensures var after := Krc721Rule(c, op, sender).value;
      && Sound(after)
      && Recorded(Some(after), id) ==
           if op.Deploy? || op.id != id then Recorded(c, id)
           else match op
             case Mint(_, _) => Held(sender)
             case Transfer(_, to) => Held(to)
             case Burn(_) => Burnt
             case Deploy(_) => Unminted
  {
  }

  /** Over every op stream, for every token of every collection. */
  lemma {:induction false} LedgerIsFaithful(acts: seq<Act<Krc721Op>>, tick: string, id: u64)
    ensures Faithful(Replay(Krc721Rule, acts), Journal(Krc721Rule, acts), tick, id)
    decreases |acts|
  {
    if acts != [] {
      var n := |acts| - 1;
      var before, journal := Replay(Krc721Rule, acts[..n]), Journal(Krc721Rule, acts[..n]);
      LedgerIsFaithful(acts[..n], tick, id);
      LifeAppend(journal, acts[n], tick, id);
      assert journal + [] == journal;
      if acts[n].tick == tick && Ruling(Krc721Rule, before, acts[n]).Ok? {
        RulingKeeps(At(before, tick), acts[n].op, acts[n].sender, id);
      }
    }
  }

  // ----- What that rules out -----

  /** An act is accepted only at the right time of its token's life: a mint before
      the first, a transfer or burn by the current holder. */
  lemma AcceptedWhen(acts: seq<Act<Krc721Op>>, a: Act<Krc721Op>, id: u64)
    requires Names(a, a.tick, id) && Ruling(Krc721Rule, Replay(Krc721Rule, acts), a).Ok?
    ensures LifeOf(Journal(Krc721Rule, acts), a.tick, id) == if a.op.Mint? then Unminted else Held(a.sender)
  {
    LedgerIsFaithful(acts, a.tick, id);
  }

  function MintsOf(journal: seq<Act<Krc721Op>>, tick: string, id: u64): nat {
    if journal == [] then 0
    else
      var a := journal[|journal| - 1];
      MintsOf(journal[..|journal| - 1], tick, id) + if Names(a, tick, id) && a.op.Mint? then 1 else 0
  }

  lemma MintsAppend(journal: seq<Act<Krc721Op>>, a: Act<Krc721Op>, tick: string, id: u64)
    ensures MintsOf(journal + [a], tick, id)
         == MintsOf(journal, tick, id) + if Names(a, tick, id) && a.op.Mint? then 1 else 0
  {
    assert (journal + [a])[..|journal + [a]| - 1] == journal;
  }

  /** Each token has at most one accepted mint, ever: one exactly when it is minted,
      live or burned. */
  lemma {:induction false} MintedOnce(acts: seq<Act<Krc721Op>>, tick: string, id: u64)
    ensures var journal := Journal(Krc721Rule, acts);
      MintsOf(journal, tick, id) == if LifeOf(journal, tick, id) == Unminted then 0 else 1
    decreases |acts|
  {
    if acts != [] {
      var n := |acts| - 1;
      var journal, a := Journal(Krc721Rule, acts[..n]), acts[n];
      MintedOnce(acts[..n], tick, id);
      MintsAppend(journal, a, tick, id);
      LifeAppend(journal, a, tick, id);
      assert journal + [] == journal;
      if Names(a, tick, id) && Ruling(Krc721Rule, Replay(Krc721Rule, acts[..n]), a).Ok? {
        AcceptedWhen(acts[..n], a, id);
      }
    }
  }

  lemma BurntStep(before: seq<Act<Krc721Op>>, a: Act<Krc721Op>, tick: string, id: u64)
    requires LifeOf(Journal(Krc721Rule, before), tick, id) == Burnt
    ensures LifeOf(Journal(Krc721Rule, before + [a]), tick, id) == Burnt
    ensures Names(a, tick, id) ==> !LastAccepted(Krc721Rule, before + [a])
  {
    ReplayAppend(Krc721Rule, before, a);
    LifeAppend(Journal(Krc721Rule, before), a, tick, id);
    assert Journal(Krc721Rule, before) + [] == Journal(Krc721Rule, before);
    if Names(a, tick, id) && Ruling(Krc721Rule, Replay(Krc721Rule, before), a).Ok? {
      AcceptedWhen(before, a, id);
    }
  }

  /** A burned token stays burned, and no op on it is accepted again. */
  lemma {:induction false} BurntForEver(acts: seq<Act<Krc721Op>>, more: seq<Act<Krc721Op>>, tick: string, id: u64)
    requires LifeOf(Journal(Krc721Rule, acts), tick, id) == Burnt
    ensures LifeOf(Journal(Krc721Rule, acts + more), tick, id) == Burnt
    ensures more != [] && Names(more[|more| - 1], tick, id) ==> !LastAccepted(Krc721Rule, acts + more)
    decreases |more|
  {
    if more == [] {
      assert acts + more == acts;
    } else {
      var n := |more| - 1;
      var before := acts + more[..n];
      assert acts + more == before + [more[n]];
      BurntForEver(acts, more[..n], tick, id);
      BurntStep(before, more[n], tick, id);
    }
  }

  // ----- How many tokens are live -----

  predicate Counts(a: Act<Krc721Op>, tick: string, mints: bool) {
    a.tick == tick && if mints then a.op.Mint? else a.op.Burn?
  }

  function CountOps(journal: seq<Act<Krc721Op>>, tick: string, mints: bool): nat {
    if journal == [] then 0
    else
      CountOps(journal[..|journal| - 1], tick, mints) + if Counts(journal[|journal| - 1], tick, mints) then 1 else 0
  }

  lemma CountAppend(journal: seq<Act<Krc721Op>>, a: Act<Krc721Op>, tick: string, mints: bool)
    ensures CountOps(journal + [a], tick, mints) == CountOps(journal, tick, mints) + if Counts(a, tick, mints) then 1 else 0
  {
    assert (journal + [a])[..|journal + [a]| - 1] == journal;
  }

  function LiveCount(m: map<string, CollectionState>, tick: string): nat {
    if tick in m then |m[tick].owners| else 0
  }

  lemma OwnersChange(c: CollectionState, op: Krc721Op, sender: string)
    requires Sound(c) && Krc721Rule(Some(c), op, sender).Ok?
    ensures |Krc721Rule(Some(c), op, sender).value.owners|
         == |c.owners| + (if op.Mint? then 1 else 0) - if op.Burn? then 1 else 0
  {
    var after := Krc721Rule(Some(c), op, sender).value;
    match op
    case Mint(id, _) => assert after.owners.Keys == c.owners.Keys + {id} && id !in c.owners;
    case Transfer(id, _) => assert after.owners.Keys == c.owners.Keys;
    case Burn(id) => assert after.owners.Keys == c.owners.Keys - {id};
  }

  lemma LiveStep(m: map<string, CollectionState>, a: Act<Krc721Op>, tick: string)
    requires tick in m ==> Sound(m[tick])
    requires Ruling(Krc721Rule, m, a).Ok?
    ensures LiveCount(Apply(Krc721Rule, m, a), tick)
         == LiveCount(m, tick) + (if Counts(a, tick, true) then 1 else 0) - if Counts(a, tick, false) then 1 else 0
  {
    if a.tick == tick && tick in m {
      OwnersChange(m[tick], a.op, a.sender);
    }
  }

  /** Live tokens are accepted mints less accepted burns. */
  lemma {:induction false} LiveIsMintsLessBurns(acts: seq<Act<Krc721Op>>, tick: string)
    ensures var journal := Journal(Krc721Rule, acts);
      LiveCount(Replay(Krc721Rule, acts), tick) == CountOps(journal, tick, true) - CountOps(journal, tick, false)
    decreases |acts|
  {
    if acts != [] {
      var n := |acts| - 1;
      var before, journal, a := Replay(Krc721Rule, acts[..n]), Journal(Krc721Rule, acts[..n]), acts[n];
      LiveIsMintsLessBurns(acts[..n], tick);
      if Ruling(Krc721Rule, before, a).Ok? {
        LedgerIsFaithful(acts[..n], tick, 0);
        LiveStep(before, a, tick);
        CountAppend(journal, a, tick, true);
        CountAppend(journal, a, tick, false);
      } else {
        assert journal + [] == journal;
      }
    }
  }

  // ----- The acceptance rules, read off the accepted history alone -----

  /** The size of a collection's first deploy. */
  function DeployOf(journal: seq<Act<Krc721Op>>, tick: string): Option<u64> {
    if journal == [] then None
    else
      var before, a := DeployOf(journal[..|journal| - 1], tick), journal[|journal| - 1];
      if before.None? && a.tick == tick && a.op.Deploy? then Some(a.op.max) else before
  }

  lemma DeployAppend(journal: seq<Act<Krc721Op>>, a: Act<Krc721Op>, tick: string)
    ensures DeployOf(journal + [a], tick) ==
      if DeployOf(journal, tick).None? && a.tick == tick && a.op.Deploy? then Some(a.op.max) else DeployOf(journal, tick)
  {
    assert (journal + [a])[..|journal + [a]| - 1] == journal;
  }

  function MaxOf(state: Option<CollectionState>): Option<u64> {
    if state.Some? then Some(state.value.max) else None
  }

  lemma MaxStep(m: map<string, CollectionState>, a: Act<Krc721Op>, tick: string)
    requires Ruling(Krc721Rule, m, a).Ok?
    ensures MaxOf(At(Apply(Krc721Rule, m, a), tick)) ==
      if MaxOf(At(m, tick)).None? && a.tick == tick && a.op.Deploy? then Some(a.op.max) else MaxOf(At(m, tick))
  {
  }

  /** A collection exists from its first accepted deploy on, with that size. */
  lemma {:induction false} DeployIsHistory(acts: seq<Act<Krc721Op>>, tick: string)
    ensures MaxOf(At(Replay(Krc721Rule, acts), tick)) == DeployOf(Journal(Krc721Rule, acts), tick)
    decreases |acts|
  {
    if acts != [] {
      var n := |acts| - 1;
      var before, journal := Replay(Krc721Rule, acts[..n]), Journal(Krc721Rule, acts[..n]);
      DeployIsHistory(acts[..n], tick);
      if Ruling(Krc721Rule, before, acts[n]).Ok? {
        DeployAppend(journal, acts[n], tick);
        MaxStep(before, acts[n], tick);
      } else {
        assert journal + [] == journal;
      }
    }
  }

  predicate Permitted(journal: seq<Act<Krc721Op>>, a: Act<Krc721Op>) {
    var deployed := DeployOf(journal, a.tick);
    match a.op
    case Deploy(_) => deployed.None?
    case Mint(id, _) => deployed.Some? && id < deployed.value && LifeOf(journal, a.tick, id) == Unminted
    case Transfer(id, _) => LifeOf(journal, a.tick, id) == Held(a.sender)
    case Burn(id) => LifeOf(journal, a.tick, id) == Held(a.sender)
  }

  /** An op is accepted if and only if the history of accepted ops permits it. */
  lemma AcceptedIffPermitted(acts: seq<Act<Krc721Op>>, a: Act<Krc721Op>)
    ensures Ruling(Krc721Rule, Replay(Krc721Rule, acts), a).Ok? <==> Permitted(Journal(Krc721Rule, acts), a)
  {
    DeployIsHistory(acts, a.tick);
    LedgerIsFaithful(acts, a.tick, if a.op.Deploy? then 0 else a.op.id);
  }
}
