/** The legacy KRC-20 ledger (crates/kasgraph-detectors/src/krc20_ledger.rs): the
    acceptance rule of one op, the class that applies it in place, and what every
    op stream keeps. */
module Krc20 {
  import opened Prelude
  import opened Ledger

  datatype Krc20Op =
    | Deploy(max: u64, lim: u64)
    | Mint(amt: u64)
    | Transfer(amt: u64, to: string)
    | Burn(amt: u64)

  datatype TokenState = TokenState(max: u64, lim: u64, minted: u64, balances: map<string, u64>)

  function BalanceOf(t: TokenState, address: string): u64 {
    if address in t.balances then t.balances[address] else 0
  }

  // ----- Supply -----

  /** The sum of all balances. */
  ghost function Sum(m: map<string, u64>): nat {
    if m == map[] then 0
    else
      assert m.Keys != {};
      var k :| k in m;
      m[k] + Sum(m - {k})
  }

  lemma {:induction false} SumWithout(m: map<string, u64>, k: string)
    requires k in m
    ensures Sum(m) == m[k] + Sum(m - {k})
    decreases |m|
  {
    assert m.Keys != {};
    var j :| j in m && Sum(m) == m[j] + Sum(m - {j});
    if j != k {
      SumWithout(m - {j}, k);
      SumWithout(m - {k}, j);
      assert m - {j} - {k} == m - {k} - {j};
    }
  }

  lemma SumWith(m: map<string, u64>, k: string, x: u64)
    ensures Sum(m[k := x]) == Sum(m) - (if k in m then m[k] else 0) + x
  {
    SumWithout(m[k := x], k);
    assert m[k := x] - {k} == m - {k};
    if k in m {
      SumWithout(m, k);
    } else {
      assert m - {k} == m;
    }
  }

  /** The supply a token reports is what its holders hold, and within its cap. */
  ghost predicate Sound(t: TokenState) {
    t.minted == Sum(t.balances) && t.minted <= t.max
  }

  /** No balance exceeds the supply, so no addition to one can overflow. */
  lemma BalanceWithinSupply(t: TokenState, address: string)
    requires Sound(t)
    ensures BalanceOf(t, address) <= t.minted
  {
    if address in t.balances {
      SumWithout(t.balances, address);
    }
  }

  // ----- 64-bit arithmetic -----

  /** `a + b` where an overflow would abort the node. */
  function Plus(a: u64, b: u64): u64
    requires a + b < TWO_64
  {
    a + b
  }

  function Minus(a: u64, b: u64): u64
    requires b <= a
  {
    a - b
  }

  function CheckedAdd(a: u64, b: u64): Option<u64> {
    if a + b < TWO_64 then Some(a + b) else None
  }

  function SaturatingMinus(a: u64, b: u64): u64 {
    if b <= a then a - b else 0
  }

  // ----- The acceptance rule -----

  /** The balances after a debit; an entry that reaches zero is pruned. */
  function Debited(m: map<string, u64>, address: string, amt: u64): map<string, u64> {
    if address !in m then m
    else if m[address] <= amt then m - {address}
    else m[address := m[address] - amt]
  }

  function Credited(m: map<string, u64>, address: string, amt: u64): map<string, u64> {
    var sum := (if address in m then m[address] else 0) + amt;
    m[address := if sum < TWO_64 then sum else sum - TWO_64]
  }

  function Krc20Rule(state: Option<TokenState>, op: Krc20Op, sender: string): Result<TokenState, string> {
    match op
    case Deploy(max, lim) =>
      if state.Some? then Err("tick already deployed") else Ok(TokenState(max, lim, 0, map[]))
    case Mint(amt) =>
      if state.None? then Err("mint for undeployed tick")
      else
        var t := state.value;
        if amt > t.lim then Err("mint exceeds per-mint limit")
        else if t.minted + amt > t.max then Err("mint exceeds total supply cap")
        else Ok(t.(minted := t.minted + amt, balances := Credited(t.balances, sender, amt)))
    case Transfer(amt, to) =>
      if state.None? then Err("transfer for undeployed tick")
      else
        var t := state.value;
        if BalanceOf(t, sender) < amt then Err("transfer exceeds sender balance")
        else Ok(t.(balances := Credited(Debited(t.balances, sender, amt), to, amt)))
    case Burn(amt) =>
      if state.None? then Err("burn for undeployed tick")
      else
        var t := state.value;
        if BalanceOf(t, sender) < amt then Err("burn exceeds sender balance")
        else Ok(t.(minted := SaturatingMinus(t.minted, amt), balances := Debited(t.balances, sender, amt)))
  }

  // ----- What one accepted op does -----

  lemma DebitedSum(m: map<string, u64>, address: string, amt: u64)
    requires amt <= if address in m then m[address] else 0
    ensures Sum(Debited(m, address, amt)) == Sum(m) - amt
  {
    if address in m {
      if m[address] <= amt {
        SumWithout(m, address);
      } else {
        SumWith(m, address, m[address] - amt);
      }
    }
  }

  lemma HeldFits(m: map<string, u64>, address: string, amt: u64)
    requires Sum(m) + amt < TWO_64
    ensures (if address in m then m[address] else 0) + amt < TWO_64
  {
    if address in m {
      SumWithout(m, address);
    }
  }

  lemma CreditedSum(m: map<string, u64>, address: string, amt: u64)
    requires Sum(m) + amt < TWO_64
    ensures Sum(Credited(m, address, amt)) == Sum(m) + amt
    ensures (if address in m then m[address] else 0) + amt < TWO_64
  {
    HeldFits(m, address, amt);
    SumWith(m, address, (if address in m then m[address] else 0) + amt);
  }

  /** Every accepted op keeps supply equal to holdings and within the cap, moves
      the supply by exactly its amount, and never changes cap or limit. */
  lemma AcceptedKeepsSound(state: Option<TokenState>, op: Krc20Op, sender: string)
    requires (state.Some? ==> Sound(state.value)) && Krc20Rule(state, op, sender).Ok?
    ensures var after := Krc20Rule(state, op, sender).value;
      && Sound(after)
      && after.minted == (if state.Some? then state.value.minted else 0) + Supplied(op) - Burned(op)
      && (state.Some? ==> after.max == state.value.max && after.lim == state.value.lim)
  {
    match op
    case Deploy(max, lim) =>
    case Mint(amt) =>
      CreditedSum(state.value.balances, sender, amt);
    case Transfer(amt, to) =>
      BalanceWithinSupply(state.value, sender);
      DebitedSum(state.value.balances, sender, amt);
      CreditedSum(Debited(state.value.balances, sender, amt), to, amt);
    case Burn(amt) =>
      BalanceWithinSupply(state.value, sender);
      DebitedSum(state.value.balances, sender, amt);
  }

  function Supplied(op: Krc20Op): nat {
    if op.Mint? then op.amt else 0
  }

  function Burned(op: Krc20Op): nat {
    if op.Burn? then op.amt else 0
  }

  /** What an accepted op adds to an address's balance. */
  function Change(op: Krc20Op, sender: string, address: string): int {
    match op
    case Deploy(_, _) => 0
    case Mint(amt) => if address == sender then amt else 0
    case Transfer(amt, to) => (if address == to then amt else 0) - (if address == sender then amt else 0)
    case Burn(amt) => if address == sender then 0 - amt else 0
  }

  /** Every balance moves by exactly that, also when sender and recipient are one. */
  lemma AcceptedMovesBalances(t: TokenState, op: Krc20Op, sender: string, address: string)
    requires Sound(t) && Krc20Rule(Some(t), op, sender).Ok?
    ensures BalanceOf(Krc20Rule(Some(t), op, sender).value, address) == BalanceOf(t, address) + Change(op, sender, address)
  {
    match op
    case Mint(amt) =>
      CreditedSum(t.balances, sender, amt);
    case Transfer(amt, to) =>
      BalanceWithinSupply(t, sender);
      DebitedSum(t.balances, sender, amt);
      CreditedSum(Debited(t.balances, sender, amt), to, amt);
    case Burn(amt) =>
  }

  ghost predicate Pruned(t: TokenState) {
    forall a :: a in t.balances ==> 0 < t.balances[a]
  }

  /** The op credits nothing to an address that holds nothing. */
  predicate CreditsNothing(t: TokenState, op: Krc20Op, sender: string) {
    match op
    case Mint(amt) => amt == 0 && sender !in t.balances
    case Transfer(amt, to) => amt == 0 && to !in t.balances
    case _ => false
  }

  /** Zero balances are pruned, except that a zero-amount mint or transfer to a
      newcomer leaves one: that is the only way an entry of zero appears. */
  lemma ZeroEntryIff(t: TokenState, op: Krc20Op, sender: string)
    requires Sound(t) && Pruned(t) && Krc20Rule(Some(t), op, sender).Ok?
    ensures Pruned(Krc20Rule(Some(t), op, sender).value) <==> !CreditsNothing(t, op, sender)
  {
    var after := Krc20Rule(Some(t), op, sender).value;
    match op
    case Mint(amt) =>
      CreditedSum(t.balances, sender, amt);
      assert after.balances[sender] == BalanceOf(t, sender) + amt;
    case Transfer(amt, to) =>
      BalanceWithinSupply(t, sender);
      DebitedSum(t.balances, sender, amt);
      var debited := Debited(t.balances, sender, amt);
      CreditedSum(debited, to, amt);
      assert after.balances[to] == (if to in debited then debited[to] else 0) + amt;
    case Burn(amt) =>
  }

  // ----- The class -----

  class Krc20Ledger {
    var tokens: map<string, TokenState>

    ghost predicate Valid()
      reads this
    {
      forall tick :: tick in tokens ==> Sound(tokens[tick])
    }

    constructor ()
      ensures Valid() && tokens == map[]
    {
      tokens := map[];
    }

    /** Applies one op in place. The token is found, changed and put back; every
        64-bit addition and subtraction on the way is shown to fit. */
    method ApplyAct(a: Act<Krc20Op>) returns (r: Outcome)
      requires Valid()
      modifies this
      ensures Valid()
      ensures tokens == Apply(Krc20Rule, old(tokens), a)
      ensures match Ruling(Krc20Rule, old(tokens), a)
              case Ok(_) => r == Accepted
              case Err(reason) => r == Rejected(reason)
    {
      ghost var before := At(tokens, a.tick);
      if Krc20Rule(before, a.op, a.sender).Ok? {
        AcceptedKeepsSound(before, a.op, a.sender);
      }
      match a.op
      case Deploy(max, lim) => r := ApplyDeploy(a.tick, max, lim);
      case Mint(amt) => r := ApplyMint(a.tick, a.sender, amt);
      case Transfer(amt, to) => r := ApplyTransfer(a.tick, a.sender, to, amt);
      case Burn(amt) => r := ApplyBurn(a.tick, a.sender, amt);
    }

    method ApplyDeploy(tick: string, max: u64, lim: u64) returns (r: Outcome)
      modifies this
      ensures match Krc20Rule(At(old(tokens), tick), Deploy(max, lim), "")
              case Ok(t) => tokens == old(tokens)[tick := t] && r == Accepted
              case Err(reason) => tokens == old(tokens) && r == Rejected(reason)
    {
      if tick in tokens {
        return Rejected("tick already deployed");
      }
      tokens := tokens[tick := TokenState(max, lim, 0, map[])];
      return Accepted;
    }

    method ApplyMint(tick: string, sender: string, amt: u64) returns (r: Outcome)
      requires Valid()
      modifies this
      ensures match Krc20Rule(At(old(tokens), tick), Mint(amt), sender)
              case Ok(t) => tokens == old(tokens)[tick := t] && r == Accepted
              case Err(reason) => tokens == old(tokens) && r == Rejected(reason)
    {
      if tick !in tokens {
        return Rejected("mint for undeployed tick");
      }
      var token := tokens[tick];
      if amt > token.lim {
        return Rejected("mint exceeds per-mint limit");
      }
      var total := CheckedAdd(token.minted, amt);
      if total.None? || total.value > token.max {
        return Rejected("mint exceeds total supply cap");
      }
      CreditedSum(token.balances, sender, amt);
      var balance := Plus(BalanceOf(token, sender), amt);
      token := token.(minted := total.value, balances := token.balances[sender := balance]);
      tokens := tokens[tick := token];
      return Accepted;
    }

    method ApplyTransfer(tick: string, sender: string, to: string, amt: u64) returns (r: Outcome)
      requires Valid()
      modifies this
      ensures match Krc20Rule(At(old(tokens), tick), Transfer(amt, to), sender)
              case Ok(t) => tokens == old(tokens)[tick := t] && r == Accepted
              case Err(reason) => tokens == old(tokens) && r == Rejected(reason)
    {
      if tick !in tokens {
        return Rejected("transfer for undeployed tick");
      }
      var token := tokens[tick];
      if BalanceOf(token, sender) < amt {
        return Rejected("transfer exceeds sender balance");
      }
      BalanceWithinSupply(token, sender);
      DebitedSum(token.balances, sender, amt);
      CreditedSum(Debited(token.balances, sender, amt), to, amt);
      var balances := Debit(token.balances, sender, amt);
      token := token.(balances := balances);
      var balance := Plus(BalanceOf(token, to), amt);
      token := token.(balances := token.balances[to := balance]);
      tokens := tokens[tick := token];
      return Accepted;
    }

    method ApplyBurn(tick: string, sender: string, amt: u64) returns (r: Outcome)
      requires Valid()
      modifies this
      ensures match Krc20Rule(At(old(tokens), tick), Burn(amt), sender)
              case Ok(t) => tokens == old(tokens)[tick := t] && r == Accepted
              case Err(reason) => tokens == old(tokens) && r == Rejected(reason)
    {
      if tick !in tokens {
        return Rejected("burn for undeployed tick");
      }
      var token := tokens[tick];
      if BalanceOf(token, sender) < amt {
        return Rejected("burn exceeds sender balance");
      }
      var balances := Debit(token.balances, sender, amt);
      token := token.(minted := SaturatingMinus(token.minted, amt), balances := balances);
      tokens := tokens[tick := token];
      return Accepted;
    }

    /** Rebuilds a ledger from an op stream. */
    static method ReplayActs(acts: seq<Act<Krc20Op>>) returns (ledger: Krc20Ledger)
      ensures fresh(ledger) && ledger.Valid() && ledger.tokens == Replay(Krc20Rule, acts)
    {
      ledger := new Krc20Ledger();
      for i := 0 to |acts|
        invariant fresh(ledger) && ledger.Valid()
        invariant ledger.tokens == Replay(Krc20Rule, acts[..i])
      {
        assert acts[..i + 1][..i] == acts[..i];
        var outcome := ledger.ApplyAct(acts[i]);
      }
      assert acts[..|acts|] == acts;
    }
  }

  method Debit(balances: map<string, u64>, address: string, amt: u64) returns (after: map<string, u64>)
    requires amt <= if address in balances then balances[address] else 0
    ensures after == Debited(balances, address, amt)
  {
    after := balances;
    if address in after {
      after := after[address := Minus(after[address], amt)];
      if after[address] == 0 {
        after := after - {address};
      }
    }
  }

  // ----- Whole op streams -----

  function SuppliedOn(acts: seq<Act<Krc20Op>>, tick: string): nat {
    if acts == [] then 0
    else
      var a := acts[|acts| - 1];
      SuppliedOn(acts[..|acts| - 1], tick) + if a.tick == tick then Supplied(a.op) else 0
  }

  function BurnedOn(acts: seq<Act<Krc20Op>>, tick: string): nat {
    if acts == [] then 0
    else
      var a := acts[|acts| - 1];
      BurnedOn(acts[..|acts| - 1], tick) + if a.tick == tick then Burned(a.op) else 0
  }

  /** What a token's supply must be after a journal of accepted ops. */
  ghost predicate Conserved(m: map<string, TokenState>, journal: seq<Act<Krc20Op>>, tick: string) {
    if tick in m then
      Sound(m[tick]) && m[tick].minted == SuppliedOn(journal, tick) - BurnedOn(journal, tick)
    else SuppliedOn(journal, tick) == 0 == BurnedOn(journal, tick)
  }

  lemma TotalsAppend(journal: seq<Act<Krc20Op>>, a: Act<Krc20Op>, tick: string)
    ensures SuppliedOn(journal + [a], tick) == SuppliedOn(journal, tick) + if a.tick == tick then Supplied(a.op) else 0
    ensures BurnedOn(journal + [a], tick) == BurnedOn(journal, tick) + if a.tick == tick then Burned(a.op) else 0
  {
    assert (journal + [a])[..|journal + [a]| - 1] == journal;
  }

  /** Over every op stream: for each tick, the supply is what holders hold, equals
      accepted mints less accepted burns, and stays within the deployed cap. */
  lemma {:induction false} SupplyConserved(acts: seq<Act<Krc20Op>>, tick: string)
    ensures Conserved(Replay(Krc20Rule, acts), Journal(Krc20Rule, acts), tick)
    decreases |acts|
  {
    if acts != [] {
      var n := |acts| - 1;
      var before := Replay(Krc20Rule, acts[..n]);
      SupplyConserved(acts[..n], tick);
      TotalsAppend(Journal(Krc20Rule, acts[..n]), acts[n], tick);
      assert Journal(Krc20Rule, acts[..n]) + [] == Journal(Krc20Rule, acts[..n]);
      if acts[n].tick == tick && Ruling(Krc20Rule, before, acts[n]).Ok? {
        AcceptedKeepsSound(At(before, tick), acts[n].op, acts[n].sender);
      }
    }
  }

  /** A deployed tick keeps the cap and limit of its first deploy for ever. */
  lemma {:induction false} FirstDeployWins(acts: seq<Act<Krc20Op>>, more: seq<Act<Krc20Op>>, tick: string)
    requires tick in Replay(Krc20Rule, acts)
    ensures tick in Replay(Krc20Rule, acts + more)
    ensures Replay(Krc20Rule, acts + more)[tick].max == Replay(Krc20Rule, acts)[tick].max
    ensures Replay(Krc20Rule, acts + more)[tick].lim == Replay(Krc20Rule, acts)[tick].lim
    decreases |more|
  {
    if more == [] {
      assert acts + more == acts;
    } else {
      var n := |more| - 1;
      FirstDeployWins(acts, more[..n], tick);
      ReplayAppend(Krc20Rule, acts + more[..n], more[n]);
      assert acts + more == acts + more[..n] + [more[n]];
    }
  }

  // ----- The ledger is its history -----

  /** Cap and limit of the first deploy of a tick. */
  function DeployOf(journal: seq<Act<Krc20Op>>, tick: string): Option<(u64, u64)> {
    if journal == [] then None
    else
      var before, a := DeployOf(journal[..|journal| - 1], tick), journal[|journal| - 1];
      if before.None? && a.tick == tick && a.op.Deploy? then Some((a.op.max, a.op.lim)) else before
  }

  /** What an address has been given less what was taken from it. */
  function Held(journal: seq<Act<Krc20Op>>, tick: string, address: string): int {
    if journal == [] then 0
    else
      var a := journal[|journal| - 1];
      Held(journal[..|journal| - 1], tick, address) + if a.tick == tick then Change(a.op, a.sender, address) else 0
  }

  lemma HistoryAppend(journal: seq<Act<Krc20Op>>, a: Act<Krc20Op>, tick: string, address: string)
    ensures Held(journal + [a], tick, address)
         == Held(journal, tick, address) + if a.tick == tick then Change(a.op, a.sender, address) else 0
    ensures DeployOf(journal + [a], tick) ==
      if DeployOf(journal, tick).None? && a.tick == tick && a.op.Deploy? then Some((a.op.max, a.op.lim))
      else DeployOf(journal, tick)
  {
    assert (journal + [a])[..|journal + [a]| - 1] == journal;
  }

  ghost predicate Mirrors(m: map<string, TokenState>, journal: seq<Act<Krc20Op>>, tick: string, address: string) {
    if tick in m then
      DeployOf(journal, tick) == Some((m[tick].max, m[tick].lim))
      && BalanceOf(m[tick], address) == Held(journal, tick, address)
    else DeployOf(journal, tick) == None && Held(journal, tick, address) == 0
  }

  lemma MirrorsStep(m: map<string, TokenState>, journal: seq<Act<Krc20Op>>, a: Act<Krc20Op>, tick: string, address: string)
    requires Mirrors(m, journal, tick, address) && (tick in m ==> Sound(m[tick])) && Ruling(Krc20Rule, m, a).Ok?
    ensures Mirrors(Apply(Krc20Rule, m, a), journal + [a], tick, address)
  {
    HistoryAppend(journal, a, tick, address);
    if a.tick == tick {
      if tick in m {
        AcceptedMovesBalances(m[tick], a.op, a.sender, address);
        AcceptedKeepsSound(At(m, tick), a.op, a.sender);
      }
    }
  }

  /** Over every op stream: every balance is what the accepted ops gave less what
      they took, and cap and limit are those of the first accepted deploy. */
  lemma {:induction false} LedgerIsHistory(acts: seq<Act<Krc20Op>>, tick: string, address: string)
    ensures Mirrors(Replay(Krc20Rule, acts), Journal(Krc20Rule, acts), tick, address)
    decreases |acts|
  {
    if acts != [] {
      var n := |acts| - 1;
      var before, journal := Replay(Krc20Rule, acts[..n]), Journal(Krc20Rule, acts[..n]);
      LedgerIsHistory(acts[..n], tick, address);
      SupplyConserved(acts[..n], tick);
      if Ruling(Krc20Rule, before, acts[n]).Ok? {
        MirrorsStep(before, journal, acts[n], tick, address);
      } else {
        assert journal + [] == journal;
      }
    }
  }

  /** The documented acceptance rules, read off the accepted history alone. */
  predicate Permitted(journal: seq<Act<Krc20Op>>, a: Act<Krc20Op>) {
    var deployed := DeployOf(journal, a.tick);
    match a.op
    case Deploy(_, _) => deployed.None?
    case Mint(amt) =>
      && deployed.Some? && amt <= deployed.value.1
      && SuppliedOn(journal, a.tick) - BurnedOn(journal, a.tick) + amt <= deployed.value.0
    case Transfer(amt, _) => deployed.Some? && amt <= Held(journal, a.tick, a.sender)
    case Burn(amt) => deployed.Some? && amt <= Held(journal, a.tick, a.sender)
  }

  /** An op is accepted if and only if the history of accepted ops permits it. */
  lemma AcceptedIffPermitted(acts: seq<Act<Krc20Op>>, a: Act<Krc20Op>)
    ensures Ruling(Krc20Rule, Replay(Krc20Rule, acts), a).Ok? <==> Permitted(Journal(Krc20Rule, acts), a)
  {
    LedgerIsHistory(acts, a.tick, a.sender);
    SupplyConserved(acts, a.tick);
  }
}
