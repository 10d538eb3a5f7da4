/** Legacy journal rows turned back into the ops they record, and ledgers rebuilt
    from them (crates/kasgraph-node/src/legacy_ledger.rs). */
module LegacyJournal {
  import opened Prelude
  import opened UtxoText
  import opened Ledger
  import LedgerRuns
  import Krc20
  import Krc721

  datatype ReconstructError =
    | UnknownOp(op: string, ledger: string)
    | MissingColumn(missingIn: string, column: string)
    | InvalidU64(invalidColumn: string, value: string)

  datatype Krc20Record = Krc20Record(
    tick: string, tickRaw: string, op: string, sender: string,
    recipient: Option<string>, amount: Option<string>, maxSupply: Option<string>, mintLimit: Option<string>)

  datatype Krc721Record = Krc721Record(
    tick: string, tickRaw: string, op: string, sender: string,
    tokenId: Option<string>, recipient: Option<string>, metadataUri: Option<string>, maxSupply: Option<string>)

  datatype Inscription<+Op> = Inscription(tick: string, tickRaw: string, op: Op)

  // ----- Decimal columns -----

  predicate DigitsOnly(s: string) {
    forall i :: 0 <= i < |s| ==> IsDigit(s[i])
  }

  /** `str::parse::<u64>`: an optional plus sign, then digits, in range. */
  function ParseU64(s: string): Option<u64> {
    var digits := if s != [] && s[0] == '+' then s[1..] else s;
    if digits == [] || !DigitsOnly(digits) || Value(digits) >= TWO_64 then None else Some(Value(digits))
  }

  /** The text a journaled amount is written as reads back as that amount. */
  lemma ParseDecimal(n: u64)
    ensures ParseU64(Decimal(n)) == Some(n)
  {
    var s := Decimal(n);
    ValueOfDecimal(n);
    assert IsDigit(s[0]);
  }

  function Required(value: Option<string>, op: string, column: string): Result<string, ReconstructError> {
    if value.None? then Err(MissingColumn(op, column)) else Ok(value.value)
  }

  function RequiredU64(value: Option<string>, op: string, column: string): Result<u64, ReconstructError> {
    match Required(value, op, column)
    case Err(e) => Err(e)
    case Ok(s) => if ParseU64(s).None? then Err(InvalidU64(column, s)) else Ok(ParseU64(s).value)
  }

  predicate Numeric(value: Option<string>) {
    value.Some? && ParseU64(value.value).Some?
  }

  // ----- KRC-20 rows -----

  function Krc20OpOf(r: Krc20Record): Result<Krc20.Krc20Op, ReconstructError> {
    if r.op == "deploy" then
      match RequiredU64(r.maxSupply, "deploy", "max_supply") {
        case Err(e) => Err(e)
        case Ok(max) =>
          match RequiredU64(r.mintLimit, "deploy", "mint_limit") {
            case Err(e) => Err(e)
            case Ok(lim) => Ok(Krc20.Deploy(max, lim))
          }
      }
    else if r.op == "mint" then
      match RequiredU64(r.amount, "mint", "amount") {
        case Err(e) => Err(e)
        case Ok(amt) => Ok(Krc20.Mint(amt))
      }
    else if r.op == "transfer" then
      match RequiredU64(r.amount, "transfer", "amount") {
        case Err(e) => Err(e)
        case Ok(amt) =>
          match Required(r.recipient, "transfer", "recipient") {
            case Err(e) => Err(e)
            case Ok(to) => Ok(Krc20.Transfer(amt, to))
          }
      }
    else if r.op == "burn" then
      match RequiredU64(r.amount, "burn", "amount") {
        case Err(e) => Err(e)
        case Ok(amt) => Ok(Krc20.Burn(amt))
      }
    else Err(UnknownOp(r.op, "KRC-20"))
  }

  function Krc20FromRecord(r: Krc20Record): Result<Inscription<Krc20.Krc20Op>, ReconstructError> {
    match Krc20OpOf(r)
    case Err(e) => Err(e)
    case Ok(op) => Ok(Inscription(r.tick, r.tickRaw, op))
  }

  /** The columns an op needs, and no others. */
  predicate WellFormed20(r: Krc20Record) {
    && r.op in {"deploy", "mint", "transfer", "burn"}
    && (r.op == "deploy" ==> Numeric(r.maxSupply) && Numeric(r.mintLimit))
    && (r.op != "deploy" ==> Numeric(r.amount))
    && (r.op == "transfer" ==> r.recipient.Some?)
  }

  /** The row an accepted op is journaled as. */
  function Krc20ToRecord(x: Inscription<Krc20.Krc20Op>, sender: string): Krc20Record {
    match x.op
    case Deploy(max, lim) =>
      Krc20Record(x.tick, x.tickRaw, "deploy", sender, None, None, Some(Decimal(max)), Some(Decimal(lim)))
    case Mint(amt) => Krc20Record(x.tick, x.tickRaw, "mint", sender, None, Some(Decimal(amt)), None, None)
    case Transfer(amt, to) => Krc20Record(x.tick, x.tickRaw, "transfer", sender, Some(to), Some(Decimal(amt)), None, None)
    case Burn(amt) => Krc20Record(x.tick, x.tickRaw, "burn", sender, None, Some(Decimal(amt)), None, None)
  }

  /** Reconstruction inverts journaling, and fails on exactly the malformed rows. */
  lemma Krc20RowRoundTrip(x: Inscription<Krc20.Krc20Op>, sender: string)
    ensures Krc20FromRecord(Krc20ToRecord(x, sender)) == Ok(x)
  {
    match x.op
    case Deploy(max, lim) =>
      ParseDecimal(max);
      ParseDecimal(lim);
    case Mint(amt) => ParseDecimal(amt);
    case Transfer(amt, _) => ParseDecimal(amt);
    case Burn(amt) => ParseDecimal(amt);
  }

  lemma Krc20OkIff(r: Krc20Record)
    ensures Krc20FromRecord(r).Ok? <==> WellFormed20(r)
  {
  }

  // ----- KRC-721 rows -----

  function Krc721OpOf(r: Krc721Record): Result<Krc721.Krc721Op, ReconstructError> {
    if r.op == "deploy" then
      match RequiredU64(r.maxSupply, "deploy", "max_supply") {
        case Err(e) => Err(e)
        case Ok(max) => Ok(Krc721.Deploy(max))
      }
    else if r.op == "mint" then
      match RequiredU64(r.tokenId, "mint", "token_id") {
        case Err(e) => Err(e)
        case Ok(id) =>
          match Required(r.metadataUri, "mint", "metadata_uri") {
            case Err(e) => Err(e)
            case Ok(uri) => Ok(Krc721.Mint(id, uri))
          }
      }
    else if r.op == "transfer" then
      match RequiredU64(r.tokenId, "transfer", "token_id") {
        case Err(e) => Err(e)
        case Ok(id) =>
          match Required(r.recipient, "transfer", "recipient") {
            case Err(e) => Err(e)
            case Ok(to) => Ok(Krc721.Transfer(id, to))
          }
      }
    else if r.op == "burn" then
      match RequiredU64(r.tokenId, "burn", "token_id") {
        case Err(e) => Err(e)
        case Ok(id) => Ok(Krc721.Burn(id))
      }
    else Err(UnknownOp(r.op, "KRC-721"))
  }

  function Krc721FromRecord(r: Krc721Record): Result<Inscription<Krc721.Krc721Op>, ReconstructError> {
    match Krc721OpOf(r)
    case Err(e) => Err(e)
    case Ok(op) => Ok(Inscription(r.tick, r.tickRaw, op))
  }

  predicate WellFormed721(r: Krc721Record) {
    && r.op in {"deploy", "mint", "transfer", "burn"}
    && (r.op == "deploy" ==> Numeric(r.maxSupply))
    && (r.op != "deploy" ==> Numeric(r.tokenId))
    && (r.op == "mint" ==> r.metadataUri.Some?)
    && (r.op == "transfer" ==> r.recipient.Some?)
  }

  function Krc721ToRecord(x: Inscription<Krc721.Krc721Op>, sender: string): Krc721Record {
    match x.op
    case Deploy(max) => Krc721Record(x.tick, x.tickRaw, "deploy", sender, None, None, None, Some(Decimal(max)))
    case Mint(id, uri) => Krc721Record(x.tick, x.tickRaw, "mint", sender, Some(Decimal(id)), None, Some(uri), None)
    case Transfer(id, to) => Krc721Record(x.tick, x.tickRaw, "transfer", sender, Some(Decimal(id)), Some(to), None, None)
    case Burn(id) => Krc721Record(x.tick, x.tickRaw, "burn", sender, Some(Decimal(id)), None, None, None)
  }

  lemma Krc721RowRoundTrip(x: Inscription<Krc721.Krc721Op>, sender: string)
    ensures Krc721FromRecord(Krc721ToRecord(x, sender)) == Ok(x)
  {
    match x.op
    case Deploy(max) => ParseDecimal(max);
    case Mint(id, _) => ParseDecimal(id);
    case Transfer(id, _) => ParseDecimal(id);
    case Burn(id) => ParseDecimal(id);
  }

  lemma Krc721OkIff(r: Krc721Record)
    ensures Krc721FromRecord(r).Ok? <==> WellFormed721(r)
  {
  }

  // ----- Rebuilding a ledger -----

  type Reader<!R, !Op> = R -> Result<Act<Op>, ReconstructError>

  /** The acts the rows record, or the first row's error that has one. */
  function ActsFrom<R, Op>(read: Reader<R, Op>, rs: seq<R>): Result<seq<Act<Op>>, ReconstructError> {
    if rs == [] then Ok([])
    else
      var n := |rs| - 1;
      match ActsFrom(read, rs[..n])
      case Err(e) => Err(e)
      case Ok(acts) =>
        match read(rs[n])
        case Err(e) => Err(e)
        case Ok(a) => Ok(acts + [a])
  }

  lemma ActsNext<R, Op>(read: Reader<R, Op>, rs: seq<R>, i: nat, acts: seq<Act<Op>>, a: Act<Op>)
    requires i < |rs| && ActsFrom(read, rs[..i]) == Ok(acts) && read(rs[i]) == Ok(a)
    ensures ActsFrom(read, rs[..i + 1]) == Ok(acts + [a])
  {
    assert rs[..i + 1][..i] == rs[..i];
  }

  lemma {:induction false} FirstError<R, Op>(read: Reader<R, Op>, rs: seq<R>, i: nat, e: ReconstructError)
    requires i < |rs| && ActsFrom(read, rs[..i]).Ok? && read(rs[i]) == Err(e)
    ensures ActsFrom(read, rs) == Err(e)
    decreases |rs|
  {
    var n := |rs| - 1;
    if i < n {
      assert rs[..n][..i] == rs[..i];
      FirstError(read, rs[..n], i, e);
    }
  }

  lemma {:induction false} ActsOkIff<R, Op>(read: Reader<R, Op>, rs: seq<R>)
    ensures ActsFrom(read, rs).Ok? <==> forall i :: 0 <= i < |rs| ==> read(rs[i]).Ok?
    decreases |rs|
  {
    if rs != [] {
      ActsOkIff(read, rs[..|rs| - 1]);
    }
  }

  lemma {:induction false} ActsBack<R, Op>(read: Reader<R, Op>, rs: seq<R>, acts: seq<Act<Op>>)
    requires |rs| == |acts| && forall i :: 0 <= i < |rs| ==> read(rs[i]) == Ok(acts[i])
    ensures ActsFrom(read, rs) == Ok(acts)
    decreases |rs|
  {
    if rs != [] {
      var n := |rs| - 1;
      ActsBack(read, rs[..n], acts[..n]);
      assert acts == acts[..n] + [acts[n]];
    }
  }

  function Krc20Act(r: Krc20Record): Result<Act<Krc20.Krc20Op>, ReconstructError> {
    match Krc20FromRecord(r)
    case Err(e) => Err(e)
    case Ok(x) => Ok(Act(x.tick, x.op, r.sender))
  }

  function Krc20Acts(rs: seq<Krc20Record>): Result<seq<Act<Krc20.Krc20Op>>, ReconstructError> {
    ActsFrom(Krc20Act, rs)
  }

  method ReplayKrc20FromRecords(rs: seq<Krc20Record>) returns (r: Result<Krc20.Krc20Ledger, ReconstructError>)
    ensures match Krc20Acts(rs)
            case Err(e) => r == Err(e)
            case Ok(acts) => r.Ok? && fresh(r.value) && r.value.Valid() && r.value.tokens == Replay(Krc20.Krc20Rule, acts)
  {
    var acts := [];
    for i := 0 to |rs|
      invariant Krc20Acts(rs[..i]) == Ok(acts)
    {
      var x := Krc20FromRecord(rs[i]);
      if x.Err? {
        FirstError(Krc20Act, rs, i, x.error);
        return Err(x.error);
      }
      var a := Act(x.value.tick, x.value.op, rs[i].sender);
      ActsNext(Krc20Act, rs, i, acts, a);
      acts := acts + [a];
    }
    assert rs[..|rs|] == rs;
    var ledger := Krc20.Krc20Ledger.ReplayActs(acts);
    return Ok(ledger);
  }

  /** The record form is fine exactly when every row is well formed. */
  lemma Krc20ActsOkIff(rs: seq<Krc20Record>)
    ensures Krc20Acts(rs).Ok? <==> forall i :: 0 <= i < |rs| ==> WellFormed20(rs[i])
  {
    ActsOkIff(Krc20Act, rs);
    forall i | 0 <= i < |rs| ensures Krc20Act(rs[i]).Ok? <==> WellFormed20(rs[i]) {
      Krc20OkIff(rs[i]);
    }
  }

  function Krc721Act(r: Krc721Record): Result<Act<Krc721.Krc721Op>, ReconstructError> {
    match Krc721FromRecord(r)
    case Err(e) => Err(e)
    case Ok(x) => Ok(Act(x.tick, x.op, r.sender))
  }

  function Krc721Acts(rs: seq<Krc721Record>): Result<seq<Act<Krc721.Krc721Op>>, ReconstructError> {
    ActsFrom(Krc721Act, rs)
  }

  method ReplayKrc721FromRecords(rs: seq<Krc721Record>) returns (r: Result<Krc721.Krc721Ledger, ReconstructError>)
    ensures match Krc721Acts(rs)
            case Err(e) => r == Err(e)
            case Ok(acts) => r.Ok? && fresh(r.value) && r.value.collections == Replay(Krc721.Krc721Rule, acts)
  {
    var acts := [];
    for i := 0 to |rs|
      invariant Krc721Acts(rs[..i]) == Ok(acts)
    {
      var x := Krc721FromRecord(rs[i]);
      if x.Err? {
        FirstError(Krc721Act, rs, i, x.error);
        return Err(x.error);
      }
      var a := Act(x.value.tick, x.value.op, rs[i].sender);
      ActsNext(Krc721Act, rs, i, acts, a);
      acts := acts + [a];
    }
    assert rs[..|rs|] == rs;
    var ledger := Krc721.Krc721Ledger.ReplayActs(acts);
    return Ok(ledger);
  }

  lemma Krc721ActsOkIff(rs: seq<Krc721Record>)
    ensures Krc721Acts(rs).Ok? <==> forall i :: 0 <= i < |rs| ==> WellFormed721(rs[i])
  {
    ActsOkIff(Krc721Act, rs);
    forall i | 0 <= i < |rs| ensures Krc721Act(rs[i]).Ok? <==> WellFormed721(rs[i]) {
      Krc721OkIff(rs[i]);
    }
  }

  // ----- From any run, through the table's text columns, back to the ledger -----

  /** The rows as stored; `raw` is the tick as it was written on chain. */
  function Krc20Records(rows: seq<Row<Krc20.Krc20Op>>, raw: string -> string): (r: seq<Krc20Record>)
    ensures |r| == |rows|
    ensures forall i :: 0 <= i < |rows| ==>
      r[i] == Krc20ToRecord(Inscription(rows[i].act.tick, raw(rows[i].act.tick), rows[i].act.op), rows[i].act.sender)
  {
    seq(|rows|, i requires 0 <= i < |rows| =>
      Krc20ToRecord(Inscription(rows[i].act.tick, raw(rows[i].act.tick), rows[i].act.op), rows[i].act.sender))
  }

  function Krc721Records(rows: seq<Row<Krc721.Krc721Op>>, raw: string -> string): (r: seq<Krc721Record>)
    ensures |r| == |rows|
    ensures forall i :: 0 <= i < |rows| ==>
      r[i] == Krc721ToRecord(Inscription(rows[i].act.tick, raw(rows[i].act.tick), rows[i].act.op), rows[i].act.sender)
  {
    seq(|rows|, i requires 0 <= i < |rows| =>
      Krc721ToRecord(Inscription(rows[i].act.tick, raw(rows[i].act.tick), rows[i].act.op), rows[i].act.sender))
  }

  lemma Krc20RecordsGiveActs(rows: seq<Row<Krc20.Krc20Op>>, raw: string -> string)
    ensures Krc20Acts(Krc20Records(rows, raw)) == Ok(ActsOf(rows))
  {
    forall i | 0 <= i < |rows| ensures Krc20Act(Krc20Records(rows, raw)[i]) == Ok(rows[i].act) {
      var a := rows[i].act;
      Krc20RowRoundTrip(Inscription(a.tick, raw(a.tick), a.op), a.sender);
    }
    ActsBack(Krc20Act, Krc20Records(rows, raw), ActsOf(rows));
  }

  lemma Krc721RecordsGiveActs(rows: seq<Row<Krc721.Krc721Op>>, raw: string -> string)
    ensures Krc721Acts(Krc721Records(rows, raw)) == Ok(ActsOf(rows))
  {
    forall i | 0 <= i < |rows| ensures Krc721Act(Krc721Records(rows, raw)[i]) == Ok(rows[i].act) {
      var a := rows[i].act;
      Krc721RowRoundTrip(Inscription(a.tick, raw(a.tick), a.op), a.sender);
    }
    ActsBack(Krc721Act, Krc721Records(rows, raw), ActsOf(rows));
  }

  /** After any run of ops, unwinds and restarts, reading the KRC-20 journal back in
      replay order rebuilds the live ledger, whose supply is conserved. */
  lemma Krc20Recovers(es: seq<LedgerRuns.Event<Krc20.Krc20Op>>,
                      states: seq<LedgerRuns.Indexer<Krc20.TokenState, Krc20.Krc20Op>>,
                      out: seq<Row<Krc20.Krc20Op>>, raw: string -> string, tick: string)
    requires LedgerRuns.IsRun(Krc20.Krc20Rule, es, states) && LedgerRuns.InOrder(Krc20.Krc20Rule, es)
    requires Fetched(states[|es|].rows, out)
    ensures var live := states[|es|].live;
      && Krc20Acts(Krc20Records(out, raw)).Ok?
      && Replay(Krc20.Krc20Rule, Krc20Acts(Krc20Records(out, raw)).value) == live
      && (tick in live ==> Krc20.Sound(live[tick]))
  {
    var xs := LedgerRuns.Surviving(Krc20.Krc20Rule, es);
    LedgerRuns.RunIsSurvivors(Krc20.Krc20Rule, es, states);
    LedgerRuns.ReadBack(Krc20.Krc20Rule, xs, out);
    Krc20RecordsGiveActs(out, raw);
    Krc20.SupplyConserved(LedgerRuns.Acts(xs), tick);
  }

  /** The same for the KRC-721 journal and its owners. */
  lemma Krc721Recovers(es: seq<LedgerRuns.Event<Krc721.Krc721Op>>,
                       states: seq<LedgerRuns.Indexer<Krc721.CollectionState, Krc721.Krc721Op>>,
                       out: seq<Row<Krc721.Krc721Op>>, raw: string -> string, tick: string)
    requires LedgerRuns.IsRun(Krc721.Krc721Rule, es, states) && LedgerRuns.InOrder(Krc721.Krc721Rule, es)
    requires Fetched(states[|es|].rows, out)
    ensures var live := states[|es|].live;
      && Krc721Acts(Krc721Records(out, raw)).Ok?
      && Replay(Krc721.Krc721Rule, Krc721Acts(Krc721Records(out, raw)).value) == live
      && (tick in live ==> Krc721.Sound(live[tick]))
  {
    var xs := LedgerRuns.Surviving(Krc721.Krc721Rule, es);
    LedgerRuns.RunIsSurvivors(Krc721.Krc721Rule, es, states);
    LedgerRuns.ReadBack(Krc721.Krc721Rule, xs, out);
    Krc721RecordsGiveActs(out, raw);
    Krc721.LedgerIsFaithful(LedgerRuns.Acts(xs), tick, 0);
  }
}
