/** KCC20 spend classification (crates/kasgraph-detectors/src/kcc20_operation.rs): what
    an extracted receipt says, and which operation a spend's receipts amount to. */
module Kcc20Operation {
  import opened Prelude

  const TWO_128 := 0x1_0000_0000_0000_0000_0000_0000_0000_0000
  const IDENTIFIER_COVENANT_ID := 2

  type u128 = x: int | 0 <= x < TWO_128

  datatype ReceiptState = ReceiptState(ownerIdentifier: string, identifierType: byte, amount: u128, isMinter: bool)

  datatype Operation = TransferOperation | MintOperation | BurnOperation | RotateController

  datatype DecodeError = MissingField(missing: string) | NotHex(malformed: string) | Overflow(wide: string)

  // ----- Little-endian integers by shift and or -----

  /** `|` on unsigned integers, bit by bit. */
  function BitOr(a: nat, b: nat): nat
    decreases a + b
  {
    if a == 0 then b
    else if b == 0 then a
    else 2 * BitOr(a / 2, b / 2) + if a % 2 == 1 || b % 2 == 1 then 1 else 0
  }

  function Pow2(n: nat): (r: nat)
    ensures r > 0
  {
    if n == 0 then 1 else 2 * Pow2(n - 1)
  }

  /** `b << n`. */
  function Shl(b: nat, n: nat): nat { b * Pow2(n) }

  /** The fold over the bytes: each is shifted to its place and or-ed in. */
  function OrFold(bytes: seq<byte>): nat {
    if bytes == [] then 0
    else
      var n := |bytes| - 1;
      BitOr(OrFold(bytes[..n]), Shl(bytes[n], 8 * n))
  }

  /** The number the bytes denote, least significant first. */
  function LittleEndian(bytes: seq<byte>): nat {
    if bytes == [] then 0 else bytes[0] + 256 * LittleEndian(bytes[1..])
  }

  lemma {:induction false} OrIsSum(a: nat, b: nat, n: nat)
    requires a < Pow2(n)
    ensures BitOr(a, Shl(b, n)) == a + Shl(b, n)
    decreases n
  {
    if a != 0 && b != 0 {
      var half := Shl(b, n - 1);
      assert Shl(b, n) == 2 * half by { Doubled(b, Pow2(n - 1)); }
      assert half > 0 by { Positive(b, Pow2(n - 1)); }
      OrIsSum(a / 2, b, n - 1);
    } else if b == 0 {
      assert Shl(b, n) == 0;
    }
  }

  lemma Doubled(b: nat, p: nat)
    ensures b * (2 * p) == 2 * (b * p)
  {
  }

  lemma Positive(b: nat, p: nat)
    requires 0 < b && 0 < p
    ensures 0 < b * p
  {
  }

  lemma {:induction false} Pow2Adds(m: nat, n: nat)
    ensures Pow2(m + n) == Pow2(m) * Pow2(n)
    decreases n
  {
    if n > 0 {
      Pow2Adds(m, n - 1);
      var p, q := Pow2(m), Pow2(n - 1);
      assert Pow2(m + n) == 2 * Pow2(m + (n - 1));
      Doubled(p, q);
    } else {
      assert Pow2(m) * 1 == Pow2(m);
    }
  }

  lemma {:induction false} LittleEndianLast(bytes: seq<byte>, b: byte)
    ensures LittleEndian(bytes + [b]) == LittleEndian(bytes) + Shl(b, 8 * |bytes|)
    decreases |bytes|
  {
    if bytes == [] {
      assert (bytes + [b])[1..] == [];
    } else {
      assert (bytes + [b])[1..] == bytes[1..] + [b];
      LittleEndianLast(bytes[1..], b);
      EightMore(b, 8 * |bytes[1..]|);
    }
  }

  lemma EightMore(b: nat, n: nat)
    ensures Shl(b, n + 8) == 256 * Shl(b, n)
  {
    Pow2Adds(n, 8);
    assert Pow2(8) == 256;
    var p := Pow2(n);
    assert b * (p * 256) == 256 * (b * p);
  }

  /** The shift-or fold is the sum of the bytes times powers of 256, and fits the
      bytes' width. */
  lemma {:induction false} OrFoldIsLittleEndian(bytes: seq<byte>)
    ensures OrFold(bytes) == LittleEndian(bytes) < Pow2(8 * |bytes|)
    decreases |bytes|
  {
    if bytes != [] {
      var n := |bytes| - 1;
      OrFoldIsLittleEndian(bytes[..n]);
      OrIsSum(OrFold(bytes[..n]), bytes[n], 8 * n);
      LittleEndianLast(bytes[..n], bytes[n]);
      assert bytes == bytes[..n] + [bytes[n]];
      Widened(OrFold(bytes[..n]), bytes[n], 8 * n);
    }
  }

  lemma Widened(a: nat, b: byte, n: nat)
    requires a < Pow2(n)
    ensures a + Shl(b, n) < Pow2(n + 8)
  {
    Pow2Adds(n, 8);
    assert Pow2(8) == 256;
    var p := Pow2(n);
    assert b * p <= 255 * p by { NoMore(b, 255, p); }
    assert Pow2(n + 8) == p * 256;
  }

  lemma NoMore(a: nat, b: nat, p: nat)
    requires a <= b
    ensures a * p <= b * p
  {
  }

  /** The 8-byte encoding the covenant script stores. */
  function ToBytes(x: nat, width: nat): (r: seq<byte>)
    ensures |r| == width
  {
    if width == 0 then [] else [x % 256] + ToBytes(x / 256, width - 1)
  }

  lemma {:induction false} BytesRoundTrip(x: nat, width: nat)
    requires x < Pow2(8 * width)
    ensures LittleEndian(ToBytes(x, width)) == x
    decreases width
  {
    if width > 0 {
      Pow2Adds(8 * (width - 1), 8);
      assert Pow2(8) == 256;
      assert x / 256 < Pow2(8 * (width - 1));
      BytesRoundTrip(x / 256, width - 1);
      assert ToBytes(x, width)[1..] == ToBytes(x / 256, width - 1);
    }
  }

  // ----- Hex payload fields -----

  /** A payload's members: the text of a string member, or `None` for any other. */
  type Payload = map<string, Option<string>>

  const HEX := "0123456789abcdef"

  function HexDigit(c: char): Option<nat> {
    if '0' <= c <= '9' then Some(c as int - '0' as int)
    else if 'a' <= c <= 'f' then Some(c as int - 'a' as int + 10)
    else if 'A' <= c <= 'F' then Some(c as int - 'A' as int + 10)
    else None
  }

  function HexDecode(s: string): (r: Option<seq<byte>>)
    ensures r.Some? ==> |s| == 2 * |r.value|
  {
    if s == [] then Some([])
    else if |s| == 1 || HexDigit(s[0]).None? || HexDigit(s[1]).None? then None
    else
      match HexDecode(s[2..])
      case None => None
      case Some(rest) => Some([ByteOf(HexDigit(s[0]).value, HexDigit(s[1]).value)] + rest)
  }

  function ByteOf(high: nat, low: nat): byte {
    (16 * high + low) % 256
  }

  function UpperCase(s: string): (r: string)
    ensures |r| == |s|
  {
    if s == [] then "" else [if 'a' <= s[0] <= 'f' then s[0] - ' ' else s[0]] + UpperCase(s[1..])
  }

  /** Digits are read in either case. */
  lemma {:induction false} HexInEitherCase(s: string)
    ensures HexDecode(UpperCase(s)) == HexDecode(s)
    decreases |s|
  {
    if |s| > 1 {
      var u := UpperCase(s);
      assert u[1..] == UpperCase(s[1..]) && u[2..] == UpperCase(s[2..]);
      EitherDigit(s[0], u[0]);
      EitherDigit(s[1], u[1]);
      HexInEitherCase(s[2..]);
    }
  }

  lemma EitherDigit(c: char, u: char)
    requires u == if 'a' <= c <= 'f' then c - ' ' else c
    ensures HexDigit(u) == HexDigit(c)
  {
  }

  function HexEncode(bytes: seq<byte>): string {
    if bytes == [] then "" else [HEX[bytes[0] / 16], HEX[bytes[0] % 16]] + HexEncode(bytes[1..])
  }

  lemma {:induction false} HexRoundTrip(bytes: seq<byte>)
    ensures HexDecode(HexEncode(bytes)) == Some(bytes)
  {
    if bytes != [] {
      HexRoundTrip(bytes[1..]);
      NibblesRoundTrip(bytes[0]);
      assert HexEncode(bytes)[2..] == HexEncode(bytes[1..]);
      assert [bytes[0]] + bytes[1..] == bytes;
    }
  }

  lemma NibblesRoundTrip(b: byte)
    ensures HexDigit(HEX[b / 16]) == Some(b / 16) && HexDigit(HEX[b % 16]) == Some(b % 16)
    ensures ByteOf(b / 16, b % 16) == b
  {
    Nibble(b / 16);
    Nibble(b % 16);
  }

  lemma Nibble(n: nat)
    requires n < 16
    ensures HexDigit(HEX[n]) == Some(n)
  {
  }

  function HexStr(p: Payload, field: string): Result<string, DecodeError> {
    if field in p && p[field].Some? then Ok(p[field].value) else Err(MissingField(field))
  }

  function HexBytes(p: Payload, field: string): Result<seq<byte>, DecodeError> {
    match HexStr(p, field)
    case Err(e) => Err(e)
    case Ok(s) => if HexDecode(s).None? then Err(NotHex(field)) else Ok(HexDecode(s).value)
  }

  function HexByte(p: Payload, field: string): Result<byte, DecodeError> {
    match HexBytes(p, field)
    case Err(e) => Err(e)
    case Ok(bytes) => if |bytes| == 1 then Ok(bytes[0]) else Err(Overflow(field))
  }

  /** An amount of at most eight bytes; it is below 2^64. */
  function HexLeU64(p: Payload, field: string): (r: Result<u128, DecodeError>)
    ensures r.Ok? ==> r.value < TWO_64
  {
    match HexBytes(p, field)
    case Err(e) => Err(e)
    case Ok(bytes) =>
      if |bytes| > 8 then Err(Overflow(field))
      else
        FoldFits(bytes);
        Ok(OrFold(bytes))
  }

  lemma {:induction false} Pow2Grows(m: nat, n: nat)
    requires m <= n
    ensures Pow2(m) <= Pow2(n)
    decreases n - m
  {
    if m < n {
      Pow2Grows(m, n - 1);
    }
  }

  lemma Squared(n: nat, r: nat)
    requires Pow2(n) == r
    ensures Pow2(2 * n) == r * r
  {
    Pow2Adds(n, n);
  }

  lemma Pow2Of64(n: nat)
    requires n == 8
    ensures Pow2(8 * n) == TWO_64
  {
    assert Pow2(8) == 256;
    Squared(n, 0x100);
    Squared(2 * n, 0x1_0000);
    Squared(4 * n, TWO_32);
  }

  lemma FoldFits(bytes: seq<byte>)
    requires |bytes| <= 8
    ensures OrFold(bytes) < TWO_64
  {
    OrFoldIsLittleEndian(bytes);
    var n := 8;
    Pow2Grows(8 * |bytes|, 8 * n);
    Pow2Of64(n);
  }

  function FromPayload(p: Payload): (r: Result<ReceiptState, DecodeError>)
    ensures r.Ok? ==> r.value.amount < TWO_64
  {
    match HexStr(p, "owner_identifier")
    case Err(e) => Err(e)
    case Ok(owner) =>
      match HexByte(p, "identifier_type")
      case Err(e) => Err(e)
      case Ok(kind) =>
        match HexLeU64(p, "amount")
        case Err(e) => Err(e)
        case Ok(amount) =>
          match HexByte(p, "is_minter")
          case Err(e) => Err(e)
          case Ok(minter) => Ok(ReceiptState(owner, kind, amount, minter != 0))
  }

  /** The payload the detector extracts for a receipt. */
  function ToPayload(r: ReceiptState): Payload {
    map["owner_identifier" := Some(r.ownerIdentifier),
        "identifier_type" := Some(HexEncode([r.identifierType])),
        "amount" := Some(HexEncode(ToBytes(r.amount, 8))),
        "is_minter" := Some(HexEncode([if r.isMinter then 1 else 0]))]
  }

  /** The eight bytes of a 64-bit amount fold back to it. */
  lemma AmountRoundTrip(amount: u128, bytes: seq<byte>)
    requires amount < TWO_64 && bytes == ToBytes(amount, 8)
    ensures HexDecode(HexEncode(bytes)) == Some(bytes) && OrFold(bytes) == amount
  {
    HexRoundTrip(bytes);
    OrFoldIsLittleEndian(bytes);
    Pow2Of64(|bytes|);
    BytesRoundTrip(amount, |bytes|);
  }

  lemma ByteBack(p: Payload, field: string, b: byte)
    requires field in p && p[field] == Some(HexEncode([b]))
    ensures HexByte(p, field) == Ok(b)
  {
    HexRoundTrip([b]);
  }

  lemma AmountBack(p: Payload, field: string, amount: u128, bytes: seq<byte>)
    requires amount < TWO_64 && bytes == ToBytes(amount, 8) && field in p && p[field] == Some(HexEncode(bytes))
    ensures HexLeU64(p, field) == Ok(amount)
  {
    AmountRoundTrip(amount, bytes);
  }

  lemma FieldsBack(p: Payload, r: ReceiptState, minter: byte)
    requires HexStr(p, "owner_identifier") == Ok(r.ownerIdentifier) && HexByte(p, "identifier_type") == Ok(r.identifierType)
    requires HexLeU64(p, "amount") == Ok(r.amount) && HexByte(p, "is_minter") == Ok(minter)
    requires r.isMinter <==> minter != 0
    ensures FromPayload(p) == Ok(r)
  {
  }

  /** The four field names differ already in length. */
  lemma FieldNames(r: ReceiptState, p: Payload)
    requires p == ToPayload(r)
    ensures "owner_identifier" in p && p["owner_identifier"] == Some(r.ownerIdentifier)
    ensures "identifier_type" in p && p["identifier_type"] == Some(HexEncode([r.identifierType]))
    ensures "amount" in p && p["amount"] == Some(HexEncode(ToBytes(r.amount, 8)))
    ensures "is_minter" in p && p["is_minter"] == Some(HexEncode([if r.isMinter then 1 else 0]))
  {
    assert |"owner_identifier"| == 16 && |"identifier_type"| == 15 && |"amount"| == 6 && |"is_minter"| == 9;
  }

  /** Every receipt with a 64-bit amount is read back exactly. */
  lemma ReceiptRoundTrip(r: ReceiptState)
    requires r.amount < TWO_64
    ensures FromPayload(ToPayload(r)) == Ok(r)
  {
    var p, minter := ToPayload(r), if r.isMinter then 1 else 0;
    FieldNames(r, p);
    ByteBack(p, "identifier_type", r.identifierType);
    AmountBack(p, "amount", r.amount, ToBytes(r.amount, 8));
    ByteBack(p, "is_minter", minter);
    FieldsBack(p, r, minter);
  }

  // ----- Classification -----

  function SaturatingAdd(a: u128, b: u128): u128 {
    if a + b < TWO_128 then a + b else TWO_128 - 1
  }

  function SumAmounts(rs: seq<ReceiptState>): u128 {
    if rs == [] then 0 else SaturatingAdd(SumAmounts(rs[..|rs| - 1]), rs[|rs| - 1].amount)
  }

  predicate IsControllerBinding(r: ReceiptState) {
    r.isMinter && r.identifierType == IDENTIFIER_COVENANT_ID
  }

  function ControllerBindings(rs: seq<ReceiptState>): set<string> {
    set r | r in rs && IsControllerBinding(r) :: r.ownerIdentifier
  }

  function Classify(prev: seq<ReceiptState>, next: seq<ReceiptState>): Operation {
    if SumAmounts(next) > SumAmounts(prev) then MintOperation
    else if SumAmounts(next) < SumAmounts(prev) then BurnOperation
    else if ControllerBindings(prev) != ControllerBindings(next) then RotateController
    else TransferOperation
  }

  /** The supply the receipts carry, without a bound. */
  function Supply(rs: seq<ReceiptState>): nat {
    if rs == [] then 0 else Supply(rs[..|rs| - 1]) + rs[|rs| - 1].amount
  }

  /** The saturating fold is the true supply, capped. */
  lemma {:induction false} SumIsCappedSupply(rs: seq<ReceiptState>)
    ensures SumAmounts(rs) == if Supply(rs) < TWO_128 then Supply(rs) else TWO_128 - 1
  {
    if rs != [] {
      SumIsCappedSupply(rs[..|rs| - 1]);
    }
  }

  lemma {:induction false} SupplyBound(rs: seq<ReceiptState>)
    requires forall i :: 0 <= i < |rs| ==> rs[i].amount < TWO_64
    ensures Supply(rs) <= |rs| * (TWO_64 - 1)
  {
    if rs != [] {
      SupplyBound(rs[..|rs| - 1]);
    }
  }

  /** Decoded receipts, fewer than 2^64 of them, never saturate. */
  lemma SumIsSupply(rs: seq<ReceiptState>)
    requires |rs| < TWO_64 && forall i :: 0 <= i < |rs| ==> rs[i].amount < TWO_64
    ensures SumAmounts(rs) == Supply(rs)
  {
    SupplyBound(rs);
    SumIsCappedSupply(rs);
    NoMore(|rs|, TWO_64, TWO_64 - 1);
    assert TWO_64 * (TWO_64 - 1) < TWO_128;
  }

  // ----- The class, read off the receipts' fields -----

  /** Some receipt lets this owner mint, by covenant id: identifier type 0x02. */
  ghost predicate Controls(rs: seq<ReceiptState>, owner: string) {
    exists i :: 0 <= i < |rs| && rs[i].isMinter && rs[i].identifierType == 2 && rs[i].ownerIdentifier == owner
  }

  /** Some owner controls on one side of the spend and not on the other. */
  ghost predicate ControlMoves(prev: seq<ReceiptState>, next: seq<ReceiptState>) {
    exists owner :: Controls(prev, owner) != Controls(next, owner)
  }

  lemma BindingIff(rs: seq<ReceiptState>, owner: string)
    ensures owner in ControllerBindings(rs) <==> Controls(rs, owner)
  {
    if Controls(rs, owner) {
      var i :| 0 <= i < |rs| && rs[i].isMinter && rs[i].identifierType == 2 && rs[i].ownerIdentifier == owner;
      assert rs[i] in rs && IsControllerBinding(rs[i]);
    }
  }

  lemma BindingsMoveIff(prev: seq<ReceiptState>, next: seq<ReceiptState>)
    ensures ControllerBindings(prev) != ControllerBindings(next) <==> ControlMoves(prev, next)
  {
    forall owner ensures (owner in ControllerBindings(prev) <==> Controls(prev, owner))
                      && (owner in ControllerBindings(next) <==> Controls(next, owner)) {
      BindingIff(prev, owner);
      BindingIff(next, owner);
    }
    if ControllerBindings(prev) != ControllerBindings(next) {
      var owner :| (owner in ControllerBindings(prev)) != (owner in ControllerBindings(next));
      assert Controls(prev, owner) != Controls(next, owner);
    }
  }

  /** So the class is what the supply and the controllers did. */
  lemma ClassIsExact(prev: seq<ReceiptState>, next: seq<ReceiptState>)
    requires |prev| < TWO_64 && |next| < TWO_64
    requires forall i :: 0 <= i < |prev| ==> prev[i].amount < TWO_64
    requires forall i :: 0 <= i < |next| ==> next[i].amount < TWO_64
    ensures Classify(prev, next) == MintOperation <==> Supply(prev) < Supply(next)
    ensures Classify(prev, next) == BurnOperation <==> Supply(next) < Supply(prev)
    ensures Classify(prev, next) == RotateController <==> Supply(prev) == Supply(next) && ControlMoves(prev, next)
  {
    SumIsSupply(prev);
    SumIsSupply(next);
    BindingsMoveIff(prev, next);
  }

  // ----- What the class does not depend on -----

  lemma {:induction false} SupplyJoins(xs: seq<ReceiptState>, ys: seq<ReceiptState>)
    ensures Supply(xs + ys) == Supply(xs) + Supply(ys)
    decreases |ys|
  {
    if ys == [] {
      assert xs + ys == xs;
    } else {
      var n := |ys| - 1;
      assert (xs + ys)[..|xs| + n] == xs + ys[..n];
      SupplyJoins(xs, ys[..n]);
    }
  }

  lemma SupplyMore(rs: seq<ReceiptState>, r: ReceiptState)
    ensures Supply(rs + [r]) == Supply(rs) + r.amount
  {
    assert (rs + [r])[..|rs|] == rs;
  }

  lemma Around<T>(s: seq<T>, i: nat)
    requires i < |s|
    ensures s == s[..i] + [s[i]] + s[i + 1..]
  {
  }

  lemma SupplyAround(low: seq<ReceiptState>, r: ReceiptState, high: seq<ReceiptState>)
    ensures Supply(low + [r] + high) == Supply(low + high) + r.amount
  {
    SupplyJoins(low, high);
    SupplyMore(low, r);
    SupplyJoins(low + [r], high);
  }

  lemma SupplyWithout(rs: seq<ReceiptState>, i: nat)
    requires i < |rs|
    ensures Supply(rs) == Supply(rs[..i] + rs[i + 1..]) + rs[i].amount
  {
    Around(rs, i);
    SupplyAround(rs[..i], rs[i], rs[i + 1..]);
  }

  lemma MultisetWithout(rs: seq<ReceiptState>, i: nat)
    requires i < |rs|
    ensures multiset(rs[..i] + rs[i + 1..]) == multiset(rs) - multiset{rs[i]}
  {
    assert rs == rs[..i] + [rs[i]] + rs[i + 1..];
    assert multiset(rs) == multiset(rs[..i]) + multiset{rs[i]} + multiset(rs[i + 1..]);
    assert multiset(rs[..i] + rs[i + 1..]) == multiset(rs[..i]) + multiset(rs[i + 1..]);
  }

  lemma {:induction false} SupplyPermutes(xs: seq<ReceiptState>, ys: seq<ReceiptState>)
    requires multiset(xs) == multiset(ys)
    ensures Supply(xs) == Supply(ys)
    decreases |xs|
  {
    if xs == [] {
      assert |multiset(ys)| == 0;
    } else {
      assert xs[0] in multiset(ys);
      var i :| 0 <= i < |ys| && ys[i] == xs[0];
      SupplyWithout(xs, 0);
      SupplyWithout(ys, i);
      MultisetWithout(xs, 0);
      MultisetWithout(ys, i);
      SupplyPermutes(xs[..0] + xs[1..], ys[..i] + ys[i + 1..]);
    }
  }

  lemma BindingsPermute(xs: seq<ReceiptState>, ys: seq<ReceiptState>)
    requires multiset(xs) == multiset(ys)
    ensures ControllerBindings(xs) == ControllerBindings(ys)
  {
    forall r ensures r in xs <==> r in ys {
      assert r in multiset(xs) <==> r in multiset(ys);
    }
  }

  /** The order of inputs and outputs is irrelevant, whatever the amounts. */
  lemma ClassPermutes(prev: seq<ReceiptState>, prev': seq<ReceiptState>, next: seq<ReceiptState>, next': seq<ReceiptState>)
    requires multiset(prev) == multiset(prev') && multiset(next) == multiset(next')
    ensures Classify(prev, next) == Classify(prev', next')
  {
    SupplyPermutes(prev, prev');
    SupplyPermutes(next, next');
    SumIsCappedSupply(prev);
    SumIsCappedSupply(prev');
    SumIsCappedSupply(next);
    SumIsCappedSupply(next');
    BindingsPermute(prev, prev');
    BindingsPermute(next, next');
  }

  /** Two receipt lists the classifier cannot tell apart. */
  ghost predicate Alike(xs: seq<ReceiptState>, ys: seq<ReceiptState>) {
    SumAmounts(xs) == SumAmounts(ys) && ControllerBindings(xs) == ControllerBindings(ys)
  }

  ghost predicate NoControllers(rs: seq<ReceiptState>) {
    forall i :: 0 <= i < |rs| ==> !(rs[i].isMinter && rs[i].identifierType == 2)
  }

  lemma SplitAlike(before: seq<ReceiptState>, parts: seq<ReceiptState>, parts': seq<ReceiptState>, after: seq<ReceiptState>)
    requires NoControllers(parts) && NoControllers(parts') && Supply(parts) == Supply(parts')
    ensures Alike(before + parts + after, before + parts' + after)
  {
    var xs, ys := before + parts + after, before + parts' + after;
    SupplyJoins(before, parts);
    SupplyJoins(before, parts');
    SupplyJoins(before + parts, after);
    SupplyJoins(before + parts', after);
    SumIsCappedSupply(xs);
    SumIsCappedSupply(ys);
    forall r | IsControllerBinding(r) ensures r in xs <==> r in ys {
      assert r !in parts && r !in parts';
    }
  }

  /** Splitting or merging receipts that bind no controller, on either side of a
      spend, never changes its class, as long as they carry the same amount in all. */
  lemma SplitIsAlike(before: seq<ReceiptState>, parts: seq<ReceiptState>, parts': seq<ReceiptState>,
                     after: seq<ReceiptState>, other: seq<ReceiptState>)
    requires NoControllers(parts) && NoControllers(parts') && Supply(parts) == Supply(parts')
    ensures Classify(before + parts + after, other) == Classify(before + parts' + after, other)
    ensures Classify(other, before + parts + after) == Classify(other, before + parts' + after)
  {
    SplitAlike(before, parts, parts', after);
  }

  function Reversed(op: Operation): Operation {
    match op
    case MintOperation => BurnOperation
    case BurnOperation => MintOperation
    case _ => op
  }

  /** Seen backwards, a mint is a burn; transfers and rotations stay what they are. */
  lemma SwapReverses(prev: seq<ReceiptState>, next: seq<ReceiptState>)
    ensures Classify(next, prev) == Reversed(Classify(prev, next))
  {
  }

  // ----- From payloads to the operation -----

  /** All receipts, or the first payload's error that has one. */
  function ParseAll(ps: seq<Payload>): (r: Result<seq<ReceiptState>, DecodeError>)
    ensures r.Ok? ==> |r.value| == |ps| && forall i :: 0 <= i < |ps| ==> r.value[i].amount < TWO_64
    ensures r.Ok? <==> forall i :: 0 <= i < |ps| ==> FromPayload(ps[i]).Ok?
  {
    if ps == [] then Ok([])
    else
      match FromPayload(ps[0])
      case Err(e) => Err(e)
      case Ok(r) =>
        match ParseAll(ps[1..])
        case Err(e) => Err(e)
        case Ok(rest) => Ok([r] + rest)
  }

  function SpendOperation(consumed: seq<Payload>, created: seq<Payload>): Result<Operation, DecodeError> {
    match ParseAll(consumed)
    case Err(e) => Err(e)
    case Ok(prev) =>
      match ParseAll(created)
      case Err(e) => Err(e)
      case Ok(next) => Ok(Classify(prev, next))
  }

  function Payloads(rs: seq<ReceiptState>): (r: seq<Payload>)
    ensures |r| == |rs| && forall i :: 0 <= i < |rs| ==> r[i] == ToPayload(rs[i])
  {
    seq(|rs|, i requires 0 <= i < |rs| => ToPayload(rs[i]))
  }

  lemma PayloadsTail(rs: seq<ReceiptState>)
    requires rs != []
    ensures Payloads(rs)[1..] == Payloads(rs[1..]) && [rs[0]] + rs[1..] == rs
  {
  }

  lemma ParseFirst(ps: seq<Payload>, r: ReceiptState, rest: seq<ReceiptState>)
    requires ps != [] && FromPayload(ps[0]) == Ok(r) && ParseAll(ps[1..]) == Ok(rest)
    ensures ParseAll(ps) == Ok([r] + rest)
  {
  }

  lemma {:induction false} ParseRoundTrip(rs: seq<ReceiptState>)
    requires forall i :: 0 <= i < |rs| ==> rs[i].amount < TWO_64
    ensures ParseAll(Payloads(rs)) == Ok(rs)
  {
    if rs != [] {
      ReceiptRoundTrip(rs[0]);
      ParseRoundTrip(rs[1..]);
      PayloadsTail(rs);
      ParseFirst(Payloads(rs), rs[0], rs[1..]);
    }
  }

  /** From the payloads of any two receipt sets the operation comes out exact. */
  lemma SpendIsExact(prev: seq<ReceiptState>, next: seq<ReceiptState>)
    requires |prev| < TWO_64 && |next| < TWO_64
    requires forall i :: 0 <= i < |prev| ==> prev[i].amount < TWO_64
    requires forall i :: 0 <= i < |next| ==> next[i].amount < TWO_64
    ensures SpendOperation(Payloads(prev), Payloads(next)) == Ok(
      if Supply(prev) < Supply(next) then MintOperation
      else if Supply(next) < Supply(prev) then BurnOperation
      else if ControlMoves(prev, next) then RotateController
      else TransferOperation)
  {
    ParseRoundTrip(prev);
    ParseRoundTrip(next);
    ClassIsExact(prev, next);
  }
}
