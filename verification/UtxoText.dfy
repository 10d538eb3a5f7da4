/** Decimal text, and the `tx_hash:output_index` text that names a UTXO in
    lineage rows and heads; each with the reader that inverts it. */
module UtxoText {

  const DIGITS := "0123456789"

  predicate IsDigit(c: char) { '0' <= c <= '9' }

  function DigitValue(c: char): nat
    requires IsDigit(c)
  {
    (c as int) - ('0' as int)
  }

  ghost predicate AllDigits(s: string) {
    forall i :: 0 <= i < |s| ==> IsDigit(s[i])
  }

  function Decimal(n: nat): (s: string)
    ensures s != [] && AllDigits(s)
  {
    if n < 10 then [DIGITS[n]] else Decimal(n / 10) + [DIGITS[n % 10]]
  }

  /** The number a string of digits denotes. */
  function Value(s: string): nat {
    if s == [] || !IsDigit(s[|s| - 1]) then 0
    else 10 * Value(s[..|s| - 1]) + DigitValue(s[|s| - 1])
  }

  lemma {:induction false} ValueOfDecimal(n: nat)
    ensures Value(Decimal(n)) == n
  {
    if n >= 10 {
      ValueOfDecimal(n / 10);
      var s := Decimal(n);
      assert s[..|s| - 1] == Decimal(n / 10);
    } else {
      assert Decimal(n)[..0] == [];
    }
  }

  function Signed(n: int): string {
    if n < 0 then "-" + Decimal(-n) else Decimal(n)
  }

  function SignedValue(s: string): int {
    if s != [] && s[0] == '-' then 0 - Value(s[1..]) else Value(s)
  }

  lemma ValueOfSigned(n: int)
    ensures SignedValue(Signed(n)) == n
  {
    var d := Decimal(if n < 0 then -n else n);
    ValueOfDecimal(if n < 0 then -n else n);
    assert IsDigit(d[0]);
    assert ("-" + d)[1..] == d;
  }

  function Utxo(tx: string, index: int): string {
    tx + ":" + Signed(index)
  }

  /** Everything before the last colon, and everything after it. */
  function BeforeColon(s: string): string {
    if s == [] then [] else if s[|s| - 1] == ':' then s[..|s| - 1] else BeforeColon(s[..|s| - 1])
  }

  lemma {:induction false} BeforeColonIs(tx: string, tail: string)
    requires forall i :: 0 <= i < |tail| ==> tail[i] != ':'
    ensures BeforeColon(tx + ":" + tail) == tx
  {
    var s := tx + ":" + tail;
    if tail == [] {
      assert s[..|s| - 1] == tx;
    } else {
      BeforeColonIs(tx, tail[..|tail| - 1]);
      assert s[..|s| - 1] == tx + ":" + tail[..|tail| - 1];
      assert s[|s| - 1] == tail[|tail| - 1];
    }
  }

  lemma NoColon(n: int)
    ensures forall i :: 0 <= i < |Signed(n)| ==> Signed(n)[i] != ':'
  {
    var d := Decimal(if n < 0 then -n else n);
    assert forall i :: 0 <= i < |d| ==> IsDigit(d[i]);
    assert Signed(n) == (if n < 0 then "-" else "") + d;
  }

  /** The text names one UTXO only: the index has no colon in it. */
  lemma UtxoInjective(s: string, m: int, t: string, n: int)
    ensures Utxo(s, m) == Utxo(t, n) <==> s == t && m == n
  {
    NoColon(m);
    NoColon(n);
    BeforeColonIs(s, Signed(m));
    BeforeColonIs(t, Signed(n));
    assert Utxo(s, m)[|s| + 1..] == Signed(m);
    assert Utxo(t, n)[|t| + 1..] == Signed(n);
    ValueOfSigned(m);
    ValueOfSigned(n);
  }
}
