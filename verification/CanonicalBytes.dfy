/** The length-prefixed encoding of a block's entity state
    (crates/kasgraph-poi/src/lib.rs:130-191), with a decoder as its partner.
    JSON text is produced by serde_json: it is the parameter `render`. */
module CanonicalBytes {
  import opened Prelude
  import opened StableSort
  import opened CanonicalJson

  datatype Entity = Entity(entityType: Text, entityId: Text, state: Json)

  /** One encoded entity: its type, its id and the text of its canonical state. */
  datatype Record = Record(entityType: Text, entityId: Text, state: seq<byte>)

  type Printer = Json -> seq<byte>

  /** What the text of a canonical form must tell apart: canonical forms of JSON values. */
  ghost predicate Injective(render: Printer) {
    forall v, w :: WellFormed(v) && WellFormed(w) ==> TellsApart(render, v, w)
  }

  ghost predicate TellsApart(render: Printer, v: Json, w: Json) {
    render(Canonicalize(v)) == render(Canonicalize(w)) ==> Canonicalize(v) == Canonicalize(w)
  }

  function Keying(es: seq<Entity>): (r: seq<Keyed<Json>>)
    ensures |r| == |es|
    ensures forall i :: 0 <= i < |es| ==> r[i] == Keyed(Key(es[i].entityType, es[i].entityId), es[i].state)
  {
    seq(|es|, i requires 0 <= i < |es| => Keyed(Key(es[i].entityType, es[i].entityId), es[i].state))
  }

  function RecordOf(render: Printer, e: Keyed<Json>): Record {
    Record(e.key.major, e.key.minor, render(Canonicalize(e.value)))
  }

  function Records(render: Printer, s: seq<Keyed<Json>>): (r: seq<Record>)
    ensures |r| == |s|
    ensures forall i :: 0 <= i < |s| ==> r[i] == RecordOf(render, s[i])
  {
    seq(|s|, i requires 0 <= i < |s| => RecordOf(render, s[i]))
  }

  /** `(n as u32).to_le_bytes()`: truncating, least significant byte first. */
  function LittleEndian32(n: nat): (r: seq<byte>)
    ensures |r| == 4
  {
    [n % 256, n / 0x100 % 256, n / 0x1_0000 % 256, n / 0x100_0000 % 256]
  }

  function Field(bytes: seq<byte>): seq<byte> {
    LittleEndian32(|bytes|) + bytes
  }

  function EncodeRecord(r: Record): seq<byte> {
    Field(r.entityType) + Field(r.entityId) + Field(r.state)
  }

  function EncodeAll(rs: seq<Record>): seq<byte> {
    if rs == [] then [] else EncodeRecord(rs[0]) + EncodeAll(rs[1..])
  }

  function Encode(rs: seq<Record>): seq<byte> {
    LittleEndian32(|rs|) + EncodeAll(rs)
  }

  function SortedRecords(render: Printer, es: seq<Entity>): (r: seq<Record>)
    ensures |r| == |es|
  {
    Records(render, Sort(Keying(es)))
  }

  function BlockBytes(render: Printer, es: seq<Entity>): (r: seq<byte>)
    ensures r != []
  {
    Encode(SortedRecords(render, es))
  }

  /** The records come by type first and under one type by id, each in byte order. */
  lemma RecordsByTypeThenId(render: Printer, es: seq<Entity>, i: nat, j: nat)
    requires i < j < |es|
    ensures var r, q := SortedRecords(render, es)[i], SortedRecords(render, es)[j];
      Before(r.entityType, q.entityType) && (r.entityType == q.entityType ==> Before(r.entityId, q.entityId))
  {
    SortsByTypeThenId(Keying(es), i, j);
  }

  lemma Assoc(a: seq<byte>, b: seq<byte>, c: seq<byte>)
    ensures a + b + c == a + (b + c)
  {
  }

  lemma {:induction false} EncodeAllAppend(rs: seq<Record>, r: Record)
    ensures EncodeAll(rs + [r]) == EncodeAll(rs) + EncodeRecord(r)
  {
    if rs == [] {
      assert rs + [r] == [r];
      assert EncodeAll([r]) == EncodeRecord(r) + EncodeAll([]);
    } else {
      EncodeAllAppend(rs[1..], r);
      assert (rs + [r])[1..] == rs[1..] + [r];
      Assoc(EncodeRecord(rs[0]), EncodeAll(rs[1..]), EncodeRecord(r));
    }
  }

  lemma AppendRecord(out: seq<byte>, r: Record)
    ensures out + Field(r.entityType) + Field(r.entityId) + Field(r.state) == out + EncodeRecord(r)
  {
    Assoc(out, Field(r.entityType), Field(r.entityId));
    Assoc(out, Field(r.entityType) + Field(r.entityId), Field(r.state));
  }

  lemma PrefixStep(rs: seq<Record>, i: nat, pre: seq<byte>)
    requires i < |rs|
    ensures pre + EncodeAll(rs[..i + 1]) == pre + EncodeAll(rs[..i]) + EncodeRecord(rs[i])
  {
    EncodeAllAppend(rs[..i], rs[i]);
    assert rs[..i + 1] == rs[..i] + [rs[i]];
    Assoc(pre, EncodeAll(rs[..i]), EncodeRecord(rs[i]));
  }

  /** The source's loop over a growing buffer computes the encoding. */
  method CanonicalBlockBytes(render: Printer, es: seq<Entity>) returns (out: seq<byte>)
    ensures out == BlockBytes(render, es)
  {
    var sorted := Sort(Keying(es));
    ghost var records := SortedRecords(render, es);
    out := LittleEndian32(|sorted|);
    ghost var count := out;
    var i := 0;
    while i < |sorted|
      invariant 0 <= i <= |sorted|
      invariant out == count + EncodeAll(records[..i])
    {
      AppendRecord(out, records[i]);
      PrefixStep(records, i, count);
      out := out + Field(sorted[i].key.major);
      out := out + Field(sorted[i].key.minor);
      out := out + Field(render(Canonicalize(sorted[i].value)));
      i := i + 1;
    }
    assert records[..i] == records;
  }

  // ----- The decoder -----

  function Read32(bs: seq<byte>): nat
    requires |bs| >= 4
  {
    var b: seq<int> := bs;
    b[0] + 0x100 * b[1] + 0x1_0000 * b[2] + 0x100_0000 * b[3]
  }

  datatype Parsed<+T> = Fail | Parsed(value: T, rest: seq<byte>)

  function ReadField(bs: seq<byte>): Parsed<seq<byte>> {
    if |bs| < 4 then Fail
    else
      var n := Read32(bs);
      if |bs| < 4 + n then Fail else Parsed(bs[4..4 + n], bs[4 + n..])
  }

  function ReadRecord(bs: seq<byte>): Parsed<Record> {
    match ReadField(bs)
    case Fail => Fail
    case Parsed(entityType, r1) =>
      match ReadField(r1)
      case Fail => Fail
      case Parsed(entityId, r2) =>
        match ReadField(r2)
        case Fail => Fail
        case Parsed(state, rest) => Parsed(Record(entityType, entityId, state), rest)
  }

  function ReadRecords(n: nat, bs: seq<byte>): Option<seq<Record>> {
    if n == 0 then (if bs == [] then Some([]) else None)
    else
      match ReadRecord(bs)
      case Fail => None
      case Parsed(r, rest) =>
        match ReadRecords(n - 1, rest)
        case None => None
        case Some(rs) => Some([r] + rs)
  }

  function Decode(bs: seq<byte>): Option<seq<Record>> {
    if |bs| < 4 then None else ReadRecords(Read32(bs), bs[4..])
  }

  ghost predicate Fits(rs: seq<Record>) {
    && |rs| < TWO_32
    && forall i :: 0 <= i < |rs| ==> FitsRecord(rs[i])
  }

  ghost predicate FitsRecord(r: Record) {
    |r.entityType| < TWO_32 && |r.entityId| < TWO_32 && |r.state| < TWO_32
  }

  lemma LittleEndian32RoundTrip(n: nat, rest: seq<byte>)
    requires n < TWO_32
    ensures Read32(LittleEndian32(n) + rest) == n
  {
    var q, r, s := n / 0x100, n / 0x1_0000, n / 0x100_0000;
    assert n == 0x100 * q + n % 0x100;
    assert r == q / 0x100 && q == 0x100 * r + q % 0x100;
    assert s == r / 0x100 && r == 0x100 * s + r % 0x100;
    assert s % 0x100 == s;
  }

  lemma FieldRoundTrip(bytes: seq<byte>, rest: seq<byte>)
    requires |bytes| < TWO_32
    ensures ReadField(Field(bytes) + rest) == Parsed(bytes, rest)
  {
    var all := Field(bytes) + rest;
    assert all == LittleEndian32(|bytes|) + (bytes + rest);
    LittleEndian32RoundTrip(|bytes|, bytes + rest);
    assert all[4..4 + |bytes|] == bytes;
    assert all[4 + |bytes|..] == rest;
  }

  lemma RecordRoundTrip(r: Record, rest: seq<byte>)
    requires FitsRecord(r)
    ensures ReadRecord(EncodeRecord(r) + rest) == Parsed(r, rest)
  {
    var r2 := Field(r.state) + rest;
    var r1 := Field(r.entityId) + r2;
    assert EncodeRecord(r) + rest == Field(r.entityType) + r1;
    FieldRoundTrip(r.entityType, r1);
    FieldRoundTrip(r.entityId, r2);
    FieldRoundTrip(r.state, rest);
  }

  lemma ReadOneMore(r: Record, rs: seq<Record>, rest: seq<byte>)
    requires FitsRecord(r) && ReadRecords(|rs|, rest) == Some(rs)
    ensures ReadRecords(|rs| + 1, EncodeRecord(r) + rest) == Some([r] + rs)
  {
    RecordRoundTrip(r, rest);
  }

  lemma {:induction false} RecordsRoundTrip(rs: seq<Record>)
    requires forall i :: 0 <= i < |rs| ==> FitsRecord(rs[i])
    ensures ReadRecords(|rs|, EncodeAll(rs)) == Some(rs)
  {
    if rs != [] {
      RecordsRoundTrip(rs[1..]);
      ReadOneMore(rs[0], rs[1..], EncodeAll(rs[1..]));
      assert rs == [rs[0]] + rs[1..];
    }
  }

  /** Decoding recovers exactly the sorted records: no field split is ambiguous. */
  lemma DecodeEncode(rs: seq<Record>)
    requires Fits(rs)
    ensures Decode(Encode(rs)) == Some(rs)
  {
    LittleEndian32RoundTrip(|rs|, EncodeAll(rs));
    assert Encode(rs)[4..] == EncodeAll(rs);
    RecordsRoundTrip(rs);
  }

  // ----- What equal bytes mean -----

  /** Under every (type, id) the two lists hold the same states in the same
      order, up to the order of JSON object members. */
  ghost predicate SameState(es: seq<Entity>, fs: seq<Entity>) {
    SameKeyed(Keying(es), Keying(fs))
  }

  ghost predicate SameList(s: seq<Keyed<Json>>, t: seq<Keyed<Json>>) {
    |s| == |t| && forall i :: 0 <= i < |s| ==> s[i].key == t[i].key && Same(s[i].value, t[i].value)
  }

  ghost predicate WellFormedAll(es: seq<Entity>) {
    forall i :: 0 <= i < |es| ==> WellFormed(es[i].state)
  }

  ghost predicate FitsBlock(render: Printer, es: seq<Entity>) {
    Fits(SortedRecords(render, es))
  }

  function Canonical(s: seq<Keyed<Json>>): seq<Keyed<Json>> {
    MapValues(Canonicalize, s)
  }

  ghost predicate AllWellFormed(s: seq<Keyed<Json>>) {
    forall i :: 0 <= i < |s| ==> WellFormed(s[i].value)
  }

  lemma {:induction false} WithKeyWellFormed(s: seq<Keyed<Json>>, k: Key)
    requires AllWellFormed(s)
    ensures AllWellFormed(WithKey(s, k))
  {
    if s != [] {
      WithKeyWellFormed(s[1..], k);
    }
  }

  lemma SameListIff(s: seq<Keyed<Json>>, t: seq<Keyed<Json>>)
    requires AllWellFormed(s) && AllWellFormed(t)
    ensures Canonical(s) == Canonical(t) <==> SameList(s, t)
  {
    if |s| == |t| {
      forall i | 0 <= i < |s|
        ensures Canonical(s)[i] == Canonical(t)[i] <==> s[i].key == t[i].key && Same(s[i].value, t[i].value)
      {
        CanonicalIffSame(s[i].value, t[i].value);
      }
    } else {
      assert |Canonical(s)| != |Canonical(t)|;
    }
  }

  lemma RecordInjective(render: Printer, e: Keyed<Json>, f: Keyed<Json>)
    requires Injective(render) && WellFormed(e.value) && WellFormed(f.value)
    ensures RecordOf(render, e) == RecordOf(render, f)
       <==> e.key == f.key && Canonicalize(e.value) == Canonicalize(f.value)
  {
    assert TellsApart(render, e.value, f.value);
  }

  lemma RecordsInjective(render: Printer, s: seq<Keyed<Json>>, t: seq<Keyed<Json>>)
    requires Injective(render) && AllWellFormed(s) && AllWellFormed(t)
    ensures Records(render, s) == Records(render, t) <==> Canonical(s) == Canonical(t)
  {
    if |s| == |t| {
      forall i | 0 <= i < |s|
        ensures Records(render, s)[i] == Records(render, t)[i] <==> Canonical(s)[i] == Canonical(t)[i]
      {
        RecordInjective(render, s[i], t[i]);
      }
    } else {
      assert |Records(render, s)| != |Records(render, t)|;
      assert |Canonical(s)| != |Canonical(t)|;
    }
  }

  lemma SortWellFormed(s: seq<Keyed<Json>>)
    requires AllWellFormed(s)
    ensures AllWellFormed(Sort(s))
  {
    forall i | 0 <= i < |s| ensures WellFormed(Sort(s)[i].value) {
      assert Sort(s)[i] in multiset(Sort(s));
      assert Sort(s)[i] in s;
    }
  }

  lemma KeyIff(s: seq<Keyed<Json>>, t: seq<Keyed<Json>>, k: Key)
    requires AllWellFormed(s) && AllWellFormed(t)
    ensures WithKey(Canonical(s), k) == WithKey(Canonical(t), k) <==> SameList(WithKey(s, k), WithKey(t, k))
  {
    MapWithKey(Canonicalize, s, k);
    MapWithKey(Canonicalize, t, k);
    WithKeyWellFormed(s, k);
    WithKeyWellFormed(t, k);
    SameListIff(WithKey(s, k), WithKey(t, k));
  }

  ghost predicate SameKeyed(s: seq<Keyed<Json>>, t: seq<Keyed<Json>>) {
    forall k :: SameList(WithKey(s, k), WithKey(t, k))
  }

  lemma SortedCanonicalIff(s: seq<Keyed<Json>>, t: seq<Keyed<Json>>)
    requires AllWellFormed(s) && AllWellFormed(t)
    ensures Canonical(Sort(s)) == Canonical(Sort(t)) <==> SameKeyed(s, t)
  {
    MapSort(Canonicalize, s);
    MapSort(Canonicalize, t);
    SortAlike(Canonical(s), Canonical(t));
    if SameKeyed(s, t) {
      forall k ensures WithKey(Canonical(s), k) == WithKey(Canonical(t), k) {
        KeyIff(s, t, k);
      }
      assert SameUnderKeys(Canonical(s), Canonical(t));
    } else {
      var k :| !SameList(WithKey(s, k), WithKey(t, k));
      KeyIff(s, t, k);
    }
  }

  /** Equal block bytes mean equal canonical state, and the other way round. */
  lemma BlockBytesIffSameState(render: Printer, es: seq<Entity>, fs: seq<Entity>)
    requires Injective(render)
    requires WellFormedAll(es) && WellFormedAll(fs)
    requires FitsBlock(render, es) && FitsBlock(render, fs)
    ensures BlockBytes(render, es) == BlockBytes(render, fs) <==> SameState(es, fs)
  {
    var rs, qs := SortedRecords(render, es), SortedRecords(render, fs);
    EncodeIff(rs, qs);
    var s, t := Keying(es), Keying(fs);
    SortWellFormed(s);
    SortWellFormed(t);
    RecordsInjective(render, Sort(s), Sort(t));
    SortedCanonicalIff(s, t);
  }

  lemma EncodeIff(rs: seq<Record>, qs: seq<Record>)
    requires Fits(rs) && Fits(qs)
    ensures Encode(rs) == Encode(qs) <==> rs == qs
  {
    DecodeEncode(rs);
    DecodeEncode(qs);
  }

  /** No bound is needed for the direction an honest indexer relies on. */
  lemma SameStateSameBytes(render: Printer, es: seq<Entity>, fs: seq<Entity>)
    requires WellFormedAll(es) && WellFormedAll(fs) && SameState(es, fs)
    ensures BlockBytes(render, es) == BlockBytes(render, fs)
  {
    SortedCanonicalIff(Keying(es), Keying(fs));
    var s, t := Sort(Keying(es)), Sort(Keying(fs));
    assert |Canonical(s)| == |Canonical(t)|;
    forall i | 0 <= i < |s| ensures Records(render, s)[i] == Records(render, t)[i] {
      assert Canonical(s)[i] == Canonical(t)[i];
    }
    assert Records(render, s) == Records(render, t);
  }

  ghost predicate DistinctKeys(es: seq<Entity>) {
    forall i, j :: 0 <= i < j < |es| ==>
      es[i].entityType != es[j].entityType || es[i].entityId != es[j].entityId
  }

  ghost predicate SameEntity(e: Entity, f: Entity) {
    e.entityType == f.entityType && e.entityId == f.entityId && Same(e.state, f.state)
  }

  ghost predicate EachSomewhere(es: seq<Entity>, fs: seq<Entity>) {
    forall i :: 0 <= i < |es| ==> exists j :: 0 <= j < |fs| && SameEntity(es[i], fs[j])
  }

  ghost predicate Collected(es: seq<Entity>, fs: seq<Entity>) {
    forall j :: 0 <= j < |fs| ==> exists i :: 0 <= i < |es| && SameEntity(es[i], fs[j])
  }

  lemma FromLeft(es: seq<Entity>, fs: seq<Entity>, k: Key)
    requires UniqueKeys(Keying(es)) && UniqueKeys(Keying(fs))
    requires EachSomewhere(es, fs) && WithKey(Keying(es), k) != []
    ensures SameList(WithKey(Keying(es), k), WithKey(Keying(fs), k))
  {
    var i := KeyPresent(Keying(es), k);
    var j :| 0 <= j < |fs| && SameEntity(es[i], fs[j]);
    SameSingleton(Keying(es), Keying(fs), i, j);
  }

  lemma FromRight(es: seq<Entity>, fs: seq<Entity>, k: Key)
    requires UniqueKeys(Keying(es)) && UniqueKeys(Keying(fs))
    requires Collected(es, fs) && WithKey(Keying(fs), k) != []
    ensures SameList(WithKey(Keying(es), k), WithKey(Keying(fs), k))
  {
    var j := KeyPresent(Keying(fs), k);
    var i :| 0 <= i < |es| && SameEntity(es[i], fs[j]);
    SameSingleton(Keying(es), Keying(fs), i, j);
  }

  lemma Distinct(es: seq<Entity>)
    requires DistinctKeys(es)
    ensures UniqueKeys(Keying(es))
  {
  }

  /** When no (type, id) repeats, the order the entities were collected in and
      the member order of their JSON never reach the bytes. */
  lemma CollectionOrderIsIrrelevant(render: Printer, es: seq<Entity>, fs: seq<Entity>)
    requires WellFormedAll(es) && WellFormedAll(fs)
    requires DistinctKeys(es) && DistinctKeys(fs)
    requires EachSomewhere(es, fs) && Collected(es, fs)
    ensures BlockBytes(render, es) == BlockBytes(render, fs)
  {
    Distinct(es);
    Distinct(fs);
    forall k ensures SameList(WithKey(Keying(es), k), WithKey(Keying(fs), k)) {
      if WithKey(Keying(es), k) != [] {
        FromLeft(es, fs, k);
      } else if WithKey(Keying(fs), k) != [] {
        FromRight(es, fs, k);
      }
    }
    SameStateSameBytes(render, es, fs);
  }

  lemma SameSingleton(s: seq<Keyed<Json>>, t: seq<Keyed<Json>>, i: nat, j: nat)
    requires UniqueKeys(s) && UniqueKeys(t) && i < |s| && j < |t|
    requires s[i].key == t[j].key && Same(s[i].value, t[j].value)
    ensures SameList(WithKey(s, s[i].key), WithKey(t, s[i].key))
  {
    UniqueWithKey(s, i);
    UniqueWithKey(t, j);
  }
}
