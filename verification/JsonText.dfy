/** The compact text of a JSON value (crates/kasgraph-poi/src/lib.rs:154-161), and why
    no two values share one: the printer that the block encoding relies on exists. */
module JsonText {
  import opened Prelude
  import opened StableSort
  import opened CanonicalJson
  import opened CanonicalBytes

  const COMMA: byte := 44
  const COLON: byte := 58
  const QUOTE: byte := 34
  const BACKSLASH: byte := 92
  const OPEN_ARRAY: byte := 91
  const CLOSE_ARRAY: byte := 93
  const OPEN_OBJECT: byte := 123
  const CLOSE_OBJECT: byte := 125

  function HexDigit(n: nat): byte
    requires n < 16
  {
    if n < 10 then 48 + n else 87 + n
  }

  /** Quotes, backslashes and control characters are escaped; every other byte is itself. */
  function Escape(b: byte): (r: Text)
    ensures r != [] && r[0] != QUOTE
  {
    if b == QUOTE || b == BACKSLASH then [BACKSLASH, b]
    else if b == 8 then [BACKSLASH, 98]
    else if b == 9 then [BACKSLASH, 116]
    else if b == 10 then [BACKSLASH, 110]
    else if b == 12 then [BACKSLASH, 102]
    else if b == 13 then [BACKSLASH, 114]
    else if b < 32 then [BACKSLASH, 117, 48, 48, HexDigit(b / 16), HexDigit(b % 16)]
    else [b]
  }

  /** The escaped text up to and including the closing quote. */
  function Unquoted(s: Text): Text {
    if s == [] then [QUOTE] else Escape(s[0]) + Unquoted(s[1..])
  }

  function Render(v: Json): Text
    decreases v
  {
    match v
    case Null => [110, 117, 108, 108]
    case Bool(flag) => if flag then [116, 114, 117, 101] else [102, 97, 108, 115, 101]
    case Number(digits) => digits
    case Str(text) => [QUOTE] + Unquoted(text)
    case Array(items) => [OPEN_ARRAY] + ItemsText(items)
    case Object(ms) => [OPEN_OBJECT] + MembersText(ms)
  }

  function ItemsText(xs: seq<Json>): Text
    decreases xs, 1
  {
    if xs == [] then [CLOSE_ARRAY] else Render(xs[0]) + MoreItems(xs[1..])
  }

  function MoreItems(xs: seq<Json>): Text
    decreases xs, 0
  {
    if xs == [] then [CLOSE_ARRAY] else [COMMA] + (Render(xs[0]) + MoreItems(xs[1..]))
  }

  function MemberText(m: Keyed<Json>): Text
    decreases m
  {
    [QUOTE] + (Unquoted(m.key.major) + ([COLON] + Render(m.value)))
  }

  function MembersText(ms: seq<Keyed<Json>>): Text
    decreases ms, 1
  {
    if ms == [] then [CLOSE_OBJECT] else MemberText(ms[0]) + MoreMembers(ms[1..])
  }

  function MoreMembers(ms: seq<Keyed<Json>>): Text
    decreases ms, 0
  {
    if ms == [] then [CLOSE_OBJECT] else [COMMA] + (MemberText(ms[0]) + MoreMembers(ms[1..]))
  }

  // ----- What the text means -----

  function HexValue(c: byte): int { if c <= 57 then c - 48 else c - 87 }

  /** What an escape denotes (section 7 of RFC 8259). */
  function Denotes(e: Text): int
    requires |e| == 1 || |e| == 2 || |e| == 6
  {
    if |e| == 1 then e[0]
    else if |e| == 6 then ((HexValue(e[2]) * 16 + HexValue(e[3])) * 16 + HexValue(e[4])) * 16 + HexValue(e[5])
    else match e[1] as int as char
      case 'b' => 8
      case 't' => 9
      case 'n' => 10
      case 'f' => 12
      case 'r' => 13
      case c => c as int
  }

  lemma EscapeDenotes(b: byte)
    ensures |Escape(b)| in {1, 2, 6} && Denotes(Escape(b)) == b
    ensures |Escape(b)| > 1 <==> b < 32 || b == '"' as int || b == '\\' as int
  {
    if |Escape(b)| == 6 {
      assert b == 16 * (b / 16) + b % 16;
    }
  }

  /** A string as its ASCII bytes. */
  function Ascii(s: string): (r: Text)
    ensures |r| == |s|
    ensures forall i :: 0 <= i < |s| ==> r[i] == (s[i] as int) % 256
  {
    seq(|s|, i requires 0 <= i < |s| => (s[i] as int) % 256)
  }

  lemma WordsAre()
    ensures Render(Null) == Ascii("null") && Render(Bool(true)) == Ascii("true") && Render(Bool(false)) == Ascii("false")
    ensures Render(Str([])) == Ascii("\"\"") && Render(Array([])) == Ascii("[]") && Render(Object([])) == Ascii("{}")
  {
  }

  /** Brackets, braces, commas and a colon, by their codes. */
  lemma ArrayOfTwo(v: Json, w: Json)
    ensures Render(Array([v, w])) == [91] + (Render(v) + ([44] + (Render(w) + [93])))
  {
    assert [v, w][1..] == [w] && [w][1..] == [];
    assert MoreItems([]) == [93];
    assert MoreItems([w]) == [44] + (Render(w) + [93]);
    assert ItemsText([v, w]) == Render(v) + MoreItems([w]);
  }

  lemma ObjectOfTwo(m: Keyed<Json>, n: Keyed<Json>)
    ensures Render(Object([m, n])) == [123] + (MemberText(m) + ([44] + (MemberText(n) + [125])))
    ensures MemberText(m) == [34] + (Unquoted(m.key.major) + ([58] + Render(m.value)))
  {
    assert [m, n][1..] == [n] && [n][1..] == [];
    assert MoreMembers([]) == [125];
    assert MoreMembers([n]) == [44] + (MemberText(n) + [125]);
    assert MembersText([m, n]) == MemberText(m) + MoreMembers([n]);
  }

  // ----- What can be read off the text -----

  lemma Cancel(x: Text, y: Text, z: Text)
    requires x + y == x + z
    ensures y == z
  {
    assert y == (x + y)[|x|..] && z == (x + z)[|x|..];
  }

  lemma HexDigitsBack(b: byte, c: byte)
    requires b < 32 && c < 32
    requires HexDigit(b / 16) == HexDigit(c / 16) && HexDigit(b % 16) == HexDigit(c % 16)
    ensures b == c
  {
    assert b == 16 * (b / 16) + b % 16 && c == 16 * (c / 16) + c % 16;
  }

  /** One escape is never the start of another. */
  lemma EscapeInjective(b: byte, c: byte, x: Text, y: Text)
    requires Escape(b) + x == Escape(c) + y
    ensures b == c && x == y
  {
    var e, f := Escape(b), Escape(c);
    assert (e + x)[0] == e[0] && (f + y)[0] == f[0];
    if |e| > 1 {
      assert (e + x)[1] == e[1] && (f + y)[1] == f[1];
      if |e| == 6 {
        assert (e + x)[4] == e[4] && (f + y)[4] == f[4];
        assert (e + x)[5] == e[5] && (f + y)[5] == f[5];
        HexDigitsBack(b, c);
      }
    }
    Cancel(e, x, y);
  }

  lemma {:induction false} UnquotedInjective(s: Text, t: Text, x: Text, y: Text)
    requires Unquoted(s) + x == Unquoted(t) + y
    ensures s == t && x == y
  {
    assert (Unquoted(s) + x)[0] == Unquoted(s)[0] && (Unquoted(t) + y)[0] == Unquoted(t)[0];
    if s == [] || t == [] {
      Cancel([QUOTE], x, y);
    } else {
      Assoc(Escape(s[0]), Unquoted(s[1..]), x);
      Assoc(Escape(t[0]), Unquoted(t[1..]), y);
      EscapeInjective(s[0], t[0], Unquoted(s[1..]) + x, Unquoted(t[1..]) + y);
      UnquotedInjective(s[1..], t[1..], x, y);
      assert s == [s[0]] + s[1..] && t == [t[0]] + t[1..];
    }
  }

  /** What may follow a value inside an array or object, or at the end. */
  predicate Ends(x: Text) {
    x == [] || x[0] in {COMMA, CLOSE_ARRAY, CLOSE_OBJECT}
  }

  lemma ReadsOn(t: Text, u: Text, x: Text, y: Text)
    requires t + x == u + y && |t| < |u|
    ensures x != [] && x[0] in u
  {
    assert (u + y)[|t|] == u[|t|];
    assert |x| == |u| + |y| - |t| && (t + x)[|t|] == x[0];
  }

  lemma NotShorter(t: Text, u: Text, x: Text, y: Text)
    requires NumberText(t) && NumberText(u) && Ends(x) && t + x == u + y
    ensures |u| <= |t|
  {
    if |t| < |u| {
      ReadsOn(t, u, x, y);
    }
  }

  lemma NumberInjective(t: Text, u: Text, x: Text, y: Text)
    requires NumberText(t) && NumberText(u) && Ends(x) && Ends(y) && t + x == u + y
    ensures t == u && x == y
  {
    NotShorter(t, u, x, y);
    NotShorter(u, t, y, x);
    assert t == (t + x)[..|t|] && u == (u + y)[..|u|];
    Cancel(t, x, y);
  }

  datatype Kind = NullKind | TrueKind | FalseKind | NumberKind | StrKind | ArrayKind | ObjectKind | NoKind

  function KindOf(v: Json): Kind {
    match v
    case Null => NullKind
    case Bool(flag) => if flag then TrueKind else FalseKind
    case Number(_) => NumberKind
    case Str(_) => StrKind
    case Array(_) => ArrayKind
    case Object(_) => ObjectKind
  }

  function KindRead(c: byte): Kind {
    if c == 110 then NullKind
    else if c == 116 then TrueKind
    else if c == 102 then FalseKind
    else if c == QUOTE then StrKind
    else if c == OPEN_ARRAY then ArrayKind
    else if c == OPEN_OBJECT then ObjectKind
    else if c == 45 || c in DIGIT then NumberKind
    else NoKind
  }

  /** The first byte tells what kind of value follows. */
  lemma FirstByte(v: Json, x: Text)
    requires WellFormed(v)
    ensures Render(v) != [] && KindRead((Render(v) + x)[0]) == KindOf(v)
  {
  }

  // ----- No text is that of two values -----

  lemma {:induction false} RenderInjective(v: Json, w: Json, x: Text, y: Text)
    requires WellFormed(v) && WellFormed(w) && Ends(x) && Ends(y)
    requires Render(v) + x == Render(w) + y
    ensures v == w && x == y
    decreases v
  {
    FirstByte(v, x);
    FirstByte(w, y);
    match v
    case Number(digits) => NumberInjective(digits, w.digits, x, y);
    case Str(text) =>
      AfterHead(QUOTE, Unquoted(text), Unquoted(w.text), x, y);
      UnquotedInjective(text, w.text, x, y);
    case Array(items) =>
      AfterHead(OPEN_ARRAY, ItemsText(items), ItemsText(w.items), x, y);
      ItemsInjective(items, w.items, x, y);
    case Object(ms) =>
      AfterHead(OPEN_OBJECT, MembersText(ms), MembersText(w.members), x, y);
      MembersInjective(ms, w.members, x, y);
    case _ => Cancel(Render(v), x, y);
  }

  lemma AfterHead(c: byte, s: Text, t: Text, x: Text, y: Text)
    requires [c] + s + x == [c] + t + y
    ensures s + x == t + y
  {
    Assoc([c], s, x);
    Assoc([c], t, y);
    Cancel([c], s + x, t + y);
  }

  ghost predicate ItemsWellFormed(xs: seq<Json>) {
    forall i :: 0 <= i < |xs| ==> WellFormed(xs[i])
  }

  ghost predicate MembersWellFormed(ms: seq<Keyed<Json>>) {
    forall i :: 0 <= i < |ms| ==> WellFormedMember(ms[i])
  }

  lemma {:induction false} ItemsInjective(xs: seq<Json>, ys: seq<Json>, x: Text, y: Text)
    requires ItemsWellFormed(xs) && ItemsWellFormed(ys) && ItemsText(xs) + x == ItemsText(ys) + y
    ensures xs == ys && x == y
    decreases xs, 1
  {
    if xs != [] {
      Assoc(Render(xs[0]), MoreItems(xs[1..]), x);
      FirstByte(xs[0], MoreItems(xs[1..]) + x);
    }
    if ys != [] {
      Assoc(Render(ys[0]), MoreItems(ys[1..]), y);
      FirstByte(ys[0], MoreItems(ys[1..]) + y);
    }
    if xs == [] || ys == [] {
      Cancel([CLOSE_ARRAY], x, y);
    } else {
      ItemThenMore(xs, ys, x, y);
    }
  }

  lemma {:induction false} ItemThenMore(xs: seq<Json>, ys: seq<Json>, x: Text, y: Text)
    requires xs != [] && ys != [] && ItemsWellFormed(xs) && ItemsWellFormed(ys)
    requires Render(xs[0]) + (MoreItems(xs[1..]) + x) == Render(ys[0]) + (MoreItems(ys[1..]) + y)
    ensures xs == ys && x == y
    decreases xs, 0
  {
    RenderInjective(xs[0], ys[0], MoreItems(xs[1..]) + x, MoreItems(ys[1..]) + y);
    MoreItemsInjective(xs[1..], ys[1..], x, y);
    assert xs == [xs[0]] + xs[1..] && ys == [ys[0]] + ys[1..];
  }

  lemma {:induction false} MoreItemsInjective(xs: seq<Json>, ys: seq<Json>, x: Text, y: Text)
    requires ItemsWellFormed(xs) && ItemsWellFormed(ys) && MoreItems(xs) + x == MoreItems(ys) + y
    ensures xs == ys && x == y
    decreases xs, 1
  {
    assert (MoreItems(xs) + x)[0] == MoreItems(xs)[0] && (MoreItems(ys) + y)[0] == MoreItems(ys)[0];
    if xs == [] || ys == [] {
      Cancel([CLOSE_ARRAY], x, y);
    } else {
      var s, t := Render(xs[0]) + MoreItems(xs[1..]), Render(ys[0]) + MoreItems(ys[1..]);
      AfterHead(COMMA, s, t, x, y);
      Assoc(Render(xs[0]), MoreItems(xs[1..]), x);
      Assoc(Render(ys[0]), MoreItems(ys[1..]), y);
      ItemThenMore(xs, ys, x, y);
    }
  }

  lemma {:induction false} MemberInjective(m: Keyed<Json>, n: Keyed<Json>, x: Text, y: Text)
    requires WellFormedMember(m) && WellFormedMember(n) && Ends(x) && Ends(y)
    requires MemberText(m) + x == MemberText(n) + y
    ensures m == n && x == y
    decreases m
  {
    var s, t := [COLON] + Render(m.value), [COLON] + Render(n.value);
    AfterHead(QUOTE, Unquoted(m.key.major) + s, Unquoted(n.key.major) + t, x, y);
    Assoc(Unquoted(m.key.major), s, x);
    Assoc(Unquoted(n.key.major), t, y);
    UnquotedInjective(m.key.major, n.key.major, s + x, t + y);
    AfterHead(COLON, Render(m.value), Render(n.value), x, y);
    RenderInjective(m.value, n.value, x, y);
  }

  lemma {:induction false} MembersInjective(ms: seq<Keyed<Json>>, ns: seq<Keyed<Json>>, x: Text, y: Text)
    requires MembersWellFormed(ms) && MembersWellFormed(ns) && MembersText(ms) + x == MembersText(ns) + y
    ensures ms == ns && x == y
    decreases ms, 1
  {
    assert (MembersText(ms) + x)[0] == MembersText(ms)[0] && (MembersText(ns) + y)[0] == MembersText(ns)[0];
    if ms == [] || ns == [] {
      Cancel([CLOSE_OBJECT], x, y);
    } else {
      Assoc(MemberText(ms[0]), MoreMembers(ms[1..]), x);
      Assoc(MemberText(ns[0]), MoreMembers(ns[1..]), y);
      MemberThenMore(ms, ns, x, y);
    }
  }

  lemma {:induction false} MemberThenMore(ms: seq<Keyed<Json>>, ns: seq<Keyed<Json>>, x: Text, y: Text)
    requires ms != [] && ns != [] && MembersWellFormed(ms) && MembersWellFormed(ns)
    requires MemberText(ms[0]) + (MoreMembers(ms[1..]) + x) == MemberText(ns[0]) + (MoreMembers(ns[1..]) + y)
    ensures ms == ns && x == y
    decreases ms, 0
  {
    MemberInjective(ms[0], ns[0], MoreMembers(ms[1..]) + x, MoreMembers(ns[1..]) + y);
    MoreMembersInjective(ms[1..], ns[1..], x, y);
    assert ms == [ms[0]] + ms[1..] && ns == [ns[0]] + ns[1..];
  }

  lemma {:induction false} MoreMembersInjective(ms: seq<Keyed<Json>>, ns: seq<Keyed<Json>>, x: Text, y: Text)
    requires MembersWellFormed(ms) && MembersWellFormed(ns) && MoreMembers(ms) + x == MoreMembers(ns) + y
    ensures ms == ns && x == y
    decreases ms, 1
  {
    assert (MoreMembers(ms) + x)[0] == MoreMembers(ms)[0] && (MoreMembers(ns) + y)[0] == MoreMembers(ns)[0];
    if ms == [] || ns == [] {
      Cancel([CLOSE_OBJECT], x, y);
    } else {
      var s, t := MemberText(ms[0]) + MoreMembers(ms[1..]), MemberText(ns[0]) + MoreMembers(ns[1..]);
      AfterHead(COMMA, s, t, x, y);
      Assoc(MemberText(ms[0]), MoreMembers(ms[1..]), x);
      Assoc(MemberText(ns[0]), MoreMembers(ns[1..]), y);
      MemberThenMore(ms, ns, x, y);
    }
  }

  /** The compact text is one that the block encoding can rely on. */
  lemma RenderTellsApart()
    ensures Injective(Render)
  {
    forall v, w | WellFormed(v) && WellFormed(w) ensures TellsApart(Render, v, w) {
      CanonicalIsSame(v);
      CanonicalIsSame(w);
      if Render(Canonicalize(v)) == Render(Canonicalize(w)) {
        assert Render(Canonicalize(v)) + [] == Render(Canonicalize(w)) + [];
        RenderInjective(Canonicalize(v), Canonicalize(w), [], []);
      }
    }
  }

  /** So with it, and no assumption on the printer, the bytes a block hashes
      determine its entity state and are determined by it. */
  lemma BytesBindState(es: seq<Entity>, fs: seq<Entity>)
    requires WellFormedAll(es) && WellFormedAll(fs)
    requires FitsBlock(Render, es) && FitsBlock(Render, fs)
    ensures BlockBytes(Render, es) == BlockBytes(Render, fs) <==> SameState(es, fs)
  {
    RenderTellsApart();
    BlockBytesIffSameState(Render, es, fs);
  }
}
