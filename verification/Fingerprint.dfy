/** Compiled-script fingerprints (crates/kasgraph-detectors/src/fingerprint.rs):
    masked matching, extraction of the masked fields, and derivation of an anchored
    fingerprint from several compiles of one pattern. */
module Fingerprint {
  import opened Prelude

  datatype MaskedWindow = MaskedWindow(field: string, offset: nat, len: nat)

  /** `Exact` fixes the whole script; `Anchored` a head and a tail with anything between. */
  datatype Pattern =
    | Exact(bytes: seq<byte>, windows: seq<MaskedWindow>)
    | Anchored(head: seq<byte>, headWindows: seq<MaskedWindow>, tail: seq<byte>)
  {
    /** The part the windows index into. */
    function Front(): seq<byte> {
      if Exact? then bytes else head
    }

    function Windows(): seq<MaskedWindow> {
      if Exact? then windows else headWindows
    }

    function Tail(): seq<byte> {
      if Exact? then [] else tail
    }
  }

  datatype FingerprintError =
    | WindowOutOfBounds(field: string, offset: nat, len: nat, scriptLen: nat)
    | WindowsOverlap(a: string, b: string)
    | TooFewSamples(count: nat)
    | AnchorsOverlap(headLen: nat, tailLen: nat, minLen: nat)

  type Fields = map<string, seq<byte>>

  // ----- Specification -----

  predicate Covers(w: MaskedWindow, i: int) {
    w.offset <= i < w.offset + w.len
  }

  predicate InMask(ws: seq<MaskedWindow>, i: int) {
    exists k :: 0 <= k < |ws| && Covers(ws[k], i)
  }

  /** The script's leading bytes are the pattern's, wherever no window covers them. */
  ghost predicate FrontFits(front: seq<byte>, ws: seq<MaskedWindow>, script: seq<byte>) {
    |front| <= |script| && forall i :: 0 <= i < |front| && !InMask(ws, i) ==> script[i] == front[i]
  }

  ghost predicate Matches(p: Pattern, script: seq<byte>) {
    && FrontFits(p.Front(), p.Windows(), script)
    && (p.Exact? ==> |script| == |p.bytes|)
    && |p.Front()| + |p.Tail()| <= |script|
    && script[|script| - |p.Tail()|..] == p.Tail()
  }

  ghost predicate InBounds(ws: seq<MaskedWindow>, limit: nat) {
    forall k :: 0 <= k < |ws| ==> ws[k].offset + ws[k].len <= limit
  }

  predicate Clear(a: MaskedWindow, b: MaskedWindow) {
    a.offset + a.len <= b.offset || b.offset + b.len <= a.offset
  }

  ghost predicate Disjoint(ws: seq<MaskedWindow>) {
    forall j, k :: 0 <= j < k < |ws| ==> Clear(ws[j], ws[k])
  }

  ghost predicate ValidWindows(ws: seq<MaskedWindow>, limit: nat) {
    InBounds(ws, limit) && Disjoint(ws)
  }

  ghost predicate DistinctFields(ws: seq<MaskedWindow>) {
    forall j, k :: 0 <= j < k < |ws| ==> ws[j].field != ws[k].field
  }

  /** The windows' bytes by field name; of windows that share a name the last wins. */
  function Extract(ws: seq<MaskedWindow>, script: seq<byte>): Fields
    requires InBounds(ws, |script|)
  {
    if ws == [] then map[]
    else
      var w := ws[|ws| - 1];
      Extract(ws[..|ws| - 1], script)[w.field := script[w.offset..w.offset + w.len]]
  }

  // ----- The source's loops -----

  method MaskContains(ws: seq<MaskedWindow>, i: nat) returns (masked: bool)
    ensures masked == InMask(ws, i)
  {
    masked := false;
    for k := 0 to |ws|
      invariant !masked && forall j :: 0 <= j < k ==> !Covers(ws[j], i)
    {
      if Covers(ws[k], i) {
        return true;
      }
    }
  }

  method FrontMatches(front: seq<byte>, ws: seq<MaskedWindow>, script: seq<byte>) returns (r: bool)
    requires |front| <= |script|
    ensures r == FrontFits(front, ws, script)
  {
    for i := 0 to |front|
      invariant forall j :: 0 <= j < i && !InMask(ws, j) ==> script[j] == front[j]
    {
      var masked := MaskContains(ws, i);
      if masked {
        continue;
      }
      if script[i] != front[i] {
        return false;
      }
    }
    return true;
  }

  method MatchesScript(p: Pattern, script: seq<byte>) returns (r: bool)
    ensures r == Matches(p, script)
  {
    match p
    case Exact(bytes, ws) =>
      if |script| != |bytes| {
        return false;
      }
      r := FrontMatches(bytes, ws, script);
    case Anchored(head, ws, tail) =>
      if |script| < |head| + |tail| {
        return false;
      }
      r := FrontMatches(head, ws, script);
      if !r {
        return;
      }
      var start := |script| - |tail|;
      for j := 0 to |tail|
        invariant forall x :: 0 <= x < j ==> script[start..][x] == tail[x]
      {
        if script[start + j] != tail[j] {
          assert script[start..][j] != tail[j];
          return false;
        }
      }
  }

  lemma ExtractSnoc(ws: seq<MaskedWindow>, w: MaskedWindow, script: seq<byte>)
    requires InBounds(ws, |script|) && w.offset + w.len <= |script|
    ensures InBounds(ws + [w], |script|)
    ensures Extract(ws + [w], script) == Extract(ws, script)[w.field := script[w.offset..w.offset + w.len]]
  {
    assert (ws + [w])[..|ws|] == ws;
  }

  /** Never indexes out of the script when the windows are valid for the pattern. */
  method MatchAndExtract(p: Pattern, script: seq<byte>) returns (r: Option<Fields>)
    requires InBounds(p.Windows(), |p.Front()|)
    ensures r.Some? <==> Matches(p, script)
    ensures r.Some? ==> InBounds(p.Windows(), |script|) && r.value == Extract(p.Windows(), script)
  {
    var ok := MatchesScript(p, script);
    if !ok {
      return None;
    }
    var ws, out := p.Windows(), map[];
    for k := 0 to |ws|
      invariant InBounds(ws[..k], |script|) && out == Extract(ws[..k], script)
    {
      ghost var before := ws[..k];
      assert ws[..k + 1] == before + [ws[k]];
      ExtractSnoc(before, ws[k], script);
      out := out[ws[k].field := script[ws[k].offset..ws[k].offset + ws[k].len]];
    }
    assert ws[..|ws|] == ws;
    return Some(out);
  }

  /** The reported window or pair is one that is at fault. */
  ghost predicate Faulty(ws: seq<MaskedWindow>, limit: nat, e: FingerprintError) {
    match e
    case WindowOutOfBounds(field, offset, len, scriptLen) =>
      scriptLen == limit && MaskedWindow(field, offset, len) in ws && limit < offset + len
    case WindowsOverlap(a, b) =>
      InBounds(ws, limit)
      && exists j, k :: 0 <= j < k < |ws| && ws[j].field == a && ws[k].field == b && !Clear(ws[j], ws[k])
    case _ => false
  }

  method ValidateBounds(ws: seq<MaskedWindow>, limit: nat) returns (r: Result<(), FingerprintError>)
    ensures r.Ok? <==> InBounds(ws, limit)
    ensures r.Err? ==> Faulty(ws, limit, r.error) && r.error.WindowOutOfBounds?
  {
    for k := 0 to |ws|
      invariant forall j :: 0 <= j < k ==> ws[j].offset + ws[j].len <= limit
    {
      if ws[k].offset + ws[k].len > limit {
        return Err(WindowOutOfBounds(ws[k].field, ws[k].offset, ws[k].len, limit));
      }
    }
    return Ok(());
  }

  method Validate(ws: seq<MaskedWindow>, limit: nat) returns (r: Result<(), FingerprintError>)
    ensures r.Ok? <==> ValidWindows(ws, limit)
    ensures r.Err? ==> Faulty(ws, limit, r.error)
  {
    r := ValidateBounds(ws, limit);
    if r.Err? {
      return;
    }
    for i := 0 to |ws|
      invariant forall j, k :: 0 <= j < i && j < k < |ws| ==> Clear(ws[j], ws[k])
    {
      for n := i + 1 to |ws|
        invariant forall k :: i < k < n ==> Clear(ws[i], ws[k])
      {
        if ws[i].offset < ws[n].offset + ws[n].len && ws[n].offset < ws[i].offset + ws[i].len {
          return Err(WindowsOverlap(ws[i].field, ws[n].field));
        }
      }
    }
    return Ok(());
  }

  // ----- Extraction loses nothing -----

  /** A value of the window's size for every field ... */
  ghost predicate Sized(ws: seq<MaskedWindow>, fields: Fields) {
    forall k :: 0 <= k < |ws| ==> ws[k].field in fields && |fields[ws[k].field]| == ws[k].len
  }

  /** ... and for nothing else. */
  ghost predicate OnlyFields(ws: seq<MaskedWindow>, fields: Fields) {
    forall f :: f in fields ==> HasField(ws, f)
  }

  ghost predicate HasField(ws: seq<MaskedWindow>, f: string) {
    exists k :: 0 <= k < |ws| && ws[k].field == f
  }

  function Written(s: seq<byte>, offset: nat, value: seq<byte>): (r: seq<byte>)
    requires offset + |value| <= |s|
    ensures |r| == |s|
  {
    s[..offset] + value + s[offset + |value|..]
  }

  /** The pattern's front with each field's value written into its window. */
  ghost function Splice(ws: seq<MaskedWindow>, front: seq<byte>, fields: Fields): (r: seq<byte>)
    requires InBounds(ws, |front|) && Sized(ws, fields)
    ensures |r| == |front|
  {
    if ws == [] then front
    else
      var w := ws[|ws| - 1];
      Written(Splice(ws[..|ws| - 1], front, fields), w.offset, fields[w.field])
  }

  lemma {:induction false} SpliceOutside(ws: seq<MaskedWindow>, front: seq<byte>, fields: Fields, i: nat)
    requires InBounds(ws, |front|) && Sized(ws, fields) && i < |front|
    requires forall k :: 0 <= k < |ws| ==> !Covers(ws[k], i)
    ensures Splice(ws, front, fields)[i] == front[i]
    decreases |ws|
  {
    if ws != [] {
      assert !Covers(ws[|ws| - 1], i);
      SpliceOutside(ws[..|ws| - 1], front, fields, i);
    }
  }

  lemma WrittenAt(s: seq<byte>, offset: nat, value: seq<byte>, i: nat)
    requires offset + |value| <= |s| && i < |s|
    ensures Written(s, offset, value)[i] == if offset <= i < offset + |value| then value[i - offset] else s[i]
  {
  }

  lemma {:induction false} SpliceInside(ws: seq<MaskedWindow>, front: seq<byte>, fields: Fields, i: nat, k: nat)
    requires ValidWindows(ws, |front|) && Sized(ws, fields) && i < |front|
    requires k < |ws| && Covers(ws[k], i)
    ensures Splice(ws, front, fields)[i] == fields[ws[k].field][i - ws[k].offset]
    decreases |ws|
  {
    var n := |ws| - 1;
    WrittenAt(Splice(ws[..n], front, fields), ws[n].offset, fields[ws[n].field], i);
    if k < n {
      assert Clear(ws[k], ws[n]);
      SpliceInside(ws[..n], front, fields, i, k);
    }
  }

  lemma {:induction false} ExtractHolds(ws: seq<MaskedWindow>, script: seq<byte>, k: nat)
    requires InBounds(ws, |script|) && DistinctFields(ws) && k < |ws|
    ensures ws[k].field in Extract(ws, script)
    ensures Extract(ws, script)[ws[k].field] == script[ws[k].offset..ws[k].offset + ws[k].len]
    decreases |ws|
  {
    var n := |ws| - 1;
    if k < n {
      assert ws[k].field != ws[n].field;
      ExtractHolds(ws[..n], script, k);
    }
  }

  lemma {:induction false} ExtractOnly(ws: seq<MaskedWindow>, script: seq<byte>)
    requires InBounds(ws, |script|)
    ensures OnlyFields(ws, Extract(ws, script))
    decreases |ws|
  {
    if ws != [] {
      var n := |ws| - 1;
      ExtractOnly(ws[..n], script);
      forall f | f in Extract(ws, script) ensures HasField(ws, f) {
        if f == ws[n].field {
        } else {
          assert HasField(ws[..n], f);
          var k :| 0 <= k < n && ws[..n][k].field == f;
          assert ws[k].field == f;
        }
      }
    }
  }

  /** Extraction yields a full set of fields of the right sizes. */
  lemma ExtractFits(ws: seq<MaskedWindow>, script: seq<byte>)
    requires InBounds(ws, |script|) && DistinctFields(ws)
    ensures Sized(ws, Extract(ws, script)) && OnlyFields(ws, Extract(ws, script))
  {
    ExtractOnly(ws, script);
    forall k | 0 <= k < |ws|
      ensures ws[k].field in Extract(ws, script) && |Extract(ws, script)[ws[k].field]| == ws[k].len
    {
      ExtractHolds(ws, script, k);
    }
  }

  /** What a script has between a pattern's front and its tail. */
  function Middle(p: Pattern, script: seq<byte>): seq<byte>
    requires |p.Front()| + |p.Tail()| <= |script|
  {
    script[|p.Front()|..|script| - |p.Tail()|]
  }

  lemma ByteRebuilt(front: seq<byte>, ws: seq<MaskedWindow>, script: seq<byte>, fields: Fields, i: nat)
    requires ValidWindows(ws, |front|) && DistinctFields(ws) && FrontFits(front, ws, script)
    requires Sized(ws, fields) && fields == Extract(ws, script) && i < |front|
    ensures Splice(ws, front, fields)[i] == script[i]
  {
    if InMask(ws, i) {
      var k :| 0 <= k < |ws| && Covers(ws[k], i);
      SpliceInside(ws, front, fields, i, k);
      ExtractHolds(ws, script, k);
    } else {
      SpliceOutside(ws, front, fields, i);
    }
  }

  lemma FrontRebuilt(front: seq<byte>, ws: seq<MaskedWindow>, script: seq<byte>, fields: Fields)
    requires ValidWindows(ws, |front|) && DistinctFields(ws) && FrontFits(front, ws, script)
    requires Sized(ws, fields) && fields == Extract(ws, script)
    ensures Splice(ws, front, fields) == script[..|front|]
  {
    forall i | 0 <= i < |front| ensures Splice(ws, front, fields)[i] == script[i] {
      ByteRebuilt(front, ws, script, fields, i);
    }
  }

  /** A matching script is rebuilt from its extracted fields, its middle and the pattern. */
  lemma ExtractionIsLossless(p: Pattern, script: seq<byte>)
    requires ValidWindows(p.Windows(), |p.Front()|) && DistinctFields(p.Windows()) && Matches(p, script)
    ensures Sized(p.Windows(), Extract(p.Windows(), script))
    ensures Splice(p.Windows(), p.Front(), Extract(p.Windows(), script)) + Middle(p, script) + p.Tail() == script
  {
    ExtractFits(p.Windows(), script);
    FrontRebuilt(p.Front(), p.Windows(), script, Extract(p.Windows(), script));
    Thirds(script, |p.Front()|, |p.Tail()|);
  }

  lemma Thirds(s: seq<byte>, m: nat, n: nat)
    requires m + n <= |s|
    ensures s[..m] + s[m..|s| - n] + s[|s| - n..] == s
  {
  }

  lemma SplicedFits(front: seq<byte>, ws: seq<MaskedWindow>, fields: Fields, rest: seq<byte>)
    requires ValidWindows(ws, |front|) && Sized(ws, fields)
    ensures FrontFits(front, ws, Splice(ws, front, fields) + rest)
  {
    forall i | 0 <= i < |front| && !InMask(ws, i) ensures Splice(ws, front, fields)[i] == front[i] {
      SpliceOutside(ws, front, fields, i);
    }
  }

  lemma SplicedWindow(front: seq<byte>, ws: seq<MaskedWindow>, fields: Fields, k: nat, r: seq<byte>)
    requires ValidWindows(ws, |front|) && Sized(ws, fields) && k < |ws| && r == Splice(ws, front, fields)
    ensures r[ws[k].offset..ws[k].offset + ws[k].len] == fields[ws[k].field]
  {
    var w := ws[k];
    var slice, value := r[w.offset..w.offset + w.len], fields[w.field];
    forall j | 0 <= j < w.len ensures slice[j] == value[j] {
      SpliceInside(ws, front, fields, w.offset + j, k);
    }
    assert |slice| == |value|;
  }

  /** Every choice of field values and middle gives a script that matches, from which
      exactly those values are extracted. With the lemma above: a bijection between
      matching scripts and such choices, so no extraction depends on the middle. */
  lemma SplicingMatches(p: Pattern, fields: Fields, middle: seq<byte>, script: seq<byte>)
    requires ValidWindows(p.Windows(), |p.Front()|) && DistinctFields(p.Windows())
    requires Sized(p.Windows(), fields) && OnlyFields(p.Windows(), fields) && (p.Exact? ==> middle == [])
    requires script == Splice(p.Windows(), p.Front(), fields) + middle + p.Tail()
    ensures Matches(p, script) && Middle(p, script) == middle
    ensures Extract(p.Windows(), script) == fields
  {
    var ws, front := p.Windows(), p.Front();
    var spliced := Splice(ws, front, fields);
    assert script == spliced + (middle + p.Tail());
    SplicedFits(front, ws, fields, middle + p.Tail());
    SameFields(ws, front, script, fields);
  }

  lemma SameFields(ws: seq<MaskedWindow>, front: seq<byte>, script: seq<byte>, fields: Fields)
    requires ValidWindows(ws, |front|) && DistinctFields(ws) && Sized(ws, fields) && OnlyFields(ws, fields)
    requires Splice(ws, front, fields) <= script
    ensures Extract(ws, script) == fields
  {
    var out := Extract(ws, script);
    ExtractOnly(ws, script);
    forall k | 0 <= k < |ws| ensures ws[k].field in out && out[ws[k].field] == fields[ws[k].field] {
      ExtractHolds(ws, script, k);
      SplicedWindow(front, ws, fields, k, Splice(ws, front, fields));
      PrefixSlice(Splice(ws, front, fields), script, ws[k].offset, ws[k].offset + ws[k].len);
    }
    forall f ensures f in out <==> f in fields {
      if HasField(ws, f) {
        var k :| 0 <= k < |ws| && ws[k].field == f;
      }
    }
    forall f | f in out ensures out[f] == fields[f] {
      assert HasField(ws, f);
      var k :| 0 <= k < |ws| && ws[k].field == f;
    }
  }

  lemma PrefixSlice(s: seq<byte>, t: seq<byte>, lo: nat, hi: nat)
    requires s <= t && lo <= hi <= |s|
    ensures s[lo..hi] == t[lo..hi]
  {
  }

  // ----- Deriving an anchored fingerprint -----

  ghost predicate CommonPrefix(scripts: seq<seq<byte>>, n: nat)
    requires scripts != []
  {
    forall k :: 0 <= k < |scripts| ==> n <= |scripts[k]| && n <= |scripts[0]| && scripts[k][..n] == scripts[0][..n]
  }

  ghost predicate CommonSuffix(scripts: seq<seq<byte>>, n: nat)
    requires scripts != []
  {
    forall k :: 0 <= k < |scripts| ==>
      n <= |scripts[k]| && n <= |scripts[0]| && Last(scripts[k], n) == Last(scripts[0], n)
  }

  function Last(s: seq<byte>, n: nat): seq<byte>
    requires n <= |s|
  {
    s[|s| - n..]
  }

  /** Not just common: no longer prefix is. */
  ghost predicate LongestPrefix(scripts: seq<seq<byte>>, n: nat)
    requires scripts != []
  {
    CommonPrefix(scripts, n) && forall m :: n < m ==> !CommonPrefix(scripts, m)
  }

  ghost predicate LongestSuffix(scripts: seq<seq<byte>>, n: nat)
    requires scripts != []
  {
    CommonSuffix(scripts, n) && forall m :: n < m ==> !CommonSuffix(scripts, m)
  }

  ghost predicate Shortest(scripts: seq<seq<byte>>, n: nat)
    requires scripts != []
  {
    && (exists k :: 0 <= k < |scripts| && |scripts[k]| == n)
    && forall k :: 0 <= k < |scripts| ==> n <= |scripts[k]|
  }

  lemma PrefixStep(a: seq<byte>, b: seq<byte>, i: nat)
    requires i < |a| && i < |b| && a[..i] == b[..i] && a[i] == b[i]
    ensures a[..i + 1] == b[..i + 1]
  {
  }

  lemma SuffixStep(a: seq<byte>, b: seq<byte>, i: nat)
    requires i < |a| && i < |b| && Last(a, i) == Last(b, i) && a[|a| - 1 - i] == b[|b| - 1 - i]
    ensures Last(a, i + 1) == Last(b, i + 1)
  {
    assert Last(a, i + 1) == [a[|a| - 1 - i]] + Last(a, i);
    assert Last(b, i + 1) == [b[|b| - 1 - i]] + Last(b, i);
  }

  lemma OnePrefix(scripts: seq<seq<byte>>)
    requires scripts != []
    ensures LongestPrefix(scripts[..1], |scripts[0]|)
  {
    var one := scripts[..1];
    assert one[0] == scripts[0];
  }

  /** How many leading bytes two scripts share, up to `limit`. */
  method SharedHead(first: seq<byte>, s: seq<byte>, limit: nat) returns (i: nat)
    requires limit <= |first| && limit <= |s|
    ensures i <= limit && first[..i] == s[..i]
    ensures i < limit ==> first[i] != s[i]
  {
    i := 0;
    while i < limit && first[i] == s[i]
      invariant 0 <= i <= limit
      invariant first[..i] == s[..i]
    {
      PrefixStep(first, s, i);
      i := i + 1;
    }
  }

  /** The longest prefix of the first script still shared, cut down by one script at a time. */
  method CommonPrefixLen(scripts: seq<seq<byte>>) returns (n: nat)
    requires scripts != []
    ensures LongestPrefix(scripts, n)
  {
    n := |scripts[0]|;
    OnePrefix(scripts);
    var k := 1;
    while k < |scripts|
      invariant 1 <= k <= |scripts|
      invariant n <= |scripts[0]|
      invariant LongestPrefix(scripts[..k], n)
    {
      var limit := if n < |scripts[k]| then n else |scripts[k]|;
      var i := SharedHead(scripts[0], scripts[k], limit);
      PrefixNext(scripts, k, n, i);
      n := i;
      k := k + 1;
    }
    assert scripts[..k] == scripts;
  }

  lemma PrefixNext(scripts: seq<seq<byte>>, k: nat, n: nat, i: nat)
    requires 0 < k < |scripts| && n <= |scripts[0]| && LongestPrefix(scripts[..k], n)
    requires i <= n && i <= |scripts[k]| && scripts[0][..i] == scripts[k][..i]
    requires i < n && i < |scripts[k]| ==> scripts[0][i] != scripts[k][i]
    ensures LongestPrefix(scripts[..k + 1], i)
  {
    PrefixCutDown(scripts[..k], scripts[k], n, i);
    assert scripts[..k + 1] == scripts[..k] + [scripts[k]];
  }

  lemma ShorterPrefix(a: seq<byte>, b: seq<byte>, m: nat, i: nat)
    requires i <= m <= |a| && m <= |b| && a[..m] == b[..m]
    ensures a[..i] == b[..i] && (i < m ==> a[i] == b[i])
  {
    assert a[..m][..i] == a[..i] && b[..m][..i] == b[..i];
    assert i < m ==> a[i] == a[..m][i] && b[i] == b[..m][i];
  }

  lemma PrefixOfFewer(scripts: seq<seq<byte>>, s: seq<byte>, m: nat)
    requires scripts != [] && CommonPrefix(scripts + [s], m)
    ensures CommonPrefix(scripts, m) && m <= |s| && m <= |scripts[0]| && s[..m] == scripts[0][..m]
  {
    var all := scripts + [s];
    assert all[|scripts|] == s;
    assert forall k :: 0 <= k < |scripts| ==> all[k] == scripts[k];
  }

  lemma PrefixCutDown(scripts: seq<seq<byte>>, s: seq<byte>, n: nat, i: nat)
    requires scripts != [] && LongestPrefix(scripts, n) && i <= n && i <= |s|
    requires scripts[0][..i] == s[..i] && (i < n && i < |s| ==> scripts[0][i] != s[i])
    ensures LongestPrefix(scripts + [s], i)
  {
    var all := scripts + [s];
    forall k | 0 <= k < |all| ensures i <= |all[k]| && all[k][..i] == all[0][..i] {
      if k < |scripts| {
        ShorterPrefix(scripts[k], scripts[0], n, i);
      }
    }
    forall m: nat | i < m ensures !CommonPrefix(all, m) {
      if CommonPrefix(all, m) {
        PrefixOfFewer(scripts, s, m);
        ShorterPrefix(s, scripts[0], m, i);
        assert false;
      }
    }
  }

  lemma OneSuffix(scripts: seq<seq<byte>>)
    requires scripts != []
    ensures LongestSuffix(scripts[..1], |scripts[0]|)
  {
    var one := scripts[..1];
    assert one[0] == scripts[0];
  }

  /** How many trailing bytes two scripts share, up to `limit`. */
  method SharedTail(first: seq<byte>, s: seq<byte>, limit: nat) returns (i: nat)
    requires limit <= |first| && limit <= |s|
    ensures i <= limit && Last(first, i) == Last(s, i)
    ensures i < limit ==> first[|first| - 1 - i] != s[|s| - 1 - i]
  {
    i := 0;
    while i < limit && first[|first| - 1 - i] == s[|s| - 1 - i]
      invariant 0 <= i <= limit
      invariant Last(first, i) == Last(s, i)
    {
      SuffixStep(first, s, i);
      i := i + 1;
    }
  }

  method CommonSuffixLen(scripts: seq<seq<byte>>) returns (n: nat)
    requires scripts != []
    ensures LongestSuffix(scripts, n)
  {
    n := |scripts[0]|;
    OneSuffix(scripts);
    var k := 1;
    while k < |scripts|
      invariant 1 <= k <= |scripts|
      invariant n <= |scripts[0]|
      invariant LongestSuffix(scripts[..k], n)
    {
      var limit := if n < |scripts[k]| then n else |scripts[k]|;
      var i := SharedTail(scripts[0], scripts[k], limit);
      SuffixNext(scripts, k, n, i);
      n := i;
      k := k + 1;
    }
    assert scripts[..k] == scripts;
  }

  lemma SuffixNext(scripts: seq<seq<byte>>, k: nat, n: nat, i: nat)
    requires 0 < k < |scripts| && n <= |scripts[0]| && LongestSuffix(scripts[..k], n)
    requires i <= n && i <= |scripts[k]| && Last(scripts[0], i) == Last(scripts[k], i)
    requires i < n && i < |scripts[k]| ==> scripts[0][|scripts[0]| - 1 - i] != scripts[k][|scripts[k]| - 1 - i]
    ensures LongestSuffix(scripts[..k + 1], i)
  {
    SuffixCutDown(scripts[..k], scripts[k], n, i);
    assert scripts[..k + 1] == scripts[..k] + [scripts[k]];
  }

  lemma ShorterSuffix(a: seq<byte>, b: seq<byte>, m: nat, i: nat)
    requires i <= m <= |a| && m <= |b| && Last(a, m) == Last(b, m)
    ensures Last(a, i) == Last(b, i) && (i < m ==> a[|a| - 1 - i] == b[|b| - 1 - i])
  {
    assert Last(a, m)[m - i..] == Last(a, i) && Last(b, m)[m - i..] == Last(b, i);
    assert i < m ==> a[|a| - 1 - i] == Last(a, m)[m - 1 - i] && b[|b| - 1 - i] == Last(b, m)[m - 1 - i];
  }

  lemma SuffixOfFewer(scripts: seq<seq<byte>>, s: seq<byte>, m: nat)
    requires scripts != [] && CommonSuffix(scripts + [s], m)
    ensures CommonSuffix(scripts, m) && m <= |s| && m <= |scripts[0]| && Last(s, m) == Last(scripts[0], m)
  {
    var all := scripts + [s];
    assert all[|scripts|] == s;
    assert forall k :: 0 <= k < |scripts| ==> all[k] == scripts[k];
  }

  lemma SuffixCutDown(scripts: seq<seq<byte>>, s: seq<byte>, n: nat, i: nat)
    requires scripts != [] && LongestSuffix(scripts, n) && i <= n && i <= |s|
    requires Last(scripts[0], i) == Last(s, i)
    requires i < n && i < |s| ==> scripts[0][|scripts[0]| - 1 - i] != s[|s| - 1 - i]
    ensures LongestSuffix(scripts + [s], i)
  {
    var all := scripts + [s];
    forall k | 0 <= k < |all| ensures i <= |all[k]| && Last(all[k], i) == Last(all[0], i) {
      if k < |scripts| {
        ShorterSuffix(scripts[k], scripts[0], n, i);
      }
    }
    forall m: nat | i < m ensures !CommonSuffix(all, m) {
      if CommonSuffix(all, m) {
        SuffixOfFewer(scripts, s, m);
        ShorterSuffix(s, scripts[0], m, i);
        assert false;
      }
    }
  }

  /** There is one longest prefix, one longest suffix and one shortest length. */
  lemma LengthsUnique(scripts: seq<seq<byte>>, h: nat, h': nat, t: nat, t': nat, m: nat, m': nat)
    requires scripts != []
    requires LongestPrefix(scripts, h) && LongestPrefix(scripts, h')
    requires LongestSuffix(scripts, t) && LongestSuffix(scripts, t')
    requires Shortest(scripts, m) && Shortest(scripts, m')
    ensures h == h' && t == t' && m == m'
  {
    assert !(h < h') && !(h' < h) && !(t < t') && !(t' < t);
  }

  method MinLength(scripts: seq<seq<byte>>) returns (n: nat)
    requires scripts != []
    ensures Shortest(scripts, n)
  {
    n := |scripts[0]|;
    for k := 1 to |scripts|
      invariant exists j :: 0 <= j < k && |scripts[j]| == n
      invariant forall j :: 0 <= j < k ==> n <= |scripts[j]|
    {
      if |scripts[k]| < n {
        n := |scripts[k]|;
      }
    }
  }

  /** What the derivation returns for samples whose longest shared ends have lengths
      `h` and `t` and of which the shortest has length `m`. */
  ghost predicate Derived(scripts: seq<seq<byte>>, ws: seq<MaskedWindow>, h: nat, t: nat, m: nat,
                          r: Result<Pattern, FingerprintError>)
    requires scripts != [] && h <= |scripts[0]| && t <= |scripts[0]|
  {
    if h + t > m then r == Err(AnchorsOverlap(h, t, m))
    else if !ValidWindows(ws, h) then r.Err? && Faulty(ws, h, r.error)
    else r == Ok(Anchored(scripts[0][..h], ws, scripts[0][|scripts[0]| - t..]))
  }

  method DeriveAnchoredFingerprint(scripts: seq<seq<byte>>, ws: seq<MaskedWindow>)
    returns (r: Result<Pattern, FingerprintError>)
    ensures |scripts| < 2 ==> r == Err(TooFewSamples(|scripts|))
    ensures |scripts| >= 2 ==> exists h, t, m ::
      LongestPrefix(scripts, h) && LongestSuffix(scripts, t) && Shortest(scripts, m) && Derived(scripts, ws, h, t, m, r)
  {
    if |scripts| < 2 {
      return Err(TooFewSamples(|scripts|));
    }
    var h := CommonPrefixLen(scripts);
    var t := CommonSuffixLen(scripts);
    var m := MinLength(scripts);
    if h + t > m {
      r := Err(AnchorsOverlap(h, t, m));
      assert Derived(scripts, ws, h, t, m, r);
      return;
    }
    var bounds := ValidateBounds(ws, h);
    if bounds.Err? {
      r := Err(bounds.error);
      assert Derived(scripts, ws, h, t, m, r);
      return;
    }
    var sample := scripts[0];
    var pattern := Anchored(sample[..h], ws, sample[|sample| - t..]);
    var valid := Validate(pattern.headWindows, |pattern.head|);
    r := if valid.Err? then Err(valid.error) else Ok(pattern);
    assert Derived(scripts, ws, h, t, m, r);
  }

  /** A derived pattern is valid, matches every sample it came from, and matches its
      own ends around any middle, seen or not, with the samples' own fields. */
  lemma DerivedMatches(scripts: seq<seq<byte>>, ws: seq<MaskedWindow>, h: nat, t: nat, m: nat, k: nat, middle: seq<byte>)
    requires |scripts| >= 2 && k < |scripts|
    requires LongestPrefix(scripts, h) && LongestSuffix(scripts, t) && Shortest(scripts, m)
    requires h + t <= m && ValidWindows(ws, h)
    ensures var p := Anchored(scripts[0][..h], ws, scripts[0][|scripts[0]| - t..]);
      && Matches(p, scripts[k]) && Matches(p, p.head + middle + p.tail)
      && InBounds(ws, |scripts[k]|) && Extract(ws, scripts[k]) == Extract(ws, p.head + middle + p.tail)
  {
    var p := Anchored(scripts[0][..h], ws, scripts[0][|scripts[0]| - t..]);
    var unseen := p.head + middle + p.tail;
    assert m <= |scripts[k]| && scripts[k][..h] == p.head;
    HeadDecides(p.head, ws, scripts[k]);
    assert unseen == p.head + (middle + p.tail);
    HeadDecides(p.head, ws, unseen);
  }

  lemma HeadDecides(head: seq<byte>, ws: seq<MaskedWindow>, script: seq<byte>)
    requires head <= script && InBounds(ws, |head|)
    ensures FrontFits(head, ws, script) && Extract(ws, script) == Extract(ws, head)
  {
    SameExtract(ws, head, script);
  }

  lemma {:induction false} SameExtract(ws: seq<MaskedWindow>, head: seq<byte>, script: seq<byte>)
    requires head <= script && InBounds(ws, |head|)
    ensures Extract(ws, script) == Extract(ws, head)
    decreases |ws|
  {
    if ws != [] {
      var n := |ws| - 1;
      SameExtract(ws[..n], head, script);
      PrefixSlice(head, script, ws[n].offset, ws[n].offset + ws[n].len);
    }
  }

  /** No longer head and no longer tail fits all samples: the anchors are maximal. */
  lemma DerivedIsMaximal(scripts: seq<seq<byte>>, h: nat, t: nat, head: seq<byte>, tail: seq<byte>)
    requires scripts != [] && LongestPrefix(scripts, h) && LongestSuffix(scripts, t)
    requires forall k :: 0 <= k < |scripts| ==> Matches(Anchored(head, [], tail), scripts[k])
    ensures |head| <= h && |tail| <= t
  {
    forall k | 0 <= k < |scripts| ensures |head| <= |scripts[k]| && scripts[k][..|head|] == head {
      var script := scripts[k];
      assert Matches(Anchored(head, [], tail), script);
      assert forall i :: 0 <= i < |head| ==> !InMask([], i) && script[i] == head[i];
    }
    assert CommonPrefix(scripts, |head|);
    forall k | 0 <= k < |scripts| ensures |tail| <= |scripts[k]| && Last(scripts[k], |tail|) == tail {
      assert Matches(Anchored(head, [], tail), scripts[k]);
    }
    assert CommonSuffix(scripts, |tail|);
  }
}
