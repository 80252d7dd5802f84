/**
 Reading the server name out of a TLS ClientHello (sections 4.1.2 and 5.1 of RFC 8446, section 3 of
 RFC 6066) from the bytes peeked so far, which may be any prefix of the hello.
 */
module Sni {
  import opened Options
  import opened Bytes
  import opened Utf8

  /** What the extraction can do; a record with one to three bytes of a ClientHello makes it panic. */
  datatype Outcome = Panics | NoName | Name(host: string)

  function Min(a: nat, b: nat): nat {
    if a <= b then a else b
  }

  // ----- The format, one layer at a time -----

  /** What follows a field with a one-byte length; `None` when the field is incomplete. */
  function Skip8(s: seq<byte>): Option<seq<byte>> {
    if s == [] || 1 + s[0] > |s| then None else Some(s[1 + s[0]..])
  }

  /** What follows a field with a two-byte length. */
  function Skip16(s: seq<byte>): Option<seq<byte>> {
    if |s| < 2 || 2 + U16(s[0], s[1]) > |s| then None else Some(s[2 + U16(s[0], s[1])..])
  }

  /** The handshake bytes of the record that are present. */
  function Handshake(buf: seq<byte>): seq<byte>
    requires |buf| >= 5
  {
    buf[5..Min(|buf|, 5 + U16(buf[3], buf[4]))]
  }

  function U24(a: byte, b: byte, c: byte): nat {
    a * 65536 + b * 256 + c
  }

  function HelloBody(hs: seq<byte>): seq<byte>
    requires |hs| >= 4
  {
    hs[4..Min(|hs|, 4 + U24(hs[1], hs[2], hs[3]))]
  }

  /** What follows session id and cipher suites. */
  function AfterSuites(s: seq<byte>): Option<seq<byte>> {
    match Skip8(s)
    case None => None
    case Some(suites) => Skip16(suites)
  }

  /** What follows session id, cipher suites and compression methods. */
  function AfterCompression(s: seq<byte>): Option<seq<byte>> {
    match AfterSuites(s)
    case None => None
    case Some(compression) => Skip8(compression)
  }

  /** The extension bytes that are present, behind their two-byte length. */
  function ExtensionBlock(s: seq<byte>): Option<seq<byte>> {
    if |s| < 2 then None else Some(s[2..2 + Min(U16(s[0], s[1]), |s| - 2)])
  }

  /** The extension bytes of a ClientHello that are present; version and random take 34 bytes. */
  function Extensions(hello: seq<byte>): Option<seq<byte>> {
    if |hello| < 34 then None
    else
      match AfterCompression(hello[34..])
      case None => None
      case Some(s) => ExtensionBlock(s)
  }

  /** The host name in a server_name extension of `len` bytes at the front of `b`. */
  function NameIn(b: seq<byte>, len: nat): Outcome {
    if len < 5 || len > |b| || b[2] != 0 || 5 + U16(b[3], b[4]) > |b| then NoName
    else
      match Strict(b[5..5 + U16(b[3], b[4])])
      case None => NoName
      case Some(host) => Name(host)
  }

  /** The first server_name extension decides. */
  function Walk(e: seq<byte>): Outcome {
    if |e| < 4 then NoName
    else
      var len := U16(e[2], e[3]);
      if U16(e[0], e[1]) == 0 then NameIn(e[4..], len)
      else if 4 + len > |e| then NoName
      else Walk(e[4 + len..])
  }

  function HelloName(hello: seq<byte>): Outcome {
    match Extensions(hello)
    case None => NoName
    case Some(e) => Walk(e)
  }

  function HandshakeName(hs: seq<byte>): Outcome {
    if hs == [] || hs[0] != 1 then NoName
    else if |hs| < 4 then Panics
    else HelloName(HelloBody(hs))
  }

  function SniOf(buf: seq<byte>): Outcome {
    if |buf| < 5 || buf[0] != 0x16 then NoName else HandshakeName(Handshake(buf))
  }

  /** The bytes present of a ClientHello handshake end inside its four-byte header. */
  ghost predicate HeaderCut(hs: seq<byte>) {
    1 <= |hs| < 4 && hs[0] == 1
  }

  ghost predicate CutShort(buf: seq<byte>) {
    |buf| >= 5 && buf[0] == 0x16 && HeaderCut(Handshake(buf))
  }

  // ----- The extraction -----

  /** Reads the host name of a server_name extension of `len` bytes at `pos`. */
  method ReadName(hello: seq<byte>, pos: nat, end: nat, len: nat) returns (r: Outcome)
    requires pos <= end <= |hello|
    ensures r == NameIn(hello[pos..end], len)
  {
    if len >= 5 && pos + len <= end {
      if hello[pos + 2] == 0 {
        var nameLen := U16(hello[pos + 3], hello[pos + 4]);
        if pos + 5 + nameLen <= end {
          var name := hello[pos + 5..pos + 5 + nameLen];
          SliceOfSlice(hello, pos, end, 5, 5 + nameLen);
          var text := Strict(name);
          return if text.Some? then Name(text.value) else NoName;
        }
      }
    }
    return NoName;
  }

  /** One extension of the walk over `hello[pos..end]`. */
  lemma WalkStep(hello: seq<byte>, pos: nat, end: nat)
    requires pos + 4 <= end <= |hello|
    ensures var kind, len := U16(hello[pos], hello[pos + 1]), U16(hello[pos + 2], hello[pos + 3]);
            Walk(hello[pos..end]) == if kind == 0 then NameIn(hello[pos + 4..end], len)
                                     else if pos + 4 + len <= end then Walk(hello[pos + 4 + len..end])
                                     else NoName
  {
    var e := hello[pos..end];
    var len := U16(hello[pos + 2], hello[pos + 3]);
    assert e[4..] == hello[pos + 4..end];
    assert 4 + len <= |e| ==> e[4 + len..] == hello[pos + 4 + len..end];
  }

  /** Walks the extensions of `hello` between `start` and `end`. */
  method WalkExtensions(hello: seq<byte>, start: nat, end: nat) returns (r: Outcome)
    requires start <= end <= |hello|
    ensures r == Walk(hello[start..end])
  {
    var pos := start;
    ghost var whole := Walk(hello[start..end]);
    while pos + 4 <= end
      invariant whole == if pos <= end then Walk(hello[pos..end]) else NoName
    {
      WalkStep(hello, pos, end);
      var kind := U16(hello[pos], hello[pos + 1]);
      var len := U16(hello[pos + 2], hello[pos + 3]);
      pos := pos + 4;
      if kind == 0 {
        r := ReadName(hello, pos, end, len);
        return;
      }
      pos := pos + len;
    }
    return NoName;
  }

  lemma SliceOfSlice<T>(s: seq<T>, a: nat, b: nat, c: nat, d: nat)
    requires a <= b <= |s| && c <= d <= b - a
    ensures s[a..b][c..d] == s[a + c..a + d]
  {
    var l, r := s[a..b][c..d], s[a + c..a + d];
    assert |l| == |r| && forall i :: 0 <= i < |l| ==> l[i] == s[a + c + i] == r[i];
  }

  lemma Skip8At(s: seq<byte>, pos: nat)
    requires pos < |s|
    ensures Skip8(s[pos..]) == if pos + 1 + s[pos] <= |s| then Some(s[pos + 1 + s[pos]..]) else None
  {
  }

  lemma Skip16At(s: seq<byte>, pos: nat)
    requires pos + 2 <= |s|
    ensures var n := U16(s[pos], s[pos + 1]); Skip16(s[pos..]) == if pos + 2 + n <= |s| then Some(s[pos + 2 + n..]) else None
  {
  }

  lemma BlockAt(s: seq<byte>, pos: nat)
    requires pos + 2 <= |s|
    ensures ExtensionBlock(s[pos..]) == Some(s[pos + 2..pos + 2 + Min(U16(s[pos], s[pos + 1]), |s| - pos - 2)])
  {
    assert s[pos..] == s[pos..|s|];
    SliceOfSlice(s, pos, |s|, 2, 2 + Min(U16(s[pos], s[pos + 1]), |s| - pos - 2));
  }

  /** The position behind session id, suites and compression, if the hello reaches that far. */
  method SkipFields(hello: seq<byte>) returns (r: Option<nat>)
    requires |hello| >= 34
    ensures r.None? ==> AfterCompression(hello[34..]) == None
    ensures r.Some? ==> r.value <= |hello| && AfterCompression(hello[34..]) == Some(hello[r.value..])
  {
    var pos := 34;
    if pos >= |hello| {
      return None;
    }
    Skip8At(hello, pos);
    pos := pos + 1 + hello[pos];
    if pos + 2 > |hello| {
      return None;
    }
    Skip16At(hello, pos);
    pos := pos + 2 + U16(hello[pos], hello[pos + 1]);
    if pos >= |hello| {
      return None;
    }
    Skip8At(hello, pos);
    pos := pos + 1 + hello[pos];
    return if pos > |hello| then None else Some(pos);
  }

  /** Everything after the handshake header. */
  method ReadHello(hello: seq<byte>) returns (r: Outcome)
    ensures r == HelloName(hello)
  {
    if |hello| < 34 {
      return NoName;
    }
    var start := SkipFields(hello);
    if start.None? || start.value + 2 > |hello| {
      return NoName;
    }
    var pos := start.value;
    BlockAt(hello, pos);
    var extensionsLen := U16(hello[pos], hello[pos + 1]);
    pos := pos + 2;
    var end := pos + Min(extensionsLen, |hello| - pos);
    r := WalkExtensions(hello, pos, end);
  }

  /** `extract_sni`, with the index that is out of range on a cut header made explicit. */
  method ExtractSni(buf: seq<byte>) returns (r: Outcome)
    ensures r == SniOf(buf)
  {
    if |buf| < 5 || buf[0] != 0x16 {
      return NoName;
    }
    var recordLen := U16(buf[3], buf[4]);
    var handshake := buf[5..Min(|buf|, 5 + recordLen)];
    if handshake == [] || handshake[0] != 0x01 {
      return NoName;
    }
    if |handshake| < 4 {
      return Panics;
    }
    var helloLen := U24(handshake[1], handshake[2], handshake[3]);
    r := ReadHello(handshake[4..Min(|handshake|, 4 + helloLen)]);
  }

  lemma {:induction false} WalkNeverPanics(e: seq<byte>)
    ensures !Walk(e).Panics?
  {
    if |e| >= 4 && U16(e[0], e[1]) != 0 && 4 + U16(e[2], e[3]) <= |e| {
      WalkNeverPanics(e[4 + U16(e[2], e[3])..]);
    }
  }

  lemma PanicsIffCut(hs: seq<byte>)
    ensures HandshakeName(hs).Panics? <==> HeaderCut(hs)
  {
    if |hs| >= 4 && Extensions(HelloBody(hs)).Some? {
      WalkNeverPanics(Extensions(HelloBody(hs)).value);
    }
  }

  /** The extraction panics exactly on a ClientHello record cut short of its four-byte header. */
  lemma PanicsIffCutShort(buf: seq<byte>)
    ensures SniOf(buf).Panics? <==> CutShort(buf)
  {
    if |buf| >= 5 { PanicsIffCut(Handshake(buf)); }
  }

  // ----- Truncation -----

  /** The shortest such record: one handshake byte, the ClientHello type, is present. */
  lemma OneHandshakeBytePanics()
    ensures SniOf([0x16, 3, 1, 0, 1, 0x01]).Panics?
  {
    assert [0x16, 3, 1, 0, 1, 0x01][5..6] == [0x01];
  }

  lemma {:induction false} WalkOfPrefix(e: seq<byte>, k: nat)
    requires k <= |e|
    ensures Walk(e[..k]) == NoName || Walk(e[..k]) == Walk(e)
  {
    if k >= 4 {
      var p := e[..k];
      assert forall i :: 0 <= i < 4 ==> p[i] == e[i];
      var len := U16(e[2], e[3]);
      if U16(e[0], e[1]) == 0 {
        NameInPrefix(e[4..], k - 4, len);
        assert p[4..] == e[4..][..k - 4];
      } else if 4 + len <= k {
        assert p[4 + len..] == e[4 + len..][..k - 4 - len];
        WalkOfPrefix(e[4 + len..], k - 4 - len);
      }
    }
  }

  lemma NameInPrefix(b: seq<byte>, k: nat, len: nat)
    requires k <= |b|
    ensures NameIn(b[..k], len) == NoName || NameIn(b[..k], len) == NameIn(b, len)
  {
    if 5 <= len <= k && 5 + U16(b[3], b[4]) <= k {
      assert b[..k][5..5 + U16(b[3], b[4])] == b[5..5 + U16(b[3], b[4])];
    }
  }

  ghost predicate PrefixOrNone(a: Option<seq<byte>>, b: Option<seq<byte>>) {
    a.None? || (b.Some? && a.value <= b.value)
  }

  lemma SkipOfPrefix(s: seq<byte>, k: nat)
    requires k <= |s|
    ensures PrefixOrNone(Skip8(s[..k]), Skip8(s)) && PrefixOrNone(Skip16(s[..k]), Skip16(s))
  {
  }

  lemma SuitesOfPrefix(s: seq<byte>, k: nat)
    requires k <= |s|
    ensures PrefixOrNone(AfterSuites(s[..k]), AfterSuites(s))
  {
    SkipOfPrefix(s, k);
    var a := Skip8(s[..k]);
    if a.Some? {
      var full := Skip8(s).value;
      assert a.value == full[..|a.value|];
      SkipOfPrefix(full, |a.value|);
    }
  }

  lemma CompressionOfPrefix(s: seq<byte>, k: nat)
    requires k <= |s|
    ensures PrefixOrNone(AfterCompression(s[..k]), AfterCompression(s))
  {
    SuitesOfPrefix(s, k);
    var a := AfterSuites(s[..k]);
    if a.Some? {
      var full := AfterSuites(s).value;
      assert a.value == full[..|a.value|];
      SkipOfPrefix(full, |a.value|);
    }
  }

  lemma ExtensionsOfPrefix(hello: seq<byte>, k: nat)
    requires k <= |hello|
    ensures PrefixOrNone(Extensions(hello[..k]), Extensions(hello))
  {
    if k >= 34 {
      assert hello[..k][34..] == hello[34..][..k - 34];
      CompressionOfPrefix(hello[34..], k - 34);
    }
  }

  /** The same window of a sequence and of a prefix of it: the one is a prefix of the other. */
  lemma PrefixOfSlices<T>(s: seq<T>, k: nat, lo: nat, hi: nat)
    requires lo <= k <= |s| && lo <= hi
    ensures s[..k][lo..Min(k, hi)] == s[lo..Min(|s|, hi)][..Min(k, hi) - lo]
  {
    SliceOfSlice(s, 0, k, lo, Min(k, hi));
    SliceOfSlice(s, lo, Min(|s|, hi), 0, Min(k, hi) - lo);
  }

  lemma HelloNameOfPrefix(hello: seq<byte>, k: nat)
    requires k <= |hello|
    ensures HelloName(hello[..k]) == NoName || HelloName(hello[..k]) == HelloName(hello)
  {
    ExtensionsOfPrefix(hello, k);
    if Extensions(hello[..k]).Some? {
      var e, e' := Extensions(hello).value, Extensions(hello[..k]).value;
      assert e' == e[..|e'|];
      WalkOfPrefix(e, |e'|);
    }
  }

  lemma HandshakeNameOfPrefix(hs: seq<byte>, k: nat)
    requires k <= |hs|
    ensures HandshakeName(hs[..k]) == NoName || HandshakeName(hs[..k]) == HandshakeName(hs) || HeaderCut(hs[..k])
  {
    if k >= 4 {
      BodyOfPrefix(hs, k);
      HelloNameOfPrefix(HelloBody(hs), |HelloBody(hs[..k])|);
    }
  }

  lemma BodyOfPrefix(hs: seq<byte>, k: nat)
    requires 4 <= k <= |hs|
    ensures |HelloBody(hs[..k])| <= |HelloBody(hs)|
    ensures HelloBody(hs[..k]) == HelloBody(hs)[..|HelloBody(hs[..k])|]
  {
    PrefixOfSlices(hs, k, 4, 4 + U24(hs[1], hs[2], hs[3]));
  }

  /**
   A truncated buffer yields the full buffer's answer or none, unless it cuts the record short of
   the handshake header, and then the extraction panics.
   */
  lemma TruncationIsSafe(buf: seq<byte>, k: nat)
    requires k <= |buf|
    ensures SniOf(buf[..k]) == NoName || SniOf(buf[..k]) == SniOf(buf) || CutShort(buf[..k])
  {
    if k >= 5 && buf[0] == 0x16 {
      var end := 5 + U16(buf[3], buf[4]);
      PrefixOfSlices(buf, k, 5, end);
      HandshakeNameOfPrefix(Handshake(buf), Min(k, end) - 5);
    }
  }

  // ----- Well-formed hellos -----

  datatype Extension = Extension(kind: nat, body: seq<byte>)

  ghost predicate Fits(x: Extension) {
    x.kind < 0x1_0000 && |x.body| < 0x1_0000
  }

  function EncodeExtension(x: Extension): seq<byte>
    requires Fits(x)
  {
    U16Bytes(x.kind) + U16Bytes(|x.body|) + x.body
  }

  function EncodeExtensions(xs: seq<Extension>): seq<byte>
    requires forall i :: 0 <= i < |xs| ==> Fits(xs[i])
  {
    if xs == [] then [] else EncodeExtension(xs[0]) + EncodeExtensions(xs[1..])
  }

  /** A server_name list that starts with the host name; other names may follow. */
  function ServerNameList(host: seq<byte>, others: seq<byte>): seq<byte>
    requires 5 + |host| + |others| < 0x1_0000
  {
    U16Bytes(3 + |host| + |others|) + [0] + U16Bytes(|host|) + host + others
  }

  function Decoded(host: seq<byte>): Outcome {
    match Strict(host)
    case None => NoName
    case Some(t) => Name(t)
  }

  lemma NameInList(host: seq<byte>, others: seq<byte>, after: seq<byte>)
    requires 5 + |host| + |others| < 0x1_0000
    ensures NameIn(ServerNameList(host, others) + after, 5 + |host| + |others|) == Decoded(host)
  {
    var b := ServerNameList(host, others) + after;
    assert b[3] == U16Bytes(|host|)[0] && b[4] == U16Bytes(|host|)[1];
    assert b[5..5 + |host|] == host;
  }

  lemma ExtensionHeader(x: Extension, rest: seq<byte>)
    requires Fits(x)
    ensures var e := EncodeExtension(x) + rest;
            && |e| >= 4 && U16(e[0], e[1]) == x.kind && U16(e[2], e[3]) == |x.body|
            && e[4..] == x.body + rest && 4 + |x.body| <= |e| && e[4 + |x.body|..] == rest
  {
  }

  /** The walk passes over extensions of other kinds. */
  lemma {:induction false} WalkSkips(before: seq<Extension>, tail: seq<byte>)
    requires forall i :: 0 <= i < |before| ==> Fits(before[i]) && before[i].kind != 0
    ensures Walk(EncodeExtensions(before) + tail) == Walk(tail)
    decreases |before|
  {
    if before == [] {
      assert EncodeExtensions(before) + tail == tail;
    } else {
      var rest := EncodeExtensions(before[1..]) + tail;
      assert EncodeExtensions(before) + tail == EncodeExtension(before[0]) + rest;
      ExtensionHeader(before[0], rest);
      WalkSkips(before[1..], tail);
    }
  }

  /** The walk finds the first server_name extension, whatever stands around it. */
  lemma WalkFindsName(before: seq<Extension>, host: seq<byte>, others: seq<byte>, after: seq<byte>)
    requires forall i :: 0 <= i < |before| ==> Fits(before[i]) && before[i].kind != 0
    requires 5 + |host| + |others| < 0x1_0000
    ensures var sni := Extension(0, ServerNameList(host, others));
            Walk(EncodeExtensions(before) + (EncodeExtension(sni) + after)) == Decoded(host)
  {
    var sni := Extension(0, ServerNameList(host, others));
    WalkSkips(before, EncodeExtension(sni) + after);
    ExtensionHeader(sni, after);
    NameInList(host, others, after);
  }

  lemma NoNameIn(body: seq<byte>, after: seq<byte>)
    requires |body| < 5 || body[2] != 0
    ensures NameIn(body + after, |body|) == NoName
  {
  }

  /** A server_name extension that does not start with a host name decides too: there is no name. */
  lemma WalkFindsOther(before: seq<Extension>, x: Extension, after: seq<byte>)
    requires forall i :: 0 <= i < |before| ==> Fits(before[i]) && before[i].kind != 0
    requires Fits(x) && x.kind == 0 && (|x.body| < 5 || x.body[2] != 0)
    ensures Walk(EncodeExtensions(before) + (EncodeExtension(x) + after)) == NoName
  {
    WalkSkips(before, EncodeExtension(x) + after);
    ExtensionHeader(x, after);
    NoNameIn(x.body, after);
  }

  /** Without a server_name extension there is no name. */
  lemma WalkFindsNothing(xs: seq<Extension>)
    requires forall i :: 0 <= i < |xs| ==> Fits(xs[i]) && xs[i].kind != 0
    ensures Walk(EncodeExtensions(xs)) == NoName
  {
    WalkSkips(xs, []);
    assert EncodeExtensions(xs) + [] == EncodeExtensions(xs);
  }

  /** A name is found only in a handshake record that holds a ClientHello of at least 34 bytes. */
  lemma OnlyInHellos(buf: seq<byte>)
    requires SniOf(buf).Name?
    ensures |buf| >= 43 && buf[0] == 0x16 && buf[5] == 0x01
  {
    assert buf[5] == Handshake(buf)[0];
  }

  /** A ClientHello; `before` holds the extensions in front of the server name, `after` those behind it. */
  datatype Hello = Hello(
    version: seq<byte>, random: seq<byte>, sessionId: seq<byte>, suites: seq<byte>, compression: seq<byte>,
    before: seq<Extension>, host: seq<byte>, others: seq<byte>, after: seq<Extension>)
  {
    ghost predicate WellFormed() {
      && |version| == 2 && |random| == 32 && |sessionId| < 256 && |suites| < 0x1_0000 && |compression| < 256
      && 5 + |host| + |others| < 0x1_0000
      && (forall i :: 0 <= i < |before| ==> Fits(before[i]) && before[i].kind != 0)
      && (forall i :: 0 <= i < |after| ==> Fits(after[i]))
    }

    ghost function ExtensionBytes(): seq<byte>
      requires WellFormed()
    {
      EncodeExtensions(before) + (EncodeExtension(Extension(0, ServerNameList(host, others))) + EncodeExtensions(after))
    }

    /** The bytes behind version and random. */
    ghost function Fields(): seq<byte>
      requires WellFormed() && |ExtensionBytes()| < 0x1_0000
    {
      [|sessionId|] + sessionId + (U16Bytes(|suites|) + suites
        + ([|compression|] + compression + (U16Bytes(|ExtensionBytes()|) + ExtensionBytes())))
    }

    ghost function Body(): seq<byte>
      requires WellFormed() && |ExtensionBytes()| < 0x1_0000
    {
      version + random + Fields()
    }
  }

  lemma Skip8Of(field: seq<byte>, rest: seq<byte>)
    requires |field| < 256
    ensures Skip8([|field|] + field + rest) == Some(rest)
  {
    var s := [|field|] + field + rest;
    assert s[1 + |field|..] == rest;
  }

  lemma Skip16Of(field: seq<byte>, rest: seq<byte>)
    requires |field| < 0x1_0000
    ensures Skip16(U16Bytes(|field|) + field + rest) == Some(rest)
  {
    var s := U16Bytes(|field|) + field + rest;
    assert s[2 + |field|..] == rest;
  }

  lemma ExtensionsOfHello(h: Hello)
    requires h.WellFormed() && |h.ExtensionBytes()| < 0x1_0000
    ensures Extensions(h.Body()) == Some(h.ExtensionBytes())
  {
    var block := U16Bytes(|h.ExtensionBytes()|) + h.ExtensionBytes();
    var compression := [|h.compression|] + h.compression + block;
    var suites := U16Bytes(|h.suites|) + h.suites + compression;
    assert h.Body()[34..] == [|h.sessionId|] + h.sessionId + suites;
    Skip8Of(h.sessionId, suites);
    Skip16Of(h.suites, compression);
    Skip8Of(h.compression, block);
    BlockOf(h.ExtensionBytes());
  }

  lemma BlockOf(e: seq<byte>)
    requires |e| < 0x1_0000
    ensures ExtensionBlock(U16Bytes(|e|) + e) == Some(e)
  {
    assert (U16Bytes(|e|) + e)[2..2 + |e|] == e;
  }

  function U24Bytes(n: nat): (s: seq<byte>)
    requires n < 0x100_0000
    ensures |s| == 3 && U24(s[0], s[1], s[2]) == n
  {
    [n / 65536, n / 256 % 256, n % 256]
  }

  /** A handshake record holding the whole hello. */
  ghost function EncodeRecord(h: Hello, version: seq<byte>): seq<byte>
    requires h.WellFormed() && |h.ExtensionBytes()| < 0x1_0000 && 4 + |h.Body()| < 0x1_0000 && |version| == 2
  {
    [0x16] + version + U16Bytes(4 + |h.Body()|) + ([0x01] + U24Bytes(|h.Body()|) + h.Body())
  }

  lemma HandshakeOfRecord(version: seq<byte>, hs: seq<byte>, trailing: seq<byte>)
    requires |version| == 2 && |hs| < 0x1_0000
    ensures var buf := [0x16] + version + U16Bytes(|hs|) + hs + trailing; |buf| >= 5 && buf[0] == 0x16 && Handshake(buf) == hs
  {
    var buf := [0x16] + version + U16Bytes(|hs|) + hs + trailing;
    assert buf[3] == U16Bytes(|hs|)[0] && buf[4] == U16Bytes(|hs|)[1];
    assert buf[5..5 + |hs|] == hs;
  }

  lemma NameOfHello(h: Hello)
    requires h.WellFormed() && |h.ExtensionBytes()| < 0x1_0000
    ensures HelloName(h.Body()) == Decoded(h.host)
  {
    ExtensionsOfHello(h);
    WalkFindsName(h.before, h.host, h.others, EncodeExtensions(h.after));
  }

  lemma NameOfHandshake(body: seq<byte>)
    requires |body| < 0x100_0000
    ensures HandshakeName([0x01] + U24Bytes(|body|) + body) == HelloName(body)
  {
    assert HelloBody([0x01] + U24Bytes(|body|) + body) == body;
  }

  /** The name of every well-formed hello is found, whatever surrounds it and follows the record. */
  lemma FindsHostName(h: Hello, version: seq<byte>, trailing: seq<byte>)
    requires h.WellFormed() && |h.ExtensionBytes()| < 0x1_0000 && 4 + |h.Body()| < 0x1_0000 && |version| == 2
    ensures SniOf(EncodeRecord(h, version) + trailing) == Decoded(h.host)
  {
    HandshakeOfRecord(version, [0x01] + U24Bytes(|h.Body()|) + h.Body(), trailing);
    NameOfHandshake(h.Body());
    NameOfHello(h);
  }
}
