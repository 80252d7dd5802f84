/**
 The PROXY protocol header that carries a client's address from the TLS proxy to the HTTP proxy: the
 line the one writes and what the other reads of it. IPv6 addresses have their text form and parser
 as parameters.
 */
module ProxyProtocol {
  import opened Options
  import opened Bytes
  import opened IpAllocation
  import opened Text
  import Utf8

  type Port = n: int | 0 <= n < 0x1_0000

  datatype SocketAddr = SocketAddr(ip: IpAddr, port: Port)

  type Show = nat -> string
  type Parse = string -> Option<IpAddr>

  // ----- IPv4 text -----

  type Octet = n: int | 0 <= n < 256

  function OctetOf(bits: Word32, i: nat): Octet
    requires i < 4
  {
    if i == 0 then bits / 256 / 256 / 256
    else if i == 1 then bits / 256 / 256 % 256
    else if i == 2 then bits / 256 % 256
    else bits % 256
  }

  function FromOctets(a: Octet, b: Octet, c: Octet, d: Octet): Word32 {
    ((a * 256 + b) * 256 + c) * 256 + d
  }

  function DottedParts(bits: Word32): seq<string> {
    [Decimal(OctetOf(bits, 0)), Decimal(OctetOf(bits, 1)), Decimal(OctetOf(bits, 2)), Decimal(OctetOf(bits, 3))]
  }

  /** The text of an address, as `Display` writes it. */
  function IpText(ip: IpAddr, show: Show): string {
    match ip
    case V4(bits) => Join(DottedParts(bits), '.')
    case V6(wide) => show(wide)
  }

  /** One to three digits without a leading zero, at most 255. */
  function ParseOctet(s: string): Option<Octet> {
    if 1 <= |s| <= 3 && (forall i :: 0 <= i < |s| ==> IsDigit(s[i])) && (|s| > 1 ==> s[0] != '0') && ValueOf(s) < 256
    then Some(ValueOf(s)) else None
  }

  function ParseV4(s: string): Option<IpAddr> {
    var parts := Split(s, '.');
    if |parts| != 4 then None
    else
      match (ParseOctet(parts[0]), ParseOctet(parts[1]), ParseOctet(parts[2]), ParseOctet(parts[3]))
      case (Some(a), Some(b), Some(c), Some(d)) => Some(V4(FromOctets(a, b, c, d)))
      case _ => None
  }

  /** `str::parse::<IpAddr>`. */
  function ParseIp(s: string, v6: Parse): Option<IpAddr> {
    if ParseV4(s).Some? then ParseV4(s) else v6(s)
  }

  lemma ParseOfOctet(n: Octet)
    ensures ParseOctet(Decimal(n)) == Some(n) && '.' !in Decimal(n)
  {
    ValueOfDecimal(n);
    DecimalLength(n);
  }

  lemma OctetsOf(bits: Word32)
    ensures FromOctets(OctetOf(bits, 0), OctetOf(bits, 1), OctetOf(bits, 2), OctetOf(bits, 3)) == bits
  {
    assert bits / 256 == (bits / 256 / 256) * 256 + bits / 256 % 256;
    assert bits / 256 / 256 == (bits / 256 / 256 / 256) * 256 + bits / 256 / 256 % 256;
  }

  /** Parsing undoes `Display` on every IPv4 address. */
  lemma ParseOfText(bits: Word32, show: Show, v6: Parse)
    ensures ParseIp(IpText(V4(bits), show), v6) == Some(V4(bits))
  {
    var parts := DottedParts(bits);
    ParseOfOctet(OctetOf(bits, 0));
    ParseOfOctet(OctetOf(bits, 1));
    ParseOfOctet(OctetOf(bits, 2));
    ParseOfOctet(OctetOf(bits, 3));
    SplitOfJoin(parts, '.');
    OctetsOf(bits);
  }

  lemma TextOfOctet(s: string, n: Octet)
    requires ParseOctet(s) == Some(n)
    ensures s == Decimal(n)
  {
    DecimalOfValue(s);
  }

  lemma OctetsFrom(a: Octet, b: Octet, c: Octet, d: Octet)
    ensures DottedParts(FromOctets(a, b, c, d)) == [Decimal(a), Decimal(b), Decimal(c), Decimal(d)]
  {
    var bits := FromOctets(a, b, c, d);
    assert bits == ((a * 256 + b) * 256 + c) * 256 + d;
    assert bits % 256 == d && bits / 256 == (a * 256 + b) * 256 + c;
    assert bits / 256 % 256 == c && bits / 256 / 256 == a * 256 + b;
    assert bits / 256 / 256 % 256 == b && bits / 256 / 256 / 256 == a;
  }

  /** Only the text `Display` writes is read as an IPv4 address: no other digits, signs or zeros. */
  lemma TextOfParsed(s: string, ip: IpAddr, show: Show)
    requires ParseV4(s) == Some(ip)
    ensures ip.V4? && s == IpText(ip, show)
  {
    var parts := Split(s, '.');
    var a, b := ParseOctet(parts[0]).value, ParseOctet(parts[1]).value;
    var c, d := ParseOctet(parts[2]).value, ParseOctet(parts[3]).value;
    TextOfOctet(parts[0], a);
    TextOfOctet(parts[1], b);
    TextOfOctet(parts[2], c);
    TextOfOctet(parts[3], d);
    OctetsFrom(a, b, c, d);
    assert parts == [Decimal(a), Decimal(b), Decimal(c), Decimal(d)];
    JoinOfSplit(s, '.');
  }

  // ----- The header -----

  /** Words each preceded by a space, and the line end. */
  function Sentence(words: seq<string>): string {
    if words == [] then "\r\n" else " " + words[0] + Sentence(words[1..])
  }

  /** The text of the header; the protocol name is TCP4 whatever the addresses are. */
  function HeaderText(client: SocketAddr, server: SocketAddr, show: Show): string {
    "PROXY" + Sentence(Fields(client, server, show))
  }

  function Fields(client: SocketAddr, server: SocketAddr, show: Show): seq<string> {
    ["TCP4", IpText(client.ip, show), IpText(server.ip, show), Decimal(client.port), Decimal(server.port)]
  }

  /** `write_proxy_header`: what reaches the stream. */
  function Header(client: SocketAddr, server: SocketAddr, show: Show): seq<byte> {
    Utf8.Encode(HeaderText(client, server, show))
  }

  /** `parse_proxy_line`. */
  function ParseLine(line: seq<byte>, v6: Parse): Result<IpAddr> {
    match Utf8.Strict(line)
    case None => Err
    case Some(text) =>
      var parts := Words(text);
      if |parts| != 6 || parts[0] != "PROXY" then Err
      else
        match ParseIp(parts[2], v6)
        case None => Err
        case Some(ip) => Ok(ip)
  }

  /** Exactly the lines of six words that start with PROXY and have an address third are accepted. */
  lemma AcceptedLines(line: seq<byte>, v6: Parse, ip: IpAddr)
    ensures ParseLine(line, v6) == Ok(ip)
       <==> exists w0, w1, w2, w3, w4, w5 ::
              SixWords(line, [w0, w1, w2, w3, w4, w5]) && w0 == "PROXY" && ParseIp(w2, v6) == Some(ip)
  {
    if ParseLine(line, v6) == Ok(ip) {
      var w := Words(Utf8.Strict(line).value);
      assert w == [w[0], w[1], w[2], w[3], w[4], w[5]];
      assert SixWords(line, [w[0], w[1], w[2], w[3], w[4], w[5]]);
    }
  }

  ghost predicate SixWords(line: seq<byte>, words: seq<string>) {
    Utf8.Strict(line).Some? && Words(Utf8.Strict(line).value) == words
  }

  const NEWLINE: byte := 10
  const LINE_LIMIT := 257

  /** The first `end` bytes of the input are a line that is not too long. */
  ghost predicate IsLine(input: seq<byte>, end: nat) {
    && 1 <= end <= |input| && end <= LINE_LIMIT
    && input[end - 1] == NEWLINE
    && forall i :: 0 <= i < end - 1 ==> input[i] != NEWLINE
  }

  lemma OneLine(input: seq<byte>, end: nat)
    requires IsLine(input, end)
    ensures forall other: nat :: IsLine(input, other) ==> other == end
  {
    forall other: nat | IsLine(input, other)
      ensures other == end
    {
      assert input[other - 1] == NEWLINE && input[end - 1] == NEWLINE;
    }
  }

  /** `read_proxy_header`, one byte at a time; `used` is how many bytes it took off the stream. */
  method ReadProxyHeader(input: seq<byte>, v6: Parse) returns (r: Result<IpAddr>, used: nat)
    ensures used <= |input|
    ensures forall end: nat :: IsLine(input, end) ==> used == end && r == ParseLine(input[..end], v6)
    ensures (forall end: nat :: !IsLine(input, end)) ==> r == Err
  {
    var line: seq<byte> := [];
    used := 0;
    while true
      invariant used <= |input| && used < LINE_LIMIT
      invariant line == input[..used]
      invariant forall i :: 0 <= i < used ==> input[i] != NEWLINE
      decreases |input| - used
    {
      if used >= |input| {
        return Err, used;
      }
      var b := input[used];
      line := line + [b];
      used := used + 1;
      if b == NEWLINE {
        break;
      }
      if |line| > 256 {
        return Err, used;
      }
    }
    assert line == input[..used];
    OneLine(input, used);
    r := ParseLine(line, v6);
  }

  // ----- Round trip -----

  /** A non-empty run of ASCII characters other than white space. */
  ghost predicate IsWord(s: string) {
    s != "" && NoSpace(s) && forall i :: 0 <= i < |s| ==> s[i] as int < 0x80
  }

  lemma DecimalIsWord(n: nat)
    ensures IsWord(Decimal(n))
  {
    forall i | 0 <= i < |Decimal(n)|
      ensures !IsSpace(Decimal(n)[i]) && Decimal(n)[i] as int < 0x80
    {
      assert IsDigit(Decimal(n)[i]);
    }
  }

  lemma DottedIsWord(a: string, b: string)
    requires IsWord(a) && IsWord(b)
    ensures IsWord(a + "." + b)
  {
    var s := a + "." + b;
    forall i | 0 <= i < |s|
      ensures !IsSpace(s[i]) && s[i] as int < 0x80
    {
      assert i < |a| ==> s[i] == a[i];
      assert i == |a| ==> s[i] == '.';
      assert i > |a| ==> s[i] == b[i - |a| - 1];
    }
  }

  lemma {:induction false} JoinedIsWord(parts: seq<string>)
    requires parts != [] && forall i :: 0 <= i < |parts| ==> IsWord(parts[i])
    ensures IsWord(Join(parts, '.'))
    decreases |parts|
  {
    if |parts| > 1 {
      JoinedIsWord(parts[1..]);
      DottedIsWord(parts[0], Join(parts[1..], '.'));
    }
  }

  lemma AddressIsWord(bits: Word32, show: Show)
    ensures IsWord(IpText(V4(bits), show)) && |IpText(V4(bits), show)| <= 15
  {
    var parts := DottedParts(bits);
    forall i | 0 <= i < 4
      ensures IsWord(parts[i]) && |parts[i]| <= 3
    {
      DecimalIsWord(OctetOf(bits, i));
      DecimalLength(OctetOf(bits, i));
    }
    JoinedIsWord(parts);
    FourLengths(parts);
  }

  lemma FourLengths(parts: seq<string>)
    requires |parts| == 4
    ensures |Join(parts, '.')| == |parts[0]| + |parts[1]| + |parts[2]| + |parts[3]| + 3
  {
    assert parts[1..][1..][1..] == [parts[3]];
    assert |Join(parts[1..][1..], '.')| == |parts[2]| + 1 + |parts[3]|;
    assert |Join(parts[1..], '.')| == |parts[1]| + 1 + |Join(parts[1..][1..], '.')|;
  }

  lemma SkipSpace(s: string)
    requires s != "" && IsSpace(s[0])
    ensures Words(s) == Words(s[1..])
  {
  }

  lemma SentenceStarts(words: seq<string>)
    ensures Sentence(words) != "" && IsSpace(Sentence(words)[0])
  {
  }

  lemma {:induction false} WordsOfSentence(words: seq<string>)
    requires forall i :: 0 <= i < |words| ==> IsWord(words[i])
    ensures Words(Sentence(words)) == words
    decreases |words|
  {
    var s := Sentence(words);
    if words == [] {
      SkipSpace(s);
      SkipSpace(s[1..]);
      assert s[1..][1..] == "";
    } else {
      var rest := Sentence(words[1..]);
      SentenceStarts(words[1..]);
      SkipSpace(s);
      assert s[1..] == words[0] + rest;
      WordsOf(words[0], rest);
      SkipSpace(rest);
      WordsOfSentence(words[1..]);
    }
  }

  lemma {:induction false} EncodeAscii(t: string)
    requires forall i :: 0 <= i < |t| ==> t[i] as int < 0x80
    ensures |Utf8.Encode(t)| == |t| && forall i :: 0 <= i < |t| ==> Utf8.Encode(t)[i] == t[i] as int
  {
    if t != "" {
      EncodeAscii(t[1..]);
    }
  }

  /** ASCII throughout, with a newline at the end and nowhere else. */
  ghost predicate IsAsciiLine(s: string) {
    && s != "" && s[|s| - 1] == '\n'
    && (forall i :: 0 <= i < |s| ==> s[i] as int < 0x80)
    && forall i :: 0 <= i < |s| - 1 ==> s[i] != '\n'
  }

  function Lengths(words: seq<string>): nat {
    if words == [] then 0 else |words[0]| + 1 + Lengths(words[1..])
  }

  lemma PrefixedLine(w: string, s: string)
    requires IsWord(w) && IsAsciiLine(s)
    ensures IsAsciiLine(w + s) && IsAsciiLine(" " + w + s)
  {
    assert forall i :: 0 <= i < |w| ==> !IsSpace(w[i]);
    assert forall i :: 0 <= i < |w| ==> w[i] != '\n';
  }

  lemma {:induction false} SentenceShape(words: seq<string>)
    requires forall i :: 0 <= i < |words| ==> IsWord(words[i])
    ensures |Sentence(words)| == Lengths(words) + 2 && IsAsciiLine(Sentence(words))
    decreases |words|
  {
    if words != [] {
      SentenceShape(words[1..]);
      PrefixedLine(words[0], Sentence(words[1..]));
    }
  }

  lemma EncodedLine(text: string, payload: seq<byte>)
    requires IsAsciiLine(text) && |text| <= LINE_LIMIT
    ensures |Utf8.Encode(text)| == |text| && IsLine(Utf8.Encode(text) + payload, |text|)
  {
    EncodeAscii(text);
  }

  /** Any header of words short enough is read back whole, and no byte behind it is touched. */
  lemma ReadOfSentence(first: string, words: seq<string>, payload: seq<byte>)
    requires IsWord(first) && forall i :: 0 <= i < |words| ==> IsWord(words[i])
    requires |first| + Lengths(words) + 2 <= LINE_LIMIT
    ensures var bytes := Utf8.Encode(first + Sentence(words));
            && |bytes| == |first| + Lengths(words) + 2
            && IsLine(bytes + payload, |bytes|)
            && Utf8.Strict((bytes + payload)[..|bytes|]) == Some(first + Sentence(words))
            && Words(first + Sentence(words)) == [first] + words
  {
    var text := first + Sentence(words);
    SentenceShape(words);
    PrefixedLine(first, Sentence(words));
    EncodedLine(text, payload);
    var bytes := Utf8.Encode(text);
    assert (bytes + payload)[..|bytes|] == bytes;
    Utf8.DecodeEncode(text);
    WordsOfHeader(first, words);
  }

  lemma WordsOfHeader(first: string, words: seq<string>)
    requires IsWord(first) && forall i :: 0 <= i < |words| ==> IsWord(words[i])
    ensures Words(first + Sentence(words)) == [first] + words
  {
    SentenceStarts(words);
    WordsOf(first, Sentence(words));
    SkipSpace(Sentence(words));
    WordsOfSentence(words);
  }

  /** The header has the six fields of section 2.1 of the PROXY protocol, in their order. */
  lemma HeaderWords(client: SocketAddr, server: SocketAddr, show: Show)
    requires client.ip.V4? && server.ip.V4?
    ensures Utf8.Strict(Header(client, server, show)) == Some(HeaderText(client, server, show))
    ensures var words := Words(HeaderText(client, server, show));
            && |words| == 6 && words[0] == "PROXY" && words[1] == "TCP4"
            && ParseV4(words[2]) == Some(client.ip) && ParseV4(words[3]) == Some(server.ip)
            && words[4] == Decimal(client.port) && words[5] == Decimal(server.port)
  {
    var words := Fields(client, server, show);
    FieldsAreWords(client, server, show);
    WordsOfHeader("PROXY", words);
    Utf8.DecodeEncode(HeaderText(client, server, show));
    ParseOfText(client.ip.bits, show, _ => None);
    ParseOfText(server.ip.bits, show, _ => None);
  }

  lemma FieldsAreWords(client: SocketAddr, server: SocketAddr, show: Show)
    requires client.ip.V4? && server.ip.V4?
    ensures var words := Fields(client, server, show);
            (forall i :: 0 <= i < |words| ==> IsWord(words[i])) && Lengths(words) <= 49
  {
    AddressIsWord(client.ip.bits, show);
    AddressIsWord(server.ip.bits, show);
    DecimalIsWord(client.port);
    DecimalIsWord(server.port);
    DecimalLength(client.port);
    DecimalLength(server.port);
    FiveLengths(Fields(client, server, show));
  }

  lemma FiveLengths(words: seq<string>)
    requires |words| == 5
    ensures Lengths(words) == |words[0]| + |words[1]| + |words[2]| + |words[3]| + |words[4]| + 5
  {
    assert Lengths(words[1..]) == |words[1]| + 1 + Lengths(words[2..]) by { assert words[1..][1..] == words[2..]; }
    assert Lengths(words[2..]) == |words[2]| + 1 + Lengths(words[3..]) by { assert words[2..][1..] == words[3..]; }
    assert Lengths(words[3..]) == |words[3]| + 1 + Lengths(words[4..]) by { assert words[3..][1..] == words[4..]; }
    assert Lengths(words[4..]) == |words[4]| + 1 by { assert words[4..][1..] == []; }
  }

  /**
   For every IPv4 client and server and any payload, reading the written header gives the client's
   address and takes exactly the header off the stream, which is at most 56 bytes long.
   */
  lemma HeaderRoundTrip(client: SocketAddr, server: SocketAddr, payload: seq<byte>, show: Show, v6: Parse)
    requires client.ip.V4? && server.ip.V4?
    ensures var header := Header(client, server, show);
            && |header| <= 56
            && IsLine(header + payload, |header|)
            && ParseLine((header + payload)[..|header|], v6) == Ok(client.ip)
  {
    FieldsAreWords(client, server, show);
    ReadOfFields(Fields(client, server, show), payload, v6);
    ParseOfText(client.ip.bits, show, v6);
  }

  /** Five words behind the first are read back whole, and the second of them is the address. */
  lemma ReadOfFields(words: seq<string>, payload: seq<byte>, v6: Parse)
    requires |words| == 5 && forall i :: 0 <= i < |words| ==> IsWord(words[i])
    requires Lengths(words) + 7 <= LINE_LIMIT
    ensures var bytes := Utf8.Encode("PROXY" + Sentence(words));
            && |bytes| == Lengths(words) + 7
            && IsLine(bytes + payload, |bytes|)
            && ParseLine((bytes + payload)[..|bytes|], v6)
               == match ParseIp(words[1], v6) case None => Err case Some(ip) => Ok(ip)
  {
    ReadOfSentence("PROXY", words, payload);
    var bytes := Utf8.Encode("PROXY" + Sentence(words));
    ParsedLine((bytes + payload)[..|bytes|], words, v6);
  }

  lemma ParsedLine(line: seq<byte>, words: seq<string>, v6: Parse)
    requires Utf8.Strict(line).Some? && Words(Utf8.Strict(line).value) == ["PROXY"] + words && |words| == 5
    ensures ParseLine(line, v6) == match ParseIp(words[1], v6) case None => Err case Some(ip) => Ok(ip)
  {
    assert (["PROXY"] + words)[2] == words[1];
  }
}
