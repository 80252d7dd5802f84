/**
 The DNS proxy's view of a packet: the question it reports to the authorizer, the REFUSED answer it
 builds, and the length-prefixed framing of DNS over TCP (sections 3.1, 4.1.1, 4.1.2 and 4.2.2 of
 RFC 1035).
 */
module Dns {
  import opened Options
  import opened Bytes
  import opened Text
  import opened Utf8

  // ----- The question -----

  function TypeName(qtype: nat): string {
    match qtype
    case 1 => "A"
    case 2 => "NS"
    case 5 => "CNAME"
    case 6 => "SOA"
    case 15 => "MX"
    case 16 => "TXT"
    case 28 => "AAAA"
    case 33 => "SRV"
    case 255 => "ANY"
    case _ => "OTHER"
  }

  /** The code of each type that has a name (section 3.2.2 of RFC 1035 and its successors). */
  function TypeCode(name: string): Option<nat> {
    match name
    case "A" => Some(1)
    case "NS" => Some(2)
    case "CNAME" => Some(5)
    case "SOA" => Some(6)
    case "MX" => Some(15)
    case "TXT" => Some(16)
    case "AAAA" => Some(28)
    case "SRV" => Some(33)
    case "ANY" => Some(255)
    case _ => None
  }

  /** A reported type names one code, or is OTHER. */
  lemma TypeNameIdentifies(qtype: nat)
    ensures TypeCode(TypeName(qtype)) == if TypeName(qtype) == "OTHER" then None else Some(qtype)
    ensures forall name: string :: TypeCode(name) == Some(qtype) ==> TypeName(qtype) == name
  {
  }

  /** Labels already read, in front of what is read next. */
  function Prepend(labels: seq<string>, r: Option<(seq<string>, nat)>): Option<(seq<string>, nat)> {
    match r
    case None => None
    case Some((more, end)) => Some((labels + more, end))
  }

  /** The labels of the name at `pos` and the position behind it; a length above 63 is not special. */
  function ParseName(packet: seq<byte>, pos: nat): (r: Option<(seq<string>, nat)>)
    requires pos <= |packet|
    ensures r.Some? ==> pos < r.value.1 <= |packet|
    decreases |packet| - pos
  {
    if pos == |packet| then None
    else
      var n := packet[pos];
      if n == 0 then Some(([], pos + 1))
      else if pos + 1 + n > |packet| then None
      else Prepend([Lossy(packet[pos + 1..pos + 1 + n])], ParseName(packet, pos + 1 + n))
  }

  function ParseQuestion(packet: seq<byte>): Option<(string, string)> {
    if |packet| < 12 || U16(packet[4], packet[5]) == 0 then None
    else
      match ParseName(packet, 12)
      case None => None
      case Some((labels, end)) =>
        Some((Join(labels, '.'), if end + 2 > |packet| then "unknown" else TypeName(U16(packet[end], packet[end + 1]))))
  }

  lemma PrependOne(labels: seq<string>, text: string, r: Option<(seq<string>, nat)>)
    ensures Prepend(labels, Prepend([text], r)) == Prepend(labels + [text], r)
    ensures Prepend([], r) == r
  {
    if r.Some? {
      assert labels + ([text] + r.value.0) == (labels + [text]) + r.value.0;
      assert [] + r.value.0 == r.value.0;
    }
  }

  /** Reads the name at `start`: its labels and the position behind it. */
  method ReadName(packet: seq<byte>, start: nat) returns (r: Option<(seq<string>, nat)>)
    requires start <= |packet|
    ensures r == ParseName(packet, start)
  {
    var pos := start;
    var labels: seq<string> := [];
    PrependOne([], "", ParseName(packet, start));
    while true
      invariant start <= pos <= |packet|
      invariant ParseName(packet, start) == Prepend(labels, ParseName(packet, pos))
      decreases |packet| - pos
    {
      if pos >= |packet| {
        return None;
      }
      var labelLen := packet[pos];
      if labelLen == 0 {
        assert labels + [] == labels;
        return Some((labels, pos + 1));
      }
      pos := pos + 1;
      if pos + labelLen > |packet| {
        return None;
      }
      var text := Lossy(packet[pos..pos + labelLen]);
      PrependOne(labels, text, ParseName(packet, pos + labelLen));
      labels := labels + [text];
      pos := pos + labelLen;
    }
  }

  /** `parse_dns_question`: total and in range on every byte sequence. */
  method ParseDnsQuestion(packet: seq<byte>) returns (r: Option<(string, string)>)
    ensures r == ParseQuestion(packet)
  {
    if |packet| < 12 {
      return None;
    }
    var qdcount := U16(packet[4], packet[5]);
    if qdcount == 0 {
      return None;
    }
    var name := ReadName(packet, 12);
    if name.None? {
      return None;
    }
    var (labels, pos) := name.value;
    if pos + 2 > |packet| {
      return Some((Join(labels, '.'), "unknown"));
    }
    return Some((Join(labels, '.'), TypeName(U16(packet[pos], packet[pos + 1]))));
  }

  // ----- Encoding a question -----

  ghost predicate LabelOk(bytes: seq<byte>) {
    1 <= |bytes| <= 255
  }

  function EncodeName(labels: seq<seq<byte>>): seq<byte>
    requires forall i :: 0 <= i < |labels| ==> LabelOk(labels[i])
  {
    if labels == [] then [0] else
      assert LabelOk(labels[0]);
      var size: byte := |labels[0]|;
      [size] + labels[0] + EncodeName(labels[1..])
  }

  function Texts(labels: seq<seq<byte>>): (r: seq<string>)
    ensures |r| == |labels| && forall i :: 0 <= i < |r| ==> r[i] == Lossy(labels[i])
  {
    if labels == [] then [] else [Lossy(labels[0])] + Texts(labels[1..])
  }

  /** The name reported for labels. */
  function Reported(labels: seq<seq<byte>>): string {
    Join(Texts(labels), '.')
  }

  lemma {:induction false} ParseOfName(packet: seq<byte>, pos: nat, labels: seq<seq<byte>>)
    requires forall i :: 0 <= i < |labels| ==> LabelOk(labels[i])
    requires pos <= |packet| && EncodeName(labels) <= packet[pos..]
    ensures ParseName(packet, pos) == Some((Texts(labels), pos + |EncodeName(labels)|))
    decreases |labels|
  {
    var s := EncodeName(labels);
    assert packet[pos] == s[0];
    if labels != [] {
      assert LabelOk(labels[0]);
      var n: byte := |labels[0]|;
      NameSplits(packet, pos, n, labels);
      ParseOfName(packet, pos + 1 + n, labels[1..]);
    }
  }

  lemma NameSplits(packet: seq<byte>, pos: nat, n: byte, labels: seq<seq<byte>>)
    requires forall i :: 0 <= i < |labels| ==> LabelOk(labels[i])
    requires labels != [] && n == |labels[0]| && pos <= |packet| && EncodeName(labels) <= packet[pos..]
    ensures pos + 1 + n <= |packet| && packet[pos] == n && packet[pos + 1..pos + 1 + n] == labels[0]
    ensures EncodeName(labels[1..]) <= packet[pos + 1 + n..]
    ensures |EncodeName(labels)| == 1 + n + |EncodeName(labels[1..])|
  {
    var s := EncodeName(labels);
    assert s == [n] + labels[0] + EncodeName(labels[1..]);
    assert forall i :: 0 <= i < |s| ==> packet[pos + i] == s[i];
    assert forall i :: 0 <= i < n ==> s[1 + i] == labels[0][i];
    assert forall i :: 0 <= i < |EncodeName(labels[1..])| ==> s[1 + n + i] == EncodeName(labels[1..])[i];
  }

  /** The parser inverts the encoding of any labels and type, under any header that has a question. */
  lemma ParseOfQuestion(header: seq<byte>, labels: seq<seq<byte>>, qtype: nat, rest: seq<byte>)
    requires |header| == 12 && U16(header[4], header[5]) != 0 && qtype < 0x1_0000
    requires forall i :: 0 <= i < |labels| ==> LabelOk(labels[i])
    ensures ParseQuestion(header + EncodeName(labels) + U16Bytes(qtype) + rest)
         == Some((Reported(labels), TypeName(qtype)))
  {
    QuestionLayout(header, EncodeName(labels), U16Bytes(qtype), rest);
    ParseOfPacket(header + EncodeName(labels) + U16Bytes(qtype) + rest, labels, qtype);
  }

  /** Without a header, or with a header that counts no question, there is none. */
  lemma NoQuestion(packet: seq<byte>)
    requires |packet| < 12 || (packet[4] == 0 && packet[5] == 0)
    ensures ParseQuestion(packet) == None
  {
  }

  /** A packet cut inside the name has no question; one cut inside the type has one of unknown type. */
  lemma {:induction false} NameCut(packet: seq<byte>, pos: nat, labels: seq<seq<byte>>)
    requires forall i :: 0 <= i < |labels| ==> LabelOk(labels[i])
    requires pos <= |packet| && packet[pos..] < EncodeName(labels)
    ensures ParseName(packet, pos) == None
    decreases |labels|
  {
    var s := EncodeName(labels);
    if pos < |packet| {
      assert packet[pos] == s[0];
      assert labels != [];
      assert LabelOk(labels[0]);
      var n: byte := |labels[0]|;
      assert s == [n] + labels[0] + EncodeName(labels[1..]);
      if pos + 1 + n <= |packet| {
        assert packet[pos + 1 + n..] == packet[pos..][1 + n..];
        assert s[1 + n..] == EncodeName(labels[1..]);
        NameCut(packet, pos + 1 + n, labels[1..]);
      }
    }
  }

  lemma QuestionCut(packet: seq<byte>, labels: seq<seq<byte>>)
    requires forall i :: 0 <= i < |labels| ==> LabelOk(labels[i])
    requires |packet| >= 12 && U16(packet[4], packet[5]) != 0
    ensures packet[12..] < EncodeName(labels) ==> ParseQuestion(packet) == None
    ensures EncodeName(labels) <= packet[12..] && |packet| < 14 + |EncodeName(labels)| ==>
              ParseQuestion(packet) == Some((Reported(labels), "unknown"))
  {
    if packet[12..] < EncodeName(labels) {
      NameCut(packet, 12, labels);
    } else if EncodeName(labels) <= packet[12..] && |packet| < 14 + |EncodeName(labels)| {
      ParseOfName(packet, 12, labels);
    }
  }

  lemma QuestionLayout(header: seq<byte>, name: seq<byte>, code: seq<byte>, rest: seq<byte>)
    requires |header| == 12 && |code| == 2
    ensures var packet := header + name + code + rest;
            && packet[4] == header[4] && packet[5] == header[5] && name <= packet[12..]
            && packet[12 + |name|] == code[0] && packet[13 + |name|] == code[1]
  {
  }

  /** Any packet whose question starts with the encoded labels and type. */
  lemma ParseOfPacket(packet: seq<byte>, labels: seq<seq<byte>>, qtype: nat)
    requires forall i :: 0 <= i < |labels| ==> LabelOk(labels[i])
    requires |packet| >= 14 + |EncodeName(labels)| && U16(packet[4], packet[5]) != 0
    requires EncodeName(labels) <= packet[12..]
    requires U16(packet[12 + |EncodeName(labels)|], packet[13 + |EncodeName(labels)|]) == qtype
    ensures ParseQuestion(packet) == Some((Reported(labels), TypeName(qtype)))
  {
    ParseOfName(packet, 12, labels);
    QuestionOf(packet, Texts(labels), 12 + |EncodeName(labels)|);
  }

  lemma QuestionOf(packet: seq<byte>, labels: seq<string>, end: nat)
    requires |packet| >= 12 && U16(packet[4], packet[5]) != 0
    requires end + 2 <= |packet| && ParseName(packet, 12) == Some((labels, end))
    ensures ParseQuestion(packet) == Some((Join(labels, '.'), TypeName(U16(packet[end], packet[end + 1]))))
  {
  }

  // ----- The REFUSED answer -----

  /** QR set and TC cleared. */
  function ResponseFlags(b: byte): byte {
    ((b as bv8 | 0x80) & 0xFD) as int
  }

  function RefusedCode(b: byte): byte {
    ((b as bv8 & 0xF0) | 0x05) as int
  }

  function Refused(query: seq<byte>): seq<byte> {
    if |query| < 12 then []
    else query[..2] + [ResponseFlags(query[2]), RefusedCode(query[3])] + query[4..6] + [0, 0, 0, 0, 0, 0] + query[12..]
  }

  /** Builds the answer in place on a copy of the query. */
  method BuildRefusedResponse(query: seq<byte>) returns (resp: seq<byte>)
    ensures resp == Refused(query)
  {
    if |query| < 12 {
      return [];
    }
    var r := new byte[|query|](i requires 0 <= i < |query| => query[i]);
    r[2] := ResponseFlags(r[2]);
    r[3] := RefusedCode(r[3]);
    for i := 6 to 12
      invariant forall j :: 0 <= j < |query| ==>
                  r[j] == if j == 2 then ResponseFlags(query[2]) else if j == 3 then RefusedCode(query[3])
                          else if 6 <= j < i then 0 else query[j]
    {
      r[i] := 0;
    }
    resp := r[..];
  }

  /** A name depends on the bytes from its position on. */
  lemma {:induction false} SameName(a: seq<byte>, b: seq<byte>, pos: nat)
    requires |a| == |b| && pos <= |a| && forall i :: pos <= i < |a| ==> a[i] == b[i]
    ensures ParseName(a, pos) == ParseName(b, pos)
    decreases |a| - pos
  {
    if pos < |a| && a[pos] != 0 && pos + 1 + a[pos] <= |a| {
      var n := a[pos];
      assert a[pos + 1..pos + 1 + n] == b[pos + 1..pos + 1 + n];
      SameName(a, b, pos + 1 + n);
    }
  }

  /** The answer is a refusal of the same question: same id, question and tail, no records. */
  lemma RefusalKeepsQuestion(query: seq<byte>)
    ensures ParseQuestion(Refused(query)) == ParseQuestion(query)
    ensures |Refused(query)| == if |query| < 12 then 0 else |query|
    ensures |query| >= 12 ==>
              forall i :: 0 <= i < |query| ==>
                            if 6 <= i < 12 then Refused(query)[i] == 0
                            else i == 2 || i == 3 || Refused(query)[i] == query[i]
  {
    if |query| >= 12 {
      SameName(Refused(query), query, 12);
    }
  }

  lemma FlagsTwice(b: byte)
    ensures ResponseFlags(ResponseFlags(b)) == ResponseFlags(b)
    ensures RefusedCode(RefusedCode(b)) == RefusedCode(b)
  {
    BackToBits((b as bv8 | 0x80) & 0xFD);
    BackToBits((b as bv8 & 0xF0) | 0x05);
  }

  lemma BackToBits(x: bv8)
    ensures (x as int) as bv8 == x
  {
  }

  lemma RefusalIsIdempotent(query: seq<byte>)
    ensures Refused(Refused(query)) == Refused(query)
  {
    if |query| >= 12 {
      FlagsTwice(query[2]);
      FlagsTwice(query[3]);
      var r := Refused(query);
      assert r[..2] == query[..2] && r[4..6] == query[4..6] && r[12..] == query[12..];
    }
  }

  lemma FlagBits(b: byte)
    ensures ResponseFlags(b) as bv8 & 0x80 == 0x80 && ResponseFlags(b) as bv8 & 0x02 == 0
    ensures ResponseFlags(b) as bv8 & 0x7D == b as bv8 & 0x7D
  {
    BackToBits((b as bv8 | 0x80) & 0xFD);
  }

  lemma CodeBits(b: byte)
    ensures RefusedCode(b) as bv8 & 0x0F == 5 && RefusedCode(b) as bv8 & 0xF0 == b as bv8 & 0xF0
  {
    BackToBits((b as bv8 & 0xF0) | 0x05);
  }

  /**
   The refusal is marked as a response with code 5. The mask clears the truncation bit, 0x02; the
   other bits, the authoritative-answer bit 0x04 among them, keep the value the query gave them.
   */
  lemma RefusalFlags(query: seq<byte>, r: seq<byte>)
    requires |query| >= 12 && r == Refused(query)
    ensures r[2] as bv8 & 0x80 == 0x80 && r[2] as bv8 & 0x02 == 0 && r[3] as bv8 & 0x0F == 5
    ensures r[2] as bv8 & 0x7D == query[2] as bv8 & 0x7D && r[3] as bv8 & 0xF0 == query[3] as bv8 & 0xF0
  {
    assert r[2] == ResponseFlags(query[2]) && r[3] == RefusedCode(query[3]);
    FlagBits(query[2]);
    CodeBits(query[3]);
  }

  lemma AuthorityBit(b: byte)
    ensures ResponseFlags(b) as bv8 & 0x04 == b as bv8 & 0x04
  {
    BackToBits((b as bv8 | 0x80) & 0xFD);
  }

  /** The authoritative-answer bit of a refusal is clear exactly when it was clear in the query. */
  lemma RefusalClearsAuthorityIff(query: seq<byte>, r: seq<byte>)
    requires |query| >= 12 && r == Refused(query)
    ensures r[2] as bv8 & 0x04 == 0 <==> query[2] as bv8 & 0x04 == 0
  {
    assert r[2] == ResponseFlags(query[2]);
    AuthorityBit(query[2]);
  }

  /** A query with the bit set: flags 0x0400 are answered with 0x8405. */
  lemma RefusalWithAuthority()
    ensures Refused([0, 1, 0x04, 0, 0, 0, 0, 0, 0, 0, 0, 0]) == [0, 1, 0x84, 0x05, 0, 0, 0, 0, 0, 0, 0, 0]
  {
    var query: seq<byte> := [0, 1, 0x04, 0, 0, 0, 0, 0, 0, 0, 0, 0];
    assert ResponseFlags(0x04) == 0x84 && RefusedCode(0) == 0x05;
    assert query[..2] == [0, 1] && query[4..6] == [0, 0] && query[12..] == [];
  }
}
