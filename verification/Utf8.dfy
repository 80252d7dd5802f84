/**
 UTF-8 as the Rust standard library reads it: strict decoding fails on any malformed byte sequence,
 lossy decoding puts U+FFFD in place of each maximal malformed piece. Well-formed sequences are those
 of table 3-7 of the Unicode standard.
 */
module Utf8 {
  import opened Options
  import opened Bytes

  const REPLACEMENT: char := '\U{FFFD}'

  /** The next piece of a byte sequence: a character, or a malformed piece, and its length. */
  datatype Piece = Good(c: char, len: nat) | Bad(len: nat)

  predicate Continues(s: seq<byte>, i: nat) {
    i < |s| && 0x80 <= s[i] < 0xC0
  }

  /** Whether the second byte suits the first of a three- or four-byte sequence. */
  predicate SecondOk(s: seq<byte>)
    requires s != []
  {
    && Continues(s, 1)
    && (s[0] == 0xE0 ==> s[1] >= 0xA0)
    && (s[0] == 0xED ==> s[1] <= 0x9F)
    && (s[0] == 0xF0 ==> s[1] >= 0x90)
    && (s[0] == 0xF4 ==> s[1] <= 0x8F)
  }

  /** A code point from its digits to base 64. */
  function Scalar(d3: int, d2: int, d1: int, d0: int): int {
    d3 * 262144 + d2 * 4096 + d1 * 64 + d0
  }

  function Next(s: seq<byte>): (p: Piece)
    requires s != []
    ensures 1 <= p.len <= |s|
    ensures forall i :: 1 <= i < p.len ==> s[i] >= 0x80
  {
    var b := s[0];
    if b < 0x80 then Good(b as char, 1)
    else if 0xC2 <= b <= 0xDF then
      if Continues(s, 1) then Good(Scalar(0, 0, b - 0xC0, s[1] - 0x80) as char, 2) else Bad(1)
    else if 0xE0 <= b <= 0xEF then
      if !SecondOk(s) then Bad(1)
      else if !Continues(s, 2) then Bad(2)
      else Good(Scalar(0, b - 0xE0, s[1] - 0x80, s[2] - 0x80) as char, 3)
    else if 0xF0 <= b <= 0xF4 then
      if !SecondOk(s) then Bad(1)
      else if !Continues(s, 2) then Bad(2)
      else if !Continues(s, 3) then Bad(3)
      else Good(Scalar(b - 0xF0, s[1] - 0x80, s[2] - 0x80, s[3] - 0x80) as char, 4)
    else Bad(1)
  }

  /** `String::from_utf8_lossy`. */
  function Lossy(s: seq<byte>): string {
    if s == [] then ""
    else
      match Next(s)
      case Good(c, n) => [c] + Lossy(s[n..])
      case Bad(n) => [REPLACEMENT] + Lossy(s[n..])
  }

  /** `std::str::from_utf8` and `String::from_utf8`. */
  function Strict(s: seq<byte>): Option<string> {
    if s == [] then Some("")
    else
      match Next(s)
      case Bad(_) => None
      case Good(c, n) =>
        match Strict(s[n..])
        case None => None
        case Some(t) => Some([c] + t)
  }

  function EncodeChar(c: char): (s: seq<byte>)
    ensures 1 <= |s| <= 4
  {
    var n := c as int;
    if n < 0x80 then [n]
    else if n < 0x800 then [0xC0 + n / 64, 0x80 + n % 64]
    else if n < 0x1_0000 then [0xE0 + n / 4096, 0x80 + n / 64 % 64, 0x80 + n % 64]
    else [0xF0 + n / 262144, 0x80 + n / 4096 % 64, 0x80 + n / 64 % 64, 0x80 + n % 64]
  }

  function Encode(t: string): seq<byte> {
    if t == "" then [] else EncodeChar(t[0]) + Encode(t[1..])
  }

  lemma NextOfTwo(c: char, s: seq<byte>)
    requires 0x80 <= c as int < 0x800 && |s| >= 2
    requires s[0] == 0xC0 + c as int / 64 && s[1] == 0x80 + c as int % 64
    ensures Next(s) == Good(c, 2)
  {
  }

  lemma NextOfThree(c: char, s: seq<byte>)
    requires 0x800 <= c as int < 0x1_0000 && |s| >= 3
    requires s[0] == 0xE0 + c as int / 4096 && s[1] == 0x80 + c as int / 64 % 64 && s[2] == 0x80 + c as int % 64
    ensures Next(s) == Good(c, 3)
  {
    var n := c as int;
    assert Scalar(0, n / 4096, n / 64 % 64, n % 64) == n;
  }

  lemma NextOfFour(c: char, s: seq<byte>)
    requires 0x1_0000 <= c as int && |s| >= 4
    requires s[0] == 0xF0 + c as int / 262144 && s[1] == 0x80 + c as int / 4096 % 64
    requires s[2] == 0x80 + c as int / 64 % 64 && s[3] == 0x80 + c as int % 64
    ensures Next(s) == Good(c, 4)
  {
    FourDigits(c as int);
  }

  lemma FourDigits(n: int)
    requires 0x1_0000 <= n < 0x11_0000
    ensures Scalar(n / 262144, n / 4096 % 64, n / 64 % 64, n % 64) == n && n / 262144 <= 4
    ensures n / 262144 == 0 ==> n / 4096 % 64 >= 16
    ensures n / 262144 == 4 ==> n / 4096 % 64 <= 15
  {
    var a := n / 64;
    var b := a / 64;
    assert b == n / 4096 && b / 64 == n / 262144;
  }

  lemma NextOfEncoded(c: char, rest: seq<byte>)
    ensures Next(EncodeChar(c) + rest) == Good(c, |EncodeChar(c)|)
  {
    var e := EncodeChar(c);
    var s := e + rest;
    assert forall i :: 0 <= i < |e| ==> s[i] == e[i];
    match |e|
    case 2 => NextOfTwo(c, s);
    case 3 => NextOfThree(c, s);
    case 4 => NextOfFour(c, s);
    case _ =>
  }

  /** Both decoders invert the encoding of every text. */
  lemma {:induction false} DecodeEncode(t: string)
    ensures Strict(Encode(t)) == Some(t)
    ensures Lossy(Encode(t)) == t
  {
    if t != "" {
      NextOfEncoded(t[0], Encode(t[1..]));
      assert Encode(t)[|EncodeChar(t[0])|..] == Encode(t[1..]);
      DecodeEncode(t[1..]);
      assert t == [t[0]] + t[1..];
    }
  }

  /** Where strict decoding succeeds, lossy decoding gives the same text. */
  lemma {:induction false} LossyOfValid(s: seq<byte>)
    requires Strict(s).Some?
    ensures Lossy(s) == Strict(s).value
  {
    if s != [] { LossyOfValid(s[Next(s).len..]); }
  }

  lemma {:induction false} EncodeConcat(a: string, b: string)
    ensures Encode(a + b) == Encode(a) + Encode(b)
  {
    if a == "" {
      assert a + b == b;
    } else {
      assert (a + b)[1..] == a[1..] + b;
      EncodeConcat(a[1..], b);
    }
  }

  lemma Digits(d3: int, d2: int, d1: int, d0: int)
    requires 0 <= d3 < 64 && 0 <= d2 < 64 && 0 <= d1 < 64 && 0 <= d0 < 64
    ensures var n := Scalar(d3, d2, d1, d0);
            && n % 64 == d0 && n / 64 == d3 * 4096 + d2 * 64 + d1 && n / 64 % 64 == d1
            && n / 4096 == d3 * 64 + d2 && n / 4096 % 64 == d2 && n / 262144 == d3
  {
  }

  lemma EncodeOfNext(s: seq<byte>)
    requires s != [] && Next(s).Good?
    ensures EncodeChar(Next(s).c) == s[..Next(s).len]
  {
    var n := Next(s).len;
    if n == 2 {
      Digits(0, 0, s[0] - 0xC0, s[1] - 0x80);
    } else if n == 3 {
      Digits(0, s[0] - 0xE0, s[1] - 0x80, s[2] - 0x80);
    } else if n == 4 {
      Digits(s[0] - 0xF0, s[1] - 0x80, s[2] - 0x80, s[3] - 0x80);
    }
  }

  /** Strict decoding loses nothing: encoding gives the bytes back. */
  lemma {:induction false} EncodeDecode(s: seq<byte>)
    requires Strict(s).Some?
    ensures Encode(Strict(s).value) == s
  {
    if s != [] {
      var n := Next(s).len;
      EncodeOfNext(s);
      EncodeDecode(s[n..]);
      var t := Strict(s).value;
      assert t[1..] == Strict(s[n..]).value;
      assert s == s[..n] + s[n..];
    }
  }

  /** Malformed bytes leave a replacement character. */
  lemma {:induction false} MalformedShows(s: seq<byte>)
    requires Strict(s).None?
    ensures REPLACEMENT in Lossy(s)
  {
    if Next(s).Good? { MalformedShows(s[Next(s).len..]); }
  }

  lemma NextOfGood(s: seq<byte>, t: seq<byte>)
    requires s != [] && Next(s).Good?
    ensures Next(s[..Next(s).len] + t) == Next(s)
  {
    var n := Next(s).len;
    var u := s[..n] + t;
    assert forall i :: 0 <= i < n ==> u[i] == s[i];
  }

  /** Other bytes, no more of them, with the same reading. */
  ghost predicate ReadsLike(t: seq<byte>, s: seq<byte>) {
    t != s && t != [] && |t| <= |s| && Lossy(t) == Lossy(s)
  }

  lemma ReplacedPiece(s: seq<byte>)
    requires s != [] && (Next(s).Bad? || Next(s).c == REPLACEMENT)
    ensures exists t :: ReadsLike(t, s)
  {
    var b: byte := if s[0] == 0xFF then 0xFE else 0xFF;
    var rest := s[Next(s).len..];
    var t := [b] + rest;
    assert Next(t) == Bad(1) && t[1..] == rest;
    assert t[0] != s[0];
    assert ReadsLike(t, s);
  }

  lemma KeptPiece(s: seq<byte>, u: seq<byte>)
    requires s != [] && Next(s).Good? && ReadsLike(u, s[Next(s).len..])
    ensures ReadsLike(s[..Next(s).len] + u, s)
  {
    var n := Next(s).len;
    var t := s[..n] + u;
    NextOfGood(s, u);
    assert t[n..] == u;
  }

  /** A text with a replacement character is the reading of other bytes too, no more of them. */
  lemma {:induction false} ReplacedIsAmbiguous(s: seq<byte>)
    requires REPLACEMENT in Lossy(s)
    ensures exists t :: ReadsLike(t, s)
    decreases |s|
  {
    var p := Next(s);
    if p.Bad? || p.c == REPLACEMENT {
      ReplacedPiece(s);
    } else {
      ReplacedIsAmbiguous(s[p.len..]);
      var u :| ReadsLike(u, s[p.len..]);
      KeptPiece(s, u);
    }
  }

  /** A piece never reaches across an ASCII byte. */
  lemma NextIsLocal(a: seq<byte>, x: byte, b: seq<byte>)
    requires a != [] && x < 0x80
    ensures Next(a + [x] + b) == Next(a)
  {
    var s := a + [x] + b;
    assert forall i :: 0 <= i < |a| ==> s[i] == a[i];
    assert s[|a|] == x;
  }

  /** Decoding splits at any ASCII byte. */
  lemma {:induction false} LossyAround(a: seq<byte>, x: byte, b: seq<byte>)
    requires x < 0x80
    ensures Lossy(a + [x] + b) == Lossy(a) + [x as char] + Lossy(b)
    decreases |a|
  {
    var s := a + [x] + b;
    if a == [] {
      assert s == [x] + b && s[1..] == b;
    } else {
      NextIsLocal(a, x, b);
      var n := Next(a).len;
      assert s[n..] == a[n..] + [x] + b;
      LossyAround(a[n..], x, b);
    }
  }

  lemma LossyConcat(a: seq<byte>, b: seq<byte>)
    requires a == [] || a[|a| - 1] < 0x80
    ensures Lossy(a + b) == Lossy(a) + Lossy(b)
  {
    if a == [] {
      assert a + b == b;
    } else {
      var front, x := a[..|a| - 1], a[|a| - 1];
      assert a == front + [x];
      LossyAround(front, x, b);
      LossyAround(front, x, []);
      assert front + [x] + [] == front + [x];
      assert Lossy(front) + [x as char] + "" == Lossy(front) + [x as char];
    }
  }

  function Ascii(s: seq<byte>): string
    requires forall i :: 0 <= i < |s| ==> s[i] < 0x80
  {
    if s == [] then "" else [s[0] as char] + Ascii(s[1..])
  }

  lemma {:induction false} DecodeAscii(s: seq<byte>)
    requires forall i :: 0 <= i < |s| ==> s[i] < 0x80
    ensures Lossy(s) == Ascii(s) && Strict(s) == Some(Ascii(s))
  {
    if s != [] { DecodeAscii(s[1..]); }
  }
}
