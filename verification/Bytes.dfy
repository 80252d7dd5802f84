/** Bytes and the big-endian numbers the wire formats use. */
module Bytes {

  type byte = x: int | 0 <= x < 256

  /** A 16-bit number from its two bytes, most significant first. */
  function U16(hi: byte, lo: byte): (n: nat)
    ensures n < 0x1_0000
  {
    hi * 256 + lo
  }

  /** The first byte weighs more than the second. */
  lemma HighByteFirst(a: byte, b: byte, c: byte, d: byte)
    ensures a < c ==> U16(a, b) < U16(c, d)
    ensures U16(0, b) == b
  {
  }

  function U16Bytes(n: nat): (s: seq<byte>)
    requires n < 0x1_0000
    ensures |s| == 2 && U16(s[0], s[1]) == n
  {
    [n / 256, n % 256]
  }
}
