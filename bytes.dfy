/** Bytes and the 16-bit unsigned integers the envelope's length field holds. */
module Bytes {

  newtype byte = x: int | 0 <= x < 256

  type Bytes = seq<byte>

  const Two16: nat := 0x1_0000

  /** ECMAScript's ToUint16 conversion (applied when a number is stored in
      a Uint16Array) for a non-negative integer. */
  function ToUint16(n: nat): (r: nat)
    ensures r < Two16
    ensures n < Two16 <==> r == n
    ensures exists q: nat {:trigger q * Two16} :: n == q * Two16 + r
  {
    var q := n / Two16;
    assert n == q * Two16 + n % Two16;
    n % Two16
  }

  /** The two bytes of a 16-bit value in little-endian order, the byte
      order of a Uint16Array element on the platforms the code runs on. */
  function Uint16ToBytes(v: nat): (r: Bytes)
    requires v < Two16
    ensures |r| == 2
    ensures Uint16FromBytes(r[0], r[1]) == v
  {
    [(v % 256) as byte, (v / 256) as byte]
  }

  /** The 16-bit value of a little-endian pair of bytes. */
  function Uint16FromBytes(lo: byte, hi: byte): (v: nat)
    ensures v < Two16
  {
    lo as nat + 256 * hi as nat
  }

  /** Reading a pair of bytes as a 16-bit value and writing it back gives
      the same two bytes. */
  lemma Uint16BytesRoundTrip(lo: byte, hi: byte)
    ensures Uint16ToBytes(Uint16FromBytes(lo, hi)) == [lo, hi]
  {
    var v := Uint16FromBytes(lo, hi);
    assert v == lo as nat + 256 * hi as nat;
    assert v % 256 == lo as nat && v / 256 == hi as nat;
  }
}
