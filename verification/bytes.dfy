/** Unsigned machine integers of the MZ file format and their little-endian byte encoding. */
module Bytes {

  type byte = x: int | 0 <= x < 0x100
  type u16 = x: int | 0 <= x < 0x1_0000

  /** The 16-bit value stored little-endian in the byte pair (lo, hi). */
  function U16(lo: byte, hi: byte): (v: u16)
    ensures v % 0x100 == lo && v / 0x100 == hi
  {
    lo + 0x100 * hi
  }

  /** Low byte (part 0) or high byte (part 1) of a 16-bit value. */
  function ByteOf(v: u16, part: nat): (b: byte)
    requires part < 2
  {
    if part == 0 then v % 0x100 else v / 0x100
  }

  /** Splitting a 16-bit value into its bytes and joining them again gives the value back. */
  lemma U16OfBytes(v: u16)
    ensures U16(ByteOf(v, 0), ByteOf(v, 1)) == v
  {
  }

  /** The 16-bit little-endian word starting at offset `at`. */
  function WordAt(s: seq<byte>, at: nat): u16
    requires at + 2 <= |s|
  {
    U16(s[at], s[at + 1])
  }
}
