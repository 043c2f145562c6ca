/** Bytes of a life script and the little-endian decoding of the signed 16-bit
    operands (branch offsets, text ids, distances) that the interpreter reads. */
module Bytes {

  newtype byte = x: int | 0 <= x < 256

  /** The signed value of the two bytes `lo`, `hi` read in little-endian order
      (two's complement), as the memory stream's readSint16LE yields it. */
  function Sint16LE(lo: byte, hi: byte): (v: int)
    ensures -0x8000 <= v < 0x8000
    ensures (v - lo as int - 0x100 * hi as int) % 0x1_0000 == 0
    ensures v < 0 <==> hi >= 0x80
  {
    var u := lo as int + 0x100 * hi as int;
    if u < 0x8000 then u else u - 0x1_0000
  }

  // The interpreter only decodes. The two encoders below exist so that the
  // round-trip lemmas can state that Sint16LE is a bijection between byte
  // pairs and the signed 16-bit range; they model no routine of the engine.

  /** Low byte of the two's-complement encoding of a signed 16-bit value. */
  function LowByte(v: int): byte
    requires -0x8000 <= v < 0x8000
  {
    ((v + 0x1_0000) % 0x100) as byte
  }

  /** High byte of the two's-complement encoding of a signed 16-bit value. */
  function HighByte(v: int): byte
    requires -0x8000 <= v < 0x8000
  {
    (((v + 0x1_0000) % 0x1_0000) / 0x100) as byte
  }

  /** Encoding a signed 16-bit value and decoding it again gives it back. */
  lemma {:induction false} Sint16LERoundTrip(v: int)
    requires -0x8000 <= v < 0x8000
    ensures Sint16LE(LowByte(v), HighByte(v)) == v
  {
    var u := (v + 0x1_0000) % 0x1_0000;
    assert u == if v < 0 then v + 0x1_0000 else v;
    assert LowByte(v) as int == u % 0x100;
    assert HighByte(v) as int == u / 0x100;
    assert LowByte(v) as int + 0x100 * HighByte(v) as int == u;
  }

  /** Decoding two bytes and encoding the value again gives back the bytes:
      every byte pair is the encoding of exactly one 16-bit value. */
  lemma {:induction false} Sint16LEBytesRoundTrip(lo: byte, hi: byte)
    ensures LowByte(Sint16LE(lo, hi)) == lo && HighByte(Sint16LE(lo, hi)) == hi
  {
    var u := lo as int + 0x100 * hi as int;
    var v := Sint16LE(lo, hi);
    assert (v + 0x1_0000) % 0x1_0000 == u;
    assert u % 0x100 == lo as int;
    assert u / 0x100 == hi as int;
  }

  /** The value of a signed 16-bit cast (int16)x of a 32-bit integer. */
  function Int16(x: int): (r: int)
    ensures -0x8000 <= r < 0x8000
    ensures (r - x) % 0x1_0000 == 0
    ensures -0x8000 <= x < 0x8000 ==> r == x
  {
    (x + 0x8000) % 0x1_0000 - 0x8000
  }
}
