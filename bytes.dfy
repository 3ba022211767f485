/** Facts about 8-bit values the strength packing rests on. */
module Bytes {
  /** A byte-sized number survives the trip through `bv8`. */
  lemma {:induction false} ByteRoundTrip(x: int)
    requires 0 <= x < 0x100
    ensures (x as bv8) as int == x
  {
  }

  /** A number below 16 has no high nibble. */
  lemma {:induction false} SmallByte(x: int)
    requires 0 <= x < 16
    ensures (x as bv8) < 16 && (x as bv8) >> 4 == 0
  {
  }

  /** Two nibbles side by side make `16 * x + y`. */
  lemma {:induction false} Nibbles(x: bv8, y: bv8)
    requires x < 16 && y < 16
    ensures ((x << 4) | y) as int == x as int * 16 + y as int
  {
  }
}
