/** Bytes as Lua strings hold them. */
module Bytes {

  newtype Byte = b: int | 0 <= b < 256

  /** The low 8 bits of a non-negative number: what `toByte()` followed by `write(int)` keeps. */
  function LowByte(n: nat): (b: Byte)
    ensures b as int == n % 256
  {
    (n % 256) as Byte
  }

  /** A number that already fits in a byte is its own low byte. */
  lemma LowByteOfByte(n: nat)
    requires n < 256
    ensures LowByte(n) as int == n
  {
  }
}
