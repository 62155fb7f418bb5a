/**
 * C integer conversions used by both drivers, written out explicitly:
 * Dafny integers are unbounded, the drivers' arithmetic is not.
 */
module CInt {

  const TWO_8: int := 0x100
  const TWO_16: int := 0x1_0000
  const TWO_31: int := 0x8000_0000
  const TWO_32: int := 0x1_0000_0000

  /** The values of a `uint16_t`. */
  type uint16 = x: int | 0 <= x < TWO_16

  /** Conversion to `uint8_t`: reduction modulo 2^8. */
  function Uint8(x: int): (r: int)
    ensures 0 <= r < TWO_8
    ensures (r - x) % TWO_8 == 0
  {
    x % TWO_8
  }

  /** Conversion to `int8_t` on a two's-complement target: the residue modulo 2^8 in [-128, 127]. */
  function Int8(x: int): (r: int)
    ensures -128 <= r < 128
    ensures (r - x) % TWO_8 == 0
  {
    (x + 128) % TWO_8 - 128
  }

  /** Conversion to `uint16_t`: reduction modulo 2^16. */
  function Uint16(x: int): (r: int)
    ensures 0 <= r < TWO_16
    ensures (r - x) % TWO_16 == 0
  {
    x % TWO_16
  }

  /**
   * The value an `int32_t` computation leaves on a two's-complement target
   * that wraps on overflow (signed overflow is undefined in C; wrapping is
   * what the usual targets do).
   */
  function Int32(x: int): (r: int)
    ensures -TWO_31 <= r < TWO_31
    ensures (r - x) % TWO_32 == 0
    ensures -TWO_31 <= x < TWO_31 ==> r == x
  {
    (x + TWO_31) % TWO_32 - TWO_31
  }

  /**
   * C's `/` on integers: the quotient with its fractional part discarded,
   * so the remainder `a - q * b` has the sign of the dividend and is smaller
   * than the divisor.
   */
  function CDiv(a: int, b: int): (q: int)
    requires b > 0
    ensures a >= 0 ==> q * b <= a < q * b + b
    ensures a < 0 ==> q * b - b < a <= q * b
  {
    if a >= 0 then a / b else -((-a) / b)
  }

  /** Truncation toward zero is symmetric: negating the dividend negates the quotient. */
  lemma CDivOdd(a: int, b: int)
    requires b > 0
    ensures CDiv(-a, b) == -CDiv(a, b)
  {
  }

  /**
   * `w = msb; w <<= 8; w |= lsb;` on a `uint16_t`: the big-endian 16-bit word
   * of a two-byte field. Shifting a byte left by 8 multiplies it by 256 and
   * leaves the low byte zero, so the OR of the two operands, whose set bits
   * are disjoint, is their sum (WordIsShiftOr).
   */
  function Word(msb: bv8, lsb: bv8): (w: int)
    ensures 0 <= w < TWO_16
  {
    msb as int * TWO_8 + lsb as int
  }

  /** Word is the C expression itself: the MSB shifted into the high byte, ORed with the LSB. */
  lemma WordIsShiftOr(msb: bv8, lsb: bv8)
    ensures Word(msb, lsb) == (((msb as bv16) << 8) | (lsb as bv16)) as int
  {
  }

  /** Word loses nothing: its high and low bytes are the two bytes it was built from. */
  lemma WordBytes(msb: bv8, lsb: bv8)
    ensures Word(msb, lsb) / TWO_8 == msb as int && Word(msb, lsb) % TWO_8 == lsb as int
  {
  }
}
