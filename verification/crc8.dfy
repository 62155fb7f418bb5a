/**
 * The bit-serial CRC-8 both Sensirion drivers compute: generator polynomial
 * x^8 + x^5 + x^4 + 1 (0x31), most-significant bit first, no reflection and
 * no final XOR. The two drivers differ only in the initial register value
 * (0xFF for the SHT31, 0x00 for the SHT21).
 */
module Crc8 {

  /** The generator polynomial without its x^8 term. */
  const POLYNOMIAL: bv8 := 0x31

  /**
   * One shift step of the register: shift left by one, truncated to 8 bits,
   * and XOR the polynomial in when the bit shifted out (bit 7) was set.
   */
  function Shift(crc: bv8): bv8 {
    if crc & 0x80 != 0 then (crc << 1) ^ POLYNOMIAL else crc << 1
  }

  /** n shift steps. */
  function ShiftN(crc: bv8, n: nat): bv8 {
    if n == 0 then crc else Shift(ShiftN(crc, n - 1))
  }

  /** One input byte: XOR it into the register, then exactly eight shift steps. */
  function CrcByte(crc: bv8, b: bv8): bv8 {
    ShiftN(crc ^ b, 8)
  }

  /** The CRC of `data` from register value `init`: a left fold of CrcByte. */
  function Crc(init: bv8, data: seq<bv8>): bv8 {
    if |data| == 0 then init else CrcByte(Crc(init, data[..|data| - 1]), data[|data| - 1])
  }

  /** The CRC of a concatenation continues from the CRC of the first part. */
  lemma {:induction false} CrcAppend(init: bv8, a: seq<bv8>, b: seq<bv8>)
    ensures Crc(init, a + b) == Crc(Crc(init, a), b)
    decreases |b|
  {
    if |b| == 0 {
      assert a + b == a;
    } else {
      var n := |b| - 1;
      assert (a + b)[..|a + b| - 1] == a + b[..n];
      CrcAppend(init, a, b[..n]);
    }
  }

  /** The fold read from the front: the first byte is consumed first. */
  lemma CrcCons(init: bv8, b: bv8, rest: seq<bv8>)
    ensures Crc(init, [b] + rest) == Crc(CrcByte(init, b), rest)
  {
    CrcAppend(init, [b], rest);
    assert [b][..0] == [];
  }

  /** A shift step loses no information: Shift is a permutation of the byte values. */
  lemma ShiftInjective(x: bv8, y: bv8)
    requires Shift(x) == Shift(y)
    ensures x == y
  {
  }

  lemma {:induction false} ShiftNInjective(x: bv8, y: bv8, n: nat)
    requires ShiftN(x, n) == ShiftN(y, n)
    ensures x == y
  {
    if n > 0 {
      ShiftInjective(ShiftN(x, n - 1), ShiftN(y, n - 1));
      ShiftNInjective(x, y, n - 1);
    }
  }

  /** For a fixed input byte, different registers give different results. */
  lemma CrcByteInjective(c: bv8, d: bv8, b: bv8)
    requires CrcByte(c, b) == CrcByte(d, b)
    ensures c == d
  {
    ShiftNInjective(c ^ b, d ^ b, 8);
  }

  /** Two different register values stay different over any common suffix. */
  lemma {:induction false} CrcRegisterInjective(c: bv8, d: bv8, s: seq<bv8>)
    requires Crc(c, s) == Crc(d, s)
    ensures c == d
    decreases |s|
  {
    if |s| > 0 {
      var n := |s| - 1;
      CrcByteInjective(Crc(c, s[..n]), Crc(d, s[..n]), s[n]);
      CrcRegisterInjective(c, d, s[..n]);
    }
  }

  /**
   * Every error confined to one byte of the data is detected, whatever the
   * data's length and position of that byte: a frame whose data differs
   * from the sent data in exactly one byte never matches the sent checksum.
   */
  lemma DetectsSingleByteError(init: bv8, prefix: seq<bv8>, x: bv8, y: bv8, suffix: seq<bv8>)
    requires x != y
    ensures Crc(init, prefix + [x] + suffix) != Crc(init, prefix + [y] + suffix)
  {
    var c := Crc(init, prefix);
    assert (prefix + [x])[..|prefix|] == prefix;
    assert (prefix + [y])[..|prefix|] == prefix;
    CrcAppend(init, prefix + [x], suffix);
    CrcAppend(init, prefix + [y], suffix);
    if Crc(init, prefix + [x] + suffix) == Crc(init, prefix + [y] + suffix) {
      CrcRegisterInjective(CrcByte(c, x), CrcByte(c, y), suffix);
      CrcByteInjectiveInByte(c, x, y);
    }
  }

  /** For a fixed register, different input bytes give different results. */
  lemma CrcByteInjectiveInByte(c: bv8, x: bv8, y: bv8)
    requires CrcByte(c, x) == CrcByte(c, y)
    ensures x == y
  {
    ShiftNInjective(c ^ x, c ^ y, 8);
  }

  lemma {:induction false} ShiftNZero(n: nat)
    ensures ShiftN(0, n) == 0
  {
    if n > 0 {
      ShiftNZero(n - 1);
    }
  }

  /** Data followed by its own CRC leaves a zero register (the CRC residue). */
  lemma CrcResidue(init: bv8, data: seq<bv8>)
    ensures Crc(init, data + [Crc(init, data)]) == 0
  {
    CrcAppend(init, data, [Crc(init, data)]);
    assert [Crc(init, data)][..0] == [];
    ShiftNZero(8);
  }

  /**
   * The two drivers' checksums are the same CRC: starting from 0xFF is
   * starting from 0x00 with the first data byte inverted.
   */
  lemma InitialValueAbsorbed(first: bv8, rest: seq<bv8>)
    ensures Crc(0xFF, [first] + rest) == Crc(0x00, [first ^ 0xFF] + rest)
  {
    CrcCons(0xFF, first, rest);
    CrcCons(0x00, first ^ 0xFF, rest);
    assert 0xFF ^ first == 0x00 ^ (first ^ 0xFF);
  }

  /** Check value: the CRC of 0xBEEF from 0xFF is 0x92, as in Sensirion's SHT3x data sheet. */
  lemma CheckValue()
    ensures Crc(0xFF, [0xBE, 0xEF]) == 0x92
  {
    assert [0xBE, 0xEF][..1] == [0xBE];
    assert [0xBE][..0] == [];
  }
}
