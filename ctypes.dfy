/** The fixed-width C integer types the device registers are built from, and the two
    conversions the register header applies to integer constants. */
module CTypes {
  newtype Int8 = x: int | -0x80 <= x < 0x80
  newtype Uint8 = x: int | 0 <= x < 0x100
  newtype Int16 = x: int | -0x8000 <= x < 0x8000
  newtype Uint16 = x: int | 0 <= x < 0x1_0000

  /** The C conversion `(uint16_t)x`: the value modulo 2^16, as a 16-bit word. */
  function U16(x: int): bv16
  {
    (x % 0x1_0000) as bv16
  }

  /** A value that fits in 16 bits converts unchanged. */
  lemma U16OfSmall(x: int)
    requires 0 <= x < 0x1_0000
    ensures U16(x) == x as bv16
  {
    assert x % 0x1_0000 == x;
  }

  /** The C conversion `(int16_t)x` on a two's-complement target: the value modulo 2^16,
      read back as a signed 16-bit number. */
  function ToInt16(x: int): (r: Int16)
    ensures -0x8000 <= x < 0x8000 ==> r as int == x
    ensures (x - r as int) % 0x1_0000 == 0
  {
    (((x + 0x8000) % 0x1_0000) - 0x8000) as Int16
  }

  /** A conversion to `int16_t` keeps its argument exactly when the argument is in range. */
  lemma ToInt16KeepsExactlyInRange(x: int)
    ensures ToInt16(x) as int == x <==> -0x8000 <= x < 0x8000
  {
  }
}
