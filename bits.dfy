/** Fixed-width integers of the emulated machine and the small Option type
    the engines use for "no operand". Widths are written out explicitly:
    Dafny integers are unbounded. */
module Bits {

  /** Rust `u8`. */
  type u8 = x: int | 0 <= x < 0x100

  /** Rust `u16`. */
  type u16 = x: int | 0 <= x < 0x1_0000

  /** Rust `i32`. */
  type i32 = x: int | -0x8000_0000 <= x < 0x8000_0000

  datatype Option<T> = None | Some(value: T)

  /** The value of `b as u8 as i8 as isize`: the byte read as a two's-complement
      signed number. */
  function SignExtend(b: u8): (r: int)
    ensures -0x80 <= r < 0x80
    ensures (r - b) % 0x100 == 0
    ensures r < 0 <==> b >= 0x80
  {
    if b < 0x80 then b else b - 0x100
  }

  /** `v as u8`: the low byte of a wider unsigned value; a value that
      already fits is unchanged. */
  function AsU8(v: nat): (r: u8)
    ensures v < 0x100 ==> r == v
    ensures r <= v
    ensures (v - r) % 0x100 == 0
  {
    v % 0x100
  }

  /** `v & 0x80 != 0`: bit 7 of a byte, the sign bit. */
  function SignBit(v: u8): (negative: bool)
    ensures negative <==> v >= 0x80
  {
    (v as bv8) & 0x80 != 0
  }
}
