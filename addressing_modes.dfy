/** The 16-bit `Address` type, its conversions and wraparound helpers, and
    the operand-size table indexed by addressing mode.

    An `Address` wraps a machine word (Rust `usize`): the conversions `From`
    validate their input and panic outside 0..=0xFFFF, `+` panics when the sum
    leaves that range, while `next` is unchecked and may yield 0x10000, which
    the conversions back to an integer mask with 0xFFFF. */
module AddressingModes {
  import opened Bits
  import opened Errors

  datatype Address = Address(raw: nat)

  /** The high byte of an address (bits 8..15; `& 0xFF00` then `>> 8`). */
  function HighByte(a: Address): nat { a.raw / 0x100 % 0x100 }

  /** The low byte of an address (`& 0xFF`). */
  function LowByte(a: Address): nat { a.raw % 0x100 }

  /** `Address::from(usize)`: panics above 0xFFFF. */
  function FromUsize(v: nat): (r: Checked<Address>)
    ensures r.Ok? <==> v <= 0xFFFF
    ensures r.Ok? ==> r.value.raw == v
    ensures r.Panicked? ==> r.fault == AddressOutOfRange
  {
    if v > 0xFFFF then Panicked(AddressOutOfRange) else Ok(Address(v))
  }

  /** `Address::from(i32)`: panics on a negative value or one above 0xFFFF;
      otherwise keeps `v & 0xFFFF`. */
  function FromI32(v: i32): (r: Checked<Address>)
    ensures r.Ok? <==> 0 <= v <= 0xFFFF
    ensures r.Ok? ==> r.value.raw == v
    ensures r.Panicked? ==> r.fault == AddressOutOfRange
  {
    if v < 0 || v > 0xFFFF then Panicked(AddressOutOfRange)
    else Ok(Address(v % 0x1_0000))  // `v & 0xFFFF` on a non-negative value
  }

  /** `Address::from(u16)`. */
  function FromU16(v: u16): (r: Address)
    ensures r.raw <= 0xFFFF
    ensures HighByte(r) * 0x100 + LowByte(r) == v
  {
    Address(v)
  }

  /** `Address::from(u8)`: `v & 0xFF`, an address in page zero. */
  function FromU8(v: u8): (r: Address)
    ensures r.raw < 0x100 && HighByte(r) == 0
    ensures r.raw == v
  {
    Address(v % 0x100)
  }

  /** `Into<usize> for Address`: `raw & 0xFFFF`. */
  function ToUsize(a: Address): (r: nat)
    ensures r <= 0xFFFF
    ensures a.raw <= 0xFFFF ==> r == a.raw
    ensures a.raw == 0x1_0000 ==> r == 0
    ensures (a.raw - r) % 0x1_0000 == 0
  {
    a.raw % 0x1_0000
  }

  /** `Into<u16> for Address`: `(raw & 0xFFFF) as u16`. */
  function ToU16(a: Address): (r: u16)
    ensures a.raw <= 0xFFFF ==> r == a.raw
    ensures a.raw == 0x1_0000 ==> r == 0
    ensures (a.raw - r) % 0x1_0000 == 0
  {
    a.raw % 0x1_0000
  }

  /** `impl Add for Address`: the exact sum, or a panic above 0xFFFF. */
  function Add(a: Address, b: Address): (r: Checked<Address>)
    ensures r.Ok? <==> a.raw + b.raw <= 0xFFFF
    ensures r.Ok? ==> r.value.raw == a.raw + b.raw
    ensures r.Panicked? ==> r.fault == AddressOutOfRange
  {
    var sum := a.raw + b.raw;
    if sum > 0xFFFF then Panicked(AddressOutOfRange) else Ok(Address(sum))
  }

  /** `same_page_add`: adds `rhs & 0xFF` to the low byte only; a carry out of
      the low byte is dropped, so the page (high byte) never changes. */
  function SamePageAdd(a: Address, rhs: nat): (r: Address)
    ensures r.raw <= 0xFFFF
    ensures HighByte(r) == HighByte(a)
    ensures LowByte(r) == (LowByte(a) + rhs % 0x100) % 0x100
  {
    var rhs := rhs % 0x100;                 // rhs & 0x00FF
    var hi := a.raw / 0x100 % 0x100 * 0x100; // self & 0xFF00
    var lo := (a.raw + rhs) % 0x100;         // (self + rhs) & 0xFF
    Address(hi + lo)                         // hi | lo: the bits do not overlap
  }

  /** `next`: the following address, unchecked (0xFFFF yields 0x10000). */
  function Next(a: Address): (r: Address)
    ensures r.raw == a.raw + 1
  {
    Address(a.raw + 1)
  }

  /** The thirteen addressing modes, in declaration order. */
  datatype AddressingMode =
    | A     // LSR A
    | ABS   // LDA $1234
    | ABSX  // STA $3000,X
    | ABSY  // AND $4000,Y
    | IMM   // LDA #$10
    | IMPL  // CLC
    | IND   // JMP ($FFFC)
    | INDX  // LDA ($40,X)
    | INDY  // LDA ($40),Y
    | REL   // LABEL // +4
    | ZPG   // LDA $10
    | ZPGX  // LDA $10,X
    | ZPGY  // LDA $10,Y

  /** `addr_mode as usize`: the enum discriminant, counted from `A = 0`. */
  function Discriminant(mode: AddressingMode): (i: nat)
    ensures i < |OP_SIZES|
  {
    match mode
    case A => 0    case ABS => 1  case ABSX => 2 case ABSY => 3
    case IMM => 4  case IMPL => 5 case IND => 6  case INDX => 7
    case INDY => 8 case REL => 9  case ZPG => 10 case ZPGX => 11
    case ZPGY => 12
  }

  /** Instruction length in bytes (opcode plus operand), per mode. */
  const OP_SIZES: seq<nat> := [1, 3, 3, 3, 2, 1, 3, 2, 2, 2, 2, 2, 2]

  /** `get_size`: the table entry for the mode. */
  function GetSize(mode: AddressingMode): (size: nat)
    ensures 1 <= size <= 3
    ensures size == 1 <==> mode == A || mode == IMPL
    ensures size == 3 <==> mode == ABS || mode == ABSX || mode == ABSY || mode == IND
  {
    OP_SIZES[Discriminant(mode)]
  }

  // Properties relating the conversions and the arithmetic helpers.

  /** `u16 -> Address -> u16` is the identity. */
  lemma U16RoundTrip(v: u16)
    ensures ToU16(FromU16(v)) == v
    ensures ToUsize(FromU16(v)) == v
  {
  }

  /** In-range `usize` values survive `usize -> Address -> usize`, and a
      successful conversion always agrees with the `u16` one. */
  lemma UsizeRoundTrip(v: nat)
    requires v <= 0xFFFF
    ensures FromUsize(v) == Ok(FromU16(v))
    ensures ToUsize(FromUsize(v).value) == v
  {
  }

  /** The documented quirk: 0x12FF same-page-plus 1 is 0x1200, not 0x1300. */
  lemma SamePageAddStaysOnPage()
    ensures SamePageAdd(Address(0x12FF), 1) == Address(0x1200)
    ensures Add(Address(0x12FF), Address(1)) == Ok(Address(0x1300))
  {
    assert 0x12FF / 0x100 % 0x100 * 0x100 == 0x1200;
    assert (0x12FF + 1) % 0x100 == 0;
  }

  /** When the low byte does not overflow, `same_page_add` is plain `+`;
      when it does, the result is exactly one page (0x100) below the sum. */
  lemma {:induction false} SamePageAddVersusAdd(a: Address, rhs: nat)
    requires a.raw <= 0xFFFF
    ensures LowByte(a) + rhs % 0x100 < 0x100 ==>
              Add(a, Address(rhs % 0x100)) == Ok(SamePageAdd(a, rhs))
    ensures LowByte(a) + rhs % 0x100 >= 0x100 ==>
              SamePageAdd(a, rhs).raw == a.raw + rhs % 0x100 - 0x100
  {
    var r := SamePageAdd(a, rhs);
    assert a.raw == HighByte(a) * 0x100 + LowByte(a);
    assert r.raw == HighByte(r) * 0x100 + LowByte(r);
  }

  /** `same_page_add(1)` is the next address, except at the last byte of a
      page, where it wraps to the first byte of the same page. */
  lemma SamePageSuccessor(a: Address)
    requires a.raw <= 0xFFFF
    ensures a.raw % 0x100 != 0xFF ==> SamePageAdd(a, 1).raw == a.raw + 1
    ensures a.raw % 0x100 == 0xFF ==> SamePageAdd(a, 1).raw == a.raw - 0xFF
  {
    SamePageAddVersusAdd(a, 1);
  }

  /** `next` is `+ 1` below the top of memory; at 0xFFFF it leaves the
      16-bit range, but indexing with it reaches address 0x0000. */
  lemma NextWraps(a: Address)
    requires a.raw <= 0xFFFF
    ensures a.raw < 0xFFFF ==> Add(a, Address(1)) == Ok(Next(a))
    ensures a.raw == 0xFFFF ==> Add(a, Address(1)).Panicked? && ToUsize(Next(a)) == 0
  {
  }
}
