/** The 64 KiB memory and the register file of the live engine, with the
    status-flag helpers they share with the earlier engine.

    Each class keeps the source's fields and updates them in place; a value
    view (`Memory`, `Regs`) and pure functions over it state what each
    operation does, and the engines' specifications are written over those
    values. */
module Components {
  import opened Bits
  import opened AddressingModes

  // ---------------------------------------------------------------- memory

  const MEMORY_SIZE: nat := 0x1_0000

  /** The contents of a `[u8; 0x10000]`. */
  type Memory = s: seq<u8> | |s| == MEMORY_SIZE witness seq(MEMORY_SIZE, _ => 0)

  /** `[0x00; 0x10000]`. */
  function Zeroed(): (m: Memory)
    ensures forall i :: 0 <= i < MEMORY_SIZE ==> m[i] == 0
  {
    seq(MEMORY_SIZE, _ => 0)
  }

  /** `Index<Address> for Ram`: the index is the address masked to 16 bits,
      so every `Address`, even one that `next` pushed past 0xFFFF, is in bounds. */
  function Read(mem: Memory, a: Address): (v: u8)
    ensures a.raw <= 0xFFFF ==> v == mem[a.raw]
    ensures a.raw == 0x1_0000 ==> v == mem[0]
    ensures v == mem[a.raw % 0x1_0000]
  {
    mem[ToUsize(a)]
  }

  /** `IndexMut<Address> for Ram` followed by an assignment: exactly one
      byte, the one at the masked address, changes. */
  function Write(mem: Memory, a: Address, v: u8): (r: Memory)
    ensures Read(r, a) == v
    ensures forall b: Address :: ToUsize(b) != ToUsize(a) ==> Read(r, b) == Read(mem, b)
    ensures forall i :: 0 <= i < MEMORY_SIZE && i != ToUsize(a) ==> r[i] == mem[i]
  {
    mem[ToUsize(a) := v]
  }

  /** `Ram`: a fixed 65536-byte buffer. */
  class Ram {
    const bytes: array<u8>

    ghost predicate Valid() {
      bytes.Length == MEMORY_SIZE
    }

    /** `Ram(image)`. */
    constructor (image: Memory)
      ensures Valid() && fresh(bytes)
      ensures bytes[..] == image
    {
      bytes := new u8[MEMORY_SIZE](i requires 0 <= i < MEMORY_SIZE => image[i]);
    }

    /** `load`: replaces all 65536 bytes with `code`. */
    method Load(code: Memory)
      requires Valid()
      modifies bytes
      ensures bytes[..] == code
    {
      forall i | 0 <= i < MEMORY_SIZE {
        bytes[i] := code[i];
      }
    }

    /** `ram[addr]`. */
    function Index(a: Address): (v: u8)
      requires Valid()
      reads bytes
      ensures v == Read(bytes[..], a)
    {
      bytes[ToUsize(a)]
    }

    /** `ram[addr] = v`. */
    method Set(a: Address, v: u8)
      requires Valid()
      modifies bytes
      ensures bytes[..] == Write(old(bytes[..]), a, v)
    {
      bytes[ToUsize(a)] := v;
    }
  }

  // ---------------------------------------------------------------- flags

  /** The status-register bits, `NV-BDIZC`. */
  datatype Flag = Negative | Overflow | AlwaysOne | Break | Decimal | Int | Zero | Carry

  /** `flag as u8`. */
  function Mask(f: Flag): bv8 {
    match f
    case Negative => 128 case Overflow => 64 case AlwaysOne => 32 case Break => 16
    case Decimal => 8    case Int => 4       case Zero => 2       case Carry => 1
  }

  /** The bit number each flag occupies. */
  function Position(f: Flag): (i: bv8)
    ensures i < 8
    ensures Mask(f) == 1 << i
  {
    match f
    case Negative => 7 case Overflow => 6 case AlwaysOne => 5 case Break => 4
    case Decimal => 3  case Int => 2      case Zero => 1      case Carry => 0
  }

  /** `test(flag)`: `flags & flag != 0`, i.e. the flag's own bit is 1. */
  function FlagSet(flags: bv8, f: Flag): (isSet: bool)
    ensures isSet <==> (flags >> Position(f)) & 1 == 1
  {
    flags & Mask(f) != 0
  }

  /** `set_flag(flag, status)` on the status byte. */
  function WithFlag(flags: bv8, f: Flag, status: bool): (r: bv8)
    ensures FlagSet(r, f) == status
    ensures forall g :: g != f ==> FlagSet(r, g) == FlagSet(flags, g)
  {
    if status then flags | Mask(f) else flags & (0xFF - Mask(f))
  }

  /** Every status bit other than Zero, Negative and Carry is the same in
      `after` as in `before`. */
  predicate KeepsStatusBits(before: bv8, after: bv8) {
    forall g :: g != Zero && g != Negative && g != Carry ==> FlagSet(after, g) == FlagSet(before, g)
  }

  /** The status byte after `set_a(v)`: Zero and Negative describe `v`, every
      other bit is kept. */
  function FlagsAfterLoad(flags: bv8, v: u8): (r: bv8)
    ensures FlagSet(r, Zero) <==> v == 0
    ensures FlagSet(r, Negative) <==> v >= 0x80
    ensures forall g :: g != Zero && g != Negative ==> FlagSet(r, g) == FlagSet(flags, g)
  {
    WithFlag(WithFlag(flags, Zero, v == 0x00), Negative, SignBit(v))
  }

  /** The accumulator and status byte after `add_a(n)`: a nine-bit sum whose
      ninth bit becomes Carry; the incoming Carry is not read. */
  function AddWithCarryOut(a: u8, flags: bv8, n: u8): (r: (u8, bv8))
    ensures r.0 == (a + n) % 0x100
    ensures FlagSet(r.1, Carry) <==> a + n > 0xFF
    ensures r.0 + (if FlagSet(r.1, Carry) then 0x100 else 0) == a + n
    ensures FlagSet(r.1, Zero) <==> r.0 == 0
    ensures FlagSet(r.1, Negative) <==> r.0 >= 0x80
    ensures forall g :: g != Zero && g != Negative && g != Carry ==> FlagSet(r.1, g) == FlagSet(flags, g)
  {
    var res := a + n;
    var withCarry := WithFlag(flags, Carry, res > 0xFF);
    (res % 0x100, FlagsAfterLoad(withCarry, res % 0x100))
  }

  /** `0b_0010_0000`: only AlwaysOne is set. */
  const DEFAULT_FLAGS: bv8 := 0x20

  // ---------------------------------------------------------------- registers

  /** The value of a `Registers`. */
  datatype Regs = Regs(A: u8, X: u8, Y: u8, PC: Address, flags: bv8) {

    /** `set_a(v)`. */
    function SetA(v: u8): (r: Regs)
      ensures r.A == v && r.X == X && r.Y == Y && r.PC == PC
      ensures r.flags == FlagsAfterLoad(flags, v)
    {
      this.(A := v, flags := FlagsAfterLoad(flags, v))
    }

    /** `add_a(n)`. */
    function AddA(n: u8): (r: Regs)
      ensures r.X == X && r.Y == Y && r.PC == PC
      ensures (r.A, r.flags) == AddWithCarryOut(A, flags, n)
    {
      var (a, f) := AddWithCarryOut(A, flags, n);
      this.(A := a, flags := f)
    }
  }

  /** `Registers::default()`. */
  function DefaultRegs(): (r: Regs)
    ensures r.A == 0 && r.X == 0 && r.Y == 0 && r.PC.raw == 0
    ensures forall f :: FlagSet(r.flags, f) <==> f == AlwaysOne
  {
    Regs(0x00, 0x00, 0x00, FromU16(0x0000), DEFAULT_FLAGS)
  }

  /** `Registers`: the live engine's register file. */
  class Registers {
    var A: u8
    var X: u8
    var Y: u8
    var PC: Address
    var flags: bv8

    function Value(): Regs
      reads this
    {
      Regs(A, X, Y, PC, flags)
    }

    /** `Registers::default()`. */
    constructor ()
      ensures Value() == DefaultRegs()
    {
      A, X, Y := 0x00, 0x00, 0x00;
      PC := FromU16(0x0000);
      flags := DEFAULT_FLAGS;
    }

    /** `test(flag)`. */
    function Test(f: Flag): bool
      reads this
    {
      FlagSet(flags, f)
    }

    /** `set_flag(flag, status)`. */
    method SetFlag(f: Flag, status: bool)
      modifies this
      ensures Value() == old(Value()).(flags := WithFlag(old(flags), f, status))
    {
      if status {
        flags := flags | Mask(f);
      } else {
        flags := flags & (0xFF - Mask(f));
      }
    }

    /** `set_a(value)`. */
    method SetA(v: u8)
      modifies this
      ensures Value() == old(Value()).SetA(v)
    {
      SetFlag(Zero, v == 0x00);
      SetFlag(Negative, SignBit(v));
      A := v;
    }

    /** `add_a(n)`. */
    method AddA(n: u8)
      modifies this
      ensures Value() == old(Value()).AddA(n)
    {
      var res := n + A;
      if res > 0xFF {
        SetFlag(Carry, true);
      } else {
        SetFlag(Carry, false);
      }
      SetA(res % 0x100);
    }
  }

  // ---------------------------------------------------------------- properties

  /** The sequence of `set_flag` / `test` calls of the register unit test:
      each flag reads back what was last written to it, whatever was written
      to the others in between. */
  lemma FlagRoundTripScenario()
    ensures var f1 := WithFlag(DEFAULT_FLAGS, Zero, true);
            FlagSet(f1, Zero)
    ensures var f2 := WithFlag(WithFlag(DEFAULT_FLAGS, Zero, true), Zero, false);
            !FlagSet(f2, Zero)
    ensures var f3 := WithFlag(WithFlag(WithFlag(
                        WithFlag(WithFlag(DEFAULT_FLAGS, Zero, true), Zero, false),
                        Zero, true), Negative, true), Int, true);
            && FlagSet(f3, Zero) && FlagSet(f3, Negative) && FlagSet(f3, Int)
            && var f4 := WithFlag(f3, Negative, false);
               FlagSet(f4, Zero) && !FlagSet(f4, Negative) && FlagSet(f4, Int)
  {
  }

  /** A second `set_flag` on the same flag overrides the first. */
  lemma WithFlagOverrides(flags: bv8, f: Flag, s: bool, t: bool)
    ensures WithFlag(WithFlag(flags, f, s), f, t) == WithFlag(flags, f, t)
  {
    match f
    case Negative => case Overflow => case AlwaysOne => case Break =>
    case Decimal => case Int => case Zero => case Carry =>
  }

  /** `set_a` at the boundaries of the Zero and Negative tests: 0x00 sets
      only Zero, 0x80 only Negative, 0x7F neither. */
  lemma SetAExamples(r: Regs)
    ensures FlagSet(r.SetA(0x00).flags, Zero) && !FlagSet(r.SetA(0x00).flags, Negative)
    ensures !FlagSet(r.SetA(0x80).flags, Zero) && FlagSet(r.SetA(0x80).flags, Negative)
    ensures !FlagSet(r.SetA(0x7F).flags, Zero) && !FlagSet(r.SetA(0x7F).flags, Negative)
  {
  }

  /** `add_a` of 0x01 to 0xFF carries out and leaves a zero accumulator. */
  lemma AddAWrapsWithCarry(r: Regs)
    requires r.A == 0xFF
    ensures r.AddA(0x01).A == 0x00
    ensures FlagSet(r.AddA(0x01).flags, Carry) && FlagSet(r.AddA(0x01).flags, Zero)
  {
  }

  /** `add_a` never reads the incoming Carry: two register files that differ
      only in Carry end up identical. */
  lemma AddAIgnoresCarryIn(r: Regs, n: u8)
    ensures r.(flags := WithFlag(r.flags, Carry, true)).AddA(n)
         == r.(flags := WithFlag(r.flags, Carry, false)).AddA(n)
  {
  }
}
