/** The register file of the earlier `sixty_five` engine: the same
    accumulator and flag helpers as the live `Registers`, but with a plain
    `u16` program counter. */
module SixtyFiveCpu {
  import opened Bits
  import opened Components

  /** The value of a `Cpu`. */
  datatype CpuState = CpuState(A: u8, X: u8, Y: u8, PC: u16, flags: bv8) {

    /** `set_a(value)`. */
    function SetA(v: u8): (r: CpuState)
      ensures r.A == v && r.X == X && r.Y == Y && r.PC == PC
      ensures r.flags == FlagsAfterLoad(flags, v)
    {
      this.(A := v, flags := FlagsAfterLoad(flags, v))
    }

    /** `add_a(n)`. */
    function AddA(n: u8): (r: CpuState)
      ensures r.X == X && r.Y == Y && r.PC == PC
      ensures (r.A, r.flags) == AddWithCarryOut(A, flags, n)
    {
      var (a, f) := AddWithCarryOut(A, flags, n);
      this.(A := a, flags := f)
    }
  }

  /** `Cpu::default()`. */
  function DefaultCpu(): (c: CpuState)
    ensures c.A == 0 && c.X == 0 && c.Y == 0 && c.PC == 0x0000
    ensures forall f :: FlagSet(c.flags, f) <==> f == AlwaysOne
  {
    CpuState(0x00, 0x00, 0x00, 0x0000, DEFAULT_FLAGS)
  }

  /** `Cpu`. */
  class Cpu {
    var A: u8
    var X: u8
    var Y: u8
    var PC: u16
    var flags: bv8

    function Value(): CpuState
      reads this
    {
      CpuState(A, X, Y, PC, flags)
    }

    /** `Cpu::default()`. */
    constructor ()
      ensures Value() == DefaultCpu()
    {
      A, X, Y := 0x00, 0x00, 0x00;
      PC := 0x0000;
      flags := DEFAULT_FLAGS;
    }

    /** `test(flag)`. */
    function Test(f: Flag): bool
      reads this
    {
      FlagSet(flags, f)
    }

    /** `set_flag(flag, status)`. */
    method SetFlag(f: Flag, status: bool)
      modifies this
      ensures Value() == old(Value()).(flags := WithFlag(old(flags), f, status))
    {
      if status {
        flags := flags | Mask(f);
      } else {
        flags := flags & (0xFF - Mask(f));
      }
    }

    /** `set_a(value)`. */
    method SetA(v: u8)
      modifies this
      ensures Value() == old(Value()).SetA(v)
    {
      SetFlag(Zero, v == 0x00);
      SetFlag(Negative, SignBit(v));
      A := v;
    }

    /** `add_a(n)`. */
    method AddA(n: u8)
      modifies this
      ensures Value() == old(Value()).AddA(n)
    {
      var res := n + A;
      if res > 0xFF {
        SetFlag(Carry, true);
      } else {
        SetFlag(Carry, false);
      }
      SetA(res % 0x100);
    }
  }
}
