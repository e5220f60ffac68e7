/** The oldest engine, `src/emulator/emulator.rs`: a flagless CPU whose PC
    starts at 0x0600, no reset vector, no cycle counting, and a smaller
    instruction set whose arithmetic panics on overflow. */
module LegacyEmulator {
  import opened Bits
  import opened Errors
  import opened AddressingModes
  import opened Opcodes
  import opened Components

  /** Where a fresh CPU starts executing. */
  const START_PC: u16 := 0x0600

  /** The value of a `Cpu`. */
  datatype CpuState = CpuState(A: u8, X: u8, Y: u8, PC: u16)

  /** `Cpu::default()`. */
  function DefaultCpu(): (c: CpuState)
    ensures c.A == 0 && c.X == 0 && c.Y == 0 && c.PC == 0x0600
  {
    CpuState(0x00, 0x00, 0x00, START_PC)
  }

  /** `Cpu`. */
  class Cpu {
    var A: u8
    var X: u8
    var Y: u8
    var PC: u16

    function Value(): CpuState
      reads this
    {
      CpuState(A, X, Y, PC)
    }

    /** `Cpu::default()`. */
    constructor ()
      ensures Value() == DefaultCpu()
    {
      A, X, Y := 0x00, 0x00, 0x00;
      PC := START_PC;
    }
  }

  /** The value of an `Emulator`. */
  datatype State = State(cycles: nat, ram: Memory, cpu: CpuState)

  /** `Emulator::new()`, and what `restart` returns to. */
  function PowerOn(): (s: State)
    ensures s.cycles == 0 && s.cpu == DefaultCpu()
    ensures forall i :: 0 <= i < MEMORY_SIZE ==> s.ram[i] == 0
  {
    State(0, Zeroed(), DefaultCpu())
  }

  /** `ram[i]` on the raw array: a panic from index 0x10000 on. */
  function Fetch(ram: Memory, i: nat): (r: Checked<u8>)
    ensures r.Ok? <==> i <= 0xFFFF
    ensures r.Ok? ==> r.value == ram[i]
    ensures r.Panicked? ==> r.fault == IndexOutOfBounds
  {
    if i < MEMORY_SIZE then Ok(ram[i]) else Panicked(IndexOutOfBounds)
  }

  /** The modes for which operand resolution produces a value. */
  predicate HasOperand(mode: AddressingMode) {
    mode.IMM? || mode.ABS? || mode.ZPG?
  }

  /** The `let arg = match code.addr_mode { ... }` of `step`: only implied,
      accumulator, immediate, absolute and zero-page modes are handled. */
  function FetchOperand(ram: Memory, cpu: CpuState, mode: AddressingMode): (r: Checked<Option<u16>>)
    ensures r.Ok? ==> (r.value.Some? <==> HasOperand(mode))
    ensures r.Panicked? <==>
              !(mode.IMPL? || mode.A? || HasOperand(mode))
              || (HasOperand(mode) && cpu.PC + 1 > 0xFFFF)
              || (mode.ABS? && cpu.PC + 2 > 0xFFFF)
  {
    match mode
    case IMPL => Ok(None)
    case A => Ok(None)
    case IMM =>
      var b :- Fetch(ram, cpu.PC + 1);
      Ok(Some(b))
    case ABS =>
      var at := cpu.PC + 1;
      var hi :- Fetch(ram, at + 1);  // the left operand of `|` is indexed first
      Ok(Some(hi as int * 0x100 + ram[at]))  // in bounds once `at + 1` was
    case ZPG =>
      var b :- Fetch(ram, cpu.PC + 1);
      Ok(Some(b))
    case _ => Panicked(UnimplementedMode)
  }

  /** The `match code.name { ... }` of `step`, for every mnemonic but BRK
      (which returns `Break` before any effect). */
  function DispatchEffect(s: State, op: Opcode, arg: Option<u16>): Checked<State>
    requires arg.Some? <==> HasOperand(op.mode)
    requires !op.name.BRK?
  {
    match op.name
    case LDA =>
      if op.mode.IMM? then Ok(s.(cpu := s.cpu.(A := AsU8(arg.value))))
      else if op.mode.ABS? || op.mode.ZPG? then Ok(s.(cpu := s.cpu.(A := s.ram[arg.value])))
      else Panicked(InvalidMode)
    case STA =>
      if op.mode.ABS? then Ok(s.(ram := s.ram[arg.value := s.cpu.A]))
      else Panicked(InvalidMode)
    case ADC =>
      if !op.mode.IMM? then Panicked(InvalidMode)
      else if s.cpu.A + AsU8(arg.value) > 0xFF then Panicked(ArithmeticOverflow)  // `u8 +=`
      else Ok(s.(cpu := s.cpu.(A := s.cpu.A + AsU8(arg.value))))
    case JMP =>
      if op.mode.ABS? then Ok(s.(cpu := s.cpu.(PC := arg.value)))
      else Panicked(InvalidMode)
    case _ => Panicked(UnimplementedOpcode)
  }

  /** The transition `t` ends in state `s` with outcome `r`: the same cycle
      count, RAM, CPU and outcome. */
  predicate Agrees(t: (State, Outcome), s: State, r: Outcome) {
    t.1 == r && t.0.cycles == s.cycles && t.0.ram == s.ram && t.0.cpu == s.cpu
  }

  /** `step`. */
  function Transition(s: State, decode: Decoder): (State, Outcome) {
    var code := s.ram[s.cpu.PC];
    match decode(code)
    case None => (s, Err(UnknownOp(code)))
    case Some(op) =>
      match FetchOperand(s.ram, s.cpu, op.mode)
      case Panicked(f) => (s, Fatal(f))
      case Ok(arg) =>
        if op.name.BRK? then (s, Err(CpuError.Break))
        else
          match DispatchEffect(s, op, arg)
          case Panicked(f) => (s, Fatal(f))
          case Ok(s') =>
            if op.name.JMP? then (s', Done)
            else if s'.cpu.PC + GetSize(op.mode) > 0xFFFF then (s', Fatal(ArithmeticOverflow))
            else (s'.(cpu := s'.cpu.(PC := s'.cpu.PC + GetSize(op.mode))), Done)
  }

  /** `Emulator`. */
  class Emulator {
    var cycles: nat
    const ram: array<u8>
    var cpu: Cpu

    ghost predicate Valid() {
      ram.Length == MEMORY_SIZE
    }

    function Value(): State
      requires Valid()
      reads this, ram, cpu
    {
      State(cycles, ram[..], cpu.Value())
    }

    /** `Emulator::new()`. */
    constructor ()
      ensures Valid() && fresh(ram) && fresh(cpu)
      ensures Value() == PowerOn()
    {
      cycles := 0;
      ram := new u8[MEMORY_SIZE](_ => 0x00);
      cpu := new Cpu();
    }

    /** The `match code.name { ... }` block of `step` for every mnemonic but
        BRK: applies the effect in place, or reports the panic it raises
        (before changing anything). */
    method Dispatch(op: Opcode, arg: Option<u16>) returns (result: Checked<()>)
      requires Valid()
      requires arg.Some? <==> HasOperand(op.mode)
      requires !op.name.BRK?
      modifies cpu, ram
      ensures result.Ok? ==> DispatchEffect(old(Value()), op, arg) == Ok(Value())
      ensures result.Panicked? ==>
                DispatchEffect(old(Value()), op, arg) == Panicked(result.fault) && Value() == old(Value())
    {
      match op.name {
        case LDA =>
          if op.mode.IMM? {
            cpu.A := AsU8(arg.value);
          } else if op.mode.ABS? || op.mode.ZPG? {
            cpu.A := ram[arg.value];
          } else {
            return Panicked(InvalidMode);
          }
        case STA =>
          if op.mode.ABS? {
            ram[arg.value] := cpu.A;
          } else {
            return Panicked(InvalidMode);
          }
        case ADC =>
          if !op.mode.IMM? {
            return Panicked(InvalidMode);
          }
          var n := AsU8(arg.value);
          if cpu.A + n > 0xFF {
            return Panicked(ArithmeticOverflow);
          }
          cpu.A := cpu.A + n;
        case JMP =>
          if op.mode.ABS? {
            cpu.PC := arg.value;
          } else {
            return Panicked(InvalidMode);
          }
        case _ =>
          return Panicked(UnimplementedOpcode);
      }
      return Ok(());
    }

    /** `step`, with the opcode table passed in. */
    method Step(decode: Decoder) returns (r: Outcome)
      requires Valid()
      modifies cpu, ram
      ensures Agrees(Transition(old(Value()), decode), Value(), r)
    {
      var code := ram[cpu.PC];
      var op: Opcode;
      match decode(code) {
        case None => return Err(UnknownOp(code));
        case Some(o) => op := o;
      }
      var operand := FetchOperand(ram[..], cpu.Value(), op.mode);
      if operand.Panicked? {
        return Fatal(operand.fault);
      }
      if op.name.BRK? {
        return Err(CpuError.Break);
      }
      var dispatched := Dispatch(op, operand.value);
      if dispatched.Panicked? {
        return Fatal(dispatched.fault);
      }
      if !op.name.JMP? {
        var size := GetSize(op.mode);
        if cpu.PC + size > 0xFFFF {
          return Fatal(ArithmeticOverflow);  // `u16 +=` overflow
        }
        cpu.PC := cpu.PC + size;
      }
      return Done;
    }

    /** `restart`: zero cycles, zero RAM, default CPU. */
    method Restart()
      requires Valid()
      modifies this, ram
      ensures Valid() && fresh(cpu)
      ensures Value() == PowerOn()
    {
      cycles := 0;
      forall i | 0 <= i < MEMORY_SIZE {
        ram[i] := 0x00;
      }
      cpu := new Cpu();
    }
  }
}
