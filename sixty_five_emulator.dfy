/** The earlier `sixty_five` engine, `Emulator`: the same instruction set as
    the live engine over a raw `[u8; 0x10000]` and a `u16` PC. It differs in
    what it observes: a set Break flag stops it before any fetch, BRK returns
    `Break`, operand bytes are read with plain (bounds-checked) index
    arithmetic, the `(zp,X)` pointer wraps inside page zero, and the PC
    advance is a `u16 +=`. */
module SixtyFiveEmulator {
  import opened Bits
  import opened Errors
  import opened AddressingModes
  import opened Opcodes
  import opened Components
  import opened SixtyFiveCpu

  const RESET_VEC_ADDR: nat := 0xFFFC

  /** The value of an `Emulator`. */
  datatype State = State(cycles: nat, ram: Memory, cpu: CpuState)

  /** `Emulator::new()`, and what `restart` returns to. */
  function PowerOn(): (s: State)
    ensures s.cycles == 0 && s.cpu == DefaultCpu()
    ensures forall i :: 0 <= i < MEMORY_SIZE ==> s.ram[i] == 0
  {
    State(0, Zeroed(), DefaultCpu())
  }

  /** The little-endian word at 0xFFFC/0xFFFD. */
  function ResetVector(ram: Memory): (pc: u16)
    ensures pc == ram[0xFFFD] as int * 0x100 + ram[0xFFFC]
  {
    ram[RESET_VEC_ADDR + 1] as int * 0x100 + ram[RESET_VEC_ADDR]  // hi << 8 | lo
  }

  /** `init`. */
  function LoadResetVector(s: State): State {
    s.(cpu := s.cpu.(PC := ResetVector(s.ram)))
  }

  /** `ram[i]` on the raw array: a panic from index 0x10000 on. */
  function Fetch(ram: Memory, i: nat): (r: Checked<u8>)
    ensures r.Ok? <==> i <= 0xFFFF
    ensures r.Ok? ==> r.value == ram[i]
    ensures r.Panicked? ==> r.fault == IndexOutOfBounds
  {
    if i < MEMORY_SIZE then Ok(ram[i]) else Panicked(IndexOutOfBounds)
  }

  /** The modes for which operand resolution produces a value. */
  predicate HasOperand(mode: AddressingMode) {
    mode.IMM? || mode.ABS? || mode.ZPG? || mode.INDX? || mode.REL?
  }

  /** The `let arg = match code.addr_mode { ... }` of `step`. */
  function FetchOperand(ram: Memory, cpu: CpuState, mode: AddressingMode): (r: Checked<Option<u16>>)
    ensures r.Ok? ==> (r.value.Some? <==> HasOperand(mode))
    ensures r.Panicked? <==>
              !(mode.IMPL? || mode.A? || HasOperand(mode))
              || (HasOperand(mode) && cpu.PC + 1 > 0xFFFF)
              || (mode.ABS? && cpu.PC + 2 > 0xFFFF)
  {
    match mode
    case IMPL => Ok(None)
    case A => Ok(None)
    case IMM =>
      var b :- Fetch(ram, cpu.PC + 1);
      Ok(Some(b))
    case ABS =>
      var at := cpu.PC + 1;
      var hi :- Fetch(ram, at + 1);  // the left operand of `|` is indexed first
      Ok(Some(hi as int * 0x100 + ram[at]))  // in bounds once `at + 1` was
    case ZPG =>
      var b :- Fetch(ram, cpu.PC + 1);
      Ok(Some(b))
    case INDX =>
      var arg :- Fetch(ram, cpu.PC + 1);
      var pointer := (cpu.X + arg) % 0x100;  // u8 wrapping_add
      Ok(Some(ram[(pointer + 1) % 0x100] as int * 0x100 + ram[pointer]))
    case REL =>
      var arg :- Fetch(ram, cpu.PC + 1);
      Ok(Some((cpu.PC + SignExtend(arg)) % 0x1_0000))  // (arg + pc) & 0xFFFF
    case _ => Panicked(UnimplementedMode)
  }

  /** What dispatching one instruction leaves. */
  datatype Effect = Effect(s: State, branchTaken: bool)

  /** The `match code.name { ... }` of `step`, for every mnemonic but BRK
      (which returns `Break` before any effect). */
  function DispatchEffect(s: State, op: Opcode, arg: Option<u16>): Checked<Effect>
    requires arg.Some? <==> HasOperand(op.mode)
    requires !op.name.BRK?
  {
    match op.name
    case NOP => Ok(Effect(s, false))
    case LDA =>
      if op.mode.IMM? then Ok(Effect(s.(cpu := s.cpu.SetA(AsU8(arg.value))), false))
      else if op.mode.ABS? || op.mode.ZPG? then Ok(Effect(s.(cpu := s.cpu.SetA(s.ram[arg.value])), false))
      else Panicked(InvalidMode)
    case STA =>
      if op.mode.ABS? || op.mode.ZPG? || op.mode.INDX? then
        Ok(Effect(s.(ram := s.ram[arg.value := s.cpu.A]), false))
      else Panicked(InvalidMode)
    case ADC =>
      if op.mode.IMM? then Ok(Effect(s.(cpu := s.cpu.AddA(AsU8(arg.value))), false))
      else Panicked(InvalidMode)
    case JMP =>
      if op.mode.ABS? then Ok(Effect(s.(cpu := s.cpu.(PC := arg.value)), false))
      else Panicked(InvalidMode)
    case BEQ =>
      if !op.mode.REL? then Panicked(UnimplementedOpcode)
      else if FlagSet(s.cpu.flags, Zero) then Ok(Effect(s.(cpu := s.cpu.(PC := arg.value)), true))
      else Ok(Effect(s, false))
    case BNE =>
      if !op.mode.REL? then Panicked(UnimplementedOpcode)
      else if !FlagSet(s.cpu.flags, Zero) then Ok(Effect(s.(cpu := s.cpu.(PC := arg.value)), true))
      else Ok(Effect(s, false))
    case Other => Panicked(UnimplementedOpcode)
  }

  /** Everything `step` does after the optional reset-vector load: a set
      Break flag stops it before the fetch; otherwise fetch, decode, then
      `Run` the decoded instruction. On a panic the state is returned as it
      stood when the panic fired. */
  function Execute(s: State, decode: Decoder): (State, Outcome) {
    if FlagSet(s.cpu.flags, Flag.Break) then (s, Err(CpuError.Break))
    else
      var code := s.ram[s.cpu.PC];
      match decode(code)
      case None => (s, Err(UnknownOp(code)))
      case Some(op) => Run(s, op)
  }

  /** A decoded instruction: resolve the operand, stop on BRK, dispatch,
      then `Advance`. */
  function Run(s: State, op: Opcode): (State, Outcome) {
    match FetchOperand(s.ram, s.cpu, op.mode)
    case Panicked(f) => (s, Fatal(f))
    case Ok(arg) =>
      if op.name.BRK? then (s, Err(CpuError.Break))
      else
        match DispatchEffect(s, op, arg)
        case Panicked(f) => (s, Fatal(f))
        case Ok(e) => Advance(e, op)
  }

  /** After dispatch: PC moves past the instruction with a `u16 +=` (which
      panics on overflow) unless a branch was taken or the instruction was
      JMP, and the cycle is counted. */
  function Advance(e: Effect, op: Opcode): (State, Outcome) {
    var s := e.s;
    if e.branchTaken || op.name.JMP? then (s.(cycles := s.cycles + 1), Done)
    else if s.cpu.PC + GetSize(op.mode) > 0xFFFF then (s, Fatal(ArithmeticOverflow))
    else (s.(cpu := s.cpu.(PC := s.cpu.PC + GetSize(op.mode)), cycles := s.cycles + 1), Done)
  }

  /** The transition `t` ends in state `s` with outcome `r`: the same cycle
      count, RAM, CPU and outcome. */
  predicate Agrees(t: (State, Outcome), s: State, r: Outcome) {
    t.1 == r && t.0.cycles == s.cycles && t.0.ram == s.ram && t.0.cpu == s.cpu
  }

  /** `step`. */
  function Transition(s: State, decode: Decoder): (State, Outcome) {
    Execute(if s.cycles == 0 then LoadResetVector(s) else s, decode)
  }

  /** `Emulator`. */
  class Emulator {
    var cycles: nat
    const ram: array<u8>
    var cpu: Cpu

    ghost predicate Valid() {
      ram.Length == MEMORY_SIZE
    }

    function Value(): State
      requires Valid()
      reads this, ram, cpu
    {
      State(cycles, ram[..], cpu.Value())
    }

    /** `Emulator::new()`. */
    constructor ()
      ensures Valid() && fresh(ram) && fresh(cpu)
      ensures Value() == PowerOn()
    {
      cycles := 0;
      ram := new u8[MEMORY_SIZE](_ => 0x00);
      cpu := new Cpu();
    }

    /** `init`: loads PC from the reset vector (it always returns `Ok`). */
    method Init()
      requires Valid()
      modifies cpu
      ensures Value() == LoadResetVector(old(Value()))
    {
      var lo := ram[RESET_VEC_ADDR];
      var hi := ram[RESET_VEC_ADDR + 1];
      cpu.PC := hi as int * 0x100 + lo;
    }

    /** The `match code.name { ... }` block of `step` for every mnemonic but
        BRK: applies the effect in place and reports whether a branch was
        taken, or the panic it raises (before changing anything). */
    method Dispatch(op: Opcode, arg: Option<u16>) returns (result: Checked<bool>)
      requires Valid()
      requires arg.Some? <==> HasOperand(op.mode)
      requires !op.name.BRK?
      modifies cpu, ram
      ensures result.Ok? ==> DispatchEffect(old(Value()), op, arg) == Ok(Effect(Value(), result.value))
      ensures result.Panicked? ==>
                DispatchEffect(old(Value()), op, arg) == Panicked(result.fault) && Value() == old(Value())
    {
      var branchTaken := false;
      match op.name {
        case NOP =>
        case LDA =>
          if op.mode.IMM? {
            cpu.SetA(AsU8(arg.value));
          } else if op.mode.ABS? || op.mode.ZPG? {
            cpu.SetA(ram[arg.value]);
          } else {
            return Panicked(InvalidMode);
          }
        case STA =>
          if op.mode.ABS? || op.mode.ZPG? || op.mode.INDX? {
            ram[arg.value] := cpu.A;
          } else {
            return Panicked(InvalidMode);
          }
        case ADC =>
          if op.mode.IMM? {
            cpu.AddA(AsU8(arg.value));
          } else {
            return Panicked(InvalidMode);
          }
        case JMP =>
          if op.mode.ABS? {
            cpu.PC := arg.value;
          } else {
            return Panicked(InvalidMode);
          }
        case BEQ =>
          if !op.mode.REL? {
            return Panicked(UnimplementedOpcode);
          }
          if cpu.Test(Zero) {
            cpu.PC := arg.value;
            branchTaken := true;
          }
        case BNE =>
          if !op.mode.REL? {
            return Panicked(UnimplementedOpcode);
          }
          if !cpu.Test(Zero) {
            cpu.PC := arg.value;
            branchTaken := true;
          }
        case Other =>
          return Panicked(UnimplementedOpcode);
      }
      return Ok(branchTaken);
    }

    /** `step`, with the opcode table passed in. */
    method Step(decode: Decoder) returns (r: Outcome)
      requires Valid()
      modifies this, cpu, ram
      ensures Valid() && cpu == old(cpu)
      ensures Agrees(Transition(old(Value()), decode), Value(), r)
    {
      if cycles == 0 {
        Init();
      }
      ghost var s := Value();
      assert s == (if old(cycles) == 0 then LoadResetVector(old(Value())) else old(Value()));
      if cpu.Test(Flag.Break) {
        return Err(CpuError.Break);
      }
      var code := ram[cpu.PC];
      var op: Opcode;
      match decode(code) {
        case None => return Err(UnknownOp(code));
        case Some(o) => op := o;
      }
      var operand := FetchOperand(ram[..], cpu.Value(), op.mode);
      if operand.Panicked? {
        return Fatal(operand.fault);
      }
      if op.name.BRK? {
        return Err(CpuError.Break);
      }
      var dispatched := Dispatch(op, operand.value);
      if dispatched.Panicked? {
        return Fatal(dispatched.fault);
      }
      var branchTaken := dispatched.value;  // PC is not advanced after a taken branch
      assert DispatchEffect(s, op, operand.value) == Ok(Effect(Value(), branchTaken));
      if !(branchTaken || op.name.JMP?) {
        var size := GetSize(op.mode);
        if cpu.PC + size > 0xFFFF {
          return Fatal(ArithmeticOverflow);  // `u16 +=` overflow
        }
        cpu.PC := cpu.PC + size;
      }
      cycles := cycles + 1;
      return Done;
    }

    /** `restart`: zero cycles, zero RAM, default CPU. */
    method Restart()
      requires Valid()
      modifies this, ram
      ensures Valid() && fresh(cpu)
      ensures Value() == PowerOn()
    {
      cycles := 0;
      forall i | 0 <= i < MEMORY_SIZE {
        ram[i] := 0x00;
      }
      cpu := new Cpu();
    }
  }
}
