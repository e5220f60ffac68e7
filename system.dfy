/** The live engine, `System`: 64 KiB of RAM, the register file and a cycle
    counter, advanced one instruction at a time by `Step`.

    `Transition` states on values what one `step` does; the class `System`
    keeps the source's fields, updates them in place, and its `Step` is
    proved to produce exactly the state and outcome `Transition` gives. */
module SystemEngine {
  import opened Bits
  import opened Errors
  import opened AddressingModes
  import opened Opcodes
  import opened Components

  /** Where the MOS 6502 reads its start address. */
  const RESET_VEC_ADDR: Address := Address(0xFFFC)

  /** The value of a `System`. */
  datatype Machine = Machine(cycles: nat, ram: Memory, regs: Regs)

  /** A freshly created or restarted system: no cycles, zeroed RAM,
      default registers. */
  function PowerOn(): (m: Machine)
    ensures m.cycles == 0 && m.regs == DefaultRegs()
    ensures forall i :: 0 <= i < MEMORY_SIZE ==> m.ram[i] == 0
  {
    Machine(0, Zeroed(), DefaultRegs())
  }

  /** The little-endian word at the reset vector. The high byte's address is
      `RESET_VEC_ADDR.same_page_add(1)`, which is 0xFFFD. */
  function ResetVector(ram: Memory): (pc: Address)
    ensures pc.raw <= 0xFFFF
    ensures pc.raw == ram[0xFFFD] as int * 0x100 + ram[0xFFFC]
  {
    var lo := Read(ram, RESET_VEC_ADDR);
    assert SamePageAdd(RESET_VEC_ADDR, 1) == Address(0xFFFD) by {
      assert 0xFFFC / 0x100 % 0x100 * 0x100 == 0xFF00;
    }
    var hi := Read(ram, SamePageAdd(RESET_VEC_ADDR, 1));
    FromU16(hi as int * 0x100 + lo)  // hi << 8 | lo
  }

  /** `init`: PC := the reset vector; nothing else changes. */
  function LoadResetVector(m: Machine): Machine {
    m.(regs := m.regs.(PC := ResetVector(m.ram)))
  }

  /** The modes for which operand resolution produces a value. */
  predicate HasOperand(mode: AddressingMode) {
    mode.IMM? || mode.ABS? || mode.ZPG? || mode.INDX? || mode.REL?
  }

  /** The `let arg = match code.addr_mode { ... }` of `step`: the operand,
      as a literal or an address depending on the instruction. */
  function FetchOperand(ram: Memory, regs: Regs, mode: AddressingMode): (r: Checked<Option<u16>>)
    ensures r.Ok? ==> (r.value.Some? <==> HasOperand(mode))
    ensures r.Panicked? <==>
              !(mode.IMPL? || mode.A? || HasOperand(mode))
              || ((mode.IMM? || mode.INDX? || mode.REL?) && regs.PC.raw + 1 > 0xFFFF)
  {
    match mode
    case IMPL => Ok(None)
    case A => Ok(None)
    case IMM =>
      // fetch!(self PC+1): the checked `Address` addition
      var at :- Add(regs.PC, Address(1));
      Ok(Some(Read(ram, at)))
    case ABS =>
      // the two bytes after the opcode, via the unchecked `next`
      var at := Next(regs.PC);
      Ok(Some(Read(ram, Next(at)) as int * 0x100 + Read(ram, at)))
    case ZPG =>
      // the byte after the opcode, but taken within the opcode's own page
      Ok(Some(Read(ram, SamePageAdd(regs.PC, 1))))
    case INDX =>
      var at :- Add(regs.PC, Address(1));
      var pointer := FromU8((regs.X + Read(ram, at)) % 0x100);  // X.wrapping_add(arg)
      Ok(Some(Read(ram, Next(pointer)) as int * 0x100 + Read(ram, pointer)))
    case REL =>
      var at :- Add(regs.PC, Address(1));
      Ok(Some((regs.PC.raw + SignExtend(Read(ram, at))) % 0x1_0000))  // (arg + pc) & 0xFFFF
    case _ => Panicked(UnimplementedMode)
  }

  /** What dispatching one instruction leaves: the new machine and whether a
      branch was taken (`branch_taken`). */
  datatype Effect = Effect(m: Machine, branchTaken: bool)

  /** The `match code.name { ... }` of `step`. */
  function DispatchEffect(m: Machine, op: Opcode, arg: Option<u16>): Checked<Effect>
    requires arg.Some? <==> HasOperand(op.mode)
  {
    match op.name
    case BRK => Ok(Effect(m, false))  // reported, but otherwise a no-op here
    case NOP => Ok(Effect(m, false))
    case LDA =>
      if op.mode.IMM? then Ok(Effect(m.(regs := m.regs.SetA(AsU8(arg.value))), false))
      else if op.mode.ABS? || op.mode.ZPG? then
        Ok(Effect(m.(regs := m.regs.SetA(Read(m.ram, FromU16(arg.value)))), false))
      else Panicked(InvalidMode)
    case STA =>
      if op.mode.ABS? || op.mode.ZPG? || op.mode.INDX? then
        Ok(Effect(m.(ram := Write(m.ram, FromU16(arg.value), m.regs.A)), false))
      else Panicked(InvalidMode)
    case ADC =>
      if op.mode.IMM? then Ok(Effect(m.(regs := m.regs.AddA(AsU8(arg.value))), false))
      else Panicked(InvalidMode)
    case JMP =>
      if op.mode.ABS? then Ok(Effect(m.(regs := m.regs.(PC := FromU16(arg.value))), false))
      else Panicked(InvalidMode)
    case BEQ =>
      if !op.mode.REL? then Panicked(UnimplementedOpcode)
      else if FlagSet(m.regs.flags, Zero) then
        Ok(Effect(m.(regs := m.regs.(PC := FromU16(arg.value))), true))
      else Ok(Effect(m, false))
    case BNE =>
      if !op.mode.REL? then Panicked(UnimplementedOpcode)
      else if !FlagSet(m.regs.flags, Zero) then
        Ok(Effect(m.(regs := m.regs.(PC := FromU16(arg.value))), true))
      else Ok(Effect(m, false))
    case Other => Panicked(UnimplementedOpcode)
  }

  /** Everything `step` does after the optional reset-vector load: fetch,
      decode, then `Run` the decoded instruction. On a panic the machine is
      returned as it stood when the panic fired. */
  function Execute(m: Machine, decode: Decoder): (Machine, Outcome) {
    var code := Read(m.ram, m.regs.PC);
    match decode(code)
    case None => (m, Err(UnknownOp(code)))
    case Some(op) => Run(m, op)
  }

  /** A decoded instruction: resolve the operand, dispatch, then `Advance`. */
  function Run(m: Machine, op: Opcode): (Machine, Outcome) {
    match FetchOperand(m.ram, m.regs, op.mode)
    case Panicked(f) => (m, Fatal(f))
    case Ok(arg) =>
      match DispatchEffect(m, op, arg)
      case Panicked(f) => (m, Fatal(f))
      case Ok(e) => Advance(e, op)
  }

  /** After dispatch: PC moves past the instruction unless a branch was
      taken or the instruction was JMP, and the cycle is counted. */
  function Advance(e: Effect, op: Opcode): (Machine, Outcome) {
    var m := e.m;
    if e.branchTaken || op.name.JMP? then (m.(cycles := m.cycles + 1), Done)
    else
      match Add(m.regs.PC, FromUsize(GetSize(op.mode)).value)
      case Panicked(f) => (m, Fatal(f))
      case Ok(pc) => (m.(regs := m.regs.(PC := pc), cycles := m.cycles + 1), Done)
  }

  /** The transition `t` ends in machine `m` with outcome `r`: the same
      cycle count, RAM, registers and outcome. */
  predicate Agrees(t: (Machine, Outcome), m: Machine, r: Outcome) {
    t.1 == r && t.0.cycles == m.cycles && t.0.ram == m.ram && t.0.regs == m.regs
  }

  /** `step`: on the first call (no cycle counted yet) PC is first loaded
      from the reset vector. */
  function Transition(m: Machine, decode: Decoder): (Machine, Outcome) {
    Execute(if m.cycles == 0 then LoadResetVector(m) else m, decode)
  }

  /** `System`. */
  class System {
    var cycles: nat
    const ram: Ram
    var registers: Registers

    ghost predicate Valid() {
      ram.Valid()
    }

    function Value(): Machine
      requires Valid()
      reads this, ram.bytes, registers
    {
      Machine(cycles, ram.bytes[..], registers.Value())
    }

    /** `System::new`. */
    constructor ()
      ensures Valid() && fresh(ram) && fresh(ram.bytes) && fresh(registers)
      ensures Value() == PowerOn()
    {
      cycles := 0;
      ram := new Ram(Zeroed());
      registers := new Registers();
    }

    /** `init`: loads PC from the reset vector (it always returns `Ok`). */
    method Init()
      requires Valid()
      modifies registers
      ensures Value() == LoadResetVector(old(Value()))
    {
      var lo := ram.Index(RESET_VEC_ADDR);
      var hi := ram.Index(SamePageAdd(RESET_VEC_ADDR, 1));
      registers.PC := FromU16(hi as int * 0x100 + lo);
    }

    /** The `match code.name { ... }` block of `step`: applies the
        instruction's effect in place and reports whether a branch was
        taken, or the panic it raises (before changing anything). */
    method Dispatch(op: Opcode, arg: Option<u16>) returns (result: Checked<bool>)
      requires Valid()
      requires arg.Some? <==> HasOperand(op.mode)
      modifies registers, ram.bytes
      ensures result.Ok? ==> DispatchEffect(old(Value()), op, arg) == Ok(Effect(Value(), result.value))
      ensures result.Panicked? ==>
                DispatchEffect(old(Value()), op, arg) == Panicked(result.fault) && Value() == old(Value())
    {
      var branchTaken := false;
      match op.name {
        case BRK =>
        case NOP =>
        case LDA =>
          if op.mode.IMM? {
            registers.SetA(AsU8(arg.value));
          } else if op.mode.ABS? || op.mode.ZPG? {
            registers.SetA(ram.Index(FromU16(arg.value)));
          } else {
            return Panicked(InvalidMode);
          }
        case STA =>
          if op.mode.ABS? || op.mode.ZPG? || op.mode.INDX? {
            ram.Set(FromU16(arg.value), registers.A);
          } else {
            return Panicked(InvalidMode);
          }
        case ADC =>
          if op.mode.IMM? {
            registers.AddA(AsU8(arg.value));
          } else {
            return Panicked(InvalidMode);
          }
        case JMP =>
          if op.mode.ABS? {
            registers.PC := FromU16(arg.value);
          } else {
            return Panicked(InvalidMode);
          }
        case BEQ =>
          if !op.mode.REL? {
            return Panicked(UnimplementedOpcode);
          }
          if registers.Test(Zero) {
            registers.PC := FromU16(arg.value);
            branchTaken := true;
          }
        case BNE =>
          if !op.mode.REL? {
            return Panicked(UnimplementedOpcode);
          }
          if !registers.Test(Zero) {
            registers.PC := FromU16(arg.value);
            branchTaken := true;
          }
        case Other =>
          return Panicked(UnimplementedOpcode);
      }
      return Ok(branchTaken);
    }

    /** `step`, with the opcode table passed in. */
    method Step(decode: Decoder) returns (r: Outcome)
      requires Valid()
      modifies this, registers, ram.bytes
      ensures Valid() && registers == old(registers)
      ensures Agrees(Transition(old(Value()), decode), Value(), r)
    {
      if cycles == 0 {
        Init();
      }
      ghost var m := Value();
      assert m == (if old(cycles) == 0 then LoadResetVector(old(Value())) else old(Value()));
      var code := ram.Index(registers.PC);
      var op: Opcode;
      match decode(code) {
        case None => return Err(UnknownOp(code));
        case Some(o) => op := o;
      }
      var operand := FetchOperand(ram.bytes[..], registers.Value(), op.mode);
      if operand.Panicked? {
        return Fatal(operand.fault);
      }
      var arg := operand.value;
      var dispatched := Dispatch(op, arg);
      if dispatched.Panicked? {
        return Fatal(dispatched.fault);
      }
      var branchTaken := dispatched.value;  // PC is not advanced after a taken branch
      if !(branchTaken || op.name.JMP?) {
        var pc := Add(registers.PC, FromUsize(GetSize(op.mode)).value);
        if pc.Panicked? {
          return Fatal(pc.fault);
        }
        registers.PC := pc.value;
      }
      cycles := cycles + 1;
      return Done;
    }

    /** `restart`: zero cycles, zero RAM, default registers. The program is
        not reloaded. */
    method Restart()
      requires Valid()
      modifies this, ram.bytes
      ensures Valid() && fresh(registers)
      ensures Value() == PowerOn()
    {
      cycles := 0;
      ram.Load(Zeroed());
      registers := new Registers();
    }
  }
}
