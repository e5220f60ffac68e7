/** What one `step` of the earlier `sixty_five` engine guarantees, stated
    over `SixtyFiveEmulator.Transition`. */
module SixtyFiveProperties {
  import opened Bits
  import opened Errors
  import opened AddressingModes
  import opened Opcodes
  import opened Components
  import opened Runs
  import opened SixtyFiveCpu
  import opened SixtyFiveEmulator

  /** The PC the instruction is fetched from: the reset vector on the first
      step, the current PC afterwards. */
  function StartPC(s: State): (pc: u16)
    ensures s.cycles == 0 ==> pc == s.ram[0xFFFD] as int * 0x100 + s.ram[0xFFFC]
  {
    if s.cycles == 0 then ResetVector(s.ram) else s.cpu.PC
  }

  /** The state the instruction executes on (after the optional `init`). */
  function Started(s: State): State {
    s.(cpu := s.cpu.(PC := StartPC(s)))
  }

  /** The opcode byte `step` fetches. */
  function OpcodeByte(s: State): u8 {
    s.ram[StartPC(s)]
  }

  /** The first step loads PC from the reset vector, and only the first. */
  lemma ResetVectorOnFirstStep(s: State, decode: Decoder)
    ensures Started(s) == (if s.cycles == 0 then LoadResetVector(s) else s)
    ensures Transition(s, decode) == Execute(Started(s), decode)
  {
  }

  /** The step completed (`Ok(())`) and left exactly the state `t`: the
      same cycle count, RAM and CPU. */
  predicate EndsIn(r: (State, Outcome), t: State) {
    r.1 == Done && r.0.cycles == t.cycles && r.0.ram == t.ram && r.0.cpu == t.cpu
  }

  /** With Break clear, a step whose opcode byte decodes to `op` runs `op`
      on the started state. */
  lemma StepRuns(s: State, decode: Decoder, op: Opcode)
    requires !FlagSet(s.cpu.flags, Flag.Break)
    requires decode(OpcodeByte(s)) == Some(op)
    ensures Transition(s, decode) == Run(Started(s), op)
  {
    ResetVectorOnFirstStep(s, decode);
  }

  /** An instruction other than BRK whose operand resolves and whose
      dispatch succeeds finishes with `Advance`. */
  lemma RunCompletes(s: State, op: Opcode, arg: Option<u16>, e: Effect)
    requires !op.name.BRK?
    requires FetchOperand(s.ram, s.cpu, op.mode) == Ok(arg)
    requires arg.Some? <==> HasOperand(op.mode)
    requires DispatchEffect(s, op, arg) == Ok(e)
    ensures Run(s, op) == Advance(e, op)
  {
  }

  /** Without a taken branch or a JMP, and below the top of memory, the
      advance moves PC by the instruction's length and counts one cycle. */
  lemma AdvancePastInstruction(e: Effect, op: Opcode)
    requires !e.branchTaken && !op.name.JMP?
    requires e.s.cpu.PC + GetSize(op.mode) <= 0xFFFF
    ensures EndsIn(Advance(e, op),
                   e.s.(cpu := e.s.cpu.(PC := e.s.cpu.PC + GetSize(op.mode)), cycles := e.s.cycles + 1))
  {
  }

  /** Without a taken branch or a JMP, an advance past 0xFFFF is the
      `u16 +=` overflow panic; the state stays as dispatch left it and no
      cycle is counted. */
  lemma AdvanceOverflow(e: Effect, op: Opcode)
    requires !e.branchTaken && !op.name.JMP?
    requires e.s.cpu.PC + GetSize(op.mode) > 0xFFFF
    ensures Advance(e, op) == (e.s, Fatal(ArithmeticOverflow))
  {
  }

  /** After a taken branch or a JMP the advance only counts the cycle. */
  lemma AdvanceAfterJump(e: Effect, op: Opcode)
    requires e.branchTaken || op.name.JMP?
    ensures EndsIn(Advance(e, op), e.s.(cycles := e.s.cycles + 1))
  {
  }

  /** A set Break flag stops every step before the opcode is fetched. */
  lemma BreakFlagHalts(s: State, decode: Decoder)
    requires FlagSet(s.cpu.flags, Flag.Break)
    ensures Transition(s, decode) == (Started(s), Err(CpuError.Break))
  {
  }

  /** An opcode byte with no table entry yields `UnknownOp(byte)`; nothing
      changes except the reset-vector load of a first step. */
  lemma UnknownOpcodeChangesNothing(s: State, decode: Decoder)
    requires !FlagSet(s.cpu.flags, Flag.Break)
    requires decode(OpcodeByte(s)).None?
    ensures Transition(s, decode) == (Started(s), Err(UnknownOp(OpcodeByte(s))))
  {
  }

  /** BRK reports `Break` without changing any register, any byte or the
      cycle count (once its IMPL operand has resolved). */
  lemma BreakInstructionStops(s: State, decode: Decoder)
    requires !FlagSet(s.cpu.flags, Flag.Break)
    requires decode(OpcodeByte(s)) == Some(Opcode(BRK, IMPL))
    ensures Transition(s, decode) == (Started(s), Err(CpuError.Break))
  {
    StepRuns(s, decode, Opcode(BRK, IMPL));
  }

  /** A step that succeeds counts exactly one cycle; any other step counts none. */
  lemma CyclesCountSuccessfulSteps(s: State, decode: Decoder)
    ensures Transition(s, decode).1 == Done ==> Transition(s, decode).0.cycles == s.cycles + 1
    ensures Transition(s, decode).1 != Done ==> Transition(s, decode).0.cycles == s.cycles
  {
    ResetVectorOnFirstStep(s, decode);
    if !FlagSet(s.cpu.flags, Flag.Break) {
      match decode(OpcodeByte(s))
      case None =>
      case Some(op) =>
        StepRuns(s, decode, op);
        RunInvariants(Started(s), op);
    }
  }

  /** Every instruction other than JMP and a taken branch moves PC by the
      length of its addressing mode; an advance past 0xFFFF is the `u16`
      overflow panic. */
  lemma StepAdvancesBySize(s: State, decode: Decoder)
    requires decode(OpcodeByte(s)).Some?
    requires var op := decode(OpcodeByte(s)).value;
             !op.name.JMP? && !op.name.BEQ? && !op.name.BNE?
    ensures var (s', out) := Transition(s, decode);
            var op := decode(OpcodeByte(s)).value;
            && (out == Done ==> s'.cpu.PC == StartPC(s) + GetSize(op.mode))
            && (out.Fatal? && out.fault == ArithmeticOverflow ==> StartPC(s) + GetSize(op.mode) > 0xFFFF)
  {
    ResetVectorOnFirstStep(s, decode);
    if !FlagSet(s.cpu.flags, Flag.Break) {
      var op := decode(OpcodeByte(s)).value;
      var t := Started(s);
      StepRuns(s, decode, op);
      match FetchOperand(t.ram, t.cpu, op.mode)
      case Panicked(_) =>
      case Ok(arg) =>
        if !op.name.BRK? {
          DispatchInvariants(t, op, arg);
        }
    }
  }

  /** NOP at the last address of memory panics on the PC advance, after
      having changed nothing. */
  lemma AdvancePastTopIsFatal(s: State, decode: Decoder)
    requires !FlagSet(s.cpu.flags, Flag.Break)
    requires StartPC(s) == 0xFFFF
    requires decode(OpcodeByte(s)) == Some(Opcode(NOP, IMPL))
    ensures Transition(s, decode) == (Started(s), Fatal(ArithmeticOverflow))
  {
    var op := Opcode(NOP, IMPL);
    StepRuns(s, decode, op);
    RunCompletes(Started(s), op, None, Effect(Started(s), false));
  }

  /** One-byte operands (IMM, ZPG) are the byte right after the opcode, with
      no wrap within the page; at 0xFFFF that byte is past the array. */
  lemma ByteOperand(ram: Memory, cpu: CpuState, mode: AddressingMode)
    requires mode.IMM? || mode.ZPG?
    ensures cpu.PC <= 0xFFFE ==> FetchOperand(ram, cpu, mode) == Ok(Some(ram[cpu.PC + 1]))
    ensures cpu.PC == 0xFFFF ==> FetchOperand(ram, cpu, mode) == Panicked(IndexOutOfBounds)
  {
  }

  /** The little-endian word in the two bytes after the opcode at `pc`. */
  function OperandWord(ram: Memory, pc: u16): u16
    requires pc <= 0xFFFD
  {
    ram[pc + 2] as int * 0x100 + ram[pc + 1]
  }

  /** ABS operands are the little-endian word after the opcode; from 0xFFFE
      on its high byte is past the array. */
  lemma AbsoluteOperand(ram: Memory, cpu: CpuState)
    ensures cpu.PC <= 0xFFFD ==> FetchOperand(ram, cpu, ABS) == Ok(Some(OperandWord(ram, cpu.PC)))
    ensures cpu.PC >= 0xFFFE ==> FetchOperand(ram, cpu, ABS) == Panicked(IndexOutOfBounds)
  {
  }

  /** `(zp,X)`: the pointer is `(byte after opcode + X) mod 256` and both
      pointer bytes are read from page zero, so a pointer of 0xFF takes its
      high byte from 0x0000. */
  lemma IndexedIndirectWrapsInPageZero(ram: Memory, cpu: CpuState)
    requires cpu.PC <= 0xFFFE
    ensures var p := (cpu.X + ram[cpu.PC + 1]) % 0x100;
            var r := FetchOperand(ram, cpu, INDX);
            r.Ok? && r.value.Some? && r.value.value == ram[(p + 1) % 0x100] as int * 0x100 + ram[p]
    ensures var r := FetchOperand(ram, cpu, INDX);
            (cpu.X + ram[cpu.PC + 1]) % 0x100 == 0xFF ==>
              r.Ok? && r.value.Some? && r.value.value == ram[0x0000] as int * 0x100 + ram[0x00FF]
  {
  }

  /** The address an ABS, ZPG or INDX operand designates, for the
      instruction at `cpu.PC`. */
  function OperandAddress(ram: Memory, cpu: CpuState, mode: AddressingMode): u16
    requires mode.ABS? || mode.ZPG? || mode.INDX?
    requires cpu.PC + GetSize(mode) <= 0xFFFF
  {
    if mode.ABS? then OperandWord(ram, cpu.PC)
    else if mode.ZPG? then ram[cpu.PC + 1]
    else
      var p := (cpu.X + ram[cpu.PC + 1]) % 0x100;
      ram[(p + 1) % 0x100] as int * 0x100 + ram[p]
  }

  /** ABS, ZPG and INDX operands in closed form, below the top of memory. */
  lemma OperandInClosedForm(ram: Memory, cpu: CpuState, mode: AddressingMode)
    requires mode.ABS? || mode.ZPG? || mode.INDX?
    requires cpu.PC + GetSize(mode) <= 0xFFFF
    ensures FetchOperand(ram, cpu, mode) == Ok(Some(OperandAddress(ram, cpu, mode)))
  {
    match mode
    case ABS => AbsoluteOperand(ram, cpu);
    case ZPG => ByteOperand(ram, cpu, ZPG);
    case INDX =>
  }

  /** JMP absolute sets PC to the operand word and does not advance it;
      nothing else but the cycle count changes. */
  lemma JumpAbsolute(s: State, decode: Decoder)
    requires !FlagSet(s.cpu.flags, Flag.Break)
    requires StartPC(s) <= 0xFFFD
    requires decode(OpcodeByte(s)) == Some(Opcode(JMP, ABS))
    ensures EndsIn(Transition(s, decode),
                   s.(cpu := s.cpu.(PC := OperandWord(s.ram, StartPC(s))), cycles := s.cycles + 1))
  {
    var t := Started(s);
    var op := Opcode(JMP, ABS);
    StepRuns(s, decode, op);
    var w := OperandWord(s.ram, StartPC(s));
    AbsoluteOperand(t.ram, t.cpu);
    var e := Effect(t.(cpu := t.cpu.(PC := w)), false);
    assert DispatchEffect(t, op, Some(w)) == Ok(e);
    RunCompletes(t, op, Some(w), e);
    AdvanceAfterJump(e, op);
  }

  /** The branch target of a REL operand: the signed byte after the opcode
      added to the opcode's own address, modulo 0x10000. */
  function RelTarget(ram: Memory, pc: u16): (t: u16)
    requires pc <= 0xFFFE
    ensures ram[pc + 1] == 0xFE ==> t == (pc - 2) % 0x1_0000
  {
    (pc + SignExtend(ram[pc + 1])) % 0x1_0000
  }

  /** BEQ (taken when Zero is set) and BNE (taken when Zero is clear): a
      taken branch sets PC to the REL target; an untaken one advances PC
      by 2, which at 0xFFFE is the `u16 +=` overflow panic. */
  lemma ConditionalBranch(s: State, decode: Decoder, op: Opcode)
    requires !FlagSet(s.cpu.flags, Flag.Break)
    requires StartPC(s) <= 0xFFFE
    requires decode(OpcodeByte(s)) == Some(op) && (op == Opcode(BEQ, REL) || op == Opcode(BNE, REL))
    ensures var taken := FlagSet(s.cpu.flags, Zero) == op.name.BEQ?;
            var pc := StartPC(s);
            taken || pc <= 0xFFFD ==>
              EndsIn(Transition(s, decode),
                     s.(cpu := s.cpu.(PC := if taken then RelTarget(s.ram, pc) else pc + 2), cycles := s.cycles + 1))
    ensures var taken := FlagSet(s.cpu.flags, Zero) == op.name.BEQ?;
            var (s', out) := Transition(s, decode);
            !taken && StartPC(s) == 0xFFFE ==>
              && out == Fatal(ArithmeticOverflow)
              && s'.cpu == Started(s).cpu && s'.ram == s.ram && s'.cycles == s.cycles
  {
    StepRuns(s, decode, op);
    BranchRun(Started(s), op);
  }

  /** `ConditionalBranch` for an instruction already decoded. */
  lemma BranchRun(t: State, op: Opcode)
    requires t.cpu.PC <= 0xFFFE
    requires op == Opcode(BEQ, REL) || op == Opcode(BNE, REL)
    ensures var taken := FlagSet(t.cpu.flags, Zero) == op.name.BEQ?;
            taken || t.cpu.PC <= 0xFFFD ==>
              EndsIn(Run(t, op),
                     t.(cpu := t.cpu.(PC := if taken then RelTarget(t.ram, t.cpu.PC) else t.cpu.PC + 2),
                        cycles := t.cycles + 1))
    ensures var taken := FlagSet(t.cpu.flags, Zero) == op.name.BEQ?;
            !taken && t.cpu.PC == 0xFFFE ==> Run(t, op) == (t, Fatal(ArithmeticOverflow))
  {
    var target := RelTarget(t.ram, t.cpu.PC);
    assert FetchOperand(t.ram, t.cpu, REL) == Ok(Some(target));
    var taken := FlagSet(t.cpu.flags, Zero) == op.name.BEQ?;
    var e := Effect(if taken then t.(cpu := t.cpu.(PC := target)) else t, taken);
    assert DispatchEffect(t, op, Some(target)) == Ok(e);
    RunCompletes(t, op, Some(target), e);
    if taken {
      AdvanceAfterJump(e, op);
    } else if t.cpu.PC <= 0xFFFD {
      AdvancePastInstruction(e, op);
    } else {
      AdvanceOverflow(e, op);
    }
  }

  /** The byte LDA loads: the operand itself for IMM, the byte at the
      operand address for ABS and ZPG. */
  function LoadedByte(ram: Memory, cpu: CpuState, mode: AddressingMode): u8
    requires mode.IMM? || mode.ABS? || mode.ZPG?
    requires cpu.PC + GetSize(mode) <= 0xFFFF
  {
    if mode.IMM? then ram[cpu.PC + 1] else ram[OperandAddress(ram, cpu, mode)]
  }

  /** LDA loads through `set_a` (immediate: the operand itself; ABS and
      ZPG: the byte at the operand address); memory is untouched and PC
      moves past the instruction. */
  lemma LoadAccumulator(s: State, decode: Decoder, op: Opcode)
    requires !FlagSet(s.cpu.flags, Flag.Break)
    requires decode(OpcodeByte(s)) == Some(op)
    requires op == Opcode(LDA, IMM) || op == Opcode(LDA, ABS) || op == Opcode(LDA, ZPG)
    requires StartPC(s) + GetSize(op.mode) <= 0xFFFF
    ensures var c := Started(s).cpu;
            EndsIn(Transition(s, decode),
                   s.(cpu := c.SetA(LoadedByte(s.ram, c, op.mode)).(PC := c.PC + GetSize(op.mode)),
                      cycles := s.cycles + 1))
  {
    StepRuns(s, decode, op);
    LoadRun(Started(s), op);
  }

  /** `LoadAccumulator` for an instruction already decoded. */
  lemma LoadRun(t: State, op: Opcode)
    requires op == Opcode(LDA, IMM) || op == Opcode(LDA, ABS) || op == Opcode(LDA, ZPG)
    requires t.cpu.PC + GetSize(op.mode) <= 0xFFFF
    ensures EndsIn(Run(t, op),
                   t.(cpu := t.cpu.SetA(LoadedByte(t.ram, t.cpu, op.mode)).(PC := t.cpu.PC + GetSize(op.mode)),
                      cycles := t.cycles + 1))
  {
    var arg: u16;
    if op.mode.IMM? {
      ByteOperand(t.ram, t.cpu, IMM);
      arg := t.ram[t.cpu.PC + 1];
    } else {
      OperandInClosedForm(t.ram, t.cpu, op.mode);
      arg := OperandAddress(t.ram, t.cpu, op.mode);
    }
    var e := Effect(t.(cpu := t.cpu.SetA(LoadedByte(t.ram, t.cpu, op.mode))), false);
    assert DispatchEffect(t, op, Some(arg)) == Ok(e);
    RunCompletes(t, op, Some(arg), e);
    AdvancePastInstruction(e, op);
  }

  /** ADC immediate adds through `add_a` (carry out, no carry in); memory
      is untouched and PC moves past the instruction. */
  lemma AddImmediate(s: State, decode: Decoder)
    requires !FlagSet(s.cpu.flags, Flag.Break)
    requires decode(OpcodeByte(s)) == Some(Opcode(ADC, IMM))
    requires StartPC(s) <= 0xFFFD
    ensures var c := Started(s).cpu;
            EndsIn(Transition(s, decode),
                   s.(cpu := c.AddA(s.ram[c.PC + 1]).(PC := c.PC + 2), cycles := s.cycles + 1))
  {
    StepRuns(s, decode, Opcode(ADC, IMM));
    AddRun(Started(s));
  }

  /** `AddImmediate` for an instruction already decoded. */
  lemma AddRun(t: State)
    requires t.cpu.PC <= 0xFFFD
    ensures EndsIn(Run(t, Opcode(ADC, IMM)),
                   t.(cpu := t.cpu.AddA(t.ram[t.cpu.PC + 1]).(PC := t.cpu.PC + 2), cycles := t.cycles + 1))
  {
    var op := Opcode(ADC, IMM);
    var v := t.ram[t.cpu.PC + 1];
    var arg: u16 := v;
    ByteOperand(t.ram, t.cpu, IMM);
    var e := Effect(t.(cpu := t.cpu.AddA(v)), false);
    assert DispatchEffect(t, op, Some(arg)) == Ok(e);
    RunCompletes(t, op, Some(arg), e);
    AdvancePastInstruction(e, op);
  }

  /** STA writes the accumulator to exactly one byte, at the resolved
      address; no register but PC changes. */
  lemma StoreWritesOneByte(s: State, decode: Decoder, op: Opcode)
    requires !FlagSet(s.cpu.flags, Flag.Break)
    requires decode(OpcodeByte(s)) == Some(op)
    requires op == Opcode(STA, ABS) || op == Opcode(STA, ZPG) || op == Opcode(STA, INDX)
    requires StartPC(s) + GetSize(op.mode) <= 0xFFFF
    ensures var target := OperandAddress(s.ram, Started(s).cpu, op.mode);
            var (s', out) := Transition(s, decode);
            && out == Done
            && s'.ram[target] == s.cpu.A
            && (forall i :: 0 <= i < MEMORY_SIZE && i != target ==> s'.ram[i] == s.ram[i])
            && s'.cpu == s.cpu.(PC := StartPC(s) + GetSize(op.mode))
            && s'.cycles == s.cycles + 1
  {
    StepRuns(s, decode, op);
    StoreRun(Started(s), op);
  }

  /** `StoreWritesOneByte` for an instruction already decoded. */
  lemma StoreRun(t: State, op: Opcode)
    requires op == Opcode(STA, ABS) || op == Opcode(STA, ZPG) || op == Opcode(STA, INDX)
    requires t.cpu.PC + GetSize(op.mode) <= 0xFFFF
    ensures var target := OperandAddress(t.ram, t.cpu, op.mode);
            EndsIn(Run(t, op),
                   t.(ram := t.ram[target := t.cpu.A], cpu := t.cpu.(PC := t.cpu.PC + GetSize(op.mode)),
                      cycles := t.cycles + 1))
  {
    OperandInClosedForm(t.ram, t.cpu, op.mode);
    var target := OperandAddress(t.ram, t.cpu, op.mode);
    var e := Effect(t.(ram := t.ram[target := t.cpu.A]), false);
    assert DispatchEffect(t, op, Some(target)) == Ok(e);
    RunCompletes(t, op, Some(target), e);
    AdvancePastInstruction(e, op);
  }

  /** A step only ever writes Zero, Negative and Carry; in particular it
      never sets Break, so the Break-flag stop cannot be reached from a
      state that starts with Break clear (such as power-on). */
  lemma StepKeepsStatusBits(s: State, decode: Decoder)
    ensures KeepsStatusBits(s.cpu.flags, Transition(s, decode).0.cpu.flags)
    ensures !FlagSet(s.cpu.flags, Flag.Break) ==> !FlagSet(Transition(s, decode).0.cpu.flags, Flag.Break)
  {
    ResetVectorOnFirstStep(s, decode);
    if !FlagSet(s.cpu.flags, Flag.Break) {
      match decode(OpcodeByte(s))
      case None =>
      case Some(op) =>
        StepRuns(s, decode, op);
        RunInvariants(Started(s), op);
    }
  }

  /** What a decoded instruction preserves, whatever it is: one cycle is
      counted exactly when it completes, and only Zero, Negative and Carry
      are written. */
  lemma RunInvariants(t: State, op: Opcode)
    ensures var (t', out) := Run(t, op);
            && (out == Done ==> t'.cycles == t.cycles + 1)
            && (out != Done ==> t'.cycles == t.cycles)
            && KeepsStatusBits(t.cpu.flags, t'.cpu.flags)
  {
    match FetchOperand(t.ram, t.cpu, op.mode)
    case Panicked(_) =>
    case Ok(arg) =>
      if !op.name.BRK? {
        DispatchInvariants(t, op, arg);
      }
  }

  /** Dispatch leaves the cycle count alone, writes only Zero, Negative and
      Carry (LDA through `set_a`, ADC through `add_a`), and only JMP and the
      branches touch PC. */
  lemma DispatchInvariants(t: State, op: Opcode, arg: Option<u16>)
    requires arg.Some? <==> HasOperand(op.mode)
    requires !op.name.BRK?
    ensures var r := DispatchEffect(t, op, arg);
            r.Ok? ==>
              && r.value.s.cycles == t.cycles
              && KeepsStatusBits(t.cpu.flags, r.value.s.cpu.flags)
              && (!op.name.JMP? && !op.name.BEQ? && !op.name.BNE? ==>
                    r.value.s.cpu.PC == t.cpu.PC && !r.value.branchTaken)
  {
    var r := DispatchEffect(t, op, arg);
    if r.Ok? {
      var after := r.value.s.cpu.flags;
      if op.name.LDA? {
        assert after == FlagsAfterLoad(t.cpu.flags, r.value.s.cpu.A);
      } else if op.name.ADC? {
        assert after == AddWithCarryOut(t.cpu.A, t.cpu.flags, AsU8(arg.value)).1;
      } else {
        assert after == t.cpu.flags;
      }
    }
  }

  /** One `step` as a function of the state. */
  function StepFunction(decode: Decoder): State -> (State, Outcome) {
    s => Transition(s, decode)
  }

  /** `n` successive calls of `step`, stopping at the first call that does
      not return `Ok(())`. */
  function Steps(s: State, decode: Decoder, n: nat): (State, Outcome) {
    Iterate(StepFunction(decode), s, n)
  }

  /** Over any run from a state with Break clear (such as power-on), Break
      stays clear, so the Break-flag stop never fires; only Zero, Negative
      and Carry change; and the cycle count grows by the number of completed
      steps. */
  lemma StepsInvariants(s: State, decode: Decoder, n: nat)
    ensures var (s', out) := Steps(s, decode, n);
            && KeepsStatusBits(s.cpu.flags, s'.cpu.flags)
            && (!FlagSet(s.cpu.flags, Flag.Break) ==> !FlagSet(s'.cpu.flags, Flag.Break))
            && (out == Done ==> s'.cycles == s.cycles + n)
            && (out != Done ==> s.cycles <= s'.cycles < s.cycles + n)
  {
    var next := StepFunction(decode);
    var inv := (t: State) => KeepsStatusBits(s.cpu.flags, t.cpu.flags);
    forall t | inv(t)
      ensures inv(next(t).0)
    {
      StepKeepsStatusBits(t, decode);
    }
    IterateKeeps(next, inv, s, n);
    forall t
      ensures next(t).1 == Done ==> next(t).0.cycles == t.cycles + 1
      ensures next(t).1 != Done ==> next(t).0.cycles == t.cycles
    {
      CyclesCountSuccessfulSteps(t, decode);
    }
    IterateCounts(next, (t: State) => t.cycles, s, n);
  }

  /** After `restart` and a program load, the next step starts over from the
      loaded image's reset vector with Break clear. */
  lemma RestartReloadsResetVector(image: Memory, decode: Decoder)
    ensures var s := PowerOn().(ram := image);
            && StartPC(s) == image[0xFFFD] as int * 0x100 + image[0xFFFC]
            && !FlagSet(s.cpu.flags, Flag.Break)
            && Transition(s, decode) == Execute(Started(s), decode)
  {
  }

  /** Reset vector 0x0600 and the program `A9 05 8D 00 02` (LDA #$05;
      STA $0200): two steps leave A = 0x05, 0x05 at 0x0200, PC = 0x0605 and
      two cycles counted. */
  lemma LoadStoreProgram(s: State, decode: Decoder)
    requires s.cycles == 0 && s.ram[0xFFFC] == 0x00 && s.ram[0xFFFD] == 0x06
    requires !FlagSet(s.cpu.flags, Flag.Break)
    requires s.ram[0x0600] == 0xA9 && s.ram[0x0601] == 0x05
    requires s.ram[0x0602] == 0x8D && s.ram[0x0603] == 0x00 && s.ram[0x0604] == 0x02
    requires decode(0xA9) == Some(Opcode(LDA, IMM)) && decode(0x8D) == Some(Opcode(STA, ABS))
    ensures var (s1, o1) := Transition(s, decode);
            var (s2, o2) := Transition(s1, decode);
            && o1 == Done && o2 == Done
            && s2.cpu.A == 0x05 && s2.ram[0x0200] == 0x05
            && s2.cpu.PC == 0x0605 && s2.cycles == 2
  {
    LoadAccumulator(s, decode, Opcode(LDA, IMM));
    var s1 := Transition(s, decode).0;
    assert s1.cpu.PC == 0x0602 && s1.cpu.A == 0x05 && s1.ram == s.ram;
    StepKeepsStatusBits(s, decode);
    assert OperandAddress(s1.ram, s1.cpu, ABS) == 0x0200;
    StoreWritesOneByte(s1, decode, Opcode(STA, ABS));
  }
}
