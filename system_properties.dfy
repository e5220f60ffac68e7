/** What one `step` of the live engine guarantees, stated over
    `SystemEngine.Transition`. */
module SystemProperties {
  import opened Bits
  import opened Errors
  import opened AddressingModes
  import opened Opcodes
  import opened Components
  import opened Runs
  import opened SystemEngine

  /** The PC the instruction is fetched from: the reset vector on the first
      step, the current PC afterwards. */
  function StartPC(m: Machine): (pc: Address)
    ensures m.cycles == 0 ==> pc.raw == m.ram[0xFFFD] as int * 0x100 + m.ram[0xFFFC]
  {
    if m.cycles == 0 then ResetVector(m.ram) else m.regs.PC
  }

  /** The machine the instruction executes on (after the optional `init`). */
  function Started(m: Machine): Machine {
    m.(regs := m.regs.(PC := StartPC(m)))
  }

  /** The opcode byte `step` fetches. */
  function OpcodeByte(m: Machine): u8 {
    Read(m.ram, StartPC(m))
  }

  /** The step completed (`Ok(())`) and left exactly the machine `m`: the
      same cycle count, RAM and registers. */
  predicate EndsIn(r: (Machine, Outcome), m: Machine) {
    r.1 == Done && r.0.cycles == m.cycles && r.0.ram == m.ram && r.0.regs == m.regs
  }

  /** The first step loads PC from the reset vector, and only the first:
      `Transition` is `Execute` from the reset vector exactly when no cycle
      has been counted yet. */
  lemma ResetVectorOnFirstStep(m: Machine, decode: Decoder)
    ensures Started(m) == (if m.cycles == 0 then LoadResetVector(m) else m)
    ensures Transition(m, decode) == Execute(Started(m), decode)
  {
  }

  /** A step whose opcode byte decodes to `op` runs `op` on the started
      machine. */
  lemma StepRuns(m: Machine, decode: Decoder, op: Opcode)
    requires decode(OpcodeByte(m)) == Some(op)
    ensures Transition(m, decode) == Run(Started(m), op)
  {
    ResetVectorOnFirstStep(m, decode);
  }

  /** An instruction whose operand resolves and whose dispatch succeeds
      finishes with `Advance`. */
  lemma RunCompletes(m: Machine, op: Opcode, arg: Option<u16>, e: Effect)
    requires FetchOperand(m.ram, m.regs, op.mode) == Ok(arg)
    requires arg.Some? <==> HasOperand(op.mode)
    requires DispatchEffect(m, op, arg) == Ok(e)
    ensures Run(m, op) == Advance(e, op)
  {
  }

  /** Without a taken branch or a JMP, and below the top of memory, the
      advance moves PC by the instruction's length and counts one cycle. */
  lemma AdvancePastInstruction(e: Effect, op: Opcode)
    requires !e.branchTaken && !op.name.JMP?
    requires e.m.regs.PC.raw + GetSize(op.mode) <= 0xFFFF
    ensures EndsIn(Advance(e, op),
                   e.m.(regs := e.m.regs.(PC := Address(e.m.regs.PC.raw + GetSize(op.mode))),
                        cycles := e.m.cycles + 1))
  {
  }

  /** Without a taken branch or a JMP, an advance past 0xFFFF is the
      out-of-range panic of `Address` addition; the machine stays as
      dispatch left it and no cycle is counted. */
  lemma AdvanceOutOfRange(e: Effect, op: Opcode)
    requires !e.branchTaken && !op.name.JMP?
    requires e.m.regs.PC.raw <= 0xFFFF < e.m.regs.PC.raw + GetSize(op.mode)
    ensures Advance(e, op) == (e.m, Fatal(AddressOutOfRange))
  {
  }

  /** After a taken branch or a JMP the advance only counts the cycle. */
  lemma AdvanceAfterJump(e: Effect, op: Opcode)
    requires e.branchTaken || op.name.JMP?
    ensures EndsIn(Advance(e, op), e.m.(cycles := e.m.cycles + 1))
  {
  }

  /** An opcode byte with no table entry yields `UnknownOp(byte)`; nothing
      changes except the reset-vector load of a first step. */
  lemma UnknownOpcodeChangesNothing(m: Machine, decode: Decoder)
    requires decode(OpcodeByte(m)).None?
    ensures Transition(m, decode).1 == Err(UnknownOp(OpcodeByte(m)))
    ensures Transition(m, decode).0 == Started(m)
    ensures m.cycles != 0 ==> Transition(m, decode).0 == m
  {
    ResetVectorOnFirstStep(m, decode);
  }

  /** A step that succeeds counts exactly one cycle; any other step counts none. */
  lemma CyclesCountSuccessfulSteps(m: Machine, decode: Decoder)
    ensures Transition(m, decode).1 == Done ==> Transition(m, decode).0.cycles == m.cycles + 1
    ensures Transition(m, decode).1 != Done ==> Transition(m, decode).0.cycles == m.cycles
  {
    ResetVectorOnFirstStep(m, decode);
    match decode(OpcodeByte(m))
    case None =>
    case Some(op) =>
      StepRuns(m, decode, op);
      RunInvariants(Started(m), op);
  }

  /** PC stays a 16-bit value: every way `step` sets it (reset vector, u16
      operand, checked addition) stays within 0..=0xFFFF. */
  lemma PcStaysInRange(m: Machine, decode: Decoder)
    requires m.regs.PC.raw <= 0xFFFF
    ensures Transition(m, decode).0.regs.PC.raw <= 0xFFFF
  {
    ResetVectorOnFirstStep(m, decode);
    match decode(OpcodeByte(m))
    case None =>
    case Some(op) =>
      StepRuns(m, decode, op);
      RunInvariants(Started(m), op);
  }

  /** A step only ever writes Zero, Negative and Carry: the always-one bit 5
      and every other status bit keep their value. */
  lemma StepKeepsStatusBits(m: Machine, decode: Decoder)
    ensures KeepsStatusBits(m.regs.flags, Transition(m, decode).0.regs.flags)
    ensures FlagSet(m.regs.flags, AlwaysOne) ==> FlagSet(Transition(m, decode).0.regs.flags, AlwaysOne)
  {
    ResetVectorOnFirstStep(m, decode);
    match decode(OpcodeByte(m))
    case None =>
    case Some(op) =>
      StepRuns(m, decode, op);
      RunInvariants(Started(m), op);
  }

  /** Every instruction other than JMP and a taken branch moves PC by the
      length of its addressing mode. */
  lemma StepAdvancesBySize(m: Machine, decode: Decoder)
    requires decode(OpcodeByte(m)).Some?
    requires var op := decode(OpcodeByte(m)).value;
             !op.name.JMP? && !op.name.BEQ? && !op.name.BNE?
    ensures var (m', out) := Transition(m, decode);
            var op := decode(OpcodeByte(m)).value;
            out == Done ==> m'.regs.PC.raw == StartPC(m).raw + GetSize(op.mode)
  {
    var op := decode(OpcodeByte(m)).value;
    var s := Started(m);
    StepRuns(m, decode, op);
    match FetchOperand(s.ram, s.regs, op.mode)
    case Panicked(_) =>
    case Ok(arg) =>
      DispatchInvariants(s, op, arg);
  }

  /** What a decoded instruction preserves, whatever it is: one cycle is
      counted exactly when it completes, only Zero, Negative and Carry are
      written, and PC stays 16-bit. */
  lemma RunInvariants(m: Machine, op: Opcode)
    ensures var (m', out) := Run(m, op);
            && (out == Done ==> m'.cycles == m.cycles + 1)
            && (out != Done ==> m'.cycles == m.cycles)
            && KeepsStatusBits(m.regs.flags, m'.regs.flags)
            && (m.regs.PC.raw <= 0xFFFF ==> m'.regs.PC.raw <= 0xFFFF)
  {
    match FetchOperand(m.ram, m.regs, op.mode)
    case Panicked(_) =>
    case Ok(arg) =>
      DispatchInvariants(m, op, arg);
  }

  /** Dispatch leaves the cycle count alone, writes only Zero, Negative and
      Carry (LDA through `set_a`, ADC through `add_a`), only ever sets PC to
      a 16-bit operand, and only JMP and the branches touch PC at all. */
  lemma DispatchInvariants(m: Machine, op: Opcode, arg: Option<u16>)
    requires arg.Some? <==> HasOperand(op.mode)
    ensures var r := DispatchEffect(m, op, arg);
            r.Ok? ==>
              && r.value.m.cycles == m.cycles
              && KeepsStatusBits(m.regs.flags, r.value.m.regs.flags)
              && (m.regs.PC.raw <= 0xFFFF ==> r.value.m.regs.PC.raw <= 0xFFFF)
              && (!op.name.JMP? && !op.name.BEQ? && !op.name.BNE? ==>
                    r.value.m.regs.PC == m.regs.PC && !r.value.branchTaken)
  {
    var r := DispatchEffect(m, op, arg);
    if r.Ok? {
      var after := r.value.m.regs.flags;
      if op.name.LDA? {
        assert after == FlagsAfterLoad(m.regs.flags, r.value.m.regs.A);
      } else if op.name.ADC? {
        assert after == AddWithCarryOut(m.regs.A, m.regs.flags, AsU8(arg.value)).1;
      } else {
        assert after == m.regs.flags;
      }
    }
  }

  /** `BRK` and `NOP` only move PC past the instruction (BRK is not reported
      by this engine). */
  lemma NoOperationInstructions(m: Machine, decode: Decoder, op: Opcode)
    requires StartPC(m).raw <= 0xFFFE
    requires decode(OpcodeByte(m)) == Some(op) && (op.name.BRK? || op.name.NOP?)
    requires op.mode.IMPL? || op.mode.A?
    ensures EndsIn(Transition(m, decode),
                   m.(regs := m.regs.(PC := Address(StartPC(m).raw + 1)), cycles := m.cycles + 1))
  {
    var s := Started(m);
    StepRuns(m, decode, op);
    var e := Effect(s, false);
    assert DispatchEffect(s, op, None) == Ok(e);
    RunCompletes(s, op, None, e);
    AdvancePastInstruction(e, op);
  }

  /** The little-endian word in the two bytes after the opcode at `pc`, read
      with the unchecked `next` (so it wraps to 0x0000 at the top of memory). */
  function OperandWord(ram: Memory, pc: Address): (w: u16)
    ensures pc.raw <= 0xFFFD ==> w == ram[pc.raw + 2] as int * 0x100 + ram[pc.raw + 1]
    ensures pc.raw == 0xFFFE ==> w == ram[0] as int * 0x100 + ram[0xFFFF]
    ensures pc.raw == 0xFFFF ==> w == ram[1] as int * 0x100 + ram[0]
  {
    Read(ram, Next(Next(pc))) as int * 0x100 + Read(ram, Next(pc))
  }

  /** The address an ABS, ZPG or INDX operand designates, for the
      instruction at `regs.PC`. */
  function OperandAddress(ram: Memory, regs: Regs, mode: AddressingMode): u16
    requires mode.ABS? || mode.ZPG? || mode.INDX?
  {
    if mode.ABS? then OperandWord(ram, regs.PC)
    else if mode.ZPG? then Read(ram, SamePageAdd(regs.PC, 1))
    else
      var pointer := FromU8((regs.X + Read(ram, Address(regs.PC.raw + 1))) % 0x100);
      Read(ram, Next(pointer)) as int * 0x100 + Read(ram, pointer)
  }

  /** IMM, ABS, ZPG and INDX operands in closed form: IMM's is the byte
      after the opcode, the others' is `OperandAddress`. */
  lemma OperandInClosedForm(ram: Memory, regs: Regs, mode: AddressingMode)
    requires mode.IMM? || mode.ABS? || mode.ZPG? || mode.INDX?
    requires regs.PC.raw <= 0xFFFE
    ensures mode.IMM? ==> FetchOperand(ram, regs, mode) == Ok(Some(Read(ram, Address(regs.PC.raw + 1)) as u16))
    ensures !mode.IMM? ==> FetchOperand(ram, regs, mode) == Ok(Some(OperandAddress(ram, regs, mode)))
  {
    match mode
    case IMM =>
      var v: u16 := Read(ram, Address(regs.PC.raw + 1));
      assert FetchOperand(ram, regs, IMM) == Ok(Some(v));
    case ABS =>
      assert FetchOperand(ram, regs, ABS) == Ok(Some(OperandWord(ram, regs.PC)));
    case ZPG =>
      var v: u16 := Read(ram, SamePageAdd(regs.PC, 1));
      assert FetchOperand(ram, regs, ZPG) == Ok(Some(v));
    case INDX =>
  }

  /** JMP absolute sets PC to the operand word and does not advance it;
      nothing else but the cycle count changes. */
  lemma JumpAbsolute(m: Machine, decode: Decoder)
    requires decode(OpcodeByte(m)) == Some(Opcode(JMP, ABS))
    ensures EndsIn(Transition(m, decode),
                   m.(regs := m.regs.(PC := Address(OperandWord(m.ram, StartPC(m)))), cycles := m.cycles + 1))
  {
    var s := Started(m);
    var op := Opcode(JMP, ABS);
    StepRuns(m, decode, op);
    var w := OperandWord(m.ram, StartPC(m));
    assert FetchOperand(s.ram, s.regs, ABS) == Ok(Some(w));
    var e := Effect(s.(regs := s.regs.(PC := Address(w))), false);
    assert DispatchEffect(s, op, Some(w)) == Ok(e);
    RunCompletes(s, op, Some(w), e);
    AdvanceAfterJump(e, op);
  }

  /** The branch target of a REL operand: the signed byte after the opcode
      added to the opcode's own address (not the address after the operand),
      modulo 0x10000. */
  function RelTarget(ram: Memory, pc: Address): (t: u16)
    requires pc.raw <= 0xFFFE
    ensures t == (pc.raw + SignExtend(ram[pc.raw + 1])) % 0x1_0000
    ensures ram[pc.raw + 1] == 0xFE ==> t == (pc.raw - 2) % 0x1_0000
  {
    (pc.raw + SignExtend(ram[pc.raw + 1])) % 0x1_0000
  }

  /** REL operands as `step` resolves them; at 0xFFFF the operand's address
      overflows. */
  lemma RelativeOperand(ram: Memory, regs: Regs)
    requires regs.PC.raw <= 0xFFFF
    ensures regs.PC.raw <= 0xFFFE ==> FetchOperand(ram, regs, REL) == Ok(Some(RelTarget(ram, regs.PC)))
    ensures regs.PC.raw == 0xFFFF ==> FetchOperand(ram, regs, REL) == Panicked(AddressOutOfRange)
  {
  }

  /** BEQ (taken when Zero is set) and BNE (taken when Zero is clear): a
      taken branch sets PC to the REL target and suppresses the advance; an
      untaken one advances PC by 2 like any two-byte instruction, which at
      0xFFFE is the out-of-range panic of `Address` addition. */
  lemma ConditionalBranch(m: Machine, decode: Decoder, op: Opcode)
    requires StartPC(m).raw <= 0xFFFE
    requires decode(OpcodeByte(m)) == Some(op) && (op == Opcode(BEQ, REL) || op == Opcode(BNE, REL))
    ensures var taken := FlagSet(m.regs.flags, Zero) == op.name.BEQ?;
            var pc := StartPC(m);
            taken || pc.raw <= 0xFFFD ==>
              EndsIn(Transition(m, decode),
                     m.(regs := m.regs.(PC := Address(if taken then RelTarget(m.ram, pc) else pc.raw + 2)),
                        cycles := m.cycles + 1))
    ensures var taken := FlagSet(m.regs.flags, Zero) == op.name.BEQ?;
            var (m', out) := Transition(m, decode);
            !taken && StartPC(m).raw == 0xFFFE ==>
              && out == Fatal(AddressOutOfRange)
              && m'.regs == Started(m).regs && m'.ram == m.ram && m'.cycles == m.cycles
  {
    StepRuns(m, decode, op);
    BranchRun(Started(m), op);
  }

  /** `ConditionalBranch` for an instruction already decoded. */
  lemma BranchRun(s: Machine, op: Opcode)
    requires s.regs.PC.raw <= 0xFFFE
    requires op == Opcode(BEQ, REL) || op == Opcode(BNE, REL)
    ensures var taken := FlagSet(s.regs.flags, Zero) == op.name.BEQ?;
            var pc := s.regs.PC;
            taken || pc.raw <= 0xFFFD ==>
              EndsIn(Run(s, op),
                     s.(regs := s.regs.(PC := Address(if taken then RelTarget(s.ram, pc) else pc.raw + 2)),
                        cycles := s.cycles + 1))
    ensures var taken := FlagSet(s.regs.flags, Zero) == op.name.BEQ?;
            !taken && s.regs.PC.raw == 0xFFFE ==> Run(s, op) == (s, Fatal(AddressOutOfRange))
  {
    RelativeOperand(s.ram, s.regs);
    var target := RelTarget(s.ram, s.regs.PC);
    var taken := FlagSet(s.regs.flags, Zero) == op.name.BEQ?;
    var e := Effect(if taken then s.(regs := s.regs.(PC := Address(target))) else s, taken);
    assert DispatchEffect(s, op, Some(target)) == Ok(e);
    RunCompletes(s, op, Some(target), e);
    if taken {
      AdvanceAfterJump(e, op);
    } else if s.regs.PC.raw <= 0xFFFD {
      AdvancePastInstruction(e, op);
    } else {
      AdvanceOutOfRange(e, op);
    }
  }

  /** `(zp,X)`: the pointer is `(byte after opcode + X) mod 256`, and the
      high byte of the target comes from the pointer's `next`, so a pointer
      of 0xFF takes it from 0x0100 rather than wrapping within page zero. */
  lemma IndexedIndirectOperand(ram: Memory, regs: Regs)
    requires regs.PC.raw <= 0xFFFE
    ensures var p := (regs.X + ram[regs.PC.raw + 1]) % 0x100;
            var r := FetchOperand(ram, regs, INDX);
            r.Ok? && r.value.Some? && r.value.value == ram[p + 1] as int * 0x100 + ram[p]
    ensures var r := FetchOperand(ram, regs, INDX);
            (regs.X + ram[regs.PC.raw + 1]) % 0x100 == 0xFF ==>
              r.Ok? && r.value.Some? && r.value.value == ram[0x0100] as int * 0x100 + ram[0x00FF]
  {
  }

  /** ZPG operands are read from PC's successor within PC's own page: an
      opcode at the end of a page takes its operand from the page's start. */
  lemma ZeroPageOperand(ram: Memory, regs: Regs)
    requires regs.PC.raw <= 0xFFFF
    ensures regs.PC.raw % 0x100 != 0xFF ==> FetchOperand(ram, regs, ZPG) == Ok(Some(ram[regs.PC.raw + 1]))
    ensures regs.PC.raw % 0x100 == 0xFF ==> FetchOperand(ram, regs, ZPG) == Ok(Some(ram[regs.PC.raw - 0xFF]))
  {
    var i := if regs.PC.raw % 0x100 != 0xFF then regs.PC.raw + 1 else regs.PC.raw - 0xFF;
    SamePageSuccessor(regs.PC);
    assert SamePageAdd(regs.PC, 1).raw == i;
    var v: u16 := ram[i];
    assert FetchOperand(ram, regs, ZPG) == Ok(Some(v));
  }

  /** The byte LDA loads: the operand itself for IMM, the byte at the
      operand address for ABS and ZPG. */
  function LoadedByte(ram: Memory, regs: Regs, mode: AddressingMode): u8
    requires mode.IMM? || mode.ABS? || mode.ZPG?
  {
    if mode.IMM? then Read(ram, Address(regs.PC.raw + 1))
    else Read(ram, Address(OperandAddress(ram, regs, mode)))
  }

  /** LDA loads through `set_a` (immediate: the operand itself; ABS and
      ZPG: the byte at the operand address); memory is untouched and PC
      moves past the instruction. */
  lemma LoadAccumulator(m: Machine, decode: Decoder, op: Opcode)
    requires decode(OpcodeByte(m)) == Some(op)
    requires op == Opcode(LDA, IMM) || op == Opcode(LDA, ABS) || op == Opcode(LDA, ZPG)
    requires StartPC(m).raw + GetSize(op.mode) <= 0xFFFF
    ensures var s := Started(m);
            EndsIn(Transition(m, decode),
                   m.(regs := s.regs.SetA(LoadedByte(m.ram, s.regs, op.mode)).(PC := Address(StartPC(m).raw + GetSize(op.mode))),
                      cycles := m.cycles + 1))
  {
    StepRuns(m, decode, op);
    LoadRun(Started(m), op);
  }

  /** `LoadAccumulator` for an instruction already decoded. */
  lemma LoadRun(s: Machine, op: Opcode)
    requires op == Opcode(LDA, IMM) || op == Opcode(LDA, ABS) || op == Opcode(LDA, ZPG)
    requires s.regs.PC.raw + GetSize(op.mode) <= 0xFFFF
    ensures EndsIn(Run(s, op),
                   s.(regs := s.regs.SetA(LoadedByte(s.ram, s.regs, op.mode)).(PC := Address(s.regs.PC.raw + GetSize(op.mode))),
                      cycles := s.cycles + 1))
  {
    OperandInClosedForm(s.ram, s.regs, op.mode);
    var arg: u16 := if op.mode.IMM? then Read(s.ram, Address(s.regs.PC.raw + 1)) else OperandAddress(s.ram, s.regs, op.mode);
    var e := Effect(s.(regs := s.regs.SetA(LoadedByte(s.ram, s.regs, op.mode))), false);
    assert DispatchEffect(s, op, Some(arg)) == Ok(e);
    RunCompletes(s, op, Some(arg), e);
    AdvancePastInstruction(e, op);
  }

  /** ADC immediate adds through `add_a` (carry out, no carry in); memory
      is untouched and PC moves past the instruction. */
  lemma AddImmediate(m: Machine, decode: Decoder)
    requires decode(OpcodeByte(m)) == Some(Opcode(ADC, IMM))
    requires StartPC(m).raw + 2 <= 0xFFFF
    ensures var s := Started(m);
            EndsIn(Transition(m, decode),
                   m.(regs := s.regs.AddA(Read(m.ram, Address(StartPC(m).raw + 1))).(PC := Address(StartPC(m).raw + 2)),
                      cycles := m.cycles + 1))
  {
    StepRuns(m, decode, Opcode(ADC, IMM));
    AddRun(Started(m));
  }

  /** `AddImmediate` for an instruction already decoded. */
  lemma AddRun(s: Machine)
    requires s.regs.PC.raw + 2 <= 0xFFFF
    ensures EndsIn(Run(s, Opcode(ADC, IMM)),
                   s.(regs := s.regs.AddA(Read(s.ram, Address(s.regs.PC.raw + 1))).(PC := Address(s.regs.PC.raw + 2)),
                      cycles := s.cycles + 1))
  {
    var op := Opcode(ADC, IMM);
    OperandInClosedForm(s.ram, s.regs, IMM);
    var arg := Read(s.ram, Address(s.regs.PC.raw + 1));
    var a: u16 := arg;
    var e := Effect(s.(regs := s.regs.AddA(arg)), false);
    assert DispatchEffect(s, op, Some(a)) == Ok(e);
    RunCompletes(s, op, Some(a), e);
    AdvancePastInstruction(e, op);
  }

  /** STA writes the accumulator to exactly one byte, at the operand
      address; no register but PC changes. */
  lemma StoreWritesOneByte(m: Machine, decode: Decoder, op: Opcode)
    requires decode(OpcodeByte(m)) == Some(op)
    requires op == Opcode(STA, ABS) || op == Opcode(STA, ZPG) || op == Opcode(STA, INDX)
    requires StartPC(m).raw + GetSize(op.mode) <= 0xFFFF
    ensures var target := OperandAddress(m.ram, Started(m).regs, op.mode);
            var (m', out) := Transition(m, decode);
            && out == Done
            && m'.ram[target] == m.regs.A
            && (forall i :: 0 <= i < MEMORY_SIZE && i != target ==> m'.ram[i] == m.ram[i])
            && m'.regs == m.regs.(PC := Address(StartPC(m).raw + GetSize(op.mode)))
            && m'.cycles == m.cycles + 1
  {
    StepRuns(m, decode, op);
    StoreRun(Started(m), op);
  }

  /** `StoreWritesOneByte` for an instruction already decoded. */
  lemma StoreRun(s: Machine, op: Opcode)
    requires op == Opcode(STA, ABS) || op == Opcode(STA, ZPG) || op == Opcode(STA, INDX)
    requires s.regs.PC.raw + GetSize(op.mode) <= 0xFFFF
    ensures EndsIn(Run(s, op),
                   s.(ram := Write(s.ram, FromU16(OperandAddress(s.ram, s.regs, op.mode)), s.regs.A),
                      regs := s.regs.(PC := Address(s.regs.PC.raw + GetSize(op.mode))),
                      cycles := s.cycles + 1))
  {
    OperandInClosedForm(s.ram, s.regs, op.mode);
    var target := OperandAddress(s.ram, s.regs, op.mode);
    var e := Effect(s.(ram := Write(s.ram, FromU16(target), s.regs.A)), false);
    assert DispatchEffect(s, op, Some(target)) == Ok(e);
    RunCompletes(s, op, Some(target), e);
    AdvancePastInstruction(e, op);
  }

  /** One `step` as a function of the machine. */
  function StepFunction(decode: Decoder): Machine -> (Machine, Outcome) {
    m => Transition(m, decode)
  }

  /** `n` successive calls of `step`, the way the driver's run loop issues
      them: the run stops at the first call that does not return `Ok(())`. */
  function Steps(m: Machine, decode: Decoder, n: nat): (Machine, Outcome) {
    Iterate(StepFunction(decode), m, n)
  }

  /** Over any run: PC stays 16-bit, only Zero, Negative and Carry ever
      change (so AlwaysOne stays set), and the cycle count grows by exactly
      the number of completed steps: `n` for a run that completes, fewer
      for one that stops early. */
  lemma StepsInvariants(m: Machine, decode: Decoder, n: nat)
    requires m.regs.PC.raw <= 0xFFFF
    ensures var (m', out) := Steps(m, decode, n);
            && m'.regs.PC.raw <= 0xFFFF
            && KeepsStatusBits(m.regs.flags, m'.regs.flags)
            && (FlagSet(m.regs.flags, AlwaysOne) ==> FlagSet(m'.regs.flags, AlwaysOne))
            && (out == Done ==> m'.cycles == m.cycles + n)
            && (out != Done ==> m.cycles <= m'.cycles < m.cycles + n)
  {
    var next := StepFunction(decode);
    var inv := (t: Machine) =>
      && t.regs.PC.raw <= 0xFFFF
      && KeepsStatusBits(m.regs.flags, t.regs.flags)
      && (FlagSet(m.regs.flags, AlwaysOne) ==> FlagSet(t.regs.flags, AlwaysOne));
    forall t | inv(t)
      ensures inv(next(t).0)
    {
      PcStaysInRange(t, decode);
      StepKeepsStatusBits(t, decode);
    }
    IterateKeeps(next, inv, m, n);
    forall t
      ensures next(t).1 == Done ==> next(t).0.cycles == t.cycles + 1
      ensures next(t).1 != Done ==> next(t).0.cycles == t.cycles
    {
      CyclesCountSuccessfulSteps(t, decode);
    }
    IterateCounts(next, (t: Machine) => t.cycles, m, n);
  }

  /** After `restart` and a program load, the next step starts over from the
      loaded image's reset vector. */
  lemma RestartReloadsResetVector(image: Memory, decode: Decoder)
    ensures var m := PowerOn().(ram := image);
            && StartPC(m).raw == image[0xFFFD] as int * 0x100 + image[0xFFFC]
            && Transition(m, decode) == Execute(Started(m), decode)
  {
  }

  /** Reset vector 0x0600 and the program `A9 05 8D 00 02` (LDA #$05;
      STA $0200): two steps leave A = 0x05, 0x05 at 0x0200, PC = 0x0605 and
      two cycles counted. */
  lemma LoadStoreProgram(m: Machine, decode: Decoder)
    requires m.cycles == 0 && m.ram[0xFFFC] == 0x00 && m.ram[0xFFFD] == 0x06
    requires m.ram[0x0600] == 0xA9 && m.ram[0x0601] == 0x05
    requires m.ram[0x0602] == 0x8D && m.ram[0x0603] == 0x00 && m.ram[0x0604] == 0x02
    requires decode(0xA9) == Some(Opcode(LDA, IMM)) && decode(0x8D) == Some(Opcode(STA, ABS))
    ensures var (m1, o1) := Transition(m, decode);
            var (m2, o2) := Transition(m1, decode);
            && o1 == Done && o2 == Done
            && m2.regs.A == 0x05 && m2.ram[0x0200] == 0x05
            && m2.regs.PC == Address(0x0605) && m2.cycles == 2
  {
    LoadAccumulator(m, decode, Opcode(LDA, IMM));
    var m1 := Transition(m, decode).0;
    assert m1.regs.PC == Address(0x0602) && m1.regs.A == 0x05 && m1.ram == m.ram;
    assert OperandWord(m1.ram, Address(0x0602)) == 0x0200;
    StoreWritesOneByte(m1, decode, Opcode(STA, ABS));
  }
}
