/** What one `step` of the oldest engine guarantees, stated over
    `LegacyEmulator.Transition`. */
module LegacyProperties {
  import opened Bits
  import opened Errors
  import opened AddressingModes
  import opened Opcodes
  import opened Components
  import opened Runs
  import opened LegacyEmulator

  /** The opcode byte `step` fetches: always at PC, with no reset vector. */
  function OpcodeByte(s: State): u8 {
    s.ram[s.cpu.PC]
  }

  /** A fresh engine fetches its first opcode from 0x0600, whatever the
      bytes at 0xFFFC/0xFFFD hold. */
  lemma FirstFetchAtStartPC(image: Memory)
    ensures OpcodeByte(PowerOn().(ram := image)) == image[0x0600]
  {
  }

  /** An opcode byte with no table entry yields `UnknownOp(byte)` and
      changes nothing. */
  lemma UnknownOpcodeChangesNothing(s: State, decode: Decoder)
    requires decode(OpcodeByte(s)).None?
    ensures Transition(s, decode) == (s, Err(UnknownOp(OpcodeByte(s))))
  {
  }

  /** BRK reports `Break` and changes nothing. */
  lemma BreakInstructionStops(s: State, decode: Decoder)
    requires decode(OpcodeByte(s)) == Some(Opcode(BRK, IMPL))
    ensures Transition(s, decode) == (s, Err(CpuError.Break))
  {
  }

  /** This engine never counts cycles. */
  lemma CyclesNeverCounted(s: State, decode: Decoder)
    ensures Transition(s, decode).0.cycles == s.cycles
  {
  }

  /** One `step` as a function of the state. */
  function StepFunction(decode: Decoder): State -> (State, Outcome) {
    s => Transition(s, decode)
  }

  /** `n` successive calls of `step`, stopping at the first call that does
      not return `Ok(())`. */
  function Steps(s: State, decode: Decoder, n: nat): (State, Outcome) {
    Iterate(StepFunction(decode), s, n)
  }

  /** No run, however long, changes the cycle count. */
  lemma StepsNeverCountCycles(s: State, decode: Decoder, n: nat)
    ensures Steps(s, decode, n).0.cycles == s.cycles
  {
    var next := StepFunction(decode);
    var inv := (t: State) => t.cycles == s.cycles;
    forall t | inv(t)
      ensures inv(next(t).0)
    {
      CyclesNeverCounted(t, decode);
    }
    IterateKeeps(next, inv, s, n);
  }

  /** Only implied, accumulator, immediate, absolute and zero-page modes are
      resolved; any other mode is an `unimplemented!` panic before the
      mnemonic is looked at. */
  lemma UnsupportedModes(s: State, decode: Decoder, op: Opcode)
    requires decode(OpcodeByte(s)) == Some(op)
    requires !(op.mode.IMPL? || op.mode.A? || op.mode.IMM? || op.mode.ABS? || op.mode.ZPG?)
    ensures Transition(s, decode) == (s, Fatal(UnimplementedMode))
  {
  }

  /** NOP, BEQ and BNE are not implemented here: once the operand is
      resolved they panic, and nothing changes. */
  lemma UnsupportedMnemonics(s: State, decode: Decoder, op: Opcode)
    requires decode(OpcodeByte(s)) == Some(op)
    requires op.name.NOP? || op.name.BEQ? || op.name.BNE? || op.name.Other?
    requires FetchOperand(s.ram, s.cpu, op.mode).Ok?
    ensures Transition(s, decode) == (s, Fatal(UnimplementedOpcode))
  {
  }

  /** STA is accepted only in absolute mode. */
  lemma StoreAbsoluteOnly(s: State, decode: Decoder, op: Opcode)
    requires decode(OpcodeByte(s)) == Some(op) && op.name.STA?
    requires s.cpu.PC + GetSize(op.mode) <= 0xFFFF
    ensures op.mode.ABS? ==>
              var target := s.ram[s.cpu.PC + 2] as int * 0x100 + s.ram[s.cpu.PC + 1];
              Transition(s, decode) == (s.(ram := s.ram[target := s.cpu.A], cpu := s.cpu.(PC := s.cpu.PC + 3)), Done)
    ensures op.mode.IMPL? || op.mode.A? || op.mode.IMM? || op.mode.ZPG? ==>
              Transition(s, decode) == (s, Fatal(InvalidMode))
  {
  }

  /** LDA assigns A directly (there are no flags to update): the operand
      itself for IMM, the byte at the operand address for ABS and ZPG. */
  lemma LoadAccumulator(s: State, decode: Decoder, op: Opcode)
    requires decode(OpcodeByte(s)) == Some(op)
    requires op == Opcode(LDA, IMM) || op == Opcode(LDA, ABS) || op == Opcode(LDA, ZPG)
    requires s.cpu.PC + GetSize(op.mode) <= 0xFFFF
    ensures var pc := s.cpu.PC;
            var v := if op.mode.ABS? then s.ram[s.ram[pc + 2] as int * 0x100 + s.ram[pc + 1]]
                     else if op.mode.ZPG? then s.ram[s.ram[pc + 1]]
                     else s.ram[pc + 1];
            Transition(s, decode) == (s.(cpu := s.cpu.(A := v, PC := pc + GetSize(op.mode))), Done)
  {
    var arg := FetchOperand(s.ram, s.cpu, op.mode);
    assert arg.Ok? && arg.value.Some?;
    if op.mode.IMM? {
      assert arg.value.value % 0x100 == s.ram[s.cpu.PC + 1];
    }
  }

  /** ADC immediate is a plain `u8` addition: no carry in or out, and a sum
      above 0xFF is the overflow panic (with nothing changed). */
  lemma AddImmediate(s: State, decode: Decoder)
    requires decode(OpcodeByte(s)) == Some(Opcode(ADC, IMM))
    requires s.cpu.PC + 2 <= 0xFFFF
    ensures var n := s.ram[s.cpu.PC + 1];
            s.cpu.A + n > 0xFF ==> Transition(s, decode) == (s, Fatal(ArithmeticOverflow))
    ensures var n := s.ram[s.cpu.PC + 1];
            s.cpu.A + n <= 0xFF ==>
              Transition(s, decode) == (s.(cpu := s.cpu.(A := s.cpu.A + n, PC := s.cpu.PC + 2)), Done)
  {
    var n := s.ram[s.cpu.PC + 1];
    assert FetchOperand(s.ram, s.cpu, IMM) == Ok(Some(n));
    assert n % 0x100 == n;
  }

  /** JMP absolute sets PC to the operand word and does not advance it. */
  lemma JumpAbsolute(s: State, decode: Decoder)
    requires s.cpu.PC <= 0xFFFD
    requires decode(OpcodeByte(s)) == Some(Opcode(JMP, ABS))
    ensures var pc := s.cpu.PC;
            Transition(s, decode) == (s.(cpu := s.cpu.(PC := s.ram[pc + 2] as int * 0x100 + s.ram[pc + 1])), Done)
  {
  }

  /** Every successful instruction but JMP moves PC by the length of its
      addressing mode; an advance past 0xFFFF is the `u16` overflow panic. */
  lemma StepAdvancesBySize(s: State, decode: Decoder)
    requires decode(OpcodeByte(s)).Some? && !decode(OpcodeByte(s)).value.name.JMP?
    ensures var (s', out) := Transition(s, decode);
            var op := decode(OpcodeByte(s)).value;
            && (out == Done ==> s'.cpu.PC == s.cpu.PC + GetSize(op.mode))
            && (out.Fatal? && out.fault == ArithmeticOverflow && !op.name.ADC? ==> s.cpu.PC + GetSize(op.mode) > 0xFFFF)
  {
  }

  /** The program `A9 05 8D 00 02` (LDA #$05; STA $0200) at 0x0600 on a
      fresh engine: two steps leave A = 0x05, 0x05 at 0x0200 and PC =
      0x0605, with no cycle counted. */
  lemma LoadStoreProgram(image: Memory, decode: Decoder)
    requires image[0x0600] == 0xA9 && image[0x0601] == 0x05
    requires image[0x0602] == 0x8D && image[0x0603] == 0x00 && image[0x0604] == 0x02
    requires decode(0xA9) == Some(Opcode(LDA, IMM)) && decode(0x8D) == Some(Opcode(STA, ABS))
    ensures var s := PowerOn().(ram := image);
            var (s1, o1) := Transition(s, decode);
            var (s2, o2) := Transition(s1, decode);
            && o1 == Done && o2 == Done
            && s2.cpu.A == 0x05 && s2.ram[0x0200] == 0x05
            && s2.cpu.PC == 0x0605 && s2.cycles == 0
  {
    var s := PowerOn().(ram := image);
    LoadAccumulator(s, decode, Opcode(LDA, IMM));
    var s1 := Transition(s, decode).0;
    assert s1.cpu.PC == 0x0602 && s1.cpu.A == 0x05 && s1.ram == image;
    StoreAbsoluteOnly(s1, decode, Opcode(STA, ABS));
  }
}
