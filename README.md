# crustacean_6502_emulator — instruction engine model

This is a Dafny model of the part of the crustacean 6502 emulator that
executes instructions. It covers:

- the 16-bit `Address` type and its conversions;
- the operand-size table indexed by addressing mode;
- the 64 KiB `Ram`;
- the status flags and the register file with its accumulator helpers
  (`set_flag`, `set_a`, `add_a`);
- the `step` / `init` / `restart` cycle of the three engine generations
  in the repository:
  - `System` (`src/emulator/system.rs`), the live engine. It uses
    `Address` arithmetic and `Ram` indexing.
  - `Emulator` in `src/sixty_five/emulator.rs`. This is the earlier engine,
    over a raw `[u8; 0x10000]` and a `u16` PC. It stops on the Break flag
    and on BRK.
  - `Emulator` in `src/emulator/emulator.rs`. This is the oldest engine.
    Its CPU has no flags, its PC starts at 0x0600, it reads no reset vector
    and it counts no cycles.

Each engine has two parts:

- A pure specification `Transition(state, decode)`. It returns the new
  state and an `Outcome`:
  - `Done`;
  - `Err(UnknownOp(byte))` or `Err(Break)`: the errors `step` returns;
  - `Fatal(fault)`: the panics that the Rust code raises.
- A class with the source's fields. Its `Step` method updates those
  fields in place. It is proved to produce exactly `Transition` of its
  old value.

The driver's run loop, which calls `step` until one call fails, is
`Runs.Iterate` over an engine's step function, bounded by a number of steps.
Each engine's `Steps` is that loop, and its run lemmas say what holds after
any number of steps.

The opcode table is the `Decoder` parameter. Properties of `step` are stated
as lemmas over `Transition` in `SystemProperties`, `SixtyFiveProperties` and
`LegacyProperties`.

The model follows the code, including where the live engine departs from
the 6502 or from the two older engines:

- The live engine reads a zero-page operand at `PC.same_page_add(1)`. An
  opcode at the last byte of a page therefore takes its operand from the
  first byte of the same page.
- The live engine reads the high byte of a `(zp,X)` pointer at the
  pointer's `next()`. A pointer of 0xFF therefore reads 0x0100, not
  0x0000. The earlier engine does wrap within page zero.
- The live engine treats BRK as a no-op that advances PC and counts a
  cycle. Its `Break` return and its Break-flag check are commented out.
- `src/emulator/emulator.rs` is not declared in `src/emulator/mod.rs`, so it
  is not compiled. It is modelled anyway, as `LegacyEmulator`.

## Model

| member | source | states |
|---|---|---|
| Bits.SignExtend | src/emulator/system.rs:101 | `as u8 as i8` is the byte read as a signed number: in -128..=127, congruent to the byte mod 256, and negative exactly when the byte is at least 0x80 |
| Bits.AsU8 | src/emulator/system.rs:120 | `v as u8` keeps the low byte: never larger than v, congruent to v mod 256, and a value below 0x100 is unchanged |
| Bits.SignBit | src/emulator/components.rs:75 | `v & 0x80 != 0` holds exactly when v is at least 0x80 |
| AddressingModes.FromUsize | src/emulator/addressing_modes.rs:5-12 | succeeds exactly for 0..=0xFFFF and keeps the value; a larger value is the out-of-range panic |
| AddressingModes.FromI32 | src/emulator/addressing_modes.rs:13-20 | succeeds exactly for 0..=0xFFFF and keeps the value; a negative or larger value panics |
| AddressingModes.FromU16 | src/emulator/addressing_modes.rs:21-25 | always in range; its high and low bytes recompose the word |
| AddressingModes.FromU8 | src/emulator/addressing_modes.rs:26-30 | an address in page zero (high byte 0) equal to the byte |
| AddressingModes.ToUsize | src/emulator/addressing_modes.rs:31-35 | at most 0xFFFF, the identity on in-range addresses, and congruent to the address mod 0x10000 |
| AddressingModes.ToU16 | src/emulator/addressing_modes.rs:36-40 | the identity on in-range addresses and congruent to the address mod 0x10000 |
| AddressingModes.Add | src/emulator/addressing_modes.rs:52-64 | succeeds exactly when the sum is at most 0xFFFF and then is the exact sum; otherwise the out-of-range panic |
| AddressingModes.SamePageAdd | src/emulator/addressing_modes.rs:66-71 | the high byte (page) is kept and the low byte becomes (low + (rhs & 0xFF)) mod 256; the result is always in range |
| AddressingModes.Next | src/emulator/addressing_modes.rs:72-74 | one more than the address, unchecked; once masked to 16 bits it is the successor mod 0x10000 |
| AddressingModes.Discriminant | src/emulator/addressing_modes.rs:85-100 | `addr_mode as usize` is always a valid index of the 13-entry `OP_SIZES` table; the modes are numbered in declaration order from A = 0 |
| AddressingModes.GetSize | src/emulator/addressing_modes.rs:77-83 | `OP_SIZES[addr_mode as usize]` over the 13-entry table (the constant `OP_SIZES`, line 83): sizes are 1..=3; size 1 exactly for A and IMPL, size 3 exactly for ABS, ABSX, ABSY and IND |
| AddressingModes.U16RoundTrip | src/emulator/addressing_modes.rs:21-40 | u16 to Address and back (to u16 or usize) is the identity |
| AddressingModes.UsizeRoundTrip | src/emulator/addressing_modes.rs:5-35 | an in-range usize survives the conversion both ways and agrees with the u16 conversion |
| AddressingModes.SamePageAddStaysOnPage | src/emulator/addressing_modes.rs:66-71 | 0x12FF same-page-plus 1 is 0x1200, while `+` gives 0x1300 |
| AddressingModes.SamePageAddVersusAdd | src/emulator/addressing_modes.rs:52-71 | without a low-byte carry, same_page_add equals checked `+`; with a carry, it is exactly 0x100 below the sum |
| AddressingModes.SamePageSuccessor | src/emulator/addressing_modes.rs:66-71 | same_page_add(1) is the next address, except at a page's last byte, where it is 0xFF lower (the page's first byte) |
| AddressingModes.NextWraps | src/emulator/addressing_modes.rs:52-74 | below 0xFFFF, next equals `+ 1`; at 0xFFFF, `+ 1` panics and next indexes address 0x0000 |
| Components.Zeroed | src/emulator/system.rs:45 | every one of the 65536 bytes is zero |
| Components.Read | src/emulator/components.rs:10-16 | an in-range address reads its own byte; any other reads the byte at the address mod 0x10000 |
| Components.Write | src/emulator/components.rs:17-22 | the byte at the masked address reads back the new value, and every other byte is unchanged |
| Components.Ram.constructor | src/emulator/system.rs:45 | a fresh 65536-byte buffer holding the given image |
| Components.Ram.Load | src/emulator/components.rs:6-8 | the buffer afterwards holds exactly the loaded image |
| Components.Ram.Index | src/emulator/components.rs:10-16 | indexing the buffer agrees with `Read` on its contents |
| Components.Ram.Set | src/emulator/components.rs:17-22 | the new contents are `Write` of the old contents: one byte changes |
| Components.Position | src/emulator/components.rs:31-42 | each flag's discriminant is the single bit `1 << i` for a bit number i below 8 |
| Components.FlagSet | src/emulator/components.rs:52-54 | `test(flag)` holds exactly when the flag's own bit of the status byte is 1 |
| Components.WithFlag | src/emulator/components.rs:55-61 | after `set_flag(f, status)`, f reads back `status` and every other flag is unchanged |
| Components.FlagsAfterLoad | src/emulator/components.rs:73-77 | after `set_a(v)`, Zero is set iff v is 0, Negative iff v is at least 0x80, and every other flag is kept |
| Components.AddWithCarryOut | src/emulator/components.rs:62-72 | `add_a(n)` gives (A + n) mod 256; Carry is set iff A + n exceeds 0xFF, and result plus carry equals A + n; Z and N describe the result; no other flag changes |
| Components.Regs.SetA | src/emulator/components.rs:73-77 | A becomes v, X, Y and PC are kept, and the flags are those after a load of v |
| Components.Regs.AddA | src/emulator/components.rs:62-72 | X, Y and PC are kept, and A and the flags are the carry-out sum |
| Components.DefaultRegs | src/emulator/components.rs:79-89 | A, X, Y and PC are zero, and AlwaysOne is the only flag set |
| Components.Registers.constructor | src/emulator/components.rs:79-89 | a new register file holds the default registers |
| Components.Registers.SetFlag | src/emulator/components.rs:55-61 | only the status byte changes, and it becomes `WithFlag` of the old byte |
| Components.Registers.SetA | src/emulator/components.rs:73-77 | the new register value is `set_a` of the old one |
| Components.Registers.AddA | src/emulator/components.rs:62-72 | the new register value is `add_a` of the old one |
| Components.FlagRoundTripScenario | src/emulator/system.rs:184-203 | the `set_flag` / `test` sequence of the flag unit test reads back each value last written (the same test is at src/sixty_five/emulator.rs:174-194) |
| Components.WithFlagOverrides | src/emulator/components.rs:55-61 | a second `set_flag` on the same flag overrides the first |
| Components.SetAExamples | src/emulator/components.rs:73-77 | 0x00 sets only Zero, 0x80 only Negative, and 0x7F neither |
| Components.AddAWrapsWithCarry | src/emulator/components.rs:62-72 | 0xFF + 0x01 leaves A = 0 with Carry and Zero set |
| Components.AddAIgnoresCarryIn | src/emulator/components.rs:62-72 | the incoming Carry never affects `add_a` |
| Runs.Iterate | src/handler.rs:77-87 | no contract; the `Cmd::Run` loop as at most `n` calls of a step function, stopping at the first that does not return `Done`; characterised by `Runs.IterateKeeps`, `Runs.IterateCounts` and `Runs.IterateCompose` |
| Runs.IterateKeeps | src/handler.rs:77-87 | a property that every step preserves holds at the end of any run of the step-until-error loop |
| Runs.IterateCounts | src/handler.rs:77-87 | a counter that each completed step increments counts the completed steps: `n` for a completed run of `n` steps, fewer for one that stopped on an error |
| Runs.IterateCompose | src/handler.rs:77-87 | a run of a + b steps is a run of a steps followed, if none failed, by a run of b more |
| SystemEngine.PowerOn | src/emulator/system.rs:42-48 | zero cycles, all-zero RAM and default registers |
| SystemEngine.ResetVector | src/emulator/system.rs:49-55 | PC is the little-endian word at 0xFFFC/0xFFFD |
| SystemEngine.FetchOperand | src/emulator/system.rs:71-109 | an operand exists exactly for IMM, ABS, ZPG, INDX and REL; a panic happens exactly for an unimplemented mode, or for IMM, REL and INDX once PC + 1 passes 0xFFFF |
| SystemEngine.LoadResetVector | src/emulator/system.rs:49-55 | no contract; `init` as a function: PC becomes `ResetVector(ram)`. Characterised by `SystemProperties.ResetVectorOnFirstStep`; `SystemEngine.System.Init` is proved against it |
| SystemEngine.Execute | src/emulator/system.rs:64-70 | no contract; fetch at PC, decode, `UnknownOp` for an unknown byte, else `Run`. Characterised by `SystemProperties.StepRuns` and `SystemProperties.UnknownOpcodeChangesNothing` |
| SystemEngine.Run | src/emulator/system.rs:71-175 | no contract; operand fetch, dispatch, advance. Characterised by `SystemProperties.RunCompletes` and `SystemProperties.RunInvariants` |
| SystemEngine.DispatchEffect | src/emulator/system.rs:110-168 | no contract; the per-mnemonic effect and the branch flag. Characterised by `SystemProperties.DispatchInvariants` and the instruction lemmas (`LoadRun`, `AddRun`, `StoreRun`, `BranchRun`); `SystemEngine.System.Dispatch` is proved against it |
| SystemEngine.Advance | src/emulator/system.rs:169-175 | no contract; the PC advance and the cycle count. Characterised by `SystemProperties.AdvancePastInstruction`, `SystemProperties.AdvanceAfterJump` and `SystemProperties.AdvanceOutOfRange` |
| SystemEngine.Transition | src/emulator/system.rs:56-176 | no contract; one `step`, including the first-step `init`. Characterised by the `SystemProperties` step lemmas; `SystemEngine.System.Step` is proved to agree with it |
| SystemEngine.System.constructor | src/emulator/system.rs:42-48 | the new system's value is the power-on state |
| SystemEngine.System.Init | src/emulator/system.rs:49-55 | only PC changes, to the reset vector |
| SystemEngine.System.Dispatch | src/emulator/system.rs:110-168 | the in-place dispatch produces the specified effect and branch flag, or panics as specified with nothing changed |
| SystemEngine.System.Step | src/emulator/system.rs:56-176 | the new cycle count, RAM, registers and result are exactly those of `Transition` of the old state |
| SystemEngine.System.Restart | src/emulator/system.rs:177-181 | back to the power-on state, with fresh registers and the RAM zeroed in place |
| SystemProperties.OperandWord | src/emulator/system.rs:79-83 | below 0xFFFE, the ABS operand is the little-endian word at PC+1/PC+2 |
| SystemProperties.RelTarget | src/emulator/system.rs:99-105 | the branch target is the opcode's address plus the signed byte, mod 0x10000; offset 0xFE goes back 2 |
| SystemProperties.ResetVectorOnFirstStep | src/emulator/system.rs:57-60 | the reset vector is loaded on the step with zero cycles, and only then |
| SystemProperties.UnknownOpcodeChangesNothing | src/emulator/system.rs:65-69 | an unknown byte returns `UnknownOp(byte)` and changes nothing beyond the first-step PC load |
| SystemProperties.CyclesCountSuccessfulSteps | src/emulator/system.rs:169-175 | a successful step counts exactly one cycle; any other counts none |
| SystemProperties.NoOperationInstructions | src/emulator/system.rs:112-118 | BRK and NOP only move PC by one and count a cycle |
| SystemProperties.StepAdvancesBySize | src/emulator/system.rs:169-173 | apart from JMP and branches, a successful step moves PC by the mode's size |
| SystemProperties.JumpAbsolute | src/emulator/system.rs:145-148 | JMP ABS sets PC to the operand word without advancing, and counts a cycle |
| SystemProperties.RelativeOperand | src/emulator/system.rs:99-105 | a REL operand is the branch target; at PC 0xFFFF it is the out-of-range panic |
| SystemProperties.ConditionalBranch | src/emulator/system.rs:149-175 | BEQ (Zero set) and BNE (Zero clear) jump to the target without advancing; otherwise PC moves by 2, which from 0xFFFE is the out-of-range panic with nothing changed |
| SystemProperties.IndexedIndirectOperand | src/emulator/system.rs:89-98 | the `(zp,X)` target is the word at ((X + byte) mod 256, next); pointer 0xFF takes its high byte from 0x0100 |
| SystemProperties.ZeroPageOperand | src/emulator/system.rs:84-88 | a ZPG operand is the byte after the opcode, except at a page's last byte, where it is the page's first byte |
| SystemProperties.LoadAccumulator | src/emulator/system.rs:119-128 | LDA IMM/ABS/ZPG performs `set_a` of the immediate byte or the addressed byte, leaves RAM alone and advances PC |
| SystemProperties.AddImmediate | src/emulator/system.rs:141-144 | ADC IMM performs `add_a` of the byte after the opcode and advances PC by 2 |
| SystemProperties.StoreWritesOneByte | src/emulator/system.rs:129-140 | STA ABS/ZPG/INDX writes A to exactly the resolved byte; only PC and the cycle count change otherwise |
| SystemProperties.PcStaysInRange | src/emulator/system.rs:56-176 | PC stays within 0..=0xFFFF across a step |
| SystemProperties.StepsInvariants | src/emulator/system.rs:56-176 | across any run of steps PC stays 16-bit, only Zero, Negative and Carry change (AlwaysOne stays set), and the cycle count grows by the number of completed steps |
| SystemProperties.RestartReloadsResetVector | src/emulator/system.rs:177-181 | after restart and a load, the next step starts from the image's reset vector |
| SystemProperties.LoadStoreProgram | src/emulator/system.rs:56-176 | `A9 05 8D 00 02` at reset vector 0x0600 leaves A = 5, 5 at 0x0200, PC = 0x0605 and 2 cycles |
| SystemProperties.StepKeepsStatusBits | src/emulator/system.rs:56-176 | a step writes only Zero, Negative and Carry; AlwaysOne stays set |
| SystemProperties.DispatchInvariants | src/emulator/system.rs:110-168 | dispatch leaves the cycle count alone, writes only Zero, Negative and Carry, keeps PC 16-bit, and only JMP, BEQ and BNE change PC or report a taken branch |
| SystemProperties.RunInvariants | src/emulator/system.rs:71-176 | a decoded instruction counts one cycle exactly when it completes, writes only Zero, Negative and Carry, and keeps PC 16-bit |
| SystemProperties.StartPC | src/emulator/system.rs:57-60 | on the step with zero cycles the fetch address is the word at 0xFFFC/0xFFFD |
| SystemProperties.StepRuns | src/emulator/system.rs:65-69 | a byte that decodes to an opcode runs that opcode on the machine after the first-step PC load |
| SystemProperties.RunCompletes | src/emulator/system.rs:71-168 | an instruction whose operand resolves and whose dispatch succeeds ends with the PC advance |
| SystemProperties.AdvancePastInstruction | src/emulator/system.rs:169-175 | without a taken branch or JMP, PC moves by the mode's size and one cycle is counted; RAM and the other registers are unchanged |
| SystemProperties.AdvanceAfterJump | src/emulator/system.rs:169-175 | after a taken branch or JMP only the cycle count changes |
| SystemProperties.OperandInClosedForm | src/emulator/system.rs:71-98 | below 0xFFFF, IMM is the byte after the opcode, and ABS, ZPG and INDX are the address they designate |
| SystemProperties.BranchRun | src/emulator/system.rs:149-175 | a decoded BEQ or BNE jumps to the REL target when taken, else moves PC by 2, one cycle counted either way; untaken at 0xFFFE it is the out-of-range panic with nothing changed |
| SystemProperties.AdvanceOutOfRange | src/emulator/system.rs:169-173 | without a taken branch or JMP, a PC + size past 0xFFFF is the `Address` out-of-range panic, with nothing changed and no cycle counted |
| SystemProperties.LoadRun | src/emulator/system.rs:119-128 | a decoded LDA IMM/ABS/ZPG performs `set_a` of the loaded byte and advances PC, RAM unchanged |
| SystemProperties.AddRun | src/emulator/system.rs:141-144 | a decoded ADC IMM performs `add_a` of the byte after the opcode and advances PC by 2 |
| SystemProperties.StoreRun | src/emulator/system.rs:129-140 | a decoded STA ABS/ZPG/INDX writes A at the operand address and advances PC; no other register changes |
| SixtyFiveCpu.CpuState.SetA | src/sixty_five/cpu.rs:43-47 | A becomes v, X, Y and PC are kept, and the flags are those after a load of v |
| SixtyFiveCpu.CpuState.AddA | src/sixty_five/cpu.rs:32-42 | X, Y and PC are kept, and A and the flags are the carry-out sum |
| SixtyFiveCpu.DefaultCpu | src/sixty_five/cpu.rs:49-59 | A, X, Y and PC are zero, and AlwaysOne is the only flag set |
| SixtyFiveCpu.Cpu.constructor | src/sixty_five/cpu.rs:49-59 | a new CPU holds the default state |
| SixtyFiveCpu.Cpu.SetFlag | src/sixty_five/cpu.rs:25-31 | only the status byte changes, and it becomes `WithFlag` of the old byte |
| SixtyFiveCpu.Cpu.SetA | src/sixty_five/cpu.rs:43-47 | the new CPU value is `set_a` of the old one |
| SixtyFiveCpu.Cpu.AddA | src/sixty_five/cpu.rs:32-42 | the new CPU value is `add_a` of the old one |
| SixtyFiveEmulator.PowerOn | src/sixty_five/emulator.rs:42-48 | zero cycles, all-zero RAM and the default CPU |
| SixtyFiveEmulator.ResetVector | src/sixty_five/emulator.rs:49-55 | PC is the little-endian word at 0xFFFC/0xFFFD |
| SixtyFiveEmulator.Fetch | src/sixty_five/emulator.rs:13-23 | indexing succeeds exactly below 0x10000 and yields that byte; from 0x10000 on it is the bounds panic |
| SixtyFiveEmulator.FetchOperand | src/sixty_five/emulator.rs:71-109 | an operand exists exactly for IMM, ABS, ZPG, INDX and REL; a panic happens exactly for an unimplemented mode, for any operand at PC 0xFFFF, or for ABS at 0xFFFE |
| SixtyFiveEmulator.LoadResetVector | src/sixty_five/emulator.rs:49-55 | no contract; `init` as a function: PC becomes `ResetVector(ram)`. Characterised by `SixtyFiveProperties.ResetVectorOnFirstStep`; `SixtyFiveEmulator.Emulator.Init` is proved against it |
| SixtyFiveEmulator.Execute | src/sixty_five/emulator.rs:61-69 | no contract; the Break-flag check, then fetch at PC, decode, `UnknownOp` for an unknown byte, else `Run`. Characterised by `SixtyFiveProperties.BreakFlagHalts`, `SixtyFiveProperties.StepRuns` and `SixtyFiveProperties.UnknownOpcodeChangesNothing` |
| SixtyFiveEmulator.Run | src/sixty_five/emulator.rs:71-165 | no contract; operand fetch, BRK, dispatch, advance. Characterised by `SixtyFiveProperties.RunCompletes`, `SixtyFiveProperties.BreakInstructionStops` and `SixtyFiveProperties.RunInvariants` |
| SixtyFiveEmulator.DispatchEffect | src/sixty_five/emulator.rs:118-158 | no contract; the per-mnemonic effect and the branch flag. Characterised by `SixtyFiveProperties.DispatchInvariants` and the instruction lemmas (`LoadRun`, `AddRun`, `StoreRun`, `BranchRun`); `SixtyFiveEmulator.Emulator.Dispatch` is proved against it |
| SixtyFiveEmulator.Advance | src/sixty_five/emulator.rs:159-165 | no contract; the `u16` PC advance and the cycle count. Characterised by `SixtyFiveProperties.AdvancePastInstruction`, `SixtyFiveProperties.AdvanceAfterJump` and `SixtyFiveProperties.AdvanceOverflow` |
| SixtyFiveEmulator.Transition | src/sixty_five/emulator.rs:56-166 | no contract; one `step`, including the first-step `init`. Characterised by the `SixtyFiveProperties` step lemmas; `SixtyFiveEmulator.Emulator.Step` is proved to agree with it |
| SixtyFiveEmulator.Emulator.constructor | src/sixty_five/emulator.rs:42-48 | the new emulator's value is the power-on state |
| SixtyFiveEmulator.Emulator.Init | src/sixty_five/emulator.rs:49-55 | only PC changes, to the reset vector |
| SixtyFiveEmulator.Emulator.Dispatch | src/sixty_five/emulator.rs:112-158 | the in-place dispatch produces the specified effect and branch flag, or panics as specified with nothing changed |
| SixtyFiveEmulator.Emulator.Step | src/sixty_five/emulator.rs:56-166 | the new cycle count, RAM, CPU and result are exactly those of `Transition` of the old state |
| SixtyFiveEmulator.Emulator.Restart | src/sixty_five/emulator.rs:167-171 | back to the power-on state, with a fresh CPU and the RAM zeroed in place |
| SixtyFiveProperties.ResetVectorOnFirstStep | src/sixty_five/emulator.rs:57-60 | the reset vector is loaded on the step with zero cycles, and only then |
| SixtyFiveProperties.BreakFlagHalts | src/sixty_five/emulator.rs:61-63 | with the Break flag set, a step returns `Break` before fetching |
| SixtyFiveProperties.UnknownOpcodeChangesNothing | src/sixty_five/emulator.rs:65-69 | an unknown byte returns `UnknownOp(byte)` and changes nothing beyond the first-step PC load |
| SixtyFiveProperties.BreakInstructionStops | src/sixty_five/emulator.rs:113-117 | BRK returns `Break` with registers, RAM and cycles unchanged |
| SixtyFiveProperties.CyclesCountSuccessfulSteps | src/sixty_five/emulator.rs:159-165 | a successful step counts exactly one cycle; any other counts none |
| SixtyFiveProperties.StepAdvancesBySize | src/sixty_five/emulator.rs:159-163 | apart from JMP and branches, success moves PC by the mode's size; an overflow panic means PC + size passed 0xFFFF |
| SixtyFiveProperties.AdvancePastTopIsFatal | src/sixty_five/emulator.rs:159-163 | NOP at 0xFFFF is the `u16 +=` overflow panic, with nothing changed |
| SixtyFiveProperties.ByteOperand | src/sixty_five/emulator.rs:74-88 | IMM and ZPG operands are the byte at PC+1 with no page wrap; at PC 0xFFFF they are the bounds panic |
| SixtyFiveProperties.AbsoluteOperand | src/sixty_five/emulator.rs:79-83 | an ABS operand is the little-endian word at PC+1/PC+2; from 0xFFFE on it is the bounds panic |
| SixtyFiveProperties.IndexedIndirectWrapsInPageZero | src/sixty_five/emulator.rs:89-98 | the `(zp,X)` pointer bytes are both read in page zero; pointer 0xFF takes its high byte from 0x0000 |
| SixtyFiveProperties.JumpAbsolute | src/sixty_five/emulator.rs:135-138 | JMP ABS sets PC to the operand word without advancing, and counts a cycle |
| SixtyFiveProperties.ConditionalBranch | src/sixty_five/emulator.rs:139-165 | BEQ (Zero set) and BNE (Zero clear) jump to the REL target (PC plus the signed offset, mod 0x10000) without advancing; otherwise PC moves by 2, which from 0xFFFE is the `u16 +=` overflow panic with nothing changed |
| SixtyFiveProperties.LoadAccumulator | src/sixty_five/emulator.rs:119-124 | LDA IMM/ABS/ZPG performs `set_a` of the immediate byte or the byte at the operand address (`SixtyFiveProperties.OperandAddress`), leaves RAM alone and advances PC by the mode's size |
| SixtyFiveProperties.AddImmediate | src/sixty_five/emulator.rs:131-134 | ADC IMM performs `add_a` of the byte after the opcode, leaves RAM alone and advances PC by 2 |
| SixtyFiveProperties.StoreWritesOneByte | src/sixty_five/emulator.rs:125-130 | STA ABS/ZPG/INDX writes A to exactly the resolved byte; only PC and the cycle count change otherwise |
| SixtyFiveProperties.StepKeepsStatusBits | src/sixty_five/emulator.rs:56-166 | a step writes only Zero, Negative and Carry, so it never sets Break |
| SixtyFiveProperties.DispatchInvariants | src/sixty_five/emulator.rs:110-158 | dispatch leaves the cycle count alone, writes only Zero, Negative and Carry, and only JMP, BEQ and BNE change PC or report a taken branch |
| SixtyFiveProperties.RunInvariants | src/sixty_five/emulator.rs:71-166 | a decoded instruction counts one cycle exactly when it completes and writes only Zero, Negative and Carry |
| SixtyFiveProperties.StartPC | src/sixty_five/emulator.rs:57-60 | on the step with zero cycles the fetch address is the word at 0xFFFC/0xFFFD |
| SixtyFiveProperties.StepRuns | src/sixty_five/emulator.rs:61-69 | with Break clear, a byte that decodes to an opcode runs that opcode on the state after the first-step PC load |
| SixtyFiveProperties.RunCompletes | src/sixty_five/emulator.rs:71-158 | an instruction other than BRK whose operand resolves and whose dispatch succeeds ends with the PC advance |
| SixtyFiveProperties.AdvancePastInstruction | src/sixty_five/emulator.rs:159-165 | without a taken branch or JMP, and below the top of memory, PC moves by the mode's size and one cycle is counted |
| SixtyFiveProperties.AdvanceAfterJump | src/sixty_five/emulator.rs:159-165 | after a taken branch or JMP only the cycle count changes |
| SixtyFiveProperties.OperandInClosedForm | src/sixty_five/emulator.rs:79-98 | below the top of memory, ABS, ZPG and INDX resolve to the address they designate |
| SixtyFiveProperties.RelTarget | src/sixty_five/emulator.rs:99-105 | the branch target is the opcode's address plus the signed byte, mod 0x10000; offset 0xFE goes back 2 |
| SixtyFiveProperties.BranchRun | src/sixty_five/emulator.rs:139-165 | a decoded BEQ or BNE jumps to the REL target when taken, else moves PC by 2, one cycle counted either way; untaken at 0xFFFE it is the `u16 +=` overflow panic with nothing changed |
| SixtyFiveProperties.AdvanceOverflow | src/sixty_five/emulator.rs:159-163 | without a taken branch or JMP, a PC + size past 0xFFFF is the `u16 +=` overflow panic, with nothing changed and no cycle counted |
| SixtyFiveProperties.LoadRun | src/sixty_five/emulator.rs:119-124 | a decoded LDA IMM/ABS/ZPG performs `set_a` of the loaded byte and advances PC by the mode's size, RAM unchanged |
| SixtyFiveProperties.AddRun | src/sixty_five/emulator.rs:131-134 | a decoded ADC IMM performs `add_a` of the byte after the opcode and advances PC by 2, RAM unchanged |
| SixtyFiveProperties.StoreRun | src/sixty_five/emulator.rs:125-130 | a decoded STA ABS/ZPG/INDX writes A at the operand address and advances PC; the CPU is otherwise unchanged |
| SixtyFiveProperties.StepsInvariants | src/sixty_five/emulator.rs:56-166 | across any run from a state with Break clear, Break stays clear (the Break-flag stop never fires), only Zero, Negative and Carry change, and the cycle count grows by the number of completed steps |
| SixtyFiveProperties.RestartReloadsResetVector | src/sixty_five/emulator.rs:167-171 | after restart and a load, Break is clear and the next step starts from the image's reset vector |
| SixtyFiveProperties.LoadStoreProgram | src/sixty_five/emulator.rs:56-166 | `A9 05 8D 00 02` at reset vector 0x0600 leaves A = 5, 5 at 0x0200, PC = 0x0605 and 2 cycles |
| LegacyEmulator.DefaultCpu | src/emulator/emulator.rs:127-136 | A, X and Y are zero and PC is 0x0600 |
| LegacyEmulator.Cpu.constructor | src/emulator/emulator.rs:127-136 | a new CPU holds the default state |
| LegacyEmulator.PowerOn | src/emulator/emulator.rs:28-34 | zero cycles, all-zero RAM and the default CPU |
| LegacyEmulator.Fetch | src/emulator/emulator.rs:10-20 | indexing succeeds exactly below 0x10000 and yields that byte; from 0x10000 on it is the bounds panic |
| LegacyEmulator.FetchOperand | src/emulator/emulator.rs:43-61 | an operand exists exactly for IMM, ABS and ZPG; a panic happens exactly for any other mode except IMPL and A, for any operand at PC 0xFFFF, or for ABS at 0xFFFE |
| LegacyEmulator.DispatchEffect | src/emulator/emulator.rs:63-107 | no contract; the per-mnemonic effect. Characterised by `LegacyProperties.LoadAccumulator`, `AddImmediate`, `StoreAbsoluteOnly`, `JumpAbsolute` and `UnsupportedMnemonics`; `LegacyEmulator.Emulator.Dispatch` is proved against it |
| LegacyEmulator.Transition | src/emulator/emulator.rs:35-112 | no contract; one `step`. Characterised by the `LegacyProperties` step lemmas; `LegacyEmulator.Emulator.Step` is proved to agree with it |
| LegacyEmulator.Emulator.constructor | src/emulator/emulator.rs:28-34 | the new emulator's value is the power-on state |
| LegacyEmulator.Emulator.Dispatch | src/emulator/emulator.rs:63-107 | the in-place dispatch produces the specified effect, or panics as specified with nothing changed |
| LegacyEmulator.Emulator.Step | src/emulator/emulator.rs:35-112 | the new cycle count, RAM, CPU and result are exactly those of `Transition` of the old state |
| LegacyEmulator.Emulator.Restart | src/emulator/emulator.rs:113-117 | back to the power-on state, with a fresh CPU and the RAM zeroed in place |
| LegacyProperties.FirstFetchAtStartPC | src/emulator/emulator.rs:127-136 | a fresh engine fetches its first opcode at 0x0600, whatever the reset vector holds |
| LegacyProperties.UnknownOpcodeChangesNothing | src/emulator/emulator.rs:37-41 | an unknown byte returns `UnknownOp(byte)` and changes nothing |
| LegacyProperties.BreakInstructionStops | src/emulator/emulator.rs:64-68 | BRK returns `Break` and changes nothing |
| LegacyProperties.CyclesNeverCounted | src/emulator/emulator.rs:35-112 | a step never changes the cycle count |
| LegacyProperties.StepsNeverCountCycles | src/emulator/emulator.rs:35-112 | no run of steps, however long, changes the cycle count |
| LegacyProperties.UnsupportedModes | src/emulator/emulator.rs:58-60 | any mode other than IMPL, A, IMM, ABS and ZPG is the unimplemented-mode panic, with nothing changed |
| LegacyProperties.UnsupportedMnemonics | src/emulator/emulator.rs:100-106 | NOP, BEQ, BNE and the other mnemonics are the unimplemented-opcode panic, with nothing changed |
| LegacyProperties.StoreAbsoluteOnly | src/emulator/emulator.rs:81-87 | STA ABS writes A at the operand word and advances PC by 3; STA in IMPL, A, IMM or ZPG mode is the invalid-mode panic |
| LegacyProperties.LoadAccumulator | src/emulator/emulator.rs:69-80 | LDA assigns A directly (no flags) from the immediate or addressed byte and advances PC |
| LegacyProperties.AddImmediate | src/emulator/emulator.rs:88-93 | ADC IMM is a plain u8 addition: the sum if it fits, else the overflow panic with nothing changed |
| LegacyProperties.JumpAbsolute | src/emulator/emulator.rs:94-99 | JMP ABS sets PC to the operand word without advancing |
| LegacyProperties.StepAdvancesBySize | src/emulator/emulator.rs:108-110 | apart from JMP, success moves PC by the mode's size; an overflow panic other than ADC's means PC + size passed 0xFFFF |
| LegacyProperties.LoadStoreProgram | src/emulator/emulator.rs:35-112 | `A9 05 8D 00 02` at 0x0600 on a fresh engine leaves A = 5, 5 at 0x0200, PC = 0x0605 and no cycles counted |

## Left out

- `src/emulator/opcodes.rs` is not part of this model. `opcodes::from_code` is a `Decoder` parameter of every `step`, and no property of it is relied on. Mnemonics that no engine dispatches on are represented together by `Other`, because every engine treats them alike (an unimplemented-opcode panic).
- `main.rs`, `graphic/` and the `Display` implementations in the `error.rs` files are not modelled. They are the window, the rendering and the message text.
- `handler.rs` is modelled only as the sequence of `step` calls its run loop makes (`Runs.Iterate`). The thread, the command channel, the 1 ms `recv_timeout` polling that ends the loop on a new command, the mutex and the `Reset` command's program reload are not modelled. A run is bounded by a step count `n` instead of by the arrival of a command.
- The `println!` tracing in `step` and `init` and the `Debug` output of the register files are left out, because they are output only.
- Panics are modelled as a `Fault` kind; the panic messages are not modelled. The model returns the state as it stood when the panic fired. In the program a panic ends the run, so that state is never observed.
- Integer overflow on `+=` (the u8 accumulator in the oldest engine's ADC, the u16 PC advance in the two older engines) is modelled as the debug-build panic. The release-build wrap-around is not modelled.
- `usize` is unbounded in the model (`Address.raw` is a `nat`). The largest index any engine forms is 0x10001: the live engine's ABS fetch at PC 0xFFFF reads `next()` of `next()`, and the older engines form `PC as usize + 1 + 1`, each before the bounds panic. No 64-bit limit is reached. The `& 0xFFFF` mask of `Ram` indexing and of the `Address` conversions is modelled by `% 0x1_0000`.
- The `cycles: usize` counter of each engine is a `nat`; its wrap-around after 2^64 steps is not modelled.
- `src/sixty_five/addressing_modes.rs` and `src/sixty_five/opcodes.rs` are not part of this model. `src/sixty_five/emulator.rs` imports `get_size`, `AddressingMode` and `opcodes` from them (declared in src/sixty_five/mod.rs:3-6). `SixtyFiveEmulator` uses `AddressingModes.GetSize` (`OP_SIZES`) and the `AddressingMode` of `src/emulator/addressing_modes.rs` instead, and its opcode table is the `Decoder` parameter, like the other engines'.
- The `unwrap_or_else(invalid_mode)` calls in dispatch are not a modelled outcome. Each engine proves they never fire: every mode a mnemonic accepts has an operand, by the `FetchOperand` contracts and the `DispatchEffect` precondition.
- `init` returns a `Result` that is always `Ok`, so the `?` after it never propagates. `Init` is modelled as a method with no result.
- `Registers::test` and `Cpu::test` carry no contract of their own. Each is `FlagSet` on the status byte, and the `Components.FlagSet` row states what it means.
- `Deref` for `Ram` and `Address` is modelled by reading the buffer or the `raw` field directly.
- The cycle-accurate timing of a real 6502 is not modelled, because none of the engines implements it; each counts one cycle per instruction at most.
