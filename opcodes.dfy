/** Opcode descriptors. The byte-to-descriptor table itself is not part of
    this model: each engine receives it as a `Decoder`, a total function from
    the opcode byte to an optional descriptor; no property of it is relied on. */
module Opcodes {
  import opened Bits
  import opened AddressingModes

  /** The mnemonics the engines dispatch on; every other mnemonic of the
      table behaves identically in all three engines (a panic), so they are
      represented together by `Other`. */
  datatype OpcodeType = BRK | NOP | LDA | STA | ADC | JMP | BEQ | BNE | Other

  /** A table entry: the mnemonic and the addressing mode of one opcode byte. */
  datatype Opcode = Opcode(name: OpcodeType, mode: AddressingMode)

  /** `opcodes::from_code`: `None` for a byte with no entry. */
  type Decoder = u8 -> Option<Opcode>
}
