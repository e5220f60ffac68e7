/** Outcomes of an emulator step.

    The source distinguishes two classes of failure: errors that `step`
    returns (`UnknownOp`, `Break`), and panics that abort the program
    (an invalid addressing mode for an opcode, an unimplemented mode or
    opcode, an address or integer that overflows, an array index out of
    bounds). Here the first class is `CpuError` and the second is `Fault`;
    they never mix. */
module Errors {
  import opened Bits

  /** The `CpuError` / `EmulatorError` variants that `step` returns. */
  datatype CpuError = UnknownOp(code: u8) | Break

  /** Why the Rust code would panic. */
  datatype Fault =
    | InvalidMode          // `invalid_mode` and "Invalid addressing mode for ..."
    | UnimplementedMode    // `unimplemented!` in operand resolution
    | UnimplementedOpcode  // `unimplemented!` in dispatch
    | AddressOutOfRange    // `Address` construction or `+` above 0xFFFF
    | IndexOutOfBounds     // indexing a `[u8; 0x10000]` with 0x10000 or more
    | ArithmeticOverflow   // `+=` on a `u8` or `u16` that overflows (debug build)

  /** A computation that either yields a value or panics. */
  datatype Checked<+T> = Ok(value: T) | Panicked(fault: Fault) {
    predicate IsFailure() { Panicked? }

    function PropagateFailure<U>(): Checked<U>
      requires Panicked?
    {
      Panicked(fault)
    }

    function Extract(): T
      requires Ok?
    {
      value
    }
  }

  /** What one `step` call ends with: `Ok(())`, a returned error, or a panic. */
  datatype Outcome = Done | Err(error: CpuError) | Fatal(fault: Fault)
}
