/** The pieces of an LLVM module that the static profile exporter reads,
    reduced to plain values: named globals with constant-struct initializers,
    and functions with their profiling names and per-block frequencies. */
module Ir {

  const TWO_POW_32: nat := 0x1_0000_0000
  const TWO_POW_64: nat := 0x1_0000_0000_0000_0000

  /** C++ `uint64_t` and `unsigned` (32 bits). */
  type u64 = x: nat | x < 0x1_0000_0000_0000_0000
  type u32 = x: nat | x < 0x1_0000_0000

  datatype Option<T> = None | Some(value: T)

  /** One operand of a constant struct: a `ConstantInt` (read with
      `getZExtValue`) or any other kind of constant. */
  datatype Operand = IntConstant(value: u64) | OtherConstant

  /** A global's initializer: a `ConstantStruct` with positional operands,
      or anything else (including no initializer at all). */
  datatype Initializer = ConstantStruct(operands: seq<Operand>) | OtherInitializer

  /** A function as the exporter sees it. `pgoName` is what `getPGOFuncName`
      returns, `irPgoName` what `getIRPGOFuncName` returns, and `blockFreqs`
      holds the block-frequency oracle's answer for each basic block in
      iteration order; the entry block comes first. */
  datatype Function = Function(pgoName: string, irPgoName: string, blockFreqs: seq<u64>)

  /** A function without a body has no basic blocks. */
  predicate IsDeclaration(f: Function) {
    |f.blockFreqs| == 0
  }

  /** `getNamedGlobal` is a lookup in `globals`; iteration over the module's
      functions follows `functions`. */
  datatype Module = Module(globals: map<string, Initializer>, functions: seq<Function>)
}
