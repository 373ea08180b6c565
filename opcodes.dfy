/** The three transaction gas prices the transaction model reads from the
    opcode table (`ethereum/opcodes.py`, which is not part of this model;
    the values are those of the Frontier/Homestead schedule). */
module Opcodes {

  /** Base cost of every transaction. */
  const GTXCOST: nat := 21000

  /** Cost of one zero byte of transaction data. */
  const GTXDATAZERO: nat := 4

  /** Cost of one non-zero byte of transaction data. */
  const GTXDATANONZERO: nat := 68
}
