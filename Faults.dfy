/** The conditions under which the emulator panics, as values. */
module Faults {
  import opened Bits
  import opened Words
  import opened Opcodes

  datatype Fault =
    | UnmappedAddress(address: u16)       // the MMU has no buffer for the address
    | UnsupportedRegister(reg: RegisterId) // HL used to index the 8-bit registers
    | UnsupportedOperand(op: Operand)      // an operand an instruction has no arm for
    | UnsupportedOpcode(opcode: u8, next: u8) // the decoder rejected the bytes at PC
}
