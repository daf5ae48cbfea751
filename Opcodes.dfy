/**
 * The decoded instruction set executed by the CPU.  The byte-to-command
 * decoder itself is not part of this model; these types are read off the
 * exhaustive matches of the executor.
 */
module Opcodes {
  import opened Bits

  /** An 8-bit register, or HL standing for "the byte at address HL". */
  datatype RegisterId = A | B | C | D | E | H | L | HL

  datatype Register16Id = AF | BC | DE | HL | SP

  /** Branch conditions: zero, not zero, carry, no carry. */
  datatype FlagId = Z | NZ | C | NC

  /** Where an 8-bit operand comes from or goes to. */
  datatype Operand =
    | DirectAddress                    // the byte at an immediate address (nn)
    | IndirectAddress(reg: Register16Id) // the byte at the address held in a pair
    | Byte                             // an immediate byte n
    | Register(r8: RegisterId)
    | Register16(r16: Register16Id)

  datatype Command =
    | ADD(op: Operand)
    | ADD_HL(pair: Register16Id)
    | ADD_SP
    | ADC(op: Operand)
    | AND(op: Operand)
    | BIT(bit: BitIndex, reg: RegisterId)
    | CALL
    | CALL_flag(flag: FlagId)
    | CCF
    | CP(op: Operand)
    | CPL
    | DAA
    | DEC(op: Operand)
    | DI
    | EI
    | INC(op: Operand)
    | JP
    | JP_flag(flag: FlagId)
    | JP_HL
    | JR
    | JR_flag(flag: FlagId)
    | LD_AC
    | LD_CA
    | LD(dst: Operand, src: Operand)
    | LDH_An
    | LDH_nA
    | LDD_A_HL
    | LDD_HL_A
    | LDI_A_HL
    | LDI_HL_A
    | LD_SP_HL
    | LDHL
    | NOP
    | OR(op: Operand)
    | POP(pair: Register16Id)
    | PUSH(pair: Register16Id)
    | RES(bit: BitIndex, reg: RegisterId)
    | RET
    | RETI
    | RET_flag(flag: FlagId)
    | RL(op: Operand)
    | RLA
    | RLC(op: Operand)
    | RLCA
    | RR(op: Operand)
    | RRA
    | RRC(op: Operand)
    | RRCA
    | RST(offset: u8)
    | SBC(op: Operand)
    | SCF
    | SET(bit: BitIndex, reg: RegisterId)
    | SLA(op: Operand)
    | SRA(op: Operand)
    | SRL(op: Operand)
    | STOP
    | SUB(op: Operand)
    | SWAP(op: Operand)
    | XOR(op: Operand)
}
