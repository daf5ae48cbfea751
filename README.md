# ruboy execution core in Dafny

This project models the instruction-execution core of ruboy, a Game Boy
(Sharp SM83) emulator written in Rust. The model has two halves.

- **The CPU (`src/cpu.rs`).** This covers:
  - the register file and its 16-bit pair views;
  - the packing of the Z, N, H and C flags into the low byte of AF;
  - the instruction-stream readers `read_8` and `read_16`;
  - operand resolution, and the stack primitives;
  - the carry chain `calc_with_carry` and the half-carry helpers;
  - every arm of the `match opcode` inside `Cpu::run`.
- **The memory-management unit (`src/memory.rs`).** This covers:
  - the five fixed-size RAM buffers and the cartridge content;
  - the address decoding shared by `Index` and `IndexMut`, including the
    echo of work RAM and the two unmapped ranges;
  - the I/O power-on table written by `init_io_ports`.

The model has three layers.

- **Values.** `Words`, `Bits`, `Registers`, `Memory` and `Alu` hold the
  fixed-width arithmetic, the flag packing, the register file, the address
  decoding and the ALU operations.
- **Specification.** `Semantics` is a functional specification of one
  instruction. It acts on a `Machine`, which is the registers plus a memory
  image. `Semantics.Run` is the `run` loop with a fuel bound.
- **In-place model.** The classes `MemoryUnit.Mmu` (arrays updated in place)
  and `Processor.Cpu` (a `regs` field reassigned step by step) mirror the
  source's imperative code. Every method of the two classes is proved
  against the specification layer: after the call, the state is exactly the
  one the corresponding `Semantics` or `Memory` function gives, and so is
  the fault, if any.
- **Properties.** `Properties` states what the instructions mean. Examples:
  - the arithmetic behind each flag;
  - push/pop and call/return round trips;
  - when a conditional branch is taken;
  - the decimal result of ADD or SUB followed by DAA;
  - fuel monotonicity of the run loop.

Modelling decisions:

- **Wrap-around.** All u16 arithmetic wraps modulo 2^16. This is what a
  release build of the source does. In a debug build, two kinds of
  operation panic on overflow, and that is not modelled:
  - the plain `+=`, `-=` and `+ 1` on u16 values;
  - the `i16` addition inside `advance_pc`, whenever PC moves across the
    boundary between 0x7FFF and 0x8000.
- **Panics as faults.** Every panic of the source becomes an `Err` value of
  `Faults.Fault`:
  - indexing `Registers` with `RegisterId::HL`;
  - an unsupported operand of an instruction;
  - an unmapped address;
  - an opcode the decoder rejects.
  A faulting step leaves no promise about the state after it, just as a
  panic ends the program.
- **The decoder.** `Command::try_from` is not part of this model. The
  decoder is a parameter of `Cycle` and `Run`: a function from the two bytes
  at PC to an optional command.
- **Half carry of ADD HL.** As in the source, ADD HL,rr takes H from
  `half_carry_16_add` as written (`Alu.HalfCarry16AddAsWritten`, mask
  0x07FF). "Findings" explains why that is not the carry out of bit 11 the
  instruction should report. The corrected helper `Alu.HalfCarry16Add` is
  defined beside it, with its intended property proved, but no instruction
  uses it.

## Model

| member | source | states |
|---|---|---|
| Words.Wrap16 | src/cpu.rs:776-778 | the u16 wrap-around. An in-range value is unchanged; one step outside the range is shifted back by 2^16 |
| Words.SignedByte | src/cpu.rs:400-407 | `e as i8`: a value in -128..127 that is either e itself or e - 256 |
| Words.SignExtend16 | src/cpu.rs:235-237 | `e as i8 as i16 as u16`: the wrapped signed value, with the same low byte and the same low nibble as e |
| Words.FromBytes | src/cpu.rs:96-102 | `u16::from_be_bytes`: the high byte of the result is `hi` and its low byte is `lo` |
| Words.BytesRoundTrip | src/cpu.rs:106-118 | splitting a u16 into bytes and joining them gives it back, and joining then splitting gives the bytes back |
| Registers.PairValue | src/cpu.rs:96-102 | `get(BC/DE/HL)` is the first register times 256 plus the second; `get(AF)` is A times 256 plus `get_f` |
| Registers.SetGetPair | src/cpu.rs:106-118 | `set(p, v)` then `get(p)` gives v for BC, DE, HL and SP. Every other pair, PC, A and the flags are unchanged |
| Registers.SetGetAF | src/cpu.rs:106-112 | `set(AF, v)` then `get(AF)` gives v with its low nibble cleared (`v & 0xFFF0`); the other pairs and PC are unchanged |
| Registers.PackedFlagBits | src/cpu.rs:133-139 | `get_f` puts Z, N, H and C in bits 7, 6, 5 and 4, and leaves the low nibble zero |
| Registers.WithFBits | src/cpu.rs:141-146 | `set_f(v)` sets Z, N, H and C from bits 7, 6, 5 and 4 of v |
| Registers.PackAfterUnpack | src/cpu.rs:137-146 | `set_f(v)` then `get_f` gives v with its low nibble cleared |
| Registers.UnpackAfterPack | src/cpu.rs:137-146 | `get_f` then `set_f` restores all four flags |
| Registers.Set8Get8 | src/cpu.rs:39-69 | indexing with A to L reads and writes that register and leaves the others, the flags and PC unchanged. Indexing with `RegisterId::HL` is a fault, both for reading and for writing |
| Memory.Decode | src/memory.rs:71-92 | `Index`: every offset is within the reach of its buffer, and an unmapped address fails with its own address in the fault |
| Memory.UnmappedRanges | src/memory.rs:84-91 | decoding fails exactly on 0xFE00-0xFEFF and 0xFF4C-0xFF7F |
| Memory.EchoAliasesWorkRam | src/memory.rs:78-82 | for k < 0x1E00, 0xC000+k and 0xE000+k both decode to offset k of work RAM |
| Memory.SameCellIff | src/memory.rs:71-92 | two mapped addresses share a cell exactly when they are equal or one is the echo of the other |
| Memory.AccessFaults | src/memory.rs:95-118 | `IndexMut` fails on exactly the addresses where `Index` fails, with the same fault |
| Memory.ReadAfterWrite | src/memory.rs:96-117 | after a write to a mapped address, reading that address gives the byte written |
| Memory.WriteFrame | src/memory.rs:96-117 | a write leaves every other cell unchanged, the cartridge window included |
| Memory.EchoWrite | src/memory.rs:103-107 | a write to work RAM is seen at its echo address, and a write to the echo is seen in work RAM |
| Memory.WriteSameByte | src/memory.rs:96-117 | writing back the byte a cell already holds changes nothing |
| Memory.PowerOn | src/memory.rs:15-28 | the image after `Mmu::new` holds the cartridge content unchanged |
| Memory.PowerOnContents | src/memory.rs:15-65 | after `Mmu::new`: the ROM window reads as the cartridge, the I/O ports read as the power-on table, and video, switchable, work and high RAM read as zero |
| MemoryUnit.Mmu.constructor | src/memory.rs:15-28 | allocates the five buffers with the sizes of their ranges, copies the cartridge, and leaves the power-on image |
| MemoryUnit.Mmu.InitIoPorts | src/memory.rs:30-65 | each I/O port listed in the power-on table gets its table value; the others keep theirs |
| MemoryUnit.Mmu.Get | src/memory.rs:68-93 | `mmu[addr]` on the arrays is `Memory.Read` of the image, fault included |
| MemoryUnit.Mmu.Set | src/memory.rs:95-118 | `mmu[addr] = v` on the arrays succeeds exactly when `Memory.Write` does and leaves its image. On an unmapped address it changes nothing and reports that address |
| Alu.CalcWithCarry | src/cpu.rs:833-846 | the loop of `calc_with_carry`, where the carry, once raised, stays raised. Added, the result is the sum of the operands modulo 256, with the carry set iff the sum exceeds 255. Subtracted, it is the first operand minus the rest, modulo 256, with the carry set iff the rest exceeds the first |
| Processor.CarryChain | src/cpu.rs:211-221 | the carry chain over A, the operand and the carry-in, as ADD, ADC, SUB and SBC call it, agrees with `Semantics.ArithOn` |
| Alu.HalfCarry8AddIsCarryIntoBit4 | src/cpu.rs:848-850 | `half_carry_8_add` is true exactly when a carry reaches bit 4 of the sum |
| Alu.HalfCarry8SubIsBorrowIntoBit4 | src/cpu.rs:852-854 | `half_carry_8_sub` is true exactly when a borrow reaches bit 4 of the difference |
| Alu.HalfCarry16AsWrittenIsCarryIntoBit11 | src/cpu.rs:856-858 | `half_carry_16_add` as written (mask 0x07FF) is true exactly when a carry reaches bit 11, not one leaving it |
| Alu.HalfCarry16Counterexamples | src/cpu.rs:856-858 | on 0x0800 + 0x0800 and on 0x0400 + 0x0400, the helper as written and the carry out of bit 11 disagree |
| Alu.HalfCarry16AddIsCarryIntoBit12 | src/cpu.rs:856-858 | the corrected helper, with the mask 0x0FFF, is true exactly when a carry reaches bit 12 of the sum, i.e. leaves bit 11 |
| Alu.AddSignedOffset | src/cpu.rs:235-246 | SP plus the sign-extended byte, wrapped. H and C come from the low nibble and the low byte of SP and e |
| Alu.DaaAfterAdd | src/cpu.rs:307-337 | DAA with N clear, after a binary add of two BCD bytes and a carry-in, gives the decimal sum modulo 100, with the carry set iff the decimal sum reaches 100 |
| Alu.DaaAfterSub | src/cpu.rs:307-337 | DAA with N set, after a binary subtraction of a BCD byte and a borrow from another, gives the decimal difference modulo 100, with the carry set iff the difference is negative |
| Alu.CarryIsShiftedOutBit | src/cpu.rs:519-725 | RLC, RL and SLA carry out bit 7; RRC, RR, SRA and SRL carry out bit 0 |
| Alu.RotateInverse | src/cpu.rs:553-635 | RRC undoes RLC, and RLC undoes RRC |
| Alu.RotateThroughCarryInverse | src/cpu.rs:519-605 | RR undoes RL through the carry, and RL undoes RR, restoring both the byte and the carry |
| Alu.SraHalvesSigned | src/cpu.rs:695-710 | SRA halves the signed value, rounding down, and keeps bit 7 |
| Alu.ShiftsLoseOneBit | src/cpu.rs:680-725 | SLA after SRL clears bit 0, and SRL after SLA clears bit 7 |
| Alu.SwapNibbles | src/cpu.rs:738-759 | SWAP exchanges the two nibbles, and swapping twice gives the byte back |
| Alu.BitIsClearIff | src/cpu.rs:267-276 | the BIT test `n & (1 << bit) == 0` holds iff the bit is clear |
| Alu.SetBitBits | src/cpu.rs:666-679 | SET turns the chosen bit on and keeps every other bit |
| Alu.ResetBitBits | src/cpu.rs:490-503 | RES turns the chosen bit off and keeps every other bit |
| Properties.GetOperandFrame | src/cpu.rs:792-812 | a successful `get_operand` changes nothing but PC, which it advances by 2 for a direct address, by 1 for an immediate byte, and by 0 otherwise |
| Properties.Read16LittleEndian | src/cpu.rs:786-790 | `read_16` succeeds iff both bytes at PC are mapped. It is little-endian and advances PC by 2, modulo 2^16 |
| Properties.ImmediateFollowsOpcode | src/cpu.rs:204-208 | PC moves past the opcode (2 bytes after the 0xCB prefix, else 1) before the immediate byte of `LD r,n` is read. That byte lands in r and PC ends one past it |
| Properties.StopHalts | src/cpu.rs:726 | STOP halts with PC one past its opcode and nothing else changed |
| Properties.JrHaltsOnSelfLoop | src/cpu.rs:400-407 | JR with offset 0xFE halts with PC past the instruction. Any other offset jumps to PC + 2 plus the signed offset and keeps running |
| Properties.PushLayout | src/cpu.rs:814-821 | `push_stack(v)` succeeds exactly when SP-1 and SP-2 are mapped. It then lowers SP by 2, puts the low byte at the new SP and the high byte above it, and changes no other cell |
| Properties.PopAfterPush | src/cpu.rs:814-830 | `pop_stack` after `push_stack(v)` succeeds, returns v and restores every register |
| Properties.ReturnAfterCall | src/cpu.rs:277-281 | CALL jumps to its operand and lowers SP by 2. A RET then returns to the address just past the CALL and restores SP, whatever PC is by then |
| Properties.CallPushesReturnAddress | src/cpu.rs:277-281 | a whole CALL step jumps to the word after the opcode and lowers SP by 2. The address it pushes is PC + 3 |
| Properties.ConditionalJump | src/cpu.rs:393-398 | JP cc behaves as JP when the flag condition holds. Otherwise it still consumes its two address bytes and ends just past the instruction |
| Properties.ConditionalCall | src/cpu.rs:282-289 | CALL cc behaves as CALL when the condition holds. Otherwise it only reads its address and ends 3 bytes on |
| Properties.ConditionalRelativeJump | src/cpu.rs:408-413 | JR cc jumps when the condition holds; with offset 0xFE that is a loop onto itself that does not halt. Otherwise it ends 2 bytes on |
| Properties.ConditionalReturn | src/cpu.rs:513-518 | RET cc behaves as RET when the condition holds, and otherwise ends 1 byte on |
| Properties.ArithResult | src/cpu.rs:211-221 | ADD, ADC (247-258), SUB (727-737) and SBC (648-660): A becomes the exact result modulo 256, and C is set iff that result left 0..255. Z is set iff A is 0, N iff it subtracts, and H is the carry into bit 4. PC advances by the operand's width; memory is unchanged |
| Properties.ArithOnMeaning | src/cpu.rs:833-854 | the flags and the result the carry chain and half-carry helpers give, for any byte inputs and carry-in |
| Properties.CompareIsSubtractWithoutStore | src/cpu.rs:295-301 | CP faults exactly when SUB does, and otherwise is SUB with A left unchanged |
| Properties.SubtractUndoesAdd | src/cpu.rs:727-737 | SUB r after ADD r gives A back, and the two carry flags agree |
| Properties.PairIncDecKeepFlags | src/cpu.rs:363-388 | 16-bit INC and DEC step the pair by one modulo 2^16 and touch no flag and no memory |
| Properties.ByteIncDec | src/cpu.rs:338-388 | 8-bit INC and DEC step the register or (HL) by one modulo 256. They keep C, set N iff decrementing, set Z iff the result is 0, and set H on the nibble carry or borrow |
| Properties.IncThenDec | src/cpu.rs:338-388 | DEC after INC of a register or (HL) gives its old value back |
| Properties.AddHlResult | src/cpu.rs:222-234 | ADD HL,rr stores the sum modulo 2^16 in HL. Z is kept, N is cleared, C is set iff the sum exceeds 0xFFFF, and H is the carry into bit 11, as `half_carry_16_add` (856-858) computes it. A, SP, PC and memory are unchanged |
| Properties.AddHlMissesCarryOutOfBit11 | src/cpu.rs:222-234 | ADD HL,BC with HL = BC = 0x0800 gives 0x1000 and leaves H clear, although that sum carries out of bit 11 |
| Properties.HalfCarryOfAddHl | src/cpu.rs:856-858 | the helper ADD HL uses for H, applied to its two words, is the carry into bit 11 of their wrapped sum |
| Properties.IntendedHalfCarryOfAddHl | src/cpu.rs:856-858 | the corrected helper on the two words of ADD HL is the carry into bit 12 of their wrapped sum |
| Properties.SignedOffsetForms | src/cpu.rs:464-474 | ADD SP,e (235-246) and LD HL,SP+e add the same wrapped signed offset and set the same flags: Z and N clear, H and C from the low nibble and low byte. One writes SP and the other HL |
| Properties.DecimalAddition | src/cpu.rs:307-337 | `ADD A,r` on two BCD bytes followed by DAA leaves the decimal sum modulo 100 in A, with C iff the sum reaches 100 and Z iff it is 0 modulo 100 |
| Properties.DecimalSubtraction | src/cpu.rs:307-337 | `SUB A,r` on two BCD bytes followed by DAA leaves the decimal difference modulo 100 in A, with C iff the difference is negative and Z iff it is 0 modulo 100 |
| Properties.ShiftPlaceResult | src/cpu.rs:519-725 | the CB rotates, shifts and SWAP store the shifted byte. They set Z iff it is 0, clear N and H, and put the shifted-out bit in C (cleared for SWAP) |
| Properties.AccumulatorShiftClearsZero | src/cpu.rs:544-642 | RLCA, RRCA, RLA and RRA act as the CB rotates on A, except that Z is always cleared |
| Properties.TestBitResult | src/cpu.rs:267-276 | BIT faults only when its operand does. It sets Z iff the bit is clear, clears N, sets H, keeps C, and changes nothing else |
| Properties.ChangeBitResult | src/cpu.rs:666-679 | SET and RES (490-503) fault exactly when their operand cannot be read. Otherwise they change only the chosen bit of the operand and touch no flag |
| Properties.LogicResult | src/cpu.rs:259-266 | AND, OR (476-484) and XOR (760-767) combine A and the operand bit by bit. Z is set iff the result is 0, N is cleared, H is set only for AND, and C is cleared |
| Properties.ComplementInverts | src/cpu.rs:302-306 | CPL flips every bit of A, and applying it twice gives A back |
| Properties.PopAfterPushPair | src/cpu.rs:485-489 | POP rr after PUSH rr restores the pair; for AF the low nibble of F reads back as zero |
| Properties.RestartCalls | src/cpu.rs:643-647 | RST jumps to its fixed offset and pushes the return address, as a call does |
| Properties.StoreSpLittleEndian | src/cpu.rs:435-439 | `LD (nn),SP` stores SP little-endian at nn and nn+1 and advances PC by 2 |
| Properties.HlAutoIncrement | src/cpu.rs:447-462 | LDD and LDI move A from or to (HL), then step HL by -1 or +1 modulo 2^16. They fault exactly when (HL) is unmapped |
| Properties.LoopFuelMonotone | src/cpu.rs:181-209 | a run loop that ends within some fuel ends the same way with more fuel |
| Properties.LoopResumes | src/cpu.rs:181-209 | a run loop that runs out of fuel carries on, with more fuel, from where it stopped |
| Properties.RunMoreFuel | src/cpu.rs:181-209 | the two properties above, for `run` with any decoder |
| Processor.Cpu.constructor | src/cpu.rs:158-178 | `init_cpu`: the power-on registers, with every flag clear |
| Processor.Cpu.SetPc | src/cpu.rs:772-774 | `set_pc` changes only PC |
| Processor.Cpu.AdvancePc | src/cpu.rs:776-778 | `advance_pc` adds a signed 16-bit amount to PC modulo 2^16 and changes nothing else |
| Processor.Cpu.Read8 | src/cpu.rs:780-784 | `read_8` returns the byte at PC and steps PC by one, as `Semantics.Read8` does |
| Processor.Cpu.Read16 | src/cpu.rs:786-790 | `read_16` returns the word at PC and steps PC by two, as `Semantics.Read16` does; Properties.Read16LittleEndian states its meaning |
| Processor.Cpu.GetOperand | src/cpu.rs:792-812 | `get_operand` in place, as `Semantics.GetOperand`. `Register16(r)` dereferences memory at the pair, and `Register(HL)` reads (HL) |
| Processor.Cpu.PushStack | src/cpu.rs:814-821 | `push_stack` on the register field and the MMU arrays leaves exactly the state of `Semantics.Push`; Properties.PushLayout states its meaning |
| Processor.Cpu.PopStack | src/cpu.rs:823-830 | `pop_stack` returns the value of `Semantics.Pop` and leaves its state |
| Processor.Cpu.SetPair | src/cpu.rs:106-118 | `Registers::set` reassigns the register field with `Registers.Set` |
| Processor.Cpu.Arith | src/cpu.rs:211-221 | ADD, ADC (247-258), SUB (727-737) and SBC (648-660) in place, as `Semantics.Arith`; they read the carry-in before the operand |
| Processor.Cpu.Logic | src/cpu.rs:259-266 | AND, OR (476-484) and XOR (760-767) in place, as `Semantics.Logic` |
| Processor.Cpu.Compare | src/cpu.rs:295-301 | CP in place, as `Semantics.Compare` |
| Processor.Cpu.IncDec | src/cpu.rs:363-388 | INC and DEC (338-360) on registers, (HL) and pairs, in place, as `Semantics.IncDec` |
| Processor.Cpu.ShiftPlace | src/cpu.rs:519-543 | RL and the other CB rotates, shifts and SWAP, on a register or (HL), as `Semantics.ShiftPlace` |
| Processor.Cpu.ShiftA | src/cpu.rs:544-552 | RLA, RLCA, RRA and RRCA: A becomes the shifted value, C the shifted-out bit, and Z, N and H are cleared |
| Processor.Cpu.TestBit | src/cpu.rs:267-276 | BIT in place, as `Semantics.TestBit` |
| Processor.Cpu.ChangeBit | src/cpu.rs:666-679 | SET and RES (490-503) in place, as `Semantics.ChangeBit` |
| Processor.Cpu.OffsetSp | src/cpu.rs:464-474 | reads the offset byte and gives the signed sum with SP and its H and C flags, as `Semantics.OffsetSp`, for LDHL and ADD SP,e (235-246) |
| Processor.Cpu.AddHl | src/cpu.rs:222-234 | ADD HL,rr: HL becomes the wrapped sum, N is cleared, H comes from `half_carry_16_add` as written and C from the 16-bit carry |
| Processor.Cpu.LoadInto | src/cpu.rs:416-441 | LD on each kind of destination, as `Semantics.LoadInto`. `LD rr` ignores its source and reads an immediate word. `LD` with a byte destination is `LD (nn),SP` |
| Processor.Cpu.LoadToIndirect | src/cpu.rs:418-421 | LD (rr),src, as `Semantics.LoadToIndirect` |
| Processor.Cpu.LoadToDirect | src/cpu.rs:422-426 | LD (nn),src: the address is read before the source, as `Semantics.LoadToDirect` |
| Processor.Cpu.LoadToRegister | src/cpu.rs:427-430 | LD r,src, as `Semantics.LoadToRegister`; a destination of HL is a fault |
| Processor.Cpu.LoadPairImmediate | src/cpu.rs:431-434 | LD rr,nn, as `Semantics.LoadPairImmediate` |
| Processor.Cpu.StoreSp | src/cpu.rs:435-439 | LD (nn),SP, as `Semantics.StoreSp` |
| Processor.Cpu.LoadAFromHl | src/cpu.rs:447-450 | LDD A,(HL) and LDI A,(HL) (455-458), as `Semantics.LoadAFromHl` |
| Processor.Cpu.StoreAToHl | src/cpu.rs:451-454 | LDD (HL),A and LDI (HL),A (459-462), as `Semantics.StoreAToHl` |
| Processor.Cpu.Jump | src/cpu.rs:389-398 | JP and JP cc: the address is always read, and PC is set to it only if the condition holds |
| Processor.Cpu.Call | src/cpu.rs:277-289 | CALL and CALL cc, as `Semantics.Call` |
| Processor.Cpu.Return | src/cpu.rs:504-518 | RET, RETI and RET cc, as `Semantics.Return` |
| Processor.Cpu.RelativeJump | src/cpu.rs:408-413 | JR cc, as `Semantics.RelativeJump` |
| Processor.Cpu.JumpRelative | src/cpu.rs:400-407 | JR: halts on offset 0xFE and otherwise jumps, as `Semantics.JumpRelative` |
| Processor.Cpu.Restart | src/cpu.rs:643-647 | RST, as `Semantics.Restart` |
| Processor.Cpu.PopPair | src/cpu.rs:485-488 | POP rr, as `Semantics.PopPair` |
| Processor.Cpu.DecimalAdjust | src/cpu.rs:307-337 | DAA's step-by-step correction leaves A and C as `Alu.Daa` gives them, clears H and sets Z iff A is 0 |
| Processor.Cpu.LoadFromIo | src/cpu.rs:414 | LD A,(0xFF00+C), and LDH A,(n) (442), as `Semantics.LoadFromIo` |
| Processor.Cpu.StoreToIo | src/cpu.rs:415 | LD (0xFF00+C),A, and LDH (n),A (443-446), as `Semantics.StoreToIo` |
| Processor.Cpu.Execute | src/cpu.rs:210-768 | each arm of `match opcode`, in place, gives the status and state of `Semantics.Exec`, which follows the arms as written: Halted on STOP and on JR onto itself, Running otherwise |
| Processor.Cpu.Cycle | src/cpu.rs:182-209 | one turn of the loop: fetch the two bytes at PC, decode, step PC past the opcode, run the arm, as `Semantics.Cycle` |
| Processor.Cpu.Turn | src/cpu.rs:181-209 | one turn ends the run as `Semantics.Run` says, or leaves the rest of the run one turn shorter |
| Processor.Cpu.Run | src/cpu.rs:181-209 | `run` for at most `fuel` turns ends as `Semantics.Run` does: finished on a halt, faulted on a panic, or out of fuel. The machine it leaves is the one `Semantics.Run` gives |

## Left out

- The opcode decoder (`Command::try_from` and the `opcodes` module) is not part of this model. `Cycle` and `Run` take it as a parameter. A decoder that returns no command is a fault, as the source's panic is; its message is not modelled.
- The debug `println!` guarded by `&& false` and the empty `pc == 0x48a9` check in `run` have no effect, so they are not modelled.
- DI, EI and RETI's interrupt re-enable are empty TODOs in the source. DI and EI change nothing, and RETI is RET.
- The `Cartridge` type and its file reading (`src/cartridge.rs`) are not part of this model. The cartridge is a byte sequence of length at least 0x8000.
- MemoryUnit.Mmu.constructor: requires the cartridge to be at least 0x8000 bytes long. The source would panic later, on an out-of-bounds index, reading a shorter one.
- Debug-build overflow panics are not modelled: those of the u16 `+=`, `-=` and `+ 1`, and that of the `i16` addition in `advance_pc` when PC moves across 0x7FFF/0x8000 (a one-byte opcode at 0x7FFF, or a JR from one side to the other). All of these wrap, as in a release build.
- Processor.Cpu.Run: `run` loops until STOP, a JR onto itself or a panic, and need not terminate. The model runs at most `fuel` instructions, and Properties.RunMoreFuel relates different amounts of fuel. After a fault the contract says nothing about the machine, since a panic ends the source's program there.
- Processor.Cpu.AdvancePc: requires its amount to be a signed 16-bit value, as the `i16` parameter of `advance_pc` is. It wraps where a debug build's `pc as i16 + nb_bytes` panics, when PC moves across 0x7FFF/0x8000.
- Panic messages and their formatting are not modelled; a fault records the address, register, operand or opcode involved.
- The `Index<Flag>` implementations of `Registers` are field accesses on `Flags`. Timing, interrupts, the PPU and audio do not exist in this code.

## Findings

| source | as written | input that shows it | evidently intended | confidence | as-written member | corrected member |
|---|---|---|---|---|---|---|
| src/cpu.rs:856-858 | `half_carry_16_add` masks both operands with 0x07FF and compares with 0x07FF, which detects a carry into bit 11 | HL = 0x0800, BC = 0x0800 in ADD HL,BC: the sum carries out of bit 11 but H stays clear; HL = 0x0400, BC = 0x0400 sets H with no carry out of bit 11 (Alu.HalfCarry16Counterexamples; Alu.HalfCarry16AsWrittenIsCarryIntoBit11 proves it is the carry into bit 11) | ADD HL,rr sets H on a carry out of bit 11, which needs the mask 0x0FFF (Alu.HalfCarry16AddIsCarryIntoBit12 proves this of the corrected helper. The instructions keep the helper as written; Properties.AddHlMissesCarryOutOfBit11 shows the difference on ADD HL,BC) | not executed | Alu.HalfCarry16AddAsWritten | Alu.HalfCarry16Add |
