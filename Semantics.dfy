/**
 * What the executor does, as functions on a value `Machine` (the register
 * file and a memory image).  Each function mirrors a helper or a dispatch
 * arm of the executor; a panic of the emulator is an `Err`.  The `Cpu`
 * class of module `Processor` is proved against these definitions.
 */
module Semantics {
  import opened Wrappers
  import opened Bits
  import opened Words
  import opened Opcodes
  import opened Faults
  import opened Memory
  import opened Registers
  import opened Alu

  datatype Machine = Machine(regs: Registers, mem: Image)

  /** A value read or computed, with the machine after producing it. */
  datatype Yield<T> = Yield(value: T, next: Machine)

  /** Whether the run loop goes on after an instruction. */
  datatype Status = Running | Halted

  // ---------------------------------------------------------------------
  // Helpers of the executor

  /** `set_pc`. */
  function SetPc(m: Machine, addr: u16): Machine
  {
    m.(regs := m.regs.(pc := addr))
  }

  /** `advance_pc`: PC plus a signed amount, modulo 2^16. */
  function AdvancePc(m: Machine, n: int): Machine
  {
    m.(regs := m.regs.(pc := Wrap16(m.regs.pc + n)))
  }

  function WithFlags(m: Machine, f: Flags): Machine
  {
    m.(regs := m.regs.(flags := f))
  }

  function WithA(m: Machine, v: u8): Machine
  {
    m.(regs := m.regs.(a := v))
  }

  function WithPair(m: Machine, r: Register16Id, v: u16): Machine
  {
    m.(regs := m.regs.Set(r, v))
  }

  function WithMem(m: Machine, mem: Image): Machine
  {
    m.(mem := mem)
  }

  /** `read_8`: the byte at PC, then PC plus one. */
  function Read8(m: Machine): Result<Yield<u8>, Fault>
  {
    var n :- Read(m.mem, m.regs.pc);
    Ok(Yield(n, AdvancePc(m, 1)))
  }

  /** `read_16`: the little-endian word at PC, then PC plus two. */
  function Read16(m: Machine): Result<Yield<u16>, Fault>
  {
    var lo :- Read(m.mem, m.regs.pc);
    var hi :- Read(m.mem, Wrap16(m.regs.pc + 1));
    Ok(Yield(FromBytes(hi, lo), AdvancePc(m, 2)))
  }

  /** `get_operand`: the 8-bit value an operand denotes.  A pair, whether as
      `IndirectAddress` or as `Register16`, denotes the byte it points to,
      and the pseudo-register HL the byte at HL. */
  function GetOperand(m: Machine, op: Operand): Result<Yield<u8>, Fault>
  {
    match op
    case DirectAddress =>
      var addr :- Read16(m);
      var n :- Read(addr.next.mem, addr.value);
      Ok(Yield(n, addr.next))
    case IndirectAddress(reg) =>
      var n :- Read(m.mem, m.regs.Get(reg));
      Ok(Yield(n, m))
    case Byte => Read8(m)
    case Register(reg) =>
      var n :- if reg == RegisterId.HL then Read(m.mem, m.regs.Get(Register16Id.HL)) else m.regs.Get8(reg);
      Ok(Yield(n, m))
    case Register16(reg) =>
      var n :- Read(m.mem, m.regs.Get(reg));
      Ok(Yield(n, m))
  }

  /** `push_stack`: the high byte at SP - 1, then the low byte at SP - 2. */
  function Push(m: Machine, v: u16): Result<Machine, Fault>
  {
    var sp1 := Wrap16(m.regs.sp - 1);
    var mem1 :- Write(m.mem, sp1, High(v));
    var sp2 := Wrap16(sp1 - 1);
    var mem2 :- Write(mem1, sp2, Low(v));
    Ok(Machine(m.regs.(sp := sp2), mem2))
  }

  /** `pop_stack`: the low byte at SP, the high byte at SP + 1, and SP plus
      two. */
  function Pop(m: Machine): Result<Yield<u16>, Fault>
  {
    var lo :- Read(m.mem, m.regs.sp);
    var sp1 := Wrap16(m.regs.sp + 1);
    var hi :- Read(m.mem, sp1);
    Ok(Yield(FromBytes(hi, lo), m.(regs := m.regs.(sp := Wrap16(sp1 + 1)))))
  }

  // ---------------------------------------------------------------------
  // Read-modify-write targets

  /** The byte an instruction updates in place: an 8-bit register, or the
      byte at HL. */
  datatype Place = Reg(id: RegisterId) | AtHL

  /** The place of `INC`, `DEC`, the rotates and shifts, and `SWAP`: a
      register operand or `(HL)`; any other operand has no arm. */
  function PlaceOf(op: Operand): Result<Place, Fault>
  {
    if op.Register? then Ok(Reg(op.r8))
    else if op == IndirectAddress(Register16Id.HL) then Ok(AtHL)
    else Err(UnsupportedOperand(op))
  }

  /** The place of `BIT`, `SET` and `RES`: HL stands for the byte at HL. */
  function BitPlace(reg: RegisterId): Place
  {
    if reg == RegisterId.HL then AtHL else Reg(reg)
  }

  function Load(m: Machine, p: Place): Result<u8, Fault>
  {
    match p
    case Reg(id) => m.regs.Get8(id)
    case AtHL => Read(m.mem, m.regs.Get(Register16Id.HL))
  }

  /** A byte written to memory, or the fault of an unmapped address. */
  function WriteByte(m: Machine, addr: u16, v: u8): Result<Machine, Fault>
  {
    var mem :- Write(m.mem, addr, v);
    Ok(WithMem(m, mem))
  }

  function Store(m: Machine, p: Place, v: u8): Result<Machine, Fault>
  {
    match p
    case Reg(id) =>
      var r :- m.regs.Set8(id, v);
      Ok(m.(regs := r))
    case AtHL => WriteByte(m, m.regs.Get(Register16Id.HL), v)
  }

  // ---------------------------------------------------------------------
  // Instruction families

  datatype ArithOp = AddOp | AdcOp | SubOp | SbcOp
  {
    predicate Subtracts() { this == SubOp || this == SbcOp }
    predicate UsesCarry() { this == AdcOp || this == SbcOp }
  }

  /** The byte and the flags ADD, ADC, SUB or SBC produce from `a`, `n` and
      the carry-in `cin`: the byte of the exact sum or difference, C when
      that leaves 0..255, H from the low nibbles. */
  function ArithOn(a: u8, n: u8, cin: u8, kind: ArithOp): (u8, Flags)
  {
    var total := if kind.Subtracts() then a as int - n - cin else a as int + n + cin;
    var res: u8 := total % 0x100;
    var carry := if kind.Subtracts() then a < n + cin else total > 0xFF;
    var h := if kind.Subtracts() then HalfCarry8Sub(a, n, cin) else HalfCarry8Add(a, n, cin);
    (res, Flags(res == 0, kind.Subtracts(), h, carry))
  }

  /** ADD, ADC, SUB and SBC on A and an operand. */
  function Arith(m: Machine, op: Operand, kind: ArithOp): Result<Machine, Fault>
  {
    var cin := if kind.UsesCarry() && m.regs.flags.c then 1 else 0;
    var n :- GetOperand(m, op);
    var r := ArithOn(n.next.regs.a, n.value, cin, kind);
    Ok(WithFlags(WithA(n.next, r.0), r.1))
  }

  /** AND, OR and XOR: H is set by AND only; N and C are cleared. */
  function Logic(m: Machine, op: Operand, kind: BitOp): Result<Machine, Fault>
  {
    var n :- GetOperand(m, op);
    var a := n.next.regs.a;
    var res := match kind
      case AndOp => And(a, n.value)
      case OrOp => Or(a, n.value)
      case XorOp => Xor(a, n.value);
    Ok(WithFlags(WithA(n.next, res), Flags(res == 0, false, kind == AndOp, false)))
  }

  /** CP: the flags of A - n; A is not written. */
  function Compare(m: Machine, op: Operand): Result<Machine, Fault>
  {
    var n :- GetOperand(m, op);
    var a := n.next.regs.a;
    Ok(WithFlags(n.next, Flags(a == n.value, true, HalfCarry8Sub(a, n.value, 0), a < n.value)))
  }

  /** INC and DEC: a pair wraps and no flag changes; a byte wraps and sets
      Z, N and H, leaving C. */
  function IncDec(m: Machine, op: Operand, inc: bool): Result<Machine, Fault>
  {
    if op.Register16? then
      var v := m.regs.Get(op.r16);
      Ok(WithPair(m, op.r16, if inc then Wrap16(v + 1) else Wrap16(v - 1)))
    else
      var p :- PlaceOf(op);
      var prior :- Load(m, p);
      var res: u8 := if inc then (prior + 1) % 0x100 else (prior - 1) % 0x100;
      var m1 :- Store(m, p, res);
      var h := if inc then HalfCarry8Add(prior, 1, 0) else HalfCarry8Sub(prior, 1, 0);
      Ok(WithFlags(m1, m1.regs.flags.(z := res == 0, n := !inc, h := h)))
  }

  datatype ShiftOp = RlcOp | RrcOp | RlOp | RrOp | SlaOp | SraOp | SrlOp | SwapOp

  /** The byte and the carry flag a rotate, shift or SWAP produces from `x`
      and the carry flag `c`. */
  function Shift(kind: ShiftOp, x: u8, c: bool): Shifted
  {
    match kind
    case RlcOp => Rlc(x)
    case RrcOp => Rrc(x)
    case RlOp => Rl(x, c)
    case RrOp => Rr(x, c)
    case SlaOp => Sla(x)
    case SraOp => Sra(x)
    case SrlOp => Srl(x)
    case SwapOp => Shifted(Swap(x), false)
  }

  /** RLC, RRC, RL, RR, SLA, SRA, SRL and SWAP on a register or (HL). */
  function ShiftPlace(m: Machine, op: Operand, kind: ShiftOp): Result<Machine, Fault>
  {
    var p :- PlaceOf(op);
    var x :- Load(m, p);
    var s := Shift(kind, x, m.regs.flags.c);
    var m1 :- Store(m, p, s.value);
    Ok(WithFlags(m1, Flags(s.value == 0, false, false, s.carry)))
  }

  /** RLCA, RRCA, RLA and RRA: on A, with Z always cleared. */
  function ShiftA(m: Machine, kind: ShiftOp): Machine
  {
    var s := Shift(kind, m.regs.a, m.regs.flags.c);
    WithFlags(WithA(m, s.value), Flags(false, false, false, s.carry))
  }

  /** BIT: Z is set when the bit is clear; C and the operand are kept. */
  function TestBit(m: Machine, bit: BitIndex, reg: RegisterId): Result<Machine, Fault>
  {
    var n :- Load(m, BitPlace(reg));
    Ok(WithFlags(m, m.regs.flags.(z := BitIsClear(n, bit), n := false, h := true)))
  }

  /** SET (`turnOn` true) and RES (`turnOn` false); no flag changes. */
  function ChangeBit(m: Machine, bit: BitIndex, reg: RegisterId, turnOn: bool): Result<Machine, Fault>
  {
    var p := BitPlace(reg);
    var n :- Load(m, p);
    Store(m, p, if turnOn then SetBit(n, bit) else ResetBit(n, bit))
  }

  /** ADD SP,e and LD HL,SP+e: Z and N cleared, H and C from the low nibble
      and the low byte. */
  function OffsetSp(m: Machine): Result<Yield<OffsetResult>, Fault>
  {
    var e :- Read8(m);
    var r := AddSignedOffset(e.next.regs.sp, e.value);
    Ok(Yield(r, WithFlags(e.next, Flags(false, false, r.h, r.c))))
  }

  /** ADD HL,rr: N cleared, H from `half_carry_16_add` as written, C the
      carry out of bit 15; Z is kept. */
  function AddHl(m: Machine, r: Register16Id): Machine
  {
    var hl := m.regs.Get(Register16Id.HL);
    var n := m.regs.Get(r);
    var f := m.regs.flags.(n := false, h := HalfCarry16AddAsWritten(hl, n, 0), c := hl + n > 0xFFFF);
    WithPair(WithFlags(m, f), Register16Id.HL, Wrap16(hl + n))
  }

  /** The `LD` arms, by target. */
  function LoadInto(m: Machine, dst: Operand, src: Operand): Result<Machine, Fault>
  {
    match dst
    case IndirectAddress(reg) => LoadToIndirect(m, reg, src)
    case DirectAddress => LoadToDirect(m, src)
    case Register(reg) => LoadToRegister(m, reg, src)
    // The source operand is not consulted: the value is the immediate word.
    case Register16(reg) => LoadPairImmediate(m, reg)
    case Byte => StoreSp(m)
  }

  /** LD (rr),src. */
  function LoadToIndirect(m: Machine, reg: Register16Id, src: Operand): Result<Machine, Fault>
  {
    var v :- GetOperand(m, src);
    WriteByte(v.next, v.next.regs.Get(reg), v.value)
  }

  /** LD (nn),src. */
  function LoadToDirect(m: Machine, src: Operand): Result<Machine, Fault>
  {
    var addr :- Read16(m);
    var v :- GetOperand(addr.next, src);
    WriteByte(v.next, addr.value, v.value)
  }

  /** LD r,src. */
  function LoadToRegister(m: Machine, reg: RegisterId, src: Operand): Result<Machine, Fault>
  {
    var v :- GetOperand(m, src);
    var r :- v.next.regs.Set8(reg, v.value);
    Ok(v.next.(regs := r))
  }

  /** LD rr,nn. */
  function LoadPairImmediate(m: Machine, reg: Register16Id): Result<Machine, Fault>
  {
    var v :- Read16(m);
    Ok(WithPair(v.next, reg, v.value))
  }

  /** LD (nn),SP: the stack pointer, little-endian. */
  function StoreSp(m: Machine): Result<Machine, Fault>
  {
    var addr :- Read16(m);
    var sp := addr.next.regs.sp;
    var m1 :- WriteByte(addr.next, addr.value, Low(sp));
    WriteByte(m1, Wrap16(addr.value + 1), High(sp))
  }


  /** `LD A,(HL-)` and friends: A from or to the byte at HL, then HL moves by
      `delta`. */
  function LoadAFromHl(m: Machine, delta: int): Result<Machine, Fault>
  {
    var hl := m.regs.Get(Register16Id.HL);
    var v :- Read(m.mem, hl);
    Ok(WithPair(WithA(m, v), Register16Id.HL, Wrap16(hl + delta)))
  }

  function StoreAToHl(m: Machine, delta: int): Result<Machine, Fault>
  {
    var hl := m.regs.Get(Register16Id.HL);
    var m1 :- WriteByte(m, hl, m.regs.a);
    Ok(WithPair(m1, Register16Id.HL, Wrap16(hl + delta)))
  }

  /** JP nn and JP cc,nn: the address is read whether or not the branch is
      taken. */
  function Jump(m: Machine, cond: bool): Result<Machine, Fault>
  {
    var addr :- Read16(m);
    Ok(if cond then SetPc(addr.next, addr.value) else addr.next)
  }

  /** CALL nn and CALL cc,nn: the return address is the PC after the
      operand. */
  function Call(m: Machine, cond: bool): Result<Machine, Fault>
  {
    var addr :- Read16(m);
    if cond then
      var m1 :- Push(addr.next, addr.next.regs.pc);
      Ok(SetPc(m1, addr.value))
    else
      Ok(addr.next)
  }

  /** RET, RETI and RET cc. */
  function Return(m: Machine, cond: bool): Result<Machine, Fault>
  {
    if cond then
      var addr :- Pop(m);
      Ok(SetPc(addr.next, addr.value))
    else
      Ok(m)
  }

  /** JR cc,e: the displacement is read whether or not the branch is taken. */
  function RelativeJump(m: Machine, cond: bool): Result<Machine, Fault>
  {
    var e :- Read8(m);
    Ok(if cond then AdvancePc(e.next, SignedByte(e.value)) else e.next)
  }

  function Continue(r: Result<Machine, Fault>): Result<Yield<Status>, Fault>
  {
    var m :- r;
    Ok(Yield(Running, m))
  }

  /** ADD SP,e. */
  function AddSp(m: Machine): Result<Machine, Fault>
  {
    var r :- OffsetSp(m);
    Ok(r.next.(regs := r.next.regs.(sp := r.value.value)))
  }

  /** LD HL,SP+e. */
  function LoadHlSpOffset(m: Machine): Result<Machine, Fault>
  {
    var r :- OffsetSp(m);
    Ok(WithPair(r.next, Register16Id.HL, r.value.value))
  }

  /** CCF and SCF: C complemented or set, N and H cleared. */
  function CarryFlag(m: Machine, setIt: bool): Machine
  {
    var f := m.regs.flags;
    WithFlags(m, f.(n := false, h := false, c := if setIt then true else !f.c))
  }

  /** CPL: A complemented, N and H set. */
  function Complement(m: Machine): Machine
  {
    WithFlags(WithA(m, Not(m.regs.a)), m.regs.flags.(n := true, h := true))
  }

  /** DAA on A and the flags. */
  function DecimalAdjust(m: Machine): Machine
  {
    var f := m.regs.flags;
    var r := Daa(m.regs.a, f.n, f.h, f.c);
    WithFlags(WithA(m, r.value), f.(z := r.value == 0, h := false, c := r.carry))
  }

  /** JR e: a displacement of -2 jumps to the instruction itself, which
      ends the run. */
  function JumpRelative(m: Machine): Result<Yield<Status>, Fault>
  {
    var e :- Read8(m);
    if SignedByte(e.value) == -2 then Ok(Yield(Halted, e.next))
    else Ok(Yield(Running, AdvancePc(e.next, SignedByte(e.value))))
  }

  /** LD A,(C), LDH A,(n): A from the I/O page 0xFF00 + `offset`. */
  function LoadFromIo(m: Machine, offset: u8): Result<Machine, Fault>
  {
    var v :- Read(m.mem, 0xFF00 + offset);
    Ok(WithA(m, v))
  }

  /** LD (C),A, LDH (n),A: A to the I/O page 0xFF00 + `offset`. */
  function StoreToIo(m: Machine, offset: u8): Result<Machine, Fault>
  {
    WriteByte(m, 0xFF00 + offset, m.regs.a)
  }

  /** LDH A,(n). */
  function LoadFromIoImmediate(m: Machine): Result<Machine, Fault>
  {
    var n :- Read8(m);
    LoadFromIo(n.next, n.value)
  }

  /** LDH (n),A. */
  function StoreToIoImmediate(m: Machine): Result<Machine, Fault>
  {
    var n :- Read8(m);
    StoreToIo(n.next, n.value)
  }

  /** LD SP,HL. */
  function LoadSpFromHl(m: Machine): Machine
  {
    m.(regs := m.regs.(sp := m.regs.Get(Register16Id.HL)))
  }

  /** POP rr. */
  function PopPair(m: Machine, reg: Register16Id): Result<Machine, Fault>
  {
    var v :- Pop(m);
    Ok(WithPair(v.next, reg, v.value))
  }

  /** RST n: a call to the fixed address `offset`. */
  function Restart(m: Machine, offset: u8): Result<Machine, Fault>
  {
    var m1 :- Push(m, m.regs.pc);
    Ok(SetPc(m1, offset))
  }

  /** The instruction families, by the kind of work their arm does. */
  datatype Family =
    | Arithmetic
    | Accumulator
    | Counting
    | Shifting
    | SingleBit
    | Loading
    | Stacking
    | Jumping
    | Calling

  function FamilyOf(cmd: Command): Family
  {
    match cmd
    case ADD(_) | ADC(_) | SUB(_) | SBC(_) | AND(_) | OR(_) | XOR(_) | CP(_) => Arithmetic
    case DAA | CPL | CCF | SCF | RLA | RLCA | RRA | RRCA => Accumulator
    case INC(_) | DEC(_) | ADD_HL(_) | ADD_SP => Counting
    case RL(_) | RLC(_) | RR(_) | RRC(_) | SLA(_) | SRA(_) | SRL(_) | SWAP(_) => Shifting
    case BIT(_, _) | SET(_, _) | RES(_, _) => SingleBit
    case LD(_, _) | LD_AC | LD_CA | LDH_An | LDH_nA | LD_SP_HL | LDHL => Loading
    case LDD_A_HL | LDD_HL_A | LDI_A_HL | LDI_HL_A | PUSH(_) | POP(_) => Stacking
    case JP | JP_flag(_) | JP_HL | JR | JR_flag(_) | NOP | DI | EI | STOP => Jumping
    case CALL | CALL_flag(_) | RET | RETI | RET_flag(_) | RST(_) => Calling
  }

  /** One dispatch arm of `run`, with PC already past the opcode: STOP halts
      and JR onto itself halts, everything else keeps running. */
  function Exec(m: Machine, cmd: Command): Result<Yield<Status>, Fault>
  {
    match FamilyOf(cmd)
    case Arithmetic => ExecArithmetic(m, cmd)
    case Accumulator => ExecAccumulator(m, cmd)
    case Counting => ExecCounting(m, cmd)
    case Shifting => ExecShifting(m, cmd)
    case SingleBit => ExecSingleBit(m, cmd)
    case Loading => ExecLoading(m, cmd)
    case Stacking => ExecStacking(m, cmd)
    case Jumping => ExecJumping(m, cmd)
    case Calling => ExecCalling(m, cmd)
  }

  /** ADD, ADC, SUB, SBC, AND, OR, XOR and CP on A. */
  function ExecArithmetic(m: Machine, cmd: Command): Result<Yield<Status>, Fault>
    requires FamilyOf(cmd) == Arithmetic
  {
    match cmd
    case ADD(op) => Continue(Arith(m, op, AddOp))
    case ADC(op) => Continue(Arith(m, op, AdcOp))
    case SUB(op) => Continue(Arith(m, op, SubOp))
    case SBC(op) => Continue(Arith(m, op, SbcOp))
    case AND(op) => Continue(Logic(m, op, AndOp))
    case OR(op) => Continue(Logic(m, op, OrOp))
    case XOR(op) => Continue(Logic(m, op, XorOp))
    case CP(op) => Continue(Compare(m, op))
  }

  /** DAA, CPL, CCF, SCF and the rotates of A. */
  function ExecAccumulator(m: Machine, cmd: Command): Result<Yield<Status>, Fault>
    requires FamilyOf(cmd) == Accumulator
  {
    match cmd
    case DAA => Continue(Ok(DecimalAdjust(m)))
    case CPL => Continue(Ok(Complement(m)))
    case CCF => Continue(Ok(CarryFlag(m, false)))
    case SCF => Continue(Ok(CarryFlag(m, true)))
    case RLA => Continue(Ok(ShiftA(m, RlOp)))
    case RLCA => Continue(Ok(ShiftA(m, RlcOp)))
    case RRA => Continue(Ok(ShiftA(m, RrOp)))
    case RRCA => Continue(Ok(ShiftA(m, RrcOp)))
  }

  /** INC, DEC and the 16-bit additions. */
  function ExecCounting(m: Machine, cmd: Command): Result<Yield<Status>, Fault>
    requires FamilyOf(cmd) == Counting
  {
    match cmd
    case INC(op) => Continue(IncDec(m, op, true))
    case DEC(op) => Continue(IncDec(m, op, false))
    case ADD_HL(reg) => Continue(Ok(AddHl(m, reg)))
    case ADD_SP => Continue(AddSp(m))
  }

  /** The rotates, shifts and SWAP of a register or (HL). */
  function ExecShifting(m: Machine, cmd: Command): Result<Yield<Status>, Fault>
    requires FamilyOf(cmd) == Shifting
  {
    match cmd
    case RL(op) => Continue(ShiftPlace(m, op, RlOp))
    case RLC(op) => Continue(ShiftPlace(m, op, RlcOp))
    case RR(op) => Continue(ShiftPlace(m, op, RrOp))
    case RRC(op) => Continue(ShiftPlace(m, op, RrcOp))
    case SLA(op) => Continue(ShiftPlace(m, op, SlaOp))
    case SRA(op) => Continue(ShiftPlace(m, op, SraOp))
    case SRL(op) => Continue(ShiftPlace(m, op, SrlOp))
    case SWAP(op) => Continue(ShiftPlace(m, op, SwapOp))
  }

  /** BIT, SET and RES. */
  function ExecSingleBit(m: Machine, cmd: Command): Result<Yield<Status>, Fault>
    requires FamilyOf(cmd) == SingleBit
  {
    match cmd
    case BIT(bit, reg) => Continue(TestBit(m, bit, reg))
    case SET(bit, reg) => Continue(ChangeBit(m, bit, reg, true))
    case RES(bit, reg) => Continue(ChangeBit(m, bit, reg, false))
  }

  /** The loads that move no pointer. */
  function ExecLoading(m: Machine, cmd: Command): Result<Yield<Status>, Fault>
    requires FamilyOf(cmd) == Loading
  {
    match cmd
    case LD(dst, src) => Continue(LoadInto(m, dst, src))
    case LD_AC => Continue(LoadFromIo(m, m.regs.c))
    case LD_CA => Continue(StoreToIo(m, m.regs.c))
    case LDH_An => Continue(LoadFromIoImmediate(m))
    case LDH_nA => Continue(StoreToIoImmediate(m))
    case LD_SP_HL => Continue(Ok(LoadSpFromHl(m)))
    case LDHL => Continue(LoadHlSpOffset(m))
  }

  /** The loads through HL that step it, PUSH and POP. */
  function ExecStacking(m: Machine, cmd: Command): Result<Yield<Status>, Fault>
    requires FamilyOf(cmd) == Stacking
  {
    match cmd
    case LDD_A_HL => Continue(LoadAFromHl(m, -1))
    case LDD_HL_A => Continue(StoreAToHl(m, -1))
    case LDI_A_HL => Continue(LoadAFromHl(m, 1))
    case LDI_HL_A => Continue(StoreAToHl(m, 1))
    case PUSH(reg) => Continue(Push(m, m.regs.Get(reg)))
    case POP(reg) => Continue(PopPair(m, reg))
  }

  /** Jumps, and the instructions that change no state here. */
  function ExecJumping(m: Machine, cmd: Command): Result<Yield<Status>, Fault>
    requires FamilyOf(cmd) == Jumping
  {
    match cmd
    case JP => Continue(Jump(m, true))
    case JP_flag(flag) => Continue(Jump(m, m.regs.flags.Holds(flag)))
    case JP_HL => Continue(Ok(SetPc(m, m.regs.Get(Register16Id.HL))))
    case JR => JumpRelative(m)
    case JR_flag(flag) => Continue(RelativeJump(m, m.regs.flags.Holds(flag)))
    case NOP => Continue(Ok(m))
    case DI => Continue(Ok(m))
    case EI => Continue(Ok(m))
    case STOP => Ok(Yield(Halted, m))
  }

  /** Calls, returns and restarts. */
  function ExecCalling(m: Machine, cmd: Command): Result<Yield<Status>, Fault>
    requires FamilyOf(cmd) == Calling
  {
    match cmd
    case CALL => Continue(Call(m, true))
    case CALL_flag(flag) => Continue(Call(m, m.regs.flags.Holds(flag)))
    case RET => Continue(Return(m, true))
    case RETI => Continue(Return(m, true))
    case RET_flag(flag) => Continue(Return(m, m.regs.flags.Holds(flag)))
    case RST(offset) => Continue(Restart(m, offset))
  }

  /** One instruction: PC moves past the opcode (two bytes after the 0xCB
      prefix, one otherwise) before the arm runs. */
  function Step(m: Machine, cmd: Command, prefixed: bool): Result<Yield<Status>, Fault>
  {
    Exec(AdvancePc(m, if prefixed then 2 else 1), cmd)
  }

  /** The decoder, which is not part of this model: the command for the byte
      at PC and the byte after it, if there is one. */
  type Decoder = (u8, u8) -> Option<Command>

  /** One turn of the `run` loop: fetch the two bytes at PC, decode, step. */
  function Cycle(m: Machine, decode: Decoder): Result<Yield<Status>, Fault>
  {
    var b0 :- Read(m.mem, m.regs.pc);
    var b1 :- Read(m.mem, Wrap16(m.regs.pc + 1));
    match decode(b0, b1)
    case None => Err(UnsupportedOpcode(b0, b1))
    case Some(cmd) => Step(m, cmd, b0 == 0xCB)
  }

  datatype Outcome = Stopped(m: Machine) | Panicked(fault: Fault) | OutOfFuel(m: Machine)

  /** The run loop over any one-instruction step: stop on a halt, give up
      on a fault, and go on otherwise, for at most `fuel` turns. */
  function Loop(m: Machine, cycle: Machine -> Result<Yield<Status>, Fault>, fuel: nat): Outcome
    decreases fuel
  {
    if fuel == 0 then OutOfFuel(m)
    else
      match cycle(m)
      case Err(e) => Panicked(e)
      case Ok(Yield(status, next)) =>
        if status == Halted then Stopped(next) else Loop(next, cycle, fuel - 1)
  }

  /** `run`, for at most `fuel` instructions. */
  function Run(m: Machine, decode: Decoder, fuel: nat): Outcome
  {
    Loop(m, m' => Cycle(m', decode), fuel)
  }
}
