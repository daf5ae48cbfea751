/**
 * The executor as the source has it: a `Cpu` object whose register file is
 * updated in place while it reads and writes an `Mmu`.  Every method is
 * proved to do what the function of the same name in module `Semantics`
 * describes, on the machine formed by the registers and the MMU's view.
 */
module Processor {
  import opened Wrappers
  import opened Bits
  import opened Words
  import opened Opcodes
  import opened Faults
  import opened Memory
  import opened MemoryUnit
  import opened Registers
  import opened Alu
  import opened Semantics

  /** A method result agrees with a specification that yields a value: the
      same fault, or the same value with the machine now as specified. */
  ghost predicate Gave<T>(r: Result<T, Fault>, spec: Result<Yield<T>, Fault>, now: Machine)
  {
    match spec
    case Ok(y) => r == Ok(y.value) && now == y.next
    case Err(e) => r == Err(e)
  }

  /** A method result agrees with a specification of an update. */
  ghost predicate Did(r: Result<(), Fault>, spec: Result<Machine, Fault>, now: Machine)
  {
    match spec
    case Ok(m) => r.Ok? && now == m
    case Err(e) => r == Err(e)
  }

  /** How a bounded run ended; the machine is the object state itself. */
  datatype Ending = Finished | Faulted(fault: Fault) | Exhausted

  ghost predicate Ended(r: Ending, spec: Outcome, now: Machine)
  {
    match spec
    case Stopped(m) => r == Finished && now == m
    case Panicked(e) => r == Faulted(e)
    case OutOfFuel(m) => r == Exhausted && now == m
  }

  /** The byte and flags of ADD, ADC, SUB and SBC on `a`, `n` and the
      carry-in `cin`, through the carry chain of `calc_with_carry` on
      `[a, n, cin]`. */
  method CarryChain(a: u8, n: u8, cin: u8, kind: ArithOp) returns (res: u8, flags: Flags)
    ensures (res, flags) == ArithOn(a, n, cin, kind)
  {
    var ops := [a, n, cin];
    var c;
    res, c := CalcWithCarry(ops, if kind.Subtracts() then OverflowingSub else OverflowingAdd);
    assert ops[1..] == [n, cin];
    Sum3(a, n, cin);
    var h := if kind.Subtracts() then HalfCarry8Sub(a, n, cin) else HalfCarry8Add(a, n, cin);
    flags := Flags(res == 0, kind.Subtracts(), h, c);
  }

  lemma {:induction false} ArithStep(s0: Machine, op: Operand, kind: ArithOp, n: u8, s1: Machine)
    requires GetOperand(s0, op) == Ok(Yield(n, s1))
    ensures var cin := if kind.UsesCarry() && s0.regs.flags.c then 1 else 0;
            var r := ArithOn(s1.regs.a, n, cin, kind);
            Semantics.Arith(s0, op, kind) == Ok(WithFlags(WithA(s1, r.0), r.1))
  {
  }

  /** One turn of `run`, given what the turn did. */
  lemma {:induction false} RunTurn(m: Machine, decode: Decoder, left: nat, s: Result<Status, Fault>, now: Machine)
    requires left > 0
    requires Gave(s, Semantics.Cycle(m, decode), now)
    ensures s.Err? ==> Semantics.Run(m, decode, left) == Panicked(s.error)
    ensures s == Ok(Halted) ==> Semantics.Run(m, decode, left) == Stopped(now)
    ensures s == Ok(Running) ==> Semantics.Run(m, decode, left) == Semantics.Run(now, decode, left - 1)
  {
  }

  lemma {:induction false} IncDecPair(s0: Machine, reg: Register16Id, inc: bool, w: u16)
    requires var v := s0.regs.Get(reg); w == if inc then Wrap16(v as int + 1) else Wrap16(v as int - 1)
    ensures Semantics.IncDec(s0, Register16(reg), inc) == Ok(WithPair(s0, reg, w))
  {
  }

  lemma {:induction false} IncDecFaults(s0: Machine, op: Operand, inc: bool)
    requires !op.Register16?
    ensures PlaceOf(op).Err? ==> Semantics.IncDec(s0, op, inc) == Err(PlaceOf(op).error)
    ensures PlaceOf(op).Ok? && Load(s0, PlaceOf(op).value).Err? ==>
              Semantics.IncDec(s0, op, inc) == Err(Load(s0, PlaceOf(op).value).error)
  {
  }

  lemma {:induction false} IncDecStores(s0: Machine, op: Operand, inc: bool, p: Place, prior: u8, res: u8)
    requires !op.Register16? && PlaceOf(op) == Ok(p) && Load(s0, p) == Ok(prior)
    requires res as int == if inc then (prior as int + 1) % 0x100 else (prior as int - 1) % 0x100
    ensures Store(s0, p, res).Err? ==> Semantics.IncDec(s0, op, inc) == Err(Store(s0, p, res).error)
    ensures Store(s0, p, res).Ok? ==>
              var m1 := Store(s0, p, res).value;
              var h := if inc then HalfCarry8Add(prior, 1, 0) else HalfCarry8Sub(prior, 1, 0);
              Semantics.IncDec(s0, op, inc) == Ok(WithFlags(m1, m1.regs.flags.(z := res == 0, n := !inc, h := h)))
  {
  }

  /** `Exec` is the arm of the command's family. */
  lemma {:induction false} ExecByFamily(m: Machine, cmd: Command)
    ensures FamilyOf(cmd) == Arithmetic ==> Exec(m, cmd) == ExecArithmetic(m, cmd)
    ensures FamilyOf(cmd) == Accumulator ==> Exec(m, cmd) == ExecAccumulator(m, cmd)
    ensures FamilyOf(cmd) == Counting ==> Exec(m, cmd) == ExecCounting(m, cmd)
    ensures FamilyOf(cmd) == Shifting ==> Exec(m, cmd) == ExecShifting(m, cmd)
    ensures FamilyOf(cmd) == SingleBit ==> Exec(m, cmd) == ExecSingleBit(m, cmd)
    ensures FamilyOf(cmd) == Loading ==> Exec(m, cmd) == ExecLoading(m, cmd)
    ensures FamilyOf(cmd) == Stacking ==> Exec(m, cmd) == ExecStacking(m, cmd)
    ensures FamilyOf(cmd) == Jumping ==> Exec(m, cmd) == ExecJumping(m, cmd)
    ensures FamilyOf(cmd) == Calling ==> Exec(m, cmd) == ExecCalling(m, cmd)
  {
  }

  class Cpu {
    var regs: Registers

    /** `init_cpu`. */
    constructor ()
      ensures regs == PowerOnRegisters
    {
      regs := PowerOnRegisters;
    }

    /** The machine this processor and memory unit make up. */
    ghost function State(mmu: Mmu): Machine
      reads this, mmu
    {
      Machine(regs, mmu.image)
    }

    /** `set_pc`. */
    method SetPc(addr: u16)
      modifies this
      ensures regs == old(regs).(pc := addr)
    {
      regs := regs.(pc := addr);
    }

    /** `advance_pc`, by a signed 16-bit amount. */
    method AdvancePc(n: int)
      requires -0x8000 <= n < 0x8000
      modifies this
      ensures regs == old(regs).(pc := Wrap16(old(regs).pc as int + n))
    {
      regs := regs.(pc := Wrap16(regs.pc as int + n));
    }

    /** `read_8`. */
    method Read8(mmu: Mmu) returns (r: Result<u8, Fault>)
      requires mmu.Valid()
      modifies this
      ensures Gave(r, Semantics.Read8(old(State(mmu))), State(mmu))
    {
      var n :- mmu.Get(regs.pc);
      regs := regs.(pc := Wrap16(regs.pc as int + 1));
      return Ok(n);
    }

    /** `read_16`. */
    method Read16(mmu: Mmu) returns (r: Result<u16, Fault>)
      requires mmu.Valid()
      modifies this
      ensures Gave(r, Semantics.Read16(old(State(mmu))), State(mmu))
    {
      var lo :- mmu.Get(regs.pc);
      var hi :- mmu.Get(Wrap16(regs.pc as int + 1));
      regs := regs.(pc := Wrap16(regs.pc as int + 2));
      return Ok(FromBytes(hi, lo));
    }

    /** `get_operand`. */
    method GetOperand(op: Operand, mmu: Mmu) returns (r: Result<u8, Fault>)
      requires mmu.Valid()
      modifies this
      ensures Gave(r, Semantics.GetOperand(old(State(mmu)), op), State(mmu))
    {
      match op
      case DirectAddress =>
        var addr :- Read16(mmu);
        r := mmu.Get(addr);
      case IndirectAddress(reg) =>
        r := mmu.Get(regs.Get(reg));
      case Byte =>
        r := Read8(mmu);
      case Register(reg) =>
        if reg == RegisterId.HL {
          r := mmu.Get(regs.Get(Register16Id.HL));
        } else {
          r := regs.Get8(reg);
        }
      case Register16(reg) =>
        r := mmu.Get(regs.Get(reg));
    }

    /** `push_stack`: SP moves down before each of the two writes. */
    method PushStack(v: u16, mmu: Mmu) returns (r: Result<(), Fault>)
      requires mmu.Valid()
      modifies this, mmu, mmu.Repr
      ensures mmu.Valid()
      ensures Did(r, Push(old(State(mmu)), v), State(mmu))
    {
      regs := regs.(sp := Wrap16(regs.sp as int - 1));
      var hi :- mmu.Set(regs.sp, High(v));
      regs := regs.(sp := Wrap16(regs.sp as int - 1));
      r := mmu.Set(regs.sp, Low(v));
    }

    /** `pop_stack`. */
    method PopStack(mmu: Mmu) returns (r: Result<u16, Fault>)
      requires mmu.Valid()
      modifies this
      ensures Gave(r, Pop(old(State(mmu))), State(mmu))
    {
      var lo :- mmu.Get(regs.sp);
      regs := regs.(sp := Wrap16(regs.sp as int + 1));
      var hi :- mmu.Get(regs.sp);
      regs := regs.(sp := Wrap16(regs.sp as int + 1));
      return Ok(FromBytes(hi, lo));
    }

    /** `regs.set(reg, v)`. */
    method SetPair(reg: Register16Id, v: u16)
      modifies this
      ensures regs == old(regs).Set(reg, v)
    {
      regs := regs.Set(reg, v);
    }

    /** A byte written through the memory unit. */
    method WriteByte(addr: u16, v: u8, mmu: Mmu) returns (r: Result<(), Fault>)
      requires mmu.Valid()
      modifies mmu, mmu.Repr
      ensures mmu.Valid()
      ensures Did(r, Semantics.WriteByte(old(State(mmu)), addr, v), State(mmu))
    {
      r := mmu.Set(addr, v);
    }

    /** The byte a read-modify-write instruction works on. */
    method LoadPlace(p: Place, mmu: Mmu) returns (r: Result<u8, Fault>)
      requires mmu.Valid()
      ensures r == Load(State(mmu), p)
    {
      match p
      case Reg(id) => r := regs.Get8(id);
      case AtHL => r := mmu.Get(regs.Get(Register16Id.HL));
    }

    method StorePlace(p: Place, v: u8, mmu: Mmu) returns (r: Result<(), Fault>)
      requires mmu.Valid()
      modifies this, mmu, mmu.Repr
      ensures mmu.Valid()
      ensures Did(r, Store(old(State(mmu)), p, v), State(mmu))
    {
      match p
      case Reg(id) =>
        var s :- regs.Set8(id, v);
        regs := s;
        r := Ok(());
      case AtHL =>
        r := WriteByte(regs.Get(Register16Id.HL), v, mmu);
    }

    // -------------------------------------------------------------------
    // Instruction families

    /** ADD, ADC, SUB and SBC, through the carry chain of `calc_with_carry`
        on `[A, n, carry-in]`. */
    method Arith(op: Operand, kind: ArithOp, mmu: Mmu) returns (r: Result<(), Fault>)
      requires mmu.Valid()
      modifies this
      ensures Did(r, Semantics.Arith(old(State(mmu)), op, kind), State(mmu))
    {
      ghost var s0 := State(mmu);
      var carry: u8 := if kind.UsesCarry() && regs.flags.c then 1 else 0;
      var n :- GetOperand(op, mmu);
      ArithStep(s0, op, kind, n, State(mmu));
      var res, flags := CarryChain(regs.a, n, carry, kind);
      regs := regs.(a := res, flags := flags);
      r := Ok(());
    }

    /** AND, OR and XOR. */
    method Logic(op: Operand, kind: BitOp, mmu: Mmu) returns (r: Result<(), Fault>)
      requires mmu.Valid()
      modifies this
      ensures Did(r, Semantics.Logic(old(State(mmu)), op, kind), State(mmu))
    {
      var n :- GetOperand(op, mmu);
      var res := match kind
        case AndOp => And(regs.a, n)
        case OrOp => Or(regs.a, n)
        case XorOp => Xor(regs.a, n);
      regs := regs.(a := res, flags := Flags(res == 0, false, kind == AndOp, false));
      r := Ok(());
    }

    /** CP. */
    method Compare(op: Operand, mmu: Mmu) returns (r: Result<(), Fault>)
      requires mmu.Valid()
      modifies this
      ensures Did(r, Semantics.Compare(old(State(mmu)), op), State(mmu))
    {
      var n :- GetOperand(op, mmu);
      regs := regs.(flags := Flags(regs.a == n, true, HalfCarry8Sub(regs.a, n, 0), regs.a < n));
      r := Ok(());
    }

    /** INC and DEC. */
    method IncDec(op: Operand, inc: bool, mmu: Mmu) returns (r: Result<(), Fault>)
      requires mmu.Valid()
      modifies this, mmu, mmu.Repr
      ensures mmu.Valid()
      ensures Did(r, Semantics.IncDec(old(State(mmu)), op, inc), State(mmu))
    {
      if op.Register16? {
        ghost var s0 := State(mmu);
        var v := regs.Get(op.r16);
        var w := if inc then Wrap16(v as int + 1) else Wrap16(v as int - 1);
        IncDecPair(s0, op.r16, inc, w);
        regs := regs.Set(op.r16, w);
        assert State(mmu) == WithPair(s0, op.r16, w);
        r := Ok(());
      } else {
        r := IncDecPlace(op, inc, mmu);
      }
    }

    /** INC and DEC on a register or (HL). */
    method IncDecPlace(op: Operand, inc: bool, mmu: Mmu) returns (r: Result<(), Fault>)
      requires mmu.Valid() && !op.Register16?
      modifies this, mmu, mmu.Repr
      ensures mmu.Valid()
      ensures Did(r, Semantics.IncDec(old(State(mmu)), op, inc), State(mmu))
    {
      ghost var s0 := State(mmu);
      var pr := PlaceOf(op);
      if pr.Err? {
        IncDecFaults(s0, op, inc);
        return Err(pr.error);
      }
      var p := pr.value;
      var lr := LoadPlace(p, mmu);
      if lr.Err? {
        IncDecFaults(s0, op, inc);
        return Err(lr.error);
      }
      var prior := lr.value;
      var res: u8 := if inc then (prior as int + 1) % 0x100 else (prior as int - 1) % 0x100;
      var st := StorePlace(p, res, mmu);
      IncDecStores(s0, op, inc, p, prior, res);
      if st.Err? {
        return Err(st.error);
      }
      var h := if inc then HalfCarry8Add(prior, 1, 0) else HalfCarry8Sub(prior, 1, 0);
      regs := regs.(flags := regs.flags.(z := res == 0, n := !inc, h := h));
      r := Ok(());
    }

    /** RLC, RRC, RL, RR, SLA, SRA, SRL and SWAP on a register or (HL). */
    method ShiftPlace(op: Operand, kind: ShiftOp, mmu: Mmu) returns (r: Result<(), Fault>)
      requires mmu.Valid()
      modifies this, mmu, mmu.Repr
      ensures mmu.Valid()
      ensures Did(r, Semantics.ShiftPlace(old(State(mmu)), op, kind), State(mmu))
    {
      var p :- PlaceOf(op);
      var x :- LoadPlace(p, mmu);
      var s := Shift(kind, x, regs.flags.c);
      var stored :- StorePlace(p, s.value, mmu);
      regs := regs.(flags := Flags(s.value == 0, false, false, s.carry));
      r := Ok(());
    }

    /** RLCA, RRCA, RLA and RRA. */
    method ShiftA(kind: ShiftOp)
      modifies this
      ensures regs == old(regs).(a := Shift(kind, old(regs).a, old(regs).flags.c).value,
                                 flags := Flags(false, false, false, Shift(kind, old(regs).a, old(regs).flags.c).carry))
    {
      var s := Shift(kind, regs.a, regs.flags.c);
      regs := regs.(a := s.value, flags := Flags(false, false, false, s.carry));
    }

    /** BIT. */
    method TestBit(bit: BitIndex, reg: RegisterId, mmu: Mmu) returns (r: Result<(), Fault>)
      requires mmu.Valid()
      modifies this
      ensures Did(r, Semantics.TestBit(old(State(mmu)), bit, reg), State(mmu))
    {
      var n :- LoadPlace(BitPlace(reg), mmu);
      regs := regs.(flags := regs.flags.(z := BitIsClear(n, bit), n := false, h := true));
      r := Ok(());
    }

    /** SET and RES. */
    method ChangeBit(bit: BitIndex, reg: RegisterId, turnOn: bool, mmu: Mmu) returns (r: Result<(), Fault>)
      requires mmu.Valid()
      modifies this, mmu, mmu.Repr
      ensures mmu.Valid()
      ensures Did(r, Semantics.ChangeBit(old(State(mmu)), bit, reg, turnOn), State(mmu))
    {
      var p := BitPlace(reg);
      var n :- LoadPlace(p, mmu);
      r := StorePlace(p, if turnOn then SetBit(n, bit) else ResetBit(n, bit), mmu);
    }

    /** The signed-offset half of ADD SP,e and LD HL,SP+e: the flags are set
        and the sum is returned. */
    method OffsetSp(mmu: Mmu) returns (r: Result<OffsetResult, Fault>)
      requires mmu.Valid()
      modifies this
      ensures Gave(r, Semantics.OffsetSp(old(State(mmu))), State(mmu))
    {
      var e :- Read8(mmu);
      var sum := AddSignedOffset(regs.sp, e);
      regs := regs.(flags := Flags(false, false, sum.h, sum.c));
      r := Ok(sum);
    }

    /** ADD HL,rr. */
    method AddHl(reg: Register16Id)
      modifies this
      ensures regs == old(regs).(flags := old(regs).flags.(n := false,
                                   h := HalfCarry16AddAsWritten(old(regs).Get(Register16Id.HL), old(regs).Get(reg), 0),
                                   c := old(regs).Get(Register16Id.HL) as int + old(regs).Get(reg) > 0xFFFF))
                                .Set(Register16Id.HL, Wrap16(old(regs).Get(Register16Id.HL) as int + old(regs).Get(reg)))
    {
      var hl := regs.Get(Register16Id.HL);
      var n := regs.Get(reg);
      var hc := HalfCarry16AddAsWritten(hl, n, 0);
      regs := regs.(flags := regs.flags.(n := false, h := hc, c := hl as int + n > 0xFFFF));
      regs := regs.Set(Register16Id.HL, Wrap16(hl as int + n));
    }

    /** The `LD` arms. */
    method LoadInto(dst: Operand, src: Operand, mmu: Mmu) returns (r: Result<(), Fault>)
      requires mmu.Valid()
      modifies this, mmu, mmu.Repr
      ensures mmu.Valid()
      ensures Did(r, Semantics.LoadInto(old(State(mmu)), dst, src), State(mmu))
    {
      match dst
      case IndirectAddress(reg) =>
        r := LoadToIndirect(reg, src, mmu);
      case DirectAddress =>
        r := LoadToDirect(src, mmu);
      case Register(reg) =>
        r := LoadToRegister(reg, src, mmu);
      case Register16(reg) =>
        r := LoadPairImmediate(reg, mmu);
      case Byte =>
        r := StoreSp(mmu);
    }

    /** LD (rr),src. */
    method LoadToIndirect(reg: Register16Id, src: Operand, mmu: Mmu) returns (r: Result<(), Fault>)
      requires mmu.Valid()
      modifies this, mmu, mmu.Repr
      ensures mmu.Valid()
      ensures Did(r, Semantics.LoadToIndirect(old(State(mmu)), reg, src), State(mmu))
    {
      var v :- GetOperand(src, mmu);
      r := WriteByte(regs.Get(reg), v, mmu);
    }

    /** LD (nn),src. */
    method LoadToDirect(src: Operand, mmu: Mmu) returns (r: Result<(), Fault>)
      requires mmu.Valid()
      modifies this, mmu, mmu.Repr
      ensures mmu.Valid()
      ensures Did(r, Semantics.LoadToDirect(old(State(mmu)), src), State(mmu))
    {
      var addr :- Read16(mmu);
      var v :- GetOperand(src, mmu);
      r := WriteByte(addr, v, mmu);
    }

    /** LD r,src. */
    method LoadToRegister(reg: RegisterId, src: Operand, mmu: Mmu) returns (r: Result<(), Fault>)
      requires mmu.Valid()
      modifies this
      ensures Did(r, Semantics.LoadToRegister(old(State(mmu)), reg, src), State(mmu))
    {
      var v :- GetOperand(src, mmu);
      var s :- regs.Set8(reg, v);
      regs := s;
      r := Ok(());
    }

    /** LD rr,nn. */
    method LoadPairImmediate(reg: Register16Id, mmu: Mmu) returns (r: Result<(), Fault>)
      requires mmu.Valid()
      modifies this
      ensures Did(r, Semantics.LoadPairImmediate(old(State(mmu)), reg), State(mmu))
    {
      var v :- Read16(mmu);
      regs := regs.Set(reg, v);
      r := Ok(());
    }

    /** LD (nn),SP. */
    method StoreSp(mmu: Mmu) returns (r: Result<(), Fault>)
      requires mmu.Valid()
      modifies this, mmu, mmu.Repr
      ensures mmu.Valid()
      ensures Did(r, Semantics.StoreSp(old(State(mmu))), State(mmu))
    {
      var addr :- Read16(mmu);
      var lo :- WriteByte(addr, Low(regs.sp), mmu);
      r := WriteByte(Wrap16(addr as int + 1), High(regs.sp), mmu);
    }

    /** LD A,(HL-) and LD A,(HL+). */
    method LoadAFromHl(delta: int, mmu: Mmu) returns (r: Result<(), Fault>)
      requires mmu.Valid()
      modifies this
      ensures Did(r, Semantics.LoadAFromHl(old(State(mmu)), delta), State(mmu))
    {
      ghost var hl := regs.Get(Register16Id.HL);
      var v :- mmu.Get(regs.Get(Register16Id.HL));
      regs := regs.(a := v);
      assert regs.Get(Register16Id.HL) == hl;
      regs := regs.Set(Register16Id.HL, Wrap16(regs.Get(Register16Id.HL) as int + delta));
      r := Ok(());
    }

    /** LD (HL-),A and LD (HL+),A. */
    method StoreAToHl(delta: int, mmu: Mmu) returns (r: Result<(), Fault>)
      requires mmu.Valid()
      modifies this, mmu, mmu.Repr
      ensures mmu.Valid()
      ensures Did(r, Semantics.StoreAToHl(old(State(mmu)), delta), State(mmu))
    {
      var w :- WriteByte(regs.Get(Register16Id.HL), regs.a, mmu);
      regs := regs.Set(Register16Id.HL, Wrap16(regs.Get(Register16Id.HL) as int + delta));
      r := Ok(());
    }

    /** JP nn and JP cc,nn. */
    method Jump(cond: bool, mmu: Mmu) returns (r: Result<(), Fault>)
      requires mmu.Valid()
      modifies this
      ensures Did(r, Semantics.Jump(old(State(mmu)), cond), State(mmu))
    {
      var addr :- Read16(mmu);
      if cond {
        SetPc(addr);
      }
      r := Ok(());
    }

    /** CALL nn and CALL cc,nn. */
    method Call(cond: bool, mmu: Mmu) returns (r: Result<(), Fault>)
      requires mmu.Valid()
      modifies this, mmu, mmu.Repr
      ensures mmu.Valid()
      ensures Did(r, Semantics.Call(old(State(mmu)), cond), State(mmu))
    {
      var addr :- Read16(mmu);
      if cond {
        var pushed :- PushStack(regs.pc, mmu);
        regs := regs.(pc := addr);
      }
      r := Ok(());
    }

    /** RET, RETI and RET cc. */
    method Return(cond: bool, mmu: Mmu) returns (r: Result<(), Fault>)
      requires mmu.Valid()
      modifies this
      ensures Did(r, Semantics.Return(old(State(mmu)), cond), State(mmu))
    {
      if cond {
        var addr :- PopStack(mmu);
        SetPc(addr);
      }
      r := Ok(());
    }

    /** JR cc,e. */
    method RelativeJump(cond: bool, mmu: Mmu) returns (r: Result<(), Fault>)
      requires mmu.Valid()
      modifies this
      ensures Did(r, Semantics.RelativeJump(old(State(mmu)), cond), State(mmu))
    {
      var offset :- Read8(mmu);
      if cond {
        AdvancePc(SignedByte(offset));
      }
      r := Ok(());
    }

    /** JR e, which ends the run when it jumps to itself. */
    method JumpRelative(mmu: Mmu) returns (r: Result<Status, Fault>)
      requires mmu.Valid()
      modifies this
      ensures Gave(r, Semantics.JumpRelative(old(State(mmu))), State(mmu))
    {
      var offset :- Read8(mmu);
      if SignedByte(offset) == -2 {
        return Ok(Halted);
      }
      AdvancePc(SignedByte(offset));
      r := Ok(Running);
    }

    /** RST n. */
    method Restart(offset: u8, mmu: Mmu) returns (r: Result<(), Fault>)
      requires mmu.Valid()
      modifies this, mmu, mmu.Repr
      ensures mmu.Valid()
      ensures Did(r, Semantics.Restart(old(State(mmu)), offset), State(mmu))
    {
      var pushed :- PushStack(regs.pc, mmu);
      SetPc(offset);
      r := Ok(());
    }

    /** POP rr. */
    method PopPair(reg: Register16Id, mmu: Mmu) returns (r: Result<(), Fault>)
      requires mmu.Valid()
      modifies this
      ensures Did(r, Semantics.PopPair(old(State(mmu)), reg), State(mmu))
    {
      var v :- PopStack(mmu);
      regs := regs.Set(reg, v);
      r := Ok(());
    }

    /** DAA, with the correction built up as in the source. */
    method DecimalAdjust()
      modifies this
      ensures regs == old(regs).(a := Daa(old(regs).a, old(regs).flags.n, old(regs).flags.h, old(regs).flags.c).value,
                                 flags := old(regs).flags.(
                                   z := Daa(old(regs).a, old(regs).flags.n, old(regs).flags.h, old(regs).flags.c).value == 0,
                                   h := false,
                                   c := Daa(old(regs).a, old(regs).flags.n, old(regs).flags.h, old(regs).flags.c).carry))
    {
      var lo := regs.a % 0x10;
      var added := 0;
      if regs.flags.n {
        if regs.flags.h {
          added := 0x06;
        }
        if regs.flags.c {
          added := added + 0x60;
        }
        regs := regs.(a := (regs.a as int - added) % 0x100);
      } else {
        if regs.flags.h || lo > 0x9 {
          added := 0x06;
        }
        if regs.flags.c || regs.a > 0x99 {
          added := added + 0x60;
        }
        regs := regs.(a := (regs.a as int + added) % 0x100);
      }
      regs := regs.(flags := regs.flags.(z := regs.a == 0, h := false, c := added >= 0x60));
    }

    /** LD A,(C) and LDH A,(n). */
    method LoadFromIo(offset: u8, mmu: Mmu) returns (r: Result<(), Fault>)
      requires mmu.Valid()
      modifies this
      ensures Did(r, Semantics.LoadFromIo(old(State(mmu)), offset), State(mmu))
    {
      var v :- mmu.Get(0xFF00 + offset as int);
      regs := regs.(a := v);
      r := Ok(());
    }

    /** LD (C),A and LDH (n),A. */
    method StoreToIo(offset: u8, mmu: Mmu) returns (r: Result<(), Fault>)
      requires mmu.Valid()
      modifies mmu, mmu.Repr
      ensures mmu.Valid()
      ensures Did(r, Semantics.StoreToIo(old(State(mmu)), offset), State(mmu))
    {
      r := WriteByte(0xFF00 + offset as int, regs.a, mmu);
    }

    /** One dispatch arm of `run`, with PC already past the opcode. */
    method Execute(cmd: Command, mmu: Mmu) returns (r: Result<Status, Fault>)
      requires mmu.Valid()
      modifies this, mmu, mmu.Repr
      ensures mmu.Valid()
      ensures Gave(r, Exec(old(State(mmu)), cmd), State(mmu))
    {
      ExecByFamily(State(mmu), cmd);
      match FamilyOf(cmd) {
        case Arithmetic => r := ExecuteArithmetic(cmd, mmu);
        case Accumulator => r := ExecuteAccumulator(cmd, mmu);
        case Counting => r := ExecuteCounting(cmd, mmu);
        case Shifting => r := ExecuteShifting(cmd, mmu);
        case SingleBit => r := ExecuteSingleBit(cmd, mmu);
        case Loading => r := ExecuteLoading(cmd, mmu);
        case Stacking => r := ExecuteStacking(cmd, mmu);
        case Jumping => r := ExecuteJumping(cmd, mmu);
        case Calling => r := ExecuteCalling(cmd, mmu);
      }
    }

    /** ADD, ADC, SUB, SBC, AND, OR, XOR and CP on A. */
    method ExecuteArithmetic(cmd: Command, mmu: Mmu) returns (r: Result<Status, Fault>)
      requires mmu.Valid() && FamilyOf(cmd) == Arithmetic
      modifies this
      ensures Gave(r, ExecArithmetic(old(State(mmu)), cmd), State(mmu))
    {
      var u: Result<(), Fault> := Ok(());
      match cmd {
        case ADD(op) => u := Arith(op, AddOp, mmu);
        case ADC(op) => u := Arith(op, AdcOp, mmu);
        case SUB(op) => u := Arith(op, SubOp, mmu);
        case SBC(op) => u := Arith(op, SbcOp, mmu);
        case AND(op) => u := Logic(op, AndOp, mmu);
        case OR(op) => u := Logic(op, OrOp, mmu);
        case XOR(op) => u := Logic(op, XorOp, mmu);
        case CP(op) => u := Compare(op, mmu);
      }
      r := if u.Ok? then Ok(Running) else Err(u.error);
    }

    /** DAA, CPL, CCF, SCF and the rotates of A. */
    method ExecuteAccumulator(cmd: Command, mmu: Mmu) returns (r: Result<Status, Fault>)
      requires mmu.Valid() && FamilyOf(cmd) == Accumulator
      modifies this
      ensures Gave(r, ExecAccumulator(old(State(mmu)), cmd), State(mmu))
    {
      match cmd {
        case DAA => DecimalAdjust();
        case CPL => regs := regs.(a := Not(regs.a), flags := regs.flags.(n := true, h := true));
        case CCF => regs := regs.(flags := regs.flags.(c := !regs.flags.c, n := false, h := false));
        case SCF => regs := regs.(flags := regs.flags.(n := false, h := false, c := true));
        case RLA => ShiftA(RlOp);
        case RLCA => ShiftA(RlcOp);
        case RRA => ShiftA(RrOp);
        case RRCA => ShiftA(RrcOp);
      }
      r := Ok(Running);
    }

    /** INC, DEC and the 16-bit additions. */
    method ExecuteCounting(cmd: Command, mmu: Mmu) returns (r: Result<Status, Fault>)
      requires mmu.Valid() && FamilyOf(cmd) == Counting
      modifies this, mmu, mmu.Repr
      ensures mmu.Valid()
      ensures Gave(r, ExecCounting(old(State(mmu)), cmd), State(mmu))
    {
      var u: Result<(), Fault> := Ok(());
      match cmd {
        case INC(op) => u := IncDec(op, true, mmu);
        case DEC(op) => u := IncDec(op, false, mmu);
        case ADD_HL(reg) => AddHl(reg);
        case ADD_SP =>
          var sum :- OffsetSp(mmu);
          regs := regs.(sp := sum.value);
      }
      r := if u.Ok? then Ok(Running) else Err(u.error);
    }

    /** The rotates, shifts and SWAP of a register or (HL). */
    method ExecuteShifting(cmd: Command, mmu: Mmu) returns (r: Result<Status, Fault>)
      requires mmu.Valid() && FamilyOf(cmd) == Shifting
      modifies this, mmu, mmu.Repr
      ensures mmu.Valid()
      ensures Gave(r, ExecShifting(old(State(mmu)), cmd), State(mmu))
    {
      var u: Result<(), Fault> := Ok(());
      match cmd {
        case RL(op) => u := ShiftPlace(op, RlOp, mmu);
        case RLC(op) => u := ShiftPlace(op, RlcOp, mmu);
        case RR(op) => u := ShiftPlace(op, RrOp, mmu);
        case RRC(op) => u := ShiftPlace(op, RrcOp, mmu);
        case SLA(op) => u := ShiftPlace(op, SlaOp, mmu);
        case SRA(op) => u := ShiftPlace(op, SraOp, mmu);
        case SRL(op) => u := ShiftPlace(op, SrlOp, mmu);
        case SWAP(op) => u := ShiftPlace(op, SwapOp, mmu);
      }
      r := if u.Ok? then Ok(Running) else Err(u.error);
    }

    /** BIT, SET and RES. */
    method ExecuteSingleBit(cmd: Command, mmu: Mmu) returns (r: Result<Status, Fault>)
      requires mmu.Valid() && FamilyOf(cmd) == SingleBit
      modifies this, mmu, mmu.Repr
      ensures mmu.Valid()
      ensures Gave(r, ExecSingleBit(old(State(mmu)), cmd), State(mmu))
    {
      var u: Result<(), Fault> := Ok(());
      match cmd {
        case BIT(bit, reg) => u := TestBit(bit, reg, mmu);
        case SET(bit, reg) => u := ChangeBit(bit, reg, true, mmu);
        case RES(bit, reg) => u := ChangeBit(bit, reg, false, mmu);
      }
      r := if u.Ok? then Ok(Running) else Err(u.error);
    }

    /** The loads that move no pointer. */
    method ExecuteLoading(cmd: Command, mmu: Mmu) returns (r: Result<Status, Fault>)
      requires mmu.Valid() && FamilyOf(cmd) == Loading
      modifies this, mmu, mmu.Repr
      ensures mmu.Valid()
      ensures Gave(r, ExecLoading(old(State(mmu)), cmd), State(mmu))
    {
      var u: Result<(), Fault> := Ok(());
      match cmd {
        case LD(dst, src) => u := LoadInto(dst, src, mmu);
        case LD_AC => u := LoadFromIo(regs.c, mmu);
        case LD_CA => u := StoreToIo(regs.c, mmu);
        case LDH_An =>
          var n :- Read8(mmu);
          u := LoadFromIo(n, mmu);
        case LDH_nA =>
          var n :- Read8(mmu);
          u := StoreToIo(n, mmu);
        case LD_SP_HL => regs := regs.(sp := regs.Get(Register16Id.HL));
        case LDHL =>
          var sum :- OffsetSp(mmu);
          regs := regs.Set(Register16Id.HL, sum.value);
      }
      r := if u.Ok? then Ok(Running) else Err(u.error);
    }

    /** The loads through HL that step it, PUSH and POP. */
    method ExecuteStacking(cmd: Command, mmu: Mmu) returns (r: Result<Status, Fault>)
      requires mmu.Valid() && FamilyOf(cmd) == Stacking
      modifies this, mmu, mmu.Repr
      ensures mmu.Valid()
      ensures Gave(r, ExecStacking(old(State(mmu)), cmd), State(mmu))
    {
      var u: Result<(), Fault> := Ok(());
      match cmd {
        case LDD_A_HL => u := LoadAFromHl(-1, mmu);
        case LDD_HL_A => u := StoreAToHl(-1, mmu);
        case LDI_A_HL => u := LoadAFromHl(1, mmu);
        case LDI_HL_A => u := StoreAToHl(1, mmu);
        case PUSH(reg) => u := PushStack(regs.Get(reg), mmu);
        case POP(reg) => u := PopPair(reg, mmu);
      }
      r := if u.Ok? then Ok(Running) else Err(u.error);
    }

    /** Jumps, and the instructions that change no state here. */
    method ExecuteJumping(cmd: Command, mmu: Mmu) returns (r: Result<Status, Fault>)
      requires mmu.Valid() && FamilyOf(cmd) == Jumping
      modifies this
      ensures Gave(r, ExecJumping(old(State(mmu)), cmd), State(mmu))
    {
      var u: Result<(), Fault> := Ok(());
      match cmd {
        case JP => u := Jump(true, mmu);
        case JP_flag(flag) => u := Jump(regs.flags.Holds(flag), mmu);
        case JP_HL => SetPc(regs.Get(Register16Id.HL));
        case JR =>
          r := JumpRelative(mmu);
          return;
        case JR_flag(flag) => u := RelativeJump(regs.flags.Holds(flag), mmu);
        case NOP =>
        case DI =>
        case EI =>
        case STOP => return Ok(Halted);
      }
      r := if u.Ok? then Ok(Running) else Err(u.error);
    }

    /** Calls, returns and restarts. */
    method ExecuteCalling(cmd: Command, mmu: Mmu) returns (r: Result<Status, Fault>)
      requires mmu.Valid() && FamilyOf(cmd) == Calling
      modifies this, mmu, mmu.Repr
      ensures mmu.Valid()
      ensures Gave(r, ExecCalling(old(State(mmu)), cmd), State(mmu))
    {
      var u: Result<(), Fault> := Ok(());
      match cmd {
        case CALL => u := Call(true, mmu);
        case CALL_flag(flag) => u := Call(regs.flags.Holds(flag), mmu);
        case RET => u := Return(true, mmu);
        case RETI => u := Return(true, mmu);
        case RET_flag(flag) => u := Return(regs.flags.Holds(flag), mmu);
        case RST(offset) => u := Restart(offset, mmu);
      }
      r := if u.Ok? then Ok(Running) else Err(u.error);
    }

    /** One turn of `run`: fetch the opcode bytes, decode, move PC past the
        opcode and execute. */
    method Cycle(mmu: Mmu, decode: Decoder) returns (r: Result<Status, Fault>)
      requires mmu.Valid()
      modifies this, mmu, mmu.Repr
      ensures mmu.Valid()
      ensures Gave(r, Semantics.Cycle(old(State(mmu)), decode), State(mmu))
    {
      var b0 :- mmu.Get(regs.pc);
      var b1 :- mmu.Get(Wrap16(regs.pc as int + 1));
      match decode(b0, b1)
      case None =>
        return Err(UnsupportedOpcode(b0, b1));
      case Some(cmd) =>
        if b0 == 0xCB {
          AdvancePc(2);
        } else {
          AdvancePc(1);
        }
        r := Execute(cmd, mmu);
    }

    /** One pass of the `run` loop, as the first of `left` turns: either
        how the run ends, or None with the rest of the run still ahead. */
    method Turn(mmu: Mmu, decode: Decoder, ghost left: nat) returns (r: Option<Ending>)
      requires mmu.Valid() && left > 0
      modifies this, mmu, mmu.Repr
      ensures mmu.Valid()
      ensures r.Some? ==> Ended(r.value, Semantics.Run(old(State(mmu)), decode, left), State(mmu))
      ensures r.None? ==> Semantics.Run(old(State(mmu)), decode, left) == Semantics.Run(State(mmu), decode, left - 1)
    {
      ghost var m0 := State(mmu);
      var s := Cycle(mmu, decode);
      RunTurn(m0, decode, left, s, State(mmu));
      match s
      case Err(e) =>
        r := Some(Faulted(e));
      case Ok(status) =>
        r := if status == Halted then Some(Finished) else None;
    }

    /** `run`, for at most `fuel` instructions. */
    method Run(mmu: Mmu, decode: Decoder, fuel: nat) returns (r: Ending)
      requires mmu.Valid()
      modifies this, mmu, mmu.Repr
      ensures mmu.Valid()
      ensures Ended(r, Semantics.Run(old(State(mmu)), decode, fuel), State(mmu))
    {
      var left := fuel;
      while left > 0
        invariant mmu.Valid()
        invariant Semantics.Run(old(State(mmu)), decode, fuel) == Semantics.Run(State(mmu), decode, left)
        decreases left
      {
        var t := Turn(mmu, decode, left);
        if t.Some? {
          return t.value;
        }
        left := left - 1;
      }
      r := Exhausted;
    }
  }
}
