/**
 * Properties of the executor's semantics: how far instructions move PC, what
 * the stack primitives leave in memory, how conditional branches relate to
 * their unconditional forms, and what the ALU, rotate and bit instructions
 * promise about their results and flags.
 */
module Properties {
  import opened Wrappers
  import opened Bits
  import opened Words
  import opened Opcodes
  import opened Faults
  import opened Memory
  import opened Registers
  import opened Alu
  import opened Semantics

  // ---------------------------------------------------------------------
  // Instruction stream

  /** The number of instruction-stream bytes an operand consumes. */
  function OperandWidth(op: Operand): nat
  {
    match op
    case DirectAddress => 2
    case Byte => 1
    case _ => 0
  }

  /** A successful `get_operand` changes nothing but PC, which moves past
      the bytes the operand consumes. */
  lemma {:induction false} GetOperandFrame(m: Machine, op: Operand)
    requires GetOperand(m, op).Ok?
    ensures GetOperand(m, op).value.next == AdvancePc(m, OperandWidth(op))
  {
    match op
    case DirectAddress =>
      assert Read16(m).Ok?;
    case Byte =>
    case IndirectAddress(_) =>
      assert Wrap16(m.regs.pc + 0) == m.regs.pc;
    case Register(_) =>
      assert Wrap16(m.regs.pc + 0) == m.regs.pc;
    case Register16(_) =>
      assert Wrap16(m.regs.pc + 0) == m.regs.pc;
  }

  /** `read_16` is little-endian and moves PC by two. */
  lemma {:induction false} Read16LittleEndian(m: Machine)
    ensures Read16(m).Ok? <==> Read(m.mem, m.regs.pc).Ok? && Read(m.mem, Wrap16(m.regs.pc + 1)).Ok?
    ensures Read16(m).Ok? ==>
      && Read16(m).value.value % 0x100 == Read(m.mem, m.regs.pc).value
      && Read16(m).value.value / 0x100 == Read(m.mem, Wrap16(m.regs.pc + 1)).value
      && Read16(m).value.next.regs.pc == Wrap16(m.regs.pc + 2)
  {
  }

  /** The immediate byte of an instruction is the byte right after its
      opcode bytes, which are two after the 0xCB prefix and one otherwise:
      `LD r,n` loads that byte and leaves PC just past it. */
  lemma {:induction false} ImmediateFollowsOpcode(m: Machine, r: RegisterId, prefixed: bool)
    requires r != RegisterId.HL
    ensures var w := if prefixed then 2 else 1;
            var s := Step(m, LD(Register(r), Byte), prefixed);
            && (s.Ok? <==> Read(m.mem, Wrap16(m.regs.pc + w)).Ok?)
            && (s.Ok? ==> s.value.value == Running
                          && s.value.next.regs.Get8(r) == Read(m.mem, Wrap16(m.regs.pc + w))
                          && s.value.next.regs.pc == Wrap16(m.regs.pc + w + 1)
                          && s.value.next.mem == m.mem)
  {
    assert FamilyOf(LD(Register(r), Byte)) == Loading;
    var w := if prefixed then 2 else 1;
    var m1 := AdvancePc(m, w);
    assert Wrap16(m1.regs.pc + 1) == Wrap16(m.regs.pc + w + 1);
    if Read8(m1).Ok? {
      var v := Read8(m1).value;
      Set8Get8(v.next.regs, r, r, v.value);
    }
  }

  /** STOP halts with PC one past its opcode byte. */
  lemma {:induction false} StopHalts(m: Machine)
    ensures Step(m, STOP, false) == Ok(Yield(Halted, SetPc(m, Wrap16(m.regs.pc + 1))))
  {
    assert FamilyOf(STOP) == Jumping;
  }

  /** JR with displacement -2 (a jump to itself) halts with PC just past it;
      any other displacement continues at the end of the instruction plus
      the signed displacement. */
  lemma {:induction false} JrHaltsOnSelfLoop(m: Machine, e: u8)
    requires Read(m.mem, Wrap16(m.regs.pc + 1)) == Ok(e)
    ensures e == 0xFE ==> Step(m, JR, false) == Ok(Yield(Halted, SetPc(m, Wrap16(m.regs.pc + 2))))
    ensures e != 0xFE ==>
      Step(m, JR, false) == Ok(Yield(Running, SetPc(m, Wrap16(m.regs.pc + 2 + SignedByte(e)))))
  {
    assert FamilyOf(JR) == Jumping;
    RelativeTarget(m, e);
  }

  lemma {:induction false} RelativeTarget(m: Machine, e: u8)
    requires Read(m.mem, Wrap16(m.regs.pc + 1)) == Ok(e)
    ensures Read8(AdvancePc(m, 1)) == Ok(Yield(e, SetPc(m, Wrap16(m.regs.pc + 2))))
    ensures AdvancePc(SetPc(m, Wrap16(m.regs.pc + 2)), SignedByte(e)) == SetPc(m, Wrap16(m.regs.pc + 2 + SignedByte(e)))
  {
    assert Wrap16(Wrap16(m.regs.pc + 1) + 1) == Wrap16(m.regs.pc + 2);
    assert Wrap16(Wrap16(m.regs.pc + 2) + SignedByte(e)) == Wrap16(m.regs.pc + 2 + SignedByte(e));
  }

  // ---------------------------------------------------------------------
  // Stack

  /** Two addresses one apart never share a cell. */
  lemma {:induction false} AdjacentCellsDiffer(addr: u16)
    requires Decode(addr).Ok? && Decode(Wrap16(addr + 1)).Ok?
    ensures Decode(addr) != Decode(Wrap16(addr + 1))
  {
    SameCellIff(addr, Wrap16(addr + 1));
  }

  /** `push_stack` succeeds exactly when both stack cells are mapped; it
      leaves SP two lower, the low byte at the new SP and the high byte
      above it, and every other cell and register as it was. */
  lemma {:induction false} PushLayout(m: Machine, v: u16)
    ensures var sp1, sp2 := Wrap16(m.regs.sp - 1), Wrap16(m.regs.sp - 2);
            Push(m, v).Ok? <==> Decode(sp1).Ok? && Decode(sp2).Ok?
    ensures Push(m, v).Ok? ==>
      var sp1, sp2 := Wrap16(m.regs.sp - 1), Wrap16(m.regs.sp - 2);
      var p := Push(m, v).value;
      && p.regs == m.regs.(sp := sp2)
      && Read(p.mem, sp2) == Ok(Low(v))
      && Read(p.mem, sp1) == Ok(High(v))
      && forall addr: u16 :: Decode(addr) != Decode(sp1) && Decode(addr) != Decode(sp2) ==>
           Read(p.mem, addr) == Read(m.mem, addr)
  {
    var sp1, sp2 := Wrap16(m.regs.sp - 1), Wrap16(m.regs.sp - 2);
    assert Wrap16(sp1 as int - 1) == sp2;
    AccessFaults(m.mem, sp1, High(v));
    if Write(m.mem, sp1, High(v)).Ok? {
      var mem1 := Write(m.mem, sp1, High(v)).value;
      AccessFaults(mem1, sp2, Low(v));
      if Write(mem1, sp2, Low(v)).Ok? {
        var mem2 := Write(mem1, sp2, Low(v)).value;
        ReadAfterWrite(mem1, sp2, Low(v));
        ReadAfterWrite(m.mem, sp1, High(v));
        assert Wrap16(sp2 as int + 1) == sp1;
        AdjacentCellsDiffer(sp2);
        WriteFrame(mem1, sp2, Low(v), sp1);
        forall addr: u16 | Decode(addr) != Decode(sp1) && Decode(addr) != Decode(sp2)
          ensures Read(mem2, addr) == Read(m.mem, addr)
        {
          WriteFrame(mem1, sp2, Low(v), addr);
          WriteFrame(m.mem, sp1, High(v), addr);
        }
      }
    }
  }

  /** `pop_stack` after `push_stack(v)` returns `v` and restores SP. */
  lemma {:induction false} PopAfterPush(m: Machine, v: u16)
    requires Push(m, v).Ok?
    ensures Pop(Push(m, v).value).Ok?
    ensures Pop(Push(m, v).value).value.value == v
    ensures Pop(Push(m, v).value).value.next.regs == m.regs
  {
    PushLayout(m, v);
    var sp2 := Wrap16(m.regs.sp - 2);
    assert Wrap16(sp2 as int + 1) == Wrap16(m.regs.sp - 1);
    assert Wrap16(Wrap16(m.regs.sp - 1) as int + 1) == m.regs.sp;
    BytesRoundTrip(v, 0, 0);
  }

  /** A taken CALL pushes the PC after its operand and jumps to the operand;
      a taken return from there pops that PC and restores SP. */
  lemma {:induction false} ReturnAfterCall(m: Machine, pcNow: u16)
    requires Call(m, true).Ok?
    ensures var addr := Read16(m).value;
            var c := Call(m, true).value;
            && c.regs.pc == addr.value
            && c.regs.sp == Wrap16(m.regs.sp - 2)
            && Return(c.(regs := c.regs.(pc := pcNow)), true).Ok?
            && Return(c.(regs := c.regs.(pc := pcNow)), true).value.regs.pc == addr.next.regs.pc
            && Return(c.(regs := c.regs.(pc := pcNow)), true).value.regs.sp == m.regs.sp
  {
    var addr := Read16(m).value;
    PopAfterPush(addr.next, addr.next.regs.pc);
    var pushed := Push(addr.next, addr.next.regs.pc).value;
    var c := Call(m, true).value;
    assert c == SetPc(pushed, addr.value);
    assert c.(regs := c.regs.(pc := pcNow)) == SetPc(pushed, pcNow);
    PopIgnoresPc(pushed, pcNow);
  }

  lemma {:induction false} PopIgnoresPc(m: Machine, pcNow: u16)
    ensures Pop(SetPc(m, pcNow)).Ok? <==> Pop(m).Ok?
    ensures Pop(m).Ok? ==>
      && Pop(SetPc(m, pcNow)).value.value == Pop(m).value.value
      && Pop(SetPc(m, pcNow)).value.next.regs.sp == Pop(m).value.next.regs.sp
  {
  }

  /** CALL jumps to its operand and leaves on the stack the address right
      after its three bytes, which a return (RET, RETI or a taken RET cc,
      all of which are `Return(_, true)` once PC is past the opcode) pops
      and jumps back to. */
  lemma {:induction false} CallPushesReturnAddress(m: Machine)
    requires Step(m, CALL, false).Ok?
    ensures var next := Step(m, CALL, false).value.next;
            var back := Return(AdvancePc(next, 1), true);
            && Step(m, CALL, false).value.value == Running
            && next.regs.pc == Read16(AdvancePc(m, 1)).value.value
            && next.regs.sp == Wrap16(m.regs.sp - 2)
            && back.Ok?
            && back.value.regs.pc == Wrap16(m.regs.pc + 3)
            && back.value.regs.sp == m.regs.sp
  {
    assert FamilyOf(CALL) == Calling;
    var m1 := AdvancePc(m, 1);
    var c := Call(m1, true).value;
    ReturnAfterCall(m1, Wrap16(c.regs.pc as int + 1));
    assert Read16(m1).value.next.regs.pc == Wrap16(m.regs.pc + 3);
    assert Wrap16(m1.regs.sp as int - 2) == Wrap16(m.regs.sp - 2);
  }

  // ---------------------------------------------------------------------
  // Conditional control flow

  /** JP cc behaves as JP when the condition holds; otherwise it still reads
      its two address bytes and only moves PC past them. */
  lemma {:induction false} ConditionalJump(m: Machine, flag: FlagId, prefixed: bool)
    ensures var w := if prefixed then 2 else 1;
            var s := Step(m, JP_flag(flag), prefixed);
            && (m.regs.flags.Holds(flag) ==> s == Step(m, JP, prefixed))
            && (s.Ok? <==> Step(m, JP, prefixed).Ok?)
            && (!m.regs.flags.Holds(flag) && s.Ok? ==>
                  s.value == Yield(Running, SetPc(m, Wrap16(m.regs.pc + w + 2))))
  {
    assert FamilyOf(JP_flag(flag)) == Jumping && FamilyOf(JP) == Jumping;
    var w := if prefixed then 2 else 1;
    assert Wrap16(Wrap16(m.regs.pc + w) + 2) == Wrap16(m.regs.pc + w + 2);
  }

  /** CALL cc behaves as CALL when the condition holds; otherwise it reads
      its address, pushes nothing, and only moves PC past the operand. */
  lemma {:induction false} ConditionalCall(m: Machine, flag: FlagId)
    ensures var s := Step(m, CALL_flag(flag), false);
            && (m.regs.flags.Holds(flag) ==> s == Step(m, CALL, false))
            && (!m.regs.flags.Holds(flag) ==>
                  (s.Ok? <==> Read16(AdvancePc(m, 1)).Ok?)
                  && (s.Ok? ==> s.value == Yield(Running, SetPc(m, Wrap16(m.regs.pc + 3)))))
  {
    assert FamilyOf(CALL_flag(flag)) == Calling && FamilyOf(CALL) == Calling;
    assert Wrap16(Wrap16(m.regs.pc + 1) + 2) == Wrap16(m.regs.pc + 3);
  }

  /** JR cc reads its displacement either way; when the condition holds it
      lands where JR would, except that the self-loop displacement -2, which
      halts JR, only loops back for JR cc. */
  lemma {:induction false} ConditionalRelativeJump(m: Machine, flag: FlagId, e: u8)
    requires Read(m.mem, Wrap16(m.regs.pc + 1)) == Ok(e)
    ensures var s := Step(m, JR_flag(flag), false);
            && (m.regs.flags.Holds(flag) && e != 0xFE ==> s == Step(m, JR, false))
            && (m.regs.flags.Holds(flag) && e == 0xFE ==> s == Ok(Yield(Running, m)))
            && (!m.regs.flags.Holds(flag) ==> s == Ok(Yield(Running, SetPc(m, Wrap16(m.regs.pc + 2)))))
  {
    assert FamilyOf(JR_flag(flag)) == Jumping && FamilyOf(JR) == Jumping;
    JrHaltsOnSelfLoop(m, e);
    RelativeTarget(m, e);
    if e == 0xFE {
      assert Wrap16(m.regs.pc + 2 + SignedByte(e)) == m.regs.pc;
    }
  }

  /** RET cc behaves as RET when the condition holds, and otherwise only
      moves PC past its opcode. */
  lemma {:induction false} ConditionalReturn(m: Machine, flag: FlagId)
    ensures var s := Step(m, RET_flag(flag), false);
            && (m.regs.flags.Holds(flag) ==> s == Step(m, RET, false))
            && (!m.regs.flags.Holds(flag) ==> s == Ok(Yield(Running, SetPc(m, Wrap16(m.regs.pc + 1)))))
  {
    assert FamilyOf(RET_flag(flag)) == Calling && FamilyOf(RET) == Calling;
  }

  // ---------------------------------------------------------------------
  // 8-bit arithmetic

  /** ADD, ADC, SUB and SBC compute the byte of the true sum or difference,
      with C reporting a result outside 0..255, Z a zero byte, N a
      subtraction, and H a carry or borrow at bit 4. */
  lemma {:induction false} ArithResult(m: Machine, op: Operand, kind: ArithOp)
    requires Arith(m, op, kind).Ok?
    ensures var n := GetOperand(m, op).value.value;
            var cin := if kind.UsesCarry() && m.regs.flags.c then 1 else 0;
            var exact := if kind.Subtracts() then m.regs.a - n - cin else m.regs.a + n + cin;
            var r := Arith(m, op, kind).value;
            && r.regs.a == exact % 0x100
            && r.regs.flags.c == !(0 <= exact <= 0xFF)
            && r.regs.flags.z == (r.regs.a == 0)
            && r.regs.flags.n == kind.Subtracts()
            && r.regs.flags.h == (BitSet(exact % 0x100, 4) != (BitSet(m.regs.a, 4) != BitSet(n, 4)))
            && r.regs.pc == Wrap16(m.regs.pc + OperandWidth(op))
            && r.mem == m.mem
  {
    GetOperandFrame(m, op);
    var n := GetOperand(m, op).value.value;
    var s1 := GetOperand(m, op).value.next;
    var cin := if kind.UsesCarry() && m.regs.flags.c then 1 else 0;
    assert s1.regs.a == m.regs.a;
    var r := ArithOn(m.regs.a, n, cin, kind);
    ArithOnMeaning(m.regs.a, n, cin, kind);
    assert Arith(m, op, kind).value == WithFlags(WithA(s1, r.0), r.1);
  }

  /** The byte and flags of the carry chain, against the exact sum or
      difference. */
  lemma {:induction false} ArithOnMeaning(a: u8, n: u8, cin: u8, kind: ArithOp)
    requires cin <= 1
    ensures var exact := if kind.Subtracts() then a - n - cin else a + n + cin;
            var r := ArithOn(a, n, cin, kind);
            && r.0 == exact % 0x100
            && r.1.c == !(0 <= exact <= 0xFF)
            && r.1.z == (r.0 == 0)
            && r.1.n == kind.Subtracts()
            && r.1.h == (BitSet(exact % 0x100, 4) != (BitSet(a, 4) != BitSet(n, 4)))
  {
    if kind.Subtracts() {
      HalfCarry8SubIsBorrowIntoBit4(a, n, cin);
    } else {
      HalfCarry8AddIsCarryIntoBit4(a, n, cin);
    }
  }

  /** CP sets exactly the flags SUB would, and leaves A unchanged. */
  lemma {:induction false} CompareIsSubtractWithoutStore(m: Machine, op: Operand)
    ensures Compare(m, op).Ok? <==> Arith(m, op, SubOp).Ok?
    ensures Compare(m, op).Ok? ==> Compare(m, op).value == WithA(Arith(m, op, SubOp).value, m.regs.a)
  {
    if Compare(m, op).Ok? {
      GetOperandFrame(m, op);
    }
  }

  /** SUB of the register just added gives back A, and reports the same
      carry as the ADD. */
  lemma {:induction false} SubtractUndoesAdd(m: Machine, r: RegisterId)
    requires r != RegisterId.A && r != RegisterId.HL
    ensures Arith(m, Register(r), AddOp).Ok?
    ensures var m1 := Arith(m, Register(r), AddOp).value;
            && Arith(m1, Register(r), SubOp).Ok?
            && Arith(m1, Register(r), SubOp).value.regs.a == m.regs.a
            && Arith(m1, Register(r), SubOp).value.regs.flags.c == m1.regs.flags.c
  {
    var n := m.regs.Get8(r).value;
    var a := m.regs.a;
    var m1 := Arith(m, Register(r), AddOp).value;
    assert m1.regs.Get8(r) == Ok(n);
    AddThenSubtract(a, n);
  }

  /** Adding then subtracting a byte, modulo 256, gives back the byte; the
      subtraction borrows exactly when the addition carried. */
  lemma {:induction false} AddThenSubtract(a: u8, n: u8)
    ensures ((a as int + n) % 0x100 - n) % 0x100 == a
    ensures (a as int + n) % 0x100 < n <==> a as int + n > 0xFF
  {
    var s: int := (a as int + n) % 0x100;
    DivMod256(a as int + n, (a as int + n) / 0x100, s);
    DivMod256(s - n, -((a as int + n) / 0x100), a);
  }

  /** INC and DEC of a pair wrap it and touch no flag. */
  lemma {:induction false} PairIncDecKeepFlags(m: Machine, r: Register16Id, inc: bool)
    requires r != AF
    ensures var v := m.regs.Get(r);
            && IncDec(m, Register16(r), inc).Ok?
            && IncDec(m, Register16(r), inc).value.regs.Get(r) == (if inc then Wrap16(v as int + 1) else Wrap16(v as int - 1))
            && IncDec(m, Register16(r), inc).value.regs.flags == m.regs.flags
            && IncDec(m, Register16(r), inc).value.mem == m.mem
  {
    var v := m.regs.Get(r);
    SetGetPair(m.regs, r, if inc then Wrap16(v as int + 1) else Wrap16(v as int - 1));
  }

  /** INC and DEC of a byte wrap it, keep C, set N for DEC only, and set Z
      and H from the result. */
  lemma {:induction false} ByteIncDec(m: Machine, op: Operand, inc: bool)
    requires !op.Register16?
    requires IncDec(m, op, inc).Ok?
    ensures var p := PlaceOf(op).value;
            var prior := Load(m, p).value;
            var r := IncDec(m, op, inc).value;
            && Load(r, p) == Ok(if inc then (prior as int + 1) % 0x100 else (prior as int - 1) % 0x100)
            && r.regs.flags.c == m.regs.flags.c
            && r.regs.flags.n == !inc
            && r.regs.flags.z == (Load(r, p).value == 0)
            && r.regs.flags.h == (if inc then prior % 0x10 == 0xF else prior % 0x10 == 0)
  {
    var p := PlaceOf(op).value;
    var prior := Load(m, p).value;
    var res: u8 := if inc then (prior as int + 1) % 0x100 else (prior as int - 1) % 0x100;
    StoreKeepsFlags(m, p, res);
    LoadAfterStore(m, p, res);
    var m1 := Store(m, p, res).value;
    assert IncDec(m, op, inc).value.regs == m1.regs.(flags := IncDec(m, op, inc).value.regs.flags);
  }

  /** A store keeps the flags and PC. */
  lemma {:induction false} StoreKeepsFlags(m: Machine, p: Place, v: u8)
    requires Store(m, p, v).Ok?
    ensures Store(m, p, v).value.regs.flags == m.regs.flags
    ensures Store(m, p, v).value.regs.pc == m.regs.pc
  {
    if p.Reg? {
      Set8Get8(m.regs, p.id, p.id, v);
    }
  }

  /** Loading a place just stored gives the stored byte; a store fails only
      on register HL or an unmapped address at HL. */
  lemma {:induction false} LoadAfterStore(m: Machine, p: Place, v: u8)
    requires Store(m, p, v).Ok?
    ensures Load(Store(m, p, v).value, p) == Ok(v)
  {
    match p
    case Reg(id) =>
      Set8Get8(m.regs, id, id, v);
    case AtHL =>
      ReadAfterWrite(m.mem, m.regs.Get(Register16Id.HL), v);
  }

  /** INC then DEC of the same byte gives it back. */
  lemma {:induction false} IncThenDec(m: Machine, op: Operand)
    requires !op.Register16?
    requires IncDec(m, op, true).Ok?
    ensures var m1 := IncDec(m, op, true).value;
            && IncDec(m1, op, false).Ok?
            && Load(IncDec(m1, op, false).value, PlaceOf(op).value) == Load(m, PlaceOf(op).value)
  {
    var p := PlaceOf(op).value;
    var x := Load(m, p).value;
    ByteIncDec(m, op, true);
    var m1 := IncDec(m, op, true).value;
    var y: int := (x as int + 1) % 0x100;
    LoadAfterStore(m, p, y);
    StoreAgain(Store(m, p, y).value, m1, p, (y - 1) % 0x100);
    ByteIncDec(m1, op, false);
    WrapBack(x);
  }

  /** Adding one then subtracting one, modulo 256, gives back the byte. */
  lemma {:induction false} WrapBack(x: u8)
    ensures ((x as int + 1) % 0x100 - 1) % 0x100 == x
  {
    var y: int := (x as int + 1) % 0x100;
    DivMod256(x as int + 1, (x as int + 1) / 0x100, y);
    DivMod256(y - 1, -((x as int + 1) / 0x100), x);
  }

  /** Whether a store succeeds depends only on the place and, for (HL), on
      HL, which flags do not affect. */
  lemma {:induction false} StoreAgain(m: Machine, m1: Machine, p: Place, v: u8)
    requires Store(m, p, v).Ok?
    requires m1.mem == m.mem && m1.regs.h == m.regs.h && m1.regs.l == m.regs.l
    ensures Store(m1, p, v).Ok?
  {
  }

  /** ADD HL,rr: HL becomes the wrapped sum, C flags a sum above 0xFFFF, H
      is the carry into bit 11 (the helper's mask is 0x07FF), N is cleared,
      and Z, A, SP and PC are kept. */
  lemma {:induction false} AddHlResult(m: Machine, r: Register16Id)
    ensures var hl, n := m.regs.Get(Register16Id.HL), m.regs.Get(r);
            var s := AddHl(m, r).regs;
            && s.Get(Register16Id.HL) == Wrap16(hl as int + n)
            && s.flags.z == m.regs.flags.z
            && !s.flags.n
            && s.flags.c == (hl as int + n > 0xFFFF)
            && s.flags.h == (BitSet(Wrap16(hl as int + n), 11) != (BitSet(hl, 11) != BitSet(n, 11)))
            && s.a == m.regs.a && s.sp == m.regs.sp && s.pc == m.regs.pc
            && AddHl(m, r).mem == m.mem
  {
    var hl, n := m.regs.Get(Register16Id.HL), m.regs.Get(r);
    var w := Wrap16(hl as int + n);
    var f := m.regs.flags.(n := false, h := HalfCarry16AddAsWritten(hl, n, 0), c := hl as int + n > 0xFFFF);
    assert AddHl(m, r).regs == m.regs.(flags := f).Set(Register16Id.HL, w);
    SetGetPair(m.regs.(flags := f), Register16Id.HL, w);
    HalfCarryOfAddHl(hl, n);
    assert AddHl(m, r).regs.flags.h == HalfCarry16AddAsWritten(hl, n, 0);
  }

  /** The half carry ADD HL,rr reports is the carry into bit 11 of the sum. */
  lemma {:induction false} HalfCarryOfAddHl(hl: u16, n: u16)
    ensures HalfCarry16AddAsWritten(hl, n, 0) == (BitSet(Wrap16(hl as int + n), 11) != (BitSet(hl, 11) != BitSet(n, 11)))
  {
    HalfCarry16AsWrittenIsCarryIntoBit11(hl, n, 0);
    assert (hl as int + n + 0) % 0x1_0000 == Wrap16(hl as int + n);
  }

  /** The half carry ADD HL,rr is meant to report, the carry out of bit 11,
      is the carry into bit 12 of the sum. */
  lemma {:induction false} IntendedHalfCarryOfAddHl(hl: u16, n: u16)
    ensures HalfCarry16Add(hl, n, 0) == (BitSet(Wrap16(hl as int + n), 12) != (BitSet(hl, 12) != BitSet(n, 12)))
  {
    HalfCarry16AddIsCarryIntoBit12(hl, n, 0);
    assert (hl as int + n + 0) % 0x1_0000 == Wrap16(hl as int + n);
  }

  /** ADD HL,BC with HL = BC = 0x0800: the sum 0x1000 carries out of bit 11,
      yet H stays clear. */
  lemma {:induction false} AddHlMissesCarryOutOfBit11(m: Machine)
    requires m.regs.h == 0x08 && m.regs.l == 0x00 && m.regs.b == 0x08 && m.regs.c == 0x00
    ensures AddHl(m, BC).regs.Get(Register16Id.HL) == 0x1000
    ensures !AddHl(m, BC).regs.flags.h
    ensures HalfCarry16Add(m.regs.Get(Register16Id.HL), m.regs.Get(BC), 0)
  {
    PairValue(m.regs);
    AddHlResult(m, BC);
    HalfCarry16Counterexamples();
  }

  /** ADD SP,e and LD HL,SP+e compute the same word, SP plus the signed
      displacement, and the same flags; ADD SP,e keeps HL and LD HL,SP+e
      keeps SP. */
  lemma {:induction false} SignedOffsetForms(m: Machine)
    ensures AddSp(m).Ok? <==> Read(m.mem, m.regs.pc).Ok?
    ensures LoadHlSpOffset(m).Ok? <==> Read(m.mem, m.regs.pc).Ok?
    ensures AddSp(m).Ok? ==>
      var e := Read(m.mem, m.regs.pc).value;
      var sum := Wrap16(m.regs.sp as int + SignedByte(e));
      var s, t := AddSp(m).value.regs, LoadHlSpOffset(m).value.regs;
      && s.sp == sum && t.Get(Register16Id.HL) == sum
      && s.flags == t.flags
      && !s.flags.z && !s.flags.n
      && s.flags.c == (m.regs.sp % 0x100 + e > 0xFF)
      && s.flags.h == (m.regs.sp % 0x10 + e % 0x10 > 0xF)
      && s.Get(Register16Id.HL) == m.regs.Get(Register16Id.HL)
      && t.sp == m.regs.sp
      && s.pc == t.pc == Wrap16(m.regs.pc as int + 1)
  {
    if Read(m.mem, m.regs.pc).Ok? {
      var e := Read8(m).value;
      var r := AddSignedOffset(e.next.regs.sp, e.value);
      var f := Flags(false, false, r.h, r.c);
      SetGetPair(e.next.regs.(flags := f), Register16Id.HL, r.value);
    }
  }

  /** ADD A,r of two binary-coded decimal bytes followed by DAA leaves the
      decimal sum modulo 100 in A and sets C exactly when the sum reaches
      100. */
  lemma {:induction false} DecimalAddition(m: Machine, r: RegisterId)
    requires r != RegisterId.HL
    requires IsBcd(m.regs.a) && IsBcd(m.regs.Get8(r).value)
    ensures Arith(m, Register(r), AddOp).Ok?
    ensures var x, y := m.regs.a, m.regs.Get8(r).value;
            var d := BcdValue(x) + BcdValue(y);
            var s := DecimalAdjust(Arith(m, Register(r), AddOp).value).regs;
            && s.a == ToBcd(d % 100)
            && s.flags.c == (d >= 100)
            && s.flags.z == (d % 100 == 0)
  {
    var x, y := m.regs.a, m.regs.Get8(r).value;
    var d := BcdValue(x) + BcdValue(y);
    DaaAfterAdd(x, y, false);
    assert Bit(false) == 0;
    var m1 := Arith(m, Register(r), AddOp).value;
    assert m1.regs.a == (x as int + y) % 0x100;
    assert m1.regs.flags == Flags((x as int + y) % 0x100 == 0, false, HalfCarry8Add(x, y, 0), x as int + y > 0xFF);
    var adj := Daa(m1.regs.a, false, HalfCarry8Add(x, y, 0), x as int + y > 0xFF);
    assert adj == Adjusted(ToBcd(d % 100), d >= 100);
    assert DecimalAdjust(m1).regs.a == adj.value;
    ToBcdZero(d);
  }

  /** SUB A,r of two binary-coded decimal bytes followed by DAA leaves the
      decimal difference modulo 100 in A and sets C exactly when the
      difference is negative. */
  lemma {:induction false} DecimalSubtraction(m: Machine, r: RegisterId)
    requires r != RegisterId.HL
    requires IsBcd(m.regs.a) && IsBcd(m.regs.Get8(r).value)
    ensures Arith(m, Register(r), SubOp).Ok?
    ensures var x, y := m.regs.a, m.regs.Get8(r).value;
            var d := BcdValue(x) - BcdValue(y);
            var s := DecimalAdjust(Arith(m, Register(r), SubOp).value).regs;
            && s.a == ToBcd(d % 100)
            && s.flags.c == (d < 0)
            && s.flags.z == (d % 100 == 0)
  {
    var x, y := m.regs.a, m.regs.Get8(r).value;
    var d := BcdValue(x) - BcdValue(y);
    DaaAfterSub(x, y, false);
    assert Bit(false) == 0;
    var m1 := Arith(m, Register(r), SubOp).value;
    assert m1.regs.a == (x as int - y) % 0x100;
    assert m1.regs.flags == Flags((x as int - y) % 0x100 == 0, true, HalfCarry8Sub(x, y, 0), x < y);
    var adj := Daa(m1.regs.a, true, HalfCarry8Sub(x, y, 0), x < y);
    assert adj == Adjusted(ToBcd(d % 100), d < 0);
    assert DecimalAdjust(m1).regs.a == adj.value;
    ToBcdZero(d);
  }

  lemma {:induction false} ToBcdZero(d: int)
    ensures ToBcd(d % 100) == 0 <==> d % 100 == 0
  {
  }

  /** A rotate, shift or SWAP of a register or (HL) stores its byte in place,
      sets Z from it, clears N and H, and puts in C the bit that leaves the
      byte (bit 7 for the left forms, bit 0 for the right ones, none for
      SWAP). */
  lemma {:induction false} ShiftPlaceResult(m: Machine, op: Operand, kind: ShiftOp)
    requires ShiftPlace(m, op, kind).Ok?
    ensures var p := PlaceOf(op).value;
            var x := Load(m, p).value;
            var r := ShiftPlace(m, op, kind).value;
            && Load(r, p) == Ok(Shift(kind, x, m.regs.flags.c).value)
            && r.regs.flags.z == (Load(r, p).value == 0)
            && !r.regs.flags.n && !r.regs.flags.h
            && r.regs.flags.c == (match kind
                                  case RlcOp | RlOp | SlaOp => BitSet(x, 7)
                                  case SwapOp => false
                                  case _ => BitSet(x, 0))
            && r.regs.pc == m.regs.pc
  {
    var p := PlaceOf(op).value;
    var x := Load(m, p).value;
    var s := Shift(kind, x, m.regs.flags.c);
    CarryIsShiftedOutBit(x, m.regs.flags.c);
    LoadAfterStore(m, p, s.value);
    StoreKeepsFlags(m, p, s.value);
  }

  /** RLCA, RRCA, RLA and RRA do what RLC A, RRC A, RL A and RR A do, except
      that Z is always cleared. */
  lemma {:induction false} AccumulatorShiftClearsZero(m: Machine, kind: ShiftOp)
    ensures ShiftPlace(m, Register(RegisterId.A), kind).Ok?
    ensures var r := ShiftPlace(m, Register(RegisterId.A), kind).value;
            ShiftA(m, kind) == WithFlags(r, r.regs.flags.(z := false))
  {
  }

  /** BIT sets Z exactly when the chosen bit is clear, sets H, clears N, and
      leaves C, the operand and every register but F as they were. */
  lemma {:induction false} TestBitResult(m: Machine, bit: BitIndex, reg: RegisterId)
    ensures TestBit(m, bit, reg).Ok? <==> Load(m, BitPlace(reg)).Ok?
    ensures TestBit(m, bit, reg).Ok? ==>
      var r := TestBit(m, bit, reg).value;
      && r.regs.flags == Flags(!BitSet(Load(m, BitPlace(reg)).value, bit), false, true, m.regs.flags.c)
      && r == WithFlags(m, r.regs.flags)
  {
    if Load(m, BitPlace(reg)).Ok? {
      BitIsClearIff(Load(m, BitPlace(reg)).value, bit);
    }
  }

  /** SET and RES fault only when their operand cannot be read; otherwise
      they change the chosen bit of the operand, keep its other bits, and
      keep every flag. */
  lemma {:induction false} ChangeBitResult(m: Machine, bit: BitIndex, reg: RegisterId, turnOn: bool)
    ensures ChangeBit(m, bit, reg, turnOn).Ok? <==> Load(m, BitPlace(reg)).Ok?
    ensures ChangeBit(m, bit, reg, turnOn).Ok? ==>
      var p := BitPlace(reg);
      var n := Load(m, p).value;
      var r := ChangeBit(m, bit, reg, turnOn).value;
      && Load(r, p).Ok?
      && (forall i: BitIndex :: BitSet(Load(r, p).value, i) == (if i == bit then turnOn else BitSet(n, i)))
      && r.regs.flags == m.regs.flags
      && r.regs.pc == m.regs.pc
  {
    var p := BitPlace(reg);
    if Load(m, p).Ok? {
      var n := Load(m, p).value;
      var v := if turnOn then SetBit(n, bit) else ResetBit(n, bit);
      if p.AtHL? {
        AccessFaults(m.mem, m.regs.Get(Register16Id.HL), v);
      }
      assert Store(m, p, v).Ok?;
      LoadAfterStore(m, p, v);
      StoreKeepsFlags(m, p, v);
      if turnOn {
        SetBitBits(n, bit);
      } else {
        ResetBitBits(n, bit);
      }
    }
  }

  /** AND, OR and XOR combine A and the operand bit by bit; H is set by AND
      alone, N and C are cleared, and Z is set by a zero result. */
  lemma {:induction false} LogicResult(m: Machine, op: Operand, kind: BitOp)
    requires Logic(m, op, kind).Ok?
    ensures var n := GetOperand(m, op).value.value;
            var r := Logic(m, op, kind).value;
            && (forall i: BitIndex :: BitSet(r.regs.a, i) == Apply(kind, BitSet(m.regs.a, i), BitSet(n, i)))
            && r.regs.flags == Flags(r.regs.a == 0, false, kind == AndOp, false)
            && r.regs.pc == Wrap16(m.regs.pc as int + OperandWidth(op))
  {
    GetOperandFrame(m, op);
    var n := GetOperand(m, op).value.value;
    match kind
    case AndOp => AndBits(m.regs.a, n);
    case OrOp => OrBits(m.regs.a, n);
    case XorOp => XorBits(m.regs.a, n);
  }

  /** CPL inverts every bit of A, so applying it twice gives A back. */
  lemma {:induction false} ComplementInverts(m: Machine)
    ensures forall i: BitIndex :: BitSet(Complement(m).regs.a, i) == !BitSet(m.regs.a, i)
    ensures Complement(Complement(m)).regs.a == m.regs.a
  {
    NotBits(m.regs.a);
  }

  /** PUSH rr then POP rr gives the pair back, except that the low nibble of
      F, which has no flag, reads back as zero. */
  lemma {:induction false} PopAfterPushPair(m: Machine, r: Register16Id)
    requires Push(m, m.regs.Get(r)).Ok?
    ensures PopPair(Push(m, m.regs.Get(r)).value, r).Ok?
    ensures var s := PopPair(Push(m, m.regs.Get(r)).value, r).value.regs;
            && s.Get(r) == (if r == AF then m.regs.Get(r) - m.regs.Get(r) % 0x10 else m.regs.Get(r))
            && s.sp == (if r == SP then m.regs.Get(r) else m.regs.sp)
  {
    var v := m.regs.Get(r);
    PopAfterPush(m, v);
    var y := Pop(Push(m, v).value).value;
    if r == AF {
      SetGetAF(y.next.regs, v);
    } else {
      SetGetPair(y.next.regs, r, v);
    }
  }

  /** RST n pushes the address of the next instruction and jumps to n. */
  lemma {:induction false} RestartCalls(m: Machine, offset: u8)
    requires Restart(m, offset).Ok?
    ensures var r := Restart(m, offset).value;
            && r.regs.pc == offset
            && r.regs.sp == Wrap16(m.regs.sp as int - 2)
            && Pop(r).Ok? && Pop(r).value.value == m.regs.pc
  {
    PopAfterPush(m, m.regs.pc);
    PopIgnoresPc(Push(m, m.regs.pc).value, offset);
  }

  /** LD (nn),SP stores SP little-endian at nn and nn + 1. */
  lemma {:induction false} StoreSpLittleEndian(m: Machine, src: Operand)
    requires LoadInto(m, Byte, src).Ok?
    ensures var addr := Read16(m).value.value;
            var r := LoadInto(m, Byte, src).value;
            && Read(r.mem, addr) == Ok(Low(m.regs.sp))
            && Read(r.mem, Wrap16(addr as int + 1)) == Ok(High(m.regs.sp))
            && r.regs == m.regs.(pc := Wrap16(m.regs.pc as int + 2))
  {
    var addr := Read16(m).value;
    var sp := m.regs.sp;
    var mem1 := Write(m.mem, addr.value, Low(sp)).value;
    var a2 := Wrap16(addr.value as int + 1);
    ReadAfterWrite(mem1, a2, High(sp));
    ReadAfterWrite(m.mem, addr.value, Low(sp));
    AccessFaults(m.mem, addr.value, Low(sp));
    AccessFaults(mem1, a2, High(sp));
    AdjacentCellsDiffer(addr.value);
    WriteFrame(mem1, a2, High(sp), addr.value);
  }

  /** LD A,(HL+) and LD A,(HL-) load A from the byte at HL and then move HL
      by one; LD (HL+),A and LD (HL-),A store A there and move HL the same
      way. */
  lemma {:induction false} HlAutoIncrement(m: Machine, delta: int)
    requires delta == 1 || delta == -1
    ensures var hl := m.regs.Get(Register16Id.HL);
            && (LoadAFromHl(m, delta).Ok? <==> Read(m.mem, hl).Ok?)
            && (StoreAToHl(m, delta).Ok? <==> Read(m.mem, hl).Ok?)
            && (LoadAFromHl(m, delta).Ok? ==>
                  var r := LoadAFromHl(m, delta).value;
                  && Ok(r.regs.a) == Read(m.mem, hl)
                  && r.regs.Get(Register16Id.HL) == Wrap16(hl as int + delta))
            && (StoreAToHl(m, delta).Ok? ==>
                  var r := StoreAToHl(m, delta).value;
                  && Read(r.mem, hl) == Ok(m.regs.a)
                  && r.regs.Get(Register16Id.HL) == Wrap16(hl as int + delta))
  {
    var hl := m.regs.Get(Register16Id.HL);
    AccessFaults(m.mem, hl, m.regs.a);
    if Read(m.mem, hl).Ok? {
      ReadAfterWrite(m.mem, hl, m.regs.a);
      SetGetPair(m.regs.(a := Read(m.mem, hl).value), Register16Id.HL, Wrap16(hl as int + delta));
      SetGetPair(m.regs, Register16Id.HL, Wrap16(hl as int + delta));
    }
  }

  // ---------------------------------------------------------------------
  // The run loop

  /** Once a run has stopped or panicked within its fuel, more fuel changes
      nothing. */
  lemma {:induction false} LoopFuelMonotone(m: Machine, cycle: Machine -> Result<Yield<Status>, Fault>, fuel: nat, more: nat)
    requires !Loop(m, cycle, fuel).OutOfFuel?
    ensures Loop(m, cycle, fuel + more) == Loop(m, cycle, fuel)
    decreases fuel
  {
    match cycle(m)
    case Err(_) =>
    case Ok(Yield(status, next)) =>
      if status == Running {
        LoopFuelMonotone(next, cycle, fuel - 1, more);
      }
  }

  /** A run that used up its fuel goes on, given more, from the machine it
      reached. */
  lemma {:induction false} LoopResumes(m: Machine, cycle: Machine -> Result<Yield<Status>, Fault>, fuel: nat, more: nat)
    requires Loop(m, cycle, fuel).OutOfFuel?
    ensures Loop(m, cycle, fuel + more) == Loop(Loop(m, cycle, fuel).m, cycle, more)
    decreases fuel
  {
    if fuel > 0 {
      match cycle(m)
      case Err(_) =>
      case Ok(Yield(status, next)) =>
        LoopResumes(next, cycle, fuel - 1, more);
    }
  }

  /** `run` with more fuel: a finished run is unchanged, and an unfinished
      one resumes from the machine it reached. */
  lemma {:induction false} RunMoreFuel(m: Machine, decode: Decoder, fuel: nat, more: nat)
    ensures !Run(m, decode, fuel).OutOfFuel? ==> Run(m, decode, fuel + more) == Run(m, decode, fuel)
    ensures Run(m, decode, fuel).OutOfFuel? ==>
      Run(m, decode, fuel + more) == Run(Run(m, decode, fuel).m, decode, more)
  {
    var cycle := (m': Machine) => Cycle(m', decode);
    if Run(m, decode, fuel).OutOfFuel? {
      LoopResumes(m, cycle, fuel, more);
    } else {
      LoopFuelMonotone(m, cycle, fuel, more);
    }
  }
}
