/**
 * The register file of the CPU as a value: seven 8-bit registers, the stack
 * pointer, the program counter and the four flags, with the 16-bit pair
 * views and the packing of the flags into the F byte.
 */
module Registers {
  import opened Wrappers
  import opened Bits
  import opened Words
  import opened Opcodes
  import opened Faults

  /** The flag register: zero, subtract, half carry, carry. */
  datatype Flags = Flags(z: bool, n: bool, h: bool, c: bool)
  {
    /** `get_f`: Z, N, H and C packed into bits 7, 6, 5 and 4. */
    function F(): u8
    {
      Bit(z) * 0x80 + Bit(n) * 0x40 + Bit(h) * 0x20 + Bit(c) * 0x10
    }

    /** `set_f`: each flag is read off its bit of `v`. */
    function WithF(v: u8): Flags
    {
      Flags(And(v, 0x80) > 0, And(v, 0x40) > 0, And(v, 0x20) > 0, And(v, 0x10) > 0)
    }

    /** `FlagRegister::get`: the branch condition `id`. */
    function Holds(id: FlagId): bool
    {
      match id
      case Z => z
      case NZ => !z
      case C => c
      case NC => !c
    }
  }

  const NoFlags := Flags(false, false, false, false)

  datatype Registers = Registers(
    a: u8, b: u8, c: u8, d: u8, e: u8, h: u8, l: u8,
    sp: u16,  // stack pointer
    pc: u16,  // program counter
    flags: Flags)
  {
    /** `regs[id]`; HL names no 8-bit register. */
    function Get8(id: RegisterId): Result<u8, Fault>
    {
      match id
      case A => Ok(a)
      case B => Ok(b)
      case C => Ok(c)
      case D => Ok(d)
      case E => Ok(e)
      case H => Ok(h)
      case L => Ok(l)
      case HL => Err(UnsupportedRegister(id))
    }

    /** `regs[id] = v`; HL names no 8-bit register. */
    function Set8(id: RegisterId, v: u8): Result<Registers, Fault>
    {
      match id
      case A => Ok(this.(a := v))
      case B => Ok(this.(b := v))
      case C => Ok(this.(c := v))
      case D => Ok(this.(d := v))
      case E => Ok(this.(e := v))
      case H => Ok(this.(h := v))
      case L => Ok(this.(l := v))
      case HL => Err(UnsupportedRegister(id))
    }

    /** `Registers::get`: a pair read big-endian, first register high. */
    function Get(r: Register16Id): u16
    {
      match r
      case AF => FromBytes(a, flags.F())
      case BC => FromBytes(b, c)
      case DE => FromBytes(d, e)
      case HL => FromBytes(h, l)
      case SP => sp
    }

    /** `Registers::set`: the value that a call leaves in the register file. */
    function Set(r: Register16Id, v: u16): Registers
    {
      match r
      case AF => this.(a := High(v), flags := flags.WithF(Low(v)))
      case BC => this.(b := High(v), c := Low(v))
      case DE => this.(d := High(v), e := Low(v))
      case HL => this.(h := High(v), l := Low(v))
      case SP => this.(sp := v)
    }
  }

  /** The register file `init_cpu` builds. */
  const PowerOnRegisters := Registers(0x01, 0xFF, 0x13, 0x00, 0xC1, 0x84, 0x03, 0xFFFE, 0x0100, NoFlags)

  // ---------------------------------------------------------------------
  // Flag packing

  /** The bits of a byte's high nibble are its value less its low nibble. */
  lemma {:induction false} HighNibbleValue(v: u8)
    ensures v - v % 0x10 == Bit(BitSet(v, 7)) * 0x80 + Bit(BitSet(v, 6)) * 0x40
                           + Bit(BitSet(v, 5)) * 0x20 + Bit(BitSet(v, 4)) * 0x10
  {
    var q := v / 0x10;
    BitSetHigh4(v, 0);
    BitSetHigh4(v, 1);
    BitSetHigh4(v, 2);
    BitSetHigh4(v, 3);
    NibbleBits(q);
  }

  /** The flags in the order get_f packs them, as a nibble. */
  function FlagNibble(f: Flags): nat
  {
    Bit(f.c) + 2 * (Bit(f.h) + 2 * (Bit(f.n) + 2 * Bit(f.z)))
  }

  lemma {:induction false} FlagNibbleBits(f: Flags)
    ensures BitSet(FlagNibble(f), 0) == f.c && BitSet(FlagNibble(f), 1) == f.h
    ensures BitSet(FlagNibble(f), 2) == f.n && BitSet(FlagNibble(f), 3) == f.z
  {
    var r2 := Bit(f.z);
    var r1 := Bit(f.n) + 2 * r2;
    var q1 := Bit(f.h) + 2 * r1;
    BitSetStep(f.c, q1, 0);
    BitSetStep(f.c, q1, 1);
    BitSetStep(f.c, q1, 2);
    BitSetStep(f.c, q1, 3);
    BitSetStep(f.h, r1, 0);
    BitSetStep(f.h, r1, 1);
    BitSetStep(f.h, r1, 2);
    BitSetStep(f.n, r2, 0);
    BitSetStep(f.n, r2, 1);
    BitSetStep(f.z, 0, 0);
  }

  /** The packed byte has each flag in its own bit and a zero low nibble. */
  lemma {:induction false} PackedFlagBits(f: Flags)
    ensures f.F() % 0x10 == 0
    ensures BitSet(f.F(), 7) == f.z && BitSet(f.F(), 6) == f.n
    ensures BitSet(f.F(), 5) == f.h && BitSet(f.F(), 4) == f.c
  {
    var v := f.F();
    assert v == 0x10 * FlagNibble(f);
    assert v / 0x10 == FlagNibble(f);
    BitSetHigh4(v, 0);
    BitSetHigh4(v, 1);
    BitSetHigh4(v, 2);
    BitSetHigh4(v, 3);
    FlagNibbleBits(f);
  }

  /** `set_f` reads back the bits `get_f` writes. */
  lemma {:induction false} WithFBits(f: Flags, v: u8)
    ensures f.WithF(v) == Flags(BitSet(v, 7), BitSet(v, 6), BitSet(v, 5), BitSet(v, 4))
  {
    WithFZ(f, v);
    WithFN(f, v);
    WithFH(f, v);
    WithFC(f, v);
  }

  lemma {:induction false} WithFZ(f: Flags, v: u8) ensures f.WithF(v).z == BitSet(v, 7) { MaskBitOf(v, 7, 0x80); }
  lemma {:induction false} WithFN(f: Flags, v: u8) ensures f.WithF(v).n == BitSet(v, 6) { MaskBitOf(v, 6, 0x40); }
  lemma {:induction false} WithFH(f: Flags, v: u8) ensures f.WithF(v).h == BitSet(v, 5) { MaskBitOf(v, 5, 0x20); }
  lemma {:induction false} WithFC(f: Flags, v: u8) ensures f.WithF(v).c == BitSet(v, 4) { MaskBitOf(v, 4, 0x10); }

  lemma {:induction false} MaskBitOf(v: u8, bit: BitIndex, m: u8)
    requires m == Mask(bit)
    ensures (And(v, m) > 0) == BitSet(v, bit)
  {
    MaskTest(v, bit);
  }

  /** Unpacking then packing keeps the high nibble only. */
  lemma {:induction false} PackAfterUnpack(f: Flags, v: u8)
    ensures f.WithF(v).F() == v - v % 0x10
  {
    WithFBits(f, v);
    HighNibbleValue(v);
  }

  /** Packing then unpacking gives back the flags. */
  lemma {:induction false} UnpackAfterPack(f: Flags, g: Flags)
    ensures g.WithF(f.F()) == f
  {
    PackedFlagBits(f);
    WithFBits(g, f.F());
  }

  // ---------------------------------------------------------------------
  // Pair views

  /** A pair other than AF reads as its first register times 256 plus its
      second. */
  lemma {:induction false} PairValue(r: Registers)
    ensures r.Get(BC) == r.b * 0x100 + r.c
    ensures r.Get(DE) == r.d * 0x100 + r.e
    ensures r.Get(Register16Id.HL) == r.h * 0x100 + r.l
    ensures r.Get(AF) == r.a * 0x100 + r.flags.F()
  {
  }

  /** Setting a pair other than AF and reading it back gives the value, and
      no register outside the pair changes. */
  lemma {:induction false} SetGetPair(r: Registers, p: Register16Id, v: u16)
    requires p != AF
    ensures r.Set(p, v).Get(p) == v
    ensures r.Set(p, v).pc == r.pc && r.Set(p, v).flags == r.flags && r.Set(p, v).a == r.a
    ensures forall q: Register16Id :: q != p ==> r.Set(p, v).Get(q) == r.Get(q)
  {
    BytesRoundTrip(v, 0, 0);
  }

  /** Setting AF keeps only the high nibble of the low byte: `get(AF)` then
      reads `v & 0xFFF0`.  Nothing else changes. */
  lemma {:induction false} SetGetAF(r: Registers, v: u16)
    ensures r.Set(AF, v).Get(AF) == v - v % 0x10
    ensures forall q: Register16Id :: q != AF ==> r.Set(AF, v).Get(q) == r.Get(q)
    ensures r.Set(AF, v).pc == r.pc
  {
    var hi: int, lo: int := High(v), Low(v);
    assert v == hi * 0x100 + lo && lo % 0x10 == v % 0x10;
    PackAfterUnpack(r.flags, lo);
    assert r.Set(AF, v).Get(AF) == hi * 0x100 + (lo - lo % 0x10);
  }

  /** An 8-bit register write is read back, and only HL is refused. */
  lemma {:induction false} Set8Get8(r: Registers, id: RegisterId, other: RegisterId, v: u8)
    ensures r.Set8(id, v).Ok? <==> id != RegisterId.HL
    ensures r.Get8(id).Ok? <==> id != RegisterId.HL
    ensures id != RegisterId.HL ==> r.Set8(id, v).value.Get8(id) == Ok(v)
    ensures id != RegisterId.HL && other != id ==> r.Set8(id, v).value.Get8(other) == r.Get8(other)
    ensures id != RegisterId.HL ==> r.Set8(id, v).value.flags == r.flags && r.Set8(id, v).value.pc == r.pc
  {
  }
}
