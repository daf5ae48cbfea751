/**
 * Bytes and their bits.
 *
 * A byte is an integer in [0, 0x100).  Bit `i` of a value is read off by
 * repeated halving, and the bitwise operators of the emulator (`&`, `|`,
 * `^`, `!`, `1 << bit`) are defined bit by bit from it, so every property
 * below is plain integer reasoning.
 */
module Bits {

  type u8 = x: int | 0 <= x < 0x100

  /** Index of a bit inside a byte, 0 = least significant. */
  type BitIndex = i: int | 0 <= i < 8

  function Pow2(k: nat): nat
  {
    if k == 0 then 1 else 2 * Pow2(k - 1)
  }

  /** 1 for true, 0 for false, as the emulator's `if b { 1 } else { 0 }`. */
  function Bit(b: bool): nat
  {
    if b then 1 else 0
  }

  /** Bit `i` of `x` is set. */
  predicate BitSet(x: nat, i: nat)
    decreases i
  {
    if i == 0 then x % 2 == 1 else BitSet(x / 2, i - 1)
  }

  lemma {:induction false} BitSetStep(b: bool, y: nat, i: nat)
    ensures BitSet(Bit(b) + 2 * y, i) == (if i == 0 then b else BitSet(y, i - 1))
  {
    if i > 0 {
      assert (Bit(b) + 2 * y) / 2 == y;
    }
  }

  lemma {:induction false} Pow2Byte(k: nat)
    ensures 0 < Pow2(k)
    ensures k < 8 ==> Pow2(k) <= 0x80
    ensures k == 8 ==> Pow2(k) == 0x100
    decreases k
  {
    if k > 0 {
      Pow2Byte(k - 1);
    }
    if k == 8 {
      assert Pow2(8) == 0x100;
    }
  }

  /** No bit of zero is set. */
  lemma {:induction false} ZeroBits(i: nat)
    ensures !BitSet(0, i)
    decreases i
  {
    if i > 0 {
      ZeroBits(i - 1);
    }
  }

  /** A value below 2^w has no bit at or above w. */
  lemma {:induction false} HighBitsClear(x: nat, w: nat, i: nat)
    requires x < Pow2(w) && w <= i
    ensures !BitSet(x, i)
    decreases i
  {
    if w == 0 {
      assert x == 0;
      ZeroBits(i);
    } else {
      HighBitsClear(x / 2, w - 1, i - 1);
    }
  }

  /** A nonzero value below 2^w has one of its low w bits set. */
  lemma {:induction false} NonzeroHasBit(x: nat, w: nat)
    requires 0 < x < Pow2(w)
    ensures exists i :: 0 <= i < w && BitSet(x, i)
    decreases w
  {
    if x % 2 == 0 {
      NonzeroHasBit(x / 2, w - 1);
      var j :| 0 <= j < w - 1 && BitSet(x / 2, j);
      assert BitSet(x, j + 1);
    } else {
      assert BitSet(x, 0);
    }
  }

  datatype BitOp = AndOp | OrOp | XorOp

  function Apply(op: BitOp, p: bool, q: bool): bool
  {
    match op
    case AndOp => p && q
    case OrOp => p || q
    case XorOp => p != q
  }

  /** `op` applied to the low `width` bits of `a` and `b`, bit by bit. */
  function Bitwise(op: BitOp, a: nat, b: nat, width: nat): nat
    decreases width
  {
    if width == 0 then 0
    else Bit(Apply(op, a % 2 == 1, b % 2 == 1)) + 2 * Bitwise(op, a / 2, b / 2, width - 1)
  }

  lemma {:induction false} BitwiseBits(op: BitOp, a: nat, b: nat, width: nat, i: nat)
    requires i < width
    ensures BitSet(Bitwise(op, a, b, width), i) == Apply(op, BitSet(a, i), BitSet(b, i))
    decreases width
  {
    BitSetStep(Apply(op, a % 2 == 1, b % 2 == 1), Bitwise(op, a / 2, b / 2, width - 1), i);
    if i > 0 {
      BitwiseBits(op, a / 2, b / 2, width - 1, i - 1);
    }
  }

  lemma {:induction false} BitwiseBound(op: BitOp, a: nat, b: nat, width: nat)
    ensures Bitwise(op, a, b, width) < Pow2(width)
    decreases width
  {
    if width > 0 {
      BitwiseBound(op, a / 2, b / 2, width - 1);
    }
  }

  /** `a & b` on bytes. */
  function And(a: u8, b: u8): u8
  {
    BitwiseBound(AndOp, a, b, 8);
    Pow2Byte(8);
    Bitwise(AndOp, a, b, 8)
  }

  /** `a | b` on bytes. */
  function Or(a: u8, b: u8): u8
  {
    BitwiseBound(OrOp, a, b, 8);
    Pow2Byte(8);
    Bitwise(OrOp, a, b, 8)
  }

  /** `a ^ b` on bytes. */
  function Xor(a: u8, b: u8): u8
  {
    BitwiseBound(XorOp, a, b, 8);
    Pow2Byte(8);
    Bitwise(XorOp, a, b, 8)
  }

  lemma {:induction false} AndBits(a: u8, b: u8)
    ensures forall i: BitIndex :: BitSet(And(a, b), i) == (BitSet(a, i) && BitSet(b, i))
  {
    forall i: BitIndex ensures BitSet(And(a, b), i) == (BitSet(a, i) && BitSet(b, i)) {
      BitwiseBits(AndOp, a, b, 8, i);
    }
  }

  lemma {:induction false} OrBits(a: u8, b: u8)
    ensures forall i: BitIndex :: BitSet(Or(a, b), i) == (BitSet(a, i) || BitSet(b, i))
  {
    forall i: BitIndex ensures BitSet(Or(a, b), i) == (BitSet(a, i) || BitSet(b, i)) {
      BitwiseBits(OrOp, a, b, 8, i);
    }
  }

  lemma {:induction false} XorBits(a: u8, b: u8)
    ensures forall i: BitIndex :: BitSet(Xor(a, b), i) == (BitSet(a, i) != BitSet(b, i))
  {
    forall i: BitIndex ensures BitSet(Xor(a, b), i) == (BitSet(a, i) != BitSet(b, i)) {
      BitwiseBits(XorOp, a, b, 8, i);
    }
  }

  /** `!a` on a byte: the complement within eight bits. */
  function Not(a: u8): u8
  {
    0xFF - a
  }

  lemma {:induction false} ComplementBits(a: nat, w: nat, i: nat)
    requires a < Pow2(w) && i < w
    ensures BitSet(Pow2(w) - 1 - a, i) == !BitSet(a, i)
    decreases w
  {
    var p := Pow2(w - 1);
    var q := a / 2;
    assert Pow2(w) - 1 - a == Bit(a % 2 == 0) + 2 * (p - 1 - q);
    BitSetStep(a % 2 == 0, p - 1 - q, i);
    if i > 0 {
      ComplementBits(q, w - 1, i - 1);
    }
  }

  lemma {:induction false} NotBits(a: u8)
    ensures forall i: BitIndex :: BitSet(Not(a), i) == !BitSet(a, i)
  {
    Pow2Byte(8);
    forall i: BitIndex ensures BitSet(Not(a), i) == !BitSet(a, i) {
      ComplementBits(a, 8, i);
    }
  }

  /** `1 << bit` on a byte. */
  function Mask(bit: BitIndex): u8
  {
    match bit
    case 0 => 0x01
    case 1 => 0x02
    case 2 => 0x04
    case 3 => 0x08
    case 4 => 0x10
    case 5 => 0x20
    case 6 => 0x40
    case 7 => 0x80
  }

  lemma {:induction false} MaskIsPow2(bit: BitIndex)
    ensures Mask(bit) == Pow2(bit)
  {
    match bit
    case 0 => assert Pow2(0) == 1;
    case 1 => assert Pow2(1) == 2;
    case 2 => assert Pow2(2) == 4;
    case 3 => assert Pow2(3) == 8;
    case 4 => assert Pow2(4) == 16;
    case 5 => assert Pow2(5) == 32;
    case 6 => assert Pow2(6) == 64;
    case 7 => assert Pow2(7) == 128;
  }

  lemma {:induction false} Pow2Bits(k: nat, i: nat)
    ensures BitSet(Pow2(k), i) == (i == k)
    decreases k
  {
    if k == 0 {
      BitSetStep(true, 0, i);
      if i > 0 {
        ZeroBits(i - 1);
      }
    } else {
      BitSetStep(false, Pow2(k - 1), i);
      if i > 0 {
        Pow2Bits(k - 1, i - 1);
      }
    }
  }

  /** The mask `1 << bit` has exactly bit `bit` set. */
  lemma {:induction false} MaskBits(bit: BitIndex)
    ensures forall i: BitIndex :: BitSet(Mask(bit), i) == (i == bit)
  {
    MaskIsPow2(bit);
    forall i: BitIndex ensures BitSet(Mask(bit), i) == (i == bit) {
      Pow2Bits(bit, i);
    }
  }

  lemma {:induction false} ByteZeroIff(x: u8)
    ensures x == 0 <==> forall i: BitIndex :: !BitSet(x, i)
  {
    if x == 0 {
      forall i: BitIndex ensures !BitSet(x, i) {
        ZeroBits(i);
      }
    } else {
      Pow2Byte(8);
      NonzeroHasBit(x, 8);
    }
  }

  /** Testing one bit through a mask, as `n & (1 << bit) == 0` does. */
  lemma {:induction false} MaskTest(n: u8, bit: BitIndex)
    ensures (And(n, Mask(bit)) == 0) == !BitSet(n, bit)
  {
    var m := And(n, Mask(bit));
    AndBits(n, Mask(bit));
    MaskBits(bit);
    ByteZeroIff(m);
    if BitSet(n, bit) {
      assert BitSet(m, bit);
    } else {
      forall i: BitIndex ensures !BitSet(m, i) {
        assert BitSet(m, i) == (BitSet(n, i) && i == bit);
      }
    }
  }

  /** Bit 7 of a byte is its top half; bit 0 its parity. */
  lemma {:induction false} EndBits(x: u8)
    ensures BitSet(x, 7) == (x >= 0x80)
    ensures BitSet(x, 0) == (x % 2 == 1)
  {
    var x1 := x / 2;
    var x2 := x1 / 2;
    var x3 := x2 / 2;
    var x4 := x3 / 2;
    var x5 := x4 / 2;
    var x6 := x5 / 2;
    assert x6 == x / 64;
    assert BitSet(x, 7) == BitSet(x6, 1);
  }

  /** Bits 4 and up of `x` are the bits of `x / 16`. */
  lemma {:induction false} BitSetHigh4(x: nat, j: nat)
    ensures BitSet(x, j + 4) == BitSet(x / 0x10, j)
  {
    var x1 := x / 2;
    var x2 := x1 / 2;
    var x3 := x2 / 2;
    assert x3 / 2 == x / 0x10;
    assert BitSet(x, j + 4) == BitSet(x1, j + 3);
    assert BitSet(x1, j + 3) == BitSet(x2, j + 2);
  }

  /** A nibble is the sum of its bits. */
  lemma {:induction false} NibbleBits(q: nat)
    requires q < 0x10
    ensures q == 8 * Bit(BitSet(q, 3)) + 4 * Bit(BitSet(q, 2)) + 2 * Bit(BitSet(q, 1)) + Bit(BitSet(q, 0))
  {
    var q1 := q / 2;
    var q2 := q1 / 2;
    var q3 := q2 / 2;
    assert q == 2 * q1 + q % 2;
    assert q1 == 2 * q2 + q1 % 2;
    assert q2 == 2 * q3 + q2 % 2;
    assert q3 <= 1;
    assert Bit(BitSet(q, 1)) == q1 % 2;
    assert Bit(BitSet(q, 2)) == q2 % 2;
    assert Bit(BitSet(q, 3)) == q3;
  }

  /** Two bytes with the same bits are equal. */
  lemma {:induction false} BitsDetermine(x: nat, y: nat, w: nat)
    requires x < Pow2(w) && y < Pow2(w)
    requires forall i :: 0 <= i < w ==> BitSet(x, i) == BitSet(y, i)
    ensures x == y
    decreases w
  {
    if w > 0 {
      assert BitSet(x, 0) == BitSet(y, 0);
      forall i | 0 <= i < w - 1 ensures BitSet(x / 2, i) == BitSet(y / 2, i) {
        assert BitSet(x, i + 1) == BitSet(y, i + 1);
      }
      BitsDetermine(x / 2, y / 2, w - 1);
    }
  }

  lemma {:induction false} ByteBitsDetermine(x: u8, y: u8)
    requires forall i: BitIndex :: BitSet(x, i) == BitSet(y, i)
    ensures x == y
  {
    Pow2Byte(8);
    BitsDetermine(x, y, 8);
  }
}
