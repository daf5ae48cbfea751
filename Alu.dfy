/**
 * The arithmetic helpers of the CPU: the carry chain `calc_with_carry`, the
 * half-carry tests, decimal adjust, the rotates and shifts, and the bit
 * instructions' byte operations.
 *
 * The shift and rotate operators of the source are written arithmetically:
 * `x << 1` on a byte is `2 * x` modulo 0x100, `x >> k` is `x / 2^k`, a mask
 * test `x & 0x80 == 0x80` is `x >= 0x80` and `x & 0x01` is `x % 2`, and an
 * OR into a bit that the shift has cleared is an addition.
 */
module Alu {
  import opened Bits
  import opened Words

  // ---------------------------------------------------------------------
  // calc_with_carry

  /** The two step functions the executor passes to `calc_with_carry`. */
  datatype Overflowing = OverflowingAdd | OverflowingSub

  /** `a.overflowing_add(b)` / `a.overflowing_sub(b)` on bytes. */
  function Overflow(op: Overflowing, a: u8, b: u8): (u8, bool)
  {
    match op
    case OverflowingAdd => ((a + b) % 0x100, a + b > 0xFF)
    case OverflowingSub => ((a - b) % 0x100, a < b)
  }

  function Sum(s: seq<u8>): nat
  {
    if |s| == 0 then 0 else Sum(s[..|s| - 1]) + s[|s| - 1]
  }

  /** `calc_with_carry`: folds the operands with `op`, and the carry, once
      raised, stays raised.  The result is the true sum (or difference)
      reduced to a byte, and the carry says whether it left the byte range. */
  method CalcWithCarry(operands: seq<u8>, op: Overflowing) returns (acc: u8, c: bool)
    requires |operands| > 0
    ensures op == OverflowingAdd ==>
      acc == Sum(operands) % 0x100 && (c <==> Sum(operands) > 0xFF)
    ensures op == OverflowingSub ==>
      acc == (operands[0] - Sum(operands[1..])) % 0x100 && (c <==> operands[0] < Sum(operands[1..]))
  {
    c := false;
    acc := operands[0];
    assert operands[..1] == [operands[0]] && [operands[0]][..0] == [];
    assert operands[1..1] == [];
    for i := 1 to |operands|
      invariant op == OverflowingAdd ==>
        acc == Sum(operands[..i]) % 0x100 && (c <==> Sum(operands[..i]) > 0xFF)
      invariant op == OverflowingSub ==>
        acc == (operands[0] - Sum(operands[1..i])) % 0x100 && (c <==> operands[0] < Sum(operands[1..i]))
    {
      var x := operands[i];
      if op == OverflowingAdd {
        assert operands[..i + 1][..i] == operands[..i];
        AddStep(acc, c, Sum(operands[..i]), x);
      } else {
        assert operands[1..i + 1][..i - 1] == operands[1..i];
        SubStep(acc, c, operands[0], Sum(operands[1..i]), x);
      }
      if !c {
        var res := Overflow(op, acc, x);
        acc := res.0;
        c := res.1;
      } else {
        acc := Overflow(op, acc, x).0;
      }
    }
    assert operands[..|operands|] == operands;
  }

  /** One step of the chain of additions keeps the accumulator the running
      sum modulo 0x100, and the carry whether the running sum passed 0xFF. */
  lemma {:induction false} AddStep(acc: u8, c: bool, total: nat, x: u8)
    requires acc == total % 0x100 && (c <==> total > 0xFF)
    ensures var res := Overflow(OverflowingAdd, acc, x);
            res.0 == (total + x) % 0x100 && (c || res.1) == (total + x > 0xFF)
  {
    DivMod256(total, total / 0x100, acc);
    DivMod256(total + x, total / 0x100 + (acc + x) / 0x100, (acc + x) % 0x100);
  }

  /** One step of the chain of subtractions keeps the accumulator the running
      difference modulo 0x100, and the carry whether it went below zero. */
  lemma {:induction false} SubStep(acc: u8, c: bool, first: u8, total: nat, x: u8)
    requires acc == (first - total) % 0x100 && (c <==> first < total)
    ensures var res := Overflow(OverflowingSub, acc, x);
            res.0 == (first - total - x) % 0x100 && (c || res.1) == (first < total + x)
  {
    DivMod256(first - total, (first - total) / 0x100, acc);
    DivMod256(first - total - x, (first - total) / 0x100 + (acc - x) / 0x100, (acc - x) % 0x100);
  }

  /** Adding a (carry) byte to a byte: a carry out of the low byte is the
      carry of the three-operand chain the executor builds. */
  lemma {:induction false} Sum3(a: u8, n: u8, cin: u8)
    ensures Sum([a, n, cin]) == a + n + cin
    ensures Sum([a, n, cin][1..]) == n + cin
  {
    var s := [a, n, cin];
    assert s[..2] == [a, n] && [a, n][..1] == [a] && [a][..0] == [];
    assert Sum([a]) == a;
    assert Sum([a, n]) == a + n;
    assert s[1..] == [n, cin] && [n, cin][..1] == [n] && [n][..0] == [];
    assert Sum([n]) == n;
  }

  // ---------------------------------------------------------------------
  // Half carries

  /** `half_carry_8_add`: a carry out of bit 3. */
  function HalfCarry8Add(a: u8, b: u8, c: u8): bool
  {
    (a % 0x10) + (b % 0x10) + c > 0xF
  }

  /** `half_carry_8_sub`: the low nibble needs a borrow from bit 4. */
  function HalfCarry8Sub(a: u8, b: u8, c: u8): bool
  {
    (a % 0x10) < (b % 0x10) + c
  }

  /** `half_carry_16_add` as written, with the mask 0x07FF: a carry out of
      bit 10.  ADD HL,rr uses it for H. */
  function HalfCarry16AddAsWritten(a: u16, b: u16, c: u16): bool
  {
    (a % 0x800) + (b % 0x800) + c > 0x7FF
  }

  /** The half carry a 16-bit addition is meant to report: a carry out of
      bit 11, i.e. the mask 0x0FFF. */
  function HalfCarry16Add(a: u16, b: u16, c: u16): bool
  {
    (a % 0x1000) + (b % 0x1000) + c > 0xFFF
  }

  // Division facts for the constant divisors the half carries use.
  lemma DivMod2(x: int, q: int, r: int)
    requires x == 2 * q + r && 0 <= r < 2
    ensures x / 2 == q && x % 2 == r
  {
  }

  lemma DivMod16(x: int, q: int, r: int)
    requires x == 0x10 * q + r && 0 <= r < 0x10
    ensures x / 0x10 == q && x % 0x10 == r
  {
  }

  lemma DivMod32(x: int, q: int, r: int)
    requires x == 0x20 * q + r && 0 <= r < 0x20
    ensures x / 0x20 == q && x % 0x20 == r
  {
  }

  lemma DivMod256(x: int, q: int, r: int)
    requires x == 0x100 * q + r && 0 <= r < 0x100
    ensures x / 0x100 == q && x % 0x100 == r
  {
  }

  lemma DivMod2048(x: int, q: int, r: int)
    requires x == 0x800 * q + r && 0 <= r < 0x800
    ensures x / 0x800 == q && x % 0x800 == r
  {
  }

  lemma DivMod4096(x: int, q: int, r: int)
    requires x == 0x1000 * q + r && 0 <= r < 0x1000
    ensures x / 0x1000 == q && x % 0x1000 == r
  {
  }

  lemma DivMod65536(x: int, q: int, r: int)
    requires x == 0x1_0000 * q + r && 0 <= r < 0x1_0000
    ensures x / 0x1_0000 == q && x % 0x1_0000 == r
  {
  }

  /** The parity of a sum. */
  lemma {:induction false} AddParity(x: int, y: int)
    ensures ((x + y) % 2 == 1) == ((x % 2 == 1) != (y % 2 == 1))
  {
    var qx, px := x / 2, x % 2;
    var qy, py := y / 2, y % 2;
    if px == 1 && py == 1 {
      DivMod2(x + y, qx + qy + 1, 0);
    } else {
      DivMod2(x + y, qx + qy, px + py);
    }
  }

  lemma {:induction false} ModParity(h: int)
    ensures (h % 0x10) % 2 == h % 2 && (h % 0x20) % 2 == h % 2
  {
    DivMod2(h, 8 * (h / 0x10) + (h % 0x10) / 2, (h % 0x10) % 2);
    DivMod2(h, 0x10 * (h / 0x20) + (h % 0x20) / 2, (h % 0x20) % 2);
  }

  /** A carry into a digit position flips the parity of the digit sum. */
  lemma {:induction false} CarryParity(pa: bool, pb: bool, pr: bool, ah: int, bh: int, carry: int)
    requires 0 <= carry <= 1
    requires pa == (ah % 2 == 1) && pb == (bh % 2 == 1) && pr == ((ah + bh + carry) % 2 == 1)
    ensures (carry == 1) == (pr != (pa != pb))
  {
    AddParity(ah + bh, carry);
    AddParity(ah, bh);
  }

  /** Bit 4, 11 and 12 of a number, as arithmetic. */
  lemma {:induction false} Bit4(x: nat)
    ensures BitSet(x, 4) == ((x / 0x10) % 2 == 1)
  {
    BitSetHigh4(x, 0);
  }

  lemma {:induction false} Bit12(x: nat)
    ensures BitSet(x, 12) == ((x / 0x1000) % 2 == 1)
  {
    var y, z := x / 0x10, x / 0x10 / 0x10;
    BitSetHigh4(x, 8);
    BitSetHigh4(y, 4);
    BitSetHigh4(z, 0);
    DivMod4096(x, z / 0x10, x - 0x1000 * (z / 0x10));
  }

  lemma {:induction false} Bit11(x: nat)
    ensures BitSet(x, 11) == ((x / 0x800) % 2 == 1)
  {
    var y, z := x / 0x10, x / 0x10 / 0x10;
    BitSetHigh4(x, 7);
    BitSetHigh4(y, 3);
    assert BitSet(z, 3) == BitSet(z / 2 / 2 / 2, 0);
    DivMod2048(x, z / 2 / 2 / 2, x - 0x800 * (z / 2 / 2 / 2));
  }

  /** With `s = 16 * hs + ls` and `ls` a nibble, bit 4 of the byte `s mod
      0x100` is the parity of `hs`. */
  lemma {:induction false} ByteDigit(s: int, hs: int, ls: int)
    requires s == 0x10 * hs + ls && 0 <= ls < 0x10 && 0 <= hs
    ensures ((s % 0x100) / 0x10) % 2 == hs % 2
  {
    DivMod16(hs, hs / 0x10, hs % 0x10);
    DivMod256(s, hs / 0x10, 0x10 * (hs % 0x10) + ls);
    DivMod16(s % 0x100, hs % 0x10, ls);
    ModParity(hs);
  }

  lemma {:induction false} WordDigit12(s: int, hs: int, ls: int)
    requires s == 0x1000 * hs + ls && 0 <= ls < 0x1000 && 0 <= hs
    ensures ((s % 0x1_0000) / 0x1000) % 2 == hs % 2
  {
    DivMod16(hs, hs / 0x10, hs % 0x10);
    DivMod65536(s, hs / 0x10, 0x1000 * (hs % 0x10) + ls);
    DivMod4096(s % 0x1_0000, hs % 0x10, ls);
    ModParity(hs);
  }

  lemma {:induction false} WordDigit11(s: int, hs: int, ls: int)
    requires s == 0x800 * hs + ls && 0 <= ls < 0x800 && 0 <= hs
    ensures ((s % 0x1_0000) / 0x800) % 2 == hs % 2
  {
    DivMod32(hs, hs / 0x20, hs % 0x20);
    DivMod65536(s, hs / 0x20, 0x800 * (hs % 0x20) + ls);
    DivMod2048(s % 0x1_0000, hs % 0x20, ls);
    ModParity(hs);
  }

  /** The 8-bit half carry is the carry that reaches bit 4 of the sum: bit 4
      of the sum differs from bit 4 of `a` xor bit 4 of `b`. */
  lemma {:induction false} HalfCarry8AddIsCarryIntoBit4(a: u8, b: u8, c: u8)
    requires c <= 1
    ensures HalfCarry8Add(a, b, c) ==
      (BitSet((a + b + c) % 0x100, 4) != (BitSet(a, 4) != BitSet(b, 4)))
  {
    var ah: int, al: int, bh: int, bl: int := a / 0x10, a % 0x10, b / 0x10, b % 0x10;
    var carry := Bit(HalfCarry8Add(a, b, c));
    ByteDigit(a + b + c, ah + bh + carry, al + bl + c - 0x10 * carry);
    Bit4((a + b + c) % 0x100);
    Bit4(a);
    Bit4(b);
    CarryParity(BitSet(a, 4), BitSet(b, 4), BitSet((a + b + c) % 0x100, 4), ah, bh, carry);
  }

  /** The 8-bit half borrow is the borrow that reaches bit 4 of the
      difference. */
  lemma {:induction false} HalfCarry8SubIsBorrowIntoBit4(a: u8, b: u8, c: u8)
    requires c <= 1
    ensures HalfCarry8Sub(a, b, c) ==
      (BitSet((a - b - c) % 0x100, 4) != (BitSet(a, 4) != BitSet(b, 4)))
  {
    var ah: int, al: int, bh: int, bl: int := a / 0x10, a % 0x10, b / 0x10, b % 0x10;
    var borrow := Bit(HalfCarry8Sub(a, b, c));
    var t := 0x10 - bh - borrow;
    ByteDigit(a - b - c + 0x100, ah + t, al - bl - c + 0x10 * borrow);
    DivMod256(a - b - c + 0x100, (a - b - c + 0x100) / 0x100, (a - b - c) % 0x100);
    AddParity(ah, t);
    AddParity(t, bh + borrow);
    AddParity(bh, borrow);
    Bit4((a - b - c) % 0x100);
    Bit4(a);
    Bit4(b);
  }

  /** The corrected 16-bit half carry is the carry that reaches bit 12 of the
      sum. */
  lemma {:induction false} HalfCarry16AddIsCarryIntoBit12(a: u16, b: u16, c: u16)
    requires c <= 1
    ensures HalfCarry16Add(a, b, c) ==
      (BitSet((a + b + c) % 0x1_0000, 12) != (BitSet(a, 12) != BitSet(b, 12)))
  {
    var ah: int, al: int, bh: int, bl: int := a / 0x1000, a % 0x1000, b / 0x1000, b % 0x1000;
    var carry := Bit(HalfCarry16Add(a, b, c));
    WordDigit12(a + b + c, ah + bh + carry, al + bl + c - 0x1000 * carry);
    Bit12((a + b + c) % 0x1_0000);
    Bit12(a);
    Bit12(b);
    CarryParity(BitSet(a, 12), BitSet(b, 12), BitSet((a + b + c) % 0x1_0000, 12), ah, bh, carry);
  }

  /** The 16-bit half carry as written is the carry that reaches bit 11, one
      bit below the carry out of bit 11. */
  lemma {:induction false} HalfCarry16AsWrittenIsCarryIntoBit11(a: u16, b: u16, c: u16)
    requires c <= 1
    ensures HalfCarry16AddAsWritten(a, b, c) ==
      (BitSet((a + b + c) % 0x1_0000, 11) != (BitSet(a, 11) != BitSet(b, 11)))
  {
    var ah: int, al: int, bh: int, bl: int := a / 0x800, a % 0x800, b / 0x800, b % 0x800;
    var carry := Bit(HalfCarry16AddAsWritten(a, b, c));
    WordDigit11(a + b + c, ah + bh + carry, al + bl + c - 0x800 * carry);
    Bit11((a + b + c) % 0x1_0000);
    Bit11(a);
    Bit11(b);
    CarryParity(BitSet(a, 11), BitSet(b, 11), BitSet((a + b + c) % 0x1_0000, 11), ah, bh, carry);
  }

  /** Two inputs on which the mask 0x07FF and a carry out of bit 11 disagree:
      0x0800 + 0x0800 carries out of bit 11 unflagged, and 0x0400 + 0x0400
      is flagged without carrying out of bit 11. */
  lemma {:induction false} HalfCarry16Counterexamples()
    ensures !HalfCarry16AddAsWritten(0x0800, 0x0800, 0) && HalfCarry16Add(0x0800, 0x0800, 0)
    ensures HalfCarry16AddAsWritten(0x0400, 0x0400, 0) && !HalfCarry16Add(0x0400, 0x0400, 0)
  {
  }

  // ---------------------------------------------------------------------
  // Signed offsets (ADD SP,e and LD HL,SP+e)

  datatype OffsetResult = OffsetResult(value: u16, h: bool, c: bool)

  /** `sp + (e as i8 as i16 as u16)`, with the half carry and carry taken
      from the low nibble and the low byte. */
  function AddSignedOffset(sp: u16, e: u8): (r: OffsetResult)
    ensures r.value == Wrap16(sp + SignedByte(e))
    ensures r.c == (sp % 0x100 + e > 0xFF)
    ensures r.h == (sp % 0x10 + e % 0x10 > 0xF)
  {
    var n := SignExtend16(e);
    OffsetResult(Wrap16(sp + n), (sp % 0x10) + (n % 0x10) > 0xF, (sp % 0x100) + (n % 0x100) > 0xFF)
  }

  // ---------------------------------------------------------------------
  // DAA

  datatype Adjusted = Adjusted(value: u8, carry: bool)

  /** DAA: the correction chosen from the N, H and C flags and the value of
      A; the carry reports whether the correction included 0x60. */
  function Daa(a: u8, n: bool, h: bool, c: bool): Adjusted
  {
    var lo := a % 0x10;
    if n then
      var added := (if h then 0x06 else 0) + (if c then 0x60 else 0);
      Adjusted((a - added) % 0x100, added >= 0x60)
    else
      var added := (if h || lo > 0x9 then 0x06 else 0) + (if c || a > 0x99 then 0x60 else 0);
      Adjusted((a + added) % 0x100, added >= 0x60)
  }

  /** A byte holding two decimal digits. */
  predicate IsBcd(x: u8)
  {
    x / 0x10 <= 9 && x % 0x10 <= 9
  }

  function BcdValue(x: u8): nat
  {
    10 * (x / 0x10) + x % 0x10
  }

  function ToBcd(v: nat): u8
    requires v < 100
  {
    (v / 10) * 0x10 + v % 10
  }

  /** After a binary ADD or ADC of two decimal bytes, DAA yields the decimal
      sum modulo 100 and sets the carry exactly when the sum reaches 100. */
  lemma {:induction false} DaaAfterAdd(x: u8, y: u8, cin: bool)
    requires IsBcd(x) && IsBcd(y)
    ensures var s := x + y + Bit(cin);
            var d := BcdValue(x) + BcdValue(y) + Bit(cin);
            Daa(s % 0x100, false, HalfCarry8Add(x, y, Bit(cin)), s > 0xFF)
              == Adjusted(ToBcd(d % 100), d >= 100)
  {
    var xh, xl, yh, yl := x / 0x10, x % 0x10, y / 0x10, y % 0x10;
    var ci := Bit(cin);
    var low := xl + yl + ci;
    var s := x + y + ci;
    assert s == 0x10 * (xh + yh) + low;
    var d := BcdValue(x) + BcdValue(y) + ci;
    assert d == 10 * (xh + yh) + low;
    DaaAddCases(xh + yh, low);
  }

  /** The arithmetic behind DaaAfterAdd, over the digit sums: `hs` of the
      high digits and `ls` of the low digits and the carry. */
  lemma {:induction false} DaaAddCases(hs: nat, ls: nat)
    requires hs <= 18 && ls <= 19
    ensures var s := 0x10 * hs + ls;
            var d := 10 * hs + ls;
            s < 0x200 &&
            Daa(s % 0x100, false, ls > 0xF, s > 0xFF) == Adjusted(ToBcd(d % 100), d >= 100)
  {
    var s := 0x10 * hs + ls;
    var d := 10 * hs + ls;
    // The digits after the low correction, and after the high one.
    var up := Bit(ls > 9);
    var h2, l2 := hs + up, ls - 10 * up;
    var wrap := Bit(h2 > 9);
    var h3 := h2 - 10 * wrap;
    var over := Bit(s > 0xFF);
    DaaConditions(hs, ls);
    var a := s % 0x100;
    var total := a + 6 * up + 0x60 * wrap;
    assert total == 0x100 * (wrap - over) + 0x10 * h3 + l2;
    DivMod256(total, wrap - over, 0x10 * h3 + l2);
    assert Daa(a, false, ls > 0xF, s > 0xFF) == Adjusted(0x10 * h3 + l2, wrap == 1);
    DivMod100(d, wrap, 10 * h3 + l2);
    DivMod10(10 * h3 + l2, h3, l2);
    assert ToBcd(d % 100) == 0x10 * h3 + l2;
    assert (d >= 100) == (wrap == 1);
  }

  /** The two tests of DAA's addition branch, over the digit sums. */
  lemma {:induction false} DaaConditions(hs: nat, ls: nat)
    requires hs <= 18 && ls <= 19
    ensures var s := 0x10 * hs + ls;
            var a := s % 0x100;
            && a == s - 0x100 * Bit(s > 0xFF)
            && (ls > 0xF || a % 0x10 > 9) == (ls > 9)
            && (s > 0xFF || a > 0x99) == (hs + Bit(ls > 9) > 9)
  {
    var s := 0x10 * hs + ls;
    var over := Bit(s > 0xFF);
    DivMod256(s, over, s - 0x100 * over);
    var a := s % 0x100;
    DivMod16(a, hs - 0x10 * over + ls / 0x10, ls % 0x10);
  }

  /** After a binary SUB or SBC of two decimal bytes, DAA yields the
      decimal difference modulo 100 and sets the carry exactly when the
      difference is negative. */
  lemma {:induction false} DaaAfterSub(x: u8, y: u8, cin: bool)
    requires IsBcd(x) && IsBcd(y)
    ensures var d := BcdValue(x) - BcdValue(y) - Bit(cin);
            Daa((x - y - Bit(cin)) % 0x100, true, HalfCarry8Sub(x, y, Bit(cin)), x < y + Bit(cin))
              == Adjusted(ToBcd(d % 100), d < 0)
  {
    var hd, l := x / 0x10 - y / 0x10, x % 0x10 - y % 0x10 - Bit(cin);
    assert x - y - Bit(cin) == 0x10 * hd + l;
    assert BcdValue(x) - BcdValue(y) - Bit(cin) == 10 * hd + l;
    DaaSubCases(hd, l);
  }

  /** The arithmetic behind DaaAfterSub, over the digit differences: `hd` of
      the high digits and `l` of the low digits less the borrow. */
  lemma {:induction false} DaaSubCases(hd: int, l: int)
    requires -9 <= hd <= 9 && -10 <= l <= 9
    ensures var s := 0x10 * hd + l;
            var d := 10 * hd + l;
            -0x100 < s < 0x100 &&
            Daa(s % 0x100, true, l < 0, s < 0) == Adjusted(ToBcd(d % 100), d < 0)
  {
    var s := 0x10 * hd + l;
    var d := 10 * hd + l;
    // The digits once the low digit has borrowed from the high one.
    var low: int := Bit(l < 0);
    var h2, l2 := hd - low, l + 10 * low;
    var neg: int := Bit(h2 < 0);
    assert s == 0x10 * h2 + l2 + 6 * low;
    assert (s < 0) == (neg == 1);
    DivMod256(s, -neg, s + 0x100 * neg);
    var total := s % 0x100 - 6 * low - 0x60 * neg;
    assert total == 0x10 * (h2 + 10 * neg) + l2;
    DivMod256(total, 0, total);
    assert Daa(s % 0x100, true, l < 0, s < 0) == Adjusted(0x10 * (h2 + 10 * neg) + l2, neg == 1);
    DivMod100(d, -neg, 10 * (h2 + 10 * neg) + l2);
    DivMod10(10 * (h2 + 10 * neg) + l2, h2 + 10 * neg, l2);
  }

  lemma DivMod10(x: int, q: int, r: int)
    requires x == 10 * q + r && 0 <= r < 10
    ensures x / 10 == q && x % 10 == r
  {
  }

  lemma DivMod100(x: int, q: int, r: int)
    requires x == 100 * q + r && 0 <= r < 100
    ensures x / 100 == q && x % 100 == r
  {
  }

  // ---------------------------------------------------------------------
  // Rotates and shifts: each yields the new byte and the bit shifted out.

  datatype Shifted = Shifted(value: u8, carry: bool)

  /** RLC / RLCA: `rotate_left(1)`; C is bit 0 of the result. */
  function Rlc(x: u8): Shifted
  {
    var v := (2 * x) % 0x100 + x / 0x80;
    Shifted(v, v % 2 == 1)
  }

  /** RRC / RRCA: `rotate_right(1)`; C is bit 7 of the result. */
  function Rrc(x: u8): Shifted
  {
    var v := x / 2 + (x % 2) * 0x80;
    Shifted(v, v >= 0x80)
  }

  /** RL / RLA: `x << 1 | carry`; C is the old bit 7. */
  function Rl(x: u8, carry: bool): Shifted
  {
    Shifted((2 * x) % 0x100 + Bit(carry), x / 0x80 != 0)
  }

  /** RR / RRA: `x >> 1 | carry << 7`; C is the old bit 0. */
  function Rr(x: u8, carry: bool): Shifted
  {
    Shifted(x / 2 + Bit(carry) * 0x80, x % 2 != 0)
  }

  /** SLA: `x << 1`; C is the old bit 7. */
  function Sla(x: u8): Shifted
  {
    Shifted((2 * x) % 0x100, x >= 0x80)
  }

  /** SRA: `(x >> 1) | (x & 0x80)`; C is the old bit 0. */
  function Sra(x: u8): Shifted
  {
    Shifted(x / 2 + (if x >= 0x80 then 0x80 else 0), x % 2 == 1)
  }

  /** SRL: `x >> 1`; C is the old bit 0. */
  function Srl(x: u8): Shifted
  {
    Shifted(x / 2, x % 2 == 1)
  }

  /** SWAP: `((x & 0x0F) << 4) | ((x & 0xF0) >> 4)`. */
  function Swap(x: u8): u8
  {
    (x % 0x10) * 0x10 + x / 0x10
  }

  lemma DivMod128(x: int, q: int, r: int)
    requires x == 0x80 * q + r && 0 <= r < 0x80
    ensures x / 0x80 == q && x % 0x80 == r
  {
  }

  /** Doubling a byte modulo 0x100 drops its bit 7. */
  lemma {:induction false} DoubleByte(x: u8)
    ensures (2 * x) % 0x100 == 2 * (x % 0x80)
  {
    DivMod256(2 * x, x / 0x80, 2 * (x % 0x80));
  }

  /** RLC moves bit 7 to bit 0 and reports it as the carry. */
  lemma {:induction false} RlcValue(x: u8)
    ensures Rlc(x).value == 2 * (x % 0x80) + x / 0x80
    ensures Rlc(x).carry == (x >= 0x80)
  {
    DoubleByte(x);
    DivMod2(2 * (x % 0x80) + x / 0x80, x % 0x80, x / 0x80);
  }

  /** The carry of every rotate and shift is the bit that leaves the byte. */
  lemma {:induction false} CarryIsShiftedOutBit(x: u8, carry: bool)
    ensures Rlc(x).carry == BitSet(x, 7) && Rl(x, carry).carry == BitSet(x, 7)
    ensures Sla(x).carry == BitSet(x, 7)
    ensures Rrc(x).carry == BitSet(x, 0) && Rr(x, carry).carry == BitSet(x, 0)
    ensures Sra(x).carry == BitSet(x, 0) && Srl(x).carry == BitSet(x, 0)
  {
    EndBits(x);
    RlcValue(x);
  }

  /** Rotating left then right (or right then left) gives back the byte. */
  lemma {:induction false} RotateInverse(x: u8)
    ensures Rrc(Rlc(x).value).value == x
    ensures Rlc(Rrc(x).value).value == x
  {
    RrcUndoesRlc(x);
    RlcUndoesRrc(x);
  }

  lemma {:induction false} RrcUndoesRlc(x: u8)
    ensures Rrc(Rlc(x).value).value == x
  {
    RlcValue(x);
    var v := 2 * (x % 0x80) + x / 0x80;
    DivMod2(v, x % 0x80, x / 0x80);
  }

  lemma {:induction false} RlcUndoesRrc(x: u8)
    ensures Rlc(Rrc(x).value).value == x
  {
    var w := Rrc(x).value;
    RlcValue(w);
    DivMod128(w, x % 2, x / 2);
  }

  /** Rotating through the carry left then right (or right then left) gives
      back both the byte and the carry. */
  lemma {:induction false} RotateThroughCarryInverse(x: u8, carry: bool)
    ensures var r := Rl(x, carry); Rr(r.value, r.carry) == Shifted(x, carry)
    ensures var r := Rr(x, carry); Rl(r.value, r.carry) == Shifted(x, carry)
  {
    DoubleByte(x);
    var v := 2 * (x % 0x80) + Bit(carry);
    DivMod2(v, x % 0x80, Bit(carry));
    var w := Rr(x, carry).value;
    DoubleByte(w);
    DivMod128(w, Bit(carry), x / 2);
  }

  /** SRA halves the signed value, rounding down, so it keeps bit 7. */
  lemma {:induction false} SraHalvesSigned(x: u8)
    ensures SignedByte(Sra(x).value) == SignedByte(x) / 2
    ensures (Sra(x).value >= 0x80) == (x >= 0x80)
  {
  }

  /** SRL then SLA clears bit 0; SLA then SRL clears bit 7. */
  lemma {:induction false} ShiftsLoseOneBit(x: u8)
    ensures Sla(Srl(x).value).value == x - x % 2
    ensures Srl(Sla(x).value).value == x % 0x80
  {
  }

  /** SWAP exchanges the nibbles, and applying it twice is the identity. */
  lemma {:induction false} SwapNibbles(x: u8)
    ensures Swap(x) / 0x10 == x % 0x10 && Swap(x) % 0x10 == x / 0x10
    ensures Swap(Swap(x)) == x
  {
  }

  // ---------------------------------------------------------------------
  // BIT, SET and RES

  /** The Z flag of BIT: `n & (1 << bit) == 0`. */
  function BitIsClear(n: u8, bit: BitIndex): bool
  {
    And(n, Mask(bit)) == 0
  }

  /** SET: `n | (1 << bit)`. */
  function SetBit(n: u8, bit: BitIndex): u8
  {
    Or(n, Mask(bit))
  }

  /** RES: `n & (0xFF ^ (1 << bit))`. */
  function ResetBit(n: u8, bit: BitIndex): u8
  {
    And(n, Xor(0xFF, Mask(bit)))
  }

  lemma {:induction false} BitIsClearIff(n: u8, bit: BitIndex)
    ensures BitIsClear(n, bit) <==> !BitSet(n, bit)
  {
    MaskTest(n, bit);
  }

  /** SET turns on the chosen bit and keeps every other bit. */
  lemma {:induction false} SetBitBits(n: u8, bit: BitIndex)
    ensures forall i: BitIndex :: BitSet(SetBit(n, bit), i) == (i == bit || BitSet(n, i))
  {
    OrBits(n, Mask(bit));
    MaskBits(bit);
  }

  lemma {:induction false} AllOnes(i: BitIndex)
    ensures BitSet(0xFF, i)
  {
    Pow2Byte(8);
    ComplementBits(0, 8, i);
    ZeroBits(i);
  }

  /** RES turns off the chosen bit and keeps every other bit. */
  lemma {:induction false} ResetBitBits(n: u8, bit: BitIndex)
    ensures forall i: BitIndex :: BitSet(ResetBit(n, bit), i) == (i != bit && BitSet(n, i))
  {
    var m := Xor(0xFF, Mask(bit));
    XorBits(0xFF, Mask(bit));
    MaskBits(bit);
    forall i: BitIndex ensures BitSet(m, i) == (i != bit) {
      AllOnes(i);
    }
    AndBits(n, m);
  }
}
