/**
 Laws between the ALU helpers, each of which the source writes out on its own: INC is ADD 1,
 CP is SUB, rotations undo one another, SET and RES are seen by BIT.
 */
module Z80AluLaws {
  import opened Bytes
  import opened Z80State
  import opened Z80Alu
  import opened Z80Exec
  import opened Z80Ed

  /** The flag byte f with another C. */
  function WithC(f: byte, c: bool): byte { MkF(FS(f), FZ(f), FY(f), FH(f), FX(f), FP(f), FN(f), c) }

  /** The flag byte f with Y and X taken from v. */
  function WithYX(f: byte, v: byte): byte { MkF(FS(f), FZ(f), B5(v), FH(f), B3(v), FP(f), FN(f), FC(f)) }

  lemma WithCOfMkF(s: bool, z: bool, y: bool, h: bool, x: bool, p: bool, n: bool, c: bool, d: bool)
    ensures WithC(MkF(s, z, y, h, x, p, n, c), d) == MkF(s, z, y, h, x, p, n, d)
  {
    hide MkF, FS, FZ, FY, FH, FX, FP, FN;
    MkFBits(s, z, y, h, x, p, n, c);
  }

  lemma WithYXOfMkF(s: bool, z: bool, y: bool, h: bool, x: bool, p: bool, n: bool, c: bool, v: byte)
    ensures WithYX(MkF(s, z, y, h, x, p, n, c), v) == MkF(s, z, B5(v), h, B3(v), p, n, c)
  {
    hide MkF, FS, FZ, FY, FH, FX, FP, FN, FC, B5, B3;
    MkFBits(s, z, y, h, x, p, n, c);
  }

  /** INC is an addition of 1 that keeps C: value, sign, zero, half-carry, overflow. */
  lemma IncIsAdd(v: byte, f: byte)
    ensures var r := AluAdd(v, 1, false); Inc8(v, f) == Res(r.v, WithC(r.f, FC(f)))
  {
    hide MkF, FC, WithC, B5, B3;
    var r := B(v + 1);
    WithCOfMkF(Neg(r), r == 0, B5(r), v % 0x10 + 1 > 0x0F, B3(r), Neg(v) != Neg(r) && Neg(1) != Neg(r), false,
               v + 1 > 0xFF, FC(f));
    assert (v % 0x10 == 0x0F) == (v % 0x10 + 1 % 0x10 + Num(false) > 0x0F);
    assert (r == 0x80) == (Neg(v) != Neg(r) && Neg(1) != Neg(r));
  }

  /** DEC is a subtraction of 1 that keeps C. */
  lemma DecIsSub(v: byte, f: byte)
    ensures var r := AluSub(v, 1, false); Dec8(v, f) == Res(r.v, WithC(r.f, FC(f)))
  {
    hide MkF, FC, WithC, B5, B3;
    var r := B(v - 1);
    WithCOfMkF(Neg(r), r == 0, B5(r), v % 0x10 - 1 < 0, B3(r), Neg(v) != Neg(1) && Neg(v) != Neg(r), true,
               v - 1 < 0, FC(f));
    assert (v % 0x10 == 0) == (v % 0x10 - 1 % 0x10 - Num(false) < 0);
    assert (r == 0x7F) == (Neg(v) != Neg(1) && Neg(v) != Neg(r));
  }

  /** CP sets the flags of SUB, but Y and X of the operand, and leaves A. */
  lemma CpIsSub(a: byte, b: byte)
    ensures AluCp(a, b) == Res(a, WithYX(AluSub(a, b, false).f, b))
  {
    hide MkF, WithYX, B5, B3;
    var r := B(a - b);
    WithYXOfMkF(Neg(r), r == 0, B5(r), a % 0x10 - b % 0x10 < 0, B3(r), Neg(a) != Neg(b) && Neg(a) != Neg(r), true,
                a - b < 0, b);
  }

  lemma SignedSum(a: byte, b: byte, c: bool)
    ensures var r := B(a + b + Num(c));
            (Neg(a) != Neg(r) && Neg(b) != Neg(r)) <==> !(-0x80 <= Signed(a) + Signed(b) + Num(c) < 0x80)
  {
  }

  lemma SignedDifference(a: byte, b: byte, c: bool)
    ensures var r := B(a - b - Num(c));
            (Neg(a) != Neg(b) && Neg(a) != Neg(r)) <==> !(-0x80 <= Signed(a) - Signed(b) - Num(c) < 0x80)
  {
  }

  /** P/V of an addition or subtraction is two's-complement overflow. */
  lemma OverflowFlag(a: byte, b: byte, c: bool)
    ensures FP(AluAdd(a, b, c).f) <==> !(-0x80 <= Signed(a) + Signed(b) + Num(c) < 0x80)
    ensures FP(AluSub(a, b, c).f) <==> !(-0x80 <= Signed(a) - Signed(b) - Num(c) < 0x80)
  {
    hide MkF, FP, B5, B3, Neg, Signed, B;
    var r, q := B(a + b + Num(c)), B(a - b - Num(c));
    SignedSum(a, b, c);
    SignedDifference(a, b, c);
    MkFBits(Neg(r), r == 0, B5(r), a % 0x10 + b % 0x10 + Num(c) > 0x0F, B3(r),
            Neg(a) != Neg(r) && Neg(b) != Neg(r), false, a + b + Num(c) > 0xFF);
    MkFBits(Neg(q), q == 0, B5(q), a % 0x10 - b % 0x10 - Num(c) < 0, B3(q),
            Neg(a) != Neg(b) && Neg(a) != Neg(q), true, a - b - Num(c) < 0);
  }

  // ---- Rotations ------------------------------------------------------------------------

  lemma RotCarryOut(idx: int, v: byte, f: byte)
    ensures FC(Rot(idx, v, f).f) == RotCarry(idx, v)
  {
    hide MkF, FC, RotValue, RotCarry, Parity, Neg, B5, B3;
    var r := RotValue(idx, v, f);
    MkFBits(Neg(r), r == 0, B5(r), false, B3(r), Parity(r), false, RotCarry(idx, v));
  }

  /** Shifting b in on one side and the lost bit back in on the other. */
  lemma ThereAndBack(v: byte, b: bool)
    ensures ShrIn(ShlIn(v, b), Neg(v)) == v && Odd(ShlIn(v, b)) == b
    ensures ShlIn(ShrIn(v, b), Odd(v)) == v && Neg(ShrIn(v, b)) == b
  {
  }

  /** RRC undoes RLC and RLC undoes RRC. */
  lemma CircularInverse(v: byte, f: byte, g: byte)
    ensures Rot(1, Rot(0, v, f).v, g).v == v && Rot(0, Rot(1, v, f).v, g).v == v
  {
    hide RotFlags, FC, ShlIn, ShrIn, Odd, Neg;
    ThereAndBack(v, Neg(v));
    ThereAndBack(v, Odd(v));
  }

  /** RL and RR rotate nine bits, carry included, and undo one another. */
  lemma ThroughCarryInverse(v: byte, f: byte)
    ensures var r := Rot(2, v, f);
            var b := Rot(3, r.v, r.f);
            b.v == v && FC(b.f) == FC(f)
    ensures var r := Rot(3, v, f);
            var b := Rot(2, r.v, r.f);
            b.v == v && FC(b.f) == FC(f)
  {
    hide RotFlags, FC, ShlIn, ShrIn, Odd, Neg;
    ThereAndBack(v, FC(f));
    RotCarryOut(2, v, f);
    RotCarryOut(3, v, f);
    RotCarryOut(3, Rot(2, v, f).v, Rot(2, v, f).f);
    RotCarryOut(2, Rot(3, v, f).v, Rot(3, v, f).f);
  }

  /** What comes in at the open end. */
  predicate ComesIn(idx: int, v: byte, f: byte) {
    if idx == 0 then Neg(v) else if idx == 1 then Odd(v) else if idx == 2 || idx == 3 then FC(f)
    else if idx == 5 then Neg(v) else idx == 6
  }

  lemma ShiftIn(v: byte, b: bool)
    ensures 2 * v + Num(b) == 0x100 * Num(Neg(v)) + ShlIn(v, b)
    ensures v + 0x100 * Num(b) == 2 * ShrIn(v, b) + Num(Odd(v))
  {
  }

  /** Left shifts double and right shifts halve, the carry taking the bit that falls out. */
  lemma ShiftArithmetic(idx: int, v: byte, f: byte)
    requires 0 <= idx < 8
    ensures var r := Rot(idx, v, f);
            if idx % 2 == 0 then 2 * v + Num(ComesIn(idx, v, f)) == 0x100 * Num(FC(r.f)) + r.v
            else v + 0x100 * Num(ComesIn(idx, v, f)) == 2 * r.v + Num(FC(r.f))
  {
    hide RotFlags, FC, ShlIn, ShrIn, Odd, Neg, Num;
    RotCarryOut(idx, v, f);
    ShiftIn(v, ComesIn(idx, v, f));
  }

  /** SRA halves a signed byte, rounding down. */
  lemma SraHalves(v: byte, f: byte)
    ensures Signed(Rot(5, v, f).v) == Signed(v) / 2
  {
    hide RotFlags, FC;
  }

  /** RLCA, RRCA, RLA and RRA move A and C as the CB forms do and keep S, Z and P/V. */
  lemma AccumulatorRotation(idx: int, a: byte, f: byte)
    ensures var r, q := AccRot(idx, a, f), Rot(idx, a, f);
            && r.v == q.v && FC(r.f) == FC(q.f)
            && FS(r.f) == FS(f) && FZ(r.f) == FZ(f) && FP(r.f) == FP(f) && !FH(r.f) && !FN(r.f)
  {
    RotCarryOut(idx, a, f);
    hide MkF, FC, FS, FZ, FP, FH, FN, RotValue, RotCarry, B5, B3, RotFlags;
    var r := RotValue(idx, a, f);
    MkFBits(FS(f), FZ(f), B5(r), false, B3(r), FP(f), false, RotCarry(idx, a));
  }

  // ---- Bits -----------------------------------------------------------------------------

  /** Shifting one further halves once more. */
  lemma HalfAgain(v: bv8, w: bv8, x: bv8, m: int)
    requires m > 0 && w as int == v as int / m && x == w >> 1
    ensures x as int == v as int / (2 * m)
  {
    LowBit(w);
    NestedHalf(v as int, m);
  }

  lemma NestedHalf(v: nat, m: int)
    requires m > 0
    ensures v / m / 2 == v / (2 * m)
  {
    var q, r := v / m, v % m;
    var h, b := q / 2, q % 2;
    assert v == (2 * m) * h + (m * b + r);
    assert 0 <= m * b + r < 2 * m;
    Division(v, 2 * m, h, m * b + r);
  }

  lemma Halvings(v: bv8)
    ensures v as int / 2 == (v >> 1) as int && v as int / 4 == (v >> 2) as int && v as int / 8 == (v >> 3) as int
    ensures v as int / 16 == (v >> 4) as int && v as int / 32 == (v >> 5) as int
    ensures v as int / 64 == (v >> 6) as int && v as int / 128 == (v >> 7) as int
  {
    HalfAgain(v, v, v >> 1, 1);
    HalfAgain(v, v >> 1, v >> 2, 2);
    HalfAgain(v, v >> 2, v >> 3, 4);
    HalfAgain(v, v >> 3, v >> 4, 8);
    HalfAgain(v, v >> 4, v >> 5, 16);
    HalfAgain(v, v >> 5, v >> 6, 32);
    HalfAgain(v, v >> 6, v >> 7, 64);
  }

  function MaskBv(n: int): bv8
    requires 0 <= n < 8
  {
    if n == 0 then 1 else if n == 1 then 2 else if n == 2 then 4 else if n == 3 then 8
    else if n == 4 then 16 else if n == 5 then 32 else if n == 6 then 64 else 128
  }

  lemma BvTests(v: bv8)
    ensures (v & 1 == 1 <==> v & 1 != 0) && ((v >> 1) & 1 == 1 <==> v & 2 != 0)
    ensures ((v >> 2) & 1 == 1 <==> v & 4 != 0) && ((v >> 3) & 1 == 1 <==> v & 8 != 0)
    ensures ((v >> 4) & 1 == 1 <==> v & 16 != 0) && ((v >> 5) & 1 == 1 <==> v & 32 != 0)
    ensures ((v >> 6) & 1 == 1 <==> v & 64 != 0) && ((v >> 7) & 1 == 1 <==> v & 128 != 0)
  {
  }

  lemma OddIs(v: bv8)
    ensures (v as int) % 2 == 1 <==> v & 1 == 1
  {
    LowBit(v);
  }

  /** Bit n, once it has been shifted down to the bottom. */
  lemma ShiftedBit(v: int, n: int, w: bv8)
    requires 0 <= n < 8 && 0 <= v < 0x100 && w as int == v / Mask(n)
    ensures Bit(v, n) <==> w & 1 == 1
  {
    OddIs(w);
  }

  /** The arithmetic bit test is the masking one. */
  lemma BitOf(v: bv8, n: int)
    requires 0 <= n < 8
    ensures Bit(v as int, n) <==> v & MaskBv(n) != 0
  {
    hide Bit;
    Halvings(v);
    BvTests(v);
    if n == 0 {
      ShiftedBit(v as int, 0, v);
    } else if n == 1 {
      ShiftedBit(v as int, 1, v >> 1);
    } else if n == 2 {
      ShiftedBit(v as int, 2, v >> 2);
    } else if n == 3 {
      ShiftedBit(v as int, 3, v >> 3);
    } else if n == 4 {
      ShiftedBit(v as int, 4, v >> 4);
    } else if n == 5 {
      ShiftedBit(v as int, 5, v >> 5);
    } else if n == 6 {
      ShiftedBit(v as int, 6, v >> 6);
    } else {
      ShiftedBit(v as int, 7, v >> 7);
    }
  }

  lemma MaskIs(n: int, m: byte)
    requires 0 <= n < 8 && m == Mask(n)
    ensures m as bv8 == MaskBv(n)
  {
  }

  /** The mask that clears bit n. */
  function ClearBv(n: int): bv8
    requires 0 <= n < 8
  {
    !MaskBv(n)
  }

  lemma ClearMaskIs(n: int, g: byte)
    requires 0 <= n < 8 && g == 0xFF - Mask(n)
    ensures g as bv8 == ClearBv(n)
  {
  }

  lemma SetAndClear(v: bv8, b: int, n: int)
    requires 0 <= b < 8 && 0 <= n < 8
    ensures (v | MaskBv(b)) & MaskBv(n) != 0 <==> n == b || v & MaskBv(n) != 0
    ensures (v & ClearBv(b)) & MaskBv(n) != 0 <==> n != b && v & MaskBv(n) != 0
  {
  }

  lemma SetIs(v: bv8, b: int, m: byte)
    requires 0 <= b < 8 && m == Mask(b)
    ensures Or(v as int, m) == (v | MaskBv(b)) as int
  {
    hide Mask, MaskBv, Or;
    MaskIs(b, m);
    BvBack(v);
    OrIs(v as int, m, v, MaskBv(b));
  }

  lemma ResIs(v: bv8, b: int, g: byte)
    requires 0 <= b < 8 && g == 0xFF - Mask(b)
    ensures And(v as int, g) == (v & ClearBv(b)) as int
  {
    hide Mask, MaskBv, ClearBv, And;
    ClearMaskIs(b, g);
    BvBack(v);
    AndIs(v as int, g, v, ClearBv(b));
  }

  /** After SET b exactly bit b is new, after RES b exactly bit b is gone. */
  lemma SetAndReset(v: bv8, b: int, n: int)
    requires 0 <= b < 8 && 0 <= n < 8
    ensures Bit(SetBit(b, v as int), n) <==> n == b || Bit(v as int, n)
    ensures Bit(ResBit(b, v as int), n) <==> n != b && Bit(v as int, n)
  {
    hide Bit, MaskBv, ClearBv, Mask, Or, And;
    SetIs(v, b, Mask(b));
    ResIs(v, b, 0xFF - Mask(b));
    BitOf(v | MaskBv(b), n);
    BitOf(v & ClearBv(b), n);
    BitOf(v, n);
    SetAndClear(v, b, n);
  }

  /** BIT b answers in Z and P/V alike, sets H, clears N and keeps C. */
  lemma BitTest(b: int, v: byte, yx: byte, f: byte)
    requires 0 <= b < 8
    ensures var r := BitFlags(b, v, yx, f);
            && FZ(r) == !Bit(v, b) && FP(r) == FZ(r) && FS(r) == (b == 7 && Bit(v, 7))
            && FH(r) && !FN(r) && FC(r) == FC(f) && FY(r) == B5(yx) && FX(r) == B3(yx)
  {
    hide MkF, FS, FZ, FY, FH, FX, FP, FN, FC, B5, B3, Bit;
    var on := Bit(v, b);
    MkFBits(on && b == 7, !on, B5(yx), true, B3(yx), !on, false, FC(f));
  }

  lemma NibbleStep(s: Cpu, left: bool)
    ensures var t := EdNibbles(s, left).s;
            var a, m := RegA(s), s.ram[s.hl];
            && RegA(t) == a / 0x10 * 0x10 + (if left then m / 0x10 else m % 0x10) && t.hl == s.hl
            && t.ram == s.ram[s.hl := if left then m % 0x10 * 0x10 + a % 0x10 else a % 0x10 * 0x10 + m / 0x10]
  {
    hide InFlags;
  }

  /** RRD undoes RLD and RLD undoes RRD, in A and in memory. */
  lemma NibblesInverse(s: Cpu, left: bool)
    ensures var t := EdNibbles(EdNibbles(s, left).s, !left).s;
            RegA(t) == RegA(s) && t.ram == s.ram
  {
    hide EdNibbles, RegA;
    NibbleStep(s, left);
    NibbleStep(EdNibbles(s, left).s, !left);
    ThreeNibbles(RegA(s), s.ram[s.hl]);
  }

  lemma TwoNibbles(h: int, l: int)
    requires 0 <= h < 0x10 && 0 <= l < 0x10
    ensures (h * 0x10 + l) / 0x10 == h && (h * 0x10 + l) % 0x10 == l
  {
  }

  /** Three nibbles rotated one way and back. */
  lemma ThreeNibbles(a: byte, m: byte)
    ensures var a1, m1 := a / 0x10 * 0x10 + m / 0x10, m % 0x10 * 0x10 + a % 0x10;
            a1 / 0x10 * 0x10 + m1 % 0x10 == a && a1 % 0x10 * 0x10 + m1 / 0x10 == m
    ensures var a1, m1 := a / 0x10 * 0x10 + m % 0x10, a % 0x10 * 0x10 + m / 0x10;
            a1 / 0x10 * 0x10 + m1 / 0x10 == a && m1 % 0x10 * 0x10 + a1 % 0x10 == m
  {
    TwoNibbles(a / 0x10, m / 0x10);
    TwoNibbles(m % 0x10, a % 0x10);
    TwoNibbles(a / 0x10, m % 0x10);
    TwoNibbles(a % 0x10, m / 0x10);
  }
}
