/**
 The ALU helpers as the source computes them: mask tests, overflow from xor masks, parity by
 folding, and a flag byte put together bit by bit. Each is proved to give what the function
 of module Z80Alu says.
 */
module Z80AluMachine {
  import Bits
  import opened Bytes
  import opened Z80State
  import opened Z80Alu
  import opened Z80Parity
  import Z80AluLaws

  // ---- Masks ----------------------------------------------------------------------------

  lemma TopBit(v: bv8)
    ensures (v as int) >= 0x80 <==> v & 0x80 != 0
  {
  }

  /** The sign test of the source. */
  lemma SignMask(v: byte)
    ensures And(v, 0x80) != 0 <==> Neg(v)
  {
    ByteBack(v);
    TopBit(v as bv8);
    BvBack((v as bv8) & 0x80);
  }

  lemma MidBits(v: bv8)
    ensures (v as int) % 0x40 >= 0x20 <==> v & 0x20 != 0
    ensures (v as int) % 0x10 >= 8 <==> v & 8 != 0
  {
  }

  lemma YxMasks(v: byte)
    ensures (And(v, 0x20) != 0 <==> B5(v)) && (And(v, 0x08) != 0 <==> B3(v))
  {
    ByteBack(v);
    MidBits(v as bv8);
    BvBack((v as bv8) & 0x20);
    BvBack((v as bv8) & 8);
  }

  lemma SignOfXor(a: byte, b: byte)
    ensures Neg(Xor(a, b)) <==> Neg(a) != Neg(b)
  {
    TopOf(a);
    TopOf(b);
    TopBit((a as bv8) ^ (b as bv8));
  }

  lemma TopOf(a: byte)
    ensures Neg(a) <==> (a as bv8) & 0x80 != 0
  {
    ByteBack(a);
    TopBit(a as bv8);
  }

  lemma SignOfAnd(a: byte, b: byte)
    ensures Neg(And(a, b)) <==> Neg(a) && Neg(b)
  {
    TopOf(a);
    TopOf(b);
    TopBit((a as bv8) & (b as bv8));
  }

  /** The overflow mask of additions and subtractions, as sign tests. */
  lemma OverflowMask(a: byte, b: byte, c: byte, d: byte)
    ensures And(And(Xor(a, b), Xor(c, d)), 0x80) != 0 <==> Neg(a) != Neg(b) && Neg(c) != Neg(d)
  {
    hide And, Xor, Neg;
    SignMask(And(Xor(a, b), Xor(c, d)));
    SignOfAnd(Xor(a, b), Xor(c, d));
    SignOfXor(a, b);
    SignOfXor(c, d);
  }

  lemma RefreshBits(v: bv8)
    ensures (v & 0x80) | ((v + 1) & 0x7F) == if v == 0x7F || v == 0xFF then v - 0x7F else v + 1
  {
  }

  /** Adding one in eight bits. */
  lemma NextByte(r: byte)
    ensures B(r + 1) as bv8 == (r as bv8) + 1
  {
    ByteBack(r);
    ByteBack(B(r + 1));
    if r < 0xFF {
      Bits.NotLast(r as bv8);
      Bits.Successor(r as bv8);
      BvBack((r as bv8) + 1);
    }
  }

  lemma Masked(a: byte, m: byte, x: bv8, y: bv8)
    requires a as bv8 == x && m as bv8 == y
    ensures And(a, m) as bv8 == x & y
  {
    hide And;
    AndIs(a, m, x, y);
    BvBack(x & y);
  }

  lemma MaskPair(a: byte, b: byte, x: bv8, y: bv8)
    requires a as bv8 == x && b as bv8 == y
    ensures Or(And(a, 0x80), And(b, 0x7F)) == ((x & 0x80) | (y & 0x7F)) as int
  {
    hide And, Or;
    Masked(a, 0x80, x, 0x80);
    Masked(b, 0x7F, y, 0x7F);
    OrIs(And(a, 0x80), And(b, 0x7F), x & 0x80, y & 0x7F);
  }

  /** The refresh counter as the source masks it. */
  lemma RefreshMask(r: byte)
    ensures Or(And(r, 0x80), And(B(r + 1), 0x7F)) == BumpR(r)
  {
    hide And, Or, B, BumpR;
    var v := r as bv8;
    ByteBack(r);
    NextByte(r);
    MaskPair(r, B(r + 1), v, v + 1);
    RefreshBits(v);
    RefreshInt(r, v);
  }

  lemma RefreshInt(r: byte, v: bv8)
    requires v as int == r
    ensures (if v == 0x7F || v == 0xFF then v - 0x7F else v + 1) as int == BumpR(r)
  {
  }

  // ---- Flags ----------------------------------------------------------------------------

  /** f |= F_S and so on; every bit is still clear when it is set. */
  method Assemble(s: bool, z: bool, y: bool, h: bool, x: bool, p: bool, n: bool, c: bool) returns (f: byte)
    ensures f == MkF(s, z, y, h, x, p, n, c)
  {
    hide MkF;
    var g := 0;
    if s { g := g + 0x80; }
    if z { g := g + 0x40; }
    if y { g := g + 0x20; }
    if h { g := g + 0x10; }
    if x { g := g + 0x08; }
    if p { g := g + 0x04; }
    if n { g := g + 0x02; }
    if c { g := g + 0x01; }
    MkFHalves(s, z, y, h, x, p, n, c);
    f := g;
  }

  method Parity8Of(v: byte) returns (even: bool)
    ensures even == Parity(v)
  {
    hide Ones;
    ByteBack(v);
    var w := v as bv8;
    ParityFold(w);
    w := w ^ (w >> 4);
    w := w ^ (w >> 2);
    w := w ^ (w >> 1);
    even := w & 1 == 0;
  }

  // ---- 8-bit arithmetic -----------------------------------------------------------------

  method AddBytes(a: byte, b: byte, carry: bool) returns (r: Res)
    ensures r == AluAdd(a, b, carry)
  {
    hide MkF, And, Xor, Neg, B5, B3;
    var cy := if carry then 1 else 0;
    var full := a + b + cy;
    var half := a % 0x10 + b % 0x10 + cy;
    var result: byte := full % 0x100;
    SignMask(result);
    YxMasks(result);
    OverflowMask(a, result, b, result);
    var f := Assemble(And(result, 0x80) != 0, result == 0, And(result, 0x20) != 0, half > 0x0F,
                      And(result, 0x08) != 0, And(And(Xor(a, result), Xor(b, result)), 0x80) != 0, false, full > 0xFF);
    r := Res(result, f);
  }

  method SubBytes(a: byte, b: byte, borrow: bool) returns (r: Res)
    ensures r == AluSub(a, b, borrow)
  {
    hide MkF, And, Xor, Neg, B5, B3;
    var bw := if borrow then 1 else 0;
    var full := a - b - bw;
    var half := a % 0x10 - b % 0x10 - bw;
    var result: byte := full % 0x100;
    SignMask(result);
    YxMasks(result);
    OverflowMask(a, b, a, result);
    var f := Assemble(And(result, 0x80) != 0, result == 0, And(result, 0x20) != 0, half < 0,
                      And(result, 0x08) != 0, And(And(Xor(a, b), Xor(a, result)), 0x80) != 0, true, full < 0);
    r := Res(result, f);
  }

  method CompareBytes(a: byte, b: byte) returns (r: Res)
    ensures r == AluCp(a, b)
  {
    hide MkF, And, Xor, Neg, B5, B3;
    var full := a - b;
    var half := a % 0x10 - b % 0x10;
    var result: byte := full % 0x100;
    SignMask(result);
    YxMasks(b);
    OverflowMask(a, b, a, result);
    var f := Assemble(And(result, 0x80) != 0, result == 0, And(b, 0x20) != 0, half < 0,
                      And(b, 0x08) != 0, And(And(Xor(a, b), Xor(a, result)), 0x80) != 0, true, full < 0);
    r := Res(a, f);
  }

  /** The flags of AND, OR and XOR. */
  method LogicFlags(result: byte, h: bool) returns (r: Res)
    ensures r == Logic(result, h)
  {
    hide MkF, And, Neg, B5, B3, Parity;
    SignMask(result);
    YxMasks(result);
    var even := Parity8Of(result);
    var f := Assemble(And(result, 0x80) != 0, result == 0, And(result, 0x20) != 0, h,
                      And(result, 0x08) != 0, even, false, false);
    r := Res(result, f);
  }

  method RunAluOp(op: int, a: byte, v: byte, f: byte) returns (r: Res)
    ensures r == AluOp(op, a, v, f)
  {
    hide AluAdd, AluSub, AluCp, Logic, FC, And, Xor, Or;
    match op
    case 0 => r := AddBytes(a, v, false);
    case 1 => r := AddBytes(a, v, FC(f));
    case 2 => r := SubBytes(a, v, false);
    case 3 => r := SubBytes(a, v, FC(f));
    case 4 => r := LogicFlags(And(a, v), true);
    case 5 => r := LogicFlags(Xor(a, v), false);
    case 6 => r := LogicFlags(Or(a, v), false);
    case _ => r := CompareBytes(a, v);
  }

  method IncByte(orig: byte, f: byte) returns (r: Res)
    ensures r == Inc8(orig, f)
  {
    hide MkF, And, Neg, B5, B3, FC;
    var result: byte := (orig + 1) % 0x100;
    SignMask(result);
    YxMasks(result);
    var g := Assemble(And(result, 0x80) != 0, result == 0, And(result, 0x20) != 0, orig % 0x10 == 0x0F,
                      And(result, 0x08) != 0, result == 0x80, false, FC(f));
    r := Res(result, g);
  }

  method DecByte(orig: byte, f: byte) returns (r: Res)
    ensures r == Dec8(orig, f)
  {
    hide MkF, And, Neg, B5, B3, FC;
    var result: byte := (orig - 1) % 0x100;
    SignMask(result);
    YxMasks(result);
    var g := Assemble(And(result, 0x80) != 0, result == 0, And(result, 0x20) != 0, orig % 0x10 == 0,
                      And(result, 0x08) != 0, result == 0x7F, true, FC(f));
    r := Res(result, g);
  }

  // ---- 16-bit arithmetic ----------------------------------------------------------------

  method AddPair(target: word, addend: word, f: byte) returns (r: Res16)
    ensures r == Add16(target, addend, f)
  {
    hide MkF, And, B5, B3, FS, FZ, FP;
    var full := target + addend;
    var half := target % 0x1000 + addend % 0x1000;
    var result: word := full % 0x10000;
    var hi: byte := result / 0x100;
    YxMasks(hi);
    var g := Assemble(FS(f), FZ(f), And(hi, 0x20) != 0, half > 0x0FFF, And(hi, 0x08) != 0, FP(f), false, full > 0xFFFF);
    r := Res16(result, g);
  }

  method AdcPair(hl: word, addend: word, f: byte) returns (r: Res16)
    ensures r == Adc16(hl, addend, f)
  {
    hide MkF, And, Xor, Neg, B5, B3, FC, W;
    var cy := if FC(f) then 1 else 0;
    var full := hl + addend + cy;
    Casts(full);
    var half := hl % 0x1000 + addend % 0x1000 + cy;
    var result: word := full % 0x10000;
    var hi: byte, hh: byte, ah: byte := result / 0x100, hl / 0x100, addend / 0x100;
    SignMask(hi);
    YxMasks(hi);
    OverflowMask(hh, hi, ah, hi);
    var g := Assemble(And(hi, 0x80) != 0, result == 0, And(hi, 0x20) != 0, half > 0x0FFF, And(hi, 0x08) != 0,
                      And(And(Xor(hh, hi), Xor(ah, hi)), 0x80) != 0, false, full > 0xFFFF);
    r := Res16(result, g);
  }

  method SbcPair(hl: word, addend: word, f: byte) returns (r: Res16)
    ensures r == Sbc16(hl, addend, f)
  {
    hide MkF, And, Xor, Neg, B5, B3, FC, W;
    var bw := if FC(f) then 1 else 0;
    var full := hl - addend - bw;
    Casts(full);
    var half := hl % 0x1000 - addend % 0x1000 - bw;
    var result: word := full % 0x10000;
    var hi: byte, hh: byte, ah: byte := result / 0x100, hl / 0x100, addend / 0x100;
    SignMask(hi);
    YxMasks(hi);
    OverflowMask(hh, ah, hh, hi);
    var g := Assemble(And(hi, 0x80) != 0, result == 0, And(hi, 0x20) != 0, half < 0, And(hi, 0x08) != 0,
                      And(And(Xor(hh, ah), Xor(hh, hi)), 0x80) != 0, true, full < 0);
    r := Res16(result, g);
  }

  // ---- Rotates, shifts, bit tests -------------------------------------------------------

  /** The byte and the bit that falls out; F's carry comes in for RL and RR. */
  method Rotate(idx: int, v: byte, f: byte) returns (result: byte, carry: bool)
    requires 0 <= idx < 8
    ensures result == RotValue(idx, v, f) && carry == RotCarry(idx, v)
  {
    hide FC;
    var oldCarry := if FC(f) then 1 else 0;
    carry := if idx % 2 == 0 then v >= 0x80 else v % 2 == 1;
    var r: int := v;
    match idx {
      case 0 => r := r * 2 % 0x100 + if carry then 1 else 0;
      case 1 => r := r / 2 + if carry then 0x80 else 0;
      case 2 => r := r * 2 % 0x100 + oldCarry;
      case 3 => r := r / 2 + 0x80 * oldCarry;
      case 4 => r := r * 2 % 0x100;
      case 5 => r := r / 2 + if v >= 0x80 then 0x80 else 0;
      case 6 => r := r * 2 % 0x100 + 1;
      case _ => r := r / 2;
    }
    result := r;
  }

  /** SetShiftRotateFlags. */
  method RotateFlags(result: byte, carry: bool) returns (f: byte)
    ensures f == RotFlags(result, carry)
  {
    hide MkF, And, Neg, B5, B3, Parity;
    SignMask(result);
    YxMasks(result);
    var even := Parity8Of(result);
    f := Assemble(And(result, 0x80) != 0, result == 0, And(result, 0x20) != 0, false,
                  And(result, 0x08) != 0, even, false, carry);
  }

  method RotateByte(idx: int, v: byte, f: byte) returns (r: Res)
    requires 0 <= idx < 8
    ensures r == Rot(idx, v, f)
  {
    hide RotValue, RotCarry, RotFlags;
    var result, carry := Rotate(idx, v, f);
    var g := RotateFlags(result, carry);
    r := Res(result, g);
  }

  lemma MaskedBit(v: byte, b: int)
    requires 0 <= b < 8
    ensures And(v, Mask(b)) != 0 <==> Bit(v, b)
  {
    hide Bit, Mask, And;
    ByteBack(v);
    AndBits(v, Mask(b));
    AndZero(v, Mask(b));
    Z80AluLaws.MaskIs(b, Mask(b));
    Z80AluLaws.BitOf(v as bv8, b);
  }

  lemma AndZero(a: byte, b: byte)
    ensures And(a, b) != 0 <==> (a as bv8) & (b as bv8) != 0
  {
    BvBack((a as bv8) & (b as bv8));
  }

  /** Only bit 7 can show in the sign of a single masked bit. */
  lemma MaskedSign(v: byte, b: int)
    requires 0 <= b < 8
    ensures And(And(v, Mask(b)), 0x80) != 0 <==> b == 7 && Bit(v, b)
  {
    hide And;
    SignMask(And(v, Mask(b)));
    SignOfAnd(v, Mask(b));
  }

  /** OpBit. */
  method BitFlagsOf(b: int, v: byte, yxSource: byte, f: byte) returns (g: byte)
    requires 0 <= b < 8
    ensures g == BitFlags(b, v, yxSource, f)
  {
    hide MkF, And, Bit, Mask, B5, B3, FC;
    var bitSet := And(v, Mask(b));
    MaskedBit(v, b);
    MaskedSign(v, b);
    YxMasks(yxSource);
    g := Assemble(And(bitSet, 0x80) != 0, bitSet == 0, And(yxSource, 0x20) != 0, true,
                  And(yxSource, 0x08) != 0, bitSet == 0, false, FC(f));
  }

  /** The flags of IN r,(C), RRD and RLD. */
  method InFlagsOf(v: byte, f: byte) returns (g: byte)
    ensures g == InFlags(v, f)
  {
    hide MkF, And, Neg, B5, B3, Parity, FC;
    SignMask(v);
    YxMasks(v);
    var even := Parity8Of(v);
    g := Assemble(And(v, 0x80) != 0, v == 0, And(v, 0x20) != 0, false, And(v, 0x08) != 0, even, false, FC(f));
  }

  // ---- The accumulator operations -------------------------------------------------------

  method RotateAcc(idx: int, a: byte, f: byte) returns (r: Res)
    requires 0 <= idx < 4
    ensures r == AccRot(idx, a, f)
  {
    hide MkF, And, B5, B3, RotValue, RotCarry, FS, FZ, FP;
    var result, carry := Rotate(idx, a, f);
    YxMasks(result);
    var g := Assemble(FS(f), FZ(f), And(result, 0x20) != 0, false, And(result, 0x08) != 0, FP(f), false, carry);
    r := Res(result, g);
  }

  method DecimalAdjust(a: byte, f: byte) returns (r: Res)
    ensures r == Daa(a, f)
  {
    hide MkF, And, Neg, B5, B3, Parity, FH, FC, FN;
    var correction := 0;
    var newC := FC(f);
    if FH(f) || (!FN(f) && a % 0x10 > 0x09) { correction := correction + 0x06; }
    if FC(f) || (!FN(f) && a > 0x99) { correction, newC := correction + 0x60, true; }
    var newA: byte;
    var newH;
    if FN(f) {
      newA, newH := (a - correction) % 0x100, FH(f) && a % 0x10 < 0x06;
    } else {
      newA, newH := (a + correction) % 0x100, a % 0x10 > 0x09;
    }
    SignMask(newA);
    YxMasks(newA);
    var even := Parity8Of(newA);
    var g := Assemble(And(newA, 0x80) != 0, newA == 0, And(newA, 0x20) != 0, newH,
                      And(newA, 0x08) != 0, even, FN(f), newC);
    r := Res(newA, g);
  }

  method RunAccOp(y: int, a: byte, f: byte) returns (r: Res)
    requires 0 <= y < 8
    ensures r == AccOp(y, a, f)
  {
    hide AccRot, Daa, MkF, And, B5, B3, FS, FZ, FP, FC;
    if y < 4 {
      r := RotateAcc(y, a, f);
    } else if y == 4 {
      r := DecimalAdjust(a, f);
    } else {
      var v := if y == 5 then 0xFF - a else a;
      YxMasks(v);
      var h := y == 5 || (y == 7 && FC(f));
      var c := if y == 5 then FC(f) else y == 6 || !FC(f);
      var g := Assemble(FS(f), FZ(f), And(v, 0x20) != 0, h, And(v, 0x08) != 0, FP(f), y == 5, c);
      r := Res(v, g);
    }
  }
}
