/**
 Z8000 subtraction flags and condition codes (z8000/src/Z8000Cpu.cpp): after a compare, the
 sixteen codes decide the signed and the unsigned order, overflow and sign.
 */
module Z8000Compare {
  import opened Bytes

  /** The flag bits of FCW that subtraction sets and the condition codes test. */
  datatype Flags = Flags(c: bool, z: bool, s: bool, pv: bool, da: bool, h: bool)

  /** A subtraction's result and flags. */
  datatype Diff<T> = Diff(res: T, flags: Flags)

  /** The sign bit of a word. */
  predicate NegW(w: word) { w >= 0x8000 }

  function SubByte(a: byte, b: byte, borrow: bool): Diff<byte> {
    var r := (a - b - Num(borrow)) % 0x10000;
    var res := B(r);
    Diff(res, Flags(r / 0x100 % 2 == 1, res == 0, Neg(res), Neg(a) != Neg(b) && Neg(a) != Neg(res), true,
                    (a % 0x10 - b % 0x10 - Num(borrow)) / 0x10 % 2 == 1))
  }

  function SubWord(a: word, b: word, borrow: bool): Diff<word> {
    var r := (a - b - Num(borrow)) % 0x1_0000_0000;
    var res := W(r);
    Diff(res, Flags(r / 0x10000 % 2 == 1, res == 0, NegW(res), NegW(a) != NegW(b) && NegW(a) != NegW(res), true,
                    (a % 0x1000 - b % 0x1000 - Num(borrow)) / 0x1000 % 2 == 1))
  }

  /** The 4-bit condition code field. */
  predicate TestCondition(f: Flags, cc: int) {
    match cc % 0x10
    case 0x0 => false
    case 0x1 => f.pv != f.s
    case 0x2 => f.z || f.pv != f.s
    case 0x3 => f.c || f.z
    case 0x4 => f.pv
    case 0x5 => f.s
    case 0x6 => f.z
    case 0x7 => f.c
    case 0x8 => true
    case 0x9 => f.pv == f.s
    case 0xA => !f.z && f.pv == f.s
    case 0xB => !f.c && !f.z
    case 0xC => !f.pv
    case 0xD => !f.s
    case 0xE => !f.z
    case _ => !f.c
  }

  /** The two's-complement value of a word. */
  function SignedW(w: word): int { if NegW(w) then w - 0x10000 else w }

  /** The two's-complement value of u in a width that counts 2 * half. */
  function Centered(u: int, half: int): int { if u < half then u else u - 2 * half }

  /**
   Each of the sixteen codes answers the question its name asks of u and v: F, LT, LE, ULE,
   OV, MI, EQ, ULT, and from 8 on T, GE, GT, UGT, NOV, PL, NE, UGE.
   */
  predicate Decides(f: Flags, u: int, v: int, half: int)
    requires half > 0
  {
    var x, y := Centered(u, half), Centered(v, half);
    && !TestCondition(f, 0) && TestCondition(f, 8)
    && (TestCondition(f, 1) <==> x < y) && (TestCondition(f, 2) <==> x <= y)
    && (TestCondition(f, 9) <==> x >= y) && (TestCondition(f, 10) <==> x > y)
    && (TestCondition(f, 7) <==> u < v) && (TestCondition(f, 3) <==> u <= v)
    && (TestCondition(f, 15) <==> u >= v) && (TestCondition(f, 11) <==> u > v)
    && (TestCondition(f, 6) <==> u == v) && (TestCondition(f, 14) <==> u != v)
    && (TestCondition(f, 4) <==> x - y < -half || x - y >= half)
    && (TestCondition(f, 12) <==> -half <= x - y < half)
    && (TestCondition(f, 5) <==> (u - v) % (2 * half) >= half)
    && (TestCondition(f, 13) <==> (u - v) % (2 * half) < half)
  }

  /** After CPB. */
  lemma CompareBytes(a: byte, b: byte)
    ensures Decides(SubByte(a, b, false).flags, a, b, 0x80)
  {
    hide SubByte;
    SignByte(a, b, false);
    ZeroByte(a, b);
    FieldsByte(a, b, false);
  }

  /** After CP. */
  lemma CompareWords(a: word, b: word)
    ensures Decides(SubWord(a, b, false).flags, a, b, 0x8000)
  {
    hide SubWord;
    SignWord(a, b, false);
    ZeroWord(a, b);
    SignedOrder(a, b);
    FieldsWord(a, b, false);
  }

  lemma DigitBorrow(x: int, y: int, n: int)
    requires 0 <= x < 0x10 && 0 <= y < 0x10 && 0 <= n <= 1
    ensures (x - y - n) / 0x10 % 2 == 1 <==> x < y + n
  {
  }

  /** The result, Z and S of it, the half-borrow out of the low digit, and DA for a subtraction. */
  lemma FieldsByte(a: byte, b: byte, borrow: bool)
    ensures var d := SubByte(a, b, borrow);
            && d.res == (a - b - Num(borrow)) % 0x100 && d.flags.da
            && (d.flags.z <==> d.res == 0) && (d.flags.s <==> d.res >= 0x80)
            && (d.flags.h <==> a % 0x10 < b % 0x10 + Num(borrow))
  {
    hide B;
    var d := a - b - Num(borrow);
    Casts(d % 0x10000);
    BorrowBit(d, 0x100);
    DigitBorrow(a % 0x10, b % 0x10, Num(borrow));
  }

  lemma FieldsWord(a: word, b: word, borrow: bool)
    ensures var d := SubWord(a, b, borrow);
            && d.res == (a - b - Num(borrow)) % 0x10000 && d.flags.da
            && (d.flags.z <==> d.res == 0) && (d.flags.s <==> d.res >= 0x8000)
            && (d.flags.h <==> a % 0x1000 < b % 0x1000 + Num(borrow))
  {
    hide W;
    var d := a - b - Num(borrow);
    Casts(d % 0x1_0000_0000);
    BorrowBit(d, 0x10000);
  }

  lemma ZeroByte(a: byte, b: byte)
    ensures SubByte(a, b, false).flags.z <==> a == b
    ensures Signed(a) == Signed(b) <==> a == b
  {
    BorrowBit(a - b, 0x100);
  }

  lemma ZeroWord(a: word, b: word)
    ensures SubWord(a, b, false).flags.z <==> a == b
  {
    BorrowBit(a - b, 0x10000);
  }

  lemma SignedOrder(a: word, b: word)
    ensures SignedW(a) == SignedW(b) <==> a == b
  {
  }

  /** A difference kept in twice the width has the bit above the width set exactly when negative. */
  lemma BorrowBit(d: int, m: int)
    requires (m == 0x100 || m == 0x10000) && -m <= d < m
    ensures d % (m * m) / m % 2 == 1 <==> d < 0
    ensures d % (m * m) % m == d % m
  {
    if m == 0x100 { assert m * m == 0x10000; } else { assert m * m == 0x1_0000_0000; }
  }

  /** Also with a borrow coming in: sign against overflow is the sign of the exact difference. */
  lemma SignByte(a: byte, b: byte, borrow: bool)
    ensures var f := SubByte(a, b, borrow).flags;
            && (f.pv != f.s <==> Signed(a) - Signed(b) - Num(borrow) < 0)
            && (f.pv <==> !(-0x80 <= Signed(a) - Signed(b) - Num(borrow) < 0x80))
            && (f.c <==> a - b - Num(borrow) < 0)
  {
    hide Neg, Signed, B;
    var d := a - b - Num(borrow);
    Casts(d);
    Casts(d % 0x10000);
    BorrowBit(d, 0x100);
    ByteSigns(a, b, Num(borrow));
  }

  /** Overflow and the sign of the result, from the sign bits. */
  lemma ByteSigns(a: byte, b: byte, bw: int)
    requires 0 <= bw <= 1
    ensures var r := B(a - b - bw);
            var d := Signed(a) - Signed(b) - bw;
            && (Neg(a) != Neg(b) && Neg(a) != Neg(r) <==> !(-0x80 <= d < 0x80))
            && ((Neg(a) != Neg(b) && Neg(a) != Neg(r)) != Neg(r) <==> d < 0)
  {
  }

  lemma WordSigns(a: word, b: word, bw: int)
    requires 0 <= bw <= 1
    ensures var r := W(a - b - bw);
            var d := SignedW(a) - SignedW(b) - bw;
            && (NegW(a) != NegW(b) && NegW(a) != NegW(r) <==> !(-0x8000 <= d < 0x8000))
            && ((NegW(a) != NegW(b) && NegW(a) != NegW(r)) != NegW(r) <==> d < 0)
  {
  }

  lemma SignWord(a: word, b: word, borrow: bool)
    ensures var f := SubWord(a, b, borrow).flags;
            && (f.pv != f.s <==> SignedW(a) - SignedW(b) - Num(borrow) < 0)
            && (f.pv <==> !(-0x8000 <= SignedW(a) - SignedW(b) - Num(borrow) < 0x8000))
            && (f.c <==> a - b - Num(borrow) < 0)
  {
    hide NegW, SignedW, W;
    var d := a - b - Num(borrow);
    Casts(d);
    Casts(d % 0x1_0000_0000);
    BorrowBit(d, 0x10000);
    WordSigns(a, b, Num(borrow));
  }

  /** Code cc xor 8 is the exact complement of code cc, in every flag state. */
  lemma Complement(f: Flags, cc: int)
    requires 0 <= cc < 0x10
    ensures TestCondition(f, cc) != TestCondition(f, if cc < 8 then cc + 8 else cc - 8)
  {
    hide B, W;
    if cc < 8 { FewCodes(f, cc); } else { FewCodes(f, cc - 8); }
  }

  lemma FewCodes(f: Flags, cc: int)
    requires 0 <= cc < 8
    ensures TestCondition(f, cc) != TestCondition(f, cc + 8)
  {
    assert cc == 0 || cc == 1 || cc == 2 || cc == 3 || cc == 4 || cc == 5 || cc == 6 || cc == 7;
  }

  // ---- The instructions -----------------------------------------------------------------

  class Z8000Cpu {
    const R: array<word>
    var C: bool
    var Z: bool
    var S: bool
    var PV: bool
    var DA: bool
    var H: bool

    ghost predicate Valid() { R.Length == 16 }

    ghost function FlagBits(): Flags
      reads this
    {
      Flags(C, Z, S, PV, DA, H)
    }

    constructor ()
      ensures Valid() && FlagBits() == Flags(false, false, false, false, false, false)
    {
      R := new word[16](_ => 0);
      C, Z, S, PV, DA, H := false, false, false, false, false, false;
    }

    method DoSubWord(a: word, b: word, withCarry: bool) returns (res: word)
      requires Valid()
      modifies this
      ensures Diff(res, FlagBits()) == SubWord(a, b, withCarry && old(C))
    {
      var c := if withCarry && C then 1 else 0;
      var r := (a - b - c) % 0x1_0000_0000;
      res := W(r);
      Z := res == 0;
      S := res >= 0x8000;
      C := r / 0x10000 % 2 == 1;
      PV := NegW(a) != NegW(b) && NegW(a) != NegW(res);
      H := (a % 0x1000 - b % 0x1000 - c) / 0x1000 % 2 == 1;
      DA := true;
    }

    method DoSubByte(a: byte, b: byte, withCarry: bool) returns (res: byte)
      requires Valid()
      modifies this
      ensures Diff(res, FlagBits()) == SubByte(a, b, withCarry && old(C))
    {
      var c := if withCarry && C then 1 else 0;
      var r := (a - b - c) % 0x10000;
      res := B(r);
      Z := res == 0;
      S := res >= 0x80;
      C := r / 0x100 % 2 == 1;
      PV := Neg(a) != Neg(b) && Neg(a) != Neg(res);
      H := (a % 0x10 - b % 0x10 - c) / 0x10 % 2 == 1;
      DA := true;
    }

    /** Byte registers 0-7 are the high halves of R0-R7, 8-15 the low halves. */
    function ByteReg(n: int): byte
      requires Valid() && 0 <= n < 16
      reads R
    {
      if n < 8 then Hi(R[n]) else Lo(R[n - 8])
    }

    /** CP Rd,Rs: registers stay, and every code then decides its order. */
    method CompareRegs(op: word) returns (cycles: nat)
      requires Valid()
      modifies this
      ensures cycles == 4
      ensures Decides(FlagBits(), R[op % 0x10], R[op / 0x10 % 0x10], 0x8000)
    {
      hide Decides, SubWord;
      var s, d := op / 0x10 % 0x10, op % 0x10;
      var _ := DoSubWord(R[d], R[s], false);
      CompareWords(R[d], R[s]);
      cycles := 4;
    }

    /** CPB Rbd,Rbs. */
    method CompareByteRegs(op: word) returns (cycles: nat)
      requires Valid()
      modifies this
      ensures cycles == 4
      ensures var d, s := op % 0x10, op / 0x10 % 0x10;
              Decides(FlagBits(), if d < 8 then R[d] / 0x100 else R[d - 8] % 0x100,
                      if s < 8 then R[s] / 0x100 else R[s - 8] % 0x100, 0x80)
    {
      hide Decides, SubByte;
      var s, d := op / 0x10 % 0x10, op % 0x10;
      var _ := DoSubByte(ByteReg(d), ByteReg(s), false);
      CompareBytes(ByteReg(d), ByteReg(s));
      cycles := 4;
    }
  }
}
