/** What the EM8 arithmetic flags mean: unsigned carry, signed overflow, order after a compare. */
module Em8Flags {
  import opened Bytes
  import opened Em8State
  import opened Em8Exec

  predicate OneFlag(f: byte) {
    f == FLAG_C || f == FLAG_Z || f == FLAG_I || f == FLAG_B || f == FLAG_V || f == FLAG_N
  }

  lemma SetClear(x: bv8, f: bv8, g: bv8)
    requires f & g == 0
    ensures (x | f) & g == x & g && (x & !f) & g == x & g
    ensures (x | f) & f == f && (x & !f) & f == 0
  {
  }

  /** The flag constants as bit vectors. */
  function FlagBits(f: byte): bv8 {
    if f == FLAG_C then 0x01 else if f == FLAG_Z then 0x02 else if f == FLAG_I then 0x04
    else if f == FLAG_B then 0x10 else if f == FLAG_V then 0x40 else 0x80
  }

  lemma AsBits(f: byte)
    requires OneFlag(f)
    ensures f as bv8 == FlagBits(f)
  {
  }

  lemma Complement(f: byte, g: byte)
    requires OneFlag(f) && g == 0xFF - f
    ensures g as bv8 == !(f as bv8)
  {
    AsBits(f);
  }

  lemma BitsApart(f: byte, g: byte)
    requires OneFlag(f) && OneFlag(g) && f != g
    ensures FlagBits(f) & FlagBits(g) == 0
  {
  }

  lemma Apart(f: byte, g: byte)
    requires OneFlag(f) && OneFlag(g) && f != g
    ensures (f as bv8) & (g as bv8) == 0
  {
    hide OneFlag, FlagBits;
    AsBits(f);
    AsBits(g);
    BitsApart(f, g);
  }

  lemma HasBits(a: byte, g: byte)
    ensures Has(a, g) <==> (a as bv8) & (g as bv8) != 0
  {
    BvBack((a as bv8) & (g as bv8));
  }

  /** A written flag byte, as bits. */
  lemma Written(fl: byte, f: byte, v: bool)
    requires OneFlag(f)
    ensures WithFlag(fl, f, v) as bv8 == if v then (fl as bv8) | (f as bv8) else (fl as bv8) & !(f as bv8)
  {
    hide Or, And, OneFlag;
    if v {
      OrBits(fl, f);
    } else {
      ClearBits(fl, f, 0xFF - f);
    }
  }

  lemma ClearBits(fl: byte, f: byte, g: byte)
    requires OneFlag(f) && g == 0xFF - f
    ensures And(fl, g) as bv8 == (fl as bv8) & !(f as bv8)
  {
    hide And, OneFlag;
    AndBits(fl, g);
    Complement(f, g);
  }

  /** A flag reads back as it was written. */
  lemma SameFlag(fl: byte, f: byte, v: bool)
    requires OneFlag(f)
    ensures Has(WithFlag(fl, f, v), f) == v
  {
    hide Or, And, OneFlag, Has, WithFlag;
    Written(fl, f, v);
    HasBits(WithFlag(fl, f, v), f);
    NotZero(f);
    SetClear(fl as bv8, f as bv8, 0);
  }

  lemma NotZero(f: byte)
    requires OneFlag(f)
    ensures f as bv8 != 0
  {
  }

  /** Writing one flag leaves the others. */
  lemma OtherFlag(fl: byte, f: byte, v: bool, g: byte)
    requires OneFlag(f) && OneFlag(g) && f != g
    ensures Has(WithFlag(fl, f, v), g) == Has(fl, g)
  {
    hide Or, And, OneFlag, Has, WithFlag;
    Written(fl, f, v);
    HasBits(WithFlag(fl, f, v), g);
    HasBits(fl, g);
    Apart(f, g);
    SetClear(fl as bv8, f as bv8, g as bv8);
  }

  /** SetNZ writes Z and N and nothing else. */
  lemma NzFlags(s: Cpu, v: byte, g: byte)
    requires OneFlag(g)
    ensures var fl := SetNZ(s, v).fl;
            Has(fl, g) == if g == FLAG_Z then v == 0 else if g == FLAG_N then Neg(v) else Has(s.fl, g)
  {
    hide Has, WithFlag;
    var f1 := WithFlag(s.fl, FLAG_Z, v == 0);
    if g == FLAG_N {
      SameFlag(f1, FLAG_N, Neg(v));
    } else {
      OtherFlag(f1, FLAG_N, Neg(v), g);
      if g == FLAG_Z { SameFlag(s.fl, FLAG_Z, v == 0); } else { OtherFlag(s.fl, FLAG_Z, v == 0, g); }
    }
  }

  /** C and V written, then N and Z of the result. */
  lemma FourFlags(s: Cpu, c: bool, o: bool, r: byte)
    ensures var fl := SetNZ(SetFlag(SetFlag(s, FLAG_C, c), FLAG_V, o).(a := r), r).fl;
            && Has(fl, FLAG_C) == c && Has(fl, FLAG_V) == o && Has(fl, FLAG_Z) == (r == 0) && Has(fl, FLAG_N) == Neg(r)
            && Has(fl, FLAG_I) == Has(s.fl, FLAG_I) && Has(fl, FLAG_B) == Has(s.fl, FLAG_B)
  {
    hide Has, WithFlag, SetNZ;
    var f1 := WithFlag(s.fl, FLAG_C, c);
    var s2 := SetFlag(SetFlag(s, FLAG_C, c), FLAG_V, o).(a := r);
    SameFlag(s.fl, FLAG_C, c);
    SameFlag(f1, FLAG_V, o);
    OtherFlag(f1, FLAG_V, o, FLAG_C);
    OtherFlag(f1, FLAG_V, o, FLAG_I);
    OtherFlag(f1, FLAG_V, o, FLAG_B);
    OtherFlag(s.fl, FLAG_C, c, FLAG_I);
    OtherFlag(s.fl, FLAG_C, c, FLAG_B);
    NzFlags(s2, r, FLAG_C);
    NzFlags(s2, r, FLAG_V);
    NzFlags(s2, r, FLAG_Z);
    NzFlags(s2, r, FLAG_N);
    NzFlags(s2, r, FLAG_I);
    NzFlags(s2, r, FLAG_B);
  }

  /** ADD with carry: the sum modulo 256, C its unsigned and V its signed overflow. */
  lemma AddMeans(s: Cpu, v: byte)
    ensures var t := DoAdd(s, v);
            var c := Carry(s);
            && t.a == B(s.a + v + c)
            && (Has(t.fl, FLAG_C) <==> s.a + v + c > 0xFF)
            && (Has(t.fl, FLAG_V) <==> !(-0x80 <= Signed(s.a) + Signed(v) + c < 0x80))
            && (Has(t.fl, FLAG_Z) <==> t.a == 0) && (Has(t.fl, FLAG_N) <==> Signed(t.a) < 0)
  {
    hide Has, SetFlag, SetNZ;
    var sum := s.a + v + Carry(s);
    var overflow := Neg(s.a) == Neg(v) && Neg(s.a) != Neg(B(sum));
    FourFlags(s, sum > 0xFF, overflow, B(sum));
    NzLeavesA(SetFlag(SetFlag(s, FLAG_C, sum > 0xFF), FLAG_V, overflow).(a := B(sum)), B(sum));
  }

  /** SUB with borrow, C meaning no borrow: adding the complement subtracts. */
  lemma SubMeans(s: Cpu, v: byte)
    ensures var t := DoSub(s, v);
            var borrow := 1 - Carry(s);
            && t.a == B(s.a - v - borrow)
            && (Has(t.fl, FLAG_C) <==> s.a - v - borrow >= 0)
            && (Has(t.fl, FLAG_V) <==> !(-0x80 <= Signed(s.a) - Signed(v) - borrow < 0x80))
            && (Has(t.fl, FLAG_Z) <==> t.a == 0) && (Has(t.fl, FLAG_N) <==> Signed(t.a) < 0)
  {
    hide Has, SetFlag, SetNZ;
    var diff := s.a + (0xFF - v) + Carry(s);
    assert B(diff) == B(s.a - v - (1 - Carry(s))) by { assert diff == s.a - v - (1 - Carry(s)) + 0x100; }
    var overflow := Neg(s.a) != Neg(v) && Neg(s.a) != Neg(B(diff));
    FourFlags(s, diff > 0xFF, overflow, B(diff));
    NzLeavesA(SetFlag(SetFlag(s, FLAG_C, diff > 0xFF), FLAG_V, overflow).(a := B(diff)), B(diff));
  }

  lemma NzLeavesA(s: Cpu, v: byte)
    ensures SetNZ(s, v).a == s.a
  {
  }

  /** After a compare the branches decide: BCS/BCC the unsigned order, BEQ/BNE equality. */
  lemma CompareDecides(s: Cpu, reg: byte, v: byte)
    ensures var t := DoCmp(s, reg, v);
            && (Has(t.fl, FLAG_C) <==> reg >= v) && (Has(t.fl, FLAG_Z) <==> reg == v)
            && Has(t.fl, FLAG_V) == Has(s.fl, FLAG_V) && Has(t.fl, FLAG_I) == Has(s.fl, FLAG_I)
  {
    hide Has, WithFlag, Neg, B;
    var f1 := WithFlag(s.fl, FLAG_C, reg >= v);
    var f2 := WithFlag(f1, FLAG_Z, reg == v);
    var n := Neg(B(reg - v));
    SameFlag(s.fl, FLAG_C, reg >= v);
    SameFlag(f1, FLAG_Z, reg == v);
    OtherFlag(f1, FLAG_Z, reg == v, FLAG_C);
    OtherFlag(f2, FLAG_N, n, FLAG_C);
    OtherFlag(f2, FLAG_N, n, FLAG_Z);
    OtherFlag(f2, FLAG_N, n, FLAG_V);
    OtherFlag(f1, FLAG_Z, reg == v, FLAG_V);
    OtherFlag(s.fl, FLAG_C, reg >= v, FLAG_V);
    OtherFlag(f2, FLAG_N, n, FLAG_I);
    OtherFlag(f1, FLAG_Z, reg == v, FLAG_I);
    OtherFlag(s.fl, FLAG_C, reg >= v, FLAG_I);
  }

  /** What a shift brings in at the open end. */
  function ShiftsIn(s: Cpu, sh: ShiftOp): int { if sh.Rol? || sh.Ror? then Carry(s) else 0 }

  lemma CarryAfter(s: Cpu, c: bool, r: byte)
    ensures ToA(SetFlag(s, FLAG_C, c), r).a == r && Has(ToA(SetFlag(s, FLAG_C, c), r).fl, FLAG_C) == c
  {
    hide Has, WithFlag, SetNZ;
    SameFlag(s.fl, FLAG_C, c);
    NzFlags(SetFlag(s, FLAG_C, c).(a := r), r, FLAG_C);
    NzLeavesA(SetFlag(s, FLAG_C, c).(a := r), r);
  }

  /** ASL and ROL double, LSR and ROR halve; C takes the bit that falls out. */
  lemma ShiftMeans(s: Cpu, sh: ShiftOp)
    ensures var t := DoShift(s, sh);
            if sh.Asl? || sh.Rol? then 2 * s.a + ShiftsIn(s, sh) == 0x100 * Carry(t) + t.a
            else s.a + 0x100 * ShiftsIn(s, sh) == 2 * t.a + Carry(t)
  {
    hide Has, SetFlag, ToA;
    var c := if sh.Asl? || sh.Rol? then Neg(s.a) else s.a % 2 == 1;
    var r := match sh
      case Asl => B(2 * s.a)
      case Lsr => s.a / 2
      case Rol => B(2 * s.a + Carry(s))
      case Ror => s.a / 2 + 0x80 * Carry(s);
    CarryAfter(s, c, r);
  }

  /** ROL and ROR rotate nine bits, carry included, and undo one another. */
  lemma RotateInverse(s: Cpu)
    ensures var t := DoShift(DoShift(s, Rol), Ror); t.a == s.a && Carry(t) == Carry(s)
    ensures var t := DoShift(DoShift(s, Ror), Rol); t.a == s.a && Carry(t) == Carry(s)
  {
    hide DoShift, Has;
    ShiftMeans(s, Rol);
    ShiftMeans(s, Ror);
    ShiftMeans(DoShift(s, Rol), Ror);
    ShiftMeans(DoShift(s, Ror), Rol);
  }
}
