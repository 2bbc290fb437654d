/**
 Multi-byte arithmetic built from the byte instructions: the 16-bit ADC and SBC, carry
 chains of any length, and packed decimal chains with DAA.
 */
module Z80Bcd {
  import opened Bytes
  import opened Z80State
  import opened Z80Alu
  import opened Z80Exec
  import opened Z80Step
  import Z80Decode

  // ---- The carry and half-carry of the byte operations -------------------------------

  lemma AddFlags(a: byte, b: byte, c: bool)
    ensures var r := AluAdd(a, b, c);
            && r.v == B(a + b + Num(c)) && (FC(r.f) <==> a + b + Num(c) > 0xFF)
            && (FH(r.f) <==> a % 0x10 + b % 0x10 + Num(c) > 0x0F) && !FN(r.f)
  {
    hide MkF, FC, FH, FN;
    var r := B(a + b + Num(c));
    MkFBits(Neg(r), r == 0, B5(r), a % 0x10 + b % 0x10 + Num(c) > 0x0F, B3(r),
            Neg(a) != Neg(r) && Neg(b) != Neg(r), false, a + b + Num(c) > 0xFF);
  }

  lemma SubFlags(a: byte, b: byte, c: bool)
    ensures var r := AluSub(a, b, c);
            && r.v == B(a - b - Num(c)) && (FC(r.f) <==> a - b - Num(c) < 0)
            && (FH(r.f) <==> a % 0x10 - b % 0x10 - Num(c) < 0) && FN(r.f)
  {
    hide MkF, FC, FH, FN;
    var r := B(a - b - Num(c));
    MkFBits(Neg(r), r == 0, B5(r), a % 0x10 - b % 0x10 - Num(c) < 0, B3(r),
            Neg(a) != Neg(b) && Neg(a) != Neg(r), true, a - b - Num(c) < 0);
  }

  // ---- ADC HL,rr and SBC HL,rr as two byte steps ----------------------------------------

  /** The flag byte f with another Z. */
  function WithZ(f: byte, z: bool): byte { MkF(FS(f), z, FY(f), FH(f), FX(f), FP(f), FN(f), FC(f)) }

  lemma WithZOfMkF(s: bool, z: bool, y: bool, h: bool, x: bool, p: bool, n: bool, c: bool, z1: bool)
    ensures WithZ(MkF(s, z, y, h, x, p, n, c), z1) == MkF(s, z1, y, h, x, p, n, c)
  {
    hide MkF, FS, FY, FH, FX, FP, FN, FC;
    MkFBits(s, z, y, h, x, p, n, c);
  }

  lemma AdcRipples(a: word, b: word, f: byte)
    ensures var lo := AluAdd(Lo(a), Lo(b), FC(f));
            var hi := AluAdd(Hi(a), Hi(b), FC(lo.f));
            Adc16(a, b, f) == Res16(Pair(hi.v, lo.v), WithZ(hi.f, hi.v == 0 && lo.v == 0))
  {
    hide MkF, FC, FH, FN, WithZ, Neg, B5, B3, W, B, Pair, Hi, Lo;
    var cy := FC(f);
    AddFlags(Lo(a), Lo(b), cy);
    var lo := AluAdd(Lo(a), Lo(b), cy);
    var c1 := FC(lo.f);
    var hi := AluAdd(Hi(a), Hi(b), c1);
    var r := hi.v;
    AddSplits(a, b, cy, c1);
    PairParts(hi.v, lo.v);
    PairZero(hi.v, lo.v);
    WithZOfMkF(Neg(r), r == 0, B5(r), Hi(a) % 0x10 + Hi(b) % 0x10 + Num(c1) > 0x0F, B3(r),
               Neg(Hi(a)) != Neg(r) && Neg(Hi(b)) != Neg(r), false, Hi(a) + Hi(b) + Num(c1) > 0xFF,
               r == 0 && lo.v == 0);
  }

  /** The flag byte f with S, Z and P/V of g. */
  function KeepSzp(f: byte, g: byte): byte { MkF(FS(g), FZ(g), FY(f), FH(f), FX(f), FP(g), FN(f), FC(f)) }

  lemma KeepSzpOfMkF(s: bool, z: bool, y: bool, h: bool, x: bool, p: bool, n: bool, c: bool, g: byte)
    ensures KeepSzp(MkF(s, z, y, h, x, p, n, c), g) == MkF(FS(g), FZ(g), y, h, x, FP(g), n, c)
  {
    hide MkF, FS, FZ, FY, FH, FX, FP, FN, FC;
    MkFBits(s, z, y, h, x, p, n, c);
  }

  /** ADD HL,rr: two byte additions that keep S, Z and P/V. */
  lemma AddRipples(a: word, b: word, f: byte)
    ensures var lo := AluAdd(Lo(a), Lo(b), false);
            var hi := AluAdd(Hi(a), Hi(b), FC(lo.f));
            Add16(a, b, f) == Res16(Pair(hi.v, lo.v), KeepSzp(hi.f, f))
  {
    hide MkF, FS, FZ, FP, FC, FH, FN, KeepSzp, Neg, B5, B3, W, B, Pair, Hi, Lo;
    AddFlags(Lo(a), Lo(b), false);
    var lo := AluAdd(Lo(a), Lo(b), false);
    var c1 := FC(lo.f);
    var hi := AluAdd(Hi(a), Hi(b), c1);
    var r := hi.v;
    AddSplits(a, b, false, c1);
    assert a + b + Num(false) == a + b;
    PairParts(hi.v, lo.v);
    PairZero(hi.v, lo.v);
    KeepSzpOfMkF(Neg(r), r == 0, B5(r), Hi(a) % 0x10 + Hi(b) % 0x10 + Num(c1) > 0x0F, B3(r),
                 Neg(Hi(a)) != Neg(r) && Neg(Hi(b)) != Neg(r), false, Hi(a) + Hi(b) + Num(c1) > 0xFF, f);
  }

  /** A number 256 h + l reduced to 16 bits and to 12 bits. */
  lemma SplitWord(h: int, l: byte)
    ensures (0x100 * h + l) % 0x10000 == 0x100 * (h % 0x100) + l
  {
    var q, m := h / 0x100, h % 0x100;
    assert 0x100 * h + l == 0x10000 * q + (0x100 * m + l);
  }

  lemma Split12(h: int, l: byte)
    ensures (0x100 * h + l) % 0x1000 == 0x100 * (h % 0x10) + l
  {
    var q, m := h / 0x10, h % 0x10;
    assert 0x100 * h + l == 0x1000 * q + (0x100 * m + l);
  }

  lemma Parts(w: word)
    ensures w == 0x100 * Hi(w) + Lo(w) && w % 0x1000 == 0x100 * (Hi(w) % 0x10) + Lo(w)
  {
    Split12(Hi(w), Lo(w));
  }

  lemma AddSplits(a: word, b: word, cy: bool, c1: bool)
    requires c1 <==> Lo(a) + Lo(b) + Num(cy) > 0xFF
    ensures W(a + b + Num(cy)) == Pair(B(Hi(a) + Hi(b) + Num(c1)), B(Lo(a) + Lo(b) + Num(cy)))
    ensures a % 0x1000 + b % 0x1000 + Num(cy) > 0x0FFF <==> Hi(a) % 0x10 + Hi(b) % 0x10 + Num(c1) > 0x0F
    ensures a + b + Num(cy) > 0xFFFF <==> Hi(a) + Hi(b) + Num(c1) > 0xFF
  {
    hide Hi, Lo, W, B, Pair;
    Parts(a);
    Parts(b);
    AddWord(a, b, cy, c1);
  }

  lemma AddWord(a: word, b: word, cy: bool, c1: bool)
    requires c1 <==> Lo(a) + Lo(b) + Num(cy) > 0xFF
    ensures W(a + b + Num(cy)) == Pair(B(Hi(a) + Hi(b) + Num(c1)), B(Lo(a) + Lo(b) + Num(cy)))
  {
    hide Hi, Lo;
    Parts(a);
    Parts(b);
    var h, l := Hi(a) + Hi(b) + Num(c1), Lo(a) + Lo(b) + Num(cy) - 0x100 * Num(c1);
    assert B(Lo(a) + Lo(b) + Num(cy)) == l;
    assert a + b + Num(cy) == 0x100 * h + l;
    SplitWord(h, l);
  }

  lemma SbcRipples(a: word, b: word, f: byte)
    ensures var lo := AluSub(Lo(a), Lo(b), FC(f));
            var hi := AluSub(Hi(a), Hi(b), FC(lo.f));
            Sbc16(a, b, f) == Res16(Pair(hi.v, lo.v), WithZ(hi.f, hi.v == 0 && lo.v == 0))
  {
    hide MkF, FC, FH, FN, WithZ, Neg, B5, B3, W, B, Pair, Hi, Lo;
    var cy := FC(f);
    SubFlags(Lo(a), Lo(b), cy);
    var lo := AluSub(Lo(a), Lo(b), cy);
    var c1 := FC(lo.f);
    var hi := AluSub(Hi(a), Hi(b), c1);
    var r := hi.v;
    SubSplits(a, b, cy, c1);
    PairParts(hi.v, lo.v);
    PairZero(hi.v, lo.v);
    WithZOfMkF(Neg(r), r == 0, B5(r), Hi(a) % 0x10 - Hi(b) % 0x10 - Num(c1) < 0, B3(r),
               Neg(Hi(a)) != Neg(Hi(b)) && Neg(Hi(a)) != Neg(r), true, Hi(a) - Hi(b) - Num(c1) < 0,
               r == 0 && lo.v == 0);
  }

  lemma SubSplits(a: word, b: word, cy: bool, c1: bool)
    requires c1 <==> Lo(a) - Lo(b) - Num(cy) < 0
    ensures W(a - b - Num(cy)) == Pair(B(Hi(a) - Hi(b) - Num(c1)), B(Lo(a) - Lo(b) - Num(cy)))
    ensures a % 0x1000 - b % 0x1000 - Num(cy) < 0 <==> Hi(a) % 0x10 - Hi(b) % 0x10 - Num(c1) < 0
    ensures a - b - Num(cy) < 0 <==> Hi(a) - Hi(b) - Num(c1) < 0
  {
    hide Hi, Lo;
    Parts(a);
    Parts(b);
    var h, l := Hi(a) - Hi(b) - Num(c1), Lo(a) - Lo(b) - Num(cy) + 0x100 * Num(c1);
    assert B(Lo(a) - Lo(b) - Num(cy)) == l;
    assert a - b - Num(cy) == 0x100 * h + l;
    SplitWord(h, l);
  }

  // ---- Decimal adjustment -----------------------------------------------------------------

  /** Two packed decimal digits. */
  predicate Bcd(b: byte) { b / 0x10 <= 9 && b % 0x10 <= 9 }

  function Digits(b: byte): int { b / 0x10 * 10 + b % 0x10 }

  lemma DaaFlags(a: byte, f: byte)
    ensures FC(Daa(a, f).f) == DaaHigh(a, f)
    ensures var fix := (if DaaLow(a, f) then 6 else 0) + (if DaaHigh(a, f) then 0x60 else 0);
            Daa(a, f).v == if FN(f) then B(a - fix) else B(a + fix)
  {
    hide MkF, FC, DaaHigh, DaaLow, Parity;
    var fix := (if DaaLow(a, f) then 0x06 else 0) + (if DaaHigh(a, f) then 0x60 else 0);
    var r := if FN(f) then B(a - fix) else B(a + fix);
    var h := if FN(f) then FH(f) && a % 0x10 < 6 else a % 0x10 > 9;
    MkFBits(Neg(r), r == 0, B5(r), h, B3(r), Parity(r), FN(f), DaaHigh(a, f));
  }

  lemma BcdDigits(b: byte)
    ensures Bcd(b) ==> 0 <= b / 0x10 <= 9 && 0 <= b % 0x10 <= 9
    ensures b == 0x10 * (b / 0x10) + b % 0x10 && Digits(b) == 10 * (b / 0x10) + b % 0x10
  {
  }

  lemma TwoDigits(h: int, l: int)
    requires 0 <= h <= 9 && 0 <= l <= 9
    ensures Bcd(0x10 * h + l) && Digits(0x10 * h + l) == 10 * h + l
  {
  }

  /** The sum of digits ah al and bh bl, corrected when a digit exceeds 9. */
  lemma AdjustSum(ah: int, al: int, bh: int, bl: int, cy: int, v: byte)
    requires 0 <= ah <= 9 && 0 <= al <= 9 && 0 <= bh <= 9 && 0 <= bl <= 9 && 0 <= cy <= 1
    requires v == B(0x10 * (ah + bh) + al + bl + cy)
    ensures var low := al + bl + cy > 9;
            var high := ah + bh + Num(low) > 9;
            && (low <==> al + bl + cy > 0x0F || v % 0x10 > 9)
            && (high <==> 0x10 * (ah + bh) + al + bl + cy > 0xFF || v > 0x99)
            && B(v + (if low then 6 else 0) + (if high then 0x60 else 0))
               == 0x10 * (ah + bh + Num(low) - 10 * Num(high)) + al + bl + cy - 10 * Num(low)
  {
    var l := al + bl + cy;
    var carry := Num(l > 0x0F);
    var h := ah + bh + carry;
    BinarySum(h, l - 0x10 * carry, v);
  }

  /** The high and the low digit of a binary sum. */
  lemma BinarySum(h: int, l: int, v: byte)
    requires 0 <= h < 0x20 && 0 <= l < 0x10 && v == B(0x10 * h + l)
    ensures v % 0x10 == l && v / 0x10 == if h < 0x10 then h else h - 0x10
  {
  }

  lemma AdcDaa(a: byte, b: byte, c: bool)
    requires Bcd(a) && Bcd(b)
    ensures var r := AluAdd(a, b, c);
            var d := Daa(r.v, r.f);
            Bcd(d.v) && Digits(d.v) + 100 * Num(FC(d.f)) == Digits(a) + Digits(b) + Num(c)
  {
    hide MkF, FC, FH, FN, AluAdd, Daa, Bcd, Digits, B;
    var r := AluAdd(a, b, c);
    AddFlags(a, b, c);
    DaaFlags(r.v, r.f);
    var ah, al, bh, bl := a / 0x10, a % 0x10, b / 0x10, b % 0x10;
    BcdDigits(a);
    BcdDigits(b);
    AdjustSum(ah, al, bh, bl, Num(c), r.v);
    var low := al + bl + Num(c) > 9;
    var high := ah + bh + Num(low) > 9;
    TwoDigits(ah + bh + Num(low) - 10 * Num(high), al + bl + Num(c) - 10 * Num(low));
  }

  lemma AdjustDifference(ah: int, al: int, bh: int, bl: int, cy: int, v: byte)
    requires 0 <= ah <= 9 && 0 <= al <= 9 && 0 <= bh <= 9 && 0 <= bl <= 9 && 0 <= cy <= 1
    requires v == B(0x10 * (ah - bh) + al - bl - cy)
    ensures var low := al - bl - cy < 0;
            var high := ah - bh - Num(low) < 0;
            && (high <==> 0x10 * (ah - bh) + al - bl - cy < 0)
            && B(v - (if low then 6 else 0) - (if high then 0x60 else 0))
               == 0x10 * (ah - bh - Num(low) + 10 * Num(high)) + al - bl - cy + 10 * Num(low)
  {
  }

  lemma SbcDaa(a: byte, b: byte, c: bool)
    requires Bcd(a) && Bcd(b)
    ensures var r := AluSub(a, b, c);
            var d := Daa(r.v, r.f);
            Bcd(d.v) && Digits(d.v) - 100 * Num(FC(d.f)) == Digits(a) - Digits(b) - Num(c)
  {
    hide MkF, FC, FH, FN, AluSub, Daa, Bcd, Digits, B;
    var r := AluSub(a, b, c);
    SubFlags(a, b, c);
    DaaFlags(r.v, r.f);
    var ah, al, bh, bl := a / 0x10, a % 0x10, b / 0x10, b % 0x10;
    BcdDigits(a);
    BcdDigits(b);
    AdjustDifference(ah, al, bh, bl, Num(c), r.v);
    var low := al - bl - Num(c) < 0;
    var high := ah - bh - Num(low) < 0;
    TwoDigits(ah - bh - Num(low) + 10 * Num(high), al - bl - Num(c) + 10 * Num(low));
  }

  // ---- Chains of any length ------------------------------------------------------------------

  /** What one byte of a chain does: the new byte and the carry or borrow into the next. */
  datatype Digit = Digit(v: byte, carry: bool)

  /** The four byte steps: ADC and SBC, alone or followed by DAA. */
  datatype Kind = Kind(subtract: bool, decimal: bool)

  function ByteStep(k: Kind, a: byte, b: byte, c: bool): Digit {
    var r := if k.subtract then AluSub(a, b, c) else AluAdd(a, b, c);
    var d := if k.decimal then Daa(r.v, r.f) else r;
    Digit(d.v, FC(d.f))
  }

  /** The bytes of a chain, least significant first, and the final carry or borrow. */
  function Chain(k: Kind, xs: seq<byte>, ys: seq<byte>, c: bool): (r: (seq<byte>, bool))
    requires |xs| == |ys|
    ensures |r.0| == |xs|
  {
    if xs == [] then ([], c)
    else
      var d := ByteStep(k, xs[0], ys[0], c);
      var (rest, carry) := Chain(k, xs[1..], ys[1..], d.carry);
      ([d.v] + rest, carry)
  }

  /** One place of the number system: 256 for binary bytes, 100 for packed decimal ones. */
  function Base(k: Kind): int { if k.decimal then 100 else 0x100 }
  function Place(k: Kind, b: byte): int { if k.decimal then Digits(b) else b }
  predicate Proper(k: Kind, b: byte) { k.decimal ==> Bcd(b) }

  function Value(k: Kind, xs: seq<byte>): int {
    if xs == [] then 0 else Place(k, xs[0]) + Base(k) * Value(k, xs[1..])
  }

  function Power(k: Kind, n: nat): int { if n == 0 then 1 else Base(k) * Power(k, n - 1) }

  /** A carry out counts as plus one of the next place, a borrow as minus one. */
  function Sign(k: Kind, c: bool): int { if !c then 0 else if k.subtract then -1 else 1 }

  /** The exact sum or difference. */
  function Exact(k: Kind, x: int, y: int, c: bool): int {
    if k.subtract then x - y - Num(c) else x + y + Num(c)
  }

  lemma ByteStepExact(k: Kind, a: byte, b: byte, c: bool)
    requires Proper(k, a) && Proper(k, b)
    ensures var d := ByteStep(k, a, b, c);
            && Proper(k, d.v)
            && Place(k, d.v) + Base(k) * Sign(k, d.carry) == Exact(k, Place(k, a), Place(k, b), c)
  {
    hide AluAdd, AluSub, Daa, FC, FN, FH, Bcd, Digits, B;
    if k.decimal {
      if k.subtract { SbcDaa(a, b, c); } else { AdcDaa(a, b, c); }
    } else if k.subtract {
      SubFlags(a, b, c);
      CarryOut(a - b - Num(c));
    } else {
      AddFlags(a, b, c);
      CarryOut(a + b + Num(c));
    }
  }

  /** What the carry or borrow makes up for. */
  lemma CarryOut(x: int)
    ensures 0 <= x < 0x200 ==> B(x) + 0x100 * Num(x > 0xFF) == x
    ensures -0x100 <= x < 0x100 ==> B(x) - 0x100 * Num(x < 0) == x
  {
  }

  /**
   A chain of n bytes computes the exact sum or difference of the two numbers modulo the
   n-th power of the base, and its last carry or borrow makes up the difference. With DAA
   the bytes are packed decimal throughout.
   */
  lemma {:induction false} ChainExact(k: Kind, xs: seq<byte>, ys: seq<byte>, c: bool)
    requires |xs| == |ys|
    requires forall i :: 0 <= i < |xs| ==> Proper(k, xs[i]) && Proper(k, ys[i])
    ensures var (rs, carry) := Chain(k, xs, ys, c);
            && (forall i :: 0 <= i < |rs| ==> Proper(k, rs[i]))
            && Value(k, rs) + Power(k, |xs|) * Sign(k, carry) == Exact(k, Value(k, xs), Value(k, ys), c)
  {
    hide ByteStep, Proper, Place, Sign, Base;
    if xs == [] {
      ChainEmpty(k, c);
    } else {
      var d := ByteStep(k, xs[0], ys[0], c);
      ByteStepExact(k, xs[0], ys[0], c);
      ChainExact(k, xs[1..], ys[1..], d.carry);
      var (rest, carry) := Chain(k, xs[1..], ys[1..], d.carry);
      var rs := [d.v] + rest;
      assert Chain(k, xs, ys, c) == (rs, carry);
      assert rs[1..] == rest;
      ChainArithmetic(k, Value(k, rest), Value(k, xs[1..]), Value(k, ys[1..]), Power(k, |xs| - 1),
                      Place(k, d.v), Place(k, xs[0]), Place(k, ys[0]), c, d.carry, carry);
    }
  }

  lemma ChainEmpty(k: Kind, c: bool)
    ensures Value(k, []) + Power(k, 0) * Sign(k, c) == Exact(k, Value(k, []), Value(k, []), c)
  {
  }

  lemma ChainArithmetic(k: Kind, r: int, x: int, y: int, p: int, d: int, a: int, b: int,
                        c: bool, c1: bool, c2: bool)
    requires d + Base(k) * Sign(k, c1) == Exact(k, a, b, c)
    requires r + p * Sign(k, c2) == Exact(k, x, y, c1)
    ensures d + Base(k) * r + Base(k) * p * Sign(k, c2) == Exact(k, a + Base(k) * x, b + Base(k) * y, c)
  {
  }

  // ---- The instructions themselves -------------------------------------------------------------

  /** ADC A,n or SBC A,n (opcode CE or DE), then DAA (27), as ExecuteOne runs them. */
  lemma DecimalInstructions(s: Cpu)
    requires Imm8(s) == 0xCE || Imm8(s) == 0xDE
    requires s.ram[W(s.pc + 2)] == 0x27
    ensures var d := ByteStep(Kind(Imm8(s) == 0xDE, true), RegA(s), s.ram[W(s.pc + 1)], FC(RegF(s)));
            var e := Execute(Execute(s).s).s;
            RegA(e) == d.v && FC(RegF(e)) == d.carry
  {
    hide Execute, AluAdd, AluSub, Daa, FC, FN, FH, Pair, Hi, Lo, BumpR;
    var op, n := Imm8(s), s.ram[W(s.pc + 1)];
    var r := if op == 0xDE then AluSub(RegA(s), n, FC(RegF(s))) else AluAdd(RegA(s), n, FC(RegF(s)));
    var s1 := Execute(s).s;
    AluImmediate(s);
    PairParts(r.v, r.f);
    assert s1.pc == W(s.pc + 2) && s1.ram == s.ram;
    DaaInstruction(s1);
    var d := Daa(r.v, r.f);
    PairParts(d.v, d.f);
  }

  lemma AluImmediate(s: Cpu)
    requires Imm8(s) == 0xCE || Imm8(s) == 0xDE
    ensures var n := s.ram[W(s.pc + 1)];
            var r := if Imm8(s) == 0xDE then AluSub(RegA(s), n, FC(RegF(s)))
                     else AluAdd(RegA(s), n, FC(RegF(s)));
            var s1 := Execute(s).s;
            s1.af == Pair(r.v, r.f) && s1.pc == W(s.pc + 2) && s1.ram == s.ram
  {
    hide Execute, X3Z6, AluAdd, AluSub, FC, Pair, Hi, Lo, BumpR, W;
    Z80Decode.PlainRow(s, Imm8(s));
    Z80Decode.NextPc(s.pc, 1);
    var s1 := Fetched(s);
    if Imm8(s) == 0xCE {
      assert Fx(0xCE) == 3 && Fy(0xCE) == 1 && Fz(0xCE) == 6;
      AdcRow(s1);
    } else {
      assert Fx(0xDE) == 3 && Fy(0xDE) == 3 && Fz(0xDE) == 6;
      SbcRow(s1);
    }
  }

  lemma AdcRow(s: Cpu)
    ensures X3Z6(s, 1) == Done(SetRes(Adv(s, 1), AluAdd(RegA(s), Imm8(s), FC(RegF(s)))), 7)
  {
    hide AluAdd, FC, Pair, Hi, Lo, W;
  }

  lemma SbcRow(s: Cpu)
    ensures X3Z6(s, 3) == Done(SetRes(Adv(s, 1), AluSub(RegA(s), Imm8(s), FC(RegF(s)))), 7)
  {
    hide AluSub, FC, Pair, Hi, Lo, W;
  }

  lemma DaaRow(s: Cpu)
    ensures X0Z7(s, 4) == Done(SetRes(s, Daa(RegA(s), RegF(s))), 4)
  {
    hide Daa, AccRot, Cpl, Scf, Ccf, Pair, Hi, Lo;
  }

  lemma DaaInstruction(s: Cpu)
    requires Imm8(s) == 0x27
    ensures var d := Daa(RegA(s), RegF(s)); Execute(s).s.af == Pair(d.v, d.f)
  {
    hide Execute, X0Z7, Daa, Pair, Hi, Lo, BumpR;
    Z80Decode.PlainRow(s, 0x27);
    assert Fx(0x27) == 0 && Fy(0x27) == 4 && Fz(0x27) == 7;
    DaaRow(Fetched(s));
  }
}
