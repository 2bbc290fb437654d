/**
 The EM8 instruction set by opcode byte, told from scratch: which bytes are read, which
 register, flag, memory byte and cycle count each opcode leaves. The opcode bytes are those of
 em8/src/Em8Cpu.cpp. Every instruction the engine executes does exactly this.
 */
module Em8Manual {
  import opened Bitwise
  import opened Bytes
  import opened Em8State
  import opened Em8Exec
  import opened Em8Flags

  // ---- Bytes, addresses and flags -----------------------------------------------------------

  function Arg1(s: Cpu): byte { s.ram[W(s.pc + 1)] }
  function Arg2(s: Cpu): byte { s.ram[W(s.pc + 2)] }
  function LowHigh(lo: byte, hi: byte): word { (lo as int) + 256 * (hi as int) }
  function ArgWord(s: Cpu): word { LowHigh(Arg1(s), Arg2(s)) }

  /** The instruction lies outside the I/O window. */
  predicate PlainCode(s: Cpu) {
    !(0xF000 <= s.pc < 0xF020) && !(0xF000 <= W(s.pc + 1) < 0xF020) && !(0xF000 <= W(s.pc + 2) < 0xF020)
  }

  /** The machine with PC behind an instruction of n bytes that takes c cycles. */
  function After(s: Cpu, n: nat, c: nat): Cpu {
    s.(pc := W(s.pc + n), cycles := s.cycles + c, instrs := s.instrs + 1)
  }

  /** The byte at an address, the device's next answer inside the I/O window, and the bus after reading it. */
  function Peek(s: Cpu, a: word): byte {
    if 0xF000 <= a < 0xF020 then (if s.bus.feed == [] then 0 else s.bus.feed[0]) else s.ram[a]
  }

  function BusAfter(s: Cpu, a: word): Bus {
    if 0xF000 <= a < 0xF020 then
      Bus(if s.bus.feed == [] then [] else s.bus.feed[1..], s.bus.log + [DeviceRead(a, Peek(s, a))])
    else s.bus
  }

  /** The address an opcode names; its own argument for an immediate one. */
  function Address(s: Cpu, op: byte): word {
    match op
    case 0x11 | 0x15 | 0x19 | 0x1D | 0x21 | 0x25 | 0xA1 | 0xA7 | 0xAA | 0xAC | 0xB1 | 0xB3 => Arg1(s)
    case 0xA3 | 0xAE => (Arg1(s) + s.x) % 256
    case 0x12 | 0x16 | 0x26 | 0xA2 | 0xA8 | 0xAB | 0xAD | 0xB2 | 0xB4 => ArgWord(s)
    case 0xA4 | 0xAF => (ArgWord(s) + s.x) % 65536
    case 0xA5 | 0xB0 => LowHigh(s.ram[Arg1(s)], s.ram[(Arg1(s) + 1) % 256])
    case _ => W(s.pc + 1)
  }

  /** Bytes and cycles of an instruction with a read or stored operand. */
  function Length(op: byte): nat {
    match op
    case 0x12 | 0x16 | 0x26 | 0xA2 | 0xA4 | 0xA8 | 0xAB | 0xAD | 0xAF | 0xB2 | 0xB4 => 3
    case _ => 2
  }

  function Cycles(op: byte): nat {
    match op
    case 0x11 | 0x15 | 0x19 | 0x1D | 0x21 | 0x25 | 0xA1 | 0xA7 | 0xAA | 0xAC | 0xB1 | 0xB3 => 3
    case 0x12 | 0x16 | 0x26 | 0xA2 | 0xA3 | 0xA4 | 0xA8 | 0xAB | 0xAD | 0xAE | 0xB2 | 0xB4 => 4
    case 0xA5 | 0xAF => 5
    case 0xB0 => 6
    case _ => 2
  }

  /** The bit of weight w of a byte, and the byte with that bit written. */
  predicate On(fl: byte, w: int)
    requires w > 0
  {
    fl / w % 2 == 1
  }

  function Put(fl: byte, w: int, v: bool): int
    requires w > 0
  {
    fl - (if On(fl, w) then w else 0) + if v then w else 0
  }

  /** Flags by weight: N 128, V 64, B 16, I 4, Z 2, C 1. */
  function PutFlag(fl: byte, w: int, v: bool): byte
    requires w == 1 || w == 2 || w == 4 || w == 16 || w == 64 || w == 128
  {
    PutFits(fl, w, v);
    Put(fl, w, v)
  }

  lemma PutFits(fl: byte, w: int, v: bool)
    requires w == 1 || w == 2 || w == 4 || w == 16 || w == 64 || w == 128
    ensures 0 <= Put(fl, w, v) < 0x100
  {
  }

  function NZ(fl: byte, v: byte): byte { PutFlag(PutFlag(fl, 2, v == 0), 128, v >= 128) }

  /** The two's-complement value of a byte. */
  function Value(v: byte): int { if v < 128 then v else v - 256 }

  // ---- The instructions ---------------------------------------------------------------------

  /** A, X or Y, compared with an operand. */
  function Compare(fl: byte, r: byte, v: byte): byte {
    PutFlag(PutFlag(PutFlag(fl, 1, r >= v), 2, r == v), 128, (r - v) % 256 >= 128)
  }

  /** A and the flags after an addition of v and C, or a subtraction of v and 1 - C. */
  function Sum(a: byte, fl: byte, v: byte): (byte, byte) {
    var c := if On(fl, 1) then 1 else 0;
    var r := (a + v + c) % 256;
    var d := Value(a) + Value(v) + c;
    (r, NZ(PutFlag(PutFlag(fl, 1, a + v + c > 255), 64, d < -128 || d > 127), r))
  }

  function Difference(a: byte, fl: byte, v: byte): (byte, byte) {
    var b := if On(fl, 1) then 0 else 1;
    var r := (a - v - b) % 256;
    var d := Value(a) - Value(v) - b;
    (r, NZ(PutFlag(PutFlag(fl, 1, a - v - b >= 0), 64, d < -128 || d > 127), r))
  }

  /** A joined bit by bit with v. */
  function Logic(op: BitOp, a: byte, fl: byte, v: byte): (byte, byte) {
    CombineBelow(op, a, v, 8);
    EightBits();
    var r: byte := Combine(op, a, v, 8);
    (r, NZ(fl, r))
  }

  lemma EightBits()
    ensures Pow2(8) == 256
  {
    assert Pow2(4) == 16;
    assert Pow2(6) == 64;
  }

  function WithA(s: Cpu, r: (byte, byte)): Cpu { s.(a := r.0, fl := r.1) }

  predicate IsArith(op: byte) {
    match op
    case 0x10 | 0x11 | 0x12 | 0x14 | 0x15 | 0x16 | 0x18 | 0x19 | 0x1C | 0x1D | 0x20 | 0x21
       | 0x24 | 0x25 | 0x26 | 0x38 | 0x3C => true
    case _ => false
  }

  /** ADD, SUB, AND, ORA, XOR, CMP, CPX, CPY. */
  function Arith(s: Cpu, op: byte): Cpu {
    var ea := Address(s, op);
    var v := Peek(s, ea);
    var t := After(s, Length(op), Cycles(op)).(bus := BusAfter(s, ea));
    match op
    case 0x10 | 0x11 | 0x12 => WithA(t, Sum(s.a, s.fl, v))
    case 0x14 | 0x15 | 0x16 => WithA(t, Difference(s.a, s.fl, v))
    case 0x18 | 0x19 => WithA(t, Logic(Conj, s.a, s.fl, v))
    case 0x1C | 0x1D => WithA(t, Logic(Disj, s.a, s.fl, v))
    case 0x20 | 0x21 => WithA(t, Logic(Differ, s.a, s.fl, v))
    case 0x38 => t.(fl := Compare(s.fl, s.x, v))
    case 0x3C => t.(fl := Compare(s.fl, s.y, v))
    case _ => t.(fl := Compare(s.fl, s.a, v))
  }

  /** ASL, LSR, ROL and ROR of A: like all that follow, one byte and two cycles. */
  function Shifted(s: Cpu, op: byte): Cpu {
    var t := After(s, 1, 2);
    var c := if On(s.fl, 1) then 1 else 0;
    match op
    case 0x40 => t.(a := 2 * s.a % 256, fl := NZ(PutFlag(s.fl, 1, s.a >= 128), 2 * s.a % 256))
    case 0x41 => t.(a := s.a / 2, fl := NZ(PutFlag(s.fl, 1, s.a % 2 == 1), s.a / 2))
    case 0x42 => t.(a := (2 * s.a + c) % 256, fl := NZ(PutFlag(s.fl, 1, s.a >= 128), (2 * s.a + c) % 256))
    case _ => t.(a := s.a / 2 + 128 * c, fl := NZ(PutFlag(s.fl, 1, s.a % 2 == 1), s.a / 2 + 128 * c))
  }

  /** INC and DEC of A, X and Y. */
  function Bumped(s: Cpu, op: byte): Cpu {
    var t := After(s, 1, 2);
    match op
    case 0x48 => t.(a := (s.a + 1) % 256, fl := NZ(s.fl, (s.a + 1) % 256))
    case 0x49 => t.(a := (s.a - 1) % 256, fl := NZ(s.fl, (s.a - 1) % 256))
    case 0x4A => t.(x := (s.x + 1) % 256, fl := NZ(s.fl, (s.x + 1) % 256))
    case 0x4B => t.(x := (s.x - 1) % 256, fl := NZ(s.fl, (s.x - 1) % 256))
    case 0x4C => t.(y := (s.y + 1) % 256, fl := NZ(s.fl, (s.y + 1) % 256))
    case _ => t.(y := (s.y - 1) % 256, fl := NZ(s.fl, (s.y - 1) % 256))
  }

  /** TAX, TXA, TAY, TYA, TXS and TSX. */
  function Transferred(s: Cpu, op: byte): Cpu {
    var t := After(s, 1, 2);
    match op
    case 0x80 => t.(x := s.a, fl := NZ(s.fl, s.a))
    case 0x81 => t.(a := s.x, fl := NZ(s.fl, s.x))
    case 0x82 => t.(y := s.a, fl := NZ(s.fl, s.a))
    case 0x83 => t.(a := s.y, fl := NZ(s.fl, s.y))
    case 0x84 => t.(sp := s.x)
    case _ => t.(x := s.sp, fl := NZ(s.fl, s.sp))
  }

  /** CLC, SEC, CLI, SEI and CLV. */
  function Flagged(s: Cpu, op: byte): Cpu {
    var t := After(s, 1, 2);
    match op
    case 0x90 => t.(fl := PutFlag(s.fl, 1, false))
    case 0x91 => t.(fl := PutFlag(s.fl, 1, true))
    case 0x92 => t.(fl := PutFlag(s.fl, 4, false))
    case 0x93 => t.(fl := PutFlag(s.fl, 4, true))
    case _ => t.(fl := PutFlag(s.fl, 64, false))
  }

  /** NOP, HLT, and the bytes that are no opcode: PC stays on them and the machine halts. */
  function Idle(s: Cpu, op: byte): Cpu {
    var t := After(s, 1, 2);
    match op
    case 0x98 => t
    case 0x9A => t.(halted := true)
    case _ => t.(halted := true, pc := s.pc)
  }

  /** The conditional branches and BRA: 50 to 58. */
  predicate Goes(fl: byte, op: byte) {
    match op
    case 0x50 => On(fl, 2)
    case 0x51 => !On(fl, 2)
    case 0x52 => On(fl, 1)
    case 0x53 => !On(fl, 1)
    case 0x54 => On(fl, 128)
    case 0x55 => !On(fl, 128)
    case 0x56 => On(fl, 64)
    case 0x57 => !On(fl, 64)
    case _ => true
  }

  function Jump(s: Cpu, op: byte): Cpu {
    if Goes(s.fl, op) then After(s, 2, 3).(pc := (s.pc + 2 + Value(Arg1(s))) % 65536) else After(s, 2, 2)
  }

  /** Loads of A, X and Y. */
  function LoadReg(s: Cpu, op: byte): Cpu {
    var ea := Address(s, op);
    var v := Peek(s, ea);
    var t := After(s, Length(op), Cycles(op)).(bus := BusAfter(s, ea), fl := NZ(s.fl, v));
    match op
    case 0xA0 | 0xA1 | 0xA2 | 0xA3 | 0xA4 | 0xA5 => t.(a := v)
    case 0xA6 | 0xA7 | 0xA8 => t.(x := v)
    case _ => t.(y := v)
  }

  /** Stores: into RAM, or to the device behind the I/O window. */
  function StoreReg(s: Cpu, op: byte): Cpu {
    var ea := Address(s, op);
    var t := After(s, Length(op), Cycles(op));
    var v := match op case 0xB1 | 0xB2 => s.x case 0xB3 | 0xB4 => s.y case _ => s.a;
    if 0xF000 <= ea < 0xF020 then t.(bus := Bus(s.bus.feed, s.bus.log + [DeviceWrite(ea, v)]))
    else t.(ram := s.ram[ea := v])
  }

  /** n bytes above SP in page 1, and the byte there; the page wraps. */
  function InPage(sp: byte, n: int): word { 256 + (sp + n) % 256 }

  /** The frame of an interrupt: PC and flags, high byte of PC first, and the vector taken. */
  function Entered(s: Cpu, pc: word, fl: byte, vector: word): Cpu {
    var m := s.ram[InPage(s.sp, 0) := pc / 256][InPage(s.sp, -1) := pc % 256][InPage(s.sp, -2) := fl];
    s.(ram := m, sp := (s.sp - 3) % 256, fl := PutFlag(s.fl, 4, true), pc := LowHigh(m[vector], m[(vector + 1) % 65536]))
  }

  function Stacked(s: Cpu, op: byte): Cpu {
    match op
    case 0x60 => After(s, 3, 3).(pc := ArgWord(s))
    case 0x61 =>
      var ret := (s.pc + 2) % 65536;
      After(s, 3, 6).(pc := ArgWord(s), sp := (s.sp - 2) % 256,
                      ram := s.ram[InPage(s.sp, 0) := ret / 256][InPage(s.sp, -1) := ret % 256],
                      shadow := if |s.shadow| < 256 then s.shadow + [(s.pc + 3) % 65536] else s.shadow)
    case 0x62 =>
      After(s, 1, 6).(pc := (LowHigh(s.ram[InPage(s.sp, 1)], s.ram[InPage(s.sp, 2)]) + 1) % 65536,
                      sp := (s.sp + 2) % 256,
                      shadow := if s.shadow == [] then [] else s.shadow[..|s.shadow| - 1])
    case 0x63 =>
      After(s, 1, 7).(fl := s.ram[InPage(s.sp, 1)], sp := (s.sp + 3) % 256,
                      pc := LowHigh(s.ram[InPage(s.sp, 2)], s.ram[InPage(s.sp, 3)]))
    case 0x70 => After(s, 1, 3).(ram := s.ram[InPage(s.sp, 0) := s.a], sp := (s.sp - 1) % 256)
    case 0x71 =>
      var v := s.ram[InPage(s.sp, 1)];
      After(s, 1, 4).(a := v, fl := NZ(s.fl, v), sp := (s.sp + 1) % 256)
    case 0x72 => After(s, 1, 3).(ram := s.ram[InPage(s.sp, 0) := s.fl], sp := (s.sp - 1) % 256)
    case 0x73 => After(s, 1, 4).(fl := s.ram[InPage(s.sp, 1)], sp := (s.sp + 1) % 256)
    case _ => Entered(After(s, 2, 7), (s.pc + 2) % 65536, PutFlag(s.fl, 16, true), 0xFFFE)
  }

  /** The opcode map. */
  function Manual(s: Cpu): Cpu {
    var op := s.ram[s.pc];
    if IsArith(op) then Arith(s, op)
    else if 0x50 <= op <= 0x58 then Jump(s, op)
    else if 0x60 <= op <= 0x63 || 0x70 <= op <= 0x73 || op == 0x99 then Stacked(s, op)
    else if 0xA0 <= op <= 0xAB then LoadReg(s, op)
    else if 0xAC <= op <= 0xB4 then StoreReg(s, op)
    else if 0x40 <= op <= 0x43 then Shifted(s, op)
    else if 0x48 <= op <= 0x4D then Bumped(s, op)
    else if 0x80 <= op <= 0x85 then Transferred(s, op)
    else if 0x90 <= op <= 0x94 then Flagged(s, op)
    else Idle(s, op)
  }

  // ---- Flags -----------------------------------------------------------------------------------

  lemma MaskN(v: bv8)
    ensures v & 0x80 != 0 <==> (v as int) / 128 % 2 == 1
  {
  }

  lemma MaskV(v: bv8)
    ensures v & 0x40 != 0 <==> (v as int) / 64 % 2 == 1
  {
  }

  lemma MaskB(v: bv8)
    ensures v & 0x10 != 0 <==> (v as int) / 16 % 2 == 1
  {
  }

  lemma MaskI(v: bv8)
    ensures v & 0x04 != 0 <==> (v as int) / 4 % 2 == 1
  {
  }

  lemma MaskZ(v: bv8)
    ensures v & 0x02 != 0 <==> (v as int) / 2 % 2 == 1
  {
  }

  lemma MaskC(v: bv8)
    ensures v & 0x01 != 0 <==> (v as int) / 1 % 2 == 1
  {
  }

  predicate Weight(w: byte) { w == 1 || w == 2 || w == 4 || w == 16 || w == 64 || w == 128 }

  lemma OnIs(fl: byte, w: byte, x: bv8, f: bv8)
    requires Weight(w) && x as int == fl && f == FlagBits(w)
    ensures On(fl, w) <==> x & f != 0
  {
    match w
    case 128 => MaskN(x);
    case 64 => MaskV(x);
    case 16 => MaskB(x);
    case 4 => MaskI(x);
    case 2 => MaskZ(x);
    case _ => MaskC(x);
  }

  lemma HasIs(fl: byte, w: byte)
    requires Weight(w)
    ensures Has(fl, w) == On(fl, w)
  {
    hide Has, On, FlagBits;
    HasBits(fl, w);
    ByteBack(fl);
    AsBits(w);
    OnIs(fl, w, fl as bv8, FlagBits(w));
  }

  lemma SetOf(x: bv8, w: byte)
    requires Weight(w)
    ensures (x | FlagBits(w)) as int == (x as int) + if x & FlagBits(w) != 0 then 0 else w as int
    ensures (x & !FlagBits(w)) as int == (x as int) - if x & FlagBits(w) != 0 then w as int else 0
  {
  }

  lemma WrittenInt(fl: byte, w: byte, v: bool) returns (x: bv8, r: bv8)
    requires Weight(w)
    ensures x as int == fl && r as int == WithFlag(fl, w, v)
    ensures r == if v then x | FlagBits(w) else x & !FlagBits(w)
  {
    hide WithFlag, FlagBits;
    x := fl as bv8;
    r := WithFlag(fl, w, v) as bv8;
    AsBits(w);
    Written(fl, w, v);
    ByteBack(fl);
    ByteBack(WithFlag(fl, w, v));
  }

  lemma WrittenWeight(x: bv8, r: bv8, w: byte, v: bool)
    requires Weight(w) && r == if v then x | FlagBits(w) else x & !FlagBits(w)
    ensures v ==> r as int == (x as int) + if x & FlagBits(w) != 0 then 0 else w as int
    ensures !v ==> r as int == (x as int) - if x & FlagBits(w) != 0 then w as int else 0
  {
    hide FlagBits;
    SetOf(x, w);
  }

  lemma WithIs(fl: byte, w: byte, v: bool)
    requires Weight(w)
    ensures WithFlag(fl, w, v) == PutFlag(fl, w, v)
  {
    hide WithFlag, On, FlagBits;
    var x, r := WrittenInt(fl, w, v);
    OnIs(fl, w, x, FlagBits(w));
    WrittenWeight(x, r, w, v);
  }

  lemma NzIs(s: Cpu, v: byte)
    ensures SetNZ(s, v) == s.(fl := NZ(s.fl, v))
  {
    hide WithFlag, PutFlag;
    WithIs(s.fl, 2, v == 0);
    WithIs(PutFlag(s.fl, 2, v == 0), 128, v >= 128);
  }

  // ---- Fetching --------------------------------------------------------------------------------

  lemma WStep(x: word)
    ensures W(W(x + 1) + 1) == W(x + 2) && W(W(x + 2) + 1) == W(x + 3)
  {
  }

  /** The instruction's bytes, and the machine behind them. */
  lemma Fetches(s: Cpu)
    requires PlainCode(s)
    ensures FetchV(s) == s.ram[s.pc] && FetchS(s) == s.(pc := W(s.pc + 1))
    ensures var s1 := s.(pc := W(s.pc + 1));
            && FetchV(s1) == Arg1(s) && FetchS(s1) == s.(pc := W(s.pc + 2))
            && Fetch16V(s1) == ArgWord(s) && Fetch16S(s1) == s.(pc := W(s.pc + 3))
  {
    hide W;
    WStep(s.pc);
  }

  /** The mode agrees with address and length of the opcode. */
  predicate Agrees(s: Cpu, op: byte, m: Mode) {
    && Length(op) == (if m.Abs? || m.AbsX? then 3 else 2)
    && Address(s, op) == match m
       case Imm => W(s.pc + 1)
       case Zpg => Arg1(s)
       case ZpgX => (Arg1(s) + s.x) % 256
       case Abs => ArgWord(s)
       case AbsX => (ArgWord(s) + s.x) % 65536
       case Ind => LowHigh(s.ram[Arg1(s)], s.ram[(Arg1(s) + 1) % 256])
  }

  lemma AddressIs(s: Cpu, op: byte, m: Mode)
    requires PlainCode(s) && Agrees(s, op, m) && !m.Imm?
    ensures var s1 := s.(pc := W(s.pc + 1));
            EaV(s1, m) == Address(s, op) && EaS(s1, m) == s.(pc := W(s.pc + Length(op)))
  {
    hide W, B, FetchV, FetchS, Fetch16V, Fetch16S, Length, Address;
    Fetches(s);
    Casts(Arg1(s) + s.x);
    Casts(ArgWord(s) + s.x);
    Casts(Arg1(s) + 1);
  }

  lemma OperandIs(s: Cpu, op: byte, m: Mode)
    requires PlainCode(s) && Agrees(s, op, m)
    ensures var s1 := s.(pc := W(s.pc + 1));
            var ea := Address(s, op);
            && OperandV(s1, m) == Peek(s, ea)
            && OperandS(s1, m) == s.(pc := W(s.pc + Length(op)), bus := BusAfter(s, ea))
  {
    hide W, EaV, EaS, FetchV, FetchS, Length, Address;
    Fetches(s);
    if !m.Imm? { AddressIs(s, op, m); }
  }

  // ---- Group by group -----------------------------------------------------------------------------

  /** An opcode's row in the decoder. */
  lemma Executes(s: Cpu, i: Instr)
    requires PlainCode(s) && !s.halted && Decode(s.ram[s.pc]) == i
    ensures var s1 := s.(pc := W(s.pc + 1));
            var c := Cost(i, i.Branch? && Has(s.fl, i.flag) == i.taken);
            var t := Exec(s1, i);
            Step(s) == t.(cycles := t.cycles + c, instrs := t.instrs + 1)
  {
    hide Exec, Cost, Decode, FetchV, FetchS, Has, W;
    Fetches(s);
  }

  lemma SumIs(s: Cpu, v: byte)
    ensures DoAdd(s, v) == WithA(s, Sum(s.a, s.fl, v))
  {
    hide WithFlag, PutFlag, Has, On, NZ, SetNZ, B, Neg;
    HasIs(s.fl, 1);
    var c := Carry(s);
    var r := B(s.a + v + c);
    Casts(s.a + v + c);
    var f1 := PutFlag(s.fl, 1, s.a + v + c > 255);
    WithIs(s.fl, 1, s.a + v + c > 255);
    var o := Neg(s.a) == Neg(v) && Neg(s.a) != Neg(r);
    WithIs(f1, 64, o);
    Carried(s.a, v, c);
    NzIs(s.(a := r, fl := PutFlag(f1, 64, o)), r);
  }

  lemma Borrowed(a: byte, v: byte, b: int)
    requires 0 <= b <= 1
    ensures var full := a + (0xFF - v) + (1 - b);
            var d := Value(a) - Value(v) - b;
            && full == a - v - b + 0x100 && full % 256 == (a - v - b) % 256
            && (Neg(a) != Neg(v) && Neg(a) != Neg(B(full)) <==> d < -128 || d > 127)
  {
  }

  lemma Carried(a: byte, v: byte, c: int)
    requires 0 <= c <= 1
    ensures var d := Value(a) + Value(v) + c;
            Neg(a) == Neg(v) && Neg(a) != Neg(B(a + v + c)) <==> d < -128 || d > 127
  {
  }

  lemma DifferenceIs(s: Cpu, v: byte)
    ensures DoSub(s, v) == WithA(s, Difference(s.a, s.fl, v))
  {
    hide WithFlag, PutFlag, Has, On, NZ, SetNZ, B, Neg;
    HasIs(s.fl, 1);
    var b := 1 - Carry(s);
    var full := s.a + (0xFF - v) + Carry(s);
    var r := B(full);
    Casts(full);
    var f1 := PutFlag(s.fl, 1, full > 0xFF);
    WithIs(s.fl, 1, full > 0xFF);
    var o := Neg(s.a) != Neg(v) && Neg(s.a) != Neg(r);
    WithIs(f1, 64, o);
    Borrowed(s.a, v, b);
    NzIs(s.(a := r, fl := PutFlag(f1, 64, o)), r);
  }

  lemma CompareIs(s: Cpu, r: byte, v: byte)
    ensures DoCmp(s, r, v) == s.(fl := Compare(s.fl, r, v))
  {
    hide WithFlag, PutFlag;
    var f1 := PutFlag(s.fl, 1, r >= v);
    var f2 := PutFlag(f1, 2, r == v);
    WithIs(s.fl, 1, r >= v);
    WithIs(f1, 2, r == v);
    Casts(r - v);
    WithIs(f2, 128, (r - v) % 256 >= 128);
  }

  lemma BitwiseIs(s: Cpu, v: byte)
    ensures ToA(s, And(s.a, v)) == WithA(s, Logic(Conj, s.a, s.fl, v))
    ensures ToA(s, Or(s.a, v)) == WithA(s, Logic(Disj, s.a, s.fl, v))
    ensures ToA(s, Xor(s.a, v)) == WithA(s, Logic(Differ, s.a, s.fl, v))
  {
    hide And, Or, Xor, Combine, SetNZ, NZ;
    ByteOps(s.a, v);
    NzIs(s.(a := And(s.a, v)), And(s.a, v));
    NzIs(s.(a := Or(s.a, v)), Or(s.a, v));
    NzIs(s.(a := Xor(s.a, v)), Xor(s.a, v));
  }

  /** The operation of an arithmetic opcode. */
  function Row(op: byte): (AluOp, Mode) {
    match op
    case 0x10 => (Add, Imm) case 0x11 => (Add, Zpg) case 0x12 => (Add, Abs)
    case 0x14 => (Sub, Imm) case 0x15 => (Sub, Zpg) case 0x16 => (Sub, Abs)
    case 0x18 => (AndA, Imm) case 0x19 => (AndA, Zpg)
    case 0x1C => (Ora, Imm) case 0x1D => (Ora, Zpg)
    case 0x20 => (Xora, Imm) case 0x21 => (Xora, Zpg)
    case 0x24 => (Cmp, Imm) case 0x25 => (Cmp, Zpg) case 0x26 => (Cmp, Abs)
    case 0x38 => (Cpx, Imm) case _ => (Cpy, Imm)
  }

  lemma RowAgrees(s: Cpu, op: byte)
    requires IsArith(op)
    ensures Decode(op) == Alu(Row(op).0, Row(op).1) && Agrees(s, op, Row(op).1)
    ensures ModeCycles(Row(op).1) == Cycles(op)
  {
    hide W, LowHigh;
  }

  lemma RowDoes(t: Cpu, op: byte, v: byte)
    requires IsArith(op)
    ensures DoAlu(t, Row(op).0, v) == match op
            case 0x10 | 0x11 | 0x12 => WithA(t, Sum(t.a, t.fl, v))
            case 0x14 | 0x15 | 0x16 => WithA(t, Difference(t.a, t.fl, v))
            case 0x18 | 0x19 => WithA(t, Logic(Conj, t.a, t.fl, v))
            case 0x1C | 0x1D => WithA(t, Logic(Disj, t.a, t.fl, v))
            case 0x20 | 0x21 => WithA(t, Logic(Differ, t.a, t.fl, v))
            case 0x38 => t.(fl := Compare(t.fl, t.x, v))
            case 0x3C => t.(fl := Compare(t.fl, t.y, v))
            case _ => t.(fl := Compare(t.fl, t.a, v))
  {
    hide Sum, Difference, Logic, Compare, DoAdd, DoSub, DoCmp, ToA, And, Or, Xor, WithA;
    SumIs(t, v);
    DifferenceIs(t, v);
    BitwiseIs(t, v);
    CompareIs(t, t.a, v);
    CompareIs(t, t.x, v);
    CompareIs(t, t.y, v);
  }

  lemma ArithIs(s: Cpu)
    requires PlainCode(s) && !s.halted && IsArith(s.ram[s.pc])
    ensures Step(s) == Arith(s, s.ram[s.pc])
  {
    hide Step, Peek, BusAfter, Sum, Difference, Compare, Logic, W, DoAlu, OperandV, OperandS, Decode, Length, Address,
         Agrees, ModeCycles, Row;
    var op := s.ram[s.pc];
    RowAgrees(s, op);
    Executes(s, Alu(Row(op).0, Row(op).1));
    OperandIs(s, op, Row(op).1);
    RowDoes(s.(pc := W(s.pc + Length(op)), bus := BusAfter(s, Address(s, op))), op, Peek(s, Address(s, op)));
  }

  lemma ShiftRow(op: byte)
    requires 0x40 <= op <= 0x43
    ensures Decode(op) == Shift(if op == 0x40 then Asl else if op == 0x41 then Lsr else if op == 0x42 then Rol else Ror)
  {
  }

  lemma LeftIs(s: Cpu)
    requires PlainCode(s) && !s.halted && (s.ram[s.pc] == 0x40 || s.ram[s.pc] == 0x42)
    ensures Step(s) == Shifted(s, s.ram[s.pc])
  {
    hide Step, WithFlag, PutFlag, SetNZ, NZ, Has, On, W, B, Decode;
    var first := s.ram[s.pc] == 0x40;
    assert Decode(s.ram[s.pc]) == Shift(if first then Asl else Rol) by { ShiftRow(s.ram[s.pc]); }
    Executes(s, Shift(if first then Asl else Rol));
    HasIs(s.fl, 1);
    Casts(2 * s.a);
    Casts(2 * s.a + Carry(s));
    var c := s.a >= 128;
    WithIs(s.fl, 1, c);
    var r: byte := if first then B(2 * s.a) else B(2 * s.a + Carry(s));
    NzIs(s.(pc := W(s.pc + 1), fl := PutFlag(s.fl, 1, c), a := r), r);
  }

  lemma RightIs(s: Cpu)
    requires PlainCode(s) && !s.halted && (s.ram[s.pc] == 0x41 || s.ram[s.pc] == 0x43)
    ensures Step(s) == Shifted(s, s.ram[s.pc])
  {
    hide Step, WithFlag, PutFlag, SetNZ, NZ, Has, On, W, B, Decode;
    var first := s.ram[s.pc] == 0x41;
    assert Decode(s.ram[s.pc]) == Shift(if first then Lsr else Ror) by { ShiftRow(s.ram[s.pc]); }
    Executes(s, Shift(if first then Lsr else Ror));
    HasIs(s.fl, 1);
    var c := s.a % 2 == 1;
    WithIs(s.fl, 1, c);
    var r: byte := if first then s.a / 2 else s.a / 2 + 0x80 * Carry(s);
    NzIs(s.(pc := W(s.pc + 1), fl := PutFlag(s.fl, 1, c), a := r), r);
  }

  /** The instructions of the opcodes 48 to 4D, 50 to 58, 80 to 85 and 90 to 94. */
  function ShortRow(op: byte): Instr {
    match op
    case 0x48 => Bump(A, true) case 0x49 => Bump(A, false)
    case 0x4A => Bump(X, true) case 0x4B => Bump(X, false)
    case 0x4C => Bump(Y, true) case 0x4D => Bump(Y, false)
    case 0x50 => Branch(2, true) case 0x51 => Branch(2, false)
    case 0x52 => Branch(1, true) case 0x53 => Branch(1, false)
    case 0x54 => Branch(128, true) case 0x55 => Branch(128, false)
    case 0x56 => Branch(64, true) case 0x57 => Branch(64, false)
    case 0x58 => Bra
    case 0x80 => Transfer(A, X) case 0x81 => Transfer(X, A)
    case 0x82 => Transfer(A, Y) case 0x83 => Transfer(Y, A)
    case 0x84 => Txs case 0x85 => Tsx
    case 0x90 => Flag(1, false) case 0x91 => Flag(1, true)
    case 0x92 => Flag(4, false) case 0x93 => Flag(4, true)
    case _ => Flag(64, false)
  }

  lemma ShortRowIs(op: byte)
    requires 0x48 <= op <= 0x4D || 0x50 <= op <= 0x58 || 0x80 <= op <= 0x85 || 0x90 <= op <= 0x94
    ensures Decode(op) == ShortRow(op)
  {
  }

  lemma BumpDoes(t: Cpu, r: Reg, up: bool)
    ensures var v: byte := (if up then RegOf(t, r) as int + 1 else RegOf(t, r) as int - 1) % 256;
            Exec(t, Bump(r, up)) == SetReg(t, r, v).(fl := NZ(t.fl, v))
  {
    hide SetNZ, NZ, B, ExecStack, ExecStore;
    var was: int := RegOf(t, r);
    Casts(was + 1);
    Casts(was - 1);
    var v := B(was + if up then 1 else -1);
    NzIs(SetReg(t, r, v), v);
  }

  lemma BumpIs(s: Cpu)
    requires PlainCode(s) && !s.halted && 0x48 <= s.ram[s.pc] <= 0x4D
    ensures Step(s) == Bumped(s, s.ram[s.pc])
  {
    hide Step, Decode, Exec, NZ, W;
    var op := s.ram[s.pc];
    var r := if op < 0x4A then A else if op < 0x4C then X else Y;
    ShortRowIs(op);
    Executes(s, Bump(r, op % 2 == 0));
    BumpDoes(s.(pc := W(s.pc + 1)), r, op % 2 == 0);
  }

  lemma TransferDoes(t: Cpu, from: Reg, to: Reg)
    ensures Exec(t, Transfer(from, to)) == SetReg(t, to, RegOf(t, from)).(fl := NZ(t.fl, RegOf(t, from)))
  {
    hide SetNZ, NZ, ExecStack, ExecStore;
    NzIs(SetReg(t, to, RegOf(t, from)), RegOf(t, from));
  }

  lemma PointerDoes(t: Cpu)
    ensures Exec(t, Txs) == t.(sp := t.x)
    ensures Exec(t, Tsx) == t.(x := t.sp, fl := NZ(t.fl, t.sp))
  {
    hide SetNZ, NZ, ExecStack, ExecStore;
    NzIs(t.(x := t.sp), t.sp);
  }

  lemma TransferIs(s: Cpu)
    requires PlainCode(s) && !s.halted && 0x80 <= s.ram[s.pc] <= 0x85
    ensures Step(s) == Transferred(s, s.ram[s.pc])
  {
    hide Step, Decode, Exec, NZ, W;
    var op := s.ram[s.pc];
    var t := s.(pc := W(s.pc + 1));
    ShortRowIs(op);
    Executes(s, ShortRow(op));
    TransferDoes(t, A, X);
    TransferDoes(t, X, A);
    TransferDoes(t, A, Y);
    TransferDoes(t, Y, A);
    PointerDoes(t);
  }

  lemma FlagDoes(t: Cpu, w: byte, v: bool)
    requires Weight(w)
    ensures Exec(t, Flag(w, v)) == t.(fl := PutFlag(t.fl, w, v))
  {
    hide WithFlag, PutFlag, ExecStack, ExecStore;
    WithIs(t.fl, w, v);
  }

  lemma FlagOpIs(s: Cpu)
    requires PlainCode(s) && !s.halted && 0x90 <= s.ram[s.pc] <= 0x94
    ensures Step(s) == Flagged(s, s.ram[s.pc])
  {
    hide Step, Decode, Exec, PutFlag, W;
    var op := s.ram[s.pc];
    ShortRowIs(op);
    Executes(s, ShortRow(op));
    FlagDoes(s.(pc := W(s.pc + 1)), ShortRow(op).f, ShortRow(op).v);
  }

  predicate IsIdle(op: byte) {
    && !IsArith(op) && !(0x40 <= op <= 0x43) && !(0x48 <= op <= 0x4D) && !(0x50 <= op <= 0x58)
    && !(0x60 <= op <= 0x63) && !(0x70 <= op <= 0x73) && !(0x80 <= op <= 0x85) && !(0x90 <= op <= 0x94)
    && op != 0x99 && !(0xA0 <= op <= 0xB4)
  }

  lemma NoOpcode(op: byte)
    requires IsIdle(op)
    ensures Decode(op) == if op == 0x98 then Nop else if op == 0x9A then Hlt else Undefined
  {
  }

  lemma IdleIs(s: Cpu)
    requires PlainCode(s) && !s.halted && IsIdle(s.ram[s.pc])
    ensures Step(s) == Idle(s, s.ram[s.pc])
  {
    hide Step, Decode, W, PutFlag, NZ, On;
    NoOpcode(s.ram[s.pc]);
    Executes(s, Decode(s.ram[s.pc]));
    PcBack(s.pc);
  }

  lemma PcBack(pc: word)
    ensures W(W(pc + 1) - 1) == pc
  {
  }

  lemma SignedIs(v: byte)
    ensures Signed(v) == Value(v)
  {
  }

  lemma GoesIs(fl: byte, op: byte)
    requires 0x50 <= op <= 0x58
    ensures var i := ShortRow(op);
            (op == 0x58 && i == Bra && Goes(fl, op)) || (i.Branch? && (Has(fl, i.flag) == i.taken) == Goes(fl, op))
  {
    hide Has, On;
    HasIs(fl, 1);
    HasIs(fl, 2);
    HasIs(fl, 64);
    HasIs(fl, 128);
  }

  lemma JumpIs(s: Cpu)
    requires PlainCode(s) && !s.halted && 0x50 <= s.ram[s.pc] <= 0x58
    ensures Step(s) == Jump(s, s.ram[s.pc])
  {
    hide Step, Decode, ExecStack, ExecStore, Has, Goes, W, FetchV, FetchS, ShortRow, Value;
    var op := s.ram[s.pc];
    ShortRowIs(op);
    Executes(s, ShortRow(op));
    Fetches(s);
    GoesIs(s.fl, op);
    AddWraps(s.pc + 2, Value(Arg1(s)));
    assert Signed(Arg1(s)) == Value(Arg1(s)) by { SignedIs(Arg1(s)); }
    Casts(s.pc + 2 + Value(Arg1(s)));
  }

  /** The register and mode of a load or store. */
  function DataRow(op: byte): (Reg, Mode) {
    match op
    case 0xA0 => (A, Imm) case 0xA1 => (A, Zpg) case 0xA2 => (A, Abs)
    case 0xA3 => (A, ZpgX) case 0xA4 => (A, AbsX) case 0xA5 => (A, Ind)
    case 0xA6 => (X, Imm) case 0xA7 => (X, Zpg) case 0xA8 => (X, Abs)
    case 0xA9 => (Y, Imm) case 0xAA => (Y, Zpg) case 0xAB => (Y, Abs)
    case 0xAC => (A, Zpg) case 0xAD => (A, Abs)
    case 0xAE => (A, ZpgX) case 0xAF => (A, AbsX) case 0xB0 => (A, Ind)
    case 0xB1 => (X, Zpg) case 0xB2 => (X, Abs)
    case 0xB3 => (Y, Zpg) case _ => (Y, Abs)
  }

  lemma DataRowAgrees(s: Cpu, op: byte)
    requires 0xA0 <= op <= 0xB4
    ensures Decode(op) == (if op <= 0xAB then Load(DataRow(op).0, DataRow(op).1) else Store(DataRow(op).0, DataRow(op).1))
    ensures Agrees(s, op, DataRow(op).1) && Cost(Decode(op), false) == Cycles(op)
    ensures op > 0xAB ==> !DataRow(op).1.Imm?
  {
    hide W, LowHigh;
  }

  lemma LoadIs(s: Cpu)
    requires PlainCode(s) && !s.halted && 0xA0 <= s.ram[s.pc] <= 0xAB
    ensures Step(s) == LoadReg(s, s.ram[s.pc])
  {
    hide Step, Decode, Cost, OperandV, OperandS, W, SetNZ, NZ, Agrees, Length, Address, Cycles, Peek, BusAfter;
    var op := s.ram[s.pc];
    var (r, m) := DataRow(op);
    DataRowAgrees(s, op);
    Executes(s, Load(r, m));
    OperandIs(s, op, m);
    var v := Peek(s, Address(s, op));
    var t := s.(pc := W(s.pc + Length(op)), bus := BusAfter(s, Address(s, op)));
    NzIs(SetReg(t, r, v), v);
  }

  lemma StoreIs(s: Cpu)
    requires PlainCode(s) && !s.halted && 0xAC <= s.ram[s.pc] <= 0xB4
    ensures Step(s) == StoreReg(s, s.ram[s.pc])
  {
    hide Step, Decode, Cost, EaV, EaS, W, Agrees, Length, Address, Cycles;
    var op := s.ram[s.pc];
    DataRowAgrees(s, op);
    Executes(s, Store(DataRow(op).0, DataRow(op).1));
    AddressIs(s, op, DataRow(op).1);
  }

  // ---- The stack ------------------------------------------------------------------------------------

  lemma PageIs(sp: byte)
    ensures InPage(sp, 0) == 0x100 + sp && InPage(sp, -1) == 0x100 + B(sp - 1) && InPage(sp, -2) == 0x100 + B(B(sp - 1) - 1)
    ensures InPage(sp, 1) == 0x100 + B(sp + 1) && InPage(sp, 2) == 0x100 + B(B(sp + 1) + 1)
    ensures InPage(sp, 3) == 0x100 + B(B(B(sp + 1) + 1) + 1)
    ensures B(sp - 1) == (sp - 1) % 256 && B(B(sp - 1) - 1) == (sp - 2) % 256 && B(B(B(sp - 1) - 1) - 1) == (sp - 3) % 256
    ensures B(sp + 1) == (sp + 1) % 256 && B(B(sp + 1) + 1) == (sp + 2) % 256 && B(B(B(sp + 1) + 1) + 1) == (sp + 3) % 256
  {
  }

  lemma EnteredIs(s: Cpu, fl: byte, vector: word)
    ensures EnterHandler(s, fl, vector) == Entered(s, s.pc, fl, vector)
  {
    hide B, W, InPage, WithFlag, PutFlag;
    PageIs(s.sp);
    WithIs(s.fl, 4, true);
    Casts(vector + 1);
  }

  lemma JsrIs(s: Cpu)
    requires PlainCode(s) && !s.halted && s.ram[s.pc] == 0x61
    ensures Step(s) == Stacked(s, 0x61)
  {
    hide Step, B, W, InPage, FetchV, FetchS, Fetch16V, Fetch16S;
    Executes(s, Jsr);
    Fetches(s);
    PageIs(s.sp);
    BehindLast(s.pc);
  }

  lemma BehindLast(pc: word)
    ensures W(W(pc + 3) - 1) == (pc + 2) % 65536 && W(pc + 3) == (pc + 3) % 65536
  {
  }

  lemma RtsIs(s: Cpu)
    requires PlainCode(s) && !s.halted && s.ram[s.pc] == 0x62
    ensures Step(s) == Stacked(s, 0x62)
  {
    hide Step, ExecPlain, ExecStore, B, W, InPage;
    Executes(s, Rts);
    PageIs(s.sp);
    Casts(LowHigh(s.ram[InPage(s.sp, 1)], s.ram[InPage(s.sp, 2)]) + 1);
  }

  lemma RtiIs(s: Cpu)
    requires PlainCode(s) && !s.halted && s.ram[s.pc] == 0x63
    ensures Step(s) == Stacked(s, 0x63)
  {
    hide Step, ExecPlain, ExecStore, B, W, InPage;
    Executes(s, Rti);
    PageIs(s.sp);
  }

  lemma PlaIs(s: Cpu)
    requires PlainCode(s) && !s.halted && s.ram[s.pc] == 0x71
    ensures Step(s) == Stacked(s, 0x71)
  {
    hide Step, ExecPlain, ExecStore, B, W, InPage, SetNZ, NZ;
    Executes(s, Pla);
    PageIs(s.sp);
    var v := s.ram[InPage(s.sp, 1)];
    NzIs(s.(pc := W(s.pc + 1), sp := B(s.sp + 1), a := v), v);
  }

  lemma PlfIs(s: Cpu)
    requires PlainCode(s) && !s.halted && s.ram[s.pc] == 0x73
    ensures Step(s) == Stacked(s, 0x73)
  {
    hide Step, ExecPlain, ExecStore, B, W, InPage;
    Executes(s, Plf);
    PageIs(s.sp);
  }

  lemma PhaIs(s: Cpu)
    requires PlainCode(s) && !s.halted && s.ram[s.pc] == 0x70
    ensures Step(s) == Stacked(s, 0x70)
  {
    hide Step, ExecPlain, ExecStore, B, W, InPage;
    Executes(s, Pha);
    PageIs(s.sp);
  }

  lemma PhfIs(s: Cpu)
    requires PlainCode(s) && !s.halted && s.ram[s.pc] == 0x72
    ensures Step(s) == Stacked(s, 0x72)
  {
    hide Step, ExecPlain, ExecStore, B, W, InPage;
    Executes(s, Phf);
    PageIs(s.sp);
  }

  lemma JmpIs(s: Cpu)
    requires PlainCode(s) && !s.halted && s.ram[s.pc] == 0x60
    ensures Step(s) == Stacked(s, 0x60)
  {
    hide Step, ExecStack, ExecStore, W, FetchV, FetchS, Fetch16V, Fetch16S;
    Executes(s, Jmp);
    Fetches(s);
  }

  lemma BrkIs(s: Cpu)
    requires PlainCode(s) && !s.halted && s.ram[s.pc] == 0x99
    ensures Step(s) == Stacked(s, 0x99)
  {
    hide Step, W, EnterHandler, Or, PutFlag, InPage;
    Executes(s, Brk);
    WStep(s.pc);
    Casts(s.pc + 2);
    WithIs(s.fl, 16, true);
    EnteredIs(s.(pc := W(s.pc + 2)), Or(s.fl, 16), 0xFFFE);
  }

  // ---- Every instruction ----------------------------------------------------------------------------

  /** The engine executes the opcode map: registers, flags, memory, devices, shadow stack and cycles. */
  lemma StepIsManual(s: Cpu)
    requires PlainCode(s) && !s.halted
    ensures Step(s) == Manual(s)
  {
    hide Step, Arith, Jump, Stacked, LoadReg, StoreReg, Shifted, Bumped, Transferred, Flagged, Idle, PlainCode;
    var op := s.ram[s.pc];
    if IsArith(op) { ArithIs(s); }
    else if op == 0x40 || op == 0x42 { LeftIs(s); }
    else if op == 0x41 || op == 0x43 { RightIs(s); }
    else if 0x48 <= op <= 0x4D { BumpIs(s); }
    else if 0x50 <= op <= 0x58 { JumpIs(s); }
    else if op == 0x61 { JsrIs(s); }
    else if op == 0x60 { JmpIs(s); }
    else if op == 0x62 { RtsIs(s); }
    else if op == 0x63 { RtiIs(s); }
    else if op == 0x70 { PhaIs(s); }
    else if op == 0x71 { PlaIs(s); }
    else if op == 0x72 { PhfIs(s); }
    else if op == 0x73 { PlfIs(s); }
    else if op == 0x99 { BrkIs(s); }
    else if 0x80 <= op <= 0x85 { TransferIs(s); }
    else if 0x90 <= op <= 0x94 { FlagOpIs(s); }
    else if 0xA0 <= op <= 0xAB { LoadIs(s); }
    else if 0xAC <= op <= 0xB4 { StoreIs(s); }
    else { IdleIs(s); }
  }

  /** Between instructions: NMI goes through FFFA, an unmasked IRQ through FFFE, with B clear in the saved flags. */
  lemma InterruptsAre(s: Cpu)
    ensures CheckInterrupts(s) ==
            if s.halted then s
            else if s.nmi then Entered(s.(nmi := false), s.pc, PutFlag(s.fl, 16, false), 0xFFFA)
            else if s.irq && !On(s.fl, 4) then Entered(s, s.pc, PutFlag(s.fl, 16, false), 0xFFFE)
            else s
  {
    hide EnterHandler, Entered, Has, On, And, PutFlag;
    HasIs(s.fl, 4);
    WithIs(s.fl, 16, false);
    EnteredIs(s.(nmi := false), And(s.fl, 0xEF), 0xFFFA);
    EnteredIs(s, And(s.fl, 0xEF), 0xFFFE);
  }

  /**
   A reset starts at the address in FFFC and FFFD with an empty stack, cleared registers, and
   interrupts masked: an IRQ that is raised then stays unanswered.
   */
  lemma ResetIs(s: Cpu)
    ensures var t := Reset(s); var hi: int := s.ram[0xFFFD];
            && t.pc == 256 * hi + s.ram[0xFFFC] && t.sp == 255 && t.a == 0 && t.x == 0 && t.y == 0 && t.fl == 4
            && !t.halted && !t.nmi && !t.irq && t.ram == s.ram && t.shadow == [] && t.cycles == 0 && t.instrs == 0
            && CheckInterrupts(t.(irq := true)) == t.(irq := true)
  {
    hide EnterHandler;
    InterruptsAre(Reset(s).(irq := true));
  }
}
