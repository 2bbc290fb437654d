/**
 What a conditional jump, call or return decides: two executed instructions, an operation on A
 and the branch behind it, in terms of the two bytes that were compared.
 */
module Z80Branches {
  import opened Bitwise
  import opened Bytes
  import opened Z80State
  import opened Z80Step
  import opened Z80Flags
  import opened Z80Manual
  import opened Z80Table

  /** The eight conditions by the manual's names. */
  datatype Cc = NZ | Z | NC | C | PO | PE | P | M

  /** JR, then JP, CALL and RET, each with a condition. */
  predicate IsJr(b: byte) { b == 0x20 || b == 0x28 || b == 0x30 || b == 0x38 }
  predicate IsJp(b: byte) {
    b == 0xC2 || b == 0xCA || b == 0xD2 || b == 0xDA || b == 0xE2 || b == 0xEA || b == 0xF2 || b == 0xFA
  }
  predicate IsCall(b: byte) {
    b == 0xC4 || b == 0xCC || b == 0xD4 || b == 0xDC || b == 0xE4 || b == 0xEC || b == 0xF4 || b == 0xFC
  }
  predicate IsRet(b: byte) {
    b == 0xC0 || b == 0xC8 || b == 0xD0 || b == 0xD8 || b == 0xE0 || b == 0xE8 || b == 0xF0 || b == 0xF8
  }

  predicate IsBranch(b: byte) { IsJr(b) || IsJp(b) || IsCall(b) || IsRet(b) }

  /** The condition a branch opcode asks for. */
  function Asked(b: byte): Cc
    requires IsBranch(b)
  {
    match b
    case 0x20 => NZ case 0xC2 => NZ case 0xC4 => NZ case 0xC0 => NZ
    case 0x28 => Z case 0xCA => Z case 0xCC => Z case 0xC8 => Z
    case 0x30 => NC case 0xD2 => NC case 0xD4 => NC case 0xD0 => NC
    case 0x38 => C case 0xDA => C case 0xDC => C case 0xD8 => C
    case 0xE2 => PO case 0xE4 => PO case 0xE0 => PO
    case 0xEA => PE case 0xEC => PE case 0xE8 => PE
    case 0xF2 => P case 0xF4 => P case 0xF0 => P
    case _ => M
  }

  /** The branch b at t's PC was taken or not: PC, T-states, stack, and nothing else changes. */
  ghost predicate Branched(t: Cpu, b: byte, taken: bool, o: Out) {
    var next: word := (t.pc + if IsJr(b) then 2 else if IsRet(b) then 1 else 3) % 65536;
    var d: int, hi: int := t.ram[(t.pc + 1) % 65536], t.ram[(t.pc + 2) % 65536];
    var top: int := t.ram[(t.sp + 1) % 65536];
    var below: word := (t.sp - 2) % 65536;
    var pushes, pops := taken && IsCall(b), taken && IsRet(b);
    && o.t == (if IsJr(b) then (if taken then 12 else 7)
               else if IsJp(b) then 10
               else if IsCall(b) then (if taken then 17 else 10)
               else if taken then 11 else 5)
    && o.s.pc == (if !taken then next
                  else if IsJr(b) then (t.pc + 2 + if d < 128 then d else d - 256) % 65536
                  else if IsRet(b) then 256 * top + t.ram[t.sp]
                  else 256 * hi + d)
    && o.s.sp == (if pushes then below else if pops then (t.sp + 2) % 65536 else t.sp)
    && o.s.ram == (if pushes then t.ram[below := next % 256][(below + 1) % 65536 := next / 256] else t.ram)
    && o.s == t.(pc := o.s.pc, sp := o.s.sp, ram := o.s.ram, r := o.s.r, fetched := o.s.fetched,
                 cycles := t.cycles + o.t, instrs := t.instrs + 1)
  }

  /** The flag a condition looks at. */
  predicate Flagged(c: Cc, f: byte) {
    match c
    case NZ => !ZeroOf(f)
    case Z => ZeroOf(f)
    case NC => !CarryOf(f)
    case C => CarryOf(f)
    case PO => !ParityOf(f)
    case PE => ParityOf(f)
    case P => !SignOf(f)
    case M => SignOf(f)
  }

  lemma Asks(f: byte, b: byte)
    requires IsBranch(b)
    ensures Flagged(Asked(b), f) == Condition(f, if IsJr(b) then (b - 0x20) / 8 else (b - 0xC0) / 8)
  {
    hide ZeroOf, CarryOf, ParityOf, SignOf;
  }

  lemma JrIs(t: Cpu, b: byte)
    requires IsJr(b)
    ensures Branched(t, b, Condition(F(t), (b - 0x20) / 8), Unprefixed(t, b))
  {
    hide Condition, Refreshed;
  }

  lemma JpIs(t: Cpu, b: byte)
    requires IsJp(b)
    ensures Branched(t, b, Condition(F(t), (b - 0xC0) / 8), JumpIf(t, (b - 0xC0) / 8))
  {
    hide Condition, Refreshed;
  }

  lemma CallIs(t: Cpu, b: byte)
    requires IsCall(b)
    ensures Branched(t, b, Condition(F(t), (b - 0xC0) / 8), CallIf(t, (b - 0xC0) / 8))
  {
    hide Condition, Refreshed;
  }

  lemma RetIs(t: Cpu, b: byte)
    requires IsRet(b)
    ensures Branched(t, b, Condition(F(t), (b - 0xC0) / 8), ReturnIf(t, (b - 0xC0) / 8))
  {
    hide Condition, Refreshed;
  }

  lemma HighRows(t: Cpu, b: byte)
    requires IsBranch(b) && !IsJr(b)
    ensures var k := (b - 0xC0) / 8;
            Unprefixed(t, b) == if IsJp(b) then JumpIf(t, k) else if IsCall(b) then CallIf(t, k) else ReturnIf(t, k)
  {
    hide JumpIf, CallIf, ReturnIf, Low, Load, Operate, Stack3, Io3, OperateByte, Restart;
  }

  lemma BranchIs(t: Cpu, b: byte)
    requires IsBranch(b)
    ensures Branched(t, b, Flagged(Asked(b), F(t)), Unprefixed(t, b))
  {
    hide Branched, Flagged, Condition, Unprefixed, Asked, JumpIf, CallIf, ReturnIf;
    Asks(F(t), b);
    if IsJr(b) { JrIs(t, b); }
    else {
      HighRows(t, b);
      if IsJp(b) { JpIs(t, b); } else if IsCall(b) { CallIs(t, b); } else { RetIs(t, b); }
    }
  }

  // ---- The operation in front of the branch ------------------------------------------------------

  /** ADD, ADC, SUB, SBC, AND, XOR, OR, CP with a register or with the byte behind the opcode. */
  predicate IsAlu(op: byte) { 0x80 <= op < 0xC0 || (0xC0 <= op && op % 8 == 6) }
  function Operand(s: Cpu, op: byte): byte { if op < 0xC0 then Reg(s, op % 8) else N(s) }

  /** The operation op stands at PC and the branch b behind it; nothing comes in between. */
  predicate Pair(s: Cpu, op: byte, b: byte) {
    && Running(s) && Running(Step(s).s) && s.ram[s.pc] == op && IsAlu(op)
    && s.ram[(s.pc + if op < 0xC0 then 1 else 2) % 65536] == b && IsBranch(b)
  }

  /** After A - v, whether A keeps the difference or not. */
  predicate CompareMet(c: Cc, a: byte, v: byte) {
    match c
    case NZ => a != v
    case Z => a == v
    case NC => a >= v
    case C => a < v
    case PO => -128 <= Value(a) - Value(v) <= 127
    case PE => Value(a) - Value(v) < -128 || Value(a) - Value(v) > 127
    case P => (a - v) % 256 < 128
    case M => (a - v) % 256 >= 128
  }

  /** After a sum or difference, exact and with the operands taken as signed. */
  predicate SumMet(c: Cc, full: int, signed: int) {
    match c
    case NZ => full % 256 != 0
    case Z => full % 256 == 0
    case NC => 0 <= full <= 255
    case C => full < 0 || full > 255
    case PO => -128 <= signed <= 127
    case PE => signed < -128 || signed > 127
    case P => full % 256 < 128
    case M => full % 256 >= 128
  }

  /** After AND, XOR, OR with result r. */
  predicate BitsMet(c: Cc, r: byte) {
    match c
    case NZ => r != 0
    case Z => r == 0
    case NC => true
    case C => false
    case PO => !EvenOnes(r)
    case PE => EvenOnes(r)
    case P => r < 128
    case M => r >= 128
  }

  lemma FlagsRead(s: bool, z: bool, y: bool, h: bool, x: bool, p: bool, n: bool, c: bool)
    ensures var f := FlagByte(s, z, y, h, x, p, n, c);
            SignOf(f) == s && ZeroOf(f) == z && ParityOf(f) == p && CarryOf(f) == c
  {
    hide MkF, FlagByte, FS, FZ, FP, FC, SignOf, ZeroOf, ParityOf, CarryOf;
    FlagByteIs(s, z, y, h, x, p, n, c);
    MkFBits(s, z, y, h, x, p, n, c);
    FlagsAre(MkF(s, z, y, h, x, p, n, c));
  }

  lemma CompareFlags(c: Cc, a: byte, v: byte)
    ensures Flagged(c, Subtracted(a, v, false).1) == CompareMet(c, a, v)
    ensures Flagged(c, ComparedWith(a, v).1) == CompareMet(c, a, v)
  {
    hide FlagByte, SignOf, ZeroOf, ParityOf, CarryOf, Bit5, Bit3, Value;
    var r: byte := (a - v) % 256;
    var d := Value(a) - Value(v);
    FlagsRead(r >= 128, r == 0, Bit5(r), a % 16 < v % 16, Bit3(r), d < -128 || d > 127, true, a < v);
    FlagsRead(r >= 128, r == 0, Bit5(v), a % 16 < v % 16, Bit3(v), d < -128 || d > 127, true, a < v);
  }

  lemma SumFlags(c: Cc, a: byte, v: byte, cy: bool)
    ensures Flagged(c, Added(a, v, cy).1) == SumMet(c, a + v + One(cy), Value(a) + Value(v) + One(cy))
    ensures Added(a, v, cy).0 == (a + v + One(cy)) % 256
  {
    hide FlagByte, SignOf, ZeroOf, ParityOf, CarryOf, Bit5, Bit3, Value;
    var k := One(cy);
    var r: byte := (a + v + k) % 256;
    var d := Value(a) + Value(v) + k;
    FlagsRead(r >= 128, r == 0, Bit5(r), a % 16 + v % 16 + k > 15, Bit3(r), d < -128 || d > 127, false, a + v + k > 255);
  }

  lemma DifferenceFlags(c: Cc, a: byte, v: byte, cy: bool)
    ensures Flagged(c, Subtracted(a, v, cy).1) == SumMet(c, a - v - One(cy), Value(a) - Value(v) - One(cy))
    ensures Subtracted(a, v, cy).0 == (a - v - One(cy)) % 256
  {
    hide FlagByte, SignOf, ZeroOf, ParityOf, CarryOf, Bit5, Bit3, Value;
    var k := One(cy);
    var r: byte := (a - v - k) % 256;
    var d := Value(a) - Value(v) - k;
    FlagsRead(r >= 128, r == 0, Bit5(r), a % 16 < v % 16 + k, Bit3(r), d < -128 || d > 127, true, a - v - k < 0);
  }

  lemma BitFlags(c: Cc, op: BitOp, a: byte, v: byte)
    ensures Flagged(c, Joined8(op, a, v).1) == BitsMet(c, Joined8(op, a, v).0)
  {
    hide FlagByte, SignOf, ZeroOf, ParityOf, CarryOf, Bit5, Bit3, EvenOnes, Combine;
    var r := Joined8(op, a, v).0;
    FlagsRead(r >= 128, r == 0, Bit5(r), op == Conj, Bit3(r), EvenOnes(r), false, false);
  }

  lemma CompareRow(c: Cc, k: int, a: byte, v: byte, f: byte)
    requires k == 2 || k == 7
    ensures Flagged(c, Operated(k, a, v, f).1) == CompareMet(c, a, v)
    ensures Operated(k, a, v, f).0 == if k == 2 then (a - v) % 256 else a
  {
    hide Flagged, CompareMet, FlagByte, Value;
    CompareFlags(c, a, v);
  }

  lemma SumRow(k: int, a: byte, v: byte, f: byte, cy: bool)
    requires 0 <= k < 4 && cy == (k % 2 == 1 && CarryOf(f))
    ensures Operated(k, a, v, f) == if k < 2 then Added(a, v, cy) else Subtracted(a, v, cy)
  {
    hide Added, Subtracted, CarryOf;
  }

  lemma BitsRow(c: Cc, k: int, a: byte, v: byte, f: byte, op: BitOp)
    requires 4 <= k < 7 && op == match k case 4 => Conj case 5 => Differ case _ => Disj
    ensures Flagged(c, Operated(k, a, v, f).1) == BitsMet(c, Operated(k, a, v, f).0)
    ensures forall i :: 0 <= i < 8 ==> BitAt(Operated(k, a, v, f).0, i) == Joined(op, BitAt(a, i), BitAt(v, i))
  {
    hide Flagged, BitsMet, FlagByte, BitAt, Combine, Joined;
    BitFlags(c, op, a, v);
    forall i | 0 <= i < 8
      ensures BitAt(Combine(op, a, v, 8), i) == Joined(op, BitAt(a, i), BitAt(v, i))
    {
      CombineAt(op, a, v, 8, i);
    }
  }

  lemma CompareOpcodes(op: byte)
    requires op / 8 == 18 || op / 8 == 23 || op == 0xD6 || op == 0xFE
    ensures op / 8 % 8 == if op / 8 == 18 || op == 0xD6 then 2 else 7
  {
  }

  /** The first of the two instructions. */
  lemma Operates(s: Cpu, op: byte)
    requires Running(s) && s.ram[s.pc] == op && IsAlu(op)
    ensures var t := Step(s).s;
            var (a, f) := Operated(op / 8 % 8, A(s), Operand(s, op), F(s));
            && t == Started(s).(pc := (s.pc + if op < 0xC0 then 1 else 2) % 65536, af := Word(a, f),
                                r := t.r, fetched := t.fetched, cycles := t.cycles, instrs := t.instrs)
            && A(t) == a && F(t) == f && Started(t) == t
  {
    hide Step, Operated, Refreshed, Low, Load, Stack3, Io3, ReturnIf, CallIf, JumpIf, Restart;
    StepIsManual(s);
  }

  lemma OperatesThenBranch(s: Cpu, op: byte, b: byte)
    requires Pair(s, op, b)
    ensures var t := Step(s).s;
            Branched(t, b, Flagged(Asked(b), Operated(op / 8 % 8, A(s), Operand(s, op), F(s)).1), Step(t))
  {
    hide Step, Operated, Running, Branched, Flagged, Asked, Reg, Unprefixed;
    Operates(s, op);
    var t := Step(s).s;
    StepIsManual(t);
    BranchIs(t, b);
  }

  /**
   CP or SUB and a branch: JR, JP, CALL or RET goes for NZ and Z by equality, for NC and C by
   the unsigned order, for PO and PE by signed overflow, for P and M by bit 7 of the difference.
   */
  lemma CompareThenBranch(s: Cpu, op: byte, b: byte)
    requires Pair(s, op, b) && (op / 8 == 18 || op / 8 == 23 || op == 0xD6 || op == 0xFE)
    ensures var t := Step(s).s;
            && Branched(t, b, CompareMet(Asked(b), A(s), Operand(s, op)), Step(t))
            && t.pc == (s.pc + if op < 0xC0 then 1 else 2) % 65536 && t.ram == s.ram && t.sp == s.sp
            && A(t) == if op / 8 == 18 || op == 0xD6 then (A(s) - Operand(s, op)) % 256 else A(s)
  {
    hide Step, Running, Branched, Flagged, Asked, CompareMet, Operand, Operated, A, F;
    Operates(s, op);
    OperatesThenBranch(s, op, b);
    CompareOpcodes(op);
    CompareRow(Asked(b), op / 8 % 8, A(s), Operand(s, op), F(s));
  }

  /** ADD, ADC, SUB, SBC and a branch; ADC and SBC count the carry in. */
  lemma SumThenBranch(s: Cpu, op: byte, b: byte)
    requires Pair(s, op, b) && op / 8 % 8 < 4
    ensures var t := Step(s).s;
            var row, a, v := op / 8 % 8, A(s), Operand(s, op);
            var cy := One(row % 2 == 1 && CarryOf(F(s)));
            var full := if row < 2 then a + v + cy else a - v - cy;
            var signed := if row < 2 then Value(a) + Value(v) + cy else Value(a) - Value(v) - cy;
            Branched(t, b, SumMet(Asked(b), full, signed), Step(t)) && A(t) == full % 256
  {
    hide Step, Running, Branched, Flagged, Asked, SumMet, Operand, Operated, Added, Subtracted, A, F, Value, One, CarryOf;
    var cy := op / 8 % 8 % 2 == 1 && CarryOf(F(s));
    Operates(s, op);
    OperatesThenBranch(s, op, b);
    SumRow(op / 8 % 8, A(s), Operand(s, op), F(s), cy);
    SumFlags(Asked(b), A(s), Operand(s, op), cy);
    DifferenceFlags(Asked(b), A(s), Operand(s, op), cy);
  }

  /** The operation of AND, XOR and OR. */
  function Joins(op: byte): BitOp { match op / 8 % 8 case 4 => Conj case 5 => Differ case _ => Disj }

  /** AND, XOR, OR: every bit of A comes from the same bits of A and of the operand. */
  lemma LogicBits(s: Cpu, op: byte)
    requires Running(s) && s.ram[s.pc] == op && IsAlu(op) && 4 <= op / 8 % 8 < 7
    ensures var t := Step(s).s;
            forall i :: 0 <= i < 8 ==> BitAt(A(t), i) == Joined(Joins(op), BitAt(A(s), i), BitAt(Operand(s, op), i))
  {
    hide Step, Running, Operand, Operated, A, F, BitAt, Joined;
    Operates(s, op);
    BitsRow(NZ, op / 8 % 8, A(s), Operand(s, op), F(s), Joins(op));
  }

  /** With a branch behind: PE goes by an even number of ones, NC always. */
  lemma LogicThenBranch(s: Cpu, op: byte, b: byte)
    requires Pair(s, op, b) && 4 <= op / 8 % 8 < 7
    ensures var t := Step(s).s; Branched(t, b, BitsMet(Asked(b), A(t)), Step(t))
  {
    hide Step, Running, Branched, Flagged, Asked, BitsMet, Operand, Operated, A, F;
    Operates(s, op);
    OperatesThenBranch(s, op, b);
    BitsRow(Asked(b), op / 8 % 8, A(s), Operand(s, op), F(s), Joins(op));
  }
}
