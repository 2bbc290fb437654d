/** What the EM8's conditional branches decide, over two executed instructions. */
module Em8Branches {
  import opened Bytes
  import opened Em8State
  import opened Em8Exec
  import opened Em8Flags
  import opened Em8Manual

  /** A flag reads back as it was put, and the others as they were. */
  lemma PutReads(fl: byte, w: byte, v: bool, u: byte)
    requires Weight(w) && Weight(u)
    ensures On(PutFlag(fl, w, v), u) == if u == w then v else On(fl, u)
  {
    hide On, PutFlag, Has, WithFlag;
    WithIs(fl, w, v);
    HasIs(PutFlag(fl, w, v), u);
    HasIs(fl, u);
    if u == w { SameFlag(fl, w, v); } else { OtherFlag(fl, w, v, u); }
  }

  /** The branch opcode's question, asked of a register and the value it was compared with. */
  predicate Decides(br: byte, r: byte, v: byte) {
    match br
    case 0x50 => r == v
    case 0x51 => r != v
    case 0x52 => r >= v
    case 0x53 => r < v
    case 0x54 => (r - v) % 256 >= 128
    case _ => (r - v) % 256 < 128
  }

  lemma CompareGoes(fl: byte, r: byte, v: byte, br: byte)
    requires 0x50 <= br <= 0x55
    ensures Goes(Compare(fl, r, v), br) == Decides(br, r, v)
  {
    hide On, PutFlag;
    var f1 := PutFlag(fl, 1, r >= v);
    var f2 := PutFlag(f1, 2, r == v);
    var n := (r - v) % 256 >= 128;
    PutReads(f2, 128, n, 1);
    PutReads(f2, 128, n, 2);
    PutReads(f2, 128, n, 128);
    PutReads(f1, 2, r == v, 1);
    PutReads(f1, 2, r == v, 2);
    PutReads(fl, 1, r >= v, 1);
  }

  /** The two instructions op v; br d stand at PC, outside the I/O window. */
  predicate TwoAhead(s: Cpu, op: byte, v: byte, br: byte, d: byte) {
    && !s.halted && PlainCode(s) && PlainCode(s.(pc := W(s.pc + 2)))
    && s.ram[s.pc] == op && s.ram[W(s.pc + 1)] == v && s.ram[W(s.pc + 2)] == br && s.ram[W(s.pc + 3)] == d
  }

  /** Where the pair leads when the branch is taken, and when it is not. */
  function Target(pc: word, d: byte, goes: bool): int {
    (pc + 4 + if !goes then 0 else if d < 128 then d as int else d - 256) % 65536
  }

  /** The register that CMP #v (24), CPX #v (38) or CPY #v (3C) compares. */
  function Compared(s: Cpu, op: byte): byte { if op == 0x38 then s.x else if op == 0x3C then s.y else s.a }

  lemma Compares(s: Cpu, op: byte, v: byte, br: byte, d: byte)
    requires TwoAhead(s, op, v, br, d) && (op == 0x24 || op == 0x38 || op == 0x3C)
    ensures Step(s) == s.(pc := W(s.pc + 2), fl := Compare(s.fl, Compared(s, op), v),
                          cycles := s.cycles + 2, instrs := s.instrs + 1)
  {
    hide Step, Compare, W, Stacked, LoadReg, StoreReg, Shifted, Bumped, Transferred, Flagged, Idle;
    StepIsManual(s);
  }

  /**
   CMP, CPX or CPY with an immediate value and a branch behind it: BEQ and BNE go by
   equality, BCS and BCC by the unsigned order, BMI and BPL by bit 7 of the difference.
   */
  lemma CompareThenBranch(s: Cpu, op: byte, v: byte, br: byte, d: byte)
    requires TwoAhead(s, op, v, br, d) && (op == 0x24 || op == 0x38 || op == 0x3C) && 0x50 <= br <= 0x55
    ensures var goes := Decides(br, Compared(s, op), v);
            var e := Step(Step(s));
            && e.pc == Target(s.pc, d, goes) && e.cycles == s.cycles + (if goes then 5 else 4)
            && e.a == s.a && e.x == s.x && e.y == s.y && e.ram == s.ram
  {
    hide Step, Decides, Goes, Compare, W, Manual;
    Compares(s, op, v, br, d);
    CompareGoes(s.fl, Compared(s, op), v, br);
    StepIsManual(Step(s));
    BranchEnds(Step(s), s.pc);
  }

  lemma PairWraps(pc: word)
    ensures W(W(pc + 2) + 1) == W(pc + 3) && W(W(pc + 2) + 2) == W(pc + 4)
  {
  }

  /** Where a branch two bytes behind pc ends up. */
  lemma BranchEnds(t: Cpu, pc: word)
    requires t.pc == W(pc + 2) && 0x50 <= t.ram[t.pc] <= 0x58
    ensures Manual(t) == Jump(t, t.ram[t.pc]) && Arg1(t) == t.ram[W(pc + 3)]
    ensures Jump(t, t.ram[t.pc]).pc == Target(pc, Arg1(t), Goes(t.fl, t.ram[t.pc]))
  {
    hide Goes, Arith, Stacked, LoadReg, StoreReg, Shifted, Bumped, Transferred, Flagged, Idle;
    PairWraps(pc);
    Casts(pc + 2);
    Casts(pc + 4);
    Casts(pc + 2 + 2);
    RelativeWraps(pc, Value(Arg1(t)));
  }

  lemma RelativeWraps(pc: word, d: int)
    ensures (W(pc + 2) + 2 + d) % 65536 == (pc + 4 + d) % 65536
  {
    AddWraps(pc + 2, 2 + d);
    Casts(W(pc + 2) + 2 + d);
    Casts(pc + 4 + d);
  }

  lemma SumOverflows(a: byte, fl: byte, v: byte)
    ensures var c := if On(fl, 1) then 1 else 0;
            On(Sum(a, fl, v).1, 64) <==> !(-128 <= Value(a) + Value(v) + c <= 127)
    ensures var b := if On(fl, 1) then 0 else 1;
            On(Difference(a, fl, v).1, 64) <==> !(-128 <= Value(a) - Value(v) - b <= 127)
  {
    hide On, PutFlag, Value;
    var c, b := if On(fl, 1) then 1 else 0, if On(fl, 1) then 0 else 1;
    var d, e := Value(a) + Value(v) + c, Value(a) - Value(v) - b;
    NzKeeps(PutFlag(PutFlag(fl, 1, a + v + c > 255), 64, d < -128 || d > 127), (a + v + c) % 256);
    NzKeeps(PutFlag(PutFlag(fl, 1, a - v - b >= 0), 64, e < -128 || e > 127), (a - v - b) % 256);
    PutReads(PutFlag(fl, 1, a + v + c > 255), 64, d < -128 || d > 127, 64);
    PutReads(PutFlag(fl, 1, a - v - b >= 0), 64, e < -128 || e > 127, 64);
  }

  lemma NzKeeps(fl: byte, v: byte)
    ensures On(NZ(fl, v), 64) == On(fl, 64)
  {
    hide On, PutFlag;
    PutReads(PutFlag(fl, 2, v == 0), 128, v >= 128, 64);
    PutReads(fl, 2, v == 0, 64);
  }

  /** The exact signed result of ADD #v (10) or SUB #v (14). */
  function SignedResult(s: Cpu, op: byte, v: byte): int {
    var c := if s.fl % 2 == 1 then 1 else 0;
    if op == 0x10 then Value(s.a) + Value(v) + c else Value(s.a) - Value(v) - (1 - c)
  }

  lemma SumSigned(s: Cpu, op: byte, v: byte)
    requires op == 0x10 || op == 0x14
    ensures var r := if op == 0x10 then Sum(s.a, s.fl, v) else Difference(s.a, s.fl, v);
            && (On(r.1, 64) <==> !(-128 <= SignedResult(s, op, v) <= 127))
            && (SignedResult(s, op, v) - Value(r.0)) % 256 == 0
  {
    hide PutFlag, NZ;
    SumOverflows(s.a, s.fl, v);
    var c := if s.fl % 2 == 1 then 1 else 0;
    Congruent(s.a + v + c, Value(s.a) + Value(v) + c, if s.a < 128 then 0 else 1, if v < 128 then 0 else 1);
    Congruent(s.a - v - (1 - c), Value(s.a) - Value(v) - (1 - c), if s.a < 128 then 0 else 1, if v < 128 then 0 else -1);
  }

  /** Numbers that differ by multiples of 256 leave the same byte. */
  lemma Congruent(x: int, y: int, p: int, q: int)
    requires x == y + 256 * (p + q)
    ensures (y - Value(x % 256)) % 256 == 0
  {
    var k := x / 256;
    assert x == 256 * k + x % 256;
  }

  lemma Adds(s: Cpu, op: byte, v: byte, br: byte, d: byte)
    requires TwoAhead(s, op, v, br, d) && (op == 0x10 || op == 0x14)
    ensures var r := if op == 0x10 then Sum(s.a, s.fl, v) else Difference(s.a, s.fl, v);
            Step(s) == s.(pc := W(s.pc + 2), a := r.0, fl := r.1, cycles := s.cycles + 2, instrs := s.instrs + 1)
  {
    hide Step, Sum, Difference, W, Stacked, LoadReg, StoreReg, Shifted, Bumped, Transferred, Flagged, Idle;
    StepIsManual(s);
  }

  /** ADD #v or SUB #v, then BVS (56) or BVC (57): taken by whether the signed result overflows. */
  lemma AddThenBranch(s: Cpu, op: byte, v: byte, br: byte, d: byte)
    requires TwoAhead(s, op, v, br, d) && (op == 0x10 || op == 0x14) && 0x56 <= br <= 0x57
    ensures var overflows := !(-128 <= SignedResult(s, op, v) <= 127);
            var e := Step(Step(s));
            && e.pc == Target(s.pc, d, overflows == (br == 0x56))
            && (SignedResult(s, op, v) - Value(e.a)) % 256 == 0
  {
    hide Step, W, Manual, Sum, Difference, SignedResult, Value, On;
    Adds(s, op, v, br, d);
    SumSigned(s, op, v);
    StepIsManual(Step(s));
    BranchEnds(Step(s), s.pc);
  }
}
