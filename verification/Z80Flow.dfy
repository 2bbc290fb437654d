/**
 Where the next instruction is: every instruction that does not divert control leaves PC
 exactly Decode's length further on.
 */
module Z80Flow {
  import opened Bytes
  import opened Z80State
  import opened Z80Alu
  import opened Z80Exec
  import opened Z80Index
  import opened Z80Ed
  import opened Z80Step
  import opened Z80Disasm
  import opened Z80Decode

  /** Unprefixed jumps, calls, returns and restarts. */
  predicate DivertsPlain(op: byte) {
    var y, z := Fy(op), Fz(op);
    if Fx(op) == 0 then z == 0 && y >= 2
    else Fx(op) == 3 && (z == 0 || (z == 1 && (y == 1 || y == 5)) || z == 2 || (z == 3 && y == 0) || z == 4
                         || (z == 5 && y == 1) || z == 7)
  }

  /** Returns, and the block instructions that repeat. */
  predicate DivertsEd(sub: byte) { IsEdReturn(sub) || (Fx(sub) == 2 && Fy(sub) >= 6 && Fz(sub) < 4) }

  /** The instruction at a may continue elsewhere than behind itself. */
  predicate Diverts(m: Ram, a: word) {
    var op, sub := m[a], m[W(a + 1)];
    if op == 0xDD || op == 0xFD then sub == 0xE9 || PrefixIgnored(m, a)
    else if op == 0xED then DivertsEd(sub)
    else op != 0xCB && DivertsPlain(op)
  }

  /** o has PC n bytes after s. */
  predicate Ahead(s: Cpu, o: Out, n: nat) { o.s.pc == W(s.pc + n) }

  lemma Here(pc: word)
    ensures W(pc) == pc && W(W(pc + 1) + 1) == W(pc + 2)
  {
  }

  // ---- Unprefixed -----------------------------------------------------------------------

  lemma Quad0LowAhead(s: Cpu, op: byte)
    requires Fx(op) == 0 && Fz(op) < 3 && !DivertsPlain(op)
    ensures Ahead(s, Quad0(s, op), PlainOperands(op))
  {
    Here(s.pc);
    hide Pair, Hi, Lo, W, Cond, Add16, ReadWord, WriteWord, Rel;
  }

  lemma Quad0HighAhead(s: Cpu, op: byte)
    requires Fx(op) == 0 && 3 <= Fz(op)
    ensures Ahead(s, Quad0(s, op), PlainOperands(op))
  {
    Here(s.pc);
    hide Pair, Hi, Lo, W, Inc8, Dec8, AccOp;
  }

  lemma RegsAhead(s: Cpu, y: int, z: int)
    requires 0 <= y < 8 && 0 <= z < 8
    ensures Ahead(s, LdReg(s, y, z), 0) && Ahead(s, AluReg(s, y, z), 0)
  {
    Here(s.pc);
    hide Pair, Hi, Lo, W, AluOp;
  }

  lemma CbAhead(s: Cpu, cb: byte)
    ensures Cb(s, cb).s.pc == s.pc
  {
    hide Pair, Hi, Lo, W, Rot, BitFlags, ResBit, SetBit;
  }

  lemma Quad3Ahead(s: Cpu, op: byte)
    requires Fx(op) == 3 && !IsPrefix(op) && Fz(op) != 3 && !DivertsPlain(op)
    ensures Ahead(s, Quad3(s, op), PlainOperands(op))
  {
    Here(s.pc);
    hide Pair, Hi, Lo, W, Cond, AluOp, ReadWord, WriteWord;
  }

  lemma X3Z3Ahead(s: Cpu, op: byte)
    requires Fx(op) == 3 && Fz(op) == 3 && (op == 0xCB || !DivertsPlain(op))
    ensures Ahead(s, Quad3(s, op), if op == 0xCB then 1 else PlainOperands(op))
  {
    Here(s.pc);
    hide Pair, Hi, Lo, W, ReadWord, WriteWord, Stored, PortValue, Answered, Cb;
    if op == 0xCB { CbAhead(Bump(Adv(s, 1)), Imm8(s)); }
  }

  lemma PlainAhead(s: Cpu, op: byte)
    requires !IsPrefix(op) && (op == 0xCB || !DivertsPlain(op))
    ensures Ahead(s, Plain(s, op), if op == 0xCB then 1 else PlainOperands(op))
  {
    hide Ahead, Quad0, LdReg, AluReg, Quad3;
    if Fx(op) == 0 {
      if Fz(op) < 3 { Quad0LowAhead(s, op); } else { Quad0HighAhead(s, op); }
    } else if Fx(op) < 3 {
      RegsAhead(s, Fy(op), Fz(op));
    } else if Fz(op) == 3 {
      X3Z3Ahead(s, op);
    } else {
      Quad3Ahead(s, op);
    }
  }

  // ---- DD and FD ------------------------------------------------------------------------

  lemma IdxWordsAhead(s: Cpu, i: Index, op: byte)
    requires Fx(op) == 0 && Fz(op) < 4 && !Unprefixable(op)
    ensures Ahead(s, IdxQuad0(s, i, op), IndexOperands(op))
  {
    Here(s.pc);
    hide Pair, Hi, Lo, W, Add16, ReadWord, WriteWord;
  }

  lemma IdxBytesAhead(s: Cpu, i: Index, op: byte)
    requires Fx(op) == 0 && Fz(op) >= 4 && !Unprefixable(op)
    ensures Ahead(s, IdxQuad0(s, i, op), IndexOperands(op))
  {
    Here(s.pc);
    hide Pair, Hi, Lo, W, Inc8, Dec8, Signed;
  }

  lemma IdxRegsAhead(s: Cpu, i: Index, op: byte)
    requires (Fx(op) == 1 || Fx(op) == 2) && !Unprefixable(op)
    ensures Ahead(s, Indexed(s, i, op), IndexOperands(op))
  {
    Here(s.pc);
    hide Pair, Hi, Lo, W, AluOp, Signed;
  }

  lemma IdxCbAhead(s: Cpu, i: Index)
    ensures Ahead(s, IdxCb(s, i), 2)
  {
    Here(s.pc);
    hide Pair, Hi, Lo, W, Rot, BitFlags, ResBit, SetBit, Signed;
  }

  lemma IdxStackAhead(s: Cpu, i: Index, op: byte)
    requires Fx(op) == 3 && op != 0xCB && op != 0xE9 && !Unprefixable(op)
    ensures Ahead(s, IdxStack(s, i, Fy(op), Fz(op)), IndexOperands(op))
  {
    Here(s.pc);
    hide Pair, Hi, Lo, W, ReadWord, WriteWord;
  }

  lemma IndexedAhead(s: Cpu, i: Index, op: byte)
    requires op != 0xE9 && !Unprefixable(op)
    ensures Ahead(s, Indexed(s, i, op), IndexOperands(op))
  {
    hide Ahead, IdxQuad0, IdxLdReg, IdxAlu, IdxCb, IdxStack;
    if Fx(op) == 0 {
      if Fz(op) < 4 { IdxWordsAhead(s, i, op); } else { IdxBytesAhead(s, i, op); }
    } else if Fx(op) < 3 {
      IdxRegsAhead(s, i, op);
    } else if op == 0xCB {
      IdxCbAhead(s, i);
    } else {
      IdxStackAhead(s, i, op);
    }
  }

  // ---- ED ---------------------------------------------------------------------------------

  lemma EdQuad1Ahead(s: Cpu, op: byte)
    requires Fx(op) == 1 && !IsEdReturn(op)
    ensures Ahead(s, EdQuad1(s, op), EdOperands(op))
  {
    Here(s.pc);
    hide Pair, Hi, Lo, W, Stored, PortValue, Answered, InFlags, MkF, Wr8, Rd8;
    hide ReadWord, WriteWord, Sbc16, Adc16, AluSub;
    Wr8Keeps(InFrom(s, Lo(s.bc)), Fy(op), PortValue(s));
  }

  lemma EdBlockAhead(s: Cpu, y: int, z: int)
    requires y < 6
    ensures Ahead(s, EdBlock(s, y, z), 0)
  {
    Here(s.pc);
    hide Pair, Hi, Lo, W, Stored, PortValue, Answered, IoFlags, MkF, Matches;
  }

  lemma EdAhead(s: Cpu, op: byte)
    requires !DivertsEd(op)
    ensures Ahead(s, Ed(s, op), EdOperands(op))
  {
    Here(s.pc);
    hide EdQuad1, EdBlock, W;
    if Fx(op) == 1 {
      EdQuad1Ahead(s, op);
    } else if Fx(op) == 2 && Fy(op) >= 4 && Fz(op) < 4 {
      EdBlockAhead(s, Fy(op), Fz(op));
    }
  }

  // ---- The whole instruction -----------------------------------------------------------------

  lemma Further(pc: word, n: nat)
    ensures W(W(pc + 1) + n) == W(pc + 1 + n) && W(W(W(pc + 1) + 1) + n) == W(pc + 2 + n)
  {
  }

  /** Straight-line code runs as the disassembler lists it. */
  lemma StraightLine(s: Cpu)
    requires !Diverts(s.ram, s.pc)
    ensures Execute(s).s.pc == W(s.pc + Length(s.ram, s.pc))
  {
    hide Plain, Indexed, Ed, BumpR, W, PlainOperands, IndexOperands, EdOperands, Unprefixable, DivertsPlain, DivertsEd;
    var op := Imm8(s);
    var s1 := Fetched(s);
    var sub := Imm8(s1);
    if op == 0xDD || op == 0xFD {
      Further(s.pc, IndexOperands(sub));
      IndexedAhead(Fetched(s1), if op == 0xDD then IX else IY, sub);
    } else if op == 0xED {
      Further(s.pc, EdOperands(sub));
      EdAhead(Fetched(s1), sub);
    } else {
      Further(s.pc, if op == 0xCB then 1 else PlainOperands(op));
      PlainAhead(s1, op);
    }
  }

  /**
   A prefix that has no effect is a NOP: Decode counts two bytes there, but PC moves by one,
   so that the suffix itself is the next instruction; two R increments, 4 T-states and one
   instruction are counted and nothing else changes.
   */
  lemma IgnoredPrefix(s: Cpu)
    requires PrefixIgnored(s.ram, s.pc)
    ensures Length(s.ram, s.pc) == 2
    ensures Execute(s) == Out(s.(pc := W(s.pc + 1), r := BumpR(BumpR(s.r)), fetched := s.fetched + 2,
                                 cycles := s.cycles + 4, instrs := s.instrs + 1), 4)
  {
    hide BumpR, Execute, W;
    ExecuteDdFd(s, if Imm8(s) == 0xDD then IX else IY);
    BackOne(s.pc);
  }

  lemma BackOne(pc: word)
    ensures W(W(W(pc + 1) + 1) - 1) == W(pc + 1)
  {
  }
}
