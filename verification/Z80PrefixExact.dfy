/**
 Exactly which suffixes a DD or FD prefix carries over from HL to the index register, and
 what happens at those the dispatcher does not know.
 */
module Z80PrefixExact {
  import opened Bytes
  import opened Z80State
  import opened Z80Alu
  import opened Z80Exec
  import opened Z80Index
  import opened Z80Step
  import opened Z80Disasm
  import opened Z80Decode
  import opened Z80Prefix

  /** The suffixes that name (HL): with a prefix they take (IX+d) and longer than 4 T-states more. */
  predicate NamesMemory(op: byte) {
    var y, z := Fy(op), Fz(op);
    if Fx(op) == 0 then y == 6 && 4 <= z <= 6
    else if Fx(op) == 1 then (y == 6) != (z == 6)
    else if Fx(op) == 2 then z == 6
    else op == 0xCB
  }

  /** Every suffix is substituted, or names (HL), or is not known under a prefix. */
  lemma ThreeKinds(op: byte)
    requires !IsPrefix(op)
    ensures Substituted(op) || NamesMemory(op) || Unprefixable(op)
    ensures !(Substituted(op) && NamesMemory(op)) && !(Unprefixable(op) && (Substituted(op) || NamesMemory(op)))
  {
  }

  lemma CbTimes(s: Cpu, t: Cpu, i: Index, cb: byte)
    ensures IdxCb(s, i).t >= 20 && Cb(t, cb).t <= 15
  {
    hide Rot, BitFlags, ResBit, SetBit, Rd8, Wr8, Pair, Hi, Lo, Ea;
  }

  lemma LowTimes(s: Cpu, t: Cpu, i: Index, op: byte)
    requires Fx(op) == 0 && NamesMemory(op)
    ensures Indexed(s, i, op).t > Plain(t, op).t + 4
  {
    hide Inc8, Dec8, Rd8, Wr8, Pair, Hi, Lo, Ea, SetF, W;
  }

  lemma RegTimes(s: Cpu, t: Cpu, i: Index, op: byte)
    requires (Fx(op) == 1 || Fx(op) == 2) && NamesMemory(op)
    ensures Indexed(s, i, op).t > Plain(t, op).t + 4
  {
    hide Rd8, Wr8, Pair, Hi, Lo, Ea, Alu, W;
  }

  lemma MemoryTimes(s: Cpu, t: Cpu, i: Index, op: byte)
    requires NamesMemory(op)
    ensures Indexed(s, i, op).t > Plain(t, op).t + 4
  {
    if Fx(op) == 0 {
      LowTimes(s, t, i, op);
    } else if Fx(op) < 3 {
      RegTimes(s, t, i, op);
    } else {
      CbRow(t);
      CbTimes(s, Bump(Adv(t, 1)), i, Imm8(t));
      hide IdxCb, Cb;
    }
  }

  lemma CbRow(t: Cpu)
    ensures Plain(t, 0xCB) == Cb(Bump(Adv(t, 1)), Imm8(t))
  {
    hide Cb;
  }

  /**
   The prefixed instruction is the unprefixed one under the exchange of HL and the index
   register, at 4 more T-states, for exactly the suffixes of the substitution set.
   */
  lemma SubstitutionExact(s: Cpu, i: Index, op: byte)
    requires !IsPrefix(op)
    ensures Indexed(s, i, op) == Exchanged(Plain(SwapHL(s, i), op), i, 4) <==> Substituted(op)
  {
    hide Indexed, Plain, Substituted, NamesMemory, Unprefixable, IndexOperands, PlainOperands, W;
    var t := SwapHL(s, i);
    ThreeKinds(op);
    if Substituted(op) {
      IndexedSwaps(s, i, op);
    } else if NamesMemory(op) {
      MemoryTimes(s, t, i, op);
    } else {
      IndexedCounted(s, i, op);
      PlainCounted(t, op);
    }
  }

  /**
   DD E3 and FD E3: the prefix is a NOP of 4 T-states and what then runs is EX (SP),HL; the
   index register stays as it was.
   */
  lemma ExStackKeepsIndex(s: Cpu, i: Index)
    requires Imm8(s) == PrefixByte(i) && Imm8(Fetched(s)) == 0xE3
    ensures !Substituted(0xE3) && Execute(s) == Ignored(Fetched(Fetched(s)))
    ensures var o := Execute(Execute(s).s);
            && Execute(s).t == 4 && o.t == 19 && o.s.pc == W(s.pc + 2)
            && o.s.hl == ReadWord(s.ram, s.sp) && o.s.ram == WriteWord(s.ram, s.sp, s.hl)
            && GetI(o.s, i) == GetI(s, i) && o.s.sp == s.sp
  {
    hide IndexOperands, BumpR, Execute, Length, ReadWord, WriteWord;
    ExecuteDdFd(s, i);
    var t := Execute(s).s;
    Back(s.pc);
    assert t.pc == W(s.pc + 1) && t.ram == s.ram;
    ExStackRow(t);
  }

  lemma Back(pc: word)
    ensures W(W(W(pc + 1) + 1) - 1) == W(pc + 1) && W(W(pc + 1) + 1) == W(pc + 2)
  {
  }

  lemma ExStackRow(s: Cpu)
    requires Imm8(s) == 0xE3
    ensures Execute(s) == Done(Fetched(s).(hl := ReadWord(s.ram, s.sp), ram := WriteWord(s.ram, s.sp, s.hl)), 19)
  {
    hide PrefixDdFd, PrefixEd, Quad0, LdReg, AluReg, X3Z0, X3Z1, X3Z2, X3Z4, X3Z5, X3Z6, X3Z7, Cb, ReadWord, WriteWord;
  }
}
