/** The DD and FD dispatcher agrees with the unprefixed one. */
module Z80Prefix {
  import opened Bytes
  import opened Z80State
  import opened Z80Alu
  import opened Z80Exec
  import opened Z80Index
  import opened Z80Step

  // ---- HL replaced by IX or IY -----------------------------------------------------

  /** The suffixes whose unprefixed instruction uses HL, H or L but not (HL). E3 is missing. */
  predicate Substituted(op: byte) {
    var y, z := Fy(op), Fz(op);
    if Fx(op) == 0 then
      (z == 1 && (y % 2 == 1 || y == 4)) || (2 <= z <= 6 && Half8(y))
    else if Fx(op) == 1 then y != 6 && z != 6 && (Half8(y) || Half8(z))
    else if Fx(op) == 2 then Half8(z)
    else op == 0xE5 || op == 0xE1 || op == 0xE9 || op == 0xF9
  }

  function SwapHL(s: Cpu, i: Index): Cpu { SetI(s.(hl := GetI(s, i)), i, s.hl) }

  /** The outcome o with HL and the index register exchanged and n more T-states. */
  function Exchanged(o: Out, i: Index, n: nat): Out {
    var s := SwapHL(o.s, i);
    Out(s.(cycles := s.cycles + n), o.t + n)
  }

  lemma AddRowSwaps(s: Cpu, i: Index, op: byte)
    requires Fx(op) == 0 && Fz(op) == 1 && Substituted(op)
    ensures IdxQuad0(s, i, op) == Exchanged(Quad0(SwapHL(s, i), op), i, 4)
  {
    hide Add16;
  }

  lemma WordRowsSwap(s: Cpu, i: Index, op: byte)
    requires Fx(op) == 0 && 2 <= Fz(op) <= 3 && Substituted(op)
    ensures IdxQuad0(s, i, op) == Exchanged(Quad0(SwapHL(s, i), op), i, 4)
  {
    hide Pair, Lo, Hi, ReadWord, WriteWord;
  }

  lemma IncDecRowsSwap(s: Cpu, i: Index, op: byte)
    requires Fx(op) == 0 && 4 <= Fz(op) <= 5 && Substituted(op)
    ensures IdxQuad0(s, i, op) == Exchanged(Quad0(SwapHL(s, i), op), i, 4)
  {
    hide Inc8, Dec8;
  }

  lemma LdImmRowSwaps(s: Cpu, i: Index, op: byte)
    requires Fx(op) == 0 && Fz(op) == 6 && Substituted(op)
    ensures IdxQuad0(s, i, op) == Exchanged(Quad0(SwapHL(s, i), op), i, 4)
  {
    hide Pair, Lo, Hi;
  }

  lemma LdRegSwaps(s: Cpu, i: Index, y: int, z: int)
    requires 0 <= y < 8 && 0 <= z < 8 && y != 6 && z != 6 && (Half8(y) || Half8(z))
    ensures IdxLdReg(s, i, y, z) == Exchanged(LdReg(SwapHL(s, i), y, z), i, 4)
  {
    hide Pair, Lo, Hi;
  }

  lemma AluRegSwaps(s: Cpu, i: Index, y: int, z: int)
    requires Half8(z)
    ensures IdxAlu(s, i, y, z) == Exchanged(AluReg(SwapHL(s, i), y, z), i, 4)
  {
    hide AluOp;
  }

  lemma StackSwaps(s: Cpu, i: Index, op: byte)
    requires Fx(op) == 3 && Substituted(op)
    ensures IdxStack(s, i, Fy(op), Fz(op)) == Exchanged(Quad3(SwapHL(s, i), op), i, 4)
  {
    hide Pair, Lo, Hi, ReadWord, WriteWord;
  }

  lemma IndexedSwaps(s: Cpu, i: Index, op: byte)
    requires Substituted(op)
    ensures Indexed(s, i, op) == Exchanged(Plain(SwapHL(s, i), op), i, 4)
  {
    hide Exchanged, IdxQuad0, Quad0, IdxLdReg, LdReg, IdxAlu, AluReg, IdxStack, Quad3;
    if Fx(op) == 0 {
      if Fz(op) == 1 {
        AddRowSwaps(s, i, op);
      } else if Fz(op) <= 3 {
        WordRowsSwap(s, i, op);
      } else if Fz(op) <= 5 {
        IncDecRowsSwap(s, i, op);
      } else {
        LdImmRowSwaps(s, i, op);
      }
    } else if Fx(op) == 1 {
      LdRegSwaps(s, i, Fy(op), Fz(op));
    } else if Fx(op) == 2 {
      AluRegSwaps(s, i, Fy(op), Fz(op));
    } else {
      StackSwaps(s, i, op);
    }
  }

  /** Nothing comes before the instruction at PC. */
  predicate Quiet(s: Cpu) { !BreakpointHit(s) && !s.ints.nmi && !IrqTaken(s) && !s.ints.halted }

  function PrefixByte(i: Index): byte { if i.IX? then 0xDD else 0xFD }

  /**
   A prefixed instruction of the substitution set is the unprefixed one run on the machine
   with HL and the index register exchanged, then exchanged back: same registers, memory,
   flags, ports and counters, with one more byte fetched, one more R increment (both inside
   Fetched) and 4 more T-states.
   */
  lemma PrefixSubstitution(s: Cpu, i: Index)
    requires Quiet(s) && Quiet(Fetched(s))
    requires Imm8(s) == PrefixByte(i) && Substituted(Imm8(Fetched(s)))
    ensures Step(s) == Exchanged(Step(SwapHL(Fetched(s), i)), i, 4)
  {
    hide Indexed, Plain, AcceptIrq, AcceptNmi, PrefixEd;
    var s1 := Fetched(Undelayed(Armed(s)));
    var op := Imm8(s1);
    IndexedSwaps(Fetched(s1), i, op);
    assert Fetched(SwapHL(s1, i)) == SwapHL(Fetched(s1), i);
    assert Step(SwapHL(Fetched(s), i)) == Execute(SwapHL(s1, i));
    assert op != 0xDD && op != 0xFD && op != 0xED;
  }

  // ---- (HL) replaced by (IX+d) -------------------------------------------------------

  /** The suffixes that take (IX+d), except the loads of H and L with a memory operand. */
  predicate MemForm(op: byte) {
    var y, z := Fy(op), Fz(op);
    if Fx(op) == 0 then y == 6 && 4 <= z <= 6
    else if Fx(op) == 1 then (z == 6) != (y == 6) && !Half8(y) && !Half8(z)
    else Fx(op) == 2 && z == 6
  }

  /** The displacement consumed and HL pointing at IX+d. */
  function AtEa(s: Cpu, i: Index): Cpu { Adv(s, 1).(hl := Ea(s, i)) }

  /** The outcome o with HL put back and n more T-states. */
  function Restored(o: Out, hl: word, n: nat): Out {
    Out(o.s.(hl := hl, cycles := o.s.cycles + n), o.t + n)
  }

  lemma MemQuad0(s: Cpu, i: Index, op: byte)
    requires MemForm(op) && Fx(op) == 0
    ensures IdxQuad0(s, i, op) == Restored(Quad0(AtEa(s, i), op), s.hl, if op == 0x36 then 9 else 12)
  {
    hide Inc8, Dec8;
  }

  lemma MemLd(s: Cpu, i: Index, y: int, z: int)
    requires 0 <= y < 8 && 0 <= z < 8 && (z == 6) != (y == 6) && !Half8(y) && !Half8(z)
    ensures IdxLdReg(s, i, y, z) == Restored(LdReg(AtEa(s, i), y, z), s.hl, 12)
  {
    hide Pair, Lo, Hi;
  }

  lemma MemAlu(s: Cpu, i: Index, y: int)
    ensures IdxAlu(s, i, y, 6) == Restored(AluReg(AtEa(s, i), y, 6), s.hl, 12)
  {
    hide AluOp;
  }

  lemma MemoryRows(s: Cpu, i: Index, op: byte)
    requires MemForm(op)
    ensures Indexed(s, i, op) == Restored(Plain(AtEa(s, i), op), s.hl, if op == 0x36 then 9 else 12)
  {
    hide Restored, IdxQuad0, Quad0, IdxLdReg, LdReg, IdxAlu, AluReg;
    if Fx(op) == 0 {
      MemQuad0(s, i, op);
    } else if Fx(op) == 1 {
      MemLd(s, i, Fy(op), Fz(op));
    } else {
      MemAlu(s, i, Fy(op));
    }
  }

  lemma BitRows(s: Cpu, i: Index, cb: byte, op: byte)
    requires cb == Imm8(Adv(s, 1)) && Fx(op) == Fx(cb) && Fy(op) == Fy(cb) && Fz(op) == 6
    ensures IdxCb(s, i) == Restored(Cb(Bump(Adv(AtEa(s, i), 1)), op), s.hl, 8)
  {
    hide Rot, BitFlags, ResBit, SetBit;
  }

  /** The prefix stands at PC with op behind it, and nothing comes before the instruction. */
  predicate AtPrefix(s: Cpu, i: Index, op: byte) {
    Quiet(s) && Imm8(s) == PrefixByte(i) && Imm8(Fetched(s)) == op
  }

  /** The machine after prefix and suffix are fetched. */
  function Suffixed(s: Cpu): Cpu { Fetched(Fetched(Undelayed(Armed(s)))) }

  lemma StepIndexed(s: Cpu, i: Index, op: byte)
    requires AtPrefix(s, i, op)
    ensures Step(s) == Indexed(Suffixed(s), i, op)
  {
    hide Indexed;
  }

  /** The address IX+d with the displacement two bytes behind the prefix, and the byte behind it. */
  lemma EaIs(s: Cpu, i: Index)
    ensures var d: int := s.ram[(s.pc + 2) % 65536];
            Ea(Suffixed(s), i) == ((if i.IX? then s.ix else s.iy) + if d < 128 then d else d - 256) % 65536
    ensures Imm8(Adv(Suffixed(s), 1)) == s.ram[(s.pc + 3) % 65536]
  {
    hide BumpR, W;
    ThreeAhead(s.pc);
    Casts(GetI(s, i) + Signed(s.ram[(s.pc + 2) % 65536]));
  }

  lemma ThreeAhead(pc: word)
    ensures W(W(pc + 1) + 1) == (pc + 2) % 65536 && W((pc + 2) % 65536 + 1) == (pc + 3) % 65536
  {
  }

  /**
   An instruction on (IX+d) does what its (HL) form does with HL set to IX plus the signed
   displacement, modulo 2^16, and HL restored: 12 more T-states, 9 for LD (IX+d),n.
   */
  lemma IndexedMemory(s: Cpu, i: Index, op: byte)
    requires AtPrefix(s, i, op) && MemForm(op)
    ensures var d: int := s.ram[(s.pc + 2) % 65536];
            var ea := ((if i.IX? then s.ix else s.iy) + if d < 128 then d else d - 256) % 65536;
            Step(s) == Restored(Plain(Adv(Suffixed(s), 1).(hl := ea), op), s.hl, if op == 0x36 then 9 else 12)
  {
    hide Step, Indexed, Plain, Restored, MemForm, BumpR, W, Ea;
    StepIndexed(s, i, op);
    EaIs(s, i);
    MemoryRows(Suffixed(s), i, op);
  }

  /**
   The four loads between (IX+d) and H or L: with a memory operand codes 4 and 5 are the real
   H and L, which the (HL) form could not restore. IX itself stays.
   */
  lemma IndexedHalves(s: Cpu, i: Index, op: byte)
    requires AtPrefix(s, i, op) && Fx(op) == 1 && ((Fz(op) == 6 && Half8(Fy(op))) || (Fy(op) == 6 && Half8(Fz(op))))
    ensures var d: int := s.ram[(s.pc + 2) % 65536];
            var ea := ((if i.IX? then s.ix else s.iy) + if d < 128 then d else d - 256) % 65536;
            var done := Done(Adv(Suffixed(s), 1), 19).s;
            Step(s) == Out(match op
                           case 0x66 => done.(hl := Pair(s.ram[ea], Lo(s.hl)))
                           case 0x6E => done.(hl := Pair(Hi(s.hl), s.ram[ea]))
                           case 0x74 => done.(ram := s.ram[ea := Hi(s.hl)])
                           case _ => done.(ram := s.ram[ea := Lo(s.hl)]), 19)
  {
    hide Step, IdxQuad0, IdxAlu, IdxCb, IdxStack, Pair, Hi, Lo, BumpR, W, Ea;
    StepIndexed(s, i, op);
    EaIs(s, i);
  }

  /**
   DD CB d cb is a CB instruction on (HL) with the same operation and bit number, HL set to
   IX+d; the register field of cb is ignored. 8 more T-states. BIT takes Y and X from the
   high byte of the address in both forms.
   */
  lemma IndexedBits(s: Cpu, i: Index, cb: byte, op: byte)
    requires AtPrefix(s, i, 0xCB) && cb == s.ram[(s.pc + 3) % 65536]
    requires Fx(op) == Fx(cb) && Fy(op) == Fy(cb) && Fz(op) == 6
    ensures var d: int := s.ram[(s.pc + 2) % 65536];
            var ea := ((if i.IX? then s.ix else s.iy) + if d < 128 then d else d - 256) % 65536;
            Step(s) == Restored(Cb(Bump(Adv(Adv(Suffixed(s), 1).(hl := ea), 1)), op), s.hl, 8)
  {
    hide Step, IdxCb, Cb, Restored, BumpR, W, Ea;
    StepIndexed(s, i, 0xCB);
    EaIs(s, i);
    BitRows(Suffixed(s), i, cb, op);
  }
}
