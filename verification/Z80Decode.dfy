/** ExecuteOne decodes every byte sequence, and consumes what the disassembler says. */
module Z80Decode {
  import opened Bytes
  import opened Z80State
  import opened Z80Flags
  import opened Z80Alu
  import opened Z80Exec
  import opened Z80Index
  import opened Z80Ed
  import opened Z80Step
  import opened Z80Disasm

  /** One instruction was done, with n bytes fetched after s. */
  predicate Counted(s: Cpu, o: Out, n: nat) {
    && o.t > 0
    && o.s.cycles == s.cycles + o.t && o.s.instrs == s.instrs + 1 && o.s.fetched == s.fetched + n
    && o.s.dbg == s.dbg && o.s.ints.nmi == s.ints.nmi && o.s.ints.irq == s.ints.irq
  }

  /** The interrupt flip-flops, the delay and the halt state are as before. */
  predicate SameInts(s: Cpu, o: Out) { o.s.ints == s.ints }

  predicate IsPrefix(op: byte) { op == 0xDD || op == 0xED || op == 0xFD }

  lemma Quad0LowCounted(s: Cpu, op: byte)
    requires Fx(op) == 0 && Fz(op) < 3
    ensures Counted(s, Quad0(s, op), PlainOperands(op)) && SameInts(s, Quad0(s, op))
  {
    hide Pair, Hi, Lo, W, Cond, Add16, ReadWord, WriteWord, Rel;
  }

  lemma Quad0HighCounted(s: Cpu, op: byte)
    requires Fx(op) == 0 && 3 <= Fz(op)
    ensures Counted(s, Quad0(s, op), PlainOperands(op)) && SameInts(s, Quad0(s, op))
  {
    hide Pair, Hi, Lo, W, Inc8, Dec8, AccOp;
  }

  lemma LdRegCounted(s: Cpu, y: int, z: int)
    requires 0 <= y < 8 && 0 <= z < 8
    ensures Counted(s, LdReg(s, y, z), 0)
    ensures y != 6 || z != 6 ==> SameInts(s, LdReg(s, y, z))
  {
    hide Pair, Hi, Lo;
  }

  lemma AluRegCounted(s: Cpu, y: int, z: int)
    requires 0 <= z < 8
    ensures Counted(s, AluReg(s, y, z), 0) && SameInts(s, AluReg(s, y, z))
  {
    hide Pair, Hi, Lo, AluOp;
  }

  lemma CbCounted(s: Cpu, cb: byte)
    ensures Counted(s, Cb(s, cb), 0) && SameInts(s, Cb(s, cb))
  {
    hide Pair, Hi, Lo, Rot, BitFlags, ResBit, SetBit;
  }

  lemma Quad3Counted(s: Cpu, op: byte)
    requires Fx(op) == 3 && !IsPrefix(op) && Fz(op) != 3
    ensures Counted(s, Quad3(s, op), PlainOperands(op)) && SameInts(s, Quad3(s, op))
  {
    hide Counted, SameInts, Quad3;
    if Fz(op) < 3 { Quad3LowCounted(s, op); } else { Quad3HighCounted(s, op); }
  }

  lemma Quad3LowCounted(s: Cpu, op: byte)
    requires Fx(op) == 3 && Fz(op) < 3
    ensures Counted(s, Quad3(s, op), PlainOperands(op)) && SameInts(s, Quad3(s, op))
  {
    hide Pair, Hi, Lo, W, Cond, AluOp, ReadWord, WriteWord;
  }

  lemma Quad3HighCounted(s: Cpu, op: byte)
    requires Fx(op) == 3 && !IsPrefix(op) && Fz(op) > 3
    ensures Counted(s, Quad3(s, op), PlainOperands(op)) && SameInts(s, Quad3(s, op))
  {
    hide Pair, Hi, Lo, W, Cond, AluOp, ReadWord, WriteWord;
  }

  lemma X3Z3LowCounted(s: Cpu, y: int)
    requires 0 <= y < 4
    ensures Counted(s, X3Z3(s, y), if y == 0 then 2 else 1) && SameInts(s, X3Z3(s, y))
  {
    hide Pair, Hi, Lo, W, Stored, PortValue, Answered, NextAnswer, Cb;
    if y == 1 { CbCounted(Bump(Adv(s, 1)), Imm8(s)); }
  }

  lemma X3Z3HighCounted(s: Cpu, y: int)
    requires 4 <= y < 8
    ensures Counted(s, X3Z3(s, y), 0) && (y < 6 ==> SameInts(s, X3Z3(s, y)))
  {
    hide Pair, Hi, Lo, W, ReadWord, WriteWord;
  }

  lemma X3Z3Counted(s: Cpu, op: byte)
    requires Fx(op) == 3 && Fz(op) == 3
    ensures Counted(s, Quad3(s, op), if op == 0xCB then 1 else PlainOperands(op))
    ensures op != 0xF3 && op != 0xFB ==> SameInts(s, Quad3(s, op))
  {
    hide Counted, SameInts, X3Z3;
    if Fy(op) < 4 { X3Z3LowCounted(s, Fy(op)); } else { X3Z3HighCounted(s, Fy(op)); }
  }

  /** Every unprefixed instruction. */
  lemma PlainCounted(s: Cpu, op: byte)
    requires !IsPrefix(op)
    ensures Counted(s, Plain(s, op), if op == 0xCB then 1 else PlainOperands(op))
    ensures op != 0x76 && op != 0xF3 && op != 0xFB ==> SameInts(s, Plain(s, op))
  {
    hide Counted, SameInts, Quad0, LdReg, AluReg, Quad3;
    if Fx(op) == 0 {
      if Fz(op) < 3 { Quad0LowCounted(s, op); } else { Quad0HighCounted(s, op); }
    } else if Fx(op) == 1 {
      LdRegCounted(s, Fy(op), Fz(op));
    } else if Fx(op) == 2 {
      AluRegCounted(s, Fy(op), Fz(op));
    } else if Fz(op) == 3 {
      X3Z3Counted(s, op);
    } else {
      Quad3Counted(s, op);
    }
  }

  // ---- DD and FD ------------------------------------------------------------------------

  /** Counted, and the prefix has no effect exactly when u says so: only then 4 T-states. */
  predicate IndexCounted(s: Cpu, o: Out, n: nat, u: bool) {
    Counted(s, o, n) && SameInts(s, o) && (u <==> o == Ignored(s))
  }

  lemma IdxWordsCounted(s: Cpu, i: Index, op: byte)
    requires Fx(op) == 0 && Fz(op) < 4
    ensures IndexCounted(s, IdxQuad0(s, i, op), IndexOperands(op), Unprefixable(op))
  {
    hide Pair, Hi, Lo, W, Add16, ReadWord, WriteWord;
  }

  lemma IdxBytesCounted(s: Cpu, i: Index, op: byte)
    requires Fx(op) == 0 && Fz(op) >= 4
    ensures IndexCounted(s, IdxQuad0(s, i, op), IndexOperands(op), Unprefixable(op))
  {
    hide Pair, Hi, Lo, W, Inc8, Dec8, Signed;
  }

  lemma IdxRegsCounted(s: Cpu, i: Index, op: byte)
    requires Fx(op) == 1 || Fx(op) == 2
    ensures IndexCounted(s, Indexed(s, i, op), IndexOperands(op), Unprefixable(op))
  {
    hide Pair, Hi, Lo, W, AluOp, Signed;
  }

  lemma IdxCbCounted(s: Cpu, i: Index)
    ensures IndexCounted(s, IdxCb(s, i), 2, false)
  {
    hide Pair, Hi, Lo, W, Rot, BitFlags, ResBit, SetBit, Signed;
  }

  lemma IdxStackCounted(s: Cpu, i: Index, op: byte)
    requires Fx(op) == 3 && op != 0xCB
    ensures IndexCounted(s, IdxStack(s, i, Fy(op), Fz(op)), IndexOperands(op), Unprefixable(op))
  {
    hide Pair, Hi, Lo, W, ReadWord, WriteWord;
  }

  lemma IndexedCounted(s: Cpu, i: Index, op: byte)
    ensures IndexCounted(s, Indexed(s, i, op), IndexOperands(op), Unprefixable(op))
  {
    hide IndexCounted, IdxQuad0, IdxLdReg, IdxAlu, IdxCb, IdxStack;
    if Fx(op) == 0 {
      if Fz(op) < 4 { IdxWordsCounted(s, i, op); } else { IdxBytesCounted(s, i, op); }
    } else if Fx(op) < 3 {
      IdxRegsCounted(s, i, op);
    } else if op == 0xCB {
      IdxCbCounted(s, i);
    } else {
      IdxStackCounted(s, i, op);
    }
  }

  // ---- ED ---------------------------------------------------------------------------------

  /** RETN and RETI, with all their aliases. */
  predicate IsEdReturn(sub: byte) { Fx(sub) == 1 && Fz(sub) == 5 }

  lemma EdPortsCounted(s: Cpu, op: byte)
    requires Fx(op) == 1 && Fz(op) < 2
    ensures Counted(s, EdQuad1(s, op), EdOperands(op))
    ensures !IsEdReturn(op) ==> EdQuad1(s, op).s.ints == s.ints.(im := EdQuad1(s, op).s.ints.im)
  {
    hide Pair, Hi, Lo, Stored, PortValue, Answered, InFlags, Wr8, Rd8;
    Wr8Keeps(InFrom(s, Lo(s.bc)), Fy(op), PortValue(s));
  }

  lemma Wr8Keeps(s: Cpu, code: int, v: byte)
    requires 0 <= code < 8
    ensures var t := Wr8(s, code, v);
            && t.pc == s.pc && t.cycles == s.cycles && t.instrs == s.instrs && t.fetched == s.fetched
            && t.dbg == s.dbg && t.ints == s.ints && t.r == s.r
  {
    hide Pair, Hi, Lo;
  }

  lemma EdWordsCounted(s: Cpu, op: byte)
    requires Fx(op) == 1 && 2 <= Fz(op) < 4
    ensures Counted(s, EdQuad1(s, op), EdOperands(op))
    ensures !IsEdReturn(op) ==> EdQuad1(s, op).s.ints == s.ints.(im := EdQuad1(s, op).s.ints.im)
  {
    hide Pair, Hi, Lo, W, ReadWord, WriteWord, Sbc16, Adc16;
  }

  lemma EdControlCounted(s: Cpu, op: byte)
    requires Fx(op) == 1 && 4 <= Fz(op) < 7
    ensures Counted(s, EdQuad1(s, op), EdOperands(op))
    ensures !IsEdReturn(op) ==> EdQuad1(s, op).s.ints == s.ints.(im := EdQuad1(s, op).s.ints.im)
  {
    hide Pair, Hi, Lo, W, ReadWord, AluSub;
  }

  lemma EdMiscCounted(s: Cpu, op: byte)
    requires Fx(op) == 1 && Fz(op) == 7
    ensures Counted(s, EdQuad1(s, op), EdOperands(op))
    ensures !IsEdReturn(op) ==> EdQuad1(s, op).s.ints == s.ints.(im := EdQuad1(s, op).s.ints.im)
  {
    hide Pair, Hi, Lo, InFlags, MkF;
  }

  lemma EdBlockCounted(s: Cpu, y: int, z: int)
    ensures Counted(s, EdBlock(s, y, z), 0) && SameInts(s, EdBlock(s, y, z))
  {
    hide Pair, Hi, Lo, W, Stored, PortValue, Answered, IoFlags, MkF, Matches;
  }

  lemma EdCounted(s: Cpu, op: byte)
    ensures Counted(s, Ed(s, op), EdOperands(op))
    ensures !IsEdReturn(op) ==> Ed(s, op).s.ints == s.ints.(im := Ed(s, op).s.ints.im)
  {
    hide EdQuad1, EdBlock;
    if Fx(op) == 1 {
      if Fz(op) < 2 {
        EdPortsCounted(s, op);
      } else if Fz(op) < 4 {
        EdWordsCounted(s, op);
      } else if Fz(op) < 7 {
        EdControlCounted(s, op);
      } else {
        EdMiscCounted(s, op);
      }
    } else {
      EdBlockCounted(s, Fy(op), Fz(op));
    }
  }

  // ---- The whole instruction -----------------------------------------------------------------

  lemma ExecuteDdFd(s: Cpu, i: Index)
    requires Imm8(s) == (if i.IX? then 0xDD else 0xFD)
    ensures Counted(s, Execute(s), Length(s.ram, s.pc)) && SameInts(s, Execute(s))
    ensures PrefixIgnored(s.ram, s.pc) <==> Execute(s) == Ignored(Fetched(Fetched(s)))
  {
    hide Indexed, Plain, Ed, Ignored, BumpR, W, IndexOperands, Unprefixable;
    IndexedCounted(Fetched(Fetched(s)), i, Imm8(Fetched(s)));
  }

  lemma ExecuteEd(s: Cpu)
    requires Imm8(s) == 0xED
    ensures Counted(s, Execute(s), Length(s.ram, s.pc))
    ensures !IsEdReturn(Imm8(Fetched(s))) ==> Execute(s).s.ints == s.ints.(im := Execute(s).s.ints.im)
  {
    hide Indexed, Plain, Ed, BumpR, W, EdOperands, IsEdReturn;
    EdCounted(Fetched(Fetched(s)), Imm8(Fetched(s)));
  }

  lemma ExecutePlain(s: Cpu)
    requires !IsPrefix(Imm8(s))
    ensures Counted(s, Execute(s), Length(s.ram, s.pc))
    ensures Imm8(s) != 0x76 && Imm8(s) != 0xF3 && Imm8(s) != 0xFB ==> SameInts(s, Execute(s))
  {
    hide Indexed, Plain, Ed, BumpR, W, PlainOperands;
    PlainCounted(Fetched(s), Imm8(s));
  }

  /**
   Whatever bytes stand at PC, one instruction is executed: the trap is unreachable, the
   T-states returned are positive and added to the cycle count, one is added to the
   instruction count, and the bytes fetched are as many as Decode reports.
   */
  lemma ExecuteDecodes(s: Cpu)
    ensures Counted(s, Execute(s), Length(s.ram, s.pc))
  {
    hide Counted, Execute, Length, SameInts;
    if Imm8(s) == 0xED {
      ExecuteEd(s);
    } else if Imm8(s) == 0xDD {
      ExecuteDdFd(s, IX);
    } else if Imm8(s) == 0xFD {
      ExecuteDdFd(s, IY);
    } else {
      ExecutePlain(s);
    }
  }

  /** ExecuteOne returns -1 at a breakpoint and changes nothing; otherwise it makes progress. */
  lemma StepProgress(s: Cpu)
    ensures BreakpointHit(s) ==> Step(s) == Out(s, -1)
    ensures !BreakpointHit(s) ==>
              Step(s).t > 0 && Step(s).s.cycles == s.cycles + Step(s).t && Step(s).s.instrs == s.instrs + 1
  {
    hide Execute, Length, BumpR, WriteWord, ReadWord, W, Pair;
    ExecuteDecodes(Undelayed(Armed(s)));
  }

  // ---- Where control goes ------------------------------------------------------------------

  /** DJNZ counts B down to 0, JR always jumps, JR cc by the flag bits in F. */
  predicate Taken(s: Cpu, op: byte) {
    match op
    case 0x10 => s.bc / 256 != 1
    case 0x18 => true
    case 0x20 => !ZeroOf(s.af % 256)
    case 0x28 => ZeroOf(s.af % 256)
    case 0x30 => !CarryOf(s.af % 256)
    case _ => CarryOf(s.af % 256)
  }

  lemma JumpRow(s: Cpu, op: byte)
    requires IsRelative(op)
    ensures X0Z0(s, Fy(op)).s.pc == if Taken(s, op) then Rel(s) else W(s.pc + 1)
  {
    hide Pair, FZ, FC, ZeroOf, CarryOf, Signed, W;
    FlagsAre(s.af % 256);
  }

  lemma PlainRow(s: Cpu, op: byte)
    requires op == Imm8(s) && !IsPrefix(op)
    ensures Fx(op) == 0 && Fz(op) == 0 ==> Execute(s) == X0Z0(Fetched(s), Fy(op))
    ensures Fx(op) == 3 && Fz(op) == 4 ==> Execute(s) == X3Z4(Fetched(s), Fy(op))
    ensures op == 0xCD ==> Execute(s) == Done(Call(Fetched(s)), 17)
    ensures Fx(op) == 3 && Fz(op) == 7 ==> Execute(s) == X3Z7(Fetched(s), Fy(op))
    ensures Fx(op) == 3 && Fz(op) == 6 ==> Execute(s) == X3Z6(Fetched(s), Fy(op))
    ensures Fx(op) == 0 && Fz(op) == 7 ==> Execute(s) == X0Z7(Fetched(s), Fy(op))
    ensures Fx(op) == 3 && Fz(op) == 3 ==> Execute(s) == X3Z3(Fetched(s), Fy(op))
    ensures op == 0x76 ==> Execute(s) == LdReg(Fetched(s), 6, 6)
  {
    hide PrefixDdFd, PrefixEd, LdReg, AluReg, X0Z0, X0Z1, X0Z2, X0Z3, IncDec, X0Z6, X0Z7;
    hide X3Z0, X3Z1, X3Z2, X3Z3, X3Z4, X3Z6, X3Z7, Call, Fetched;
  }

  lemma NextPc(pc: word, d: int)
    ensures W(W(pc + 1) + d) == W(pc + 1 + d)
  {
  }

  /** A relative jump goes where Decode prints if it is taken, and past its two bytes if not. */
  lemma RelativeTarget(s: Cpu)
    requires IsRelative(Imm8(s))
    ensures Execute(s).s.pc == if Taken(s, Imm8(s)) then Target(s.ram, s.pc) else W(s.pc + 2)
  {
    hide Execute, X0Z0, Hi, Lo, BumpR, Signed, ZeroOf, CarryOf, W;
    PlainRow(s, Imm8(s));
    JumpRow(Fetched(s), Imm8(s));
    NextPc(s.pc, 1);
    NextPc(s.pc, 1 + Signed(Imm8(Fetched(s))));
  }

  /** CallOpcodeLen of the debugger: 3 for CALL, 1 for RST, 0 for everything else. */
  function CallOpcodeLen(op: byte): nat {
    if op == 0xCD then 3
    else if Fx(op) == 3 && Fz(op) == 4 then 3
    else if Fx(op) == 3 && Fz(op) == 7 then 1
    else 0
  }

  /** CALL and RST always call, CALL cc by the flag bits in F. */
  predicate Calls(s: Cpu, op: byte) {
    var f := s.af % 256;
    match op
    case 0xC4 => !ZeroOf(f)
    case 0xCC => ZeroOf(f)
    case 0xD4 => !CarryOf(f)
    case 0xDC => CarryOf(f)
    case 0xE4 => !ParityOf(f)
    case 0xEC => ParityOf(f)
    case 0xF4 => !SignOf(f)
    case 0xFC => SignOf(f)
    case _ => true
  }

  lemma CallCondition(s: Cpu, op: byte)
    requires Fx(op) == 3 && Fz(op) == 4
    ensures Calls(s, op) == Cond(RegF(s), Fy(op))
  {
    hide FZ, FC, FP, FS, ZeroOf, CarryOf, ParityOf, SignOf;
    FlagsAre(s.af % 256);
  }

  /** The address a call goes to; s is the state after the opcode fetch. */
  function CallTarget(s: Cpu, op: byte): word { if Fz(op) == 7 then W(8 * Fy(op)) else Imm16(s) }

  /** e is s after pushing ret and going to target. */
  predicate CalledTo(s: Cpu, e: Cpu, ret: word, target: word) {
    e.sp == W(s.sp - 2) && e.ram == WriteWord(s.ram, e.sp, ret) && e.pc == target
  }

  /** e is s gone on to ret, the stack untouched. */
  predicate GoneOnTo(s: Cpu, e: Cpu, ret: word) { e.sp == s.sp && e.ram == s.ram && e.pc == ret }

  lemma CallRow(s: Cpu, y: int)
    ensures CalledTo(s, Call(s), W(s.pc + 2), Imm16(s))
    ensures Cond(RegF(s), y) ==> CalledTo(s, X3Z4(s, y).s, W(s.pc + 2), Imm16(s))
    ensures !Cond(RegF(s), y) ==> GoneOnTo(s, X3Z4(s, y).s, W(s.pc + 2))
    ensures CalledTo(s, X3Z7(s, y).s, s.pc, W(8 * y))
  {
    hide Cond, WriteWord, Imm16, W;
  }

  /**
   A call that is taken pushes exactly the address step-over waits for, PC + CallOpcodeLen,
   and goes to its target; one that is not taken goes on there and leaves the stack alone.
   */
  lemma CallReturnsWhereStepOverWaits(s: Cpu)
    requires CallOpcodeLen(Imm8(s)) > 0
    ensures var op, ret := Imm8(s), W(s.pc + CallOpcodeLen(Imm8(s)));
            if Calls(s, op) then CalledTo(s, Execute(s).s, ret, CallTarget(Fetched(s), op))
            else GoneOnTo(s, Execute(s).s, ret)
  {
    hide Execute, Call, X3Z4, X3Z7, BumpR, WriteWord, W, Cond, Imm16;
    PlainRow(s, Imm8(s));
    if Fz(Imm8(s)) == 4 { CallCondition(s, Imm8(s)); }
    CallRow(Fetched(s), Fy(Imm8(s)));
    NextPc(s.pc, 2);
  }
}
