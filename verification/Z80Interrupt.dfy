/**
 The EI delay. A handler that ends in EI; RETI cannot be interrupted between the two, so
 maskable interrupts never nest, however the IRQ line moves.
 */
module Z80Interrupt {
  import opened Bytes
  import opened Z80State
  import opened Z80Exec
  import opened Z80Ed
  import opened Z80Index
  import opened Z80Step
  import opened Z80Decode
  import opened Z80Disasm
  import opened Z80Frame

  /** What an accepted interrupt broke off: the PC to resume and the SP before the push. */
  datatype Frame = Frame(pc: word, sp: word)

  /** The machine, and the interrupts it has accepted and not yet returned from. */
  datatype Tracked = Tracked(cpu: Cpu, frames: seq<Frame>)

  /** RETI or RETN stands at address a. */
  predicate ReturnAt(m: Ram, a: word) { m[a] == 0xED && IsEdReturn(m[W(a + 1)]) }

  predicate Executes(s: Cpu) {
    !BreakpointHit(s) && !s.ints.nmi && !IrqTaken(s) && !s.ints.halted
  }

  function WithIrq(s: Cpu, irq: bool): Cpu { s.(ints := s.ints.(irq := irq)) }

  /** One ExecuteOne with the IRQ line at the given level. */
  function Tick(m: Tracked, irq: bool): Tracked {
    var s := WithIrq(m.cpu, irq);
    var frames :=
      if !BreakpointHit(s) && !s.ints.nmi && IrqTaken(s) then m.frames + [Frame(s.pc, s.sp)]
      else if Executes(s) && ReturnAt(s.ram, s.pc) && m.frames != [] then m.frames[..|m.frames| - 1]
      else m.frames;
    Tracked(Step(s).s, frames)
  }

  function Last(m: Tracked): Frame
    requires m.frames != []
  {
    m.frames[|m.frames| - 1]
  }

  /** SP is back where the acceptance left it. */
  predicate Balanced(s: Cpu, f: Frame) { s.sp == W(f.sp - 2) }

  /** The pushed PC is still in memory. */
  predicate SavedPc(s: Cpu, f: Frame) { ReadWord(s.ram, W(f.sp - 2)) == f.pc }

  /** The instruction at PC writes neither byte of the pushed PC. */
  predicate SparesFrame(s: Cpu, f: Frame) { !MayWrite(s, W(f.sp - 2)) && !MayWrite(s, W(W(f.sp - 2) + 1)) }

  /**
   The discipline of a handler, checked on the instruction about to run: it does not write
   the word its interrupt pushed, it returns with its stack balanced, and it enables
   interrupts only in a final EI; RETI.
   */
  predicate Disciplined(m: Tracked) {
    var s := m.cpu;
    m.frames != [] && !s.ints.halted ==>
      && SparesFrame(s, Last(m))
      && (ReturnAt(s.ram, s.pc) ==> Balanced(s, Last(m)))
      && (s.ram[s.pc] == 0xFB ==> ReturnAt(s.ram, W(s.pc + 1)) && Balanced(s, Last(m)))
  }

  predicate Off(s: Cpu) { !s.ints.iff1 && !s.ints.iff2 }

  /** Between EI and RETI: enabled, but the delay covers the RETI that comes next. */
  predicate Leaving(s: Cpu, f: Frame) {
    s.ints.eiDelay && !s.ints.halted && ReturnAt(s.ram, s.pc) && Balanced(s, f)
  }

  /**
   At most one frame, and while there is one, its pushed PC is in place and interrupts are off
   or about to be returned from.
   */
  predicate Inv(m: Tracked) {
    && !m.cpu.ints.nmi && |m.frames| <= 1
    && (m.frames != [] ==> SavedPc(m.cpu, m.frames[0]) && (Off(m.cpu) || Leaving(m.cpu, m.frames[0])))
  }

  // ---- What each instruction does to the interrupt state ------------------------------

  lemma ReturnEffect(s: Cpu)
    requires ReturnAt(s.ram, s.pc)
    ensures var e := Execute(s).s;
            && e.pc == ReadWord(s.ram, s.sp) && e.sp == W(s.sp + 2)
            && e.ints == s.ints.(iff1 := s.ints.iff2)
  {
    hide EdIn, EdOut, EdArith, EdLdPair, EdNeg, EdIm, EdMisc, EdBlock, Plain, PrefixDdFd, BumpR, ReadWord, W;
  }

  lemma EiEffect(s: Cpu)
    requires Imm8(s) == 0xFB
    ensures Execute(s).s.ints == s.ints.(iff1 := true, iff2 := true, eiDelay := true)
    ensures Execute(s).s.pc == W(s.pc + 1) && Execute(s).s.sp == s.sp && Execute(s).s.ram == s.ram
  {
    hide Execute, BumpR, Cb, ReadWord, WriteWord, OutTo, InFrom, W;
    PlainRow(s, 0xFB);
  }

  lemma OtherEffect(s: Cpu)
    requires Imm8(s) != 0xFB && !ReturnAt(s.ram, s.pc)
    ensures var e := Execute(s).s.ints;
            e.nmi == s.ints.nmi && (e.iff1 ==> s.ints.iff1) && (e.iff2 ==> s.ints.iff2)
  {
    hide Execute, Length, IsEdReturn;
    var op := Imm8(s);
    ExecuteDecodes(s);
    if op == 0xED {
      ExecuteEd(s);
    } else if op == 0xDD {
      ExecuteDdFd(s, IX);
    } else if op == 0xFD {
      ExecuteDdFd(s, IY);
    } else if op == 0x76 || op == 0xF3 {
      HaltOrDi(s);
    } else {
      ExecutePlain(s);
    }
  }

  lemma HaltOrDi(s: Cpu)
    requires Imm8(s) == 0x76 || Imm8(s) == 0xF3
    ensures var e := Execute(s).s.ints;
            e.nmi == s.ints.nmi && (e.iff1 ==> s.ints.iff1) && (e.iff2 ==> s.ints.iff2)
  {
    hide Execute, BumpR, Cb, Rd8, Wr8, ReadWord, WriteWord, OutTo, InFrom, W;
    PlainRow(s, Imm8(s));
  }

  // ---- One step -----------------------------------------------------------------------

  /** m1 has returned to what the last frame of m broke off. */
  predicate Resumed(m: Tracked, m1: Tracked) {
    |m1.frames| < |m.frames| ==> m1.cpu.pc == Last(m).pc && m1.cpu.sp == Last(m).sp
  }

  lemma PushReads(m: Ram, a: word, v: word)
    ensures ReadWord(WriteWord(m, a, v), a) == v
  {
    hide Hi, Lo, Pair;
    PairOf(v);
  }

  lemma AcceptOnce(m: Tracked, irq: bool)
    requires Inv(m) && !BreakpointHit(m.cpu) && IrqTaken(WithIrq(m.cpu, irq))
    ensures Inv(Tick(m, irq)) && Resumed(m, Tick(m, irq))
  {
    hide Execute, ReadWord, WriteWord, BumpR, W, ReturnAt, Balanced;
    PushReads(m.cpu.ram, W(m.cpu.sp - 2), m.cpu.pc);
  }

  /** The pushed PC outlives every instruction that spares it. */
  lemma PcSurvives(s: Cpu, f: Frame)
    requires SparesFrame(s, f) && SavedPc(s, f)
    ensures SavedPc(Execute(s).s, f)
  {
    hide Execute, MayWrite, W, Pair;
    WriteFrame(s, W(f.sp - 2));
    WriteFrame(s, W(W(f.sp - 2) + 1));
  }

  lemma SpUp(sp: word)
    ensures W(W(sp - 2) + 2) == sp
  {
  }

  lemma ExecuteOnce(m: Tracked, irq: bool)
    requires Inv(m) && Disciplined(m) && Executes(WithIrq(m.cpu, irq))
    ensures Inv(Tick(m, irq)) && Resumed(m, Tick(m, irq))
  {
    hide Execute, AcceptIrq, AcceptNmi, ReadWord, BumpR, IsEdReturn, SparesFrame, SavedPc, W;
    var s := Undelayed(Armed(WithIrq(m.cpu, irq)));
    assert Step(WithIrq(m.cpu, irq)) == Execute(s);
    if m.frames != [] {
      SameFrame(m.cpu, s, Last(m));
      PcSurvives(s, Last(m));
      SpUp(Last(m).sp);
    }
    if ReturnAt(s.ram, s.pc) {
      ReturnEffect(s);
    } else if Imm8(s) == 0xFB {
      EiEffect(s);
    } else {
      OtherEffect(s);
    }
  }

  /** The frame does not depend on the interrupt lines or the debugger. */
  lemma SameFrame(s: Cpu, t: Cpu, f: Frame)
    requires t == s.(ints := t.ints, dbg := t.dbg)
    ensures SparesFrame(s, f) == SparesFrame(t, f) && SavedPc(s, f) == SavedPc(t, f)
    ensures SavedPc(s, f) && Balanced(s, f) ==> ReadWord(s.ram, s.sp) == f.pc
  {
    hide W, PlainWrites, IndexWrites, EdWrites;
    SameMayWrite(s, t, W(f.sp - 2));
    SameMayWrite(s, t, W(W(f.sp - 2) + 1));
    hide MayWrite;
  }

  lemma SamePlainWrites(s: Cpu, t: Cpu, op: byte, a: word)
    requires t == s.(ints := t.ints, dbg := t.dbg)
    ensures PlainWrites(s, op, a) == PlainWrites(t, op, a)
  {
    hide W, Cond, InWord, Pair;
  }

  lemma SamePrefixedWrites(s: Cpu, t: Cpu, i: Index, op: byte, a: word)
    requires t == s.(ints := t.ints, dbg := t.dbg)
    ensures IndexWrites(s, i, op, a) == IndexWrites(t, i, op, a) && EdWrites(s, op, a) == EdWrites(t, op, a)
  {
    hide W, Signed, InWord, Pair;
  }

  lemma SameMayWrite(s: Cpu, t: Cpu, a: word)
    requires t == s.(ints := t.ints, dbg := t.dbg)
    ensures MayWrite(s, a) == MayWrite(t, a)
  {
    hide W, BumpR, PlainWrites, IndexWrites, EdWrites;
    SamePlainWrites(Fetched(s), Fetched(t), Imm8(s), a);
    var s2, t2 := Fetched(Fetched(s)), Fetched(Fetched(t));
    var op := Imm8(Fetched(s));
    SamePrefixedWrites(s2, t2, IX, op, a);
    SamePrefixedWrites(s2, t2, IY, op, a);
  }

  lemma TickKeepsInv(m: Tracked, irq: bool)
    requires Inv(m) && Disciplined(m)
    ensures Inv(Tick(m, irq)) && Resumed(m, Tick(m, irq))
  {
    hide Execute, AcceptIrq, AcceptNmi, ReturnAt, ReadWord, W, BumpR, SparesFrame;
    var s := WithIrq(m.cpu, irq);
    if !BreakpointHit(s) && IrqTaken(s) {
      AcceptOnce(m, irq);
    } else if Executes(s) {
      ExecuteOnce(m, irq);
    }
  }

  // ---- Every run ----------------------------------------------------------------------

  /** The machine after the given IRQ levels, one per ExecuteOne. */
  function After(m: Tracked, irqs: seq<bool>): Tracked {
    if irqs == [] then m else Tick(After(m, irqs[..|irqs| - 1]), irqs[|irqs| - 1])
  }

  /**
   From any state outside a handler, under any movement of the IRQ line, with disciplined
   handlers and no NMI: never two interrupts at once, and every return resumes exactly the
   PC and SP that its interrupt broke off, also after a HALT was interrupted.
   */
  lemma {:induction false} NoNesting(m: Tracked, irqs: seq<bool>)
    requires m.frames == [] && !m.cpu.ints.nmi
    requires forall k :: 0 <= k <= |irqs| ==> Disciplined(After(m, irqs[..k]))
    ensures Inv(After(m, irqs))
    ensures irqs != [] ==> Resumed(After(m, irqs[..|irqs| - 1]), After(m, irqs))
  {
    hide Tick, Disciplined;
    if irqs != [] {
      var front := irqs[..|irqs| - 1];
      forall k | 0 <= k <= |front|
        ensures Disciplined(After(m, front[..k]))
      {
        assert front[..k] == irqs[..k];
      }
      NoNesting(m, front);
      assert front[..|front|] == front;
      assert irqs[..|front|] == front;
      TickKeepsInv(After(m, front), irqs[|irqs| - 1]);
    }
  }
}
