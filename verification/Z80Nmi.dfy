/** A non-maskable interrupt, its handler and RETN leave the program where it was broken off. */
module Z80Nmi {
  import opened Bytes
  import opened Z80State
  import opened Z80Exec
  import opened Z80Index
  import opened Z80Step
  import opened Z80Disasm
  import opened Z80Decode
  import opened Z80Frame
  import opened Z80Interrupt

  /** One ExecuteOne for each level of the IRQ line. */
  function Runs(s: Cpu, irqs: seq<bool>): Cpu {
    if irqs == [] then s
    else Step(WithIrq(Runs(s, irqs[..|irqs| - 1]), irqs[|irqs| - 1])).s
  }

  /**
   The discipline of the handler before its RETN: an instruction runs that spares the pushed
   word and is neither EI, DI nor a return from interrupt.
   */
  predicate InHandler(s: Cpu, f: Frame) {
    && !BreakpointHit(s) && !s.ints.halted && SparesFrame(s, f)
    && s.ram[s.pc] != 0xFB && s.ram[s.pc] != 0xF3 && !ReturnAt(s.ram, s.pc)
  }

  /** RETN is about to run with the stack as the interrupt left it. */
  predicate AtReturn(s: Cpu, f: Frame) {
    !BreakpointHit(s) && !s.ints.halted && Balanced(s, f) && ReturnAt(s.ram, s.pc)
  }

  /** Interrupts are off, the old flip-flop is kept in IFF2 and the old PC on the stack. */
  predicate Serving(s: Cpu, f: Frame, iff: bool) {
    !s.ints.nmi && !s.ints.iff1 && s.ints.iff2 == iff && SavedPc(s, f)
  }

  lemma Accepted(s: Cpu)
    requires s.ints.nmi && !BreakpointHit(s)
    ensures var h := Step(s).s;
            && Serving(h, Frame(s.pc, s.sp), s.ints.iff1) && Balanced(h, Frame(s.pc, s.sp))
            && h.pc == 0x66 && Step(s).t == 11 && !h.ints.halted
            && h == s.(pc := h.pc, sp := h.sp, ram := h.ram, r := h.r, ints := h.ints, dbg := h.dbg,
                       cycles := h.cycles, instrs := h.instrs)
  {
    hide Execute, ReadWord, WriteWord, BumpR, W;
    PushReads(s.ram, W(s.sp - 2), s.pc);
  }

  lemma HaltKeeps(s: Cpu)
    requires Imm8(s) == 0x76
    ensures Execute(s).s.ints == s.ints.(halted := true)
  {
    hide Execute, BumpR, Cb, Rd8, Wr8, ReadWord, WriteWord, OutTo, InFrom, W;
    PlainRow(s, 0x76);
  }

  /** Everything else leaves the flip-flops alone. */
  lemma OtherKeeps(s: Cpu)
    requires Imm8(s) != 0xFB && Imm8(s) != 0xF3 && !ReturnAt(s.ram, s.pc)
    ensures var e := Execute(s).s.ints; e.iff1 == s.ints.iff1 && e.iff2 == s.ints.iff2 && e.nmi == s.ints.nmi
  {
    hide Execute, Length, IsEdReturn;
    var op := Imm8(s);
    if op == 0xED {
      ExecuteEd(s);
    } else if op == 0xDD {
      ExecuteDdFd(s, IX);
    } else if op == 0xFD {
      ExecuteDdFd(s, IY);
    } else if op == 0x76 {
      HaltKeeps(s);
    } else {
      ExecutePlain(s);
    }
  }

  lemma HandlerOnce(s: Cpu, f: Frame, iff: bool, irq: bool)
    requires Serving(s, f, iff) && InHandler(s, f)
    ensures Serving(Step(WithIrq(s, irq)).s, f, iff)
  {
    hide Execute, AcceptIrq, AcceptNmi, ReadWord, SparesFrame, SavedPc, ReturnAt, W;
    var t := Undelayed(Armed(WithIrq(s, irq)));
    assert Step(WithIrq(s, irq)) == Execute(t);
    SameFrame(s, t, f);
    PcSurvives(t, f);
    OtherKeeps(t);
  }

  lemma {:induction false} HandlerKeeps(h: Cpu, f: Frame, iff: bool, irqs: seq<bool>)
    requires Serving(h, f, iff)
    requires forall k :: 0 <= k < |irqs| ==> InHandler(Runs(h, irqs[..k]), f)
    ensures Serving(Runs(h, irqs), f, iff)
  {
    hide Step, InHandler, Serving;
    if irqs != [] {
      var front := irqs[..|irqs| - 1];
      forall k | 0 <= k < |front|
        ensures InHandler(Runs(h, front[..k]), f)
      {
        assert front[..k] == irqs[..k];
      }
      HandlerKeeps(h, f, iff, front);
      HandlerOnce(Runs(h, front), f, iff, irqs[|irqs| - 1]);
    }
  }

  lemma ReturnsOnce(e: Cpu, f: Frame, iff: bool, irq: bool)
    requires Serving(e, f, iff) && AtReturn(e, f)
    ensures var r := Step(WithIrq(e, irq)).s;
            r.pc == f.pc && r.sp == f.sp && r.ints.iff1 == iff && r.ints.iff2 == iff
  {
    hide Execute, AcceptIrq, AcceptNmi, ReadWord, SavedPc, IsEdReturn, W;
    var t := Undelayed(Armed(WithIrq(e, irq)));
    assert Step(WithIrq(e, irq)) == Execute(t);
    SameFrame(e, t, f);
    SpUp(f.sp);
    ReturnEffect(t);
  }

  /**
   An NMI starts at 66h with interrupts off; after any disciplined handler, however the IRQ
   line moves meanwhile, RETN restores PC, SP and the interrupt enable.
   */
  lemma NmiReturns(s: Cpu, irqs: seq<bool>, irq: bool)
    requires s.ints.nmi && !BreakpointHit(s)
    requires var h, f := Step(s).s, Frame(s.pc, s.sp);
             && (forall k :: 0 <= k < |irqs| ==> InHandler(Runs(h, irqs[..k]), f))
             && AtReturn(Runs(h, irqs), f)
    ensures var h := Step(s).s;
            var r := Step(WithIrq(Runs(h, irqs), irq)).s;
            && h.pc == 0x66 && !h.ints.iff1 && Step(s).t == 11
            && r.pc == s.pc && r.sp == s.sp && r.ints.iff1 == s.ints.iff1 && r.ints.iff2 == s.ints.iff1
  {
    hide Step, InHandler, AtReturn, SavedPc;
    var h, f := Step(s).s, Frame(s.pc, s.sp);
    Accepted(s);
    HandlerKeeps(h, f, s.ints.iff1, irqs);
    ReturnsOnce(Runs(h, irqs), f, s.ints.iff1, irq);
  }
}
