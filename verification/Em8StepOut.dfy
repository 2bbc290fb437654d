/**
 The emulation loop and its step-out stop (em8/src/plugin_em8.cpp): an instruction, then the
 interrupt lines, then the stop tests, over whole runs.
 */
module Em8StepOut {
  import opened Bytes
  import opened Em8State
  import opened Em8Exec
  import opened Em8Stack

  /**
   What one turn of the loop meets from outside: a stop request, a breakpoint whose condition
   holds, a watchpoint hit that stops, and the interrupt lines after the instruction.
   */
  datatype Env = Env(stop: bool, breakpoint: bool, watch: bool, irq: bool, nmi: bool)

  datatype Reason = User | Breakpoint | Halt | Watchpoint | StepOut
  datatype Outcome = Running(s: Cpu) | Stopped(why: Reason, s: Cpu)

  function WithLines(s: Cpu, e: Env): Cpu { s.(irq := e.irq, nmi := s.nmi || e.nmi) }

  /** The instruction and the interrupt check of one turn. */
  function Turn(s: Cpu, e: Env): Cpu { CheckInterrupts(WithLines(Step(s), e)) }

  predicate Accepts(s: Cpu) { !s.halted && (s.nmi || (s.irq && !Has(s.fl, FLAG_I))) }

  /** The turn from s accepts an interrupt after its instruction. */
  predicate Interrupted(s: Cpu, e: Env) { Accepts(WithLines(Step(s), e)) }

  /** The frames after the instruction at s, then after the interrupt check. */
  function TurnFrames(s: Cpu, fs: seq<Frame>, e: Env): seq<Frame> {
    var t := WithLines(Step(s), e);
    if Accepts(t) then Follow(s, fs) + [Interrupt(t.pc, And(t.fl, 0xFF - FLAG_B))] else Follow(s, fs)
  }

  predicate TurnDisciplined(s: Cpu, base: byte, fs: seq<Frame>, e: Env) {
    && Disciplined(s, base, fs)
    && (Accepts(WithLines(Step(s), e)) ==> Room(Follow(s, fs), 3))
  }

  lemma TurnRefines(s: Cpu, base: byte, below: seq<word>, fs: seq<Frame>, e: Env)
    requires Related(s, base, below, fs) && !s.halted && TurnDisciplined(s, base, fs, e)
    ensures Related(Turn(s, e), base, below, TurnFrames(s, fs, e))
  {
    hide Related, Step, Follow, Disciplined, EnterHandler, Has, And, Room;
    StepRefines(s, base, below, fs);
    var t := WithLines(Step(s), e);
    assert Related(t, base, below, Follow(s, fs)) by { SameRelated(Step(s), t, base, below, Follow(s, fs)); }
    if Accepts(t) {
      var u := t.(nmi := false);
      SameRelated(t, u, base, below, Follow(s, fs));
      EnterRefines(u, base, below, Follow(s, fs), And(t.fl, 0xFF - FLAG_B), 0xFFFA);
      EnterRefines(t, base, below, Follow(s, fs), And(t.fl, 0xFF - FLAG_B), 0xFFFE);
    }
  }

  // ---- The loop -------------------------------------------------------------------------

  /** EmulationLoop, one turn per element of `es`, with the step-out target (-1: none). */
  function Loop(s: Cpu, target: int, es: seq<Env>): Outcome
    decreases |es|
  {
    if es == [] then Running(s)
    else if es[0].stop then Stopped(User, s)
    else if es[0].breakpoint then Stopped(Breakpoint, s)
    else
      var t := Turn(s, es[0]);
      if t.halted then Stopped(Halt, t)
      else if es[0].watch then Stopped(Watchpoint, t)
      else if target >= 0 && |t.shadow| <= target then Stopped(StepOut, t)
      else Loop(t, target, es[1..])
  }

  predicate StopsBefore(e: Env) { e.stop || e.breakpoint }
  predicate StopsAfter(t: Cpu, target: int, e: Env) {
    t.halted || e.watch || (target >= 0 && |t.shadow| <= target)
  }

  const IDLE: Env := Env(false, false, false, false, false)

  /** The state and the surroundings of the turn after which the loop stops, if it stops after one. */
  function LastTurn(s: Cpu, target: int, es: seq<Env>): (Cpu, Env)
    decreases |es|
  {
    if es == [] || StopsBefore(es[0]) then (s, IDLE)
    else if StopsAfter(Turn(s, es[0]), target, es[0]) then (s, es[0])
    else LastTurn(Turn(s, es[0]), target, es[1..])
  }

  /** The frames at the end of the loop. */
  function LoopFrames(s: Cpu, fs: seq<Frame>, target: int, es: seq<Env>): seq<Frame>
    decreases |es|
  {
    if es == [] || StopsBefore(es[0]) then fs
    else
      var t := Turn(s, es[0]);
      var gs := TurnFrames(s, fs, es[0]);
      if StopsAfter(t, target, es[0]) then gs else LoopFrames(t, gs, target, es[1..])
  }

  /** Every turn the loop takes keeps the discipline. */
  predicate LoopDisciplined(s: Cpu, base: byte, fs: seq<Frame>, target: int, es: seq<Env>)
    decreases |es|
  {
    es == [] || StopsBefore(es[0]) ||
    var t := Turn(s, es[0]);
    && TurnDisciplined(s, base, fs, es[0])
    && (StopsAfter(t, target, es[0])
        || LoopDisciplined(t, base, TurnFrames(s, fs, es[0]), target, es[1..]))
  }

  /** A whole run of the loop keeps page 1 and the shadow stack in step with the frames. */
  lemma {:induction false} LoopRefines(s: Cpu, base: byte, below: seq<word>, fs: seq<Frame>, target: int, es: seq<Env>)
    requires Related(s, base, below, fs) && !s.halted && LoopDisciplined(s, base, fs, target, es)
    ensures Related(Loop(s, target, es).s, base, below, LoopFrames(s, fs, target, es))
    decreases |es|
  {
    hide Related, Turn, TurnFrames, TurnDisciplined;
    if es != [] && !StopsBefore(es[0]) {
      TurnRefines(s, base, below, fs, es[0]);
      var t := Turn(s, es[0]);
      if !StopsAfter(t, target, es[0]) {
        LoopRefines(t, base, below, TurnFrames(s, fs, es[0]), target, es[1..]);
      }
    }
  }

  // ---- Step out -------------------------------------------------------------------------

  predicate NoCalls(fs: seq<Frame>) { forall i :: 0 <= i < |fs| ==> !fs[i].Call? }

  lemma {:induction false} CallsAppend(fs: seq<Frame>, gs: seq<Frame>)
    ensures Calls(fs + gs) == Calls(fs) + Calls(gs)
    decreases |gs|
  {
    if gs == [] {
      assert fs + gs == fs && Calls(fs) + [] == Calls(fs);
    } else {
      assert Below(fs + gs) == fs + Below(gs) && Top(fs + gs) == Top(gs);
      CallsAppend(fs, Below(gs));
    }
  }

  lemma {:induction false} NoCallsCount(fs: seq<Frame>)
    requires NoCalls(fs)
    ensures Calls(fs) == []
    decreases |fs|
  {
    if fs != [] { NoCallsCount(Below(fs)); }
  }

  /** While frame k, a call, is live, there is one more call than below it; without later calls exactly one. */
  lemma CallsFrom(fs: seq<Frame>, k: nat)
    requires k < |fs| && fs[k].Call?
    ensures |Calls(fs)| >= |Calls(fs[..k])| + 1
    ensures NoCalls(fs[k + 1..]) ==> |Calls(fs)| == |Calls(fs[..k])| + 1
  {
    var upper := fs[k + 1..];
    assert fs == fs[..k] + [fs[k]] + upper;
    CallsAppend(fs[..k] + [fs[k]], upper);
    PushFrame(fs[..k], fs[k]);
    if NoCalls(upper) { NoCallsCount(upper); }
  }

  /** Frame k is gone, the frames below it are left, and PC is the return address. */
  predicate Returned(t: Cpu, gs: seq<Frame>, fs: seq<Frame>, k: nat)
    requires k < |fs| && fs[k].Call?
  {
    gs == fs[..k] && t.pc == fs[k].ret
  }

  /** Frame k is gone, and an interrupt has broken in at the return address. */
  predicate BrokenInto(gs: seq<Frame>, fs: seq<Frame>, k: nat)
    requires k < |fs| && fs[k].Call?
  {
    exists fl :: gs == fs[..k] + [Interrupt(fs[k].ret, fl)]
  }

  /** The turn from p has taken frame k off: which of the two is decided by the interrupt check. */
  predicate JustLeft(t: Cpu, gs: seq<Frame>, fs: seq<Frame>, k: nat, p: Cpu, e: Env)
    requires k < |fs| && fs[k].Call?
  {
    if Interrupted(p, e) then BrokenInto(gs, fs, k) else Returned(t, gs, fs, k)
  }

  lemma JustLeftExact(t: Cpu, gs: seq<Frame>, fs: seq<Frame>, k: nat, p: Cpu, e: Env)
    requires k < |fs| && fs[k].Call? && JustLeft(t, gs, fs, k, p, e)
    ensures Returned(t, gs, fs, k) <==> !Interrupted(p, e)
    ensures BrokenInto(gs, fs, k) <==> Interrupted(p, e)
  {
    hide Interrupted;
    assert Returned(t, gs, fs, k) ==> |gs| == k;
    assert BrokenInto(gs, fs, k) ==> |gs| == k + 1;
  }

  predicate StillIn(gs: seq<Frame>, fs: seq<Frame>, k: nat)
    requires k < |fs|
  {
    fs[..k + 1] <= gs
  }

  lemma CheckRuns(s: Cpu)
    ensures CheckInterrupts(s).halted == s.halted
  {
    hide EnterHandler, Has, And;
    if s.nmi { HandlerSteady(s.(nmi := false), And(s.fl, 0xFF - FLAG_B), 0xFFFA); }
    HandlerSteady(s, And(s.fl, 0xFF - FLAG_B), 0xFFFE);
  }

  /** A turn whose instruction is a stack instruction, or that accepts an interrupt, does not halt. */
  lemma TurnRuns(s: Cpu, e: Env)
    requires !s.halted
    ensures IsStack(InstrAt(s)) || Interrupted(s, e) ==> !Turn(s, e).halted
  {
    hide Step, CheckInterrupts, Decode, FetchV, Has;
    CheckRuns(WithLines(Step(s), e));
    if IsStack(InstrAt(s)) { StackRuns(s); }
  }

  /** An instruction adds frames on top, or takes the top one off. */
  lemma FollowMoves(s: Cpu, fs: seq<Frame>)
    ensures var i := InstrAt(s);
            || fs <= Follow(s, fs)
            || (fs != [] && Follow(s, fs) == Below(fs) && (i.Rts? || i.Rti? || i.Pla? || i.Plf?))
  {
    hide InstrAt, Or;
  }

  /** One turn inside frame k either stays inside or returns from it. */
  lemma TurnStaysOrLeaves(s: Cpu, base: byte, below: seq<word>, gs: seq<Frame>, e: Env, fs: seq<Frame>, k: nat)
    requires Related(s, base, below, gs) && !s.halted && TurnDisciplined(s, base, gs, e)
    requires k < |fs| && fs[k].Call? && StillIn(gs, fs, k)
    ensures var hs := TurnFrames(s, gs, e);
            || StillIn(hs, fs, k)
            || (JustLeft(Turn(s, e), hs, fs, k, s, e) && |Calls(hs)| == |Calls(fs[..k])| && !Turn(s, e).halted)
  {
    hide Related, Step, EnterHandler, Has, And, Calls, StackBytes, Follow, Disciplined, InstrAt, Room;
    TurnRuns(s, e);
    StepRefines(s, base, below, gs);
    FollowMoves(s, gs);
    var next := Follow(s, gs);
    var t := WithLines(Step(s), e);
    if |next| > k {
      assert fs[..k + 1] <= next;
    } else {
      assert |gs| == k + 1 && next == Below(gs);
      assert gs == fs[..k + 1];
      assert Top(gs) == fs[k] && next == fs[..k];
      assert t.pc == fs[k].ret;
      if Accepts(t) {
        var f := Interrupt(t.pc, And(t.fl, 0xFF - FLAG_B));
        PushFrame(next, f);
        assert TurnFrames(s, gs, e) == fs[..k] + [Interrupt(fs[k].ret, f.fl)];
      }
    }
  }

  /**
   Step out from inside frame k, the innermost live call: the loop stops for it right after
   the turn whose RTS takes that frame off. PC is then the return address if and only if that
   turn accepts no interrupt; otherwise the interrupt has saved that address. A watchpoint may
   stop in the same turn, before or after the return; in every other outcome the frame is
   still live.
   */
  lemma {:induction false} StepOutStops(s: Cpu, base: byte, below: seq<word>, gs: seq<Frame>, es: seq<Env>,
                                        fs: seq<Frame>, k: nat)
    requires k < |fs| && fs[k].Call? && StillIn(gs, fs, k)
    requires Related(s, base, below, gs) && !s.halted
    requires LoopDisciplined(s, base, gs, |below| + |Calls(fs[..k])|, es)
    ensures var target := |below| + |Calls(fs[..k])|;
            var end, hs := Loop(s, target, es), LoopFrames(s, gs, target, es);
            var (p, e) := LastTurn(s, target, es);
            if end.Stopped? && end.why.StepOut? then
              && (Returned(end.s, hs, fs, k) <==> !Interrupted(p, e))
              && (BrokenInto(hs, fs, k) <==> Interrupted(p, e))
            else
              StillIn(hs, fs, k) || (end.Stopped? && end.why.Watchpoint? && JustLeft(end.s, hs, fs, k, p, e))
    decreases |es|
  {
    hide Related, Turn, TurnFrames, TurnDisciplined, JustLeft, Returned, BrokenInto, Interrupted, StillIn;
    var target := |below| + |Calls(fs[..k])|;
    if es != [] && !StopsBefore(es[0]) {
      TurnRefines(s, base, below, gs, es[0]);
      TurnStaysOrLeaves(s, base, below, gs, es[0], fs, k);
      var t := Turn(s, es[0]);
      var hs := TurnFrames(s, gs, es[0]);
      ShadowDepth(t, base, below, hs);
      if StillIn(hs, fs, k) {
        StillCounts(hs, fs, k);
        if !StopsAfter(t, target, es[0]) { StepOutStops(t, base, below, hs, es[1..], fs, k); }
      } else {
        JustLeftExact(t, hs, fs, k, s, es[0]);
      }
    }
  }

  lemma ShadowDepth(s: Cpu, base: byte, below: seq<word>, fs: seq<Frame>)
    requires Related(s, base, below, fs)
    ensures |s.shadow| == |below| + |Calls(fs)|
  {
  }

  lemma StillCounts(gs: seq<Frame>, fs: seq<Frame>, k: nat)
    requires k < |fs| && fs[k].Call? && StillIn(gs, fs, k)
    ensures |Calls(gs)| > |Calls(fs[..k])|
  {
    assert gs[..k] == fs[..k] by { assert gs[..k] == fs[..k + 1][..k]; }
    assert gs[k] == fs[..k + 1][k];
    CallsFrom(gs, k);
  }

  /** emfe_step_out: the target is one less than the current depth. */
  function StepOutFrom(s: Cpu, es: seq<Env>): Outcome {
    if |s.shadow| > 0 then Loop(s, |s.shadow| - 1, es) else Running(s)
  }

  /** The command's target is exactly the depth below the innermost live call. */
  lemma StepOutTarget(s: Cpu, base: byte, below: seq<word>, fs: seq<Frame>, k: nat)
    requires Related(s, base, below, fs) && k < |fs| && fs[k].Call? && NoCalls(fs[k + 1..])
    ensures |s.shadow| - 1 == |below| + |Calls(fs[..k])|
  {
    CallsFrom(fs, k);
  }

  /**
   The user's view of step out: the innermost live call has returned, the shadow stack is one
   shorter, and PC is the return address unless an interrupt was accepted in that very turn.
   */
  lemma StepOutReturns(s: Cpu, base: byte, below: seq<word>, fs: seq<Frame>, k: nat, es: seq<Env>)
    requires Related(s, base, below, fs) && !s.halted && k < |fs| && fs[k].Call? && NoCalls(fs[k + 1..])
    requires LoopDisciplined(s, base, fs, |s.shadow| - 1, es)
    ensures var end, hs := StepOutFrom(s, es), LoopFrames(s, fs, |s.shadow| - 1, es);
            var (p, e) := LastTurn(s, |s.shadow| - 1, es);
            end.Stopped? && end.why.StepOut? ==>
              && (Returned(end.s, hs, fs, k) <==> !Interrupted(p, e))
              && (BrokenInto(hs, fs, k) <==> Interrupted(p, e))
              && Related(end.s, base, below, hs) && end.s.shadow == below + Calls(fs[..k])
  {
    hide Related, Loop, LoopFrames, LoopDisciplined, LastTurn, Returned, BrokenInto, Interrupted;
    StepOutTarget(s, base, below, fs, k);
    assert StillIn(fs, fs, k);
    StepOutStops(s, base, below, fs, es, fs, k);
    LoopRefines(s, base, below, fs, |s.shadow| - 1, es);
    var end := StepOutFrom(s, es);
    if end.Stopped? && end.why.StepOut? {
      LeftCalls(end.s, base, below, LoopFrames(s, fs, |s.shadow| - 1, es), fs, k);
    }
  }

  lemma LeftCalls(t: Cpu, base: byte, below: seq<word>, hs: seq<Frame>, fs: seq<Frame>, k: nat)
    requires k < |fs| && fs[k].Call? && (Returned(t, hs, fs, k) || BrokenInto(hs, fs, k)) && Related(t, base, below, hs)
    ensures t.shadow == below + Calls(fs[..k])
  {
    hide Holds;
    if hs != fs[..k] {
      var fl :| hs == fs[..k] + [Interrupt(fs[k].ret, fl)];
      PushFrame(fs[..k], Interrupt(fs[k].ret, fl));
      assert Calls(fs[..k]) + [] == Calls(fs[..k]);
    }
  }

  /** No interrupt is requested in any turn. */
  predicate NoRequests(es: seq<Env>) { forall i :: 0 <= i < |es| ==> !es[i].irq && !es[i].nmi }

  lemma QuietTurn(s: Cpu, e: Env)
    requires !s.nmi && !e.irq && !e.nmi
    ensures !Interrupted(s, e) && !Turn(s, e).nmi
  {
    hide Step, EnterHandler, Has;
    NmiStays(s);
  }

  lemma {:induction false} QuietLastTurn(s: Cpu, target: int, es: seq<Env>)
    requires !s.nmi && NoRequests(es)
    ensures var (p, e) := LastTurn(s, target, es); !Interrupted(p, e)
    decreases |es|
  {
    hide Turn, Interrupted;
    if es == [] || StopsBefore(es[0]) {
      QuietTurn(s, IDLE);
    } else {
      QuietTurn(s, es[0]);
      assert forall i :: 0 <= i < |es[1..]| ==> es[1..][i] == es[i + 1];
      if !StopsAfter(Turn(s, es[0]), target, es[0]) { QuietLastTurn(Turn(s, es[0]), target, es[1..]); }
    }
  }

  /** Without interrupt requests step out always stops at the return address. */
  lemma QuietStepOut(s: Cpu, base: byte, below: seq<word>, fs: seq<Frame>, k: nat, es: seq<Env>)
    requires Related(s, base, below, fs) && !s.halted && k < |fs| && fs[k].Call? && NoCalls(fs[k + 1..])
    requires LoopDisciplined(s, base, fs, |s.shadow| - 1, es)
    requires !s.nmi && NoRequests(es)
    ensures var end := StepOutFrom(s, es);
            end.Stopped? && end.why.StepOut? ==>
              end.s.pc == fs[k].ret && LoopFrames(s, fs, |s.shadow| - 1, es) == fs[..k]
  {
    hide Related, Loop, LoopFrames, LoopDisciplined, LastTurn, BrokenInto, Interrupted;
    StepOutReturns(s, base, below, fs, k, es);
    QuietLastTurn(s, |s.shadow| - 1, es);
  }

  // ---- Every frame is given back ----------------------------------------------------------

  /** No instruction of the run takes frame k off. */
  predicate Inside(s: Cpu, fs: seq<Frame>, k: nat, es: seq<Env>)
    decreases |es|
  {
    es == [] || (|Follow(s, fs)| > k && Inside(Turn(s, es[0]), TurnFrames(s, fs, es[0]), k, es[1..]))
  }

  lemma {:induction false} FrameKept(s: Cpu, fs: seq<Frame>, k: nat, es: seq<Env>, origin: seq<Frame>)
    requires k < |origin| && StillIn(fs, origin, k) && !s.halted
    requires Loop(s, -1, es).Running? && Inside(s, fs, k, es)
    ensures StillIn(LoopFrames(s, fs, -1, es), origin, k) && !Loop(s, -1, es).s.halted
    decreases |es|
  {
    hide Turn, Follow, Accepts, WithLines;
    if es != [] {
      FollowKeeps(s, fs, k, origin);
      FrameKept(Turn(s, es[0]), TurnFrames(s, fs, es[0]), k, es[1..], origin);
    }
  }

  lemma FollowKeeps(s: Cpu, fs: seq<Frame>, k: nat, origin: seq<Frame>)
    requires k < |origin| && StillIn(fs, origin, k) && |Follow(s, fs)| > k
    ensures StillIn(Follow(s, fs), origin, k)
  {
    hide InstrAt, Or, W;
  }

  /**
   However a run nests calls, saved bytes and interrupts above frame k: the instruction that
   at last takes frame k off gets back what the frame was made of, with SP and the shadow
   stack as they were before it.
   */
  lemma FrameGivenBack(s: Cpu, base: byte, below: seq<word>, fs: seq<Frame>, k: nat, es: seq<Env>)
    requires Related(s, base, below, fs) && !s.halted && k < |fs|
    requires LoopDisciplined(s, base, fs, -1, es) && Loop(s, -1, es).Running? && Inside(s, fs, k, es)
    requires var t, gs := Loop(s, -1, es).s, LoopFrames(s, fs, -1, es);
             Disciplined(t, base, gs) && |Follow(t, gs)| == k
    ensures var t := Loop(s, -1, es).s;
            && GivesBack(t, Step(t), fs[k])
            && Step(t).sp == B(base - |StackBytes(fs[..k])|)
            && Step(t).shadow == below + Calls(fs[..k])
  {
    hide Loop, LoopFrames, LoopDisciplined, Inside, Step, Disciplined, GivesBack, StackBytes, Calls;
    var t, gs := Loop(s, -1, es).s, LoopFrames(s, fs, -1, es);
    FrameKept(s, fs, k, es, fs);
    LoopRefines(s, base, below, fs, -1, es);
    StepRefines(t, base, below, gs);
    assert gs == fs[..k + 1];
    assert Top(gs) == fs[k] && Below(gs) == fs[..k];
  }

  /** With one frame above frame k's place gone, its kind says which instruction took it off. */
  lemma PoppedBy(t: Cpu, base: byte, gs: seq<Frame>)
    requires Disciplined(t, base, gs) && gs != [] && |Follow(t, gs)| < |gs|
    ensures Top(gs).Call? ==> InstrAt(t).Rts?
    ensures Top(gs).Interrupt? ==> InstrAt(t).Rti?
  {
    hide FetchS, FetchV, Decode, EaV, Live, Or, W, Room;
  }

  /**
   The frame at place k of fs, the run es from s that keeps it, and at the end of the run an
   instruction that takes it off.
   */
  predicate TakesOff(s: Cpu, base: byte, fs: seq<Frame>, k: nat, es: seq<Env>) {
    && LoopDisciplined(s, base, fs, -1, es) && Loop(s, -1, es).Running? && Inside(s, fs, k, es)
    && var t, gs := Loop(s, -1, es).s, LoopFrames(s, fs, -1, es);
       Disciplined(t, base, gs) && |Follow(t, gs)| == k
  }

  lemma TakenOffBy(s: Cpu, base: byte, below: seq<word>, fs: seq<Frame>, k: nat, es: seq<Env>)
    requires Related(s, base, below, fs) && !s.halted && k < |fs| && TakesOff(s, base, fs, k, es)
    ensures var t := Loop(s, -1, es).s;
            && GivesBack(t, Step(t), fs[k])
            && Step(t).sp == B(base - |StackBytes(fs[..k])|) && Step(t).shadow == below + Calls(fs[..k])
            && (fs[k].Call? ==> InstrAt(t).Rts?) && (fs[k].Interrupt? ==> InstrAt(t).Rti?)
  {
    hide Loop, LoopFrames, LoopDisciplined, Inside, Step, Disciplined, Follow, GivesBack, StackBytes, Calls, Related;
    var t, gs := Loop(s, -1, es).s, LoopFrames(s, fs, -1, es);
    FrameGivenBack(s, base, below, fs, k, es);
    FrameKept(s, fs, k, es, fs);
    assert gs[k] == fs[..k + 1][k];
    OneLess(t, gs);
    PoppedBy(t, base, gs);
  }

  /** An instruction takes off at most one frame. */
  lemma OneLess(t: Cpu, gs: seq<Frame>)
    ensures |gs| - 1 <= |Follow(t, gs)| <= |gs| + 1
  {
    hide InstrAt, Or, W;
  }

  /** SP and the shadow stack are given by the frames. */
  lemma StackOf(s: Cpu, base: byte, below: seq<word>, fs: seq<Frame>)
    requires Related(s, base, below, fs)
    ensures s.sp == B(base - |StackBytes(fs)|) && s.shadow == below + Calls(fs)
  {
  }

  /**
   Each RTS returns after its JSR: whatever the subroutine and its interrupts do in between,
   the RTS that takes the call off continues behind the JSR, with SP and shadow stack as they
   were before it.
   */
  lemma CallReturns(s: Cpu, base: byte, below: seq<word>, fs: seq<Frame>, e: Env, es: seq<Env>)
    requires Related(s, base, below, fs) && !s.halted && InstrAt(s).Jsr? && TurnDisciplined(s, base, fs, e)
    requires TakesOff(Turn(s, e), base, TurnFrames(s, fs, e), |fs|, es)
    ensures var t := Loop(Turn(s, e), -1, es).s;
            InstrAt(t).Rts? && Step(t).pc == W(s.pc + 3) && Step(t).sp == s.sp && Step(t).shadow == s.shadow
  {
    hide Related, Turn, TurnDisciplined, TakesOff, Loop, Step, Accepts, StackBytes, Calls, W, Or, And, Decode, FetchV;
    TurnRefines(s, base, below, fs, e);
    var hs := TurnFrames(s, fs, e);
    TurnRuns(s, e);
    assert hs[..|fs|] == fs && hs[|fs|] == Call(W(s.pc + 3));
    TakenOffBy(Turn(s, e), base, below, hs, |fs|, es);
    StackOf(s, base, below, fs);
  }

  /**
   Each RTI restores what its interrupt broke off: an interrupt accepted after the
   instruction at s is returned from to the same PC, SP and shadow stack, and to the same
   flags up to bit B, whatever its handler does in between.
   */
  lemma InterruptRestores(s: Cpu, base: byte, below: seq<word>, fs: seq<Frame>, e: Env, es: seq<Env>)
    requires Related(s, base, below, fs) && !s.halted && TurnDisciplined(s, base, fs, e) && Interrupted(s, e)
    requires TakesOff(Turn(s, e), base, TurnFrames(s, fs, e), |Follow(s, fs)|, es)
    ensures var b, t := WithLines(Step(s), e), Loop(Turn(s, e), -1, es).s;
            && InstrAt(t).Rti? && Step(t).pc == b.pc && Step(t).sp == b.sp && Step(t).shadow == b.shadow
            && And(Step(t).fl, 0xFF - FLAG_B) == And(b.fl, 0xFF - FLAG_B)
  {
    hide Related, Turn, TakesOff, Loop, Step, Accepts, Follow, Disciplined, StackBytes, Calls, Room;
    hide And, Decode, FetchV;
    TurnRefines(s, base, below, fs, e);
    StepRefines(s, base, below, fs);
    var k, hs, b := |Follow(s, fs)|, TurnFrames(s, fs, e), WithLines(Step(s), e);
    TurnRuns(s, e);
    assert hs[..k] == Follow(s, fs) && hs[k] == Interrupt(b.pc, And(b.fl, 0xFF - FLAG_B));
    TakenOffBy(Turn(s, e), base, below, hs, k, es);
    StackOf(Step(s), base, below, Follow(s, fs));
    FlagsUpToB(b.fl);
  }

  /** BRK likewise: RTI returns behind its signature byte, to the flags up to bit B. */
  lemma BreakRestores(s: Cpu, base: byte, below: seq<word>, fs: seq<Frame>, e: Env, es: seq<Env>)
    requires Related(s, base, below, fs) && !s.halted && InstrAt(s).Brk? && TurnDisciplined(s, base, fs, e)
    requires TakesOff(Turn(s, e), base, TurnFrames(s, fs, e), |fs|, es)
    ensures var t := Loop(Turn(s, e), -1, es).s;
            && InstrAt(t).Rti? && Step(t).pc == W(s.pc + 2) && Step(t).sp == s.sp && Step(t).shadow == s.shadow
            && And(Step(t).fl, 0xFF - FLAG_B) == And(s.fl, 0xFF - FLAG_B)
  {
    hide Related, Turn, TurnDisciplined, TakesOff, Loop, Step, Accepts, StackBytes, Calls, W, Or, And, Decode, FetchV;
    TurnRefines(s, base, below, fs, e);
    var hs := TurnFrames(s, fs, e);
    TurnRuns(s, e);
    assert hs[..|fs|] == fs && hs[|fs|] == Interrupt(W(s.pc + 2), Or(s.fl, FLAG_B));
    TakenOffBy(Turn(s, e), base, below, hs, |fs|, es);
    StackOf(s, base, below, fs);
    FlagsUpToB(s.fl);
  }

  /** Both kinds of interrupt frame hold the flags of the moment up to bit B. */
  lemma FlagsUpToB(fl: byte)
    ensures And(And(fl, 0xFF - FLAG_B), 0xFF - FLAG_B) == And(fl, 0xFF - FLAG_B)
    ensures And(Or(fl, FLAG_B), 0xFF - FLAG_B) == And(fl, 0xFF - FLAG_B)
  {
    hide And, Or;
    AndTwice(fl, 0xFF - FLAG_B);
    MaskApart();
    OrThenAnd(fl, FLAG_B, 0xFF - FLAG_B);
  }

  lemma MaskApart()
    ensures (FLAG_B as bv8) & ((0xFF - FLAG_B) as bv8) == 0
  {
  }

  lemma AndTwice(a: byte, g: byte)
    ensures And(And(a, g), g) == And(a, g)
  {
    AndBits(a, g);
    MaskTwice(a as bv8, g as bv8);
  }

  lemma MaskTwice(x: bv8, y: bv8)
    ensures (x & y) & y == x & y
  {
  }

  lemma OrThenAnd(a: byte, f: byte, g: byte)
    requires (f as bv8) & (g as bv8) == 0
    ensures And(Or(a, f), g) == And(a, g)
  {
    OrBits(a, f);
    SetThenMask(a as bv8, f as bv8, g as bv8);
  }

  lemma SetThenMask(x: bv8, y: bv8, z: bv8)
    requires y & z == 0
    ensures (x | y) & z == x & z
  {
  }

  // ---- Where RTS and an interrupt meet --------------------------------------------------------

  /** RTS at 0200, on the stack the return address 0303 less one, the IRQ vector pointing to 0400. */
  function MeetingByte(a: word): byte {
    if a == 0x200 then 0x62 else if a == 0x1FE then 0x02 else if a == 0x1FF then 0x03
    else if a == 0xFFFF then 0x04 else 0
  }

  function Meeting(): Cpu {
    Cpu(0, 0, 0, 0xFD, 0x200, 0, false, 0, 0, false, false, [0x303],
        seq(0x10000, a requires 0 <= a < 0x10000 => MeetingByte(a)), Bus([], []))
  }

  lemma NoFlags()
    ensures !Has(0, FLAG_I) && And(0, 0xFF - FLAG_B) == 0
  {
  }

  lemma MeetingFetch()
    ensures FetchV(Meeting()) == 0x62 && InstrAt(Meeting()).Rts?
  {
    assert Meeting().ram[0x200] == 0x62;
  }

  /** RTS leaves the flags and memory alone. */
  lemma RtsLeaves(s: Cpu)
    requires !s.halted && InstrAt(s).Rts?
    ensures Step(s).fl == s.fl && Step(s).ram == s.ram
  {
    hide ReadV, Decode, Device, B, W, Pair, Cost, Taken;
  }

  lemma MeetingStep()
    ensures var t := Step(Meeting());
            t.pc == 0x303 && t.fl == 0 && !t.halted && !t.nmi && t.shadow == [] && t.ram == Meeting().ram
  {
    var s, fs := Meeting(), [Call(0x303)];
    MeetingRelated();
    MeetingFetch();
    hide Step, Related, Meeting, Decode, FetchV, StackBytes;
    assert Below(fs) == [] && Top(fs) == Call(0x303);
    StepRefines(s, 0xFF, [], fs);
    RtsLeaves(s);
    NmiStays(s);
    StackRuns(s);
    StackOf(Step(s), 0xFF, [], []);
    MeetingFields();
  }

  lemma MeetingFields()
    ensures var s := Meeting(); s.fl == 0 && !s.nmi && !s.halted && s.shadow == [0x303]
  {
  }

  lemma MeetingTurn(e: Env)
    requires e.irq && !e.nmi
    ensures var t := Turn(Meeting(), e);
            Interrupted(Meeting(), e) && t.pc == 0x400 && t.shadow == [] && !t.halted
  {
    hide Step, Has, And, Or, WithFlag;
    MeetingStep();
    NoFlags();
    var u := WithLines(Step(Meeting()), e);
    assert u.ram[0xFFFE] == 0 && u.ram[0xFFFF] == 4;
  }

  /**
   Here step out stops not at the return address 0303 but at the handler, 0400, in a run that
   keeps the whole discipline.
   */
  lemma StepOutMeetsInterrupt()
    ensures var s, fs, es := Meeting(), [Call(0x303)], [Env(false, false, false, true, false)];
            var end := StepOutFrom(s, es);
            && Related(s, 0xFF, [], fs) && LoopDisciplined(s, 0xFF, fs, 0, es)
            && end.Stopped? && end.why.StepOut? && end.s.pc == 0x400
            && LoopFrames(s, fs, 0, es) == [Interrupt(0x303, 0)]
  {
    hide Step, Has, And, Or, WithFlag, EnterHandler;
    var s, fs, e := Meeting(), [Call(0x303)], Env(false, false, false, true, false);
    MeetingRelated();
    MeetingFetch();
    MeetingStep();
    MeetingTurn(e);
    NoFlags();
    assert Below(fs) == [] && Top(fs) == Call(0x303);
    assert Follow(s, fs) == [];
    assert [] + [Interrupt(0x303, 0)] == [Interrupt(0x303, 0)];
    hide Turn, Decode, FetchV;
    assert Loop(s, 0, [e]) == Stopped(StepOut, Turn(s, e));
  }

  lemma MeetingRelated()
    ensures Related(Meeting(), 0xFF, [], [Call(0x303)])
  {
    var s, fs := Meeting(), [Call(0x303)];
    assert Below(fs) == [] && Top(fs) == Call(0x303);
    assert StackBytes(fs) == [] + [Hi(0x302), Lo(0x302)] == [3, 2];
    assert Calls(fs) == [0x303];
    assert Slot(0xFF, 0) == 0x1FF && Slot(0xFF, 1) == 0x1FE;
  }
}
