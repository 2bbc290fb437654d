/**
 The circular page-1 stack as a LIFO of frames, kept by every disciplined EM8 run, with the
 debugger's shadow stack as its list of live return addresses.
 */
module Em8Stack {
  import opened Bytes
  import opened Em8State
  import opened Em8Exec

  /** What one instruction or interrupt leaves on the stack. */
  datatype Frame = Call(ret: word) | Saved(value: byte) | Interrupt(pc: word, fl: byte)

  function FrameBytes(f: Frame): seq<byte> {
    match f
    case Call(ret) => [Hi(W(ret - 1)), Lo(W(ret - 1))]
    case Saved(v) => [v]
    case Interrupt(pc, fl) => [Hi(pc), Lo(pc), fl]
  }

  function Top(fs: seq<Frame>): Frame
    requires fs != []
  {
    fs[|fs| - 1]
  }

  function Below(fs: seq<Frame>): seq<Frame>
    requires fs != []
  {
    fs[..|fs| - 1]
  }

  /** The outstanding stack bytes, oldest first. */
  function StackBytes(fs: seq<Frame>): seq<byte> {
    if fs == [] then [] else StackBytes(Below(fs)) + FrameBytes(Top(fs))
  }

  /** The return addresses of the live subroutine calls, oldest first. */
  function Calls(fs: seq<Frame>): seq<word> {
    if fs == [] then [] else Calls(Below(fs)) + if Top(fs).Call? then [Top(fs).ret] else []
  }

  /** Where the i-th outstanding byte lies, when the empty stack has SP == base. */
  function Slot(base: byte, i: int): word { 0x100 + B(base - i) }

  /** Page 1 holds these bytes and nothing newer. */
  predicate Holds(s: Cpu, base: byte, bs: seq<byte>) {
    && |bs| <= 0x100 && s.sp == B(base - |bs|)
    && forall i :: 0 <= i < |bs| ==> s.ram[Slot(base, i)] == bs[i]
  }

  /** `below` are shadow entries older than the tracked frames. */
  predicate Related(s: Cpu, base: byte, below: seq<word>, fs: seq<Frame>) {
    Holds(s, base, StackBytes(fs)) && |below| <= 128 && s.shadow == below + Calls(fs)
  }

  // ---- Bytes ----------------------------------------------------------------------------

  lemma SlotsDiffer(base: byte, i: int, j: int)
    requires 0 <= i < j < 0x100
    ensures Slot(base, i) != Slot(base, j)
  {
  }

  lemma PushRefines(s: Cpu, base: byte, bs: seq<byte>, v: byte)
    requires Holds(s, base, bs) && |bs| < 0x100
    ensures Holds(Push8(s, v), base, bs + [v])
    ensures Push8(s, v) == s.(sp := B(s.sp - 1), ram := s.ram[0x100 + s.sp := v])
  {
    forall i | 0 <= i < |bs|
      ensures Slot(base, i) != 0x100 + s.sp
    {
      SlotsDiffer(base, i, |bs|);
    }
  }

  lemma PullRefines(s: Cpu, base: byte, bs: seq<byte>)
    requires Holds(s, base, bs) && bs != []
    ensures Pull8V(s) == bs[|bs| - 1]
    ensures Pull8S(s) == s.(sp := B(s.sp + 1))
    ensures Holds(Pull8S(s), base, bs[..|bs| - 1])
  {
    var n := |bs|;
    assert Slot(base, n - 1) == 0x100 + B(s.sp + 1);
  }

  lemma Push16Refines(s: Cpu, base: byte, bs: seq<byte>, v: word)
    requires Holds(s, base, bs) && |bs| + 2 <= 0x100
    ensures Holds(Push16(s, v), base, bs + [Hi(v), Lo(v)])
    ensures Push16(s, v) == s.(sp := Push16(s, v).sp, ram := Push16(s, v).ram)
  {
    hide Holds, Push8, Hi, Lo;
    HoldsLength(s, base, bs);
    PushRefines(s, base, bs, Hi(v));
    PushRefines(Push8(s, Hi(v)), base, bs + [Hi(v)], Lo(v));
    assert bs + [Hi(v)] + [Lo(v)] == bs + [Hi(v), Lo(v)];
  }

  lemma HoldsLength(s: Cpu, base: byte, bs: seq<byte>)
    requires Holds(s, base, bs)
    ensures |bs| <= 0x100
  {
  }

  lemma Pull16Refines(s: Cpu, base: byte, bs: seq<byte>, hi: byte, lo: byte)
    requires Holds(s, base, bs + [hi, lo])
    ensures Pull16V(s) == Pair(hi, lo) && Holds(Pull16S(s), base, bs)
    ensures Pull16S(s) == s.(sp := Pull16S(s).sp)
  {
    hide Holds, Pull8V, Pull8S, Pair;
    var all := bs + [hi, lo];
    PullRefines(s, base, all);
    var s1 := Pull8S(s);
    assert all[..|all| - 1] == bs + [hi];
    PullRefines(s1, base, bs + [hi]);
    assert (bs + [hi])[..|bs|] == bs;
  }

  // ---- Frames ---------------------------------------------------------------------------

  lemma PushFrame(fs: seq<Frame>, f: Frame)
    ensures StackBytes(fs + [f]) == StackBytes(fs) + FrameBytes(f)
    ensures Calls(fs + [f]) == Calls(fs) + if f.Call? then [f.ret] else []
  {
    assert Below(fs + [f]) == fs;
  }

  lemma TopFrame(fs: seq<Frame>)
    requires fs != []
    ensures StackBytes(fs) == StackBytes(Below(fs)) + FrameBytes(Top(fs))
  {
  }

  lemma {:induction false} TwoBytesACall(fs: seq<Frame>)
    ensures 2 * |Calls(fs)| <= |StackBytes(fs)|
    decreases |fs|
  {
    if fs != [] { TwoBytesACall(Below(fs)); }
  }

  // ---- The abstract machine -------------------------------------------------------------

  /** The frames after the instruction at PC. */
  function Follow(s: Cpu, fs: seq<Frame>): seq<Frame> {
    var i := InstrAt(s);
    match i
    case Jsr => fs + [Call(W(s.pc + 3))]
    case Brk => fs + [Interrupt(W(s.pc + 2), Or(s.fl, FLAG_B))]
    case Pha => fs + [Saved(s.a)]
    case Phf => fs + [Saved(s.fl)]
    case _ => if (i.Rts? || i.Rti? || i.Pla? || i.Plf?) && fs != [] then Below(fs) else fs
  }

  /** Room for n more bytes. */
  predicate Room(fs: seq<Frame>, n: nat) { |StackBytes(fs)| + n <= 0x100 }

  predicate Live(base: byte, fs: seq<Frame>, addr: word) {
    exists i :: 0 <= i < |StackBytes(fs)| && addr == Slot(base, i)
  }

  /**
   The instruction at PC respects the frames: it takes off what was put on, overflows no
   stack, moves SP by no other means, and stores into no live stack byte.
   */
  predicate Disciplined(s: Cpu, base: byte, fs: seq<Frame>) {
    var i := InstrAt(s);
    var s1 := FetchS(s);
    match i
    case Jsr => Room(fs, 2)
    case Brk => Room(fs, 3)
    case Pha => Room(fs, 1)
    case Phf => Room(fs, 1)
    case Rts => fs != [] && Top(fs).Call?
    case Rti => fs != [] && Top(fs).Interrupt?
    case Pla => fs != [] && Top(fs).Saved?
    case Plf => fs != [] && Top(fs).Saved?
    case Txs => s.x == s.sp
    case Store(_, m) => !Live(base, fs, EaV(s1, m))
    case _ => true
  }

  /** What the popping instructions give back. */
  predicate GivesBack(s: Cpu, t: Cpu, f: Frame) {
    match InstrAt(s)
    case Rts => f.Call? && t.pc == f.ret
    case Rti => f.Interrupt? && t.pc == f.pc && t.fl == f.fl
    case Pla => f.Saved? && t.a == f.value
    case Plf => f.Saved? && t.fl == f.value
    case _ => true
  }

  // ---- One instruction refines the abstract machine --------------------------------------

  /** The parts of the state the stack relation looks at. */
  predicate SameStack(s: Cpu, t: Cpu) { t.sp == s.sp && t.shadow == s.shadow && t.ram == s.ram }

  /** The stack and the interrupt request as they were. */
  predicate Spares(s: Cpu, t: Cpu) { SameStack(s, t) && t.nmi == s.nmi }

  lemma SameRelated(s: Cpu, t: Cpu, base: byte, below: seq<word>, fs: seq<Frame>)
    requires Related(s, base, below, fs) && SameStack(s, t)
    ensures Related(t, base, below, fs)
  {
  }

  lemma FlagsKeep(s: Cpu, f: byte, b: bool, v: byte)
    ensures Spares(s, SetFlag(s, f, b)) && Spares(s, SetNZ(s, v))
  {
    hide WithFlag, Neg;
  }

  lemma AluKeeps(s: Cpu, op: AluOp, v: byte)
    ensures Spares(s, DoAlu(s, op, v))
  {
    hide And, Or, Xor, B, Neg, Has, WithFlag;
  }

  lemma ShiftKeeps(s: Cpu, sh: ShiftOp, r: Reg, up: bool)
    ensures Spares(s, DoShift(s, sh)) && Spares(s, DoBump(s, r, up))
  {
    hide B, Neg, Has, WithFlag;
  }

  lemma OperandKeeps(s: Cpu, m: Mode)
    ensures Spares(s, EaS(s, m)) && Spares(s, OperandS(s, m))
  {
    hide EaV, ReadV, Device, W;
  }

  lemma JumpKeeps(s: Cpu, taken: bool)
    ensures Spares(s, BranchIf(s, taken)) && Spares(s, Fetch16S(s).(pc := Fetch16V(s)))
  {
    hide ReadV, Device, W, Signed, Pair;
  }

  lemma PlainKeeps(s: Cpu, i: Instr)
    requires !IsStack(i) && !i.Store? && (i.Txs? ==> s.x == s.sp)
    ensures Spares(s, ExecPlain(s, i))
  {
    hide SetFlag, SetNZ, DoAlu, DoShift, DoBump, OperandS, OperandV, BranchIf, Fetch16S, Fetch16V, Has, W;
    match i
    case Alu(op, m) =>
      OperandKeeps(s, m);
      AluKeeps(OperandS(s, m), op, OperandV(s, m));
    case Shift(sh) => ShiftKeeps(s, sh, A, true);
    case Bump(r, up) => ShiftKeeps(s, Asl, r, up);
    case Branch(f, v) => JumpKeeps(s, Has(s.fl, f) == v);
    case Bra => JumpKeeps(s, true);
    case Jmp => JumpKeeps(s, true);
    case Transfer(from, to) => FlagsKeep(SetReg(s, to, RegOf(s, from)), FLAG_C, true, RegOf(s, from));
    case Tsx => FlagsKeep(s.(x := s.sp), FLAG_C, true, s.sp);
    case Flag(f, v) => FlagsKeep(s, f, v, 0);
    case Load(r, m) =>
      OperandKeeps(s, m);
      FlagsKeep(SetReg(OperandS(s, m), r, OperandV(s, m)), FLAG_C, true, OperandV(s, m));
    case _ =>
  }

  lemma StoreKeeps(s: Cpu, base: byte, below: seq<word>, fs: seq<Frame>, r: Reg, m: Mode)
    requires Related(s, base, below, fs) && !Live(base, fs, EaV(s, m))
    ensures Related(ExecStore(s, r, m), base, below, fs)
  {
    hide EaV, EaS, Slot, StackBytes, Calls, Device;
    var bs := StackBytes(fs);
    OperandKeeps(s, m);
    forall i | 0 <= i < |bs|
      ensures Slot(base, i) != EaV(s, m)
    {
    }
  }

  lemma PushOne(s: Cpu, base: byte, below: seq<word>, fs: seq<Frame>, v: byte)
    requires Related(s, base, below, fs) && Room(fs, 1)
    ensures Related(Push8(s, v), base, below, fs + [Saved(v)])
  {
    hide Holds, StackBytes, Calls;
    PushRefines(s, base, StackBytes(fs), v);
    PushFrame(fs, Saved(v));
    assert below + (Calls(fs) + []) == below + Calls(fs);
  }

  lemma PullOne(s: Cpu, base: byte, below: seq<word>, fs: seq<Frame>)
    requires Related(s, base, below, fs) && fs != [] && Top(fs).Saved?
    ensures Related(Pull8S(s), base, below, Below(fs)) && Pull8V(s) == Top(fs).value
  {
    hide Holds;
    var bs := StackBytes(fs);
    PullRefines(s, base, bs);
    assert bs[..|bs| - 1] == StackBytes(Below(fs));
    assert Calls(fs) == Calls(Below(fs));
  }

  lemma JsrRefines(s: Cpu, base: byte, below: seq<word>, fs: seq<Frame>)
    requires Related(s, base, below, fs) && Room(fs, 2)
    ensures Related(DoJsr(s), base, below, fs + [Call(W(s.pc + 2))])
  {
    hide Holds, StackBytes, Calls, Push16, Pair, Device;
    var s1 := Fetch16S(s);
    var ret := s1.pc;
    assert SameStack(s, s1) && ret == W(s.pc + 2);
    SameHolds(s, s1, base, StackBytes(fs));
    Push16Refines(s1, base, StackBytes(fs), W(s1.pc - 1));
    PushFrame(fs, Call(ret));
    TwoBytesACall(fs);
    var s2 := Push16(s1, W(s1.pc - 1));
    SameHolds(s2, DoJsr(s), base, StackBytes(fs + [Call(ret)]));
    assert below + Calls(fs) + [ret] == below + (Calls(fs) + [ret]);
  }

  lemma SameHolds(s: Cpu, t: Cpu, base: byte, bs: seq<byte>)
    requires Holds(s, base, bs) && t.sp == s.sp && t.ram == s.ram
    ensures Holds(t, base, bs)
  {
  }

  lemma RtsRefines(s: Cpu, base: byte, below: seq<word>, fs: seq<Frame>)
    requires Related(s, base, below, fs) && fs != [] && Top(fs).Call?
    ensures Related(DoRts(s), base, below, Below(fs)) && DoRts(s).pc == Top(fs).ret
  {
    hide Holds, Pull16S, Pull16V, Hi, Lo, StackBytes;
    var ret := Top(fs).ret;
    var last := W(Top(fs).ret - 1);
    var bs := StackBytes(Below(fs));
    TopFrame(fs);
    Pull16Refines(s, base, bs, Hi(last), Lo(last));
    PairOf(last);
    SameHolds(Pull16S(s), DoRts(s), base, bs);
    DropLast(below, Calls(Below(fs)), ret);
  }

  lemma DropLast(a: seq<word>, b: seq<word>, w: word)
    ensures var all := a + (b + [w]);
            all[..|all| - 1] == a + b
  {
  }

  lemma RtiRefines(s: Cpu, base: byte, below: seq<word>, fs: seq<Frame>)
    requires Related(s, base, below, fs) && fs != [] && Top(fs).Interrupt?
    ensures Related(DoRti(s), base, below, Below(fs))
    ensures DoRti(s).pc == Top(fs).pc && DoRti(s).fl == Top(fs).fl
  {
    hide Holds, Pull16S, Pull16V, Pull8S, Pull8V, Hi, Lo;
    var f := Top(fs);
    var bs := StackBytes(Below(fs));
    var all := StackBytes(fs);
    assert all == bs + [Hi(f.pc), Lo(f.pc), f.fl];
    PullRefines(s, base, all);
    var s1 := Pull8S(s);
    assert all[..|all| - 1] == bs + [Hi(f.pc), Lo(f.pc)];
    Pull16Refines(s1, base, bs, Hi(f.pc), Lo(f.pc));
    PairOf(f.pc);
    SameHolds(Pull16S(s1), DoRti(s), base, bs);
    assert Calls(fs) == Calls(Below(fs));
  }

  /** Accepting an interrupt, or BRK: the frame saves PC and the given flags. */
  lemma EnterRefines(s: Cpu, base: byte, below: seq<word>, fs: seq<Frame>, fl: byte, vector: word)
    requires Related(s, base, below, fs) && Room(fs, 3)
    ensures Related(EnterHandler(s, fl, vector), base, below, fs + [Interrupt(s.pc, fl)])
  {
    hide Holds, StackBytes, Calls, Push16, Push8, Hi, Lo, Or, And, Pair;
    var bs := StackBytes(fs);
    Push16Refines(s, base, bs, s.pc);
    var s1 := Push16(s, s.pc);
    PushRefines(s1, base, bs + [Hi(s.pc), Lo(s.pc)], fl);
    assert bs + [Hi(s.pc), Lo(s.pc)] + [fl] == bs + [Hi(s.pc), Lo(s.pc), fl];
    PushFrame(fs, Interrupt(s.pc, fl));
    var s2 := Push8(s1, fl);
    SameHolds(s2, EnterHandler(s, fl, vector), base, bs + [Hi(s.pc), Lo(s.pc), fl]);
    assert below + (Calls(fs) + []) == below + Calls(fs);
  }

  lemma Fetching(s: Cpu)
    ensures SameStack(s, FetchS(s)) && FetchS(s).pc == W(s.pc + 1)
    ensures FetchS(s) == s.(pc := W(s.pc + 1), bus := FetchS(s).bus)
  {
  }

  lemma NextPc(pc: word)
    ensures W(W(pc + 1) + 1) == W(pc + 2) && W(W(pc + 1) + 2) == W(pc + 3)
  {
  }

  /** No instruction touches the NMI request. */
  lemma NmiStays(s: Cpu)
    ensures Step(s).nmi == s.nmi
  {
    hide FetchS, FetchV, Decode, ExecStack, ExecPlain, ExecStore, Cost, Has;
    var s1, i := FetchS(s), InstrAt(s);
    Fetching(s);
    if IsStack(i) {
      StackSteady(s1, i);
    } else if i.Store? {
      StoreNmi(s1, i.reg, i.mode);
    } else if !i.Txs? {
      PlainKeeps(s1, i);
    } else {
      TxsNmi(s1);
    }
  }

  /** No stack instruction halts. */
  lemma StackRuns(s: Cpu)
    requires !s.halted && IsStack(InstrAt(s))
    ensures !Step(s).halted
  {
    hide FetchS, FetchV, Decode, ExecStack, Cost, Has;
    ByteSteady(s, 0);
    StackSteady(FetchS(s), InstrAt(s));
  }

  lemma TxsNmi(s: Cpu)
    ensures ExecPlain(s, Txs).nmi == s.nmi
  {
  }

  /** The request and the running state as they were. */
  predicate Steady(s: Cpu, t: Cpu) { t.nmi == s.nmi && t.halted == s.halted }

  lemma ByteSteady(s: Cpu, v: byte)
    ensures Steady(s, Push8(s, v)) && Steady(s, Pull8S(s)) && Steady(s, FetchS(s))
  {
    hide ReadV, Device, B, W;
  }

  lemma WordSteady(s: Cpu, v: word)
    ensures Steady(s, Push16(s, v)) && Steady(s, Pull16S(s)) && Steady(s, Fetch16S(s))
  {
    hide Push8, Pull8S, FetchS, Hi, Lo;
    ByteSteady(s, Hi(v));
    ByteSteady(Push8(s, Hi(v)), Lo(v));
    ByteSteady(Pull8S(s), 0);
    ByteSteady(FetchS(s), 0);
  }

  lemma HandlerSteady(s: Cpu, fl: byte, vector: word)
    ensures Steady(s, EnterHandler(s, fl, vector))
  {
    hide Push8, Push16, WithFlag, Pair, W;
    WordSteady(s, s.pc);
    ByteSteady(Push16(s, s.pc), fl);
  }

  lemma StackSteady(s: Cpu, i: Instr)
    requires IsStack(i)
    ensures Steady(s, ExecStack(s, i))
  {
    hide Push8, Pull8S, Pull8V, Push16, Pull16S, Pull16V, Fetch16S, Fetch16V, EnterHandler, WithFlag, W, Or;
    match i
    case Jsr =>
      WordSteady(s, 0);
      WordSteady(Fetch16S(s), W(Fetch16S(s).pc - 1));
    case Rts => WordSteady(s, 0);
    case Rti =>
      ByteSteady(s, 0);
      WordSteady(Pull8S(s), 0);
    case Brk => HandlerSteady(s.(pc := W(s.pc + 1)), Or(s.fl, FLAG_B), 0xFFFE);
    case Pha => ByteSteady(s, s.a);
    case Phf => ByteSteady(s, s.fl);
    case Pla => ByteSteady(s, 0);
    case Plf => ByteSteady(s, 0);
    case _ =>
  }

  lemma StoreNmi(s: Cpu, r: Reg, m: Mode)
    ensures ExecStore(s, r, m).nmi == s.nmi
  {
    hide EaV, EaS, Device;
    OperandKeeps(s, m);
  }

  lemma StackRefines(s: Cpu, base: byte, below: seq<word>, fs: seq<Frame>)
    requires Related(s, base, below, fs) && Disciplined(s, base, fs) && IsStack(InstrAt(s))
    ensures var t := ExecStack(FetchS(s), InstrAt(s));
            && Related(t, base, below, Follow(s, fs))
            && (fs != [] ==> GivesBack(s, t, Top(fs)))
  {
    hide Related, Decode, FetchS, FetchV, DoJsr, DoRts, DoRti, EnterHandler, Push8, Pull8S, Pull8V, StackBytes, Or, W;
    var s1 := FetchS(s);
    Fetching(s);
    NextPc(s.pc);
    SameRelated(s, s1, base, below, fs);
    match InstrAt(s)
    case Jsr => JsrRefines(s1, base, below, fs);
    case Rts => RtsRefines(s1, base, below, fs);
    case Rti => RtiRefines(s1, base, below, fs);
    case Brk =>
      var s2 := s1.(pc := W(s1.pc + 1));
      SameRelated(s1, s2, base, below, fs);
      EnterRefines(s2, base, below, fs, Or(s.fl, FLAG_B), 0xFFFE);
    case Pha => PushOne(s1, base, below, fs, s1.a);
    case Phf => PushOne(s1, base, below, fs, s1.fl);
    case Pla =>
      PullOne(s1, base, below, fs);
      SameRelated(Pull8S(s1), ToA(Pull8S(s1), Pull8V(s1)), base, below, Below(fs));
    case Plf =>
      PullOne(s1, base, below, fs);
      SameRelated(Pull8S(s1), Pull8S(s1).(fl := Pull8V(s1)), base, below, Below(fs));
    case _ =>
  }

  /**
   One disciplined instruction refines the LIFO: the frames follow it, and what it takes off
   is what was put on.
   */
  lemma StepRefines(s: Cpu, base: byte, below: seq<word>, fs: seq<Frame>)
    requires Related(s, base, below, fs) && Disciplined(s, base, fs) && !s.halted
    ensures Related(Step(s), base, below, Follow(s, fs))
    ensures fs != [] ==> GivesBack(s, Step(s), Top(fs))
  {
    hide Related, FetchS, FetchV, Decode, ExecStack, ExecPlain, ExecStore, EaV, Live, StackBytes, Cost, Or, W, Has;
    var i := InstrAt(s);
    var s1 := FetchS(s);
    Fetching(s);
    SameRelated(s, s1, base, below, fs);
    var t := Exec(s1, i);
    if IsStack(i) {
      StackRefines(s, base, below, fs);
    } else if i.Store? {
      StoreKeeps(s1, base, below, fs, i.reg, i.mode);
    } else {
      PlainKeeps(s1, i);
      SameRelated(s1, t, base, below, fs);
    }
    SameRelated(t, Step(s), base, below, Follow(s, fs));
  }
}
