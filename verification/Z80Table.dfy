/** Every instruction the engine executes does what the manual's opcode map says. */
module Z80Table {
  import opened Bytes
  import opened Z80State
  import opened Z80Alu
  import opened Z80Exec
  import opened Z80Ed
  import opened Z80Step
  import Z80AluLaws
  import opened Z80Flags
  import opened Z80Manual

  // ---- Fetching, registers, stack ---------------------------------------------------------------

  lemma RefreshedIs(r: byte)
    ensures BumpR(r) == Refreshed(r)
  {
  }

  lemma AddIsMod(a: word, n: nat)
    ensures W(a + n) == (a + n) % 65536
  {
    Casts(a + n);
  }

  lemma PcAhead(pc: word)
    ensures W(pc + 1) == (pc + 1) % 65536
    ensures W((pc + 1) % 65536 + 1) == (pc + 2) % 65536 && W((pc + 1) % 65536 + 2) == (pc + 3) % 65536
  {
    Casts(pc + 1);
    AddWraps(pc + 1, 1);
    AddWraps(pc + 1, 2);
    Casts(pc + 2);
    Casts(pc + 3);
  }

  /** The opcode has been fetched: what stands behind it, and the machine behind its operands. */
  lemma Fetching(s: Cpu)
    ensures var t := Past(s, 1);
            && Fetched(s) == t && Imm8(t) == N(s) && Imm16(t) == NN(s)
            && Adv(t, 1) == Past(s, 2) && Adv(t, 2) == Past(s, 3)
  {
    hide W, BumpR, Refreshed;
    PcAhead(s.pc);
    RefreshedIs(s.r);
  }

  lemma RegIs(s: Cpu, k: int)
    requires 0 <= k < 8
    ensures Rd8(s, k) == Reg(s, k)
  {
  }

  lemma PutIs(s: Cpu, k: int, v: byte)
    requires 0 <= k < 8
    ensures Wr8(s, k, v) == Put(s, k, v)
  {
  }

  lemma FlagPart(s: Cpu, v: byte, f: byte)
    ensures SetRes(s, Res(v, f)) == WithAF(s, (v, f)) && SetF(s, f) == WithF(s, f)
    ensures SetA(s, v) == s.(af := Word(v, F(s))) && RegA(s) == A(s) && RegF(s) == F(s)
  {
  }

  lemma ConditionIs(f: byte, k: int)
    requires 0 <= k < 8
    ensures Cond(f, k) == Condition(f, k)
  {
    hide FS, FZ, FP, FC, SignOf, ZeroOf, ParityOf, CarryOf;
    FlagsAre(f);
  }

  lemma StackIs(s: Cpu, v: word)
    ensures Push(s, v) == Pushed(s, v) && Pop(s) == Popped(s) && ReadWord(s.ram, s.sp) == Returned(s)
    ensures WriteWord(s.ram, s.sp, v) == WithWord(s.ram, s.sp, v)
  {
    hide W;
    Casts(s.sp - 2);
    Casts(s.sp + 2);
    Casts(s.sp + 1);
    Casts((s.sp - 2) % 65536 + 1);
  }

  lemma MemoryIs(m: Ram, a: word, v: word)
    ensures ReadWord(m, a) == WordAt(m, a) && WriteWord(m, a, v) == WithWord(m, a, v)
  {
    hide W;
    Casts(a + 1);
  }

  // ---- 00 to 3F -----------------------------------------------------------------------------------

  lemma RelativeIs(s: Cpu)
    ensures Rel(Past(s, 1)) == Relative(s)
  {
    hide W, Refreshed;
    Fetching(s);
    var d := Value(N(s));
    assert Signed(N(s)) == d;
    AddWraps(s.pc + 1, 1 + d);
    Casts(s.pc + 1);
    Casts(s.pc + 2 + d);
  }

  lemma Control0Is(s: Cpu, op: byte)
    requires op < 0x40 && op % 8 == 0
    ensures X0Z0(Past(s, 1), op / 8) == Control0(s, op)
  {
    hide Past, Cond, Condition, Relative, W, Signed, B, Pair, Word;
    var t := Past(s, 1);
    SameRegs(s, 1);
    SameRegs(s, 2);
    Fetching(s);
    RelativeIs(s);
    Casts(s.bc / 256 - 1);
    WordIs();
    if op >= 0x20 { ConditionIs(F(s), op / 8 - 4); }
  }

  lemma WordIs()
    ensures forall h: byte, l: byte :: Pair(h, l) == Word(h, l)
  {
  }

  /** Fetching changes PC and counters only. */
  lemma SameRegs(s: Cpu, n: nat)
    ensures Past(s, n) == s.(pc := Past(s, n).pc, r := Past(s, n).r, fetched := Past(s, n).fetched)
  {
  }

  lemma AddHlIs(s: Cpu, v: word)
    ensures var r := Add16(s.hl, v, F(s));
            Done(SetF(Past(s, 1).(hl := r.v), r.f), 11) == AddHL(s, v)
  {
    hide Add16, Added16, Past;
    SameRegs(s, 1);
    Add16Is(s.hl, v, F(s));
    FlagPart(Past(s, 1).(hl := Added16(s.hl, v, F(s)).0), 0, Added16(s.hl, v, F(s)).1);
  }

  lemma LoadAddIs(s: Cpu, op: byte)
    requires op < 0x40 && op % 8 == 1
    ensures X0Z1(Past(s, 1), op / 8) == Wide0(s, op)
  {
    hide Past, AddHL, Add16, Imm16, NN, SetF, WithF, Adv;
    SameRegs(s, 1);
    SameRegs(s, 3);
    Fetching(s);
    AddHlIs(s, s.bc);
    AddHlIs(s, s.de);
    AddHlIs(s, s.hl);
    AddHlIs(s, s.sp);
  }

  lemma IndirectIs(s: Cpu, op: byte)
    requires op < 0x40 && op % 8 == 2
    ensures X0Z2(Past(s, 1), op / 8) == Wide0(s, op)
  {
    hide Past, AddHL, Word, Pair, Imm16, NN, ReadWord, WordAt, WriteWord, WithWord, Adv;
    SameRegs(s, 1);
    SameRegs(s, 3);
    Fetching(s);
    WordIs();
    MemoryIs(s.ram, NN(s), s.hl);
  }

  lemma StepUpIs(s: Cpu, op: byte)
    requires op < 0x40 && op % 16 == 3
    ensures X0Z3(Past(s, 1), op / 8) == Step16(s, op)
  {
    hide Past, W;
    SameRegs(s, 1);
    Casts(s.bc + 1);
    Casts(s.de + 1);
    Casts(s.hl + 1);
    Casts(s.sp + 1);
  }

  lemma StepDownIs(s: Cpu, op: byte)
    requires op < 0x40 && op % 16 == 11
    ensures X0Z3(Past(s, 1), op / 8) == Step16(s, op)
  {
    hide Past, W;
    SameRegs(s, 1);
    Casts(s.bc - 1);
    Casts(s.de - 1);
    Casts(s.hl - 1);
    Casts(s.sp - 1);
  }

  lemma IncrementIs(s: Cpu, op: byte)
    requires op < 0x40 && op % 8 == 4
    ensures IncDec(Past(s, 1), op / 8, false) == Increment(s, op / 8)
  {
    hide Past, Inc8, Incremented, Rd8, Wr8, Reg, Put, SetF, WithF;
    var k := op / 8;
    var t := Past(s, 1);
    SameRegs(s, 1);
    RegIs(t, k);
    SameReg(s, 1, k);
    IncIs(Reg(s, k), F(s));
    var r := Incremented(Reg(s, k), F(s));
    PutIs(t, k, r.0);
    FlagPart(Put(t, k, r.0), 0, r.1);
  }

  lemma DecrementIs(s: Cpu, op: byte)
    requires op < 0x40 && op % 8 == 5
    ensures IncDec(Past(s, 1), op / 8, true) == Decrement(s, op / 8)
  {
    hide Past, Dec8, Decremented, Rd8, Wr8, Reg, Put, SetF, WithF;
    var k := op / 8;
    var t := Past(s, 1);
    SameRegs(s, 1);
    RegIs(t, k);
    SameReg(s, 1, k);
    DecIs(Reg(s, k), F(s));
    var r := Decremented(Reg(s, k), F(s));
    PutIs(t, k, r.0);
    FlagPart(Put(t, k, r.0), 0, r.1);
  }

  lemma SameReg(s: Cpu, n: nat, k: int)
    ensures Reg(Past(s, n), k) == Reg(s, k)
  {
  }

  lemma LoadByteIs(s: Cpu, op: byte)
    requires op < 0x40 && op % 8 == 6
    ensures X0Z6(Past(s, 1), op / 8) == LoadByte(s, op / 8)
  {
    hide Past, Wr8, Put, Adv;
    SameRegs(s, 1);
    Fetching(s);
    PutIs(Past(s, 2), op / 8, N(s));
  }

  lemma AccumulatorIs(s: Cpu, op: byte)
    requires op < 0x40 && op % 8 == 7
    ensures X0Z7(Past(s, 1), op / 8) == Accumulator(s, op / 8)
  {
    hide Past, AccOp, Accumulated, SetRes, WithAF;
    SameRegs(s, 1);
    AccumulatedIs(op / 8, A(s), F(s));
    var r := Accumulated(op / 8, A(s), F(s));
    FlagPart(Past(s, 1), r.0, r.1);
  }

  lemma LowIs(s: Cpu, op: byte)
    requires op < 0x40
    ensures Plain(Past(s, 1), op) == Unprefixed(s, op)
  {
    hide Past, X0Z0, X0Z1, X0Z2, X0Z3, IncDec, X0Z6, X0Z7, LdReg, AluReg, Quad3;
    hide Control0, Wide0, Step16, Increment, Decrement, LoadByte, Accumulator;
    match op % 8
    case 0 => Control0Is(s, op);
    case 1 => LoadAddIs(s, op);
    case 2 => IndirectIs(s, op);
    case 3 => if op % 16 == 3 { StepUpIs(s, op); } else { StepDownIs(s, op); }
    case 4 => IncrementIs(s, op);
    case 5 => DecrementIs(s, op);
    case 6 => LoadByteIs(s, op);
    case _ => AccumulatorIs(s, op);
  }

  // ---- 40 to BF -----------------------------------------------------------------------------------

  lemma LoadIs(s: Cpu, op: byte)
    requires 0x40 <= op < 0x80
    ensures Plain(Past(s, 1), op) == Unprefixed(s, op)
  {
    hide Past, Rd8, Wr8, Reg, Put, Quad0, AluReg, Quad3;
    var j, k := op / 8 % 8, op % 8;
    SameRegs(s, 1);
    RegIs(Past(s, 1), k);
    SameReg(s, 1, k);
    PutIs(Past(s, 1), j, Reg(s, k));
  }

  lemma OperateIs(s: Cpu, op: byte)
    requires 0x80 <= op < 0xC0
    ensures Plain(Past(s, 1), op) == Unprefixed(s, op)
  {
    hide Past, Rd8, Reg, AluOp, Operated, SetRes, WithAF, Quad0, LdReg, Quad3;
    var j, k := op / 8 % 8, op % 8;
    SameRegs(s, 1);
    RegIs(Past(s, 1), k);
    SameReg(s, 1, k);
    OperatedIs(j, A(s), Reg(s, k), F(s));
    var r := Operated(j, A(s), Reg(s, k), F(s));
    FlagPart(Past(s, 1), r.0, r.1);
  }

  // ---- C0 to FF -----------------------------------------------------------------------------------

  lemma ConditionalIs(s: Cpu, k: int)
    requires 0 <= k < 8
    ensures var t := Past(s, 1);
            X3Z0(t, k) == ReturnIf(s, k) && X3Z2(t, k) == JumpIf(s, k) && X3Z4(t, k) == CallIf(s, k)
  {
    hide Past, Cond, Condition, W, Imm16, NN, Adv, Push, Pushed, Pop, Popped, ReadWord, Returned;
    SameRegs(s, 1);
    SameRegs(s, 3);
    Fetching(s);
    ConditionIs(F(s), k);
    StackIs(Past(s, 1), 0);
    StackIs(Past(s, 3), Past(s, 3).pc);
    SameReturned(s, 1);
    PcOf(s, 3);
  }

  lemma SameReturned(s: Cpu, n: nat)
    ensures Returned(Past(s, n)) == Returned(s)
  {
  }

  lemma PcOf(s: Cpu, n: nat)
    ensures Past(s, n).pc == (s.pc + n) % 65536
  {
  }

  lemma OperateByteIs(s: Cpu, k: int)
    requires 0 <= k < 8
    ensures X3Z6(Past(s, 1), k) == OperateByte(s, k)
  {
    hide Past, Adv, AluOp, Operated, SetRes, WithAF;
    SameRegs(s, 2);
    SameRegs(s, 1);
    Fetching(s);
    OperatedIs(k, A(s), N(s), F(s));
    var r := Operated(k, A(s), N(s), F(s));
    FlagPart(Past(s, 2), r.0, r.1);
  }

  lemma RestartIs(s: Cpu, k: int)
    requires 0 <= k < 8
    ensures X3Z7(Past(s, 1), k) == Restart(s, 8 * k)
  {
    hide Past, Push, Pushed;
    PcOf(s, 1);
    StackIs(Past(s, 1), Past(s, 1).pc);
  }

  /** The columns 1 and 5 of the last quarter. */
  lemma PopIs(s: Cpu, op: byte)
    requires op >= 0xC0 && op % 8 == 1
    ensures X3Z1(Past(s, 1), op / 8 - 24) == Stack3(s, op)
  {
    hide Past, Push, Pushed, Pop, Popped, ReadWord, Returned, NN, WithWord, W;
    SameRegs(s, 1);
    SameReturned(s, 1);
    StackIs(Past(s, 1), 0);
  }

  lemma PushIs(s: Cpu, op: byte)
    requires op == 0xC5 || op == 0xD5 || op == 0xE5 || op == 0xF5 || op == 0xCD
    ensures X3Z5(Past(s, 1), op / 8 - 24) == Stack3(s, op)
  {
    hide Past, Adv, Push, Pushed, Popped, Returned, Imm16, NN, WithWord, W;
    SameRegs(s, 1);
    Fetching(s);
    PcOf(s, 3);
    StackIs(Past(s, 3), Past(s, 3).pc);
    StackIs(Past(s, 1), s.bc);
    StackIs(Past(s, 1), s.de);
    StackIs(Past(s, 1), s.hl);
    StackIs(Past(s, 1), s.af);
  }

  lemma ExchangeIs(s: Cpu, op: byte)
    requires op == 0xC3 || op == 0xE3 || op == 0xEB
    ensures X3Z3(Past(s, 1), op / 8 - 24) == Stack3(s, op)
  {
    hide Past, Adv, Pushed, Popped, ReadWord, Returned, Imm16, NN, WriteWord, WithWord, Cb;
    SameRegs(s, 1);
    SameRegs(s, 3);
    Fetching(s);
    SameReturned(s, 1);
    StackIs(Past(s, 1), s.hl);
  }

  lemma PortsAre(s: Cpu, port: byte, v: byte)
    ensures PortValue(s) == FromPort(s) && InFrom(s, port) == Read(s, port) && OutTo(s, port, v) == Written(s, port, v)
  {
    StoredNothing(s.ram);
  }

  lemma StoredNothing(m: Ram)
    ensures Stored(m, map[]) == m
  {
  }

  lemma Io3Is(s: Cpu, op: byte)
    requires op == 0xF3 || op == 0xFB || op == 0xD3 || op == 0xDB
    ensures X3Z3(Past(s, 1), op / 8 - 24) == Io3(s, op)
  {
    hide Past, Adv, Read, Written, InFrom, OutTo, PortValue, FromPort, Pair, Word, W, Cb, Cond, ReadWord, WriteWord;
    SameRegs(s, 1);
    SameRegs(s, 2);
    Fetching(s);
    PortsAre(Past(s, 2), N(s), A(s));
    PortsAre(Past(s, 1), N(s), A(s));
    SamePort(s);
    WordIs();
    FlagPart(Past(s, 2), 0, 0);
    AfKept(Past(s, 2), N(s));
  }

  lemma SamePort(s: Cpu)
    ensures FromPort(Past(s, 1)) == FromPort(s) && FromPort(Past(s, 2)) == FromPort(s)
  {
  }

  lemma AfKept(s: Cpu, port: byte)
    ensures Read(s, port).af == s.af
  {
  }

  lemma HighRows(t: Cpu, op: byte)
    requires op >= 0xC0
    ensures var k := op / 8 - 24;
            Plain(t, op) == match op % 8
            case 0 => X3Z0(t, k)
            case 1 => X3Z1(t, k)
            case 2 => X3Z2(t, k)
            case 3 => X3Z3(t, k)
            case 4 => X3Z4(t, k)
            case 5 => X3Z5(t, k)
            case 6 => X3Z6(t, k)
            case _ => X3Z7(t, k)
  {
    hide Quad0, LdReg, AluReg, X3Z0, X3Z1, X3Z2, X3Z3, X3Z4, X3Z5, X3Z6, X3Z7;
  }

  lemma HighEvenIs(s: Cpu, op: byte)
    requires op >= 0xC0 && (op % 2 == 0 || op % 8 == 7)
    ensures Plain(Past(s, 1), op) == High(s, op)
  {
    hide Past, Plain, X3Z0, X3Z2, X3Z4, X3Z6, X3Z7, ReturnIf, JumpIf, CallIf, OperateByte, Restart;
    var k := op / 8 - 24;
    HighRows(Past(s, 1), op);
    ConditionalIs(s, k);
    OperateByteIs(s, k);
    RestartIs(s, k);
  }

  lemma HighOddIs(s: Cpu, op: byte)
    requires op >= 0xC0 && (op % 8 == 1 || op % 8 == 3 || op % 8 == 5) && !IsPrefixByte(op)
    ensures Plain(Past(s, 1), op) == High(s, op)
  {
    hide Past, Plain, X3Z1, X3Z3, X3Z5, Stack3, Io3;
    HighRows(Past(s, 1), op);
    if op % 8 == 3 {
      if op == 0xC3 || op == 0xE3 || op == 0xEB { ExchangeIs(s, op); } else { Io3Is(s, op); }
    } else {
      if op % 8 == 1 { PopIs(s, op); } else { PushIs(s, op); }
    }
  }

  lemma UnprefixedIs(s: Cpu, op: byte)
    requires !IsPrefixByte(op)
    ensures Plain(Past(s, 1), op) == Unprefixed(s, op)
  {
    hide Past, Plain, Low, High, Load, Operate;
    if op < 0x40 { LowIs(s, op); }
    else if op < 0x80 { LoadIs(s, op); }
    else if op < 0xC0 { OperateIs(s, op); }
    else if op % 2 == 0 || op % 8 == 7 { HighEvenIs(s, op); }
    else { HighOddIs(s, op); }
  }

  // ---- CB ------------------------------------------------------------------------------------------

  lemma Fetching2(s: Cpu)
    ensures var t := Past2(s, 2);
            && Fetched(Past(s, 1)) == t && Bump(Adv(Past(s, 1), 1)) == t
            && Imm16(t) == Address(s) && Adv(t, 2) == Past2(s, 4)
  {
    hide W, BumpR, Refreshed;
    PcAhead(s.pc);
    RefreshedIs(s.r);
    RefreshedIs(Refreshed(s.r));
    FarAhead(s.pc);
  }

  lemma FarAhead(pc: word)
    ensures W((pc + 2) % 65536 + 1) == (pc + 3) % 65536 && W((pc + 2) % 65536 + 2) == (pc + 4) % 65536
  {
    AddWraps(pc + 2, 1);
    AddWraps(pc + 2, 2);
    Casts(pc + 2);
    Casts(pc + 3);
    Casts(pc + 4);
  }

  /** Fetching two opcode bytes changes PC and counters only. */
  lemma SameRegs2(s: Cpu, n: nat)
    ensures Past2(s, n) == s.(pc := Past2(s, n).pc, r := Past2(s, n).r, fetched := Past2(s, n).fetched)
  {
  }

  lemma SetResAre(v: byte, b: int)
    requires 0 <= b < 8
    ensures SetBit(b, v) == With(v, b) && ResBit(b, v) == Without(v, b)
  {
    hide Has, Mask, Or, And;
    var x := v as bv8;
    ByteBack(v);
    Z80AluLaws.SetIs(x, b, Mask(b));
    Z80AluLaws.ResIs(x, b, 0xFF - Mask(b));
    Z80AluLaws.BitOf(x, b);
    HasIs(v, b);
    SetValue(x, b);
    ClearValue(x, b);
  }

  lemma SetValue(x: bv8, b: int)
    requires 0 <= b < 8
    ensures (x | Z80AluLaws.MaskBv(b)) as int == (x as int) + if x & Z80AluLaws.MaskBv(b) != 0 then 0 else WeightOf(b) as int
  {
    if b < 4 { LowSet(x, b); }
  }

  lemma LowSet(x: bv8, b: int)
    requires 0 <= b < 4
    ensures (x | Z80AluLaws.MaskBv(b)) as int == (x as int) + if x & Z80AluLaws.MaskBv(b) != 0 then 0 else WeightOf(b) as int
  {
  }

  lemma ClearValue(x: bv8, b: int)
    requires 0 <= b < 8
    ensures (x & Z80AluLaws.ClearBv(b)) as int == (x as int) - if x & Z80AluLaws.MaskBv(b) != 0 then WeightOf(b) as int else 0
  {
    if b < 4 { LowClear(x, b); }
  }

  lemma LowClear(x: bv8, b: int)
    requires 0 <= b < 4
    ensures (x & Z80AluLaws.ClearBv(b)) as int == (x as int) - if x & Z80AluLaws.MaskBv(b) != 0 then WeightOf(b) as int else 0
  {
  }

  lemma SameReg2(s: Cpu, k: int)
    ensures Reg(Past2(s, 2), k) == Reg(s, k)
  {
  }

  lemma BitsAreCb(s: Cpu, cb: byte)
    ensures Cb(Past2(s, 2), cb) == BitOps(s, cb)
  {
    hide Past2, Rd8, Wr8, Reg, Put, Rot, Rotated, RotatedFlags, BitFlags, Tested, SetBit, ResBit, With, Without, SetF,
         WithF, CarryOf;
    var k, b := cb % 8, cb / 8 % 8;
    var t := Past2(s, 2);
    var v := Reg(s, k);
    SameRegs2(s, 2);
    SameReg2(s, k);
    RegIs(t, k);
    RotIs(b, v, F(s));
    TestedIs(b, v, if k == 6 then s.hl / 256 else v, F(s));
    SetResAre(v, b);
    WithoutFits(v, b);
    var r := Rotated(b, v, CarryOf(F(s)));
    RotateOrder(t, k, r.0, RotatedFlags(r.0, r.1));
    FlagPart(t, 0, Tested(b, v, if k == 6 then s.hl / 256 else v, F(s)));
    PutIs(t, k, Without(v, b));
    PutIs(t, k, With(v, b));
  }

  /** Flags and register can be written in either order. */
  lemma RotateOrder(t: Cpu, k: int, v: byte, f: byte)
    requires 0 <= k < 8
    ensures Wr8(SetF(t, f), k, v) == WithF(Put(t, k, v), f)
  {
    hide Wr8, SetF, Word;
    var u := SetF(t, f);
    PutIs(u, k, v);
    FlagPart(t, 0, f);
    AfParts(t.af, v, f);
  }

  lemma AfParts(af: word, v: byte, f: byte)
    ensures Word(af / 256, f) / 256 == af / 256 && Word(af / 256, f) % 256 == f
    ensures Word(v, f) / 256 == v && Word(v, af % 256) / 256 == v
  {
  }

  // ---- ED ------------------------------------------------------------------------------------------

  lemma FlagKept(t: Cpu, k: int, v: byte)
    ensures F(Put(t, k, v)) == F(t)
  {
  }

  lemma InIs(s: Cpu, k: int)
    requires 0 <= k < 8
    ensures EdIn(Past2(s, 2), k) == InC(s, k)
  {
    hide Past2, Read, InFrom, PortValue, FromPort, Wr8, Put, InFlags, ReadFlags, SetF, WithF;
    var t := Past2(s, 2);
    SameRegs2(s, 2);
    PortsAre(t, s.bc % 256, 0);
    SamePort2(s);
    var u := Read(t, s.bc % 256);
    AfKept(t, s.bc % 256);
    PutIs(u, k, FromPort(s));
    FlagKept(u, k, FromPort(s));
    ReadFlagsAre(FromPort(s), F(s));
    FlagPart(u, 0, ReadFlags(FromPort(s), F(s)));
    FlagPart(Put(u, k, FromPort(s)), 0, ReadFlags(FromPort(s), F(s)));
  }

  lemma SamePort2(s: Cpu)
    ensures FromPort(Past2(s, 2)) == FromPort(s)
  {
  }

  lemma OutIs(s: Cpu, k: int)
    requires 0 <= k < 8
    ensures EdOut(Past2(s, 2), k) == OutC(s, k)
  {
    hide Past2, Written, OutTo, Rd8, Reg;
    var t := Past2(s, 2);
    SameRegs2(s, 2);
    SameReg2(s, k);
    RegIs(t, k);
    PortsAre(t, s.bc % 256, if k == 6 then 0 else Reg(s, k));
  }

  lemma ArithIs(s: Cpu, op: byte)
    requires 0x40 <= op < 0x80 && op % 8 == 2
    ensures EdArith(Past2(s, 2), op / 8 - 8) == Quarter(s, op)
  {
    hide Past2, Adc16, Sbc16, AddedCarry16, SubtractedCarry16, SetF, WithF;
    var t := Past2(s, 2);
    var v := RdPair(s, (op / 8 - 8) / 2);
    SameRegs2(s, 2);
    Adc16Is(s.hl, v, F(s));
    Sbc16Is(s.hl, v, F(s));
    FlagThenHl(t, AddedCarry16(s.hl, v, F(s)).0, AddedCarry16(s.hl, v, F(s)).1);
    FlagThenHl(t, SubtractedCarry16(s.hl, v, F(s)).0, SubtractedCarry16(s.hl, v, F(s)).1);
  }

  lemma FlagThenHl(t: Cpu, hl: word, f: byte)
    ensures SetF(t, f).(hl := hl) == WithF(t.(hl := hl), f)
  {
  }

  lemma WideIs(s: Cpu, op: byte)
    requires 0x40 <= op < 0x80 && op % 8 == 3
    ensures EdLdPair(Past2(s, 2), op / 8 - 8) == Quarter(s, op)
  {
    hide Past2, Adv, Imm16, Address, ReadWord, WordAt, WriteWord, WithWord, Arith16;
    SameRegs2(s, 2);
    SameRegs2(s, 4);
    Fetching2(s);
    MemoryIs(s.ram, Address(s), RdPair(s, (op / 8 - 8) / 2));
  }

  lemma NegIs(s: Cpu)
    ensures EdNeg(Past2(s, 2)) == Took(WithAF(Past2(s, 2), Subtracted(0, A(s), false)), 8)
  {
    hide Past2, AluSub, Subtracted, SetRes, WithAF;
    SameRegs2(s, 2);
    SubIs(0, A(s), false);
    var r := Subtracted(0, A(s), false);
    FlagPart(Past2(s, 2), r.0, r.1);
  }

  lemma ReturnIs(s: Cpu)
    ensures EdReturn(Past2(s, 2)) == ReturnInterrupt(s)
  {
    hide Past2, Pop, Popped, ReadWord, Returned;
    SameRegs2(s, 2);
    StackIs(Past2(s, 2), 0);
    SameReturned2(s);
  }

  lemma SameReturned2(s: Cpu)
    ensures Returned(Past2(s, 2)) == Returned(s)
  {
  }

  lemma SpecialLoad(t: Cpu, v: byte)
    ensures EdLdA(t, v) == Took(t.(af := Word(v, FlagByte(v >= 128, v == 0, Bit5(v), false, Bit3(v), t.ints.iff2, false, CarryOf(F(t))))), 9)
  {
    hide MkF, FlagByte, B5, B3, Bit5, Bit3, FC, CarryOf;
    FlagsAre(F(t));
    BitsAre(v);
    FlagByteIs(Neg(v), v == 0, B5(v), false, B3(v), t.ints.iff2, false, FC(RegF(t)));
  }

  lemma TurnIs(s: Cpu)
    ensures var a, m := A(s), s.ram[s.hl];
            && EdNibbles(Past2(s, 2), false) == Turned(s, a / 16 * 16 + m % 16, a % 16 * 16 + m / 16)
            && EdNibbles(Past2(s, 2), true) == Turned(s, a / 16 * 16 + m / 16, m % 16 * 16 + a % 16)
  {
    hide Past2, InFlags, ReadFlags, SetRes, WithAF;
    var a, m := A(s), s.ram[s.hl];
    SameRegs2(s, 2);
    ReadFlagsAre(a / 16 * 16 + m % 16, F(s));
    ReadFlagsAre(a / 16 * 16 + m / 16, F(s));
    FlagPart(Past2(s, 2), a / 16 * 16 + m % 16, ReadFlags(a / 16 * 16 + m % 16, F(s)));
    FlagPart(Past2(s, 2), a / 16 * 16 + m / 16, ReadFlags(a / 16 * 16 + m / 16, F(s)));
  }

  lemma SpecialIs(s: Cpu, op: byte)
    requires 0x40 <= op < 0x80 && op % 8 == 7
    ensures EdMisc(Past2(s, 2), op / 8 - 8) == Special(s, op)
  {
    hide Past2, EdLdA, EdNibbles, Turned, FlagByte, Word, Refreshed;
    SameRegs2(s, 2);
    SpecialLoad(Past2(s, 2), s.i);
    SpecialLoad(Past2(s, 2), Refreshed(Refreshed(s.r)));
    RefreshOf(s);
    TurnIs(s);
  }

  lemma RefreshOf(s: Cpu)
    ensures Past2(s, 2).r == Refreshed(Refreshed(s.r))
  {
    hide Refreshed;
  }

  lemma ModeIs(s: Cpu, op: byte)
    requires 0x40 <= op < 0x80 && op % 8 == 6
    ensures EdIm(Past2(s, 2), op / 8 - 8) == EdMiddle(s, op)
  {
    hide Past2, InC, OutC, Quarter, WithAF, ReturnInterrupt, Special;
    SameRegs2(s, 2);
  }

  lemma MiddleIs(s: Cpu, op: byte)
    requires 0x40 <= op < 0x80
    ensures Ed(Past2(s, 2), op) == EdMiddle(s, op)
  {
    hide Past2, EdIn, EdOut, EdArith, EdLdPair, EdNeg, EdReturn, EdIm, EdMisc, InC, OutC, Quarter, ReturnInterrupt,
         Special, Subtracted;
    var k := op / 8 - 8;
    match op % 8
    case 0 => InIs(s, k);
    case 1 => OutIs(s, k);
    case 2 => ArithIs(s, op);
    case 3 => WideIs(s, op);
    case 4 => NegIs(s);
    case 5 => ReturnIs(s);
    case 6 => ModeIs(s, op);
    case _ => SpecialIs(s, op);
  }

  lemma MoveFlagByte(n: byte, f: byte, more: bool)
    ensures MkF(FS(f), FZ(f), N1(n), false, B3(n), more, false, FC(f))
         == FlagByte(SignOf(f), ZeroOf(f), n / 2 % 2 == 1, false, Bit3(n), more, false, CarryOf(f))
  {
    hide MkF, FlagByte, FS, FZ, FC, SignOf, ZeroOf, CarryOf, B3, Bit3, N1;
    FlagsAre(f);
    BitsAre(n);
    SecondBit(n);
    FlagByteIs(FS(f), FZ(f), N1(n), false, B3(n), more, false, FC(f));
  }

  lemma MoveIs(s: Cpu, d: int)
    requires d == 1 || d == -1
    ensures LdMove(Past2(s, 2), d) == Moved1(s, d)
  {
    hide Past2, MkF, FlagByte, FS, FZ, FC, SignOf, ZeroOf, CarryOf, B3, Bit3, N1, SetF, WithF, W, B;
    var t := Past2(s, 2);
    SameRegs2(s, 2);
    Casts(s.bc - 1);
    Casts(s.hl + d);
    Casts(s.de + d);
    Casts(A(s) + s.ram[s.hl]);
    var n := B(A(s) + s.ram[s.hl]);
    MoveFlagByte(n, F(s), W(s.bc - 1) != 0);
    var f := FlagByte(SignOf(F(s)), ZeroOf(F(s)), n / 2 % 2 == 1, false, Bit3(n), W(s.bc - 1) != 0, false, CarryOf(F(s)));
    FlagPart(t.(ram := s.ram[s.de := s.ram[s.hl]], hl := W(s.hl + d), de := W(s.de + d), bc := W(s.bc - 1)), 0, f);
  }

  lemma SecondBit(n: byte)
    ensures N1(n) == (n / 2 % 2 == 1)
  {
  }

  lemma CompareFlagByte(r: byte, n: byte, h: bool, more: bool, f: byte)
    ensures MkF(Neg(r), r == 0, N1(n), h, B3(n), more, true, FC(f))
         == FlagByte(r >= 128, r == 0, n / 2 % 2 == 1, h, Bit3(n), more, true, CarryOf(f))
  {
    hide MkF, FlagByte, FC, CarryOf, B3, Bit3, N1;
    FlagsAre(f);
    BitsAre(n);
    BitsAre(r);
    SecondBit(n);
    FlagByteIs(Neg(r), r == 0, N1(n), h, B3(n), more, true, FC(f));
  }

  lemma CompareFlagsAre(a: byte, v: byte, more: bool, f: byte)
    ensures var r := B(a - v);
            var n := B(r - Num(a % 0x10 - v % 0x10 < 0));
            var q: byte := (a - v) % 256;
            var m: byte := (q - One(a % 16 < v % 16)) % 256;
            && MkF(Neg(r), r == 0, N1(n), a % 0x10 - v % 0x10 < 0, B3(n), more, true, FC(f))
               == FlagByte(q >= 128, q == 0, m / 2 % 2 == 1, a % 16 < v % 16, Bit3(m), more, true, CarryOf(f))
  {
    hide MkF, FlagByte, FC, CarryOf, B3, Bit3, N1, Neg, B;
    var h := a % 0x10 - v % 0x10 < 0;
    var r := B(a - v);
    Casts(a - v);
    Casts(r - Num(h));
    CompareFlagByte(r, B(r - Num(h)), h, more, f);
  }

  lemma CompareIs(s: Cpu, d: int)
    requires d == 1 || d == -1
    ensures CpStep(Past2(s, 2), d) == Compared1(s, d)
  {
    hide Past2, MkF, FlagByte, FC, CarryOf, B3, Bit3, N1, Neg, Num, One, SetF, WithF, W, B;
    var t := Past2(s, 2);
    SameRegs2(s, 2);
    Casts(s.bc - 1);
    Casts(s.hl + d);
    CompareFlagsAre(A(s), s.ram[s.hl], W(s.bc - 1) != 0, F(s));
    var a: int, v: int := A(s), s.ram[s.hl];
    var q: byte := (a - v) % 256;
    var m: byte := (q - One(a % 16 < v % 16)) % 256;
    FlagPart(t.(hl := W(s.hl + d), bc := W(s.bc - 1)), 0,
             FlagByte(q >= 128, q == 0, m / 2 % 2 == 1, a % 16 < v % 16, Bit3(m), W(s.bc - 1) != 0, true,
                      CarryOf(F(s))));
  }

  lemma CounterFlagsAre(b: byte)
    ensures IoFlags(b) == CounterFlags(b)
  {
    hide MkF, FlagByte, B5, B3, Bit5, Bit3;
    BitsAre(b);
    FlagByteIs(Neg(b), b == 0, B5(b), false, B3(b), false, true, false);
  }

  lemma In1Is(s: Cpu, d: int)
    requires d == 1 || d == -1
    ensures InStep(Past2(s, 2), d) == In1(s, d)
  {
    hide Past2, Read, InFrom, PortValue, FromPort, IoFlags, CounterFlags, SetF, WithF, W, B;
    var t := Past2(s, 2);
    SameRegs2(s, 2);
    SamePort2(s);
    PortsAre(t, s.bc % 256, 0);
    Casts(s.bc / 256 - 1);
    Casts(s.hl + d);
    var b := B(s.bc / 256 - 1);
    CounterFlagsAre(b);
    var u := Read(t, s.bc % 256);
    FlagPart(u.(ram := u.ram[s.hl := FromPort(s)], hl := W(s.hl + d), bc := Word(b, s.bc % 256)), 0, CounterFlags(b));
  }

  lemma Out1Is(s: Cpu, d: int)
    requires d == 1 || d == -1
    ensures OutStep(Past2(s, 2), d) == Out1(s, d)
  {
    hide Past2, Written, OutTo, IoFlags, CounterFlags, SetF, WithF, W, B;
    var t := Past2(s, 2);
    SameRegs2(s, 2);
    PortsAre(t, s.bc % 256, s.ram[s.hl]);
    Casts(s.bc / 256 - 1);
    Casts(s.hl + d);
    var b := B(s.bc / 256 - 1);
    CounterFlagsAre(b);
    FlagPart(Written(t, s.bc % 256, s.ram[s.hl]).(hl := W(s.hl + d), bc := Word(b, s.bc % 256)), 0, CounterFlags(b));
  }

  /** PC is back on the prefix. */
  lemma AgainIs(s: Cpu, t: Cpu, again: bool)
    requires t.pc == Past2(s, 2).pc
    ensures Repeat(t, again) == Again(s, t, again)
  {
    hide W, Refreshed;
    BackTwo(s.pc);
  }

  lemma BackTwo(pc: word)
    ensures W((pc + 2) % 65536 - 2) == pc
  {
  }

  lemma CountsAre(bc: word, d: int)
    ensures (bc - 1) % 65536 != 0 <==> bc != 1
    ensures (bc / 256 - 1) % 256 != 0 <==> bc / 256 != 1
  {
  }

  lemma MatchIs(s: Cpu)
    ensures Matches(Past2(s, 2)) <==> s.ram[s.hl] == A(s)
  {
    hide Refreshed;
  }

  lemma KeepsPc(s: Cpu, d: int)
    ensures Moved1(s, d).pc == Past2(s, 2).pc && Moved1(s, d).bc == (s.bc - 1) % 65536
    ensures Compared1(s, d).pc == Past2(s, 2).pc && Compared1(s, d).bc == (s.bc - 1) % 65536
  {
    hide FlagByte, Past;
  }

  lemma KeepsPcIo(s: Cpu, d: int)
    ensures In1(s, d).pc == Past2(s, 2).pc && Hi(In1(s, d).bc) == (s.bc / 256 - 1) % 256
    ensures Out1(s, d).pc == Past2(s, 2).pc && Hi(Out1(s, d).bc) == (s.bc / 256 - 1) % 256
  {
    hide CounterFlags, Past, Stored;
  }

  lemma MemoryBlockIs(s: Cpu, op: byte)
    requires IsBlock(op) && op % 8 < 2
    ensures EdBlock(Past2(s, 2), op / 8 - 16, op % 8) == Block(s, op)
  {
    hide Past2, LdMove, CpStep, InStep, OutStep, Moved1, Compared1, In1, Out1, Repeat, Again, Matches;
    var d := if op / 8 % 2 == 0 then 1 else -1;
    var m, c := Moved1(s, d), Compared1(s, d);
    MoveIs(s, d);
    CompareIs(s, d);
    KeepsPc(s, d);
    CountsAre(s.bc, d);
    MatchIs(s);
    AgainIs(s, m, op >= 0xB0 && s.bc != 1);
    AgainIs(s, c, op >= 0xB0 && s.bc != 1 && s.ram[s.hl] != A(s));
    OnceIs(s, m);
    OnceIs(s, c);
  }

  lemma OnceIs(s: Cpu, t: Cpu)
    ensures Again(s, t, false) == Took(t, 16)
  {
  }

  lemma IoBlockIs(s: Cpu, op: byte)
    requires IsBlock(op) && 2 <= op % 8
    ensures EdBlock(Past2(s, 2), op / 8 - 16, op % 8) == Block(s, op)
  {
    hide Past2, LdMove, CpStep, InStep, OutStep, Moved1, Compared1, In1, Out1, Repeat, Again, Matches, Hi;
    var d := if op / 8 % 2 == 0 then 1 else -1;
    var i, o := In1(s, d), Out1(s, d);
    In1Is(s, d);
    Out1Is(s, d);
    KeepsPcIo(s, d);
    CountsAre(s.bc, d);
    AgainIs(s, i, op >= 0xB0 && s.bc / 256 != 1);
    AgainIs(s, o, op >= 0xB0 && s.bc / 256 != 1);
    OnceIs(s, i);
    OnceIs(s, o);
  }

  lemma ExtendedIs(s: Cpu, op: byte)
    ensures Ed(Past2(s, 2), op) == Extended(s, op)
  {
    hide Past2, EdQuad1, EdBlock, EdMiddle, Block;
    if 0x40 <= op < 0x80 { MiddleIs(s, op); }
    else if IsBlock(op) {
      if op % 8 < 2 { MemoryBlockIs(s, op); } else { IoBlockIs(s, op); }
    }
  }

  // ---- Every instruction ------------------------------------------------------------------------------

  /** Neither a breakpoint, nor an interrupt, nor HALT comes before the instruction at PC. */
  predicate Running(s: Cpu) {
    && (s.dbg.stepMode || s.pc !in s.dbg.breakpoints)
    && !s.ints.nmi && !(s.ints.irq && s.ints.iff1 && !s.ints.eiDelay) && !s.ints.halted
  }

  /** The one-shot step mode and the EI delay are used up. */
  function Started(s: Cpu): Cpu {
    s.(ints := s.ints.(eiDelay := false), dbg := s.dbg.(stepMode := false))
  }

  /** The instruction at PC by the opcode map; DD and FD are not in it. */
  function Manual(s: Cpu): Out {
    var op := s.ram[s.pc];
    if op == 0xCB then BitOps(s, N(s)) else if op == 0xED then Extended(s, N(s)) else Unprefixed(s, op)
  }

  lemma ExecuteIs(s: Cpu)
    requires s.ram[s.pc] != 0xDD && s.ram[s.pc] != 0xFD
    ensures Execute(s) == Manual(s)
  {
    hide Past, Past2, Fetched, Plain, Ed, Cb, BitOps, Extended, Unprefixed;
    Fetching(s);
    Fetching2(s);
    var op := s.ram[s.pc];
    if op == 0xCB {
      CbRow(Past(s, 1));
      BitsAreCb(s, N(s));
    } else if op == 0xED {
      ExtendedIs(s, N(s));
    } else {
      UnprefixedIs(s, op);
    }
  }

  lemma CbRow(t: Cpu)
    ensures Plain(t, 0xCB) == Cb(Bump(Adv(t, 1)), Imm8(t))
  {
    hide Cb;
  }

  /**
   One ExecuteOne of an unprefixed, CB or ED instruction leaves exactly what the manual's
   opcode map says: registers, flags, memory, ports, interrupt state and T-states.
   */
  lemma StepIsManual(s: Cpu)
    requires Running(s) && s.ram[s.pc] != 0xDD && s.ram[s.pc] != 0xFD
    ensures Step(s) == Manual(Started(s))
  {
    hide Execute, Manual;
    ExecuteIs(Started(s));
  }

  /** NMI, the three interrupt modes, HALT. */
  lemma InterruptsAre(s: Cpu)
    requires s.dbg.stepMode || s.pc !in s.dbg.breakpoints
    ensures var armed := s.(dbg := s.dbg.(stepMode := false));
            var entered := Pushed(armed, s.pc).(r := Refreshed(s.r));
            var ack := s.ints.(halted := false, iff1 := false, iff2 := false);
            && (s.ints.nmi ==>
                  Step(s) == Took(entered.(pc := 0x66,
                                           ints := s.ints.(nmi := false, halted := false, iff2 := s.ints.iff1, iff1 := false)), 11))
            && (!s.ints.nmi && s.ints.irq && s.ints.iff1 && !s.ints.eiDelay ==>
                  Step(s) == if s.ints.im == 2 then
                               Took(entered.(pc := WordAt(entered.ram, Word(s.i, 255)), ints := ack), 19)
                             else Took(entered.(pc := 0x38, ints := ack), 13))
            && (!s.ints.nmi && !(s.ints.irq && s.ints.iff1 && !s.ints.eiDelay) && s.ints.halted ==>
                  Step(s) == Took(Started(s).(r := Refreshed(s.r)), 4))
  {
    hide W, BumpR, Refreshed, Push, Pushed, ReadWord, WordAt, Execute;
    RefreshedIs(s.r);
    var a := s.(dbg := s.dbg.(stepMode := false));
    var n := a.(ints := s.ints.(nmi := false, halted := false, iff2 := s.ints.iff1, iff1 := false));
    var i := a.(ints := s.ints.(halted := false, iff1 := false, iff2 := false));
    StackIs(n, s.pc);
    StackIs(i, s.pc);
    PushedApart(a, n, s.pc);
    PushedApart(a, i, s.pc);
    MemoryIs(Pushed(a, s.pc).ram, Word(s.i, 255), 0);
  }

  lemma PushedApart(s: Cpu, t: Cpu, v: word)
    requires t == s.(ints := t.ints)
    ensures Pushed(t, v) == Pushed(s, v).(ints := t.ints)
    ensures Pushed(s, v) == s.(sp := Pushed(s, v).sp, ram := Pushed(s, v).ram)
  {
  }
}
