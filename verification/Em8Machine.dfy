/** The EM8 as the source runs it: a CPU object over memory, and the emulation loop. */
module Em8Machine {
  import opened Bytes
  import opened Em8State
  import opened Em8Exec
  import opened Em8StepOut

  /** 64 KiB with the device window at F000-F01F (em8/src/Em8Memory.cpp), without watchpoints. */
  class Em8Memory {
    const Data: array<byte>
    var Feed: seq<byte>
    var Log: seq<IoEvent>

    ghost predicate Valid() { Data.Length == 0x10000 }

    ghost function Contents(): Ram
      requires Valid()
      reads Data
    {
      Data[..]
    }

    ghost function Devices(): Bus
      reads this
    {
      Bus(Feed, Log)
    }

    constructor ()
      ensures Valid() && fresh(Data) && Contents() == seq(0x10000, _ => 0) && Devices() == Bus([], [])
    {
      Data := new byte[0x10000](_ => 0);
      Feed, Log := [], [];
    }
  }

  class Em8Cpu {
    var A: byte
    var X: byte
    var Y: byte
    var SP: byte
    var PC: word
    var FL: byte
    var Halted: bool
    var CycleCount: nat
    var InstructionCount: nat
    var NmiPending: bool
    var IrqLine: bool
    const ShadowStack: array<word>
    var ShadowStackTop: nat
    const Memory: Em8Memory

    ghost predicate Valid()
      reads this
    {
      Memory.Valid() && ShadowStack.Length == MAX_SHADOW_STACK && ShadowStackTop <= MAX_SHADOW_STACK
    }

    ghost function Snap(): Cpu
      requires Valid()
      reads this, ShadowStack, Memory, Memory.Data
    {
      Cpu(A, X, Y, SP, PC, FL, Halted, CycleCount, InstructionCount, NmiPending, IrqLine,
          ShadowStack[..ShadowStackTop], Memory.Contents(), Memory.Devices())
    }

    constructor (memory: Em8Memory)
      requires memory.Valid()
      ensures Valid() && Memory == memory && fresh(ShadowStack)
      ensures Snap().ram == memory.Contents() && Snap().bus == memory.Devices()
    {
      A, X, Y, SP, PC, FL, Halted := 0, 0, 0, 0xFF, 0, FLAG_I, false;
      CycleCount, InstructionCount, NmiPending, IrqLine := 0, 0, false, false;
      ShadowStack := new word[MAX_SHADOW_STACK](_ => 0);
      ShadowStackTop := 0;
      Memory := memory;
    }

    method ResetRegisters()
      requires Valid()
      modifies this
      ensures Valid()
      ensures Snap() == old(Snap()).(a := 0, x := 0, y := 0, sp := 0xFF, fl := FLAG_I, halted := false)
    {
      A, X, Y := 0, 0, 0;
      SP, FL, Halted := 0xFF, FLAG_I, false;
    }

    method ResetCpu()
      requires Valid()
      modifies this
      ensures Valid() && Snap() == Reset(old(Snap()))
    {
      hide Pair;
      ResetRegisters();
      CycleCount, InstructionCount, NmiPending, IrqLine := 0, 0, false, false;
      ShadowStackTop := 0;
      assert ShadowStack[..0] == [];
      PC := Pair(Memory.Data[0xFFFD], Memory.Data[0xFFFC]);
    }

    method ReadByte(addr: word) returns (v: byte)
      requires Valid()
      modifies Memory
      ensures Valid() && v == ReadV(old(Snap()), addr) && Snap() == ReadS(old(Snap()), addr)
    {
      if Device(addr) {
        if Memory.Feed == [] {
          v := 0;
        } else {
          v := Memory.Feed[0];
          Memory.Feed := Memory.Feed[1..];
        }
        Memory.Log := Memory.Log + [DeviceRead(addr, v)];
      } else {
        v := Memory.Data[addr];
      }
    }

    method WriteByte(addr: word, v: byte)
      requires Valid()
      modifies Memory, Memory.Data
      ensures Valid() && Snap() == Write(old(Snap()), addr, v)
    {
      if Device(addr) {
        Memory.Log := Memory.Log + [DeviceWrite(addr, v)];
      } else {
        Memory.Data[addr] := v;
      }
    }

    method FetchByte() returns (v: byte)
      requires Valid()
      modifies this`PC, Memory
      ensures Valid() && v == FetchV(old(Snap())) && Snap() == FetchS(old(Snap()))
    {
      v := ReadByte(PC);
      PC := W(PC + 1);
    }

    method FetchWord() returns (v: word)
      requires Valid()
      modifies this`PC, Memory
      ensures Valid() && v == Fetch16V(old(Snap())) && Snap() == Fetch16S(old(Snap()))
    {
      hide FetchV, FetchS;
      var lo: word := FetchByte();
      var hi: word := FetchByte();
      v := hi * 0x100 + lo;
    }

    method Push(v: byte)
      requires Valid()
      modifies this`SP, Memory, Memory.Data
      ensures Valid() && Snap() == Push8(old(Snap()), v)
    {
      hide Device;
      WriteByte(0x100 + SP, v);
      SP := B(SP - 1);
    }

    method Pull() returns (v: byte)
      requires Valid()
      modifies this`SP, Memory
      ensures Valid() && v == Pull8V(old(Snap())) && Snap() == Pull8S(old(Snap()))
    {
      hide Device;
      SP := B(SP + 1);
      v := ReadByte(0x100 + SP);
    }

    method PushWord(v: word)
      requires Valid()
      modifies this`SP, Memory, Memory.Data
      ensures Valid() && Snap() == Push16(old(Snap()), v)
    {
      hide Push8;
      Push(v / 0x100);
      Push(v % 0x100);
    }

    method PullWord() returns (v: word)
      requires Valid()
      modifies this`SP, Memory
      ensures Valid() && v == Pull16V(old(Snap())) && Snap() == Pull16S(old(Snap()))
    {
      hide Pull8V, Pull8S;
      var lo: word := Pull();
      var hi: word := Pull();
      v := hi * 0x100 + lo;
    }

    method AssignFlag(f: byte, v: bool)
      requires Valid()
      modifies this`FL
      ensures Valid() && Snap() == SetFlag(old(Snap()), f, v)
    {
      FL := WithFlag(FL, f, v);
    }

    method AssignNZ(v: byte)
      requires Valid()
      modifies this`FL
      ensures Valid() && Snap() == SetNZ(old(Snap()), v)
    {
      AssignFlag(FLAG_Z, v == 0);
      AssignFlag(FLAG_N, v >= 0x80);
    }

    function Register(r: Reg): (v: byte)
      reads this
    {
      match r case A => A case X => X case Y => Y
    }

    method AssignReg(r: Reg, v: byte)
      requires Valid()
      modifies this`A, this`X, this`Y
      ensures Valid() && Snap() == SetReg(old(Snap()), r, v)
    {
      match r
      case A => A := v;
      case X => X := v;
      case Y => Y := v;
    }

    /** The effective address of a mode that has one. */
    method Address(m: Mode) returns (addr: word)
      requires Valid() && !m.Imm?
      modifies this`PC, Memory
      ensures Valid() && addr == EaV(old(Snap()), m) && Snap() == EaS(old(Snap()), m)
    {
      hide FetchV, FetchS, Fetch16V, Fetch16S;
      match m
      case Zpg =>
        addr := FetchByte();
      case ZpgX =>
        var b := FetchByte();
        addr := B(b + X);
      case Abs =>
        addr := FetchWord();
      case AbsX =>
        var w := FetchWord();
        addr := W(w + X);
      case Ind =>
        var zp: int := FetchByte();
        var lo := ReadByte(zp);
        var hi := ReadByte(B(zp + 1));
        addr := Pair(hi, lo);
    }

    method Operand(m: Mode) returns (v: byte)
      requires Valid()
      modifies this`PC, Memory
      ensures Valid() && v == OperandV(old(Snap()), m) && Snap() == OperandS(old(Snap()), m)
    {
      hide FetchV, FetchS, ReadV, ReadS, EaV, EaS;
      if m.Imm? {
        v := FetchByte();
      } else {
        var addr := Address(m);
        v := ReadByte(addr);
      }
    }

    method AddToA(v: byte)
      requires Valid()
      modifies this`A, this`FL
      ensures Valid() && Snap() == DoAdd(old(Snap()), v)
    {
      hide SetFlag, SetNZ, Has;
      var sum := A + v + (if Has(FL, FLAG_C) then 1 else 0);
      var overflow := Neg(A) == Neg(v) && Neg(A) != Neg(B(sum));
      AssignFlag(FLAG_C, sum > 0xFF);
      AssignFlag(FLAG_V, overflow);
      A := B(sum);
      AssignNZ(A);
    }

    method SubFromA(v: byte)
      requires Valid()
      modifies this`A, this`FL
      ensures Valid() && Snap() == DoSub(old(Snap()), v)
    {
      hide SetFlag, SetNZ, Has;
      var diff := A + (0xFF - v) + (if Has(FL, FLAG_C) then 1 else 0);
      var overflow := Neg(A) != Neg(v) && Neg(A) != Neg(B(diff));
      AssignFlag(FLAG_C, diff > 0xFF);
      AssignFlag(FLAG_V, overflow);
      A := B(diff);
      AssignNZ(A);
    }

    method Compare(reg: byte, v: byte)
      requires Valid()
      modifies this`FL
      ensures Valid() && Snap() == DoCmp(old(Snap()), reg, v)
    {
      hide SetFlag;
      AssignFlag(FLAG_C, reg >= v);
      AssignFlag(FLAG_Z, reg == v);
      AssignFlag(FLAG_N, B(reg - v) >= 0x80);
    }

    method AssignA(v: byte)
      requires Valid()
      modifies this`A, this`FL
      ensures Valid() && Snap() == ToA(old(Snap()), v)
    {
      hide SetNZ;
      A := v;
      AssignNZ(A);
    }

    method RunAlu(op: AluOp, v: byte)
      requires Valid()
      modifies this`A, this`FL
      ensures Valid() && Snap() == DoAlu(old(Snap()), op, v)
    {
      hide DoAdd, DoSub, DoCmp, ToA, And, Or, Xor;
      match op
      case Add => AddToA(v);
      case Sub => SubFromA(v);
      case AndA => AssignA(And(A, v));
      case Ora => AssignA(Or(A, v));
      case Xora => AssignA(Xor(A, v));
      case Cmp => Compare(A, v);
      case Cpx => Compare(X, v);
      case Cpy => Compare(Y, v);
    }

    method RunShift(sh: ShiftOp)
      requires Valid()
      modifies this`A, this`FL
      ensures Valid() && Snap() == DoShift(old(Snap()), sh)
    {
      hide SetFlag, ToA, Has;
      var oldCarry := if Has(FL, FLAG_C) then 1 else 0;
      var a: int := A;
      match sh
      case Asl =>
        AssignFlag(FLAG_C, a >= 0x80);
        AssignA(B(2 * a));
      case Lsr =>
        AssignFlag(FLAG_C, a % 2 == 1);
        AssignA(a / 2);
      case Rol =>
        AssignFlag(FLAG_C, a >= 0x80);
        AssignA(B(2 * a + oldCarry));
      case Ror =>
        AssignFlag(FLAG_C, a % 2 == 1);
        AssignA(a / 2 + 0x80 * oldCarry);
    }

    method RunBranch(taken: bool)
      requires Valid()
      modifies this`PC, Memory
      ensures Valid() && Snap() == BranchIf(old(Snap()), taken)
    {
      hide FetchV, FetchS;
      var off := FetchByte();
      if taken { PC := W(PC + Signed(off)); }
    }

    method LoadReg(r: Reg, v: byte)
      requires Valid()
      modifies this`A, this`X, this`Y, this`FL
      ensures Valid() && Snap() == SetNZ(SetReg(old(Snap()), r, v), v)
    {
      hide SetNZ, SetReg;
      AssignReg(r, v);
      AssignNZ(v);
    }

    predicate IsFlow(i: Instr) { i.Branch? || i.Bra? || i.Jmp? || i.Hlt? || i.Nop? || i.Undefined? }

    method RunFlow(i: Instr)
      requires Valid() && IsFlow(i)
      modifies this, Memory
      ensures Valid() && Snap() == ExecPlain(old(Snap()), i)
    {
      hide BranchIf, Fetch16V, Fetch16S, Has;
      match i
      case Branch(f, v) => RunBranch(Has(FL, f) == v);
      case Bra => RunBranch(true);
      case Jmp => PC := FetchWord();
      case Hlt => Halted := true;
      case Undefined =>
        Halted := true;
        PC := W(PC - 1);
      case Nop =>
    }

    method RunPlain(i: Instr)
      requires Valid() && !IsStack(i) && !i.Store?
      modifies this, Memory
      ensures Valid() && Snap() == ExecPlain(old(Snap()), i)
    {
      hide SetFlag, SetNZ, SetReg, DoAlu, DoShift, OperandV, OperandS;
      if IsFlow(i) {
        hide ExecPlain;
        RunFlow(i);
        return;
      }
      match i
      case Alu(op, m) =>
        var v := Operand(m);
        RunAlu(op, v);
      case Shift(sh) => RunShift(sh);
      case Bump(r, up) => LoadReg(r, B(Register(r) + if up then 1 else -1));
      case Transfer(from, to) => LoadReg(to, Register(from));
      case Txs => SP := X;
      case Tsx =>
        X := SP;
        AssignNZ(X);
      case Flag(f, v) => AssignFlag(f, v);
      case Load(r, m) =>
        var v := Operand(m);
        LoadReg(r, v);
    }

    method RunStore(r: Reg, m: Mode)
      requires Valid() && !m.Imm?
      modifies this`PC, Memory, Memory.Data
      ensures Valid() && Snap() == ExecStore(old(Snap()), r, m)
    {
      hide EaV, Write;
      EaKeepsRegs(Snap(), r, m);
      var addr := Address(m);
      WriteByte(addr, Register(r));
    }

    method RunJsr()
      requires Valid()
      modifies this, ShadowStack, Memory, Memory.Data
      ensures Valid() && Snap() == DoJsr(old(Snap()))
    {
      hide Fetch16V, Fetch16S, Push16;
      var target := FetchWord();
      PushWord(W(PC - 1));
      if ShadowStackTop < MAX_SHADOW_STACK {
        ghost var was := ShadowStack[..ShadowStackTop];
        ShadowStack[ShadowStackTop] := PC;
        ShadowStackTop := ShadowStackTop + 1;
        assert ShadowStack[..ShadowStackTop] == was + [PC];
      }
      PC := target;
    }

    method RunRts()
      requires Valid()
      modifies this, Memory
      ensures Valid() && Snap() == DoRts(old(Snap()))
    {
      hide Pull16V, Pull16S;
      var w: int := PullWord();
      PC := W(w + 1);
      if ShadowStackTop > 0 {
        assert ShadowStack[..ShadowStackTop][..ShadowStackTop - 1] == ShadowStack[..ShadowStackTop - 1];
        ShadowStackTop := ShadowStackTop - 1;
      }
    }

    method RunRti()
      requires Valid()
      modifies this, Memory
      ensures Valid() && Snap() == DoRti(old(Snap()))
    {
      hide Pull16V, Pull16S, Pull8V, Pull8S;
      var fl := Pull();
      var w := PullWord();
      FL, PC := fl, w;
    }

    method Enter(fl: byte, vector: word)
      requires Valid() && vector >= 0xFFFA && vector < 0xFFFF
      modifies this, Memory, Memory.Data
      ensures Valid() && Snap() == EnterHandler(old(Snap()), fl, vector)
    {
      hide Push16, Push8, SetFlag;
      PushWord(PC);
      Push(fl);
      AssignFlag(FLAG_I, true);
      var lo: byte := Memory.Data[vector];
      var hi: byte := Memory.Data[vector + 1];
      PC := Pair(hi, lo);
    }

    method RunStack(i: Instr)
      requires Valid() && IsStack(i)
      modifies this, ShadowStack, Memory, Memory.Data
      ensures Valid() && Snap() == ExecStack(old(Snap()), i)
    {
      hide DoJsr, DoRts, DoRti, EnterHandler, Push8, Pull8V, Pull8S, ToA, Or;
      match i
      case Jsr => RunJsr();
      case Rts => RunRts();
      case Rti => RunRti();
      case Brk =>
        PC := W(PC + 1);
        Enter(Or(FL, FLAG_B), 0xFFFE);
      case Pha => Push(A);
      case Phf => Push(FL);
      case Pla =>
        var v := Pull();
        AssignA(v);
      case Plf => FL := Pull();
    }

    /** One instruction; the result is the number of cycles. */
    method ExecuteOne() returns (cycles: nat)
      requires Valid()
      modifies this, ShadowStack, Memory, Memory.Data
      ensures Valid() && Snap() == Step(old(Snap()))
      ensures cycles == if old(Halted) then 0 else Cost(InstrAt(old(Snap())), Taken(old(Snap()), InstrAt(old(Snap()))))
    {
      hide FetchV, FetchS, Decode, ExecPlain, ExecStack, ExecStore, Cost, Taken;
      if Halted { return 0; }
      ghost var s := Snap();
      var opcode := FetchByte();
      var i := Decode(opcode);
      DecodeStores(opcode);
      TakenLater(s, i);
      cycles := Cost(i, i.Branch? && Has(FL, i.flag) == i.taken);
      if IsStack(i) {
        RunStack(i);
      } else if i.Store? {
        RunStore(i.reg, i.mode);
      } else {
        RunPlain(i);
      }
      CycleCount := CycleCount + cycles;
      InstructionCount := InstructionCount + 1;
    }

    method PollInterrupts()
      requires Valid()
      modifies this, Memory, Memory.Data
      ensures Valid() && Snap() == CheckInterrupts(old(Snap()))
    {
      hide EnterHandler, And, Has;
      if Halted { return; }
      if NmiPending {
        NmiPending := false;
        Enter(And(FL, 0xFF - FLAG_B), 0xFFFA);
        return;
      }
      if IrqLine && !Has(FL, FLAG_I) { Enter(And(FL, 0xFF - FLAG_B), 0xFFFE); }
    }

    /** The worker's loop, one turn per element of `env`, until a stop. */
    method EmulationLoop(stepOutTarget: int, env: seq<Env>) returns (stopped: bool, why: Reason)
      requires Valid()
      modifies this, ShadowStack, Memory, Memory.Data
      ensures Valid()
      ensures Loop(old(Snap()), stepOutTarget, env) == if stopped then Stopped(why, Snap()) else Running(Snap())
    {
      hide Step, CheckInterrupts;
      stopped, why := false, User;
      assert env[0..] == env;
      for n := 0 to |env|
        invariant Valid() && !stopped
        invariant Loop(old(Snap()), stepOutTarget, env) == Loop(Snap(), stepOutTarget, env[n..])
      {
        var e := env[n];
        assert env[n..][0] == e && env[n..][1..] == env[n + 1..];
        if e.stop { return true, User; }
        if e.breakpoint { return true, Breakpoint; }
        var _ := ExecuteOne();
        IrqLine := e.irq;
        NmiPending := NmiPending || e.nmi;
        PollInterrupts();
        if Halted { return true, Halt; }
        if e.watch { return true, Watchpoint; }
        if stepOutTarget >= 0 && ShadowStackTop <= stepOutTarget { return true, StepOut; }
      }
      assert env[|env|..] == [];
    }

    /** emfe_step_out. */
    method RunStepOut(env: seq<Env>) returns (stopped: bool, why: Reason)
      requires Valid()
      modifies this, ShadowStack, Memory, Memory.Data
      ensures Valid()
      ensures StepOutFrom(old(Snap()), env) == if stopped then Stopped(why, Snap()) else Running(Snap())
    {
      hide Loop;
      stopped, why := false, User;
      if ShadowStackTop > 0 { stopped, why := EmulationLoop(ShadowStackTop - 1, env); }
    }
  }

  lemma EaKeepsRegs(s: Cpu, r: Reg, m: Mode)
    ensures RegOf(EaS(s, m), r) == RegOf(s, r)
  {
    hide ReadV, Device, W;
  }

  /** No store is immediate. */
  lemma DecodeStores(op: byte)
    ensures Decode(op).Store? ==> !Decode(op).mode.Imm?
  {
  }

  lemma TakenLater(s: Cpu, i: Instr)
    ensures FetchS(s).fl == s.fl
    ensures Taken(s, i) == (i.Branch? && Has(s.fl, i.flag) == i.taken)
  {
    hide Has, Device, ReadV, W;
  }
}
