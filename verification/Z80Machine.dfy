/** The Z80 as the source runs it: objects whose methods update registers and memory in place. */
module Z80Machine {
  import opened Bytes
  import opened Z80State
  import opened Z80Alu
  import opened Z80AluMachine
  import opened Z80Exec
  import opened Z80Index
  import opened Z80Ed
  import opened Z80Step

  /** 64 KiB of RAM and the I/O space (z80/src/Z80Memory.cpp), without watchpoints. */
  class Z80Memory {
    const Ram: array<byte>
    var Answers: seq<Answer>
    var Log: seq<IoEvent>

    ghost predicate Valid() { Ram.Length == 0x10000 }

    ghost function Contents(): Ram
      requires Valid()
      reads Ram
    {
      Ram[..]
    }

    ghost function Ports(): Bus
      reads this
    {
      Bus(Answers, Log)
    }

    constructor ()
      ensures Valid() && fresh(Ram) && Contents() == seq(0x10000, _ => 0)
      ensures Answers == [] && Log == []
    {
      Ram := new byte[0x10000](_ => 0);
      Answers, Log := [], [];
    }

    method ReadByte(addr: word) returns (v: byte)
      requires Valid()
      ensures v == Contents()[addr]
    {
      v := Ram[addr];
    }

    method WriteByte(addr: word, v: byte)
      requires Valid()
      modifies Ram
      ensures Contents() == old(Contents())[addr := v]
    {
      Ram[addr] := v;
    }

    method ReadWord16(addr: word) returns (v: word)
      requires Valid()
      ensures v == ReadWord(Contents(), addr)
    {
      var lo: word, hi: word := Ram[addr], Ram[W(addr + 1)];
      v := lo + hi * 0x100;
    }

    method WriteWord16(addr: word, v: word)
      requires Valid()
      modifies Ram
      ensures Contents() == WriteWord(old(Contents()), addr, v)
    {
      Ram[addr] := v % 0x100;
      Ram[W(addr + 1)] := v / 0x100;
    }

    /** The device behind the port does what it does, its stores to RAM included. */
    method Access() returns (a: Answer)
      requires Valid()
      modifies this`Answers, Ram
      ensures a == NextAnswer(old(Ports())) && Contents() == Stored(old(Contents()), a.stores)
      ensures Answers == if old(Answers) == [] then [] else old(Answers)[1..]
    {
      a := Answer(0xFF, map[]);
      if Answers != [] {
        a := Answers[0];
        Answers := Answers[1..];
      }
      forall addr: word | addr in a.stores {
        Ram[addr] := a.stores[addr];
      }
      StoresDone(old(Contents()), Contents(), a.stores);
    }

    method ReadIo(port: byte) returns (v: byte)
      requires Valid()
      modifies this, Ram
      ensures v == NextAnswer(old(Ports())).value && Ports() == Answered(old(Ports()), PortIn(port, v))
      ensures Contents() == Stored(old(Contents()), NextAnswer(old(Ports())).stores)
    {
      hide Stored;
      var a := Access();
      v := a.value;
      Log := Log + [PortIn(port, v)];
    }

    method WriteIo(port: byte, v: byte)
      requires Valid()
      modifies this, Ram
      ensures Ports() == Answered(old(Ports()), PortOut(port, v))
      ensures Contents() == Stored(old(Contents()), NextAnswer(old(Ports())).stores)
    {
      hide Stored;
      var a := Access();
      Log := Log + [PortOut(port, v)];
    }
  }

  lemma StoresDone(m: Ram, n: Ram, stores: map<word, byte>)
    requires forall a: word :: n[a] == StoredAt(m, stores, a)
    ensures n == Stored(m, stores)
  {
  }

  lemma BitRow(s: Cpu)
    ensures X3Z3(s, 1) == Cb(Bump(Adv(s, 1)), Imm8(s))
  {
    hide Cb;
  }

  /** The suffixes below 40 that no index instruction claims. */
  lemma IdxRestIgnored(s: Cpu, i: Index, op: byte)
    requires op < 0x40 && op % 0x10 != 9
    requires op !in {0x21, 0x22, 0x2A, 0x23, 0x2B, 0x34, 0x35, 0x24, 0x2C, 0x25, 0x2D, 0x26, 0x2E, 0x36}
    ensures IdxQuad0(s, i, op) == Ignored(s)
  {
    hide Ignored, IdxZ1, IdxZ2, IdxZ3, IdxIncDec, IdxLdImm;
    RowsIgnored(s, i, Fy(op));
  }

  lemma RowsIgnored(s: Cpu, i: Index, y: int)
    requires 0 <= y < 8
    ensures y % 2 == 0 && y != 4 ==> IdxZ1(s, i, y) == Ignored(s)
    ensures y != 4 && y != 5 ==> IdxZ2(s, i, y) == Ignored(s) && IdxZ3(s, i, y) == Ignored(s)
    ensures y < 4 || y == 7 ==> IdxIncDec(s, i, y, false) == Ignored(s) && IdxIncDec(s, i, y, true) == Ignored(s)
    ensures y < 4 || y == 7 ==> IdxLdImm(s, i, y) == Ignored(s)
  {
    hide Ignored, Add16, Imm16, ReadWord, WriteWord, W, Inc8, Dec8, RdI8, WrI8, Ea;
  }

  /** The flags of the block port instructions. */
  method CountFlags(b: byte) returns (f: byte)
    ensures f == IoFlags(b)
  {
    hide MkF;
    f := Assemble(b >= 0x80, b == 0, B5(b), false, B3(b), false, true, false);
  }

  /** The flags of a block comparison that left `result`, with C kept. */
  method ComparisonFlags(result: byte, half: bool, more: bool, f: byte) returns (g: byte)
    ensures var n := B(result - Num(half));
            g == MkF(Neg(result), result == 0, N1(n), half, B3(n), more, true, FC(f))
  {
    hide MkF;
    var n: byte := (result - if half then 1 else 0) % 0x100;
    g := Assemble(result >= 0x80, result == 0, N1(n), half, B3(n), more, true, FC(f));
  }

  function AfterReset(ram: Ram, bus: Bus): Cpu {
    Cpu(0, 0, 0, 0, 0, 0, 0, 0, 0, 0, Shadow(0, 0, 0, 0), Ints(false, false, 0, false, false, false, false),
        Debug({}, false), 0, 0, 0, ram, bus)
  }

  class Z80Cpu {
    var AF: word
    var BC: word
    var DE: word
    var HL: word
    var AF_: word
    var BC_: word
    var DE_: word
    var HL_: word
    var IX: word
    var IY: word
    var SP: word
    var PC: word
    var I: byte
    var R: byte
    var IFF1: bool
    var IFF2: bool
    var IM: int
    var Halted: bool
    var CycleCount: nat
    var InstructionCount: nat
    var NmiPending: bool
    var IrqLine: bool
    var EiDelayPending: bool
    var EnabledBreakpoints: set<word>
    var InStepMode: bool
    const Memory: Z80Memory
    ghost var BytesFetched: nat

    ghost predicate Valid() { Memory.Valid() }

    /** The state as a value. */
    ghost function Snap(): Cpu
      requires Valid()
      reads this, Memory, Memory.Ram
    {
      Cpu(AF, BC, DE, HL, IX, IY, SP, PC, I, R, Shadow(AF_, BC_, DE_, HL_),
          Ints(IFF1, IFF2, IM, Halted, NmiPending, IrqLine, EiDelayPending),
          Debug(EnabledBreakpoints, InStepMode), CycleCount, InstructionCount, BytesFetched,
          Memory.Contents(), Memory.Ports())
    }

    /** The registers as they are after RESET, attached to a memory. */
    constructor (memory: Z80Memory)
      requires memory.Valid()
      ensures Valid() && Memory == memory && Snap() == AfterReset(memory.Contents(), memory.Ports())
    {
      AF, BC, DE, HL, AF_, BC_, DE_, HL_ := 0, 0, 0, 0, 0, 0, 0, 0;
      IX, IY, SP, PC, I, R := 0, 0, 0, 0, 0, 0;
      IFF1, IFF2, IM, Halted := false, false, 0, false;
      CycleCount, InstructionCount, BytesFetched := 0, 0, 0;
      NmiPending, IrqLine, EiDelayPending := false, false, false;
      EnabledBreakpoints, InStepMode := {}, false;
      Memory := memory;
    }

    method FetchByte() returns (v: byte)
      requires Valid()
      modifies this`PC, this`BytesFetched
      ensures v == Imm8(old(Snap())) && Snap() == Adv(old(Snap()), 1)
    {
      v := Memory.ReadByte(PC);
      PC := W(PC + 1);
      BytesFetched := BytesFetched + 1;
    }

    method FetchWord() returns (v: word)
      requires Valid()
      modifies this`PC, this`BytesFetched
      ensures v == Imm16(old(Snap())) && Snap() == Adv(old(Snap()), 2)
    {
      var lo: word := FetchByte();
      var hi: word := FetchByte();
      v := lo + hi * 0x100;
    }

    /** CycleCount += n; InstructionCount++; return n. */
    method Retire(n: nat) returns (t: int)
      requires Valid()
      modifies this`CycleCount, this`InstructionCount
      ensures Out(Snap(), t) == Done(old(Snap()), n)
    {
      CycleCount := CycleCount + n;
      InstructionCount := InstructionCount + 1;
      t := n;
    }

    method Push16(v: word)
      requires Valid()
      modifies this`SP, Memory.Ram
      ensures Snap() == Push(old(Snap()), v)
    {
      SP := W(SP - 2);
      Memory.WriteWord16(SP, v);
    }

    method Pop16() returns (v: word)
      requires Valid()
      modifies this`SP
      ensures v == ReadWord(old(Snap()).ram, old(SP)) && Snap() == Pop(old(Snap()))
    {
      v := Memory.ReadWord16(SP);
      SP := W(SP + 2);
    }

    method SetFlags(f: byte)
      requires Valid()
      modifies this`AF
      ensures Snap() == SetF(old(Snap()), f)
    {
      AF := AF / 0x100 * 0x100 + f;
    }

    method SetAcc(v: byte)
      requires Valid()
      modifies this`AF
      ensures Snap() == SetA(old(Snap()), v)
    {
      AF := AF % 0x100 + v * 0x100;
    }

    method Reg8Read(code: int) returns (v: byte)
      requires Valid() && 0 <= code < 8
      ensures v == Rd8(Snap(), code)
    {
      match code
      case 0 => v := BC / 0x100;
      case 1 => v := BC % 0x100;
      case 2 => v := DE / 0x100;
      case 3 => v := DE % 0x100;
      case 4 => v := HL / 0x100;
      case 5 => v := HL % 0x100;
      case 6 => v := Memory.ReadByte(HL);
      case _ => v := AF / 0x100;
    }

    method Reg8Write(code: int, v: byte)
      requires Valid() && 0 <= code < 8
      modifies this, Memory.Ram
      ensures Snap() == Wr8(old(Snap()), code, v)
    {
      match code
      case 0 => BC := BC % 0x100 + v * 0x100;
      case 1 => BC := BC / 0x100 * 0x100 + v;
      case 2 => DE := DE % 0x100 + v * 0x100;
      case 3 => DE := DE / 0x100 * 0x100 + v;
      case 4 => HL := HL % 0x100 + v * 0x100;
      case 5 => HL := HL / 0x100 * 0x100 + v;
      case 6 => Memory.WriteByte(HL, v);
      case _ => SetAcc(v);
    }

    method SetRegPair(pp: int, v: word)
      requires Valid()
      modifies this`BC, this`DE, this`HL, this`SP
      ensures Snap() == WrPair(old(Snap()), pp, v)
    {
      if pp == 0 { BC := v; } else if pp == 1 { DE := v; } else if pp == 2 { HL := v; } else { SP := v; }
    }

    function RegPair(pp: int): word
      reads this
    {
      if pp == 0 then BC else if pp == 1 then DE else if pp == 2 then HL else SP
    }

    /** SetA and SetF together, as every accumulator operation ends. */
    method SetResult(r: Res)
      requires Valid()
      modifies this`AF
      ensures Snap() == SetRes(old(Snap()), r)
    {
      AF := r.v * 0x100 + r.f;
    }

    method AluOnA(op: int, v: byte)
      requires Valid()
      modifies this`AF
      ensures Snap() == Alu(old(Snap()), op, v)
    {
      hide AluOp;
      var r := RunAluOp(op, AF / 0x100, v, AF % 0x100);
      SetResult(r);
    }

    method JumpRelative(taken: bool)
      requires Valid()
      modifies this`PC, this`BytesFetched
      ensures Snap() == Jump(old(Snap()), taken)
    {
      var e := FetchByte();
      if taken { PC := W(PC + Signed(e)); }
    }

    method CallTo(nn: word)
      requires Valid()
      modifies this`PC, this`SP, Memory.Ram
      ensures Snap() == Push(old(Snap()), old(PC)).(pc := nn)
    {
      Push16(PC);
      PC := nn;
    }

    method ReturnToCaller()
      requires Valid()
      modifies this`PC, this`SP
      ensures Snap() == Return(old(Snap()))
    {
      PC := Pop16();
    }

    method LdPairImm(y: int) returns (t: int)
      requires Valid() && 0 <= y < 8 && y % 2 == 0
      modifies this, Memory.Ram
      ensures Out(Snap(), t) == X0Z1(old(Snap()), y)
    {
      hide Imm16, W;
      var nn := FetchWord();
      SetRegPair(y / 2, nn);
      t := Retire(10);
    }

    method AddHL(y: int) returns (t: int)
      requires Valid() && 0 <= y < 8 && y % 2 == 1
      modifies this, Memory.Ram
      ensures Out(Snap(), t) == X0Z1(old(Snap()), y)
    {
      hide Add16, Pair, Hi;
      var res := AddPair(HL, RegPair(y / 2), AF % 0x100);
      SetFlags(res.f);
      HL := res.v;
      t := Retire(11);
    }

    method IncDecPair(y: int) returns (t: int)
      requires Valid() && 0 <= y < 8
      modifies this, Memory.Ram
      ensures Out(Snap(), t) == X0Z3(old(Snap()), y)
    {
      hide W;
      SetRegPair(y / 2, W(RegPair(y / 2) + if y % 2 == 0 then 1 else -1));
      t := Retire(6);
    }

    method IncDecReg(y: int, dec: bool) returns (t: int)
      requires Valid() && 0 <= y < 8
      modifies this, Memory.Ram
      ensures Out(Snap(), t) == IncDec(old(Snap()), y, dec)
    {
      hide Dec8, Inc8, Rd8, Wr8;
      var orig := Reg8Read(y);
      var res: Res;
      if dec { res := DecByte(orig, AF % 0x100); } else { res := IncByte(orig, AF % 0x100); }
      Reg8Write(y, res.v);
      SetFlags(res.f);
      t := Retire(if y == 6 then 11 else 4);
    }

    method LdIndirect(y: int) returns (t: int)
      requires Valid() && 0 <= y < 4
      modifies this, Memory.Ram
      ensures Out(Snap(), t) == X0Z2(old(Snap()), y)
    {
      hide Pair;
      if y == 0 {
        Memory.WriteByte(BC, AF / 0x100);
      } else if y == 2 {
        Memory.WriteByte(DE, AF / 0x100);
      } else if y == 1 {
        var v := Memory.ReadByte(BC);
        SetAcc(v);
      } else {
        var v := Memory.ReadByte(DE);
        SetAcc(v);
      }
      t := Retire(7);
    }

    method LdDirect(y: int) returns (t: int)
      requires Valid() && 4 <= y < 8
      modifies this, Memory.Ram
      ensures Out(Snap(), t) == X0Z2(old(Snap()), y)
    {
      hide Pair, Imm16, ReadWord, WriteWord, W;
      var nn := FetchWord();
      if y == 4 {
        Memory.WriteWord16(nn, HL);
        t := Retire(16);
      } else if y == 5 {
        HL := Memory.ReadWord16(nn);
        t := Retire(16);
      } else if y == 6 {
        Memory.WriteByte(nn, AF / 0x100);
        t := Retire(13);
      } else {
        var v := Memory.ReadByte(nn);
        SetAcc(v);
        t := Retire(13);
      }
    }

    method LdRegImm(y: int) returns (t: int)
      requires Valid() && 0 <= y < 8
      modifies this, Memory.Ram
      ensures Out(Snap(), t) == X0Z6(old(Snap()), y)
    {
      hide Wr8, W;
      var imm := FetchByte();
      Reg8Write(y, imm);
      t := Retire(if y == 6 then 10 else 7);
    }

    method LdRegReg(y: int, z: int) returns (t: int)
      requires Valid() && 0 <= y < 8 && 0 <= z < 8
      modifies this, Memory.Ram
      ensures Out(Snap(), t) == LdReg(old(Snap()), y, z)
    {
      hide Rd8, Wr8;
      if y == 6 && z == 6 {
        Halted := true;
        t := Retire(4);
      } else {
        var v := Reg8Read(z);
        Reg8Write(y, v);
        t := Retire(if y == 6 || z == 6 then 7 else 4);
      }
    }

    method AluWithReg(y: int, z: int) returns (t: int)
      requires Valid() && 0 <= y < 8 && 0 <= z < 8
      modifies this, Memory.Ram
      ensures Out(Snap(), t) == AluReg(old(Snap()), y, z)
    {
      hide Rd8, Alu;
      var v := Reg8Read(z);
      AluOnA(y, v);
      t := Retire(if z == 6 then 7 else 4);
    }

    method AluImm(y: int) returns (t: int)
      requires Valid() && 0 <= y < 8
      modifies this, Memory.Ram
      ensures Out(Snap(), t) == X3Z6(old(Snap()), y)
    {
      hide Alu, W;
      var v := FetchByte();
      AluOnA(y, v);
      t := Retire(7);
    }

    method JumpsRelative(y: int) returns (t: int)
      requires Valid() && 2 <= y < 8
      modifies this, Memory.Ram
      ensures Out(Snap(), t) == X0Z0(old(Snap()), y)
    {
      hide Jump, Cond, B;
      if y == 3 {
        JumpRelative(true);
        t := Retire(12);
      } else if y == 2 {
        var b := B(BC / 0x100 - 1);
        SetHighB(b);
        JumpRelative(b != 0);
        t := Retire(if b != 0 then 13 else 8);
      } else {
        var taken := Cond(AF % 0x100, y - 4);
        JumpRelative(taken);
        t := Retire(if taken then 12 else 7);
      }
    }

    method JumpIf(y: int) returns (t: int)
      requires Valid() && 0 <= y < 8
      modifies this
      ensures Out(Snap(), t) == X3Z2(old(Snap()), y)
    {
      hide Imm16, Cond, W;
      var nn := FetchWord();
      if Cond(AF % 0x100, y) { PC := nn; }
      t := Retire(10);
    }

    method CallAlways() returns (t: int)
      requires Valid()
      modifies this, Memory.Ram
      ensures Out(Snap(), t) == Done(Call(old(Snap())), 17)
    {
      hide Imm16, W, Push;
      var nn := FetchWord();
      CallTo(nn);
      t := Retire(17);
    }

    method CallIf(y: int) returns (t: int)
      requires Valid() && 0 <= y < 8
      modifies this, Memory.Ram
      ensures Out(Snap(), t) == X3Z4(old(Snap()), y)
    {
      hide Imm16, Cond, W, Push;
      var nn := FetchWord();
      if Cond(AF % 0x100, y) {
        CallTo(nn);
        t := Retire(17);
      } else {
        t := Retire(10);
      }
    }

    method ReturnIf(y: int) returns (t: int)
      requires Valid() && 0 <= y < 8
      modifies this
      ensures Out(Snap(), t) == X3Z0(old(Snap()), y)
    {
      hide Return, Cond;
      if Cond(AF % 0x100, y) {
        ReturnToCaller();
        t := Retire(11);
      } else {
        t := Retire(5);
      }
    }

    method Rst(y: int) returns (t: int)
      requires Valid() && 0 <= y < 8
      modifies this, Memory.Ram
      ensures Out(Snap(), t) == X3Z7(old(Snap()), y)
    {
      hide Push;
      CallTo(8 * y);
      t := Retire(11);
    }

    method PushPair(y: int) returns (t: int)
      requires Valid() && 0 <= y < 8 && y % 2 == 0
      modifies this, Memory.Ram
      ensures Out(Snap(), t) == X3Z5(old(Snap()), y)
    {
      hide Push;
      Push16(if y / 2 == 3 then AF else RegPair(y / 2));
      t := Retire(11);
    }

    method PopPair(y: int) returns (t: int)
      requires Valid() && 0 <= y < 8 && y % 2 == 0
      modifies this, Memory.Ram
      ensures Out(Snap(), t) == X3Z1(old(Snap()), y)
    {
      hide ReadWord, W;
      var v := Pop16();
      if y / 2 == 3 { AF := v; } else { SetRegPair(y / 2, v); }
      t := Retire(10);
    }

    method Rotate(idx: int, v: byte) returns (r: byte)
      requires Valid() && 0 <= idx < 8
      modifies this`AF
      ensures r == Rot(idx, v, RegF(old(Snap()))).v
      ensures Snap() == SetF(old(Snap()), Rot(idx, v, RegF(old(Snap()))).f)
    {
      hide Rot;
      var res := RotateByte(idx, v, AF % 0x100);
      SetFlags(res.f);
      r := res.v;
    }

    method BitInstruction() returns (t: int)
      requires Valid()
      modifies this, Memory.Ram
      ensures Out(Snap(), t) == Cb(Bump(Adv(old(Snap()), 1)), Imm8(old(Snap())))
    {
      hide Rot, BitFlags, ResBit, SetBit, Rd8, Wr8, BumpR, W, SetF;
      var cb := FetchByte();
      R := BumpR(R);
      var idx, reg := Fy(cb), Fz(cb);
      var v := Reg8Read(reg);
      if Fx(cb) == 0 {
        var r := Rotate(idx, v);
        Reg8Write(reg, r);
        t := Retire(if reg == 6 then 15 else 8);
      } else if Fx(cb) == 1 {
        var g := BitFlagsOf(idx, v, if reg == 6 then HL / 0x100 else v, AF % 0x100);
        SetFlags(g);
        t := Retire(if reg == 6 then 12 else 8);
      } else {
        Reg8Write(reg, if Fx(cb) == 2 then ResBit(idx, v) else SetBit(idx, v));
        t := Retire(if reg == 6 then 15 else 8);
      }
    }

    method LdSpHL() returns (t: int)
      requires Valid()
      modifies this, Memory.Ram
      ensures Out(Snap(), t) == X3Z1(old(Snap()), 7)
    {
      hide ReadWord;
      SP := HL;
      t := Retire(6);
    }

    method SwapBC()
      requires Valid()
      modifies this`BC, this`BC_
      ensures Snap() == old(Snap()).(bc := old(BC_), alt := old(Snap()).alt.(bc := old(BC)))
    {
      BC, BC_ := BC_, BC;
    }

    method SwapDE()
      requires Valid()
      modifies this`DE, this`DE_
      ensures Snap() == old(Snap()).(de := old(DE_), alt := old(Snap()).alt.(de := old(DE)))
    {
      DE, DE_ := DE_, DE;
    }

    method Exx() returns (t: int)
      requires Valid()
      modifies this, Memory.Ram
      ensures Out(Snap(), t) == X3Z1(old(Snap()), 3)
    {
      hide ReadWord;
      SwapBC();
      SwapDE();
      HL, HL_ := HL_, HL;
      t := Retire(4);
    }

    method JumpAlways() returns (t: int)
      requires Valid()
      modifies this
      ensures Out(Snap(), t) == X3Z3(old(Snap()), 0)
    {
      hide Cb, Stored, PortValue, Answered, ReadWord, WriteWord, Imm16, W;
      PC := FetchWord();
      t := Retire(10);
    }

    method ExchangeDeHL() returns (t: int)
      requires Valid()
      modifies this, Memory.Ram
      ensures Out(Snap(), t) == X3Z3(old(Snap()), 5)
    {
      hide Cb, Stored, PortValue, Answered, ReadWord, WriteWord, Pair, Hi, Lo, Imm16, W;
      DE, HL := HL, DE;
      t := Retire(4);
    }

    method ExchangeStackHL() returns (t: int)
      requires Valid()
      modifies this, Memory.Ram
      ensures Out(Snap(), t) == X3Z3(old(Snap()), 4)
    {
      hide Cb, Stored, PortValue, Answered, ReadWord, WriteWord, Pair, Hi, Lo, Imm16, W;
      var v := Memory.ReadWord16(SP);
      Memory.WriteWord16(SP, HL);
      HL := v;
      t := Retire(19);
    }

    method ExchangeAF() returns (t: int)
      requires Valid()
      modifies this, Memory.Ram
      ensures Out(Snap(), t) == X0Z0(old(Snap()), 1)
    {
      AF, AF_ := AF_, AF;
      t := Retire(4);
    }

    method AccumulatorOp(y: int) returns (t: int)
      requires Valid() && 0 <= y < 8
      modifies this, Memory.Ram
      ensures Out(Snap(), t) == X0Z7(old(Snap()), y)
    {
      hide AccOp;
      var r := RunAccOp(y, AF / 0x100, AF % 0x100);
      SetResult(r);
      t := Retire(4);
    }

    method SetSwitches(iff1: bool, iff2: bool)
      requires Valid()
      modifies this`IFF1, this`IFF2
      ensures Snap() == old(Snap()).(ints := old(Snap()).ints.(iff1 := iff1, iff2 := iff2))
    {
      IFF1 := iff1;
      IFF2 := iff2;
    }

    method InterruptSwitch(on: bool) returns (t: int)
      requires Valid()
      modifies this, Memory.Ram
      ensures Out(Snap(), t) == X3Z3(old(Snap()), if on then 7 else 6)
    {
      hide Cb, Stored, PortValue, Answered, ReadWord, WriteWord, Pair, Hi, Lo, Imm16, W;
      SetSwitches(on, on);
      if on { EiDelayPending := true; }
      t := Retire(4);
    }

    method PortInstruction(input: bool) returns (t: int)
      requires Valid()
      modifies this, Memory, Memory.Ram
      ensures Out(Snap(), t) == X3Z3(old(Snap()), if input then 3 else 2)
    {
      hide Cb, Stored, Answered, ReadWord, WriteWord, Imm16, W, Pair;
      var port := FetchByte();
      if input {
        var v := Memory.ReadIo(port);
        SetAcc(v);
      } else {
        Memory.WriteIo(port, AF / 0x100);
      }
      t := Retire(11);
    }

    /** Opcodes 00 to 3F, in the order the source tests for them. */
    method ExecuteLow(op: byte) returns (t: int)
      requires Valid() && op < 0x40
      modifies this, Memory.Ram
      ensures Out(Snap(), t) == Quad0(old(Snap()), op)
    {
      hide X0Z0, X0Z1, X0Z2, X0Z3, IncDec, X0Z6, X0Z7, Done;
      var y := op / 8 % 8;
      if op == 0x00 {
        t := Nop();
      } else if op % 0x10 == 1 {
        t := LdPairImm(y);
      } else if op % 0x10 == 9 {
        t := AddHL(y);
      } else if op % 8 == 3 {
        t := IncDecPair(y);
      } else if op % 8 == 4 {
        t := IncDecReg(y, false);
      } else if op % 8 == 5 {
        t := IncDecReg(y, true);
      } else {
        t := ExecuteLowRest(op);
      }
    }

    method ExecuteLowRest(op: byte) returns (t: int)
      requires Valid() && op < 0x40
      requires op != 0x00 && op % 0x10 != 1 && op % 0x10 != 9 && op % 8 != 3 && op % 8 != 4 && op % 8 != 5
      modifies this, Memory.Ram
      ensures Out(Snap(), t) == Quad0(old(Snap()), op)
    {
      hide X0Z0, X0Z1, X0Z2, X0Z3, IncDec, X0Z6, X0Z7, Done;
      var y := op / 8 % 8;
      if op == 0x02 || op == 0x12 || op == 0x0A || op == 0x1A {
        t := LdIndirect(y);
      } else if op % 8 == 2 {
        t := LdDirect(y);
      } else if op % 8 == 6 {
        t := LdRegImm(y);
      } else if op == 0x18 || op == 0x10 || (op / 0x20 == 1 && op % 8 == 0) {
        t := JumpsRelative(y);
      } else if op == 0x08 {
        t := ExchangeAF();
      } else {
        t := AccumulatorOp(y);
      }
    }

    method Nop() returns (t: int)
      requires Valid()
      modifies this, Memory.Ram
      ensures Out(Snap(), t) == X0Z0(old(Snap()), 0)
    {
      t := Retire(4);
    }

    /** RET, EXX, JP (HL) and LD SP,HL. */
    method OddRow1(y: int) returns (t: int)
      requires Valid() && 0 <= y < 8 && y % 2 == 1
      modifies this, Memory.Ram
      ensures Out(Snap(), t) == X3Z1(old(Snap()), y)
    {
      hide Return;
      if y == 1 {
        ReturnToCaller();
        t := Retire(10);
      } else if y == 5 {
        PC := HL;
        t := Retire(4);
      } else if y == 3 {
        t := Exx();
      } else {
        t := LdSpHL();
      }
    }

    /** JP nn, CB, OUT, IN, EX (SP),HL, EX DE,HL, DI and EI. */
    method Row3(y: int) returns (t: int)
      requires Valid() && 0 <= y < 8
      modifies this, Memory, Memory.Ram
      ensures Out(Snap(), t) == X3Z3(old(Snap()), y)
    {
      hide X3Z3, Cb, Bump, Adv, Imm8;
      if y == 0 {
        t := JumpAlways();
      } else if y == 1 {
        BitRow(Snap());
        t := BitInstruction();
      } else if y == 2 || y == 3 {
        t := PortInstruction(y == 3);
      } else if y == 4 {
        t := ExchangeStackHL();
      } else if y == 5 {
        t := ExchangeDeHL();
      } else {
        t := InterruptSwitch(y == 7);
      }
    }

    /** Opcodes C0 to FF; the three prefixes are not unprefixed instructions and trap. */
    method ExecuteHigh(op: byte) returns (t: int)
      requires Valid() && op >= 0xC0
      modifies this, Memory, Memory.Ram
      ensures Out(Snap(), t) == Quad3(old(Snap()), op)
    {
      hide X3Z0, X3Z1, X3Z2, X3Z3, X3Z4, X3Z6, X3Z7, Done, Push, Call, W;
      var y := op / 8 % 8;
      match op % 8 {
        case 0 => t := ReturnIf(y);
        case 1 => if y % 2 == 0 { t := PopPair(y); } else { t := OddRow1(y); }
        case 2 => t := JumpIf(y);
        case 3 => t := Row3(y);
        case 4 => t := CallIf(y);
        case 5 =>
          if y % 2 == 0 {
            t := PushPair(y);
          } else if y == 1 {
            t := CallAlways();
          } else {
            PC := W(PC - 1);
            t := 0;
          }
        case 6 => t := AluImm(y);
        case _ => t := Rst(y);
      }
    }

    method ExecutePlain(op: byte) returns (t: int)
      requires Valid()
      modifies this, Memory, Memory.Ram
      ensures Out(Snap(), t) == Plain(old(Snap()), op)
    {
      hide Quad0, Quad3, LdReg, AluReg;
      if op < 0x40 {
        t := ExecuteLow(op);
      } else if op < 0x80 {
        t := LdRegReg(op / 8 % 8, op % 8);
      } else if op < 0xC0 {
        t := AluWithReg(op / 8 % 8, op % 8);
      } else {
        t := ExecuteHigh(op);
      }
    }

    // ---- DD and FD: the register the pointer IXY names ------------------------------

    function Ixy(i: Index): word
      reads this
    {
      if i.IX? then IX else IY
    }

    method SetIxy(i: Index, v: word)
      requires Valid()
      modifies this`IX, this`IY
      ensures Snap() == SetI(old(Snap()), i, v)
    {
      if i.IX? { IX := v; } else { IY := v; }
    }

    method FetchEa(i: Index) returns (ea: word)
      requires Valid()
      modifies this`PC, this`BytesFetched
      ensures ea == Ea(old(Snap()), i) && Snap() == Adv(old(Snap()), 1)
    {
      hide Signed, W;
      var d := FetchByte();
      ea := W(Ixy(i) + Signed(d));
    }

    method ReadHalf(i: Index, code: int) returns (v: byte)
      requires Valid() && 0 <= code < 8
      modifies {}
      ensures v == RdI8(Snap(), i, code)
    {
      hide Rd8;
      if code == 4 { v := Ixy(i) / 0x100; } else if code == 5 { v := Ixy(i) % 0x100; } else { v := Reg8Read(code); }
    }

    method WriteHalf(i: Index, code: int, v: byte)
      requires Valid() && 0 <= code < 8
      modifies this, Memory.Ram
      ensures Snap() == WrI8(old(Snap()), i, code, v)
    {
      hide Wr8, SetI;
      if code == 4 {
        SetIxy(i, Ixy(i) % 0x100 + v * 0x100);
      } else if code == 5 {
        SetIxy(i, Ixy(i) / 0x100 * 0x100 + v);
      } else {
        Reg8Write(code, v);
      }
    }

    method IgnorePrefix() returns (t: int)
      requires Valid()
      modifies this, Memory.Ram
      ensures Out(Snap(), t) == Ignored(old(Snap()))
    {
      hide W;
      PC := W(PC - 1);
      t := Retire(4);
    }

    method IdxAdd(i: Index, y: int) returns (t: int)
      requires Valid() && 0 <= y < 8 && y % 2 == 1
      modifies this, Memory.Ram
      ensures Out(Snap(), t) == IdxZ1(old(Snap()), i, y)
    {
      hide Add16, Pair, Hi, Imm16;
      var addend := if y / 2 == 2 then Ixy(i) else RegPair(y / 2);
      var res := AddPair(Ixy(i), addend, AF % 0x100);
      SetFlags(res.f);
      SetIxy(i, res.v);
      t := Retire(15);
    }

    method IdxWord(i: Index, op: byte) returns (t: int)
      requires Valid() && op in {0x21, 0x22, 0x2A, 0x23, 0x2B}
      modifies this, Memory.Ram
      ensures Out(Snap(), t) == IdxQuad0(old(Snap()), i, op)
    {
      hide Imm16, ReadWord, WriteWord, W, IdxIncDec, IdxLdImm, Add16, IdxZ3;
      if op == 0x21 {
        var nn := FetchWord();
        SetIxy(i, nn);
        t := Retire(14);
      } else if op == 0x22 {
        var nn := FetchWord();
        Memory.WriteWord16(nn, Ixy(i));
        t := Retire(20);
      } else if op == 0x2A {
        var nn := FetchWord();
        var v := Memory.ReadWord16(nn);
        SetIxy(i, v);
        t := Retire(20);
      } else {
        t := IdxIncDecPair(i, op / 8 % 8);
      }
    }

    method IdxIncDecPair(i: Index, y: int) returns (t: int)
      requires Valid() && (y == 4 || y == 5)
      modifies this
      ensures Out(Snap(), t) == IdxZ3(old(Snap()), i, y)
    {
      hide W;
      SetIxy(i, W(Ixy(i) + if y == 4 then 1 else -1));
      t := Retire(10);
    }

    method IdxStackOps(i: Index, y: int, z: int) returns (t: int)
      requires Valid()
      modifies this, Memory.Ram
      ensures Out(Snap(), t) == IdxStack(old(Snap()), i, y, z)
    {
      hide Push, ReadWord, W;
      if y == 4 && z == 5 {
        Push16(Ixy(i));
        t := Retire(15);
      } else if y == 4 && z == 1 {
        var v := Pop16();
        SetIxy(i, v);
        t := Retire(14);
      } else if y == 5 && z == 1 {
        PC := Ixy(i);
        t := Retire(8);
      } else if y == 7 && z == 1 {
        SP := Ixy(i);
        t := Retire(10);
      } else {
        t := IgnorePrefix();
      }
    }

    method IdxIncDecMem(i: Index, dec: bool) returns (t: int)
      requires Valid()
      modifies this, Memory.Ram
      ensures Out(Snap(), t) == IdxIncDec(old(Snap()), i, 6, dec)
    {
      hide Dec8, Inc8, Ea, Pair, Hi;
      var ea := FetchEa(i);
      var orig := Memory.ReadByte(ea);
      var res: Res;
      if dec { res := DecByte(orig, AF % 0x100); } else { res := IncByte(orig, AF % 0x100); }
      Memory.WriteByte(ea, res.v);
      SetFlags(res.f);
      t := Retire(23);
    }

    method IdxIncDecHalf(i: Index, y: int, dec: bool) returns (t: int)
      requires Valid() && Half8(y)
      modifies this, Memory.Ram
      ensures Out(Snap(), t) == IdxIncDec(old(Snap()), i, y, dec)
    {
      hide Dec8, Inc8, RdI8, WrI8;
      var orig := ReadHalf(i, y);
      var res: Res;
      if dec { res := DecByte(orig, AF % 0x100); } else { res := IncByte(orig, AF % 0x100); }
      WriteHalf(i, y, res.v);
      SetFlags(res.f);
      t := Retire(8);
    }

    method IdxLoadImm(i: Index, y: int) returns (t: int)
      requires Valid() && (y == 6 || Half8(y))
      modifies this, Memory.Ram
      ensures Out(Snap(), t) == IdxLdImm(old(Snap()), i, y)
    {
      hide Ea, WrI8, W;
      if y == 6 {
        var ea := FetchEa(i);
        var n := FetchByte();
        Memory.WriteByte(ea, n);
        t := Retire(19);
      } else {
        var n := FetchByte();
        WriteHalf(i, y, n);
        t := Retire(11);
      }
    }

    method IdxLoad(i: Index, y: int, z: int) returns (t: int)
      requires Valid() && 0 <= y < 8 && 0 <= z < 8
      modifies this, Memory.Ram
      ensures Out(Snap(), t) == IdxLdReg(old(Snap()), i, y, z)
    {
      hide Ea, RdI8, WrI8, Wr8, W, Hi, Lo;
      if z == 6 && y != 6 {
        var ea := FetchEa(i);
        var v := Memory.ReadByte(ea);
        Reg8Write(y, v);
        t := Retire(19);
      } else if y == 6 && z != 6 {
        var ea := FetchEa(i);
        var v := Reg8Read(z);
        Memory.WriteByte(ea, v);
        t := Retire(19);
      } else if (Half8(y) || Half8(z)) && y != 6 && z != 6 {
        var v := ReadHalf(i, z);
        WriteHalf(i, y, v);
        t := Retire(8);
      } else {
        t := IgnorePrefix();
      }
    }

    method IdxAluOp(i: Index, y: int, z: int) returns (t: int)
      requires Valid() && 0 <= y < 8 && 0 <= z < 8
      modifies this, Memory.Ram
      ensures Out(Snap(), t) == IdxAlu(old(Snap()), i, y, z)
    {
      hide Ea, RdI8, Alu, W;
      if z == 6 {
        var ea := FetchEa(i);
        var v := Memory.ReadByte(ea);
        AluOnA(y, v);
        t := Retire(19);
      } else if Half8(z) {
        var v := ReadHalf(i, z);
        AluOnA(y, v);
        t := Retire(8);
      } else {
        t := IgnorePrefix();
      }
    }

    method IdxBitInstruction(i: Index) returns (t: int)
      requires Valid()
      modifies this, Memory.Ram
      ensures Out(Snap(), t) == IdxCb(old(Snap()), i)
    {
      hide Ea, Rot, BitFlags, ResBit, SetBit, BumpR, W, SetF;
      var ea := FetchEa(i);
      var cb := FetchByte();
      BumpRefresh();
      var idx := Fy(cb);
      var v := Memory.ReadByte(ea);
      if Fx(cb) == 0 {
        var r := Rotate(idx, v);
        Memory.WriteByte(ea, r);
        t := Retire(23);
      } else if Fx(cb) == 1 {
        var g := BitFlagsOf(idx, v, ea / 0x100, AF % 0x100);
        SetFlags(g);
        t := Retire(20);
      } else {
        Memory.WriteByte(ea, if Fx(cb) == 2 then ResBit(idx, v) else SetBit(idx, v));
        t := Retire(23);
      }
    }

    /** ExecuteWithIndex: fetch the suffix and dispatch on it. */
    method ExecuteWithIndex(i: Index) returns (t: int)
      requires Valid()
      modifies this, Memory.Ram
      ensures Out(Snap(), t) == PrefixDdFd(old(Snap()), i)
    {
      hide IdxQuad0, IdxLdReg, IdxAlu, IdxCb, IdxStack, BumpR, W;
      var op := FetchByte();
      R := BumpR(R);
      if op < 0x40 {
        t := IdxLow(i, op);
      } else if op < 0x80 {
        t := IdxLoad(i, op / 8 % 8, op % 8);
      } else if op < 0xC0 {
        t := IdxAluOp(i, op / 8 % 8, op % 8);
      } else if op == 0xCB {
        t := IdxBitInstruction(i);
      } else {
        t := IdxStackOps(i, op / 8 % 8, op % 8);
      }
    }

    method IdxLow(i: Index, op: byte) returns (t: int)
      requires Valid() && op < 0x40
      modifies this, Memory.Ram
      ensures Out(Snap(), t) == IdxQuad0(old(Snap()), i, op)
    {
      hide Add16, Imm16, ReadWord, WriteWord, W, IdxIncDec, IdxLdImm, Done;
      var y := op / 8 % 8;
      if op in {0x21, 0x22, 0x2A, 0x23, 0x2B} {
        t := IdxWord(i, op);
      } else if op % 0x10 == 9 {
        t := IdxAdd(i, y);
      } else if op == 0x34 || op == 0x35 {
        t := IdxIncDecMem(i, op == 0x35);
      } else if op == 0x24 || op == 0x2C || op == 0x25 || op == 0x2D {
        t := IdxIncDecHalf(i, y, op % 8 == 5);
      } else if op == 0x26 || op == 0x2E || op == 0x36 {
        t := IdxLoadImm(i, y);
      } else {
        IdxRestIgnored(Snap(), i, op);
        t := IgnorePrefix();
      }
    }

    // ---- ED ----------------------------------------------------------------------

    method EdPortIn(y: int) returns (t: int)
      requires Valid() && 0 <= y < 8
      modifies this, Memory, Memory.Ram
      ensures Out(Snap(), t) == EdIn(old(Snap()), y)
    {
      hide InFlags, Wr8, Stored, Answered;
      var v := Memory.ReadIo(BC % 0x100);
      if y != 6 { Reg8Write(y, v); }
      var g := InFlagsOf(v, AF % 0x100);
      SetFlags(g);
      t := Retire(12);
    }

    method EdPortOut(y: int) returns (t: int)
      requires Valid() && 0 <= y < 8
      modifies this, Memory, Memory.Ram
      ensures Out(Snap(), t) == EdOut(old(Snap()), y)
    {
      hide Rd8, Stored, Answered;
      var v := 0;
      if y != 6 { v := Reg8Read(y); }
      Memory.WriteIo(BC % 0x100, v);
      t := Retire(12);
    }

    method EdArithmetic(y: int) returns (t: int)
      requires Valid() && 0 <= y < 8
      modifies this, Memory.Ram
      ensures Out(Snap(), t) == EdArith(old(Snap()), y)
    {
      hide Sbc16, Adc16, Pair, Hi;
      var res: Res16;
      if y % 2 == 0 {
        res := SbcPair(HL, RegPair(y / 2), AF % 0x100);
      } else {
        res := AdcPair(HL, RegPair(y / 2), AF % 0x100);
      }
      SetFlags(res.f);
      HL := res.v;
      t := Retire(15);
    }

    method EdLoadPair(y: int) returns (t: int)
      requires Valid() && 0 <= y < 8
      modifies this, Memory.Ram
      ensures Out(Snap(), t) == EdLdPair(old(Snap()), y)
    {
      hide Imm16, ReadWord, WriteWord, W, WrPair;
      var nn := FetchWord();
      if y % 2 == 0 {
        Memory.WriteWord16(nn, RegPair(y / 2));
      } else {
        var v := Memory.ReadWord16(nn);
        SetRegPair(y / 2, v);
      }
      t := Retire(20);
    }

    method EdNegate() returns (t: int)
      requires Valid()
      modifies this, Memory.Ram
      ensures Out(Snap(), t) == EdNeg(old(Snap()))
    {
      hide AluSub;
      var r := SubBytes(0, AF / 0x100, false);
      SetResult(r);
      t := Retire(8);
    }

    method EdReturnFrom() returns (t: int)
      requires Valid()
      modifies this, Memory.Ram
      ensures Out(Snap(), t) == EdReturn(old(Snap()))
    {
      hide ReadWord, W;
      PC := Pop16();
      IFF1 := IFF2;
      t := Retire(14);
    }

    method EdMode(y: int) returns (t: int)
      requires Valid() && 0 <= y < 8
      modifies this, Memory.Ram
      ensures Out(Snap(), t) == EdIm(old(Snap()), y)
    {
      IM := if y == 2 || y == 6 then 1 else if y == 3 || y == 7 then 2 else 0;
      t := Retire(8);
    }

    method EdLoadAcc(v: byte) returns (t: int)
      requires Valid()
      modifies this, Memory.Ram
      ensures Out(Snap(), t) == EdLdA(old(Snap()), v)
    {
      hide MkF, Neg, B5, B3, FC;
      var g := Assemble(Neg(v), v == 0, B5(v), false, B3(v), IFF2, false, FC(AF % 0x100));
      SetResult(Res(v, g));
      t := Retire(9);
    }

    method EdRotateNibbles(left: bool) returns (t: int)
      requires Valid()
      modifies this, Memory.Ram
      ensures Out(Snap(), t) == EdNibbles(old(Snap()), left)
    {
      hide InFlags;
      var a, m := AF / 0x100, Memory.Ram[HL];
      var a1 := a / 0x10 * 0x10 + (if left then m / 0x10 else m % 0x10);
      var m1 := if left then m % 0x10 * 0x10 + a % 0x10 else a % 0x10 * 0x10 + m / 0x10;
      var g := InFlagsOf(a1, AF % 0x100);
      SetResult(Res(a1, g));
      Memory.WriteByte(HL, m1);
      t := Retire(18);
    }

    method EdMiscellany(y: int) returns (t: int)
      requires Valid() && 0 <= y < 8
      modifies this, Memory.Ram
      ensures Out(Snap(), t) == EdMisc(old(Snap()), y)
    {
      hide EdLdA, EdNibbles;
      if y == 0 {
        I := AF / 0x100;
        t := Retire(9);
      } else if y == 1 {
        R := AF / 0x100;
        t := Retire(9);
      } else if y == 2 {
        t := EdLoadAcc(I);
      } else if y == 3 {
        t := EdLoadAcc(R);
      } else if y == 4 || y == 5 {
        t := EdRotateNibbles(y == 5);
      } else {
        t := Retire(8);
      }
    }

    method MovePointers(d: int)
      requires Valid() && (d == 1 || d == -1)
      modifies this`HL, this`DE, this`BC
      ensures Snap() == old(Snap()).(hl := W(old(HL) + d), de := W(old(DE) + d), bc := W(old(BC) - 1))
    {
      hide W;
      HL := W(HL + d);
      DE := W(DE + d);
      BC := W(BC - 1);
    }

    method BlockMoveStep(d: int)
      requires Valid() && (d == 1 || d == -1)
      modifies this, Memory.Ram
      ensures Snap() == LdMove(old(Snap()), d)
    {
      hide MkF, FS, FZ, FC, N1, B3, W, B, Pair;
      var v := Memory.ReadByte(HL);
      Memory.WriteByte(DE, v);
      MovePointers(d);
      var n := B(AF / 0x100 + v);
      var f := AF % 0x100;
      var g := Assemble(FS(f), FZ(f), N1(n), false, B3(n), BC != 0, false, FC(f));
      SetFlags(g);
    }

    method AdvanceSearch(d: int)
      requires Valid()
      modifies this`HL, this`BC
      ensures Snap() == old(Snap()).(hl := W(old(HL) + d), bc := W(old(BC) - 1))
    {
      HL := W(HL + d);
      BC := W(BC - 1);
    }

    method BlockCompareStep(d: int) returns (matched: bool)
      requires Valid() && (d == 1 || d == -1)
      modifies this
      ensures Snap() == CpStep(old(Snap()), d)
      ensures matched == Matches(old(Snap()))
    {
      hide MkF, FC, N1, B3, W, B, Pair, Neg;
      var v := Memory.ReadByte(HL);
      var a := AF / 0x100;
      var half := a % 0x10 - v % 0x10;
      var result := B(a - v);
      AdvanceSearch(d);
      var g := ComparisonFlags(result, half < 0, BC != 0, AF % 0x100);
      SetFlags(g);
      matched := result == 0;
    }

    method SetHighB(b: byte)
      requires Valid()
      modifies this`BC
      ensures Snap() == old(Snap()).(bc := Pair(b, Lo(old(BC))))
    {
      var c: word, d: word := BC % 0x100, b;
      BC := c + d * 0x100;
    }

    method BlockInStep(d: int)
      requires Valid() && (d == 1 || d == -1)
      modifies this, Memory, Memory.Ram
      ensures Snap() == InStep(old(Snap()), d)
    {
      hide Stored, Answered, IoFlags, W, B;
      var v := Memory.ReadIo(BC % 0x100);
      Memory.WriteByte(HL, v);
      HL := W(HL + d);
      var b := B(BC / 0x100 - 1);
      SetHighB(b);
      var g := CountFlags(b);
      SetFlags(g);
    }

    method BlockOutStep(d: int)
      requires Valid() && (d == 1 || d == -1)
      modifies this, Memory, Memory.Ram
      ensures Snap() == OutStep(old(Snap()), d)
    {
      hide Stored, Answered, IoFlags, W, B;
      var v := Memory.ReadByte(HL);
      var b := B(BC / 0x100 - 1);
      SetHighB(b);
      Memory.WriteIo(BC % 0x100, v);
      HL := W(HL + d);
      var g := CountFlags(b);
      SetFlags(g);
    }

    method RepeatIf(again: bool) returns (t: int)
      requires Valid()
      modifies this, Memory.Ram
      ensures Out(Snap(), t) == Repeat(old(Snap()), again)
    {
      hide W;
      if again {
        PC := W(PC - 2);
        t := Retire(21);
      } else {
        t := Retire(16);
      }
    }

    method EdBlockOp(y: int, z: int) returns (t: int)
      requires Valid() && 4 <= y < 8 && 0 <= z < 4
      modifies this, Memory, Memory.Ram
      ensures Out(Snap(), t) == EdBlock(old(Snap()), y, z)
    {
      hide LdMove, CpStep, Matches, InStep, OutStep, Repeat;
      var d := if y % 2 == 0 then 1 else -1;
      var rep := y >= 6;
      if z == 0 {
        BlockMoveStep(d);
        t := RepeatIf(rep && BC != 0);
      } else if z == 1 {
        var matched := BlockCompareStep(d);
        t := RepeatIf(rep && !matched && BC != 0);
      } else if z == 2 {
        BlockInStep(d);
        t := RepeatIf(rep && BC / 0x100 != 0);
      } else {
        BlockOutStep(d);
        t := RepeatIf(rep && BC / 0x100 != 0);
      }
    }

    method EdQuadrant1(sub: byte) returns (t: int)
      requires Valid() && Fx(sub) == 1
      modifies this, Memory, Memory.Ram
      ensures Out(Snap(), t) == EdQuad1(old(Snap()), sub)
    {
      hide EdIn, EdOut, EdArith, EdLdPair, EdNeg, EdReturn, EdIm, EdMisc;
      var y := sub / 8 % 8;
      match sub % 8
      case 2 => t := EdArithmetic(y);
      case 3 => t := EdLoadPair(y);
      case 4 => t := EdNegate();
      case 5 => t := EdReturnFrom();
      case 6 => t := EdMode(y);
      case 0 => t := EdPortIn(y);
      case 1 => t := EdPortOut(y);
      case _ => t := EdMiscellany(y);
    }

    method ExecuteEdPrefix() returns (t: int)
      requires Valid()
      modifies this, Memory, Memory.Ram
      ensures Out(Snap(), t) == PrefixEd(old(Snap()))
    {
      hide EdQuad1, EdBlock, BumpR, W;
      var sub := FetchByte();
      R := BumpR(R);
      if Fx(sub) == 1 {
        t := EdQuadrant1(sub);
      } else if Fx(sub) == 2 && Fy(sub) >= 4 && Fz(sub) < 4 {
        t := EdBlockOp(Fy(sub), Fz(sub));
      } else {
        t := Retire(8);
      }
    }

    // ---- Interrupts and the outer step ------------------------------------------

    method BumpRefresh()
      requires Valid()
      modifies this`R
      ensures Snap() == Bump(old(Snap()))
    {
      hide BumpR, And, Or, B;
      RefreshMask(R);
      R := Or(And(R, 0x80), And(B(R + 1), 0x7F));
    }

    method Wake(iff2: bool)
      requires Valid()
      modifies this`Halted, this`IFF1, this`IFF2
      ensures Snap() == old(Snap()).(ints := old(Snap()).ints.(halted := false, iff1 := false, iff2 := iff2))
    {
      Halted := false;
      SetSwitches(false, iff2);
    }

    method TakeNmi() returns (t: int)
      requires Valid()
      modifies this, Memory.Ram
      ensures Out(Snap(), t) == AcceptNmi(old(Snap()))
    {
      hide BumpR, Push;
      Wake(IFF1);
      CallTo(0x66);
      R := BumpR(R);
      t := Retire(11);
    }

    method TakeIrq() returns (t: int)
      requires Valid()
      modifies this, Memory.Ram
      ensures Out(Snap(), t) == AcceptIrq(old(Snap()))
    {
      hide BumpR, Push, ReadWord;
      Wake(false);
      var cycles := 13;
      CallTo(0x38);
      if IM == 2 {
        PC := Memory.ReadWord16(I * 0x100 + 0xFF);
        cycles := 19;
      }
      BumpRefresh();
      t := Retire(cycles);
    }

    /** One call of ExecuteOne is one Step. */
    method ExecuteOne() returns (t: int)
      requires Valid()
      modifies this, Memory, Memory.Ram
      ensures Out(Snap(), t) == Step(old(Snap()))
    {
      hide Proceed;
      if !InStepMode && PC in EnabledBreakpoints {
        return -1;
      }
      InStepMode := false;
      t := ExecuteArmed();
    }

    method ExecuteArmed() returns (t: int)
      requires Valid()
      modifies this, Memory, Memory.Ram
      ensures Out(Snap(), t) == Proceed(old(Snap()))
    {
      hide AcceptNmi, AcceptIrq, Execute, BumpR;
      if NmiPending {
        NmiPending := false;
        t := TakeNmi();
        return;
      }
      if IrqLine && IFF1 && !EiDelayPending {
        t := TakeIrq();
        return;
      }
      if EiDelayPending { EiDelayPending := false; }
      if Halted {
        R := BumpR(R);
        t := Retire(4);
        return;
      }
      t := ExecuteFetched();
    }

    method ExecuteFetched() returns (t: int)
      requires Valid()
      modifies this, Memory, Memory.Ram
      ensures Out(Snap(), t) == Execute(old(Snap()))
    {
      hide Plain, PrefixDdFd, PrefixEd, BumpR, W;
      var opcode := FetchByte();
      R := BumpR(R);
      if opcode == 0xDD {
        t := ExecuteWithIndex(Index.IX);
      } else if opcode == 0xFD {
        t := ExecuteWithIndex(Index.IY);
      } else if opcode == 0xED {
        t := ExecuteEdPrefix();
      } else {
        t := ExecutePlain(opcode);
      }
    }
  }
}
