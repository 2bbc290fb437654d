/** EM8 instructions: the opcode table and what each instruction does. */
module Em8Exec {
  import opened Bytes
  import opened Em8State

  datatype Mode = Imm | Zpg | ZpgX | Abs | AbsX | Ind
  datatype Reg = A | X | Y
  datatype AluOp = Add | Sub | AndA | Ora | Xora | Cmp | Cpx | Cpy
  datatype ShiftOp = Asl | Lsr | Rol | Ror

  datatype Instr =
    | Alu(op: AluOp, mode: Mode)
    | Shift(sh: ShiftOp)
    | Bump(reg: Reg, up: bool)
    | Branch(flag: byte, taken: bool)
    | Bra | Jmp | Jsr | Rts | Rti
    | Pha | Pla | Phf | Plf
    | Transfer(from: Reg, to: Reg)
    | Txs | Tsx
    | Flag(f: byte, v: bool)
    | Nop | Brk | Hlt
    | Load(reg: Reg, mode: Mode)
    | Store(reg: Reg, mode: Mode)
    | Undefined

  function DecodeAlu(op: byte): Instr {
    match op
    case 0x10 => Alu(Add, Imm) case 0x11 => Alu(Add, Zpg) case 0x12 => Alu(Add, Abs)
    case 0x14 => Alu(Sub, Imm) case 0x15 => Alu(Sub, Zpg) case 0x16 => Alu(Sub, Abs)
    case 0x18 => Alu(AndA, Imm) case 0x19 => Alu(AndA, Zpg)
    case 0x1C => Alu(Ora, Imm) case 0x1D => Alu(Ora, Zpg)
    case 0x20 => Alu(Xora, Imm) case 0x21 => Alu(Xora, Zpg)
    case 0x24 => Alu(Cmp, Imm) case 0x25 => Alu(Cmp, Zpg) case 0x26 => Alu(Cmp, Abs)
    case 0x38 => Alu(Cpx, Imm) case 0x3C => Alu(Cpy, Imm)
    case 0x40 => Shift(Asl) case 0x41 => Shift(Lsr) case 0x42 => Shift(Rol) case 0x43 => Shift(Ror)
    case 0x48 => Bump(A, true) case 0x49 => Bump(A, false)
    case 0x4A => Bump(X, true) case 0x4B => Bump(X, false)
    case 0x4C => Bump(Y, true) case 0x4D => Bump(Y, false)
    case _ => Undefined
  }

  function DecodeControl(op: byte): Instr {
    match op
    case 0x50 => Branch(FLAG_Z, true) case 0x51 => Branch(FLAG_Z, false)
    case 0x52 => Branch(FLAG_C, true) case 0x53 => Branch(FLAG_C, false)
    case 0x54 => Branch(FLAG_N, true) case 0x55 => Branch(FLAG_N, false)
    case 0x56 => Branch(FLAG_V, true) case 0x57 => Branch(FLAG_V, false)
    case 0x58 => Bra
    case 0x60 => Jmp case 0x61 => Jsr case 0x62 => Rts case 0x63 => Rti
    case 0x70 => Pha case 0x71 => Pla case 0x72 => Phf case 0x73 => Plf
    case _ => Undefined
  }

  function DecodeData(op: byte): Instr {
    match op
    case 0x80 => Transfer(A, X) case 0x81 => Transfer(X, A)
    case 0x82 => Transfer(A, Y) case 0x83 => Transfer(Y, A)
    case 0x84 => Txs case 0x85 => Tsx
    case 0x90 => Flag(FLAG_C, false) case 0x91 => Flag(FLAG_C, true)
    case 0x92 => Flag(FLAG_I, false) case 0x93 => Flag(FLAG_I, true)
    case 0x94 => Flag(FLAG_V, false)
    case 0x98 => Nop case 0x99 => Brk case 0x9A => Hlt
    case 0xA0 => Load(A, Imm) case 0xA1 => Load(A, Zpg) case 0xA2 => Load(A, Abs)
    case 0xA3 => Load(A, ZpgX) case 0xA4 => Load(A, AbsX) case 0xA5 => Load(A, Ind)
    case 0xA6 => Load(X, Imm) case 0xA7 => Load(X, Zpg) case 0xA8 => Load(X, Abs)
    case 0xA9 => Load(Y, Imm) case 0xAA => Load(Y, Zpg) case 0xAB => Load(Y, Abs)
    case 0xAC => Store(A, Zpg) case 0xAD => Store(A, Abs)
    case 0xAE => Store(A, ZpgX) case 0xAF => Store(A, AbsX) case 0xB0 => Store(A, Ind)
    case 0xB1 => Store(X, Zpg) case 0xB2 => Store(X, Abs)
    case 0xB3 => Store(Y, Zpg) case 0xB4 => Store(Y, Abs)
    case _ => Undefined
  }

  function Decode(op: byte): Instr {
    if op < 0x50 then DecodeAlu(op) else if op < 0x80 then DecodeControl(op) else DecodeData(op)
  }

  // ---- Operands -------------------------------------------------------------------------

  function EaV(s: Cpu, m: Mode): word {
    match m
    case Imm => s.pc
    case Zpg => FetchV(s)
    case ZpgX => B(FetchV(s) + s.x)
    case Abs => Fetch16V(s)
    case AbsX => W(Fetch16V(s) + s.x)
    case Ind => var zp := FetchV(s); Pair(s.ram[B(zp + 1)], s.ram[zp])
  }

  function EaS(s: Cpu, m: Mode): Cpu {
    match m
    case Imm => s
    case Abs => Fetch16S(s)
    case AbsX => Fetch16S(s)
    case _ => FetchS(s)
  }

  function OperandV(s: Cpu, m: Mode): byte { if m.Imm? then FetchV(s) else ReadV(EaS(s, m), EaV(s, m)) }
  function OperandS(s: Cpu, m: Mode): Cpu { if m.Imm? then FetchS(s) else ReadS(EaS(s, m), EaV(s, m)) }

  function RegOf(s: Cpu, r: Reg): byte { match r case A => s.a case X => s.x case Y => s.y }
  function SetReg(s: Cpu, r: Reg, v: byte): Cpu {
    match r case A => s.(a := v) case X => s.(x := v) case Y => s.(y := v)
  }

  // ---- Arithmetic -----------------------------------------------------------------------

  function Carry(s: Cpu): int { if Has(s.fl, FLAG_C) then 1 else 0 }

  /** The source tells overflow from the three sign bits. */
  function DoAdd(s: Cpu, v: byte): Cpu {
    var sum := s.a + v + Carry(s);
    var overflow := Neg(s.a) == Neg(v) && Neg(s.a) != Neg(B(sum));
    SetNZ(SetFlag(SetFlag(s, FLAG_C, sum > 0xFF), FLAG_V, overflow).(a := B(sum)), B(sum))
  }

  function DoSub(s: Cpu, v: byte): Cpu {
    var diff := s.a + (0xFF - v) + Carry(s);
    var overflow := Neg(s.a) != Neg(v) && Neg(s.a) != Neg(B(diff));
    SetNZ(SetFlag(SetFlag(s, FLAG_C, diff > 0xFF), FLAG_V, overflow).(a := B(diff)), B(diff))
  }

  function DoCmp(s: Cpu, reg: byte, v: byte): Cpu {
    SetFlag(SetFlag(SetFlag(s, FLAG_C, reg >= v), FLAG_Z, reg == v), FLAG_N, Neg(B(reg - v)))
  }

  function ToA(s: Cpu, v: byte): Cpu { SetNZ(s.(a := v), v) }

  function DoAlu(s: Cpu, op: AluOp, v: byte): Cpu {
    match op
    case Add => DoAdd(s, v)
    case Sub => DoSub(s, v)
    case AndA => ToA(s, And(s.a, v))
    case Ora => ToA(s, Or(s.a, v))
    case Xora => ToA(s, Xor(s.a, v))
    case Cmp => DoCmp(s, s.a, v)
    case Cpx => DoCmp(s, s.x, v)
    case Cpy => DoCmp(s, s.y, v)
  }

  function DoShift(s: Cpu, sh: ShiftOp): Cpu {
    var c := match sh case Asl => Neg(s.a) case Lsr => s.a % 2 == 1 case Rol => Neg(s.a) case Ror => s.a % 2 == 1;
    var r := match sh
      case Asl => B(2 * s.a)
      case Lsr => s.a / 2
      case Rol => B(2 * s.a + Carry(s))
      case Ror => s.a / 2 + 0x80 * Carry(s);
    ToA(SetFlag(s, FLAG_C, c), r)
  }

  function DoBump(s: Cpu, r: Reg, up: bool): Cpu {
    var v := B(RegOf(s, r) + if up then 1 else -1);
    SetNZ(SetReg(s, r, v), v)
  }

  // ---- Control --------------------------------------------------------------------------

  function BranchIf(s: Cpu, taken: bool): Cpu {
    var s1 := FetchS(s);
    if taken then s1.(pc := W(s1.pc + Signed(FetchV(s)))) else s1
  }

  /** The return address pushed is that of JSR's last byte; the shadow stack takes the real one. */
  function DoJsr(s: Cpu): Cpu {
    var s1 := Fetch16S(s);
    var s2 := Push16(s1, W(s1.pc - 1));
    var s3 := if |s2.shadow| < MAX_SHADOW_STACK then s2.(shadow := s2.shadow + [s1.pc]) else s2;
    s3.(pc := Fetch16V(s))
  }

  function DoRts(s: Cpu): Cpu {
    var s1 := Pull16S(s).(pc := W(Pull16V(s) + 1));
    if |s1.shadow| > 0 then s1.(shadow := s1.shadow[..|s1.shadow| - 1]) else s1
  }

  function DoRti(s: Cpu): Cpu {
    var s1 := Pull8S(s);
    Pull16S(s1).(fl := Pull8V(s), pc := Pull16V(s1))
  }

  /** BRK skips a signature byte and pushes the flags with B set. */
  function DoBrk(s: Cpu): Cpu { EnterHandler(s.(pc := W(s.pc + 1)), Or(s.fl, FLAG_B), 0xFFFE) }

  /** The stack instructions. */
  function ExecStack(s: Cpu, i: Instr): Cpu {
    match i
    case Jsr => DoJsr(s)
    case Rts => DoRts(s)
    case Rti => DoRti(s)
    case Brk => DoBrk(s)
    case Pha => Push8(s, s.a)
    case Phf => Push8(s, s.fl)
    case Pla => ToA(Pull8S(s), Pull8V(s))
    case _ => Pull8S(s).(fl := Pull8V(s))
  }

  predicate IsStack(i: Instr) { i.Jsr? || i.Rts? || i.Rti? || i.Brk? || i.Pha? || i.Phf? || i.Pla? || i.Plf? }

  /** Every instruction but stores and stack instructions; `s` is the state after the opcode fetch. */
  function ExecPlain(s: Cpu, i: Instr): Cpu {
    match i
    case Alu(op, m) => DoAlu(OperandS(s, m), op, OperandV(s, m))
    case Shift(sh) => DoShift(s, sh)
    case Bump(r, up) => DoBump(s, r, up)
    case Branch(f, v) => BranchIf(s, Has(s.fl, f) == v)
    case Bra => BranchIf(s, true)
    case Jmp => Fetch16S(s).(pc := Fetch16V(s))
    case Transfer(from, to) => SetNZ(SetReg(s, to, RegOf(s, from)), RegOf(s, from))
    case Txs => s.(sp := s.x)
    case Tsx => SetNZ(s.(x := s.sp), s.sp)
    case Flag(f, v) => SetFlag(s, f, v)
    case Hlt => s.(halted := true)
    case Load(r, m) => SetNZ(SetReg(OperandS(s, m), r, OperandV(s, m)), OperandV(s, m))
    case Undefined => s.(halted := true, pc := W(s.pc - 1))
    case _ => s
  }

  function ExecStore(s: Cpu, r: Reg, m: Mode): Cpu { Write(EaS(s, m), EaV(s, m), RegOf(s, r)) }

  function Exec(s: Cpu, i: Instr): Cpu {
    if IsStack(i) then ExecStack(s, i) else if i.Store? then ExecStore(s, i.reg, i.mode) else ExecPlain(s, i)
  }

  function ModeCycles(m: Mode): nat {
    match m case Imm => 2 case Zpg => 3 case ZpgX => 4 case Abs => 4 case AbsX => 4 case Ind => 5
  }

  /** Cycles; for a branch `taken` says whether it is taken. */
  function Cost(i: Instr, taken: bool): nat {
    match i
    case Alu(_, m) => ModeCycles(m)
    case Load(_, m) => ModeCycles(m)
    case Store(_, m) => if m.AbsX? || m.Ind? then ModeCycles(m) + 1 else ModeCycles(m)
    case Branch(_, _) => if taken then 3 else 2
    case Bra => 3 case Jmp => 3 case Jsr => 6 case Rts => 6 case Rti => 7 case Brk => 7
    case Pha => 3 case Phf => 3 case Pla => 4 case Plf => 4
    case _ => 2
  }

  predicate Taken(s: Cpu, i: Instr) { i.Branch? && Has(s.fl, i.flag) == i.taken }

  function InstrAt(s: Cpu): Instr { Decode(FetchV(s)) }

  function Step(s: Cpu): Cpu {
    if s.halted then s
    else
      var i := InstrAt(s);
      var t := Exec(FetchS(s), i);
      t.(cycles := t.cycles + Cost(i, Taken(s, i)), instrs := t.instrs + 1)
  }
}
