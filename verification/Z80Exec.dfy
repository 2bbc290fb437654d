/**
 The unprefixed and CB-prefixed instructions. An opcode is read as its octal fields
 x = bits 7-6, y = bits 5-3, z = bits 2-0; there is one function for each row (x, z) of
 the table. The argument s is the state after the opcode fetch and its R increment.
 */
module Z80Exec {
  import opened Bytes
  import opened Z80State
  import opened Z80Alu

  function Fx(op: byte): int { op / 0x40 }
  function Fy(op: byte): (y: int)
    ensures 0 <= y < 8
  {
    op / 8 % 8
  }
  function Fz(op: byte): (z: int)
    ensures 0 <= z < 8
  {
    op % 8
  }

  /** A := result, F := flags. */
  function SetRes(s: Cpu, r: Res): Cpu { s.(af := Pair(r.v, r.f)) }

  function Alu(s: Cpu, op: int, v: byte): Cpu { SetRes(s, AluOp(op, RegA(s), v, RegF(s))) }

  /** The relative jump taken from the address after the displacement byte. */
  function Rel(s: Cpu): word { W(s.pc + 1 + Signed(Imm8(s))) }

  function Jump(s: Cpu, taken: bool): Cpu {
    var s1 := Adv(s, 1);
    if taken then s1.(pc := Rel(s)) else s1
  }

  function Call(s: Cpu): Cpu {
    var nn := Imm16(s);
    var s1 := Adv(s, 2);
    Push(s1, s1.pc).(pc := nn)
  }

  function Return(s: Cpu): Cpu { Pop(s).(pc := ReadWord(s.ram, s.sp)) }

  // ---- Quadrant 0 --------------------------------------------------------------

  function X0Z0(s: Cpu, y: int): Out {
    if y == 0 then Done(s, 4)
    else if y == 1 then Done(s.(af := s.alt.af, alt := s.alt.(af := s.af)), 4)
    else if y == 2 then
      var b := B(Hi(s.bc) - 1);
      var s1 := s.(bc := Pair(b, Lo(s.bc)));
      if b != 0 then Done(Jump(s1, true), 13) else Done(Jump(s1, false), 8)
    else if y == 3 then Done(Jump(s, true), 12)
    else if Cond(RegF(s), y - 4) then Done(Jump(s, true), 12)
    else Done(Jump(s, false), 7)
  }

  function X0Z1(s: Cpu, y: int): Out {
    if y % 2 == 0 then Done(WrPair(Adv(s, 2), y / 2, Imm16(s)), 10)
    else
      var r := Add16(s.hl, RdPair(s, y / 2), RegF(s));
      Done(SetF(s.(hl := r.v), r.f), 11)
  }

  function X0Z2(s: Cpu, y: int): Out {
    var nn := Imm16(s);
    if y == 0 then Done(s.(ram := s.ram[s.bc := RegA(s)]), 7)
    else if y == 1 then Done(SetA(s, s.ram[s.bc]), 7)
    else if y == 2 then Done(s.(ram := s.ram[s.de := RegA(s)]), 7)
    else if y == 3 then Done(SetA(s, s.ram[s.de]), 7)
    else if y == 4 then Done(Adv(s, 2).(ram := WriteWord(s.ram, nn, s.hl)), 16)
    else if y == 5 then Done(Adv(s, 2).(hl := ReadWord(s.ram, nn)), 16)
    else if y == 6 then Done(Adv(s, 2).(ram := s.ram[nn := RegA(s)]), 13)
    else Done(SetA(Adv(s, 2), s.ram[nn]), 13)
  }

  function X0Z3(s: Cpu, y: int): Out {
    Done(WrPair(s, y / 2, W(RdPair(s, y / 2) + if y % 2 == 0 then 1 else -1)), 6)
  }

  function IncDec(s: Cpu, y: int, dec: bool): Out
    requires 0 <= y < 8
  {
    var v := Rd8(s, y);
    var r := if dec then Dec8(v, RegF(s)) else Inc8(v, RegF(s));
    Done(SetF(Wr8(s, y, r.v), r.f), if y == 6 then 11 else 4)
  }

  function X0Z6(s: Cpu, y: int): Out
    requires 0 <= y < 8
  {
    Done(Wr8(Adv(s, 1), y, Imm8(s)), if y == 6 then 10 else 7)
  }

  function X0Z7(s: Cpu, y: int): Out { Done(SetRes(s, AccOp(y, RegA(s), RegF(s))), 4) }

  // ---- Quadrants 1 and 2 -----------------------------------------------------------

  function LdReg(s: Cpu, y: int, z: int): Out
    requires 0 <= y < 8 && 0 <= z < 8
  {
    if y == 6 && z == 6 then Done(s.(ints := s.ints.(halted := true)), 4)
    else Done(Wr8(s, y, Rd8(s, z)), if y == 6 || z == 6 then 7 else 4)
  }

  function AluReg(s: Cpu, y: int, z: int): Out
    requires 0 <= z < 8
  {
    Done(Alu(s, y, Rd8(s, z)), if z == 6 then 7 else 4)
  }

  // ---- Quadrant 3 ------------------------------------------------------------------

  function X3Z0(s: Cpu, y: int): Out {
    if Cond(RegF(s), y) then Done(Return(s), 11) else Done(s, 5)
  }

  function X3Z1(s: Cpu, y: int): Out {
    if y % 2 == 0 then Done(WrPairAf(Pop(s), y / 2, ReadWord(s.ram, s.sp)), 10)
    else if y == 1 then Done(Return(s), 10)
    else if y == 3 then
      Done(s.(bc := s.alt.bc, de := s.alt.de, hl := s.alt.hl,
              alt := s.alt.(bc := s.bc, de := s.de, hl := s.hl)), 4)
    else if y == 5 then Done(s.(pc := s.hl), 4)
    else Done(s.(sp := s.hl), 6)
  }

  function X3Z2(s: Cpu, y: int): Out {
    var s1 := Adv(s, 2);
    Done(if Cond(RegF(s), y) then s1.(pc := Imm16(s)) else s1, 10)
  }

  /** The instruction CB cb, its second byte fetched and counted in R. */
  function Cb(s: Cpu, cb: byte): Out {
    var idx, reg := Fy(cb), Fz(cb);
    var v := Rd8(s, reg);
    if Fx(cb) == 0 then
      var r := Rot(idx, v, RegF(s));
      Done(Wr8(SetF(s, r.f), reg, r.v), if reg == 6 then 15 else 8)
    else if Fx(cb) == 1 then
      Done(SetF(s, BitFlags(idx, v, if reg == 6 then Hi(s.hl) else v, RegF(s))), if reg == 6 then 12 else 8)
    else if Fx(cb) == 2 then Done(Wr8(s, reg, ResBit(idx, v)), if reg == 6 then 15 else 8)
    else Done(Wr8(s, reg, SetBit(idx, v)), if reg == 6 then 15 else 8)
  }

  function X3Z3(s: Cpu, y: int): Out {
    if y == 0 then Done(Adv(s, 2).(pc := Imm16(s)), 10)
    else if y == 1 then Cb(Bump(Adv(s, 1)), Imm8(s))
    else if y == 2 then Done(OutTo(Adv(s, 1), Imm8(s), RegA(s)), 11)
    else if y == 3 then Done(SetA(InFrom(Adv(s, 1), Imm8(s)), PortValue(s)), 11)
    else if y == 4 then
      Done(s.(hl := ReadWord(s.ram, s.sp), ram := WriteWord(s.ram, s.sp, s.hl)), 19)
    else if y == 5 then Done(s.(de := s.hl, hl := s.de), 4)
    else if y == 6 then Done(s.(ints := s.ints.(iff1 := false, iff2 := false)), 4)
    else Done(s.(ints := s.ints.(iff1 := true, iff2 := true, eiDelay := true)), 4)
  }

  function X3Z4(s: Cpu, y: int): Out {
    if Cond(RegF(s), y) then Done(Call(s), 17) else Done(Adv(s, 2), 10)
  }

  /** The prefix bytes DD, ED and FD have no meaning of their own: a trap, PC moved back. */
  function X3Z5(s: Cpu, y: int): Out {
    if y % 2 == 0 then Done(Push(s, RdPairAf(s, y / 2)), 11)
    else if y == 1 then Done(Call(s), 17)
    else Out(s.(pc := W(s.pc - 1)), 0)
  }

  function X3Z6(s: Cpu, y: int): Out { Done(Alu(Adv(s, 1), y, Imm8(s)), 7) }

  function X3Z7(s: Cpu, y: int): Out { Done(Push(s, s.pc).(pc := W(8 * y)), 11) }

  // ---- The table -------------------------------------------------------------------

  function Quad0(s: Cpu, op: byte): Out {
    var y := Fy(op);
    match Fz(op)
    case 0 => X0Z0(s, y)
    case 1 => X0Z1(s, y)
    case 2 => X0Z2(s, y)
    case 3 => X0Z3(s, y)
    case 4 => IncDec(s, y, false)
    case 5 => IncDec(s, y, true)
    case 6 => X0Z6(s, y)
    case _ => X0Z7(s, y)
  }

  function Quad3(s: Cpu, op: byte): Out {
    var y := Fy(op);
    match Fz(op)
    case 0 => X3Z0(s, y)
    case 1 => X3Z1(s, y)
    case 2 => X3Z2(s, y)
    case 3 => X3Z3(s, y)
    case 4 => X3Z4(s, y)
    case 5 => X3Z5(s, y)
    case 6 => X3Z6(s, y)
    case _ => X3Z7(s, y)
  }

  function Plain(s: Cpu, op: byte): Out {
    if Fx(op) == 0 then Quad0(s, op)
    else if Fx(op) == 1 then LdReg(s, Fy(op), Fz(op))
    else if Fx(op) == 2 then AluReg(s, Fy(op), Fz(op))
    else Quad3(s, op)
  }
}
