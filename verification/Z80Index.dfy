/**
 The DD and FD prefixes: instructions on IX or IY. As in the source the dispatcher does not
 reuse the unprefixed one, so that the two agree is a theorem (module Z80Prefix), not a
 definition.
 */
module Z80Index {
  import opened Bytes
  import opened Z80State
  import opened Z80Alu
  import opened Z80Exec

  datatype Index = IX | IY

  function GetI(s: Cpu, i: Index): word { if i.IX? then s.ix else s.iy }
  function SetI(s: Cpu, i: Index, v: word): Cpu { if i.IX? then s.(ix := v) else s.(iy := v) }

  /** The address IX+d, with the displacement byte at PC. */
  function Ea(s: Cpu, i: Index): word { W(GetI(s, i) + Signed(Imm8(s))) }

  /** Register codes 4 and 5 name the halves of the index register. */
  function RdI8(s: Cpu, i: Index, code: int): byte
    requires 0 <= code < 8
  {
    if code == 4 then Hi(GetI(s, i)) else if code == 5 then Lo(GetI(s, i)) else Rd8(s, code)
  }

  function WrI8(s: Cpu, i: Index, code: int, v: byte): Cpu
    requires 0 <= code < 8
  {
    if code == 4 then SetI(s, i, Pair(v, Lo(GetI(s, i))))
    else if code == 5 then SetI(s, i, Pair(Hi(GetI(s, i)), v))
    else Wr8(s, code, v)
  }

  predicate Half8(code: int) { code == 4 || code == 5 }

  /** No such prefixed instruction: the prefix was a 4 T-state NOP, PC goes back to the suffix. */
  function Ignored(s: Cpu): Out { Done(s.(pc := W(s.pc - 1)), 4) }

  // ---- Operations on the whole register ------------------------------------------

  function IdxZ1(s: Cpu, i: Index, y: int): Out {
    if y % 2 == 1 then
      var a := if y / 2 == 2 then GetI(s, i) else RdPair(s, y / 2);
      var r := Add16(GetI(s, i), a, RegF(s));
      Done(SetF(SetI(s, i, r.v), r.f), 15)
    else if y == 4 then Done(SetI(Adv(s, 2), i, Imm16(s)), 14)
    else Ignored(s)
  }

  function IdxZ2(s: Cpu, i: Index, y: int): Out {
    if y == 4 then Done(Adv(s, 2).(ram := WriteWord(s.ram, Imm16(s), GetI(s, i))), 20)
    else if y == 5 then Done(SetI(Adv(s, 2), i, ReadWord(s.ram, Imm16(s))), 20)
    else Ignored(s)
  }

  function IdxZ3(s: Cpu, i: Index, y: int): Out {
    if y == 4 then Done(SetI(s, i, W(GetI(s, i) + 1)), 10)
    else if y == 5 then Done(SetI(s, i, W(GetI(s, i) - 1)), 10)
    else Ignored(s)
  }

  /** Quadrant 3 apart from CB: PUSH, POP, JP (IX), LD SP,IX. */
  function IdxStack(s: Cpu, i: Index, y: int, z: int): Out {
    if y == 4 && z == 5 then Done(Push(s, GetI(s, i)), 15)
    else if y == 4 && z == 1 then Done(SetI(Pop(s), i, ReadWord(s.ram, s.sp)), 14)
    else if y == 5 && z == 1 then Done(s.(pc := GetI(s, i)), 8)
    else if y == 7 && z == 1 then Done(s.(sp := GetI(s, i)), 10)
    else Ignored(s)
  }

  // ---- Operations on (IX+d) and on the halves ----------------------------------------

  function IdxIncDec(s: Cpu, i: Index, y: int, dec: bool): Out
    requires 0 <= y < 8
  {
    if y == 6 then
      var ea := Ea(s, i);
      var r := if dec then Dec8(s.ram[ea], RegF(s)) else Inc8(s.ram[ea], RegF(s));
      Done(SetF(Adv(s, 1).(ram := s.ram[ea := r.v]), r.f), 23)
    else if Half8(y) then
      var v := RdI8(s, i, y);
      var r := if dec then Dec8(v, RegF(s)) else Inc8(v, RegF(s));
      Done(SetF(WrI8(s, i, y, r.v), r.f), 8)
    else Ignored(s)
  }

  function IdxLdImm(s: Cpu, i: Index, y: int): Out
    requires 0 <= y < 8
  {
    if y == 6 then
      var s1 := Adv(s, 1);
      Done(Adv(s1, 1).(ram := s.ram[Ea(s, i) := Imm8(s1)]), 19)
    else if Half8(y) then Done(WrI8(Adv(s, 1), i, y, Imm8(s)), 11)
    else Ignored(s)
  }

  /** With (IX+d) as one operand, codes 4 and 5 of the other are still H and L. */
  function IdxLdReg(s: Cpu, i: Index, y: int, z: int): Out
    requires 0 <= y < 8 && 0 <= z < 8
  {
    if y == 6 && z == 6 then Ignored(s)
    else if z == 6 then Done(Wr8(Adv(s, 1), y, s.ram[Ea(s, i)]), 19)
    else if y == 6 then Done(Adv(s, 1).(ram := s.ram[Ea(s, i) := Rd8(s, z)]), 19)
    else if Half8(y) || Half8(z) then Done(WrI8(s, i, y, RdI8(s, i, z)), 8)
    else Ignored(s)
  }

  function IdxAlu(s: Cpu, i: Index, y: int, z: int): Out
    requires 0 <= z < 8
  {
    if z == 6 then Done(Alu(Adv(s, 1), y, s.ram[Ea(s, i)]), 19)
    else if Half8(z) then Done(Alu(s, y, RdI8(s, i, z)), 8)
    else Ignored(s)
  }

  /** DD CB d xx; s is the state before d is fetched. R moves once more for xx. */
  function IdxCb(s: Cpu, i: Index): Out {
    var ea := Ea(s, i);
    var cb := Imm8(Adv(s, 1));
    var s1 := Bump(Adv(Adv(s, 1), 1));
    var idx := Fy(cb);
    var v := s.ram[ea];
    if Fx(cb) == 0 then
      var r := Rot(idx, v, RegF(s1));
      Done(SetF(s1, r.f).(ram := s.ram[ea := r.v]), 23)
    else if Fx(cb) == 1 then Done(SetF(s1, BitFlags(idx, v, Hi(ea), RegF(s1))), 20)
    else if Fx(cb) == 2 then Done(s1.(ram := s.ram[ea := ResBit(idx, v)]), 23)
    else Done(s1.(ram := s.ram[ea := SetBit(idx, v)]), 23)
  }

  function IdxQuad0(s: Cpu, i: Index, op: byte): Out {
    var y := Fy(op);
    match Fz(op)
    case 1 => IdxZ1(s, i, y)
    case 2 => IdxZ2(s, i, y)
    case 3 => IdxZ3(s, i, y)
    case 4 => IdxIncDec(s, i, y, false)
    case 5 => IdxIncDec(s, i, y, true)
    case 6 => IdxLdImm(s, i, y)
    case _ => Ignored(s)
  }

  /** The suffix op has been fetched and R incremented for it. */
  function Indexed(s: Cpu, i: Index, op: byte): Out {
    if Fx(op) == 0 then IdxQuad0(s, i, op)
    else if Fx(op) == 1 then IdxLdReg(s, i, Fy(op), Fz(op))
    else if Fx(op) == 2 then IdxAlu(s, i, Fy(op), Fz(op))
    else if op == 0xCB then IdxCb(s, i)
    else IdxStack(s, i, Fy(op), Fz(op))
  }
}
