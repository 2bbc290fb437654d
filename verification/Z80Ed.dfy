/** The ED prefix: 16-bit carry arithmetic, port access, returns from interrupt, block operations. */
module Z80Ed {
  import opened Bytes
  import opened Z80State
  import opened Z80Alu
  import opened Z80Exec

  // ---- Quadrant 1 ---------------------------------------------------------------

  function EdIn(s: Cpu, y: int): Out
    requires 0 <= y < 8
  {
    var v := PortValue(s);
    var s1 := InFrom(s, Lo(s.bc));
    var s2 := if y == 6 then s1 else Wr8(s1, y, v);
    Done(SetF(s2, InFlags(v, RegF(s2))), 12)
  }

  function EdOut(s: Cpu, y: int): Out
    requires 0 <= y < 8
  {
    Done(OutTo(s, Lo(s.bc), if y == 6 then 0 else Rd8(s, y)), 12)
  }

  function EdArith(s: Cpu, y: int): Out {
    var r := if y % 2 == 0 then Sbc16(s.hl, RdPair(s, y / 2), RegF(s))
             else Adc16(s.hl, RdPair(s, y / 2), RegF(s));
    Done(SetF(s, r.f).(hl := r.v), 15)
  }

  function EdLdPair(s: Cpu, y: int): Out {
    var nn := Imm16(s);
    var s1 := Adv(s, 2);
    Done(if y % 2 == 0 then s1.(ram := WriteWord(s.ram, nn, RdPair(s, y / 2)))
         else WrPair(s1, y / 2, ReadWord(s.ram, nn)), 20)
  }

  function EdNeg(s: Cpu): Out { Done(SetRes(s, AluSub(0, RegA(s), false)), 8) }

  /** RETN and RETI alike: IFF1 := IFF2. */
  function EdReturn(s: Cpu): Out {
    Done(Return(s).(ints := s.ints.(iff1 := s.ints.iff2)), 14)
  }

  function EdIm(s: Cpu, y: int): Out {
    var im := if y == 2 || y == 6 then 1 else if y == 3 || y == 7 then 2 else 0;
    Done(s.(ints := s.ints.(im := im)), 8)
  }

  /** LD A,I and LD A,R copy IFF2 into P/V. */
  function EdLdA(s: Cpu, v: byte): Out {
    Done(SetRes(s, Res(v, MkF(Neg(v), v == 0, B5(v), false, B3(v), s.ints.iff2, false, FC(RegF(s))))), 9)
  }

  /** RRD and RLD: rotate the three low nibbles of A and (HL). */
  function EdNibbles(s: Cpu, left: bool): Out {
    var a, m := RegA(s), s.ram[s.hl];
    var a1 := a / 0x10 * 0x10 + (if left then m / 0x10 else m % 0x10);
    var m1 := if left then m % 0x10 * 0x10 + a % 0x10 else a % 0x10 * 0x10 + m / 0x10;
    Done(SetRes(s, Res(a1, InFlags(a1, RegF(s)))).(ram := s.ram[s.hl := m1]), 18)
  }

  function EdMisc(s: Cpu, y: int): Out {
    if y == 0 then Done(s.(i := RegA(s)), 9)
    else if y == 1 then Done(s.(r := RegA(s)), 9)
    else if y == 2 then EdLdA(s, s.i)
    else if y == 3 then EdLdA(s, s.r)
    else if y == 4 then EdNibbles(s, false)
    else if y == 5 then EdNibbles(s, true)
    else Done(s, 8)
  }

  function EdQuad1(s: Cpu, op: byte): Out {
    var y := Fy(op);
    match Fz(op)
    case 0 => EdIn(s, y)
    case 1 => EdOut(s, y)
    case 2 => EdArith(s, y)
    case 3 => EdLdPair(s, y)
    case 4 => EdNeg(s)
    case 5 => EdReturn(s)
    case 6 => EdIm(s, y)
    case _ => EdMisc(s, y)
  }

  // ---- Block operations ------------------------------------------------------------

  /** One LDI or LDD: d is +1 or -1. Y and X are bits 1 and 3 of A plus the byte moved. */
  function LdMove(s: Cpu, d: int): Cpu {
    var v := s.ram[s.hl];
    var bc := W(s.bc - 1);
    var n := B(RegA(s) + v);
    var f := RegF(s);
    SetF(s.(ram := s.ram[s.de := v], hl := W(s.hl + d), de := W(s.de + d), bc := bc),
         MkF(FS(f), FZ(f), N1(n), false, B3(n), bc != 0, false, FC(f)))
  }

  /** A - (HL) is zero: the block comparison has found its byte. */
  predicate Matches(s: Cpu) { B(RegA(s) - s.ram[s.hl]) == 0 }

  /** One CPI or CPD. */
  function CpStep(s: Cpu, d: int): Cpu {
    var a, v := RegA(s), s.ram[s.hl];
    var r := B(a - v);
    var h := a % 0x10 - v % 0x10 < 0;
    var n := B(r - Num(h));
    var bc := W(s.bc - 1);
    SetF(s.(hl := W(s.hl + d), bc := bc),
         MkF(Neg(r), r == 0, N1(n), h, B3(n), bc != 0, true, FC(RegF(s))))
  }

  function IoFlags(b: byte): byte { MkF(Neg(b), b == 0, B5(b), false, B3(b), false, true, false) }

  function InStep(s: Cpu, d: int): Cpu {
    var s1 := InFrom(s, Lo(s.bc));
    var b := B(Hi(s.bc) - 1);
    SetF(s1.(ram := s1.ram[s.hl := PortValue(s)], hl := W(s.hl + d), bc := Pair(b, Lo(s.bc))), IoFlags(b))
  }

  function OutStep(s: Cpu, d: int): Cpu {
    var b := B(Hi(s.bc) - 1);
    SetF(OutTo(s, Lo(s.bc), s.ram[s.hl]).(hl := W(s.hl + d), bc := Pair(b, Lo(s.bc))), IoFlags(b))
  }

  /** A repeating form moves PC back onto its own prefix byte to run again. */
  function Repeat(s: Cpu, again: bool): Out {
    if again then Done(s.(pc := W(s.pc - 2)), 21) else Done(s, 16)
  }

  /** Rows 4 to 7 of quadrant 2: bit 0 of y is the direction, bit 1 the repetition. */
  function EdBlock(s: Cpu, y: int, z: int): Out {
    var d := if y % 2 == 0 then 1 else -1;
    var rep := y >= 6;
    if z == 0 then var s1 := LdMove(s, d); Repeat(s1, rep && s1.bc != 0)
    else if z == 1 then var s1 := CpStep(s, d); Repeat(s1, rep && !Matches(s) && s1.bc != 0)
    else if z == 2 then var s1 := InStep(s, d); Repeat(s1, rep && Hi(s1.bc) != 0)
    else var s1 := OutStep(s, d); Repeat(s1, rep && Hi(s1.bc) != 0)
  }

  /** The suffix op has been fetched and R incremented for it; unassigned slots are NOPs. */
  function Ed(s: Cpu, op: byte): Out {
    if Fx(op) == 1 then EdQuad1(s, op)
    else if Fx(op) == 2 && Fy(op) >= 4 && Fz(op) < 4 then EdBlock(s, Fy(op), Fz(op))
    else Done(s, 8)
  }
}
