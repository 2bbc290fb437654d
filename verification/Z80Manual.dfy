/**
 The Z80's unprefixed, CB and ED instructions by opcode byte, told from scratch (Zilog, "Z80
 CPU User Manual"): the registers, flags, memory bytes and T-states each one leaves.
 */
module Z80Manual {
  import opened Bytes
  import opened Z80State
  import opened Z80Flags

  // ---- Registers, operands, counters ----------------------------------------------------------

  function Word(hi: byte, lo: byte): word { 256 * (hi as int) + (lo as int) }

  /** Byte and word at an address; the second address wraps. */
  function WordAt(m: Ram, a: word): word { Word(m[(a + 1) % 65536], m[a]) }
  function WithWord(m: Ram, a: word, v: word): Ram { m[a := v % 256][(a + 1) % 65536 := v / 256] }

  /** The operands behind an opcode of one byte. */
  function N(s: Cpu): byte { s.ram[(s.pc + 1) % 65536] }
  function NN(s: Cpu): word { Word(s.ram[(s.pc + 2) % 65536], N(s)) }

  /** The refresh register counts opcode fetches in seven bits. */
  function Refreshed(r: byte): byte { r / 128 * 128 + (r + 1) % 128 }

  /** PC behind an instruction of n bytes with one opcode byte. */
  function Past(s: Cpu, n: nat): Cpu {
    s.(pc := (s.pc + n) % 65536, r := Refreshed(s.r), fetched := s.fetched + n)
  }

  /** The instruction took t T-states. */
  function Took(s: Cpu, t: nat): Out { Out(s.(cycles := s.cycles + t, instrs := s.instrs + 1), t) }

  function A(s: Cpu): byte { s.af / 256 }
  function F(s: Cpu): byte { s.af % 256 }
  function WithAF(s: Cpu, r: (byte, byte)): Cpu { s.(af := Word(r.0, r.1)) }
  function WithF(s: Cpu, f: byte): Cpu { s.(af := Word(A(s), f)) }

  /** B, C, D, E, H, L, the byte at HL, A. */
  function Reg(s: Cpu, k: int): byte {
    match k
    case 0 => s.bc / 256
    case 1 => s.bc % 256
    case 2 => s.de / 256
    case 3 => s.de % 256
    case 4 => s.hl / 256
    case 5 => s.hl % 256
    case 6 => s.ram[s.hl]
    case _ => A(s)
  }

  function Put(s: Cpu, k: int, v: byte): Cpu {
    match k
    case 0 => s.(bc := Word(v, s.bc % 256))
    case 1 => s.(bc := Word(s.bc / 256, v))
    case 2 => s.(de := Word(v, s.de % 256))
    case 3 => s.(de := Word(s.de / 256, v))
    case 4 => s.(hl := Word(v, s.hl % 256))
    case 5 => s.(hl := Word(s.hl / 256, v))
    case 6 => s.(ram := s.ram[s.hl := v])
    case _ => s.(af := Word(v, F(s)))
  }

  /** BC, DE, HL, SP. */
  function Wide(s: Cpu, k: int): word {
    match k case 0 => s.bc case 1 => s.de case 2 => s.hl case _ => s.sp
  }

  function PutWide(s: Cpu, k: int, v: word): Cpu {
    match k case 0 => s.(bc := v) case 1 => s.(de := v) case 2 => s.(hl := v) case _ => s.(sp := v)
  }

  /** NZ, Z, NC, C, PO, PE, P, M. */
  predicate Condition(f: byte, k: int) {
    match k
    case 0 => !ZeroOf(f)
    case 1 => ZeroOf(f)
    case 2 => !CarryOf(f)
    case 3 => CarryOf(f)
    case 4 => !ParityOf(f)
    case 5 => ParityOf(f)
    case 6 => !SignOf(f)
    case _ => SignOf(f)
  }

  /** The address behind a relative jump, d bytes on. */
  function Relative(s: Cpu): word { (s.pc + 2 + Value(N(s))) % 65536 }

  function Pushed(s: Cpu, v: word): Cpu {
    var sp := (s.sp - 2) % 65536;
    s.(sp := sp, ram := WithWord(s.ram, sp, v))
  }

  function Popped(s: Cpu): Cpu { s.(sp := (s.sp + 2) % 65536) }

  // ---- 00 to 3F ---------------------------------------------------------------------------------

  /** NOP, EX AF,AF', DJNZ, JR and JR NZ, Z, NC, C. */
  function Control0(s: Cpu, op: byte): Out {
    match op
    case 0x00 => Took(Past(s, 1), 4)
    case 0x08 => Took(Past(s, 1).(af := s.alt.af, alt := s.alt.(af := s.af)), 4)
    case 0x10 =>
      var b: byte := (s.bc / 256 - 1) % 256;
      var t := Past(s, 2).(bc := Word(b, s.bc % 256));
      if b != 0 then Took(t.(pc := Relative(s)), 13) else Took(t, 8)
    case 0x18 => Took(Past(s, 2).(pc := Relative(s)), 12)
    case _ =>
      var k := match op case 0x20 => 0 case 0x28 => 1 case 0x30 => 2 case _ => 3;
      if Condition(F(s), k) then Took(Past(s, 2).(pc := Relative(s)), 12) else Took(Past(s, 2), 7)
  }

  /** LD rr,nn; ADD HL,rr; INC rr; DEC rr; the loads of A and HL through memory. */
  function Wide0(s: Cpu, op: byte): Out {
    match op
    case 0x01 => Took(Past(s, 3).(bc := NN(s)), 10)
    case 0x11 => Took(Past(s, 3).(de := NN(s)), 10)
    case 0x21 => Took(Past(s, 3).(hl := NN(s)), 10)
    case 0x31 => Took(Past(s, 3).(sp := NN(s)), 10)
    case 0x09 => AddHL(s, s.bc)
    case 0x19 => AddHL(s, s.de)
    case 0x29 => AddHL(s, s.hl)
    case 0x39 => AddHL(s, s.sp)
    case 0x02 => Took(Past(s, 1).(ram := s.ram[s.bc := A(s)]), 7)
    case 0x12 => Took(Past(s, 1).(ram := s.ram[s.de := A(s)]), 7)
    case 0x22 => Took(Past(s, 3).(ram := WithWord(s.ram, NN(s), s.hl)), 16)
    case 0x32 => Took(Past(s, 3).(ram := s.ram[NN(s) := A(s)]), 13)
    case 0x0A => Took(Past(s, 1).(af := Word(s.ram[s.bc], F(s))), 7)
    case 0x1A => Took(Past(s, 1).(af := Word(s.ram[s.de], F(s))), 7)
    case 0x2A => Took(Past(s, 3).(hl := WordAt(s.ram, NN(s))), 16)
    case _ => Took(Past(s, 3).(af := Word(s.ram[NN(s)], F(s))), 13)
  }

  function AddHL(s: Cpu, v: word): Out {
    var (r, f) := Added16(s.hl, v, F(s));
    Took(WithF(Past(s, 1).(hl := r), f), 11)
  }

  function Step16(s: Cpu, op: byte): Out {
    match op
    case 0x03 => Took(Past(s, 1).(bc := (s.bc + 1) % 65536), 6)
    case 0x13 => Took(Past(s, 1).(de := (s.de + 1) % 65536), 6)
    case 0x23 => Took(Past(s, 1).(hl := (s.hl + 1) % 65536), 6)
    case 0x33 => Took(Past(s, 1).(sp := (s.sp + 1) % 65536), 6)
    case 0x0B => Took(Past(s, 1).(bc := (s.bc - 1) % 65536), 6)
    case 0x1B => Took(Past(s, 1).(de := (s.de - 1) % 65536), 6)
    case 0x2B => Took(Past(s, 1).(hl := (s.hl - 1) % 65536), 6)
    case _ => Took(Past(s, 1).(sp := (s.sp - 1) % 65536), 6)
  }

  /** INC r and DEC r of register k. */
  function Increment(s: Cpu, k: int): Out {
    var (r, f) := Incremented(Reg(s, k), F(s));
    Took(WithF(Put(Past(s, 1), k, r), f), if k == 6 then 11 else 4)
  }

  function Decrement(s: Cpu, k: int): Out {
    var (r, f) := Decremented(Reg(s, k), F(s));
    Took(WithF(Put(Past(s, 1), k, r), f), if k == 6 then 11 else 4)
  }

  function LoadByte(s: Cpu, k: int): Out { Took(Put(Past(s, 2), k, N(s)), if k == 6 then 10 else 7) }

  /** RLCA RRCA RLA RRA DAA CPL SCF CCF. */
  function Accumulator(s: Cpu, k: int): Out { Took(WithAF(Past(s, 1), Accumulated(k, A(s), F(s))), 4) }

  // ---- 40 to BF ---------------------------------------------------------------------------------

  /** LD between registers j and k, and HALT in place of LD (HL),(HL). */
  function Load(s: Cpu, j: int, k: int): Out {
    if j == 6 && k == 6 then Took(Past(s, 1).(ints := s.ints.(halted := true)), 4)
    else Took(Put(Past(s, 1), j, Reg(s, k)), if j == 6 || k == 6 then 7 else 4)
  }

  function Operate(s: Cpu, j: int, k: int): Out {
    Took(WithAF(Past(s, 1), Operated(j, A(s), Reg(s, k), F(s))), if k == 6 then 7 else 4)
  }

  // ---- C0 to FF ---------------------------------------------------------------------------------

  function OperateByte(s: Cpu, j: int): Out { Took(WithAF(Past(s, 2), Operated(j, A(s), N(s), F(s))), 7) }

  function Returned(s: Cpu): word { WordAt(s.ram, s.sp) }

  function ReturnIf(s: Cpu, k: int): Out {
    if Condition(F(s), k) then Took(Popped(Past(s, 1)).(pc := Returned(s)), 11) else Took(Past(s, 1), 5)
  }

  function JumpIf(s: Cpu, k: int): Out {
    Took(if Condition(F(s), k) then Past(s, 3).(pc := NN(s)) else Past(s, 3), 10)
  }

  function CallIf(s: Cpu, k: int): Out {
    if Condition(F(s), k) then Took(Pushed(Past(s, 3), (s.pc + 3) % 65536).(pc := NN(s)), 17)
    else Took(Past(s, 3), 10)
  }

  function Restart(s: Cpu, to: word): Out { Took(Pushed(Past(s, 1), (s.pc + 1) % 65536).(pc := to), 11) }

  /** RET, POP, EXX, JP (HL), LD SP,HL, JP, CALL, PUSH, EX. */
  function Stack3(s: Cpu, op: byte): Out {
    match op
    case 0xC9 => Took(Popped(Past(s, 1)).(pc := Returned(s)), 10)
    case 0xC1 => Took(Popped(Past(s, 1)).(bc := Returned(s)), 10)
    case 0xD1 => Took(Popped(Past(s, 1)).(de := Returned(s)), 10)
    case 0xE1 => Took(Popped(Past(s, 1)).(hl := Returned(s)), 10)
    case 0xF1 => Took(Popped(Past(s, 1)).(af := Returned(s)), 10)
    case 0xC5 => Took(Pushed(Past(s, 1), s.bc), 11)
    case 0xD5 => Took(Pushed(Past(s, 1), s.de), 11)
    case 0xE5 => Took(Pushed(Past(s, 1), s.hl), 11)
    case 0xF5 => Took(Pushed(Past(s, 1), s.af), 11)
    case 0xC3 => Took(Past(s, 3).(pc := NN(s)), 10)
    case 0xCD => Took(Pushed(Past(s, 3), (s.pc + 3) % 65536).(pc := NN(s)), 17)
    case 0xD9 =>
      Took(Past(s, 1).(bc := s.alt.bc, de := s.alt.de, hl := s.alt.hl,
                       alt := Shadow(s.alt.af, s.bc, s.de, s.hl)), 4)
    case 0xE3 => Took(Past(s, 1).(hl := Returned(s), ram := WithWord(s.ram, s.sp, s.hl)), 19)
    case 0xE9 => Took(Past(s, 1).(pc := s.hl), 4)
    case 0xEB => Took(Past(s, 1).(de := s.hl, hl := s.de), 4)
    case _ => Took(Past(s, 1).(sp := s.hl), 6)
  }

  /** DI and EI, OUT (n),A and IN A,(n). */
  function Io3(s: Cpu, op: byte): Out {
    match op
    case 0xF3 => Took(Past(s, 1).(ints := s.ints.(iff1 := false, iff2 := false)), 4)
    case 0xFB => Took(Past(s, 1).(ints := s.ints.(iff1 := true, iff2 := true, eiDelay := true)), 4)
    case 0xD3 => Took(Written(Past(s, 2), N(s), A(s)), 11)
    case _ => Took(Read(Past(s, 2), N(s)).(af := Word(FromPort(s), F(s))), 11)
  }

  /** One port access: the byte the device answers, and the machine after it. */
  function FromPort(s: Cpu): byte { if s.bus.answers == [] then 255 else s.bus.answers[0].value }

  function Used(s: Cpu): (Ram, seq<Answer>) {
    if s.bus.answers == [] then (s.ram, []) else (Stored(s.ram, s.bus.answers[0].stores), s.bus.answers[1..])
  }

  function Read(s: Cpu, port: byte): Cpu {
    s.(ram := Used(s).0, bus := Bus(Used(s).1, s.bus.log + [PortIn(port, FromPort(s))]))
  }

  function Written(s: Cpu, port: byte, v: byte): Cpu {
    s.(ram := Used(s).0, bus := Bus(Used(s).1, s.bus.log + [PortOut(port, v)]))
  }

  // ---- The opcode map ------------------------------------------------------------------------------

  predicate IsPrefixByte(op: byte) { op == 0xCB || op == 0xDD || op == 0xED || op == 0xFD }

  /** 00 to 3F in eight columns. */
  function Low(s: Cpu, op: byte): Out {
    match op % 8
    case 0 => Control0(s, op)
    case 1 => Wide0(s, op)
    case 2 => Wide0(s, op)
    case 3 => Step16(s, op)
    case 4 => Increment(s, op / 8)
    case 5 => Decrement(s, op / 8)
    case 6 => LoadByte(s, op / 8)
    case _ => Accumulator(s, op / 8)
  }

  /** C0 to FF: row k is C0 + 8k, with the k-th condition, operation or restart address. */
  function High(s: Cpu, op: byte): Out {
    var k := (op - 0xC0) / 8;
    match op % 8
    case 0 => ReturnIf(s, k)
    case 2 => JumpIf(s, k)
    case 3 => if op == 0xC3 || op == 0xE3 || op == 0xEB then Stack3(s, op)
              else Io3(s, op)
    case 4 => CallIf(s, k)
    case 6 => OperateByte(s, k)
    case 7 => Restart(s, (8 * k) % 65536)
    case _ => Stack3(s, op)
  }

  function Unprefixed(s: Cpu, op: byte): Out {
    if op < 0x40 then Low(s, op)
    else if op < 0x80 then Load(s, op / 8 % 8, op % 8)
    else if op < 0xC0 then Operate(s, op / 8 % 8, op % 8)
    else High(s, op)
  }

  // ---- CB --------------------------------------------------------------------------------------------

  /** PC behind a two-byte opcode. */
  function Past2(s: Cpu, n: nat): Cpu { Past(s, n).(r := Refreshed(Refreshed(s.r))) }

  /** CB cb: a rotation, BIT, RES or SET on register cb % 8. */
  function BitOps(s: Cpu, cb: byte): Out {
    var k, b := cb % 8, cb / 8 % 8;
    var v := Reg(s, k);
    var t := Past2(s, 2);
    if cb < 0x40 then
      var (r, c) := Rotated(b, v, CarryOf(F(s)));
      Took(WithF(Put(t, k, r), RotatedFlags(r, c)), if k == 6 then 15 else 8)
    else if cb < 0x80 then
      Took(WithF(t, Tested(b, v, if k == 6 then s.hl / 256 else v, F(s))), if k == 6 then 12 else 8)
    else if cb < 0xC0 then
      WithoutFits(v, b);
      Took(Put(t, k, Without(v, b)), if k == 6 then 15 else 8)
    else
      WithoutFits(v, b);
      Took(Put(t, k, With(v, b)), if k == 6 then 15 else 8)
  }

  lemma WithoutFits(v: byte, b: int)
    ensures 0 <= Without(v, b) < 0x100 && 0 <= With(v, b) < 0x100
  {
  }

  // ---- ED --------------------------------------------------------------------------------------------

  /** IN r,(C), with r = 6 only for the flags, and OUT (C),r, with 0 for r = 6. */
  function InC(s: Cpu, k: int): Out {
    var t := Read(Past2(s, 2), s.bc % 256);
    var u := if k == 6 then t else Put(t, k, FromPort(s));
    Took(WithF(u, ReadFlags(FromPort(s), F(s))), 12)
  }

  function OutC(s: Cpu, k: int): Out {
    Took(Written(Past2(s, 2), s.bc % 256, if k == 6 then 0 else Reg(s, k)), 12)
  }

  function Arith16(s: Cpu, r: (word, byte)): Out { Took(WithF(Past2(s, 2).(hl := r.0), r.1), 15) }

  /** The address behind a two-byte opcode. */
  function Address(s: Cpu): word { Word(s.ram[(s.pc + 3) % 65536], s.ram[(s.pc + 2) % 65536]) }

  function StoreWide(s: Cpu, v: word): Out { Took(Past2(s, 4).(ram := WithWord(s.ram, Address(s), v)), 20) }
  function LoadWide(s: Cpu, k: int): Out { Took(PutWide(Past2(s, 4), k, WordAt(s.ram, Address(s))), 20) }

  function ReturnInterrupt(s: Cpu): Out {
    Took(Popped(Past2(s, 2)).(pc := Returned(s), ints := s.ints.(iff1 := s.ints.iff2)), 14)
  }

  /** LD A,I and LD A,R: P/V shows IFF2. */
  function FromSpecial(s: Cpu, v: byte): Out {
    Took(Past2(s, 2).(af := Word(v, FlagByte(v >= 128, v == 0, Bit5(v), false, Bit3(v), s.ints.iff2, false, CarryOf(F(s))))), 9)
  }

  /** RRD and RLD: three digits turn, the two of the byte at HL and the lower one of A. */
  function Turned(s: Cpu, a: byte, m: byte): Out {
    Took(WithAF(Past2(s, 2), (a, ReadFlags(a, F(s)))).(ram := s.ram[s.hl := m]), 18)
  }

  function Quarter(s: Cpu, op: byte): Out {
    match op
    case 0x42 => Arith16(s, SubtractedCarry16(s.hl, s.bc, F(s)))
    case 0x52 => Arith16(s, SubtractedCarry16(s.hl, s.de, F(s)))
    case 0x62 => Arith16(s, SubtractedCarry16(s.hl, s.hl, F(s)))
    case 0x72 => Arith16(s, SubtractedCarry16(s.hl, s.sp, F(s)))
    case 0x4A => Arith16(s, AddedCarry16(s.hl, s.bc, F(s)))
    case 0x5A => Arith16(s, AddedCarry16(s.hl, s.de, F(s)))
    case 0x6A => Arith16(s, AddedCarry16(s.hl, s.hl, F(s)))
    case 0x7A => Arith16(s, AddedCarry16(s.hl, s.sp, F(s)))
    case 0x43 => StoreWide(s, s.bc)
    case 0x53 => StoreWide(s, s.de)
    case 0x63 => StoreWide(s, s.hl)
    case 0x73 => StoreWide(s, s.sp)
    case 0x4B => LoadWide(s, 0)
    case 0x5B => LoadWide(s, 1)
    case 0x6B => LoadWide(s, 2)
    case _ => LoadWide(s, 3)
  }

  function Special(s: Cpu, op: byte): Out {
    var a, m := A(s), s.ram[s.hl];
    match op
    case 0x47 => Took(Past2(s, 2).(i := a), 9)
    case 0x4F => Took(Past2(s, 2).(r := a), 9)
    case 0x57 => FromSpecial(s, s.i)
    case 0x5F => FromSpecial(s, Refreshed(Refreshed(s.r)))
    case 0x67 => Turned(s, a / 16 * 16 + m % 16, a % 16 * 16 + m / 16)
    case 0x6F => Turned(s, a / 16 * 16 + m / 16, m % 16 * 16 + a % 16)
    case _ => Took(Past2(s, 2), 8)
  }

  /** IM 0, 1 and 2. */
  function Mode(s: Cpu, m: int): Out { Took(Past2(s, 2).(ints := s.ints.(im := m)), 8) }

  /** 40 to 7F behind ED. */
  function EdMiddle(s: Cpu, op: byte): Out {
    match op % 8
    case 0 => InC(s, (op - 0x40) / 8)
    case 1 => OutC(s, (op - 0x40) / 8)
    case 2 => Quarter(s, op)
    case 3 => Quarter(s, op)
    case 4 => Took(WithAF(Past2(s, 2), Subtracted(0, A(s), false)), 8)
    case 5 => ReturnInterrupt(s)
    case 6 =>
      (match op
       case 0x56 => Mode(s, 1) case 0x76 => Mode(s, 1)
       case 0x5E => Mode(s, 2) case 0x7E => Mode(s, 2)
       case _ => Mode(s, 0))
    case _ => Special(s, op)
  }

  /** A block operation moves HL, and for LDI and LDD DE, by d and counts BC down. */
  function Moved1(s: Cpu, d: int): Cpu {
    var v := s.ram[s.hl];
    var bc: word := (s.bc - 1) % 65536;
    var n: byte := (A(s) + v) % 256;
    var f := F(s);
    WithF(Past2(s, 2).(ram := s.ram[s.de := v], hl := (s.hl + d) % 65536, de := (s.de + d) % 65536, bc := bc),
          FlagByte(SignOf(f), ZeroOf(f), n / 2 % 2 == 1, false, Bit3(n), bc != 0, false, CarryOf(f)))
  }

  function Compared1(s: Cpu, d: int): Cpu {
    var v := s.ram[s.hl];
    var bc: word := (s.bc - 1) % 65536;
    var r: byte := (A(s) - v) % 256;
    var h := A(s) % 16 < v % 16;
    var n: byte := (r - One(h)) % 256;
    WithF(Past2(s, 2).(hl := (s.hl + d) % 65536, bc := bc),
          FlagByte(r >= 128, r == 0, n / 2 % 2 == 1, h, Bit3(n), bc != 0, true, CarryOf(F(s))))
  }

  /** The engine's flags of INI, IND, OUTI and OUTD: those of the counter B. */
  function CounterFlags(b: byte): byte { FlagByte(b >= 128, b == 0, Bit5(b), false, Bit3(b), false, true, false) }

  function In1(s: Cpu, d: int): Cpu {
    var b: byte := (s.bc / 256 - 1) % 256;
    var t := Read(Past2(s, 2), s.bc % 256);
    WithF(t.(ram := t.ram[s.hl := FromPort(s)], hl := (s.hl + d) % 65536, bc := Word(b, s.bc % 256)), CounterFlags(b))
  }

  function Out1(s: Cpu, d: int): Cpu {
    var b: byte := (s.bc / 256 - 1) % 256;
    WithF(Written(Past2(s, 2), s.bc % 256, s.ram[s.hl]).(hl := (s.hl + d) % 65536, bc := Word(b, s.bc % 256)),
          CounterFlags(b))
  }

  /** Run again, PC back on the prefix, or done. */
  function Again(s: Cpu, t: Cpu, again: bool): Out { if again then Took(t.(pc := s.pc), 21) else Took(t, 16) }

  function Block(s: Cpu, op: byte): Out {
    match op
    case 0xA0 => Took(Moved1(s, 1), 16)
    case 0xA8 => Took(Moved1(s, -1), 16)
    case 0xB0 => Again(s, Moved1(s, 1), s.bc != 1)
    case 0xB8 => Again(s, Moved1(s, -1), s.bc != 1)
    case 0xA1 => Took(Compared1(s, 1), 16)
    case 0xA9 => Took(Compared1(s, -1), 16)
    case 0xB1 => Again(s, Compared1(s, 1), s.bc != 1 && s.ram[s.hl] != A(s))
    case 0xB9 => Again(s, Compared1(s, -1), s.bc != 1 && s.ram[s.hl] != A(s))
    case 0xA2 => Took(In1(s, 1), 16)
    case 0xAA => Took(In1(s, -1), 16)
    case 0xB2 => Again(s, In1(s, 1), s.bc / 256 != 1)
    case 0xBA => Again(s, In1(s, -1), s.bc / 256 != 1)
    case 0xA3 => Took(Out1(s, 1), 16)
    case 0xAB => Took(Out1(s, -1), 16)
    case 0xB3 => Again(s, Out1(s, 1), s.bc / 256 != 1)
    case _ => Again(s, Out1(s, -1), s.bc / 256 != 1)
  }

  predicate IsBlock(op: byte) { 0xA0 <= op < 0xC0 && op % 8 < 4 }

  /** ED op; what is not assigned does nothing for 8 T-states. */
  function Extended(s: Cpu, op: byte): Out {
    if 0x40 <= op < 0x80 then EdMiddle(s, op)
    else if IsBlock(op) then Block(s, op)
    else Took(Past2(s, 2), 8)
  }
}
