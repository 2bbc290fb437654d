/**
 The Z80 programmer's model: register file, interrupt state, memory and ports, as an
 immutable value. z80/src/Z80Cpu.h declares the same fields; class Z80Machine.Z80Cpu
 updates them in place and is proved against functions on this value.
 */
module Z80State {
  import opened Bytes

  /** One port access. */
  datatype IoEvent = PortIn(port: byte, value: byte) | PortOut(port: byte, value: byte)

  /**
   What a device does at one port access: the byte it answers a read with, and the bytes it
   stores in RAM meanwhile, as the disk does on its READ command.
   */
  datatype Answer = Answer(value: byte, stores: map<word, byte>)

  /**
   The I/O space. The attached devices are unknown here, so what they do is an arbitrary
   input, one answer for each access; once it is used up the bus is idle and reads as 0xFF.
   */
  datatype Bus = Bus(answers: seq<Answer>, log: seq<IoEvent>)

  /** The shadow register set AF' BC' DE' HL'. */
  datatype Shadow = Shadow(af: word, bc: word, de: word, hl: word)

  /** Interrupt flip-flops, mode, and the lines driven from outside. */
  datatype Ints = Ints(iff1: bool, iff2: bool, im: int, halted: bool, nmi: bool, irq: bool, eiDelay: bool)

  /** Debugger state that ExecuteOne consults. */
  datatype Debug = Debug(breakpoints: set<word>, stepMode: bool)

  /**
   `fetched` counts the bytes FetchByte has read. It exists only in the model, to state how
   many bytes an instruction consumed.
   */
  datatype Cpu = Cpu(
    af: word, bc: word, de: word, hl: word, ix: word, iy: word, sp: word, pc: word,
    i: byte, r: byte, alt: Shadow, ints: Ints, dbg: Debug,
    cycles: nat, instrs: nat, fetched: nat, ram: Ram, bus: Bus)

  /** A state and the value ExecuteOne returns: T-states, 0 for a trap, -1 for a breakpoint. */
  datatype Out = Out(s: Cpu, t: int)

  // ---- Flags register -------------------------------------------------------

  predicate Odd(n: int) { n % 2 == 1 }

  /** Four flags as a number below 16, and its bits. */
  function Nibble(a: bool, b: bool, c: bool, d: bool): int {
    8 * Num(a) + 4 * Num(b) + 2 * Num(c) + Num(d)
  }

  predicate N3(n: int) { n >= 8 }
  predicate N2(n: int) { n % 8 >= 4 }
  predicate N1(n: int) { n % 4 >= 2 }

  lemma NibbleBits(a: bool, b: bool, c: bool, d: bool) returns (n: int)
    ensures n == Nibble(a, b, c, d) && 0 <= n < 0x10
    ensures N3(n) == a && N2(n) == b && N1(n) == c && Odd(n) == d
  {
    n := Nibble(a, b, c, d);
  }

  /** The flag byte with the given bits, S in bit 7 down to C in bit 0. */
  function MkF(s: bool, z: bool, y: bool, h: bool, x: bool, p: bool, n: bool, c: bool): (f: byte)
    ensures (!s ==> f < 0x80) && (!s && !z ==> f < 0x40) && (!s && !z && !y ==> f < 0x20)
    ensures !s && !z && !y && !h ==> f < 0x10 && (!x ==> f < 8) && (!x && !p ==> f < 4) && (!x && !p && !n ==> f < 2)
    decreases s, z, y, h, x, p, n, c
  {
    if s then 0x80 + MkF(false, z, y, h, x, p, n, c)
    else if z then 0x40 + MkF(false, false, y, h, x, p, n, c)
    else if y then 0x20 + MkF(false, false, false, h, x, p, n, c)
    else if h then 0x10 + MkF(false, false, false, false, x, p, n, c)
    else if x then 8 + MkF(false, false, false, false, false, p, n, c)
    else if p then 4 + MkF(false, false, false, false, false, false, n, c)
    else if n then 2 + MkF(false, false, false, false, false, false, false, c)
    else Num(c)
  }

  predicate FS(f: byte) { N3(f / 0x10) }
  predicate FZ(f: byte) { N2(f / 0x10) }
  predicate FY(f: byte) { N1(f / 0x10) }
  predicate FH(f: byte) { Odd(f / 0x10) }
  predicate FX(f: byte) { N3(f % 0x10) }
  predicate FP(f: byte) { N2(f % 0x10) }
  predicate FN(f: byte) { N1(f % 0x10) }
  predicate FC(f: byte) { Odd(f % 0x10) }

  lemma LowHalf(x: bool, p: bool, n: bool, c: bool)
    ensures MkF(false, false, false, false, x, p, n, c) == Nibble(x, p, n, c)
  {
    assert MkF(false, false, false, false, x, p, n, c) == 8 * Num(x) + MkF(false, false, false, false, false, p, n, c);
    assert MkF(false, false, false, false, false, p, n, c)
        == 4 * Num(p) + MkF(false, false, false, false, false, false, n, c);
    assert MkF(false, false, false, false, false, false, n, c) == 2 * Num(n) + Num(c);
  }

  lemma TopTwo(s: bool, z: bool, y: bool, h: bool, x: bool, p: bool, n: bool, c: bool)
    ensures MkF(s, z, y, h, x, p, n, c) == 0x80 * Num(s) + 0x40 * Num(z) + MkF(false, false, y, h, x, p, n, c)
  {
    assert MkF(s, z, y, h, x, p, n, c) == 0x80 * Num(s) + MkF(false, z, y, h, x, p, n, c);
  }

  lemma NextTwo(y: bool, h: bool, x: bool, p: bool, n: bool, c: bool)
    ensures MkF(false, false, y, h, x, p, n, c)
         == 0x20 * Num(y) + 0x10 * Num(h) + MkF(false, false, false, false, x, p, n, c)
  {
    assert MkF(false, false, y, h, x, p, n, c) == 0x20 * Num(y) + MkF(false, false, false, h, x, p, n, c);
  }

  /** The flag byte as its two halves. */
  lemma MkFHalves(s: bool, z: bool, y: bool, h: bool, x: bool, p: bool, n: bool, c: bool)
    ensures MkF(s, z, y, h, x, p, n, c) == 0x10 * Nibble(s, z, y, h) + Nibble(x, p, n, c)
  {
    hide MkF;
    TopTwo(s, z, y, h, x, p, n, c);
    NextTwo(y, h, x, p, n, c);
    LowHalf(x, p, n, c);
  }

  /** Each accessor reads back the bit MkF was given. */
  lemma MkFBits(s: bool, z: bool, y: bool, h: bool, x: bool, p: bool, n: bool, c: bool)
    ensures var f := MkF(s, z, y, h, x, p, n, c);
            && FS(f) == s && FZ(f) == z && FY(f) == y && FH(f) == h
            && FX(f) == x && FP(f) == p && FN(f) == n && FC(f) == c
  {
    hide MkF;
    var hi := NibbleBits(s, z, y, h);
    var lo := NibbleBits(x, p, n, c);
    var f := MkF(s, z, y, h, x, p, n, c);
    MkFHalves(s, z, y, h, x, p, n, c);
    assert f == 0x10 * hi + lo;
    assert f / 0x10 == hi && f % 0x10 == lo;
  }

  /** Bits 5 and 3 of a byte, the source of the undocumented Y and X flags. */
  predicate B5(v: byte) { v % 0x40 >= 0x20 }
  predicate B3(v: byte) { v % 0x10 >= 8 }

  // ---- Fetch, memory, stack ---------------------------------------------------

  /** R counts opcode fetches in its low 7 bits; bit 7 is kept. */
  function BumpR(r: byte): byte { if r == 0x7F || r == 0xFF then r - 0x7F else r + 1 }

  function Bump(s: Cpu): Cpu { s.(r := BumpR(s.r)) }

  /** The byte FetchByte would return, and the state after n fetches. */
  function Imm8(s: Cpu): byte { s.ram[s.pc] }
  function Imm16(s: Cpu): word { Pair(s.ram[W(s.pc + 1)], s.ram[s.pc]) }
  function Adv(s: Cpu, n: nat): Cpu { s.(pc := W(s.pc + n), fetched := s.fetched + n) }

  function ReadWord(m: Ram, a: word): word { Pair(m[W(a + 1)], m[a]) }
  function WriteWord(m: Ram, a: word, v: word): Ram { m[a := Lo(v)][W(a + 1) := Hi(v)] }

  function Push(s: Cpu, v: word): Cpu {
    var sp := W(s.sp - 2);
    s.(sp := sp, ram := WriteWord(s.ram, sp, v))
  }

  function Pop(s: Cpu): Cpu { s.(sp := W(s.sp + 2)) }

  function NextAnswer(b: Bus): Answer { if b.answers == [] then Answer(0xFF, map[]) else b.answers[0] }
  function Answered(b: Bus, e: IoEvent): Bus { Bus(if b.answers == [] then [] else b.answers[1..], b.log + [e]) }

  function StoredAt(m: Ram, stores: map<word, byte>, a: word): byte { if a in stores then stores[a] else m[a] }

  /** RAM after a device has stored into it. */
  function Stored(m: Ram, stores: map<word, byte>): Ram {
    seq(0x10000, a requires 0 <= a < 0x10000 => StoredAt(m, stores, a))
  }

  /** IN from a port: the byte, and the state after the access. */
  function PortValue(s: Cpu): byte { NextAnswer(s.bus).value }
  function InFrom(s: Cpu, port: byte): Cpu {
    s.(ram := Stored(s.ram, NextAnswer(s.bus).stores), bus := Answered(s.bus, PortIn(port, PortValue(s))))
  }

  function OutTo(s: Cpu, port: byte, v: byte): Cpu {
    s.(ram := Stored(s.ram, NextAnswer(s.bus).stores), bus := Answered(s.bus, PortOut(port, v)))
  }

  // ---- Register access --------------------------------------------------------

  function RegA(s: Cpu): byte { Hi(s.af) }
  function RegF(s: Cpu): byte { Lo(s.af) }
  function SetA(s: Cpu, v: byte): Cpu { s.(af := Pair(v, Lo(s.af))) }
  function SetF(s: Cpu, v: byte): Cpu { s.(af := Pair(Hi(s.af), v)) }

  /** The 3-bit register code: 0=B 1=C 2=D 3=E 4=H 5=L 6=(HL) 7=A. */
  function Rd8(s: Cpu, code: int): byte
    requires 0 <= code < 8
  {
    if code == 0 then Hi(s.bc) else if code == 1 then Lo(s.bc)
    else if code == 2 then Hi(s.de) else if code == 3 then Lo(s.de)
    else if code == 4 then Hi(s.hl) else if code == 5 then Lo(s.hl)
    else if code == 6 then s.ram[s.hl] else Hi(s.af)
  }

  function Wr8(s: Cpu, code: int, v: byte): Cpu
    requires 0 <= code < 8
  {
    if code == 0 then s.(bc := Pair(v, Lo(s.bc))) else if code == 1 then s.(bc := Pair(Hi(s.bc), v))
    else if code == 2 then s.(de := Pair(v, Lo(s.de))) else if code == 3 then s.(de := Pair(Hi(s.de), v))
    else if code == 4 then s.(hl := Pair(v, Lo(s.hl))) else if code == 5 then s.(hl := Pair(Hi(s.hl), v))
    else if code == 6 then s.(ram := s.ram[s.hl := v]) else SetA(s, v)
  }

  /** The register pair field 00=BC 01=DE 10=HL 11=SP. */
  function RdPair(s: Cpu, pp: int): word {
    if pp == 0 then s.bc else if pp == 1 then s.de else if pp == 2 then s.hl else s.sp
  }

  function WrPair(s: Cpu, pp: int, v: word): Cpu {
    if pp == 0 then s.(bc := v) else if pp == 1 then s.(de := v)
    else if pp == 2 then s.(hl := v) else s.(sp := v)
  }

  /** PUSH and POP use AF where the other instructions use SP. */
  function RdPairAf(s: Cpu, pp: int): word { if pp == 3 then s.af else RdPair(s, pp) }
  function WrPairAf(s: Cpu, pp: int, v: word): Cpu { if pp == 3 then s.(af := v) else WrPair(s, pp, v) }

  /** The 3-bit condition code: NZ Z NC C PO PE P M. */
  predicate Cond(f: byte, ccc: int) {
    if ccc == 0 then !FZ(f) else if ccc == 1 then FZ(f)
    else if ccc == 2 then !FC(f) else if ccc == 3 then FC(f)
    else if ccc == 4 then !FP(f) else if ccc == 5 then FP(f)
    else if ccc == 6 then !FS(f) else FS(f)
  }

  /** One instruction done: the counters move and its T-states are returned. */
  function Done(s: Cpu, t: nat): Out { Out(s.(cycles := s.cycles + t, instrs := s.instrs + 1), t) }
}
