/**
 The EM8 processor (em8/src/Em8Cpu.cpp) as an immutable value: registers, flags, memory with
 its I/O window, the page-1 stack and the debugger's shadow stack.
 */
module Em8State {
  import opened Bytes

  datatype IoEvent = DeviceRead(addr: word, value: byte) | DeviceWrite(addr: word, value: byte)

  /** The UART and the timer behind F000-F01F: what they will answer is an arbitrary input. */
  datatype Bus = Bus(feed: seq<byte>, log: seq<IoEvent>)

  /** `shadow` is the live part of ShadowStack, oldest return address first. */
  datatype Cpu = Cpu(
    a: byte, x: byte, y: byte, sp: byte, pc: word, fl: byte, halted: bool,
    cycles: nat, instrs: nat, nmi: bool, irq: bool, shadow: seq<word>, ram: Ram, bus: Bus)

  const MAX_SHADOW_STACK: nat := 256

  const FLAG_C: byte := 0x01
  const FLAG_Z: byte := 0x02
  const FLAG_I: byte := 0x04
  const FLAG_B: byte := 0x10
  const FLAG_V: byte := 0x40
  const FLAG_N: byte := 0x80

  predicate Has(fl: byte, f: byte) { And(fl, f) != 0 }
  function WithFlag(fl: byte, f: byte, v: bool): byte { if v then Or(fl, f) else And(fl, 0xFF - f) }

  function SetFlag(s: Cpu, f: byte, v: bool): Cpu { s.(fl := WithFlag(s.fl, f, v)) }
  function SetNZ(s: Cpu, v: byte): Cpu { SetFlag(SetFlag(s, FLAG_Z, v == 0), FLAG_N, Neg(v)) }

  // ---- Memory ---------------------------------------------------------------------------

  predicate Device(addr: word) { 0xF000 <= addr < 0xF020 }

  function ReadV(s: Cpu, addr: word): byte {
    if !Device(addr) then s.ram[addr] else if s.bus.feed == [] then 0 else s.bus.feed[0]
  }

  function ReadS(s: Cpu, addr: word): Cpu {
    if !Device(addr) then s
    else
      var rest := if s.bus.feed == [] then [] else s.bus.feed[1..];
      s.(bus := Bus(rest, s.bus.log + [DeviceRead(addr, ReadV(s, addr))]))
  }

  function Write(s: Cpu, addr: word, v: byte): Cpu {
    if Device(addr) then s.(bus := s.bus.(log := s.bus.log + [DeviceWrite(addr, v)]))
    else s.(ram := s.ram[addr := v])
  }

  function FetchV(s: Cpu): byte { ReadV(s, s.pc) }
  function FetchS(s: Cpu): Cpu { ReadS(s, s.pc).(pc := W(s.pc + 1)) }

  /** A little-endian word at PC. */
  function Fetch16V(s: Cpu): word { Pair(FetchV(FetchS(s)), FetchV(s)) }
  function Fetch16S(s: Cpu): Cpu { FetchS(FetchS(s)) }

  // ---- Stack ----------------------------------------------------------------------------

  function Push8(s: Cpu, v: byte): Cpu { Write(s, 0x100 + s.sp, v).(sp := B(s.sp - 1)) }
  function Pull8V(s: Cpu): byte { ReadV(s, 0x100 + B(s.sp + 1)) }
  function Pull8S(s: Cpu): Cpu { ReadS(s.(sp := B(s.sp + 1)), 0x100 + B(s.sp + 1)) }

  function Push16(s: Cpu, v: word): Cpu { Push8(Push8(s, Hi(v)), Lo(v)) }
  function Pull16V(s: Cpu): word { Pair(Pull8V(Pull8S(s)), Pull8V(s)) }
  function Pull16S(s: Cpu): Cpu { Pull8S(Pull8S(s)) }

  /** Save PC and the flags, mask interrupts, and go where the vector points. */
  function EnterHandler(s: Cpu, fl: byte, vector: word): Cpu {
    var s1 := SetFlag(Push8(Push16(s, s.pc), fl), FLAG_I, true);
    s1.(pc := Pair(s1.ram[W(vector + 1)], s1.ram[vector]))
  }

  function CheckInterrupts(s: Cpu): Cpu {
    if s.halted then s
    else if s.nmi then EnterHandler(s.(nmi := false), And(s.fl, 0xFF - FLAG_B), 0xFFFA)
    else if s.irq && !Has(s.fl, FLAG_I) then EnterHandler(s, And(s.fl, 0xFF - FLAG_B), 0xFFFE)
    else s
  }

  function Reset(s: Cpu): Cpu {
    Cpu(0, 0, 0, 0xFF, Pair(s.ram[0xFFFD], s.ram[0xFFFC]), FLAG_I, false, 0, 0, false, false, [], s.ram, s.bus)
  }
}
