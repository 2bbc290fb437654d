/** One call of ExecuteOne: breakpoint, interrupts, HALT, then one instruction. */
module Z80Step {
  import opened Bytes
  import opened Z80State
  import opened Z80Exec
  import opened Z80Index
  import opened Z80Ed

  function AcceptNmi(s: Cpu): Out {
    var s1 := Push(s.(ints := s.ints.(halted := false, iff2 := s.ints.iff1, iff1 := false)), s.pc);
    Done(Bump(s1.(pc := 0x66)), 11)
  }

  /** IM 2 reads the vector table at I:FF; IM 0 sees RST 38h on the idle bus, like IM 1. */
  function AcceptIrq(s: Cpu): Out {
    var s1 := Push(s.(ints := s.ints.(halted := false, iff1 := false, iff2 := false)), s.pc);
    if s.ints.im == 2 then Done(Bump(s1.(pc := ReadWord(s1.ram, Pair(s.i, 0xFF)))), 19)
    else Done(Bump(s1.(pc := 0x38)), 13)
  }

  /** The state after the opcode at PC has been fetched. */
  function Fetched(s: Cpu): Cpu { Bump(Adv(s, 1)) }

  function PrefixDdFd(s: Cpu, i: Index): Out { Indexed(Fetched(s), i, Imm8(s)) }
  function PrefixEd(s: Cpu): Out { Ed(Fetched(s), Imm8(s)) }

  /** Fetch and execute the instruction at PC. */
  function Execute(s: Cpu): Out {
    var op := Imm8(s);
    var s1 := Fetched(s);
    if op == 0xDD then PrefixDdFd(s1, IX)
    else if op == 0xFD then PrefixDdFd(s1, IY)
    else if op == 0xED then PrefixEd(s1)
    else Plain(s1, op)
  }

  predicate BreakpointHit(s: Cpu) { !s.dbg.stepMode && s.pc in s.dbg.breakpoints }
  predicate IrqTaken(s: Cpu) { s.ints.irq && s.ints.iff1 && !s.ints.eiDelay }

  /** The one-shot step mode is used up by the breakpoint check, the EI delay by the IRQ check. */
  function Armed(s: Cpu): Cpu { s.(dbg := s.dbg.(stepMode := false)) }
  function Undelayed(s: Cpu): Cpu { s.(ints := s.ints.(eiDelay := false)) }

  /** What follows the breakpoint check. */
  function Proceed(s: Cpu): Out {
    if s.ints.nmi then AcceptNmi(s.(ints := s.ints.(nmi := false)))
    else if IrqTaken(s) then AcceptIrq(s)
    else if s.ints.halted then Done(Bump(Undelayed(s)), 4)
    else Execute(Undelayed(s))
  }

  function Step(s: Cpu): Out {
    if BreakpointHit(s) then Out(s, -1) else Proceed(Armed(s))
  }
}
