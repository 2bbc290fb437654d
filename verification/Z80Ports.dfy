/** Which port an instruction accesses, read off its bytes and the registers alone. */
module Z80Ports {
  import opened Bytes
  import opened Wrappers
  import opened Z80State
  import opened Z80Alu
  import opened Z80Exec
  import opened Z80Index
  import opened Z80Ed
  import opened Z80Step
  import opened Z80Decode

  datatype Access = Read(port: byte) | Write(port: byte, value: byte)

  /** The access of the suffix op after ED: IN and OUT through C, and the four block forms. */
  function EdAccess(s: Cpu, op: byte): Option<Access> {
    var y, z := Fy(op), Fz(op);
    if Fx(op) == 1 && z == 0 then Some(Read(Lo(s.bc)))
    else if Fx(op) == 1 && z == 1 then Some(Write(Lo(s.bc), if y == 6 then 0 else Rd8(s, y)))
    else if Fx(op) == 2 && y >= 4 && z == 2 then Some(Read(Lo(s.bc)))
    else if Fx(op) == 2 && y >= 4 && z == 3 then Some(Write(Lo(s.bc), s.ram[s.hl]))
    else None
  }

  /** The access of the instruction at PC. */
  function InstrAccess(s: Cpu): Option<Access> {
    var op, next := Imm8(s), Imm8(Fetched(s));
    if op == 0xD3 then Some(Write(next, RegA(s)))
    else if op == 0xDB then Some(Read(next))
    else if op == 0xED then EdAccess(s, next)
    else None
  }

  /** The access of the next ExecuteOne. */
  function NextAccess(s: Cpu): Option<Access> {
    if BreakpointHit(s) || s.ints.nmi || IrqTaken(s) || s.ints.halted then None else InstrAccess(s)
  }

  /** What an access leaves: it uses up one answer, and a write lets the device store in RAM. */
  predicate Accessed(s: Cpu, a: Option<Access>, u: Cpu) {
    match a
    case None => u.bus == s.bus
    case Some(Read(p)) => u.bus == Answered(s.bus, PortIn(p, NextAnswer(s.bus).value))
    case Some(Write(p, v)) =>
      u.bus == Answered(s.bus, PortOut(p, v)) && u.ram == Stored(s.ram, NextAnswer(s.bus).stores)
  }

  // ---- Rows without an access ---------------------------------------------------------------

  lemma LowRowsQuiet(s: Cpu, op: byte)
    requires Fx(op) < 3
    ensures Plain(s, op).s.bus == s.bus
  {
    hide Pair, Hi, Lo, W, B, Cond, Add16, ReadWord, WriteWord, Rel, Inc8, Dec8, AccOp, AluOp;
  }

  lemma CbQuiet(s: Cpu, cb: byte)
    ensures Cb(s, cb).s.bus == s.bus
  {
    hide Pair, Hi, Lo, Rot, BitFlags, ResBit, SetBit;
  }

  lemma HighRowsQuiet(s: Cpu, op: byte)
    requires Fx(op) == 3 && op != 0xD3 && op != 0xDB
    ensures Plain(s, op).s.bus == s.bus
  {
    hide Quad0, LdReg, AluReg, Pair, Hi, Lo, W, Cond, AluOp, ReadWord, WriteWord, Cb, RdPairAf, Imm16;
    if op == 0xCB { CbQuiet(Bump(Adv(s, 1)), Imm8(s)); }
  }

  lemma IndexedQuiet(s: Cpu, i: Index, op: byte)
    ensures Indexed(s, i, op).s.bus == s.bus
  {
    hide Pair, Hi, Lo, W, Add16, ReadWord, WriteWord, Inc8, Dec8, AluOp, Rot, BitFlags, ResBit, SetBit, Ea;
  }

  lemma EdQuiet(s: Cpu, op: byte)
    requires EdAccess(s, op).None?
    ensures Ed(s, op).s.bus == s.bus
  {
    hide Pair, Hi, Lo, W, B, Sbc16, Adc16, ReadWord, WriteWord, AluSub, InFlags, MkF, EdNibbles;
    if Fx(op) == 1 && Fz(op) == 7 { NibblesQuiet(s); }
  }

  lemma NibblesQuiet(s: Cpu)
    ensures EdNibbles(s, true).s.bus == s.bus == EdNibbles(s, false).s.bus
  {
    hide InFlags, Pair;
  }

  // ---- Rows with one --------------------------------------------------------------------------

  lemma DirectAccess(s: Cpu, op: byte)
    requires op == 0xD3 || op == 0xDB
    ensures Accessed(s, Some(if op == 0xD3 then Write(Imm8(s), RegA(s)) else Read(Imm8(s))), Plain(s, op).s)
  {
    hide Quad0, LdReg, AluReg, X3Z0, X3Z1, X3Z2, X3Z4, X3Z5, X3Z6, X3Z7, Cb, Pair, Hi, Lo, W, Stored, Answered;
  }

  lemma EdAccesses(s: Cpu, op: byte)
    requires EdAccess(s, op).Some?
    ensures Accessed(s, EdAccess(s, op), Ed(s, op).s)
  {
    hide Pair, Hi, Lo, W, B, Stored, IoFlags, InFlags, LdMove, CpStep, Matches;
  }

  // ---- Every instruction ------------------------------------------------------------------------

  lemma InstrAccesses(s: Cpu)
    ensures Accessed(s, InstrAccess(s), Execute(s).s)
  {
    hide Plain, Indexed, Ed, EdAccess, Stored, BumpR, W, Hi;
    var op := Imm8(s);
    var s1 := Fetched(s);
    if op == 0xDD || op == 0xFD {
      IndexedQuiet(Fetched(s1), if op == 0xDD then IX else IY, Imm8(s1));
    } else if op == 0xED {
      var s2 := Fetched(s1);
      EdAccessFetched(s);
      if EdAccess(s2, Imm8(s1)).None? { EdQuiet(s2, Imm8(s1)); } else { EdAccesses(s2, Imm8(s1)); }
    } else if op == 0xD3 || op == 0xDB {
      DirectAccess(s1, op);
    } else if Fx(op) < 3 {
      LowRowsQuiet(s1, op);
    } else {
      HighRowsQuiet(s1, op);
    }
  }

  lemma EdAccessFetched(s: Cpu)
    ensures EdAccess(Fetched(Fetched(s)), Imm8(Fetched(s))) == EdAccess(s, Imm8(Fetched(s)))
  {
    hide BumpR, W, Hi, Lo;
  }

  lemma InterruptsQuiet(s: Cpu)
    ensures AcceptNmi(s).s.bus == s.bus == AcceptIrq(s).s.bus
  {
    hide BumpR, W, Pair, ReadWord, WriteWord;
  }

  /**
   One ExecuteOne makes exactly the access its bytes and registers name, if any: one answer
   of the bus is used up and the access logged, and after a port write RAM is what it was
   apart from what the device stored.
   */
  lemma AccessExact(s: Cpu)
    ensures Accessed(s, NextAccess(s), Step(s).s)
  {
    hide Execute, AcceptNmi, AcceptIrq, InstrAccess, Stored, BumpR;
    if !BreakpointHit(s) {
      var s1 := Armed(s);
      if s.ints.nmi {
        InterruptsQuiet(s1.(ints := s1.ints.(nmi := false)));
      } else if IrqTaken(s) {
        InterruptsQuiet(s1);
      } else if !s.ints.halted {
        InstrAccesses(Undelayed(s1));
        SameAccess(s, Undelayed(s1));
      }
    }
  }

  lemma SameAccess(s: Cpu, s1: Cpu)
    requires s1 == Undelayed(Armed(s))
    ensures InstrAccess(s1) == InstrAccess(s)
  {
    hide BumpR, W, Hi, Lo;
  }
}
