/**
 The DD and FD instructions by opcode byte, told from scratch: the operations on IX or IY, on
 its halves and on the byte at IX plus or minus a displacement, and that the engine does them.
 */
module Z80IndexTable {
  import opened Bytes
  import opened Z80State
  import opened Z80Exec
  import opened Z80Index
  import opened Z80Step
  import opened Z80Disasm
  import Z80Decode
  import opened Z80Prefix
  import opened Z80Flags
  import opened Z80Manual
  import opened Z80Table

  // ---- The map ------------------------------------------------------------------------------------

  /** The suffixes whose unprefixed instruction uses HL, H or L as a register. */
  predicate NamesHl(op: byte) {
    if op < 0x40 then
      op == 0x09 || op == 0x19 || op == 0x29 || op == 0x39 || op == 0x21 || op == 0x22 || op == 0x2A
      || op == 0x23 || op == 0x2B || op == 0x24 || op == 0x25 || op == 0x26 || op == 0x2C || op == 0x2D || op == 0x2E
    else if op < 0x80 then op / 8 != 14 && op % 8 != 6 && (op / 16 == 6 || op % 8 == 4 || op % 8 == 5)
    else if op < 0xC0 then op % 8 == 4 || op % 8 == 5
    else op == 0xE1 || op == 0xE5 || op == 0xE9 || op == 0xF9
  }

  /** The suffixes whose unprefixed instruction uses (HL) and not H or L. */
  predicate NamesByte(op: byte) {
    if op < 0x40 then op == 0x34 || op == 0x35 || op == 0x36
    else if op < 0x80 then (op % 8 == 6 && op / 16 != 6 && op != 0x76) || (op / 8 == 14 && op % 8 < 4) || op == 0x77
    else op < 0xC0 && op % 8 == 6
  }

  /** The register the prefix stands for, and HL exchanged with it. */
  function IndexOf(s: Cpu, i: Index): word { match i case IX => s.ix case IY => s.iy }

  function WithHlExchanged(s: Cpu, i: Index): Cpu {
    match i
    case IX => s.(hl := s.ix, ix := s.hl)
    case IY => s.(hl := s.iy, iy := s.hl)
  }

  /** The index register plus the displacement two bytes behind the prefix, from -128 to 127. */
  function Displaced(s: Cpu, i: Index): word { (IndexOf(s, i) + Value(s.ram[(s.pc + 2) % 65536])) % 65536 }

  /** HL holds that address, and the displacement byte stands where the opcode would. */
  function AtDisplaced(s: Cpu, i: Index): Cpu {
    s.(pc := (s.pc + 2) % 65536, r := Refreshed(s.r), fetched := s.fetched + 2, hl := Displaced(s, i))
  }

  /** The outcome o in n more T-states; and with HL put back. */
  function Longer(o: Out, n: nat): Out { Out(o.s.(cycles := o.s.cycles + n), o.t + n) }
  function PutBack(o: Out, hl: word, n: nat): Out { Longer(Out(o.s.(hl := hl), o.t), n) }

  /** A load between H or L and the byte at the displaced address. */
  function HalfLoad(s: Cpu, i: Index, op: byte): Out {
    var a := Displaced(s, i);
    var t := Past(AtDisplaced(s, i), 1).(hl := s.hl);
    match op
    case 0x66 => Took(t.(hl := Word(s.ram[a], s.hl % 256)), 19)
    case 0x6E => Took(t.(hl := Word(s.hl / 256, s.ram[a])), 19)
    case 0x74 => Took(t.(ram := s.ram[a := s.hl / 256]), 19)
    case _ => Took(t.(ram := s.ram[a := s.hl % 256]), 19)
  }

  /** The instruction behind a DD or FD at PC. */
  function Prefixed(s: Cpu, i: Index): Out {
    var op := N(s);
    if op == 0xCB then
      PutBack(BitOps(AtDisplaced(s, i), s.ram[(s.pc + 3) % 65536] / 8 * 8 + 6), s.hl, 8)
    else if NamesByte(op) then
      PutBack(Unprefixed(AtDisplaced(s, i), op), s.hl, if op == 0x36 then 9 else 12)
    else if op == 0x66 || op == 0x6E || op == 0x74 || op == 0x75 then HalfLoad(s, i, op)
    else if NamesHl(op) then
      var o := Unprefixed(WithHlExchanged(Past(s, 1), i), op);
      Longer(Out(WithHlExchanged(o.s, i), o.t), 4)
    else Took(Past(s, 1).(r := Refreshed(Refreshed(s.r)), fetched := s.fetched + 2), 4)
  }

  // ---- The engine's rows ------------------------------------------------------------------------------

  lemma HlKind(op: byte)
    ensures NamesHl(op) == Substituted(op)
  {
  }

  lemma ByteKind(op: byte)
    ensures NamesByte(op) == MemForm(op)
  {
  }

  lemma Kinds(op: byte)
    ensures op == 0xCB || MemForm(op) || op == 0x66 || op == 0x6E || op == 0x74 || op == 0x75 || Substituted(op)
         || Unprefixable(op)
  {
  }

  lemma NoRowKind(op: byte)
    requires Unprefixable(op)
    ensures !NamesHl(op) && !NamesByte(op) && op != 0xCB && op != 0x66 && op != 0x6E && op != 0x74 && op != 0x75
  {
  }

  /** Prefix and suffix fetched, then the displacement. */
  lemma Reaching(s: Cpu)
    ensures var t := Past(Past(s, 1), 1);
            && t == s.(pc := (s.pc + 2) % 65536, r := Refreshed(Refreshed(s.r)), fetched := s.fetched + 2)
            && Adv(t, 1) == t.(pc := (s.pc + 3) % 65536, fetched := s.fetched + 3)
  {
    hide W, Refreshed;
    PcAhead(s.pc);
    PcAhead((s.pc + 1) % 65536);
    FarAhead(s.pc);
  }

  lemma DisplacedIs(s: Cpu, i: Index)
    ensures var t := Past(Past(s, 1), 1);
            Ea(t, i) == Displaced(s, i) && Imm8(Adv(t, 1)) == s.ram[(s.pc + 3) % 65536]
  {
    hide W, Past, Refreshed, Adv;
    Reaching(s);
    Casts(GetI(s, i) + Signed(s.ram[(s.pc + 2) % 65536]));
  }

  lemma AtEaIs(s: Cpu, i: Index)
    ensures var t := Past(Past(s, 1), 1);
            && AtEa(t, i) == Past(AtDisplaced(s, i), 1)
            && Adv(t, 1) == Past(AtDisplaced(s, i), 1).(hl := s.hl)
  {
    hide W, Refreshed, Ea, Displaced, Adv;
    Reaching(s);
    DisplacedIs(s, i);
    PcAhead((s.pc + 2) % 65536);
  }

  lemma AtBits(s: Cpu, i: Index)
    ensures Bump(Adv(AtEa(Past(Past(s, 1), 1), i), 1)) == Past2(AtDisplaced(s, i), 2)
  {
    hide W, Refreshed, BumpR, Ea, Displaced, AtEa;
    AtEaIs(s, i);
    PcAhead((s.pc + 2) % 65536);
    RefreshedIs(Refreshed(Refreshed(s.r)));
  }

  lemma BitRow(s: Cpu, i: Index)
    requires N(s) == 0xCB
    ensures Indexed(Past(Past(s, 1), 1), i, 0xCB) == Prefixed(s, i)
  {
    hide Past, Past2, AtDisplaced, Cb, BitOps, IdxCb, Ea, AtEa;
    var t, u := Past(Past(s, 1), 1), AtDisplaced(s, i);
    var cb := s.ram[(s.pc + 3) % 65536];
    DisplacedIs(s, i);
    Reaching(s);
    AtBits(s, i);
    FieldOf(cb);
    BitRows(t, i, cb, cb / 8 * 8 + 6);
    BitsAreCb(u, cb / 8 * 8 + 6);
  }

  lemma FieldOf(cb: byte)
    ensures cb / 8 * 8 + 6 < 0x100
    ensures var op: byte := cb / 8 * 8 + 6; Fx(op) == Fx(cb) && Fy(op) == Fy(cb) && Fz(op) == 6
  {
  }

  lemma ByteRow(s: Cpu, i: Index, op: byte)
    requires N(s) == op && MemForm(op)
    ensures Indexed(Past(Past(s, 1), 1), i, op) == Prefixed(s, i)
  {
    hide Past, AtDisplaced, Plain, Unprefixed, Indexed, Ea, AtEa;
    ByteKind(op);
    Reaching(s);
    AtEaIs(s, i);
    MemoryRows(Past(Past(s, 1), 1), i, op);
    UnprefixedIs(AtDisplaced(s, i), op);
  }

  lemma HalfKind(op: byte)
    requires op == 0x66 || op == 0x6E || op == 0x74 || op == 0x75
    ensures !NamesByte(op)
  {
  }

  lemma Halves(v: word)
    ensures Hi(v) == v / 256 && Lo(v) == v % 256
  {
  }

  lemma HalfLoads(s: Cpu, i: Index, op: byte)
    requires op == 0x66 || op == 0x6E || op == 0x74 || op == 0x75
    ensures IdxLdReg(Past(Past(s, 1), 1), i, Fy(op), Fz(op)) == HalfLoad(s, i, op)
  {
    hide Past, AtDisplaced, Displaced, Ea, AtEa, Word, Pair, Hi, Lo, Adv;
    Reaching(s);
    DisplacedIs(s, i);
    AtEaIs(s, i);
    WordIs();
    Halves(s.hl);
  }

  lemma HalfRow(s: Cpu, i: Index, op: byte)
    requires N(s) == op && (op == 0x66 || op == 0x6E || op == 0x74 || op == 0x75)
    ensures Indexed(Past(Past(s, 1), 1), i, op) == Prefixed(s, i)
  {
    hide Past, HalfLoad, IdxLdReg, NamesHl, NamesByte, IdxQuad0, IdxAlu, IdxCb, IdxStack, Unprefixed, BitOps;
    HalfKind(op);
    HalfLoads(s, i, op);
  }

  lemma HlNotByte(op: byte)
    requires Substituted(op)
    ensures !IsPrefixByte(op) && !MemForm(op) && op != 0x66 && op != 0x6E && op != 0x74 && op != 0x75
  {
  }

  lemma HlRow(s: Cpu, i: Index, op: byte)
    requires N(s) == op && Substituted(op)
    ensures Indexed(Past(Past(s, 1), 1), i, op) == Prefixed(s, i)
  {
    hide Past, Plain, Unprefixed, Indexed, NamesHl, NamesByte, MemForm, Substituted;
    var u := Past(s, 1);
    HlKind(op);
    ByteKind(op);
    HlNotByte(op);
    IndexedSwaps(Past(u, 1), i, op);
    UnprefixedIs(WithHlExchanged(u, i), op);
    ExchangedPast(u, i);
  }

  lemma ExchangedPast(u: Cpu, i: Index)
    ensures SwapHL(Past(u, 1), i) == Past(WithHlExchanged(u, i), 1)
  {
  }

  lemma NoRow(s: Cpu, i: Index, op: byte)
    requires N(s) == op && Unprefixable(op)
    ensures Indexed(Past(Past(s, 1), 1), i, op) == Prefixed(s, i)
  {
    hide Indexed, Unprefixable, IndexOperands, NamesHl, NamesByte, W, Refreshed, BitOps, Unprefixed, HalfLoad;
    var t := Past(Past(s, 1), 1);
    NoRowKind(op);
    Z80Decode.IndexedCounted(t, i, op);
    Casts(t.pc - 1);
  }

  lemma IndexedIs(s: Cpu, i: Index)
    ensures Indexed(Past(Past(s, 1), 1), i, N(s)) == Prefixed(s, i)
  {
    hide Past, Indexed, Prefixed, Unprefixable, NamesHl, NamesByte, Substituted, MemForm;
    var op := N(s);
    Kinds(op);
    if op == 0xCB { BitRow(s, i); }
    else if MemForm(op) { ByteRow(s, i, op); }
    else if op == 0x66 || op == 0x6E || op == 0x74 || op == 0x75 { HalfRow(s, i, op); }
    else if Substituted(op) { HlRow(s, i, op); }
    else { NoRow(s, i, op); }
  }

  /**
   One ExecuteOne of a DD or FD instruction leaves exactly what the map says: for every suffix
   byte, the register and the address it stands for and the T-states.
   */
  lemma StepIsPrefixed(s: Cpu, i: Index)
    requires Running(s) && s.ram[s.pc] == (if i.IX? then 0xDD else 0xFD)
    ensures Step(s) == Prefixed(Started(s), i)
  {
    hide Past, Indexed, Prefixed, Plain, PrefixEd;
    var t := Started(s);
    Fetching(t);
    Fetching(Past(t, 1));
    IndexedIs(t, i);
  }
}
