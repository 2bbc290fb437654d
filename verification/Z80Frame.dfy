/** Which bytes of RAM an instruction can change: the write frame of every opcode. */
module Z80Frame {
  import opened Bytes
  import opened Z80State
  import opened Z80Alu
  import opened Z80Exec
  import opened Z80Index
  import opened Z80Ed
  import opened Z80Step
  import opened Z80Decode

  /** a is one of the two bytes of the word at base. */
  predicate InWord(a: word, base: word) { a == base || a == W(base + 1) }

  /** The device reached by the next port access stores into a. */
  predicate DeviceStores(s: Cpu, a: word) { a in NextAnswer(s.bus).stores }

  /** The unprefixed instruction op, with s the state after its fetch, may change the byte at a. */
  predicate PlainWrites(s: Cpu, op: byte, a: word) {
    var y, z := Fy(op), Fz(op);
    if Fx(op) == 0 then
      || (z == 2 && ((y == 0 && a == s.bc) || (y == 2 && a == s.de) || (y == 4 && InWord(a, Imm16(s)))
                     || (y == 6 && a == Imm16(s))))
      || (4 <= z <= 6 && y == 6 && a == s.hl)
    else if Fx(op) == 1 then y == 6 && z != 6 && a == s.hl
    else if Fx(op) == 2 then false
    else if op == 0xCB then Fz(Imm8(s)) == 6 && Fx(Imm8(s)) != 1 && a == s.hl
    else
      || ((z == 4 || z == 5 || z == 7) && (z != 4 || Cond(RegF(s), y)) && InWord(a, W(s.sp - 2)))
      || (z == 3 && y == 4 && InWord(a, s.sp))
      || (z == 3 && (y == 2 || y == 3) && DeviceStores(s, a))
  }

  /** The same for a suffix after DD or FD. */
  predicate IndexWrites(s: Cpu, i: Index, op: byte, a: word) {
    var y, z := Fy(op), Fz(op);
    if Fx(op) == 0 then (op == 0x22 && InWord(a, Imm16(s))) || (4 <= z <= 6 && y == 6 && a == Ea(s, i))
    else if Fx(op) == 1 then y == 6 && z != 6 && a == Ea(s, i)
    else if Fx(op) == 2 then false
    else (op == 0xCB && Fx(Imm8(Adv(s, 1))) != 1 && a == Ea(s, i)) || (op == 0xE5 && InWord(a, W(s.sp - 2)))
  }

  /** The same for a suffix after ED. */
  predicate EdWrites(s: Cpu, op: byte, a: word) {
    var y, z := Fy(op), Fz(op);
    if Fx(op) == 1 then
      || (z < 2 && DeviceStores(s, a))
      || (z == 3 && y % 2 == 0 && InWord(a, Imm16(s)))
      || (z == 7 && (y == 4 || y == 5) && a == s.hl)
    else
      Fx(op) == 2 && y >= 4 &&
      ((z == 0 && a == s.de) || (z == 2 && (a == s.hl || DeviceStores(s, a))) || (z == 3 && DeviceStores(s, a)))
  }

  /** The instruction at PC may change the byte at a. */
  predicate MayWrite(s: Cpu, a: word) {
    var op := Imm8(s);
    var s1 := Fetched(s);
    if op == 0xDD then IndexWrites(Fetched(s1), IX, Imm8(s1), a)
    else if op == 0xFD then IndexWrites(Fetched(s1), IY, Imm8(s1), a)
    else if op == 0xED then EdWrites(Fetched(s1), Imm8(s1), a)
    else PlainWrites(s1, op, a)
  }

  predicate Keeps(s: Cpu, o: Out, a: word) { o.s.ram[a] == s.ram[a] }

  lemma PushKeeps(s: Cpu, v: word, a: word)
    requires !InWord(a, W(s.sp - 2))
    ensures Push(s, v).ram[a] == s.ram[a]
  {
    hide Hi, Lo;
  }

  lemma WordKeeps(m: Ram, base: word, v: word, a: word)
    requires !InWord(a, base)
    ensures WriteWord(m, base, v)[a] == m[a]
  {
    hide Hi, Lo;
  }

  lemma StoresKeep(m: Ram, stores: map<word, byte>, a: word)
    requires a !in stores
    ensures Stored(m, stores)[a] == m[a]
  {
  }

  // ---- Unprefixed -----------------------------------------------------------------------

  lemma Quad0Keeps(s: Cpu, op: byte, a: word)
    requires Fx(op) == 0 && !PlainWrites(s, op, a)
    ensures Keeps(s, Quad0(s, op), a)
  {
    hide Pair, Hi, Lo, W, Cond, Add16, ReadWord, WriteWord, Rel, Inc8, Dec8, AccOp, InWord;
    if op == 0x22 { WordKeeps(s.ram, Imm16(s), s.hl, a); }
  }

  lemma RegsKeep(s: Cpu, op: byte, a: word)
    requires (Fx(op) == 1 || Fx(op) == 2) && !PlainWrites(s, op, a)
    ensures Keeps(s, Plain(s, op), a)
  {
    hide Pair, Hi, Lo, AluOp;
  }

  lemma CbKeeps(s: Cpu, cb: byte, a: word)
    requires !(Fz(cb) == 6 && Fx(cb) != 1 && a == s.hl)
    ensures Cb(s, cb).s.ram[a] == s.ram[a]
  {
    hide Pair, Hi, Lo, Rot, BitFlags, ResBit, SetBit;
  }

  lemma Z3Keeps(s: Cpu, op: byte, a: word)
    requires Fx(op) == 3 && Fz(op) == 3 && !PlainWrites(s, op, a)
    ensures Keeps(s, Quad3(s, op), a)
  {
    hide Pair, Hi, Lo, W, ReadWord, WriteWord, Stored, PortValue, Answered, NextAnswer, Cb, InWord;
    if op == 0xCB { CbKeeps(Bump(Adv(s, 1)), Imm8(s), a); }
    if op == 0xE3 { WordKeeps(s.ram, s.sp, s.hl, a); }
    if op == 0xD3 || op == 0xDB { StoresKeep(s.ram, NextAnswer(s.bus).stores, a); }
  }

  lemma CallKeeps(s: Cpu, a: word)
    requires !InWord(a, W(s.sp - 2))
    ensures Call(s).ram[a] == s.ram[a]
  {
    hide Push, Imm16, InWord;
    var s1 := Adv(s, 2);
    PushKeeps(s1, s1.pc, a);
  }

  lemma Quad3Keeps(s: Cpu, op: byte, a: word)
    requires Fx(op) == 3 && Fz(op) != 3 && !IsPrefix(op) && !PlainWrites(s, op, a)
    ensures Keeps(s, Quad3(s, op), a)
  {
    hide Pair, Hi, Lo, W, Cond, AluOp, ReadWord, WriteWord, Call, Push, InWord;
    if Fz(op) == 4 && Cond(RegF(s), Fy(op)) { CallKeeps(s, a); }
    if op == 0xCD { CallKeeps(s, a); }
    if Fz(op) == 5 && Fy(op) % 2 == 0 { PushKeeps(s, RdPairAf(s, Fy(op) / 2), a); }
    if Fz(op) == 7 { PushKeeps(s, s.pc, a); }
  }

  lemma PlainKeepsRam(s: Cpu, op: byte, a: word)
    requires !IsPrefix(op) && !PlainWrites(s, op, a)
    ensures Keeps(s, Plain(s, op), a)
  {
    hide Keeps, PlainWrites, Quad0, LdReg, AluReg, Quad3;
    if Fx(op) == 0 {
      Quad0Keeps(s, op, a);
    } else if Fx(op) < 3 {
      RegsKeep(s, op, a);
    } else if Fz(op) == 3 {
      Z3Keeps(s, op, a);
    } else {
      Quad3Keeps(s, op, a);
    }
  }

  // ---- DD, FD and ED --------------------------------------------------------------------

  lemma IdxLowKeeps(s: Cpu, i: Index, op: byte, a: word)
    requires Fx(op) == 0 && !IndexWrites(s, i, op, a)
    ensures Keeps(s, IdxQuad0(s, i, op), a)
  {
    hide Pair, Hi, Lo, W, Add16, ReadWord, WriteWord, Inc8, Dec8, Ea, InWord;
    if op == 0x22 { WordKeeps(s.ram, Imm16(s), GetI(s, i), a); }
  }

  lemma IdxRegsKeep(s: Cpu, i: Index, op: byte, a: word)
    requires (Fx(op) == 1 || Fx(op) == 2) && !IndexWrites(s, i, op, a)
    ensures Keeps(s, Indexed(s, i, op), a)
  {
    hide Pair, Hi, Lo, W, AluOp, Ea;
  }

  lemma IdxHighKeeps(s: Cpu, i: Index, op: byte, a: word)
    requires Fx(op) == 3 && !IndexWrites(s, i, op, a)
    ensures Keeps(s, Indexed(s, i, op), a)
  {
    hide Pair, Hi, Lo, W, Rot, BitFlags, ResBit, SetBit, Ea, ReadWord, Push, InWord;
    if op == 0xE5 { PushKeeps(s, GetI(s, i), a); }
  }

  lemma IndexedKeeps(s: Cpu, i: Index, op: byte, a: word)
    requires !IndexWrites(s, i, op, a)
    ensures Keeps(s, Indexed(s, i, op), a)
  {
    hide Keeps, IndexWrites, IdxQuad0, IdxLdReg, IdxAlu, IdxCb, IdxStack;
    if Fx(op) == 0 {
      IdxLowKeeps(s, i, op, a);
    } else if Fx(op) < 3 {
      IdxRegsKeep(s, i, op, a);
    } else {
      IdxHighKeeps(s, i, op, a);
    }
  }

  lemma EdQuad1Keeps(s: Cpu, op: byte, a: word)
    requires Fx(op) == 1 && !EdWrites(s, op, a)
    ensures Keeps(s, EdQuad1(s, op), a)
  {
    hide Pair, Hi, Lo, W, Stored, PortValue, Answered, NextAnswer, InFlags, MkF, Rd8;
    hide ReadWord, WriteWord, Sbc16, Adc16, AluSub, InWord;
    if Fz(op) < 2 { StoresKeep(s.ram, NextAnswer(s.bus).stores, a); }
    if Fz(op) == 0 { Wr8Elsewhere(InFrom(s, Lo(s.bc)), Fy(op), PortValue(s)); }
    if Fz(op) == 3 && Fy(op) % 2 == 0 { WordKeeps(s.ram, Imm16(s), RdPair(s, Fy(op) / 2), a); }
  }

  /** Writing a register is not writing memory. */
  lemma Wr8Elsewhere(s: Cpu, code: int, v: byte)
    requires 0 <= code < 8
    ensures code != 6 ==> Wr8(s, code, v).ram == s.ram
  {
    hide Pair, Hi, Lo;
  }

  lemma EdBlockKeeps(s: Cpu, op: byte, a: word)
    requires Fx(op) == 2 && Fy(op) >= 4 && Fz(op) < 4 && !EdWrites(s, op, a)
    ensures Keeps(s, EdBlock(s, Fy(op), Fz(op)), a)
  {
    hide Pair, Hi, Lo, W, Stored, PortValue, Answered, NextAnswer, IoFlags, MkF, Matches;
    if Fz(op) >= 2 { StoresKeep(s.ram, NextAnswer(s.bus).stores, a); }
  }

  lemma EdKeeps(s: Cpu, op: byte, a: word)
    requires !EdWrites(s, op, a)
    ensures Keeps(s, Ed(s, op), a)
  {
    hide EdWrites, EdQuad1, EdBlock;
    if Fx(op) == 1 {
      EdQuad1Keeps(s, op, a);
    } else if Fx(op) == 2 && Fy(op) >= 4 && Fz(op) < 4 {
      EdBlockKeeps(s, op, a);
    }
  }

  /** No instruction changes a byte outside its write frame. */
  lemma WriteFrame(s: Cpu, a: word)
    requires !MayWrite(s, a)
    ensures Execute(s).s.ram[a] == s.ram[a]
  {
    hide Plain, Indexed, Ed, BumpR, W, PlainWrites, IndexWrites, EdWrites;
    var op := Imm8(s);
    var s1 := Fetched(s);
    if op == 0xDD || op == 0xFD {
      IndexedKeeps(Fetched(s1), if op == 0xDD then IX else IY, Imm8(s1), a);
    } else if op == 0xED {
      EdKeeps(Fetched(s1), Imm8(s1), a);
    } else {
      PlainKeepsRam(s1, op, a);
    }
  }
}
