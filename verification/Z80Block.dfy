/** Whole runs of the repeating block instructions LDIR, LDDR, CPIR and CPDR. */
module Z80Block {
  import opened Bytes
  import opened Z80State
  import opened Z80Alu
  import opened Z80Exec
  import opened Z80Ed
  import opened Z80Step

  /** The machine after n calls of ExecuteOne. */
  function Run(s: Cpu, n: nat): Cpu {
    if n == 0 then s else Step(Run(s, n - 1)).s
  }

  /** No breakpoint at PC, no interrupt that could be taken, not halted. */
  predicate Undisturbed(s: Cpu) {
    s.pc !in s.dbg.breakpoints && !s.ints.nmi && !(s.ints.irq && s.ints.iff1) && !s.ints.halted
  }

  /** The instruction ED op stands at PC. */
  predicate AtEd(s: Cpu, op: byte) { s.ram[s.pc] == 0xED && s.ram[W(s.pc + 1)] == op }

  /** n bytes upwards or downwards from a. */
  function At(a: word, up: bool, n: int): word { W(if up then a + n else a - n) }
  function Dir(up: bool): int { if up then 1 else -1 }

  /** R after n fetches. */
  function BumpBy(r: byte, n: nat): byte { if n == 0 then r else BumpR(BumpBy(r, n - 1)) }

  lemma BumpTwice(r: byte, n: nat)
    ensures BumpR(BumpR(BumpBy(r, n))) == BumpBy(r, n + 2)
  {
    assert BumpBy(r, n + 1) == BumpR(BumpBy(r, n));
  }

  lemma AtStart(a: word, up: bool)
    ensures At(a, up, 0) == a && W(a + Dir(up)) == At(a, up, 1)
  {
  }

  lemma AtNext(a: word, up: bool, k: nat)
    ensures W(At(a, up, k) + Dir(up)) == At(a, up, k + 1)
  {
  }

  lemma WSmall(x: word)
    ensures W(x) == x
  {
  }

  lemma PcRound(pc: word)
    ensures W(W(pc + 1) + 1) == W(pc + 2) && W(W(pc + 2) - 2) == pc
  {
  }

  // ---- The sequential copy --------------------------------------------------------------

  /** n bytes copied one after the other, each read seeing the writes before it. */
  function Copy(m: Ram, src: word, dst: word, up: bool, n: nat): Ram {
    if n == 0 then m
    else
      var m1 := Copy(m, src, dst, up, n - 1);
      m1[At(dst, up, n - 1) := m1[At(src, up, n - 1)]]
  }

  lemma {:induction false} CopyFrame(m: Ram, src: word, dst: word, up: bool, n: nat, a: word)
    requires forall j :: 0 <= j < n ==> At(dst, up, j) != a
    ensures Copy(m, src, dst, up, n)[a] == m[a]
  {
    if n > 0 { CopyFrame(m, src, dst, up, n - 1, a); }
  }

  // ---- LDIR and LDDR -----------------------------------------------------------------------

  /** The flags f once the byte v has been moved: S, Z and C stay, P/V says whether rounds remain. */
  function MoveFlags(a: byte, f: byte, v: byte, more: bool): byte {
    var n := B(a + v);
    MkF(FS(f), FZ(f), N1(n), false, B3(n), more, false, FC(f))
  }

  /** Only the byte moved last shows in the flags. */
  lemma MoveFlagsAgain(a: byte, f: byte, v: byte, w: byte, more: bool)
    ensures MoveFlags(a, MoveFlags(a, f, v, true), w, more) == MoveFlags(a, f, w, more)
  {
    hide MkF, FS, FZ, FC, B;
    var n := B(a + v);
    MkFBits(FS(f), FZ(f), N1(n), false, B3(n), true, false, FC(f));
  }

  /** The machine after k of the n rounds of a block move. */
  function Moved(s: Cpu, up: bool, k: nat, n: nat): Cpu
    requires 1 <= k <= n < 0x10000
  {
    var m := Copy(s.ram, s.hl, s.de, up, k);
    SetF(s.(ram := m, hl := At(s.hl, up, k), de := At(s.de, up, k), bc := n - k,
            pc := if k < n then s.pc else W(s.pc + 2), r := BumpBy(s.r, 2 * k),
            ints := s.ints.(eiDelay := false), dbg := s.dbg.(stepMode := false),
            cycles := s.cycles + 21 * k - (if k < n then 0 else 5),
            instrs := s.instrs + k, fetched := s.fetched + 2 * k),
         MoveFlags(RegA(s), RegF(s), m[At(s.de, up, k - 1)], k < n))
  }

  lemma StepEd(s: Cpu, op: byte)
    requires Undisturbed(s) && AtEd(s, op)
    ensures Step(s) == Ed(Fetched(Fetched(Undelayed(Armed(s)))), op)
  {
    hide Ed;
  }

  function MoveOp(up: bool): byte { if up then 0xB0 else 0xB8 }

  /** One round of LDIR or LDDR, whatever came before it. */
  function Round(s: Cpu, up: bool): Out {
    var v := LdMove(Fetched(Fetched(Undelayed(Armed(s)))), Dir(up));
    Repeat(v, v.bc != 0)
  }

  /** The first round, on the data. */
  lemma FirstMove(s: Cpu, up: bool)
    requires s.bc > 0
    ensures Round(s, up).s == Moved(s, up, 1, s.bc)
  {
    hide MkF, FS, FZ, FC, N1, B3, Pair, Hi, Lo, BumpR, At, Dir, W, B;
    BumpTwice(s.r, 0);
    PcRound(s.pc);
    AtStart(s.hl, up);
    AtStart(s.de, up);
    WSmall(s.bc - 1);
    assert Copy(s.ram, s.hl, s.de, up, 0) == s.ram;
  }

  /** Round k + 1 of n. */
  lemma NextMove(s: Cpu, up: bool, k: nat, n: nat)
    requires 1 <= k < n < 0x10000
    ensures Round(Moved(s, up, k, n), up).s == Moved(s, up, k + 1, n)
  {
    hide MkF, FS, FZ, FC, N1, B3, Pair, Hi, Lo, BumpR, At, Dir, W, B;
    var t := Moved(s, up, k, n);
    var u := Fetched(Fetched(Undelayed(Armed(t))));
    var v := LdMove(u, Dir(up));
    assert v.bc == W(n - k - 1) && Round(t, up) == Repeat(v, v.bc != 0);
    BumpTwice(s.r, 2 * k);
    PcRound(s.pc);
    WSmall(n - k - 1);
    AtNext(s.hl, up, k);
    AtNext(s.de, up, k);
    var moved := t.ram[At(s.de, up, k - 1)];
    MoveFlagsAgain(RegA(s), RegF(s), moved, v.ram[u.de], k + 1 < n);
    PairParts(RegA(s), MoveFlags(RegA(s), RegF(s), moved, true));
  }

  /** The bytes that every round but the last may overwrite are not the instruction itself. */
  predicate WindowClear(s: Cpu, up: bool, n: nat) {
    forall j :: 0 <= j < n - 1 ==> At(s.de, up, j) != s.pc && At(s.de, up, j) != W(s.pc + 1)
  }

  /**
   LDIR and LDDR: the first k of the n = BC rounds are k calls of ExecuteOne, and they leave
   exactly Moved: the sequential copy of k bytes, HL and DE moved by k, BC = n - k, S, Z and
   C as they were, H = N = 0, P/V set iff rounds remain, PC past the instruction iff none
   do, 21 T-states a round and 16 for the last.
   */
  lemma {:induction false} BlockMove(s: Cpu, up: bool, n: nat, k: nat)
    requires Undisturbed(s) && AtEd(s, MoveOp(up)) && WindowClear(s, up, n)
    requires n == s.bc && 1 <= k <= n
    ensures Run(s, k) == Moved(s, up, k, n)
  {
    hide Step, EdQuad1, LdMove, Repeat, Moved, Fetched, Armed, Undelayed, Undisturbed, AtEd, At, W, WindowClear;
    var t := if k == 1 then s else Moved(s, up, k - 1, n);
    if k > 1 {
      BlockMove(s, up, n, k - 1);
      KeepsInstruction(s, up, n, k - 1);
    }
    assert Run(s, k) == Step(t).s;
    StepEd(t, MoveOp(up));
    var u := Fetched(Fetched(Undelayed(Armed(t))));
    assert Ed(u, MoveOp(up)) == EdBlock(u, if up then 6 else 7, 0) by { hide EdBlock; }
    assert Step(t) == Round(t, up);
    if k == 1 { FirstMove(s, up); } else { NextMove(s, up, k - 1, n); }
  }

  lemma KeepsInstruction(s: Cpu, up: bool, n: nat, k: nat)
    requires Undisturbed(s) && AtEd(s, MoveOp(up)) && WindowClear(s, up, n)
    requires 1 <= k < n < 0x10000
    ensures Undisturbed(Moved(s, up, k, n)) && AtEd(Moved(s, up, k, n), MoveOp(up))
  {
    hide MkF, FS, FZ, FC, N1, B3, RegA, RegF, BumpBy, At, W, B, Pair, Copy;
    CopyFrame(s.ram, s.hl, s.de, up, k, s.pc);
    CopyFrame(s.ram, s.hl, s.de, up, k, W(s.pc + 1));
  }

  // ---- What the sequential copy leaves in memory ----------------------------------------------

  /** How far the destination runs ahead of the source, in the direction of the copy. */
  function Lag(src: word, dst: word, up: bool): word { W(if up then dst - src else src - dst) }

  lemma AtInjective(a: word, up: bool, i: int, j: int)
    requires i < j < i + 0x10000
    ensures At(a, up, i) != At(a, up, j)
  {
  }

  lemma AtLag(src: word, dst: word, up: bool, i: int)
    ensures At(src, up, i) == At(dst, up, i - Lag(src, dst, up))
    ensures At(src, up, i) == At(dst, up, i - Lag(src, dst, up) + 0x10000)
  {
  }

  /** The source offset whose original byte ends up at destination offset i: i mod p. */
  function Origin(p: nat, i: nat): nat {
    if p == 0 || i < p then i else Origin(p, i - p)
  }

  /**
   The whole copy, for any overlap and any wrap past 0xFFFF: destination offset i holds the
   original source byte at offset i mod p, where p is the lag. So p = 1 fills with one byte,
   and a lag of 0 or at least n is a plain block copy.
   */
  lemma {:induction false} CopyClosedForm(m: Ram, src: word, dst: word, up: bool, n: nat, i: nat)
    requires i < n <= 0x10000
    ensures Copy(m, src, dst, up, n)[At(dst, up, i)] == m[At(src, up, Origin(Lag(src, dst, up), i))]
  {
    hide At, Lag;
    var p := Lag(src, dst, up);
    var m1 := Copy(m, src, dst, up, n - 1);
    if i < n - 1 {
      CopyClosedForm(m, src, dst, up, n - 1, i);
      AtInjective(dst, up, i, n - 1);
    } else if 1 <= p <= i {
      CopyClosedForm(m, src, dst, up, n - 1, i - p);
      AtLag(src, dst, up, i);
    } else {
      SourceIntact(src, dst, up, i);
      CopyFrame(m, src, dst, up, n - 1, At(src, up, i));
    }
  }

  /** With no lag, or one beyond i, no destination offset below i is source offset i. */
  lemma SourceIntact(src: word, dst: word, up: bool, i: nat)
    requires i < 0x10000
    requires Lag(src, dst, up) == 0 || i < Lag(src, dst, up)
    ensures forall j :: 0 <= j < i ==> At(dst, up, j) != At(src, up, i)
  {
    hide At, Lag;
    var p := Lag(src, dst, up);
    AtLag(src, dst, up, i);
    forall j | 0 <= j < i
      ensures At(dst, up, j) != At(src, up, i)
    {
      AtInjective(dst, up, j, if p == 0 then i else i - p + 0x10000);
    }
  }

  lemma {:induction false} OriginIsRest(p: nat, i: nat)
    ensures Origin(p, i) == if p == 0 then i else i % p
    decreases i
  {
    if p > 0 && i >= p {
      OriginIsRest(p, i - p);
      Division(i, p, (i - p) / p + 1, (i - p) % p);
    } else if p > 0 {
      Division(i, p, 0, i);
    }
  }

  /** The offset of the source byte that a whole move brings to destination offset j. */
  function SourceOf(s: Cpu, up: bool, j: nat): nat {
    var p := Lag(s.hl, s.de, up);
    if p == 0 then j else j % p
  }

  predicate Touched(s: Cpu, up: bool, n: nat, a: word) { exists j :: 0 <= j < n && At(s.de, up, j) == a }

  /** The two windows have no address in common. */
  predicate Disjoint(s: Cpu, up: bool, n: nat) {
    forall i, j :: 0 <= i < n && 0 <= j < n ==> At(s.hl, up, i) != At(s.de, up, j)
  }

  /** RAM m after a move of n bytes from s: each offset holds its source byte, the rest is untouched. */
  predicate MovedTo(s: Cpu, up: bool, n: nat, m: Ram) {
    && (forall j :: 0 <= j < n ==> m[At(s.de, up, j)] == s.ram[At(s.hl, up, SourceOf(s, up, j))])
    && (forall a: word :: !Touched(s, up, n, a) ==> m[a] == s.ram[a])
  }

  /**
   RAM after a whole LDIR or LDDR, whatever the overlap. With DE next to HL in the direction
   of the move it is a fill with one byte, with disjoint windows a block copy that leaves
   its source.
   */
  lemma WholeMove(s: Cpu, up: bool)
    requires Undisturbed(s) && AtEd(s, MoveOp(up)) && s.bc > 0 && WindowClear(s, up, s.bc)
    ensures var m := Run(s, s.bc).ram;
            && MovedTo(s, up, s.bc, m)
            && (s.de == W(s.hl + Dir(up)) ==> forall j :: 0 <= j < s.bc ==> m[At(s.de, up, j)] == s.ram[s.hl])
            && (Disjoint(s, up, s.bc) ==>
                  forall j :: 0 <= j < s.bc ==>
                    m[At(s.de, up, j)] == s.ram[At(s.hl, up, j)] == m[At(s.hl, up, j)])
  {
    hide Run, At, W, Lag, Undisturbed, AtEd, WindowClear, MkF, FS, FZ, FC, N1, B3, Pair, Hi, Lo, B, BumpBy, SourceOf;
    var n := s.bc;
    BlockMove(s, up, n, n);
    var m := Copy(s.ram, s.hl, s.de, up, n);
    forall j | 0 <= j < n
      ensures m[At(s.de, up, j)] == s.ram[At(s.hl, up, SourceOf(s, up, j))]
    {
      CopyClosedForm(s.ram, s.hl, s.de, up, n, j);
      SourceIsOrigin(s, up, j);
    }
    forall a: word | !Touched(s, up, n, a)
      ensures m[a] == s.ram[a]
    {
      CopyFrame(s.ram, s.hl, s.de, up, n, a);
    }
    if s.de == W(s.hl + Dir(up)) {
      forall j | 0 <= j < n ensures At(s.hl, up, SourceOf(s, up, j)) == s.hl { FillSource(s, up, j); }
    }
    if Disjoint(s, up, n) {
      forall j | 0 <= j < n ensures SourceOf(s, up, j) == j && !Touched(s, up, n, At(s.hl, up, j)) {
        BlockSource(s, up, n, j);
      }
    }
  }

  lemma SourceIsOrigin(s: Cpu, up: bool, j: nat)
    ensures SourceOf(s, up, j) == Origin(Lag(s.hl, s.de, up), j)
  {
    hide Lag;
    OriginIsRest(Lag(s.hl, s.de, up), j);
  }

  /** DE one beyond HL: every offset is a copy of the first byte. */
  lemma FillSource(s: Cpu, up: bool, j: nat)
    requires s.de == W(s.hl + Dir(up))
    ensures At(s.hl, up, SourceOf(s, up, j)) == s.hl
  {
    hide At;
    assert Lag(s.hl, s.de, up) == 1;
    AtStart(s.hl, up);
  }

  /** Disjoint windows: every offset is its own source. */
  lemma BlockSource(s: Cpu, up: bool, n: nat, j: nat)
    requires Disjoint(s, up, n) && j < n
    ensures SourceOf(s, up, j) == j
  {
    hide At, Lag;
    var p := Lag(s.hl, s.de, up);
    if 0 < p <= j {
      AtLag(s.hl, s.de, up, p);
      assert false;
    } else if p > 0 {
      Division(j, p, 0, j);
    }
  }

  // ---- CPIR and CPDR ------------------------------------------------------------------------

  function FindOp(up: bool): byte { if up then 0xB1 else 0xB9 }

  /** BC = 0 counts 65536 rounds. */
  function Rounds(s: Cpu): nat { if s.bc == 0 then 0x10000 else s.bc }

  /** The flags of one block comparison of a with v. */
  function FindFlags(a: byte, v: byte, more: bool, c: bool): byte {
    var r := B(a - v);
    var h := a % 0x10 - v % 0x10 < 0;
    var n := B(r - Num(h));
    MkF(Neg(r), r == 0, N1(n), h, B3(n), more, true, c)
  }

  /** The machine after k rounds of a block search. */
  function Searched(s: Cpu, up: bool, k: nat, again: bool): Cpu
    requires 1 <= k <= Rounds(s)
  {
    SetF(s.(hl := At(s.hl, up, k), bc := W(s.bc - k),
            pc := if again then s.pc else W(s.pc + 2), r := BumpBy(s.r, 2 * k),
            ints := s.ints.(eiDelay := false), dbg := s.dbg.(stepMode := false),
            cycles := s.cycles + 21 * k - (if again then 0 else 5),
            instrs := s.instrs + k, fetched := s.fetched + 2 * k),
         FindFlags(RegA(s), s.ram[At(s.hl, up, k - 1)], k < Rounds(s), FC(RegF(s))))
  }

  lemma CpStepFlags(s: Cpu, d: int)
    ensures CpStep(s, d) == SetF(s.(hl := W(s.hl + d), bc := W(s.bc - 1)),
                                 FindFlags(RegA(s), s.ram[s.hl], W(s.bc - 1) != 0, FC(RegF(s))))
    ensures Matches(s) <==> s.ram[s.hl] == RegA(s)
  {
    hide MkF;
  }

  predicate Found(s: Cpu, up: bool, i: nat) { s.ram[At(s.hl, up, i)] == RegA(s) }
  predicate NoneBefore(s: Cpu, up: bool, k: int) { forall j :: 0 <= j < k ==> !Found(s, up, j) }

  lemma Countdown(bc: word, k: nat)
    requires k < (if bc == 0 then 0x10000 else bc)
    ensures W(W(bc - k) - 1) == W(bc - (k + 1))
    ensures W(bc - (k + 1)) != 0 <==> k + 1 < (if bc == 0 then 0x10000 else bc)
  {
  }

  /** One round of CPIR or CPDR, whatever came before it. */
  function Look(s: Cpu, up: bool): Out {
    var u := Fetched(Fetched(Undelayed(Armed(s))));
    var v := CpStep(u, Dir(up));
    Repeat(v, !Matches(u) && v.bc != 0)
  }

  lemma FirstFind(s: Cpu, up: bool)
    ensures Look(s, up).s == Searched(s, up, 1, 1 < Rounds(s) && !Found(s, up, 0))
  {
    hide FindFlags, FC, Pair, Hi, Lo, BumpR, At, Dir, W, CpStep, Matches;
    CpStepFlags(Fetched(Fetched(Undelayed(Armed(s)))), Dir(up));
    BumpTwice(s.r, 0);
    PcRound(s.pc);
    AtStart(s.hl, up);
    WSmall(s.bc);
    Countdown(s.bc, 0);
  }

  lemma NextFind(s: Cpu, up: bool, k: nat)
    requires 1 <= k < Rounds(s)
    ensures Look(Searched(s, up, k, true), up).s
         == Searched(s, up, k + 1, k + 1 < Rounds(s) && !Found(s, up, k))
  {
    hide FindFlags, FC, Pair, Hi, Lo, BumpR, At, Dir, W, CpStep, Matches;
    CpStepFlags(Fetched(Fetched(Undelayed(Armed(Searched(s, up, k, true))))), Dir(up));
    BumpTwice(s.r, 2 * k);
    PcRound(s.pc);
    AtNext(s.hl, up, k);
    Countdown(s.bc, k);
    var f := FindFlags(RegA(s), s.ram[At(s.hl, up, k - 1)], true, FC(RegF(s)));
    FindFlagsBits(RegA(s), s.ram[At(s.hl, up, k - 1)], true, FC(RegF(s)));
    PairParts(RegA(s), f);
  }

  lemma StillThere(s: Cpu, up: bool, k: nat, op: byte)
    requires Undisturbed(s) && AtEd(s, op) && 1 <= k <= Rounds(s)
    ensures Undisturbed(Searched(s, up, k, true)) && AtEd(Searched(s, up, k, true), op)
  {
    hide FindFlags, At, W, BumpBy, Pair;
  }

  lemma FindFlagsBits(a: byte, v: byte, more: bool, c: bool)
    ensures var f := FindFlags(a, v, more, c);
            FZ(f) == (a == v) && FP(f) == more && FC(f) == c && FN(f)
  {
    hide MkF, FC, FZ, FP, FN;
    var r := B(a - v);
    var h := a % 0x10 - v % 0x10 < 0;
    var n := B(r - Num(h));
    MkFBits(Neg(r), r == 0, N1(n), h, B3(n), more, true, c);
  }

  /**
   CPIR and CPDR: as long as no earlier byte equals A, k calls of ExecuteOne leave exactly
   Searched, and the instruction is left iff byte k - 1 equals A or the count ran out.
   Memory, A and C do not change.
   */
  lemma {:induction false} BlockSearch(s: Cpu, up: bool, k: nat)
    requires Undisturbed(s) && AtEd(s, FindOp(up))
    requires 1 <= k <= Rounds(s)
    requires NoneBefore(s, up, k - 1)
    ensures Run(s, k) == Searched(s, up, k, k < Rounds(s) && !Found(s, up, k - 1))
  {
    hide Step, EdQuad1, CpStep, Matches, Repeat, Searched, Fetched, Armed, Undelayed, Undisturbed, AtEd, Found,
         Rounds, At, W;
    var t := if k == 1 then s else Searched(s, up, k - 1, true);
    if k > 1 {
      BlockSearch(s, up, k - 1);
      StillThere(s, up, k - 1, FindOp(up));
    }
    assert Run(s, k) == Step(t).s;
    StepEd(t, FindOp(up));
    var u := Fetched(Fetched(Undelayed(Armed(t))));
    assert Ed(u, FindOp(up)) == EdBlock(u, if up then 6 else 7, 1) by { hide EdBlock; }
    assert Step(t) == Look(t, up);
    if k == 1 { FirstFind(s, up); } else { NextFind(s, up, k - 1); }
  }

  /** The end of the search: Z says whether A was found, P/V whether BC is not yet zero. */
  lemma SearchResult(s: Cpu, up: bool, k: nat)
    requires Undisturbed(s) && AtEd(s, FindOp(up))
    requires 1 <= k <= Rounds(s)
    requires NoneBefore(s, up, k - 1)
    requires k == Rounds(s) || Found(s, up, k - 1)
    ensures var e := Run(s, k);
            && FZ(RegF(e)) == Found(s, up, k - 1) && FP(RegF(e)) == (e.bc != 0)
            && FC(RegF(e)) == FC(RegF(s)) && RegA(e) == RegA(s) && e.ram == s.ram
            && e.hl == At(s.hl, up, k) && e.bc == W(s.bc - k) && e.pc == W(s.pc + 2)
  {
    hide Step, FindFlags, Pair, Hi, Lo, FC, FZ, FP, BumpBy, At, W, Run;
    BlockSearch(s, up, k);
    Countdown(s.bc, k - 1);
    FindFlagsBits(RegA(s), s.ram[At(s.hl, up, k - 1)], k < Rounds(s), FC(RegF(s)));
    PairParts(RegA(s), FindFlags(RegA(s), s.ram[At(s.hl, up, k - 1)], k < Rounds(s), FC(RegF(s))));
  }
}
