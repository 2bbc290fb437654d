/** A block move that an interrupt breaks off between two rounds still completes its copy. */
module Z80Resume {
  import opened Bytes
  import opened Z80State
  import opened Z80Block

  /** The same bytes at every address that is not scratch. */
  predicate Agree(m: Ram, n: Ram, scratch: set<word>) {
    forall a: word :: a !in scratch ==> m[a] == n[a]
  }

  /** No address of the two windows of n bytes is scratch. */
  predicate WindowsApart(src: word, dst: word, up: bool, n: nat, scratch: set<word>) {
    forall j :: 0 <= j < n ==> At(src, up, j) !in scratch && At(dst, up, j) !in scratch
  }

  lemma AtAt(a: word, up: bool, k: nat, j: int)
    ensures At(At(a, up, k), up, j) == At(a, up, k + j)
  {
    hide W;
    if up { AddWraps(a + k, j); } else { AddWraps(a - k, -j); }
  }

  /** A copy of k bytes and then of the rest is the copy of all. */
  lemma {:induction false} CopySplits(m: Ram, src: word, dst: word, up: bool, k: nat, n: nat)
    requires k <= n
    ensures Copy(Copy(m, src, dst, up, k), At(src, up, k), At(dst, up, k), up, n - k) == Copy(m, src, dst, up, n)
    decreases n
  {
    hide At;
    if k < n {
      CopySplits(m, src, dst, up, k, n - 1);
      AtAt(src, up, k, n - k - 1);
      AtAt(dst, up, k, n - k - 1);
    }
  }

  /** The copy carries no scratch byte. */
  lemma {:induction false} CopyAgrees(m: Ram, m': Ram, src: word, dst: word, up: bool, n: nat, scratch: set<word>)
    requires Agree(m, m', scratch) && WindowsApart(src, dst, up, n, scratch)
    ensures Agree(Copy(m, src, dst, up, n), Copy(m', src, dst, up, n), scratch)
    decreases n
  {
    hide At;
    if n > 0 { CopyAgrees(m, m', src, dst, up, n - 1, scratch); }
  }

  /**
   r is a machine about to resume the block move that s began and that was broken off after k
   of its n rounds: registers as they were, memory too but for scratch bytes, such as those
   below the stack pointer that the handler used.
   */
  predicate Resumes(s: Cpu, r: Cpu, up: bool, k: nat, n: nat, scratch: set<word>)
    requires 1 <= k < n < 0x10000
  {
    var t := Moved(s, up, k, n);
    && Undisturbed(r) && r.af == t.af && r.bc == t.bc && r.de == t.de && r.hl == t.hl && r.pc == t.pc
    && Agree(t.ram, r.ram, scratch)
    && s.pc !in scratch && W(s.pc + 1) !in scratch && WindowsApart(s.hl, s.de, up, n, scratch)
  }

  lemma RestApart(s: Cpu, up: bool, k: nat, n: nat, scratch: set<word>)
    requires k <= n && WindowsApart(s.hl, s.de, up, n, scratch) && WindowClear(s, up, n)
    ensures WindowsApart(At(s.hl, up, k), At(s.de, up, k), up, n - k, scratch)
    ensures forall j :: 0 <= j < n - k - 1 ==>
              At(At(s.de, up, k), up, j) != s.pc && At(At(s.de, up, k), up, j) != W(s.pc + 1)
  {
    hide At;
    forall j | 0 <= j < n - k
      ensures At(At(s.hl, up, k), up, j) == At(s.hl, up, k + j) && At(At(s.de, up, k), up, j) == At(s.de, up, k + j)
    {
      AtAt(s.hl, up, k, j);
      AtAt(s.de, up, k, j);
    }
  }

  /**
   Resumed where it was broken off, after any k rounds, the block move ends as the
   uninterrupted one: same registers, A and flags, and the same memory but for scratch.
   */
  lemma MoveResumed(s: Cpu, r: Cpu, up: bool, k: nat, n: nat, scratch: set<word>)
    requires Undisturbed(s) && AtEd(s, MoveOp(up)) && WindowClear(s, up, n) && n == s.bc
    requires 1 <= k < n && Resumes(s, r, up, k, n, scratch)
    ensures var e, whole := Run(r, n - k), Run(s, n);
            && e.af == whole.af && e.bc == 0 && e.de == whole.de && e.hl == whole.hl && e.pc == whole.pc
            && Agree(whole.ram, e.ram, scratch)
  {
    hide Run, AtEd, Undisturbed, At, W, Pair, Hi, Lo, MoveFlags, BumpBy, Copy;
    var t := Moved(s, up, k, n);
    var whole := Copy(s.ram, s.hl, s.de, up, n);
    BlockMove(s, up, n, n);
    KeepsInstruction(s, up, n, k);
    RestApart(s, up, k, n, scratch);
    SameInstruction(t, r, up);
    BlockMove(r, up, n - k, n - k);
    CopySplits(s.ram, s.hl, s.de, up, k, n);
    CopyAgrees(t.ram, r.ram, t.hl, t.de, up, n - k, scratch);
    AtAt(s.hl, up, k, n - k);
    AtAt(s.de, up, k, n - k);
    AtAt(s.de, up, k, n - k - 1);
    var last := whole[At(s.de, up, n - 1)];
    PairParts(RegA(s), MoveFlags(RegA(s), RegF(s), t.ram[At(s.de, up, k - 1)], true));
    MoveFlagsAgain(RegA(s), RegF(s), t.ram[At(s.de, up, k - 1)], last, false);
  }

  lemma SameInstruction(t: Cpu, r: Cpu, up: bool)
    requires AtEd(t, MoveOp(up)) && r.pc == t.pc
    requires r.ram[t.pc] == t.ram[t.pc] && r.ram[W(t.pc + 1)] == t.ram[W(t.pc + 1)]
    ensures AtEd(r, MoveOp(up))
  {
    hide W;
  }
}
