/** parity8, which folds a byte onto its lowest bit, is the evenness of its number of ones. */
module Z80Parity {
  import opened Bytes
  import opened Z80Alu

  /** The source's three shift-and-xor steps. */
  function Fold(v: bv8): bv8 {
    var v1 := v ^ (v >> 4);
    var v2 := v1 ^ (v1 >> 2);
    v2 ^ (v2 >> 1)
  }

  predicate Parity8(v: bv8) { Fold(v) & 1 == 0 }

  /** The exclusive or of all bits. */
  function XorBits(v: bv8): bv8 {
    if v == 0 then 0 else (v & 1) ^ XorBits(v >> 1)
  }

  lemma AddIsXor(a: bv8, b: bv8)
    requires a <= 1 && b <= 1
    ensures a ^ b <= 1 && (a as int + b as int) % 2 == (a ^ b) as int
  {
  }

  lemma OnesStep(n: nat)
    ensures Ones(n) == n % 2 + Ones(n / 2) && Ones(0) == 0
  {
  }

  lemma {:induction false} OnesAreXor(v: bv8)
    ensures XorBits(v) <= 1 && Ones(v as int) % 2 == XorBits(v) as int
    decreases v
  {
    hide Ones;
    OnesStep(v as int);
    if v != 0 {
      LowBit(v);
      OnesAreXor(v >> 1);
      JoinBit(v & 1, XorBits(v >> 1), Ones((v >> 1) as int));
    }
  }

  lemma JoinBit(a: bv8, b: bv8, n: nat)
    requires a <= 1 && b <= 1 && n % 2 == b as int
    ensures a ^ b <= 1 && (a as int + n) % 2 == (a ^ b) as int
  {
    AddIsXor(a, b);
    assert (a as int + n) % 2 == (a as int + b as int) % 2;
  }

  lemma XorStep(v: bv8)
    ensures XorBits(v) == (v & 1) ^ XorBits(v >> 1)
  {
  }

  lemma FoldIsXor(v: bv8)
    ensures Fold(v) & 1 == XorBits(v)
  {
    hide XorBits;
    XorStep(v);
    XorStep(v >> 1);
    XorStep(v >> 2);
    XorStep(v >> 3);
    XorStep(v >> 4);
    XorStep(v >> 5);
    XorStep(v >> 6);
    XorStep(v >> 7);
    XorNone();
    Shifts(v);
  }

  lemma XorNone()
    ensures XorBits(0) == 0
  {
  }

  lemma Shifts(v: bv8)
    ensures (v >> 1) >> 1 == v >> 2 && (v >> 2) >> 1 == v >> 3 && (v >> 3) >> 1 == v >> 4 && (v >> 4) >> 1 == v >> 5
    ensures (v >> 5) >> 1 == v >> 6 && (v >> 6) >> 1 == v >> 7 && (v >> 7) >> 1 == 0
  {
  }

  /** For every byte. */
  lemma ParityFold(v: bv8)
    ensures Parity8(v) <==> Parity(v as int)
  {
    hide Fold, XorBits, Ones;
    FoldIsXor(v);
    OnesAreXor(v);
  }
}
