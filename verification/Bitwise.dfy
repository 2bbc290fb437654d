/** The bitwise operators on numbers, told bit by bit without bit vectors. */
module Bitwise {
  import opened Bytes

  datatype BitOp = Conj | Disj | Differ

  predicate Joined(op: BitOp, x: bool, y: bool) {
    match op
    case Conj => x && y
    case Disj => x || y
    case Differ => x != y
  }

  function Pow2(n: nat): (p: nat)
    ensures p > 0
  {
    if n == 0 then 1 else 2 * Pow2(n - 1)
  }

  /** Bit i of a number. */
  predicate BitAt(v: nat, i: nat) { v / Pow2(i) % 2 == 1 }

  /** The lowest n bits of a and b, joined bit by bit. */
  function Combine(op: BitOp, a: nat, b: nat, n: nat): nat {
    if n == 0 then 0
    else 2 * Combine(op, a / 2, b / 2, n - 1) + if Joined(op, a % 2 == 1, b % 2 == 1) then 1 else 0
  }

  lemma HalfThen(v: nat, p: nat)
    requires p > 0
    ensures v / (2 * p) == v / 2 / p
  {
    var q, r := v / 2 / p, v / 2 % p;
    assert v / 2 == p * q + r;
    assert v == 2 * p * q + (2 * r + v % 2);
    Division(v, 2 * p, q, 2 * r + v % 2);
  }

  lemma BitAbove(v: nat, i: nat)
    requires i > 0
    ensures BitAt(v, i) == BitAt(v / 2, i - 1)
  {
    HalfThen(v, Pow2(i - 1));
  }

  /** Each of the n bits is joined from the same bits of the operands; above them there is nothing. */
  lemma {:induction false} CombineAt(op: BitOp, a: nat, b: nat, n: nat, i: nat)
    requires i < n
    ensures BitAt(Combine(op, a, b, n), i) == Joined(op, BitAt(a, i), BitAt(b, i))
    decreases i
  {
    var c := Combine(op, a, b, n);
    assert c / 2 == Combine(op, a / 2, b / 2, n - 1);
    if i > 0 {
      BitAbove(a, i);
      BitAbove(b, i);
      BitAbove(c, i);
      CombineAt(op, a / 2, b / 2, n - 1, i - 1);
    }
  }

  lemma {:induction false} CombineBelow(op: BitOp, a: nat, b: nat, n: nat)
    ensures Combine(op, a, b, n) < Pow2(n)
  {
    if n > 0 { CombineBelow(op, a / 2, b / 2, n - 1); }
  }

  // ---- Eight-bit vectors ------------------------------------------------------------------

  function Vector(op: BitOp, v: bv8, w: bv8): bv8 {
    match op
    case Conj => v & w
    case Disj => v | w
    case Differ => v ^ w
  }

  lemma VectorStep(op: BitOp, v: bv8, w: bv8)
    ensures Vector(op, v, w) >> 1 == Vector(op, v >> 1, w >> 1)
    ensures Vector(op, v, w) & 1 == 1 <==> Joined(op, v & 1 == 1, w & 1 == 1)
  {
  }

  lemma {:induction false} VectorIs(op: BitOp, v: bv8, w: bv8, n: nat)
    requires (v as int) < Pow2(n) && (w as int) < Pow2(n)
    ensures Vector(op, v, w) as int == Combine(op, v as int, w as int, n)
    decreases n
  {
    hide Vector, Joined;
    if n == 0 {
      NoBits(op, v, w);
    } else {
      var u := Vector(op, v, w);
      LowBit(v);
      LowBit(w);
      LowBit(u);
      LastBit(v);
      LastBit(w);
      LastBit(u);
      VectorStep(op, v, w);
      VectorIs(op, v >> 1, w >> 1, n - 1);
    }
  }

  lemma NoBits(op: BitOp, v: bv8, w: bv8)
    requires (v as int) < 1 && (w as int) < 1
    ensures Vector(op, v, w) as int == 0
  {
    assert v == 0 && w == 0;
  }

  lemma LastBit(v: bv8)
    ensures (v & 1) as int == 1 <==> v & 1 == 1
    ensures (v & 1) as int == 0 <==> v & 1 != 1
  {
  }

  lemma ByteBelow(a: byte)
    ensures a < Pow2(8)
  {
    assert Pow2(4) == 16;
    assert Pow2(6) == 64;
  }

  /** The operators on bytes, bit by bit. */
  lemma ByteOps(a: byte, b: byte)
    ensures And(a, b) == Combine(Conj, a, b, 8)
    ensures Or(a, b) == Combine(Disj, a, b, 8)
    ensures Xor(a, b) == Combine(Differ, a, b, 8)
  {
    hide Combine, Pow2;
    ByteBack(a);
    ByteBack(b);
    ByteBelow(a);
    ByteBelow(b);
    VectorIs(Conj, a as bv8, b as bv8, 8);
    VectorIs(Disj, a as bv8, b as bv8, 8);
    VectorIs(Differ, a as bv8, b as bv8, 8);
  }
}
