/** Eight-bit vectors and the numbers below 256. */
module Bits {
  lemma Successor(x: bv8)
    requires x != 0xFF
    ensures (x + 1) as int == x as int + 1
  {
  }

  lemma NotLast(x: bv8)
    requires x as int < 0xFF
    ensures x != 0xFF
  {
  }

  /** The vector of a number, counted up to. */
  function Counted(v: nat): bv8 { if v == 0 then 0 else Counted(v - 1) + 1 }

  lemma {:induction false} CountedIs(v: nat)
    requires v < 0x100
    ensures Counted(v) as int == v
  {
    if v > 0 {
      CountedIs(v - 1);
      NotLast(Counted(v - 1));
      Successor(Counted(v - 1));
    }
  }

  lemma Same(w: bv8)
    ensures (w as int) as bv8 == w
  {
  }

  /** A number below 256 survives the way to eight bits and back. */
  lemma ThereAndBack(v: int)
    requires 0 <= v < 0x100
    ensures (v as bv8) as int == v
  {
    CountedIs(v);
    Same(Counted(v));
    Agree(v, Counted(v));
  }

  lemma Agree(v: int, w: bv8)
    requires w as int == v && (w as int) as bv8 == w
    ensures 0 <= v < 0x100 && (v as bv8) as int == v
  {
  }
}
