/** Fixed-width unsigned arithmetic as the emulators use it: uint8_t, uint16_t and their casts. */
module Bytes {
  import Bits

  type byte = x: int | 0 <= x < 0x100
  type word = x: int | 0 <= x < 0x10000

  /** The 64 KiB a 16-bit address reaches. */
  type Ram = m: seq<byte> | |m| == 0x10000 witness seq(0x10000, _ => 0)

  /** The cast to uint16_t: reduction modulo 2^16, also for negative arguments; see Casts. */
  function W(x: int): word {
    if 0 <= x < 0x10000 then x else if 0x10000 <= x < 0x20000 then x - 0x10000
    else if -0x10000 <= x < 0 then x + 0x10000 else x % 0x10000
  }

  /** Wrapping early or late is the same. */
  lemma AddWraps(x: int, j: int)
    ensures W(W(x) + j) == W(x + j)
  {
    var q, p := x / 0x10000, (x + j) / 0x10000;
    assert W(x) == x - 0x10000 * q;
    assert W(x) + j == W(x + j) + 0x10000 * (p - q);
  }

  /** The one way to write x as a multiple of m and a remainder. */
  lemma Division(x: int, m: int, q: int, r: int)
    requires m > 0 && x == m * q + r && 0 <= r < m
    ensures x / m == q && x % m == r
  {
    var d := x / m - q;
    assert m * d == r - x % m;
    assert d >= 1 ==> m * d >= m;
    assert d <= -1 ==> m * d <= 0 - m;
  }

  /** The cast to uint8_t. */
  function B(x: int): byte {
    if 0 <= x < 0x100 then x else if 0x100 <= x < 0x200 then x - 0x100
    else if -0x100 <= x < 0 then x + 0x100 else x % 0x100
  }

  /** The near cases of the casts only spare the division. */
  lemma Casts(x: int)
    ensures W(x) == x % 0x10000 && B(x) == x % 0x100
  {
  }

  function Hi(w: word): byte { w / 0x100 }
  function Lo(w: word): byte { w % 0x100 }
  function Pair(hi: byte, lo: byte): word { hi * 0x100 + lo }

  /** The halves of a pair, and the pair of halves. */
  lemma PairParts(h: byte, l: byte)
    ensures Hi(Pair(h, l)) == h && Lo(Pair(h, l)) == l
  {
  }

  lemma PairZero(h: byte, l: byte)
    ensures Pair(h, l) == 0 <==> h == 0 && l == 0
  {
  }

  lemma PairOf(w: word)
    ensures Pair(Hi(w), Lo(w)) == w
  {
  }

  /** The cast of a uint8_t to int8_t. */
  function Signed(b: byte): int { if b < 0x80 then b else b - 0x100 }

  /** The bitwise operators on bytes. */
  function And(a: byte, b: byte): byte { ((a as bv8) & (b as bv8)) as int }
  function Or(a: byte, b: byte): byte { ((a as bv8) | (b as bv8)) as int }
  function Xor(a: byte, b: byte): byte { ((a as bv8) ^ (b as bv8)) as int }

  /** A byte survives the way to a bit vector and back. */
  lemma ByteBack(v: byte)
    ensures (v as bv8) as int == v
  {
    Bits.ThereAndBack(v);
  }

  lemma BvBack(v: bv8)
    ensures (v as int) as bv8 == v && ((v as int) != 0 <==> v != 0)
  {
  }

  /** Taking the lowest bit off is halving. */
  lemma LowBit(v: bv8)
    ensures (v as int) % 2 == (v & 1) as int && (v as int) / 2 == (v >> 1) as int
  {
  }

  lemma AndBits(a: byte, b: byte)
    ensures And(a, b) as bv8 == (a as bv8) & (b as bv8)
  {
    BvBack((a as bv8) & (b as bv8));
  }

  lemma OrBits(a: byte, b: byte)
    ensures Or(a, b) as bv8 == (a as bv8) | (b as bv8)
  {
    BvBack((a as bv8) | (b as bv8));
  }

  lemma OrIs(a: byte, b: byte, x: bv8, y: bv8)
    requires a as bv8 == x && b as bv8 == y
    ensures Or(a, b) == (x | y) as int
  {
  }

  lemma AndIs(a: byte, b: byte, x: bv8, y: bv8)
    requires a as bv8 == x && b as bv8 == y
    ensures And(a, b) == (x & y) as int
  {
  }

  /** 1 << n for a bit number n. */
  function Mask(n: int): byte
    requires 0 <= n < 8
  {
    if n == 0 then 1 else if n == 1 then 2 else if n == 2 then 4 else if n == 3 then 8
    else if n == 4 then 16 else if n == 5 then 32 else if n == 6 then 64 else 128
  }

  predicate Bit(v: byte, n: int)
    requires 0 <= n < 8
  {
    v / Mask(n) % 2 == 1
  }

  function Num(b: bool): byte { if b then 1 else 0 }

  /** Bit 7, the sign of a byte. */
  predicate Neg(v: byte) { v >= 0x80 }
}
