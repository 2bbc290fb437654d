/** Hexadecimal digits may be written in either case, and no other character counts as one. */
module SrecCase {
  import opened Bytes
  import opened Srec
  import opened Wrappers

  /** The value of a hexadecimal digit. */
  function DigitOf(c: char): Option<nat> {
    var n := c as int;
    if 48 <= n < 58 then Some(n - 48) else if 65 <= n < 71 then Some(n - 55)
    else if 97 <= n < 103 then Some(n - 87) else None
  }

  /** The same character, or the same digit in the other case. */
  predicate Alike(c: char, d: char) { c == d || (DigitOf(c).Some? && DigitOf(c) == DigitOf(d)) }

  predicate AllAlike(a: string, b: string) { |a| == |b| && forall i :: 0 <= i < |a| ==> Alike(a[i], b[i]) }

  lemma SameNibble(c: char, d: char)
    requires Alike(c, d)
    ensures Nibble(c) == Nibble(d) && (c == '+' <==> d == '+')
    ensures Nibble(c).Some? <==> DigitOf(c).Some?
  {
  }

  lemma SamePair(c: char, c1: char, d: char, d1: char)
    requires Alike(c, d) && Alike(c1, d1)
    ensures Hex2(c, c1) == Hex2(d, d1) && HexOrZero(c, c1) == HexOrZero(d, d1)
  {
    hide Nibble, Alike;
    SameNibble(c, d);
    SameNibble(c1, d1);
  }

  lemma {:induction false} SamePairs(l: Loader, a: word, p: string, q: string)
    requires AllAlike(p, q)
    ensures PutPairs(l, a, p) == PutPairs(l, a, q)
    decreases |p|
  {
    hide Hex2, Put, Alike;
    if |p| >= 2 {
      SamePair(p[0], p[1], q[0], q[1]);
      var next := if Hex2(p[0], p[1]).Some? then (Put(Mc6809, l, a, Hex2(p[0], p[1]).value), W(a + 1)) else (l, a);
      SamePairs(next.0, next.1, p[2..], q[2..]);
    }
  }

  lemma SameByteAt(p: string, q: string, i: nat)
    requires AllAlike(p, q)
    ensures ByteAt(p, i) == ByteAt(q, i)
  {
    hide HexOrZero, Alike;
    Reflexive('\0');
    SamePair(At(p, i), At(p, i + 1), At(q, i), At(q, i + 1));
  }

  lemma Reflexive(c: char)
    ensures Alike(c, c)
  {
  }

  lemma {:induction false} SameCounted(p: string, q: string, i: nat, n: int)
    requires AllAlike(p, q)
    ensures CountedBytes(p, i, n) == CountedBytes(q, i, n)
    decreases n
  {
    hide ByteAt, Alike;
    if n > 0 {
      SameByteAt(p, q, i);
      SameCounted(p, q, i + 2, n - 1);
    }
  }

  /** Both readers take a line and the same line in the other case for the same record. */
  lemma CaseFree(r: Reader, l: Loader, p: string, q: string)
    requires AllAlike(p, q)
    ensures ReadLine(r, l, p) == ReadLine(r, l, q)
  {
    if r.Mc6809? { Same6809(l, p, q); } else { SameEm8(l, p, q); }
  }

  lemma Types(p: string, q: string, c: char)
    requires AllAlike(p, q) && c in "S19"
    ensures forall i :: 0 <= i < |p| ==> (p[i] == c <==> q[i] == c)
  {
  }

  lemma SameEm8(l: Loader, p: string, q: string)
    requires AllAlike(p, q)
    ensures ReadLineEm8(l, p) == ReadLineEm8(l, q)
  {
    hide ByteAt, CountedBytes, PutAll, Alike;
    Types(p, q, 'S');
    Types(p, q, '1');
    Types(p, q, '9');
    SameByteAt(p, q, 2);
    SameByteAt(p, q, 4);
    SameByteAt(p, q, 6);
    SameCounted(p, q, 8, ByteAt(p, 2) - 3);
  }

  lemma Same6809(l: Loader, p: string, q: string)
    requires AllAlike(p, q)
    ensures ReadLine6809(l, p) == ReadLine6809(l, q)
  {
    hide Hex2, PutPairs, Alike;
    Types(p, q, 'S');
    Types(p, q, '1');
    Types(p, q, '9');
    if |p| >= 4 { SamePair(p[2], p[3], q[2], q[3]); }
    if |p| >= 8 {
      SamePair(p[4], p[5], q[4], q[5]);
      SamePair(p[6], p[7], q[6], q[7]);
    }
    if |p| >= 10 {
      var addr := Pair(Or0(Hex2(p[4], p[5])), Or0(Hex2(p[6], p[7])));
      SamePairs(l, addr, p[2..][6..|p| - 4], q[2..][6..|q| - 4]);
    }
  }
}
