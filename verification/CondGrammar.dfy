/**
 The breakpoint-condition language of em8/src/plugin_em8.cpp and z8000/src/plugin_z8000.cpp,
 which differ in their registers only: what each parse function
 computes from a cursor position, as functions. Positions run from 0 to the terminator at
 |text|. Every function returns a value and the position after it.
 */
module CondGrammar {
  import opened Bitwise
  import opened Wrappers

  type u32 = x: int | 0 <= x < 0x1_0000_0000

  type u16 = x: int | 0 <= x < 0x10000

  /** The registers a condition can name, on either machine; R0-R15 of the Z8000 are `r`. */
  datatype Regs =
    | Em8(a: u32, x: u32, y: u32, sp: u32, pc: u32, fl: u32)
    | Z8000(r: seq<u16>, pc: u32, fcw: u32, psap: u32)

  /** The text, the registers, and ULONG_MAX of the C library, which is at least 2^32 - 1. */
  datatype Source = Source(text: string, regs: Regs, ulongMax: nat) {
    /** A C string has no terminator inside. */
    predicate Valid() {
      '\0' !in text && ulongMax >= 0xFFFF_FFFF && (regs.Z8000? ==> |regs.r| == 16)
    }
  }

  /** A value and the position after it. */
  datatype Parse = Parse(v: u32, pos: nat)

  /** The character at i; the terminator at and after the end. */
  function Ch(s: Source, i: nat): char { if i < |s.text| then s.text[i] else '\0' }

  predicate Blank(c: char) { c == ' ' || c == '\t' }

  function Skip(s: Source, p: nat): (q: nat)
    requires p <= |s.text|
    ensures p <= q <= |s.text|
    decreases |s.text| - p
  {
    if p < |s.text| && Blank(s.text[p]) then Skip(s, p + 1) else p
  }

  predicate WordChar(c: char) {
    '0' <= c <= '9' || 'A' <= c <= 'Z' || 'a' <= c <= 'z' || c == '_'
  }

  predicate Is(c: char, upper: char, lower: char) { c == upper || c == lower }

  // ---- Registers -----------------------------------------------------------------------

  /** The EM8 register at p and the length of its name, in either case. */
  function TryEm8(s: Source, p: nat): Option<(u32, nat)>
    requires s.regs.Em8?
  {
    var c0, c1, c2 := Ch(s, p), Ch(s, p + 1), Ch(s, p + 2);
    if Is(c0, 'A', 'a') && !WordChar(c1) then Some((s.regs.a, 1))
    else if Is(c0, 'X', 'x') && !WordChar(c1) then Some((s.regs.x, 1))
    else if Is(c0, 'Y', 'y') && !WordChar(c1) then Some((s.regs.y, 1))
    else if Is(c0, 'S', 's') && Is(c1, 'P', 'p') && !WordChar(c2) then Some((s.regs.sp, 2))
    else if Is(c0, 'P', 'p') && Is(c1, 'C', 'c') && !WordChar(c2) then Some((s.regs.pc, 2))
    else if Is(c0, 'F', 'f') && Is(c1, 'L', 'l') && !WordChar(c2) then Some((s.regs.fl, 2))
    else None
  }

  predicate Decimal(c: char) { '0' <= c <= '9' }
  function DecimalVal(c: char): nat
    requires Decimal(c)
  {
    c as int - '0' as int
  }

  /** Register R(n). */
  function WordReg(regs: Regs, n: nat): u32
    requires regs.Z8000?
  {
    if n < |regs.r| then regs.r[n] else 0
  }

  function HalfReg(regs: Regs, high: bool, n: nat): u32
    requires regs.Z8000?
  {
    if high then WordReg(regs, n) / 0x100 else WordReg(regs, n) % 0x100
  }

  /** R0-R15, with one or two digits. */
  function TryNumbered(s: Source, p: nat): Option<(u32, nat)>
    requires s.regs.Z8000?
  {
    var c1, c2 := Ch(s, p + 1), Ch(s, p + 2);
    if !Decimal(c1) then None
    else
      var n := if Decimal(c2) then DecimalVal(c1) * 10 + DecimalVal(c2) else DecimalVal(c1);
      var adv := if Decimal(c2) then 3 else 2;
      if n < 16 && !WordChar(Ch(s, p + adv)) then Some((WordReg(s.regs, n), adv)) else None
  }

  /** The Z8000 register at p: PC, FCW, PSAP, a byte half or a numbered register. */
  function TryZ8000(s: Source, p: nat): Option<(u32, nat)>
    requires s.regs.Z8000?
  {
    var c0, c1, c2, c3 := Ch(s, p), Ch(s, p + 1), Ch(s, p + 2), Ch(s, p + 3);
    if Is(c0, 'P', 'p') && Is(c1, 'C', 'c') && !WordChar(c2) then Some((s.regs.pc, 2))
    else if Is(c0, 'F', 'f') && Is(c1, 'C', 'c') && Is(c2, 'W', 'w') && !WordChar(c3) then Some((s.regs.fcw, 3))
    else if Is(c0, 'P', 'p') && Is(c1, 'S', 's') && Is(c2, 'A', 'a') && Is(c3, 'P', 'p') && !WordChar(Ch(s, p + 4)) then
      Some((s.regs.psap, 4))
    else if !Is(c0, 'R', 'r') then None
    else if (Is(c1, 'H', 'h') || Is(c1, 'L', 'l')) && '0' <= c2 <= '7' && !WordChar(c3) then
      Some((HalfReg(s.regs, Is(c1, 'H', 'h'), DecimalVal(c2)), 3))
    else TryNumbered(s, p)
  }

  /** tryReg. */
  function TryReg(s: Source, p: nat): Option<(u32, nat)> {
    if s.regs.Em8? then TryEm8(s, p) else TryZ8000(s, p)
  }

  // ---- Numbers: strtoul -----------------------------------------------------------------

  /** The value of a digit character, 36 for any other. */
  function DigitVal(c: char): nat {
    if '0' <= c <= '9' then c as int - '0' as int
    else if 'a' <= c <= 'f' then c as int - 'a' as int + 10
    else if 'A' <= c <= 'F' then c as int - 'A' as int + 10
    else 36
  }

  predicate IsDigit(c: char, base: nat) { DigitVal(c) < base }

  /** isspace of the C locale. */
  predicate Space(c: char) { c == ' ' || 9 <= c as int <= 13 }

  function SkipSpace(s: Source, p: nat): (q: nat)
    requires p <= |s.text|
    ensures p <= q <= |s.text|
    decreases |s.text| - p
  {
    if p < |s.text| && Space(s.text[p]) then SkipSpace(s, p + 1) else p
  }

  /** The digits from p on, added to what has been read. */
  function Scan(s: Source, p: nat, base: nat, acc: nat): (r: (nat, nat))
    requires p <= |s.text| && base <= 16
    ensures p <= r.1 <= |s.text|
    decreases |s.text| - p
  {
    if p < |s.text| && IsDigit(s.text[p], base) then Scan(s, p + 1, base, acc * base + DigitVal(s.text[p]))
    else (acc, p)
  }

  /** An 0x before a hexadecimal digit belongs to a base-16 number. */
  function HexStart(s: Source, p: nat, base: nat): (q: nat)
    requires p <= |s.text|
    ensures p <= q <= |s.text|
  {
    if base == 16 && Ch(s, p) == '0' && Is(Ch(s, p + 1), 'X', 'x') && p + 2 < |s.text| && IsDigit(Ch(s, p + 2), 16)
    then p + 2 else p
  }

  /** strtoul with the cast to uint32_t: no digits means no movement, overflow clamps, minus negates. */
  function StrToUl(s: Source, p: nat, base: nat): (r: Parse)
    requires p <= |s.text| && base <= 16
    ensures p <= r.pos <= |s.text|
  {
    var q := SkipSpace(s, p);
    var minus := Ch(s, q) == '-';
    var q1 := if q < |s.text| && (minus || Ch(s, q) == '+') then q + 1 else q;
    var q2 := HexStart(s, q1, base);
    var (v, end) := Scan(s, q2, base, 0);
    if end == q2 then Parse(0, p)
    else
      var clamped := if v > s.ulongMax then s.ulongMax else v;
      var n := if minus && v <= s.ulongMax then (s.ulongMax + 1 - clamped) % (s.ulongMax + 1) else clamped;
      Parse(n % 0x1_0000_0000, end)
  }

  function Number(s: Source, p: nat): (r: Parse)
    requires p <= |s.text| && s.Valid()
    ensures p <= r.pos <= |s.text|
  {
    var q := Skip(s, p);
    if Ch(s, q) == '$' then StrToUl(s, q + 1, 16)
    else if Ch(s, q) == '0' && Is(Ch(s, q + 1), 'X', 'x') then StrToUl(s, q + 2, 16)
    else StrToUl(s, q, 10)
  }

  // ---- Operators ------------------------------------------------------------------------

  /** The & of two uint32_t, bit by bit. */
  function And32(a: u32, b: u32): u32 {
    And32Fits(a, b);
    Combine(Conj, a, b, 32)
  }

  lemma And32Fits(a: u32, b: u32)
    ensures Combine(Conj, a, b, 32) < 0x1_0000_0000
  {
    CombineBelow(Conj, a, b, 32);
    Pow32();
  }

  lemma Pow32()
    ensures Pow2(32) == 0x1_0000_0000
  {
    assert Pow2(8) == 0x100;
    assert Pow2(16) == 0x1_0000;
    assert Pow2(24) == 0x100_0000;
  }

  function Truth(b: bool): u32 { if b then 1 else 0 }

  datatype Cmp = Eq | Ne | Le | Ge | Lt | Gt

  function Compared(op: Cmp, a: u32, b: u32): u32 {
    match op
    case Eq => Truth(a == b)
    case Ne => Truth(a != b)
    case Le => Truth(a <= b)
    case Ge => Truth(a >= b)
    case Lt => Truth(a < b)
    case Gt => Truth(a > b)
  }

  function CmpLen(op: Cmp): nat { if op.Lt? || op.Gt? then 1 else 2 }

  /** The comparison that starts at p, in the order the source tries them. */
  function CmpAt(s: Source, p: nat): (op: Option<Cmp>)
    ensures op.Some? && s.Valid() ==> p + CmpLen(op.value) <= |s.text|
  {
    var c0, c1 := Ch(s, p), Ch(s, p + 1);
    if c0 == '=' && c1 == '=' then Some(Eq)
    else if c0 == '!' && c1 == '=' then Some(Ne)
    else if c0 == '<' && c1 == '=' then Some(Le)
    else if c0 == '>' && c1 == '=' then Some(Ge)
    else if c0 == '<' then Some(Lt)
    else if c0 == '>' then Some(Gt)
    else None
  }

  predicate BitAndAt(s: Source, p: nat) { Ch(s, p) == '&' && Ch(s, p + 1) != '&' }
  predicate AndAt(s: Source, p: nat) { Ch(s, p) == '&' && Ch(s, p + 1) == '&' }
  predicate OrAt(s: Source, p: nat) { Ch(s, p) == '|' && Ch(s, p + 1) == '|' }

  // ---- The four levels ------------------------------------------------------------------

  function Primary(s: Source, p: nat): (r: Parse)
    requires p <= |s.text| && s.Valid()
    ensures p <= r.pos <= |s.text|
    decreases |s.text| - p, 0
  {
    var q := Skip(s, p);
    match TryReg(s, q)
    case Some((v, len)) => Parse(v, q + len)
    case None =>
      if Ch(s, q) == '(' then
        var r := ParseOr(s, q + 1);
        var e := Skip(s, r.pos);
        Parse(r.v, if Ch(s, e) == ')' then e + 1 else e)
      else Number(s, q)
  }

  function BitAndLoop(s: Source, left: u32, p: nat): (r: Parse)
    requires p <= |s.text| && s.Valid()
    ensures p <= r.pos <= |s.text|
    decreases |s.text| - p, 1
  {
    var q := Skip(s, p);
    if BitAndAt(s, q) then
      var r := Primary(s, q + 1);
      BitAndLoop(s, And32(left, r.v), r.pos)
    else Parse(left, q)
  }

  function ParseBitAnd(s: Source, p: nat): (r: Parse)
    requires p <= |s.text| && s.Valid()
    ensures p <= r.pos <= |s.text|
    decreases |s.text| - p, 2
  {
    var r := Primary(s, p);
    BitAndLoop(s, r.v, r.pos)
  }

  /** At most one comparison follows the left operand. */
  function CompareTail(s: Source, left: u32, p: nat): (r: Parse)
    requires p <= |s.text| && s.Valid()
    ensures p <= r.pos <= |s.text|
    decreases |s.text| - p, 3
  {
    var q := Skip(s, p);
    match CmpAt(s, q)
    case None => Parse(left, q)
    case Some(op) =>
      var r := ParseBitAnd(s, q + CmpLen(op));
      Parse(Compared(op, left, r.v), r.pos)
  }

  function ParseCompare(s: Source, p: nat): (r: Parse)
    requires p <= |s.text| && s.Valid()
    ensures p <= r.pos <= |s.text|
    decreases |s.text| - p, 4
  {
    var r := ParseBitAnd(s, p);
    CompareTail(s, r.v, r.pos)
  }

  function AndLoop(s: Source, left: u32, p: nat): (r: Parse)
    requires p <= |s.text| && s.Valid()
    ensures p <= r.pos <= |s.text|
    decreases |s.text| - p, 5
  {
    var q := Skip(s, p);
    if AndAt(s, q) then
      var r := ParseCompare(s, q + 2);
      AndLoop(s, Truth(left != 0 && r.v != 0), r.pos)
    else Parse(left, q)
  }

  function ParseAnd(s: Source, p: nat): (r: Parse)
    requires p <= |s.text| && s.Valid()
    ensures p <= r.pos <= |s.text|
    decreases |s.text| - p, 6
  {
    var r := ParseCompare(s, p);
    AndLoop(s, r.v, r.pos)
  }

  function OrLoop(s: Source, left: u32, p: nat): (r: Parse)
    requires p <= |s.text| && s.Valid()
    ensures p <= r.pos <= |s.text|
    decreases |s.text| - p, 7
  {
    var q := Skip(s, p);
    if OrAt(s, q) then
      var r := ParseAnd(s, q + 2);
      OrLoop(s, Truth(left != 0 || r.v != 0), r.pos)
    else Parse(left, q)
  }

  function ParseOr(s: Source, p: nat): (r: Parse)
    requires p <= |s.text| && s.Valid()
    ensures p <= r.pos <= |s.text|
    decreases |s.text| - p, 8
  {
    var r := ParseAnd(s, p);
    OrLoop(s, r.v, r.pos)
  }
}
