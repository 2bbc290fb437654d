/**
 What a breakpoint condition means: expression trees, the register each spelling names, the
 number each literal writes and the value of each operator, told without the evaluator.
 */
module CondMeaning {
  import opened Bitwise
  import opened CondGrammar
  import opened Wrappers

  datatype Op = OpOr | OpAnd | OpCmp(cmp: Cmp) | OpBit

  /**
   An expression with the blanks it is printed with: `pre` before a leaf or an operator,
   `open` and `close` before the parentheses, should it need them.
   */
  datatype Expr =
    | Reg(pre: string, name: string)
    | Lit(pre: string, text: string)
    | Bin(op: Op, left: Expr, right: Expr, pre: string, open: string, close: string)

  // ---- Registers ------------------------------------------------------------------------

  /** The name is the lower-case word, each letter in either case. */
  predicate Spells(name: string, word: string) {
    |name| == |word| && forall i :: 0 <= i < |word| ==> name[i] == word[i] || name[i] as int == word[i] as int - 32
  }

  function Em8Name(r: Regs, name: string): Option<u32>
    requires r.Em8?
  {
    if Spells(name, "a") then Some(r.a)
    else if Spells(name, "x") then Some(r.x)
    else if Spells(name, "y") then Some(r.y)
    else if Spells(name, "sp") then Some(r.sp)
    else if Spells(name, "pc") then Some(r.pc)
    else if Spells(name, "fl") then Some(r.fl)
    else None
  }

  /** One or two decimal digits below 16: the number of a word register. */
  function Numbered(ds: string): (n: Option<nat>)
    ensures n.Some? ==> n.value < 16
  {
    if |ds| == 1 && '0' <= ds[0] <= '9' then Some(ds[0] as int - 48)
    else if |ds| == 2 && ds[0] == '0' && '0' <= ds[1] <= '9' then Some(ds[1] as int - 48)
    else if |ds| == 2 && ds[0] == '1' && '0' <= ds[1] <= '5' then Some(ds[1] as int - 38)
    else None
  }

  /** The special registers, RH0-RH7, RL0-RL7 and R0-R15 (a leading zero allowed). */
  function Z8000Name(r: Regs, name: string): Option<u32>
    requires r.Z8000? && |r.r| == 16
  {
    if Spells(name, "pc") then Some(r.pc)
    else if Spells(name, "fcw") then Some(r.fcw)
    else if Spells(name, "psap") then Some(r.psap)
    else if name == "" || (name[0] != 'R' && name[0] != 'r') then None
    else if |name| == 3 && (name[1] == 'H' || name[1] == 'h') && '0' <= name[2] <= '7' then
      Some((r.r[name[2] as int - 48] / 256) as u32)
    else if |name| == 3 && (name[1] == 'L' || name[1] == 'l') && '0' <= name[2] <= '7' then
      Some((r.r[name[2] as int - 48] % 256) as u32)
    else match Numbered(name[1..])
      case None => None
      case Some(n) => Some(r.r[n] as u32)
  }

  /** The register a spelling names. */
  function NameValue(r: Regs, name: string): Option<u32>
    requires r.Z8000? ==> |r.r| == 16
  {
    if r.Em8? then Em8Name(r, name) else Z8000Name(r, name)
  }

  // ---- Literals -------------------------------------------------------------------------

  predicate Digit(c: char, base: nat) {
    '0' <= c <= '9' || (base == 16 && ('a' <= c <= 'f' || 'A' <= c <= 'F'))
  }

  function DigitValue(c: char): nat {
    if '0' <= c <= '9' then c as int - 48
    else if 'a' <= c <= 'f' then c as int - 87
    else if 'A' <= c <= 'F' then c as int - 55
    else 0
  }

  /** The number written by digits, most significant first. */
  function DigitsValue(ds: string, base: nat): nat {
    if ds == "" then 0 else DigitsValue(ds[..|ds| - 1], base) * base + DigitValue(ds[|ds| - 1])
  }

  predicate AllDigits(ds: string, base: nat) { forall i :: 0 <= i < |ds| ==> Digit(ds[i], base) }

  /** Decimal digits, or $ or 0x and hexadecimal digits. */
  function Prefix(text: string): nat {
    if |text| > 1 && text[0] == '$' then 1
    else if |text| > 2 && text[0] == '0' && (text[1] == 'X' || text[1] == 'x') then 2
    else 0
  }

  function Base(text: string): nat { if Prefix(text) == 0 then 10 else 16 }

  predicate ValidLiteral(text: string) {
    && |text| > Prefix(text) && AllDigits(text[Prefix(text)..], Base(text))
    && DigitsValue(text[Prefix(text)..], Base(text)) < 0x1_0000_0000
  }

  // ---- Operators ------------------------------------------------------------------------

  predicate Holds(c: Cmp, a: int, b: int) {
    match c
    case Eq => a == b
    case Ne => a != b
    case Le => a < b || a == b
    case Ge => a > b || a == b
    case Lt => a < b
    case Gt => a > b
  }

  /** The number whose binary digits are 1 exactly where those of both a and b are; see BothBits. */
  function Both(a: nat, b: nat): (c: nat)
    ensures c <= a
  {
    if a == 0 then 0 else 2 * Both(a / 2, b / 2) + if a % 2 == 1 && b % 2 == 1 then 1 else 0
  }

  lemma BothHalf(a: nat, b: nat)
    ensures Both(a, b) / 2 == Both(a / 2, b / 2)
    ensures Both(a, b) % 2 == 1 <==> a % 2 == 1 && b % 2 == 1
  {
  }

  /** Bit i of both. */
  lemma {:induction false} BothBits(a: nat, b: nat, i: nat)
    ensures Both(a, b) / Pow2(i) % 2 == 1 <==> a / Pow2(i) % 2 == 1 && b / Pow2(i) % 2 == 1
    decreases i
  {
    hide Both;
    BothHalf(a, b);
    if i > 0 {
      var c := Both(a, b);
      HalfThen(a, Pow2(i - 1));
      HalfThen(b, Pow2(i - 1));
      HalfThen(c, Pow2(i - 1));
      BothBits(a / 2, b / 2, i - 1);
    }
  }

  function Apply(op: Op, a: u32, b: u32): u32 {
    match op
    case OpOr => if a == 0 && b == 0 then 0 else 1
    case OpAnd => if a == 0 || b == 0 then 0 else 1
    case OpCmp(c) => if Holds(c, a, b) then 1 else 0
    case OpBit => Both(a, b)
  }

  // ---- Trees ----------------------------------------------------------------------------

  predicate Blanks(w: string) { forall i :: 0 <= i < |w| ==> w[i] == ' ' || w[i] == '\t' }

  predicate ValidExpr(e: Expr, r: Regs) {
    (r.Z8000? ==> |r.r| == 16) && Blanks(e.pre) &&
    match e
    case Reg(_, name) => NameValue(r, name).Some?
    case Lit(_, text) => ValidLiteral(text)
    case Bin(_, a, b, _, open, close) => Blanks(open) && Blanks(close) && ValidExpr(a, r) && ValidExpr(b, r)
  }

  function Eval(e: Expr, r: Regs): u32
    requires ValidExpr(e, r)
  {
    match e
    case Reg(_, name) => NameValue(r, name).value
    case Lit(_, text) => DigitsValue(text[Prefix(text)..], Base(text))
    case Bin(op, a, b, _, _, _) => Apply(op, Eval(a, r), Eval(b, r))
  }
}
