/**
 A printed expression evaluates to its own value: for every expression tree, printed with
 parentheses only where precedence requires them and any blanks between tokens.
 */
module CondRoundTrip {
  import opened Bitwise
  import opened CondGrammar
  import opened CondMeaning
  import opened Wrappers

  // ---- Printing -------------------------------------------------------------------------

  function Level(op: Op): nat {
    match op
    case OpOr => 0
    case OpAnd => 1
    case OpCmp(_) => 2
    case OpBit => 3
  }

  /** The operand levels: && || and & associate to the left, comparisons not at all. */
  function LeftLevel(op: Op): nat { if op.OpCmp? then 3 else Level(op) }
  function RightLevel(op: Op): nat { Level(op) + 1 }

  function CmpSymbol(c: Cmp): string {
    match c
    case Eq => "=="
    case Ne => "!="
    case Le => "<="
    case Ge => ">="
    case Lt => "<"
    case Gt => ">"
  }

  function Symbol(op: Op): string {
    match op
    case OpOr => "||"
    case OpAnd => "&&"
    case OpCmp(c) => CmpSymbol(c)
    case OpBit => "&"
  }

  predicate NeedsParens(e: Expr, level: nat) { e.Bin? && Level(e.op) < level }

  function Body(e: Expr): string
    decreases e, 0
  {
    match e
    case Reg(pre, name) => pre + name
    case Lit(pre, text) => pre + text
    case Bin(op, a, b, pre, _, _) => Show(a, LeftLevel(op)) + pre + Symbol(op) + Show(b, RightLevel(op))
  }

  function Show(e: Expr, level: nat): string
    decreases e, 1
  {
    if NeedsParens(e, level) then e.open + "(" + Body(e) + e.close + ")" else Body(e)
  }

  // ---- Text at a position -----------------------------------------------------------------

  predicate At(s: Source, p: nat, w: string) {
    p + |w| <= |s.text| && s.text[p..p + |w|] == w
  }

  lemma AtSplit(s: Source, p: nat, a: string, b: string)
    requires At(s, p, a + b)
    ensures At(s, p, a) && At(s, p + |a|, b)
  {
    assert s.text[p..p + |a|] == s.text[p..p + |a + b|][..|a|];
    assert s.text[p + |a|..p + |a| + |b|] == s.text[p..p + |a + b|][|a|..];
  }

  lemma AtChar(s: Source, p: nat, w: string, i: nat)
    requires At(s, p, w) && i < |w|
    ensures Ch(s, p + i) == w[i]
  {
    assert s.text[p..p + |w|][i] == s.text[p + i];
  }

  lemma {:induction false} SkipBlanks(s: Source, p: nat, w: string)
    requires At(s, p, w) && Blanks(w)
    ensures Skip(s, p) == Skip(s, p + |w|)
    decreases |w|
  {
    if w != "" {
      AtChar(s, p, w, 0);
      AtSplit(s, p, w[..1], w[1..]);
      assert w[..1] + w[1..] == w;
      SkipBlanks(s, p + 1, w[1..]);
    }
  }

  lemma {:induction false} SkipAgain(s: Source, p: nat)
    requires p <= |s.text|
    ensures Skip(s, Skip(s, p)) == Skip(s, p)
    ensures !Blank(Ch(s, Skip(s, p)))
    decreases |s.text| - p
  {
    if p < |s.text| && Blank(s.text[p]) { SkipAgain(s, p + 1); }
  }

  lemma SkipNone(s: Source, p: nat)
    requires p <= |s.text| && !Blank(Ch(s, p))
    ensures Skip(s, p) == p
  {
  }

  // ---- Leaves -------------------------------------------------------------------------------

  lemma RegAt(s: Source, p: nat, name: string)
    requires s.Valid() && NameValue(s.regs, name).Some? && At(s, p, name) && !WordChar(Ch(s, p + |name|))
    ensures TryReg(s, p) == Some((NameValue(s.regs, name).value, |name|))
    ensures !Blank(Ch(s, p))
  {
    hide At;
    AtChar(s, p, name, 0);
    if |name| > 1 { AtChar(s, p, name, 1); }
    if |name| > 2 { AtChar(s, p, name, 2); }
    if |name| > 3 { AtChar(s, p, name, 3); }
    if s.regs.Em8? { Em8RegAt(s, p, name); } else { Z8000RegAt(s, p, name); }
  }

  lemma Em8RegAt(s: Source, p: nat, name: string)
    requires s.regs.Em8? && Em8Name(s.regs, name).Some? && !WordChar(Ch(s, p + |name|))
    requires forall i :: 0 <= i < |name| ==> Ch(s, p + i) == name[i]
    ensures TryEm8(s, p) == Some((Em8Name(s.regs, name).value, |name|)) && !Blank(Ch(s, p))
  {
    hide Ch;
    assert Ch(s, p + 0) == name[0];
    if |name| > 1 { assert Ch(s, p + 1) == name[1]; }
  }

  lemma Z8000RegAt(s: Source, p: nat, name: string)
    requires s.Valid() && s.regs.Z8000? && Z8000Name(s.regs, name).Some? && !WordChar(Ch(s, p + |name|))
    requires forall i :: 0 <= i < |name| ==> Ch(s, p + i) == name[i]
    ensures TryZ8000(s, p) == Some((Z8000Name(s.regs, name).value, |name|)) && !Blank(Ch(s, p))
  {
    hide Ch;
    assert Ch(s, p + 0) == name[0] && Ch(s, p + 1) == name[1];
    if |name| > 2 { assert Ch(s, p + 2) == name[2]; }
    if |name| > 3 { assert Ch(s, p + 3) == name[3]; }
    if !Spells(name, "pc") && !Spells(name, "fcw") && !Spells(name, "psap") { WordOrHalf(s, p, name); }
  }

  /** The names that start with R. */
  lemma WordOrHalf(s: Source, p: nat, name: string)
    requires s.Valid() && s.regs.Z8000? && Z8000Name(s.regs, name).Some? && !WordChar(Ch(s, p + |name|))
    requires forall i :: 0 <= i < |name| ==> Ch(s, p + i) == name[i]
    requires !Spells(name, "pc") && !Spells(name, "fcw") && !Spells(name, "psap")
    ensures TryZ8000(s, p) == Some((Z8000Name(s.regs, name).value, |name|)) && !Blank(Ch(s, p))
  {
    hide Ch, Spells;
    assert Ch(s, p + 0) == name[0] && Ch(s, p + 1) == name[1];
    if |name| > 2 { assert Ch(s, p + 2) == name[2]; }
    assert |name| == 2 ==> name[1..] == [name[1]];
    assert |name| == 3 ==> name[1..] == [name[1], name[2]];
  }

  /** The evaluator takes the same digits, for the same values. */
  lemma SameDigit(c: char, base: nat)
    requires base == 10 || base == 16
    ensures IsDigit(c, base) == Digit(c, base) && (Digit(c, base) ==> DigitVal(c) == DigitValue(c))
  {
  }

  lemma {:induction false} ScanDigits(s: Source, p: nat, ds: string, base: nat, k: nat)
    requires (base == 10 || base == 16) && AllDigits(ds, base) && At(s, p, ds) && !IsDigit(Ch(s, p + |ds|), base)
    requires k <= |ds|
    ensures Scan(s, p + k, base, DigitsValue(ds[..k], base)) == (DigitsValue(ds, base), p + |ds|)
    decreases |ds| - k
  {
    hide DigitsValue, At, IsDigit, Digit;
    if k == |ds| {
      assert ds[..k] == ds;
    } else {
      AtChar(s, p, ds, k);
      InText(s, p, ds, k);
      SameDigit(ds[k], base);
      NextDigit(ds, base, k);
      ScanDigits(s, p, ds, base, k + 1);
    }
  }

  lemma InText(s: Source, p: nat, w: string, k: nat)
    requires At(s, p, w) && k < |w|
    ensures p + k < |s.text| && s.text[p + k] == w[k]
  {
    AtChar(s, p, w, k);
  }

  lemma NextDigit(ds: string, base: nat, k: nat)
    requires k < |ds|
    ensures DigitsValue(ds[..k + 1], base) == DigitsValue(ds[..k], base) * base + DigitValue(ds[k])
  {
    assert ds[..k + 1][..k] == ds[..k];
  }

  /** Digits are not taken for blanks, a sign or an 0x. */
  lemma StrToUlDigits(s: Source, p: nat, ds: string, base: nat)
    requires (base == 10 || base == 16) && s.Valid()
    requires ds != "" && AllDigits(ds, base) && At(s, p, ds) && !WordChar(Ch(s, p + |ds|))
    requires DigitsValue(ds, base) < 0x1_0000_0000
    ensures StrToUl(s, p, base) == Parse(DigitsValue(ds, base), p + |ds|)
  {
    AtChar(s, p, ds, 0);
    if |ds| > 1 { AtChar(s, p, ds, 1); }
    assert ds[..0] == "";
    ScanDigits(s, p, ds, base, 0);
  }

  /** A literal starts with a digit or $. */
  lemma NotName(s: Source, p: nat)
    requires Ch(s, p) == '$' || '0' <= Ch(s, p) <= '9'
    ensures TryReg(s, p) == None && Ch(s, p) != '(' && !Blank(Ch(s, p))
  {
  }

  lemma DecimalAt(s: Source, p: nat, ds: string)
    requires ds != "" && AllDigits(ds, 10) && At(s, p, ds) && !WordChar(Ch(s, p + |ds|)) && s.Valid()
    requires DigitsValue(ds, 10) < 0x1_0000_0000
    ensures '0' <= Ch(s, p) <= '9'
    ensures Number(s, p) == Parse(DigitsValue(ds, 10), p + |ds|)
  {
    hide StrToUl, DigitsValue;
    AtChar(s, p, ds, 0);
    if |ds| > 1 { AtChar(s, p, ds, 1); }
    assert IsDigit(ds[0], 10);
    SkipNone(s, p);
    StrToUlDigits(s, p, ds, 10);
  }

  lemma HexAt(s: Source, p: nat, k: nat, ds: string)
    requires (k == 1 && Ch(s, p) == '$') || (k == 2 && Ch(s, p) == '0' && Is(Ch(s, p + 1), 'X', 'x'))
    requires ds != "" && AllDigits(ds, 16) && At(s, p + k, ds) && !WordChar(Ch(s, p + k + |ds|)) && s.Valid()
    requires DigitsValue(ds, 16) < 0x1_0000_0000
    ensures Number(s, p) == Parse(DigitsValue(ds, 16), p + k + |ds|)
  {
    hide StrToUl, DigitsValue, AllDigits, At, WordChar, Skip;
    SkipNone(s, p);
    StrToUlDigits(s, p + k, ds, 16);
  }

  lemma LiteralAt(s: Source, p: nat, text: string)
    requires ValidLiteral(text) && At(s, p, text) && !WordChar(Ch(s, p + |text|)) && s.Valid()
    ensures TryReg(s, p) == None && Ch(s, p) != '(' && !Blank(Ch(s, p))
    ensures Number(s, p) == Parse(DigitsValue(text[Prefix(text)..], Base(text)), p + |text|)
  {
    hide Number, DigitsValue, AllDigits, TryReg, WordChar, Blank, At, Ch;
    var k := Prefix(text);
    var ds := text[k..];
    assert text[..k] + ds == text;
    AtSplit(s, p, text[..k], ds);
    AtChar(s, p, text, 0);
    if k == 0 {
      assert ds == text;
      DecimalAt(s, p, ds);
    } else {
      if k == 2 { AtChar(s, p, text, 1); }
      HexAt(s, p, k, ds);
    }
    NotName(s, p);
  }

  // ---- What may follow ------------------------------------------------------------------------

  /** The token is complete, and no operator of a level above `level` comes next. */
  predicate Follows(s: Source, q: nat, level: nat) {
    && q <= |s.text| && !WordChar(Ch(s, q))
    && (level <= 2 ==> !BitAndAt(s, Skip(s, q)) && CmpAt(s, Skip(s, q)).None?)
    && (level == 0 ==> !AndAt(s, Skip(s, q)))
  }

  /** The value v is what the parse function of the level has read between p and q. */
  predicate Parsed(s: Source, level: nat, v: u32, p: nat, q: nat)
    requires p <= q <= |s.text| && s.Valid()
  {
    if level == 0 then ParseOr(s, p) == OrLoop(s, v, q)
    else if level == 1 then ParseAnd(s, p) == AndLoop(s, v, q)
    else if level == 2 then ParseCompare(s, p) == Parse(v, Skip(s, q))
    else if level == 3 then ParseBitAnd(s, p) == BitAndLoop(s, v, q)
    else Primary(s, p) == Parse(v, q)
  }

  /** What one level has read, the level below has read too, when its operator does not follow. */
  lemma Lower(s: Source, level: nat, v: u32, p: nat, q: nat)
    requires level < 4 && p <= q && Follows(s, q, level) && s.Valid() && Parsed(s, level + 1, v, p, q)
    ensures Parsed(s, level, v, p, q)
  {
    hide Primary, CmpAt, BitAndAt, AndAt, OrAt, And32, Truth, Compared;
    SkipAgain(s, q);
    var q1 := Skip(s, q);
    if level == 0 {
      assert AndLoop(s, v, q) == Parse(v, q1);
      assert OrLoop(s, v, q1) == OrLoop(s, v, q);
    } else if level == 1 {
      assert AndLoop(s, v, q1) == AndLoop(s, v, q);
    } else if level == 2 {
      assert BitAndLoop(s, v, q) == Parse(v, q1);
      assert CompareTail(s, v, q1) == Parse(v, q1);
    }
  }

  // ---- The operators --------------------------------------------------------------------------

  /** No printed expression starts like the rest of an operator. */
  predicate OperandStart(c: char) { c != '&' && c != '=' }

  lemma ShowStart(s: Source, e: Expr, level: nat, p: nat)
    requires ValidExpr(e, s.regs) && At(s, p, Show(e, level))
    ensures Show(e, level) != "" && OperandStart(Ch(s, p))
  {
    ShowStartChar(e, level, s.regs);
    AtChar(s, p, Show(e, level), 0);
  }

  lemma {:induction false} ShowStartChar(e: Expr, level: nat, r: Regs)
    requires ValidExpr(e, r)
    ensures Show(e, level) != "" && OperandStart(Show(e, level)[0])
    decreases e
  {
    if NeedsParens(e, level) {
      assert Show(e, level) == e.open + ("(" + Body(e) + e.close + ")");
    } else if e.Bin? {
      ShowStartChar(e.left, LeftLevel(e.op), r);
    } else if e.Lit? {
      LiteralStart(e.text);
    }
  }

  lemma LiteralStart(text: string)
    requires ValidLiteral(text)
    ensures OperandStart(text[0])
  {
    if Prefix(text) == 0 { assert text[0..][0] == text[0]; }
  }

  /** The positions in a printed operation: after the left operand, of the symbol, of the right operand. */
  lemma BinAt(s: Source, e: Expr, p: nat)
    requires e.Bin? && ValidExpr(e, s.regs) && At(s, p, Body(e))
    ensures var a, b := Show(e.left, LeftLevel(e.op)), Show(e.right, RightLevel(e.op));
            var qa := p + |a|;
            var os := qa + |e.pre|;
            var pb := os + |Symbol(e.op)|;
            && At(s, p, a) && At(s, os, Symbol(e.op)) && At(s, pb, b) && p + |Body(e)| == pb + |b|
            && Skip(s, qa) == os && Skip(s, os) == os && !WordChar(Ch(s, qa)) && OperandStart(Ch(s, pb))
  {
    hide Show, Body, Symbol, At, Ch, Skip, WordChar, OperandStart, Blank, Blanks, ValidExpr, LeftLevel, RightLevel;
    var a, b := Show(e.left, LeftLevel(e.op)), Show(e.right, RightLevel(e.op));
    var sym := Symbol(e.op);
    BodyOf(e);
    BlanksOf(e, s.regs);
    AtSplit(s, p, a, e.pre + (sym + b));
    AtSplit(s, p + |a|, e.pre, sym + b);
    AtSplit(s, p + |a| + |e.pre|, sym, b);
    SkipBlanks(s, p + |a|, e.pre);
    SymbolAt(s, p + |a| + |e.pre|, e.op);
    AfterBlanks(s, p + |a|, e.pre);
    ShowStart(s, e.right, RightLevel(e.op), p + |a| + |e.pre| + |sym|);
  }

  lemma BodyOf(e: Expr)
    requires e.Bin?
    ensures Body(e) == Show(e.left, LeftLevel(e.op)) + (e.pre + (Symbol(e.op) + Show(e.right, RightLevel(e.op))))
  {
    hide Show, Symbol;
  }

  /** Blanks are not word characters, so a token before them is complete. */
  lemma AfterBlanks(s: Source, p: nat, w: string)
    requires Blanks(w) && At(s, p, w) && !WordChar(Ch(s, p + |w|))
    ensures !WordChar(Ch(s, p))
  {
    if w != "" { AtChar(s, p, w, 0); }
  }

  /** The symbol is recognised where it stands, unless the next character completes another one. */
  lemma SymbolAt(s: Source, p: nat, op: Op)
    requires At(s, p, Symbol(op))
    ensures !Blank(Ch(s, p)) && !WordChar(Ch(s, p)) && Skip(s, p) == p
    ensures OrAt(s, p) <==> op.OpOr?
    ensures AndAt(s, p) ==> op.OpAnd? || op.OpBit?
    ensures op.OpAnd? ==> AndAt(s, p)
    ensures op.OpBit? && OperandStart(Ch(s, p + 1)) ==> BitAndAt(s, p)
    ensures BitAndAt(s, p) ==> op.OpBit?
    ensures op.OpCmp? && OperandStart(Ch(s, p + |Symbol(op)|)) ==> CmpAt(s, p) == Some(op.cmp)
    ensures CmpAt(s, p).Some? ==> op.OpCmp?
    ensures op.OpCmp? ==> CmpLen(op.cmp) == |Symbol(op)|
  {
    AtChar(s, p, Symbol(op), 0);
    if |Symbol(op)| == 2 { AtChar(s, p, Symbol(op), 1); }
  }

  /** A left operand may be followed by its operator. */
  lemma LeftFollows(s: Source, qa: nat, os: nat, op: Op)
    requires qa <= |s.text| && !WordChar(Ch(s, qa)) && Skip(s, qa) == os && At(s, os, Symbol(op))
    ensures Follows(s, qa, LeftLevel(op))
  {
    hide At, WordChar, Ch, Skip, Symbol, CmpAt, OrAt, AndAt, BitAndAt;
    SymbolAt(s, os, op);
  }

  lemma {:induction false} CombineIsBoth(a: nat, b: nat, n: nat)
    requires a < Pow2(n)
    ensures Bitwise.Combine(Conj, a, b, n) == Both(a, b)
    decreases n
  {
    if n > 0 { CombineIsBoth(a / 2, b / 2, n - 1); }
  }

  /** What the evaluator computes for an operator is its meaning. */
  lemma Computes(op: Op, a: u32, b: u32)
    ensures Apply(op, a, b) == match op
                               case OpOr => Truth(a != 0 || b != 0)
                               case OpAnd => Truth(a != 0 && b != 0)
                               case OpCmp(c) => Compared(c, a, b)
                               case OpBit => And32(a, b)
  {
    hide Both, Bitwise.Combine, Pow2;
    Pow32();
    CombineIsBoth(a, b, 32);
  }

  /** The loop of the operator's level takes the operator and its right operand. */
  lemma OperatorTakes(s: Source, op: Op, a: u32, b: u32, p: nat, qa: nat, os: nat, q: nat)
    requires s.Valid() && p <= qa <= os && os + |Symbol(op)| <= q <= |s.text|
    requires At(s, os, Symbol(op)) && Skip(s, qa) == os && OperandStart(Ch(s, os + |Symbol(op)|))
    requires Parsed(s, LeftLevel(op), a, p, qa)
    requires Parsed(s, RightLevel(op), b, os + |Symbol(op)|, q)
    requires Follows(s, q, Level(op))
    ensures Parsed(s, Level(op), Apply(op, a, b), p, q)
  {
    hide Primary, CmpAt, BitAndAt, AndAt, OrAt, And32, Truth, Compared, OperandStart, WordChar, CmpLen, At, Apply;
    Computes(op, a, b);
    SymbolAt(s, os, op);
    SkipAgain(s, q);
    var pb := os + |Symbol(op)|;
    match op {
      case OpOr =>
        assert AndLoop(s, b, q) == Parse(b, Skip(s, q));
        assert OrLoop(s, a, qa) == OrLoop(s, Apply(op, a, b), Skip(s, q));
      case OpAnd =>
        assert AndLoop(s, a, qa) == AndLoop(s, Apply(op, a, b), Skip(s, q));
      case OpCmp(c) =>
        assert BitAndLoop(s, a, qa) == Parse(a, os);
        assert BitAndLoop(s, b, q) == Parse(b, Skip(s, q));
        assert CompareTail(s, a, os) == Parse(Compared(c, a, b), Skip(s, q));
      case OpBit =>
        assert BitAndLoop(s, a, qa) == BitAndLoop(s, Apply(op, a, b), q);
    }
  }

  // ---- The round trip ---------------------------------------------------------------------------

  lemma LeafReads(s: Source, e: Expr, p: nat)
    requires !e.Bin? && ValidExpr(e, s.regs) && s.Valid() && At(s, p, Show(e, 4))
    requires !WordChar(Ch(s, p + |Show(e, 4)|))
    ensures Primary(s, p) == Parse(Eval(e, s.regs), p + |Show(e, 4)|)
  {
    hide Number, TryReg, WordChar, Blank, NameValue, ValidLiteral, DigitsValue, At, Skip, Show;
    var w := if e.Reg? then e.name else e.text;
    assert Show(e, 4) == e.pre + w by { LeafShow(e); }
    AtSplit(s, p, e.pre, w);
    SkipBlanks(s, p, e.pre);
    var q := p + |e.pre|;
    if e.Reg? { RegAt(s, q, w); } else { LiteralAt(s, q, w); }
    SkipNone(s, q);
  }

  lemma LeafShow(e: Expr)
    requires !e.Bin?
    ensures Show(e, 4) == e.pre + if e.Reg? then e.name else e.text
  {
  }

  /** The positions in a parenthesised expression, and what follows its body. */
  lemma ParensAt(s: Source, e: Expr, p: nat)
    requires e.Bin? && ValidExpr(e, s.regs) && At(s, p, Show(e, 4))
    ensures var lp := p + |e.open|;
            var qb := lp + 1 + |Body(e)|;
            var rp := qb + |e.close|;
            && Skip(s, p) == lp && Ch(s, lp) == '(' && At(s, lp + 1, Body(e)) && p + |Show(e, 4)| == rp + 1
            && Skip(s, qb) == rp && Ch(s, rp) == ')' && Follows(s, qb, 0) && !OrAt(s, rp) && Skip(s, rp) == rp
  {
    hide Body, ValidExpr, Show, At, Skip, WordChar, Blank, Follows, Ch, OrAt;
    var body := Body(e);
    ShowOf(e);
    var lp := p + |e.open|;
    var qb := lp + 1 + |body|;
    AtSplit(s, p, e.open, "(" + (body + (e.close + ")")));
    AtSplit(s, lp, "(", body + (e.close + ")"));
    AtSplit(s, lp + 1, body, e.close + ")");
    OpenAt(s, e, p);
    CloseAt(s, e, qb);
  }

  lemma OpenAt(s: Source, e: Expr, p: nat)
    requires e.Bin? && ValidExpr(e, s.regs) && At(s, p, e.open) && At(s, p + |e.open|, "(")
    ensures Skip(s, p) == p + |e.open| && Ch(s, p + |e.open|) == '('
  {
    hide ValidExpr, At, Skip, WordChar, Blank;
    BlanksOf(e, s.regs);
    AtChar(s, p + |e.open|, "(", 0);
    SkipBlanks(s, p, e.open);
    NotBlank(s, p + |e.open|);
  }

  lemma CloseAt(s: Source, e: Expr, qb: nat)
    requires e.Bin? && ValidExpr(e, s.regs) && At(s, qb, e.close + ")")
    ensures var rp := qb + |e.close|;
            && Skip(s, qb) == rp && Ch(s, rp) == ')' && Follows(s, qb, 0) && !OrAt(s, rp) && Skip(s, rp) == rp
  {
    hide ValidExpr, At, Skip, WordChar, Blank, Follows;
    BlanksOf(e, s.regs);
    var rp := qb + |e.close|;
    AtSplit(s, qb, e.close, ")");
    AtChar(s, rp, ")", 0);
    SkipBlanks(s, qb, e.close);
    NotBlank(s, rp);
    AfterBlanks(s, qb, e.close);
    CloseFollows(s, qb, rp);
  }

  lemma ShowOf(e: Expr)
    requires e.Bin?
    ensures Show(e, 4) == e.open + ("(" + (Body(e) + (e.close + ")")))
  {
    hide Body;
  }

  lemma NotBlank(s: Source, p: nat)
    requires p < |s.text| && (Ch(s, p) == '(' || Ch(s, p) == ')')
    ensures Skip(s, p) == p && !WordChar(Ch(s, p))
  {
  }

  lemma CloseFollows(s: Source, q: nat, rp: nat)
    requires q <= rp < |s.text| && Skip(s, q) == rp && Ch(s, rp) == ')' && !WordChar(Ch(s, q))
    ensures Follows(s, q, 0) && !OrAt(s, rp)
  {
  }

  lemma BlanksOf(e: Expr, r: Regs)
    requires e.Bin? && ValidExpr(e, r)
    ensures Blanks(e.pre) && Blanks(e.open) && Blanks(e.close)
    ensures ValidExpr(e.left, r) && ValidExpr(e.right, r)
  {
  }

  /** A printed expression is read back, whatever follows it, at every level of the grammar. */
  lemma {:induction false} Reads(s: Source, e: Expr, level: nat, p: nat)
    requires level <= 4 && ValidExpr(e, s.regs) && s.Valid()
    requires At(s, p, Show(e, level)) && Follows(s, p + |Show(e, level)|, level)
    ensures Parsed(s, level, Eval(e, s.regs), p, p + |Show(e, level)|)
    decreases e, if NeedsParens(e, level) then 1 else 0, 4 - level
  {
    hide Parsed, Follows, At, Primary, ParseOr, ParseAnd, ParseCompare, ParseBitAnd;
    var q := p + |Show(e, level)|;
    if e.Bin? && Level(e.op) == level {
      BinReads(s, e, p);
    } else if level < 4 {
      assert Show(e, level) == Show(e, level + 1);
      assert Follows(s, q, level + 1) by { FollowsAbove(s, q, level); }
      Reads(s, e, level + 1, p);
      Lower(s, level, Eval(e, s.regs), p, q);
    } else {
      assert !WordChar(Ch(s, q)) by { FollowsAbove(s, q, 4); }
      if e.Bin? { ParensRead(s, e, p); } else { LeafReads(s, e, p); }
      assert Parsed(s, 4, Eval(e, s.regs), p, q) by { PrimaryParsed(s, Eval(e, s.regs), p, q); }
    }
  }

  lemma PrimaryParsed(s: Source, v: u32, p: nat, q: nat)
    requires p <= q <= |s.text| && s.Valid() && Primary(s, p) == Parse(v, q)
    ensures Parsed(s, 4, v, p, q)
  {
  }

  lemma FollowsAbove(s: Source, q: nat, level: nat)
    requires Follows(s, q, level)
    ensures Follows(s, q, level + 1) && !WordChar(Ch(s, q)) && q <= |s.text|
  {
  }

  lemma BinReads(s: Source, e: Expr, p: nat)
    requires e.Bin? && ValidExpr(e, s.regs) && s.Valid()
    requires At(s, p, Body(e)) && Follows(s, p + |Body(e)|, Level(e.op))
    ensures Parsed(s, Level(e.op), Eval(e, s.regs), p, p + |Body(e)|)
    decreases e, 0, 0
  {
    hide Parsed, At, Primary, ParseOr, ParseAnd, ParseCompare, ParseBitAnd, Body, Show;
    hide WordChar, Skip, Ch, CmpAt, Symbol;
    var a, b := Show(e.left, LeftLevel(e.op)), Show(e.right, RightLevel(e.op));
    BinAt(s, e, p);
    var qa := p + |a|;
    var os := qa + |e.pre|;
    var pb := os + |Symbol(e.op)|;
    SymbolAt(s, os, e.op);
    LeftFollows(s, qa, os, e.op);
    hide Follows;
    Reads(s, e.left, LeftLevel(e.op), p);
    Reads(s, e.right, RightLevel(e.op), pb);
    OperatorTakes(s, e.op, Eval(e.left, s.regs), Eval(e.right, s.regs), p, qa, os, pb + |b|);
  }

  lemma ParensRead(s: Source, e: Expr, p: nat)
    requires e.Bin? && ValidExpr(e, s.regs) && s.Valid()
    requires At(s, p, Show(e, 4))
    ensures Primary(s, p) == Parse(Eval(e, s.regs), p + |Show(e, 4)|)
    decreases e, 0, 5
  {
    hide Follows, At, Body, ParseOr, WordChar, Eval, ValidExpr;
    ParensAt(s, e, p);
    var lp := p + |e.open|;
    assert Show(e, 0) == Body(e);
    Reads(s, e, 0, lp + 1);
  }

  /**
   The round trip: on the printed text, with any blanks before the end, the parser reads to
   the end and returns the value of the expression.
   */
  lemma ConditionRoundTrip(s: Source, e: Expr, after: string)
    requires s.Valid() && ValidExpr(e, s.regs) && Blanks(after)
    requires s.text == Show(e, 0) + after
    ensures ParseOr(s, 0) == Parse(Eval(e, s.regs), |s.text|)
  {
    hide Show, Eval, ParseOr, ValidExpr, WordChar;
    var q := |Show(e, 0)|;
    assert At(s, 0, Show(e, 0) + after);
    AtSplit(s, 0, Show(e, 0), after);
    SkipBlanks(s, q, after);
    if after != "" { AtChar(s, q, after, 0); }
    assert Skip(s, q) == |s.text|;
    assert Ch(s, |s.text|) == '\0';
    assert Follows(s, q, 0) by { EndFollows(s, q); }
    Reads(s, e, 0, 0);
  }

  lemma EndFollows(s: Source, q: nat)
    requires q <= |s.text| && Skip(s, q) == |s.text| && (q == |s.text| || Blank(Ch(s, q)))
    ensures Follows(s, q, 0)
  {
  }
}
