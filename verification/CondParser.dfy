/**
 The recursive-descent evaluator itself: a cursor `p` that its methods advance. Each method
 is proved to do what the grammar function of the same name says; as those are total and
 their positions never decrease and never pass the terminator, neither does the cursor,
 on any text at all.
 */
module CondParsing {
  import opened CondGrammar
  import opened CondMeaning
  import opened CondRoundTrip
  import opened Wrappers

  class CondParser {
    const src: Source
    var p: nat

    ghost predicate Valid()
      reads this
    {
      src.Valid() && p <= |src.text|
    }

    constructor (src: Source)
      requires src.Valid()
      ensures Valid() && this.src == src && p == 0
    {
      this.src, p := src, 0;
    }

    /** *(p + i): the text or its terminator, never beyond. */
    function Peek(i: nat): char
      requires p + i <= |src.text|
      reads this
    {
      Ch(src, p + i)
    }

    method SkipWS()
      requires Valid()
      modifies this
      ensures Valid() && p == Skip(src, old(p))
    {
      while Peek(0) == ' ' || Peek(0) == '\t'
        invariant Valid() && Skip(src, p) == Skip(src, old(p))
        decreases |src.text| - p
      {
        p := p + 1;
      }
    }

    method TryChar(c: char) returns (ok: bool)
      requires Valid() && c != '\0'
      modifies this
      ensures Valid()
      ensures var q := Skip(src, old(p)); ok == (Ch(src, q) == c) && p == if ok then q + 1 else q
    {
      SkipWS();
      ok := Peek(0) == c;
      if ok { p := p + 1; }
    }

    /** The library function strtoul(p, &p, base). */
    method StrToULong(base: nat) returns (v: u32)
      requires Valid() && base <= 16
      modifies this
      ensures Valid() && Parse(v, p) == StrToUl(src, old(p), base)
    {
      var r := StrToUl(src, p, base);
      v, p := r.v, r.pos;
    }

    method ParseNumber() returns (v: u32)
      requires Valid()
      modifies this
      ensures Valid() && Parse(v, p) == Number(src, old(p))
    {
      hide StrToUl;
      SkipWS();
      if Peek(0) == '$' {
        p := p + 1;
        v := StrToULong(16);
      } else if Peek(0) == '0' && (Peek(1) == 'x' || Peek(1) == 'X') {
        p := p + 2;
        v := StrToULong(16);
      } else {
        v := StrToULong(10);
      }
    }

    /** A later character is only looked at after the ones before it matched. */
    method ReadEm8() returns (val: Option<u32>)
      requires Valid() && src.regs.Em8?
      modifies this
      ensures Valid()
      ensures match TryEm8(src, old(p))
              case None => val == None && p == old(p)
              case Some((v, len)) => val == Some(v) && p == old(p) + len
    {
      var r := src.regs;
      val := None;
      if Is(Peek(0), 'A', 'a') && !WordChar(Peek(1)) {
        val, p := Some(r.a), p + 1;
      } else if Is(Peek(0), 'X', 'x') && !WordChar(Peek(1)) {
        val, p := Some(r.x), p + 1;
      } else if Is(Peek(0), 'Y', 'y') && !WordChar(Peek(1)) {
        val, p := Some(r.y), p + 1;
      } else if Is(Peek(0), 'S', 's') && Is(Peek(1), 'P', 'p') && !WordChar(Peek(2)) {
        val, p := Some(r.sp), p + 2;
      } else if Is(Peek(0), 'P', 'p') && Is(Peek(1), 'C', 'c') && !WordChar(Peek(2)) {
        val, p := Some(r.pc), p + 2;
      } else if Is(Peek(0), 'F', 'f') && Is(Peek(1), 'L', 'l') && !WordChar(Peek(2)) {
        val, p := Some(r.fl), p + 2;
      }
    }

    method ReadZ8000() returns (val: Option<u32>)
      requires Valid() && src.regs.Z8000?
      modifies this
      ensures Valid()
      ensures match TryZ8000(src, old(p))
              case None => val == None && p == old(p)
              case Some((v, len)) => val == Some(v) && p == old(p) + len
    {
      hide WordReg;
      var r := src.regs;
      val := None;
      if Is(Peek(0), 'P', 'p') && Is(Peek(1), 'C', 'c') && !WordChar(Peek(2)) {
        val, p := Some(r.pc), p + 2;
      } else if Is(Peek(0), 'F', 'f') && Is(Peek(1), 'C', 'c') && Is(Peek(2), 'W', 'w') && !WordChar(Peek(3)) {
        val, p := Some(r.fcw), p + 3;
      } else if Is(Peek(0), 'P', 'p') && Is(Peek(1), 'S', 's') && Is(Peek(2), 'A', 'a') && Is(Peek(3), 'P', 'p')
                && !WordChar(Peek(4)) {
        val, p := Some(r.psap), p + 4;
      } else if Is(Peek(0), 'R', 'r') {
        if (Is(Peek(1), 'H', 'h') || Is(Peek(1), 'L', 'l')) && '0' <= Peek(2) <= '7' && !WordChar(Peek(3)) {
          var n := DecimalVal(Peek(2));
          val, p := Some(HalfReg(r, Is(Peek(1), 'H', 'h'), n)), p + 3;
          return;
        }
        if Decimal(Peek(1)) {
          var n, adv := DecimalVal(Peek(1)), 2;
          if Decimal(Peek(2)) { n, adv := n * 10 + DecimalVal(Peek(2)), 3; }
          if n < 16 && !WordChar(Peek(adv)) { val, p := Some(WordReg(r, n)), p + adv; }
        }
      }
    }

    method ReadReg() returns (val: Option<u32>)
      requires Valid()
      modifies this
      ensures Valid()
      ensures match TryReg(src, Skip(src, old(p)))
              case None => val == None && p == Skip(src, old(p))
              case Some((v, len)) => val == Some(v) && p == Skip(src, old(p)) + len
    {
      hide TryEm8, TryZ8000;
      SkipWS();
      if src.regs.Em8? { val := ReadEm8(); } else { val := ReadZ8000(); }
    }

    method EvalPrimary() returns (v: u32)
      requires Valid()
      modifies this
      ensures Valid() && Parse(v, p) == Primary(src, old(p))
      decreases |src.text| - p, 0
    {
      hide TryReg, Number, Skip, ParseOr;
      SkipWS();
      var start := p;
      SkipTwice(src, old(p));
      var reg := ReadReg();
      if reg.Some? { return reg.value; }
      if Peek(0) == '(' {
        p := p + 1;
        v := EvalOr();
        var close := TryChar(')');
      } else {
        v := ParseNumber();
      }
    }

    method EvalBitAnd() returns (left: u32)
      requires Valid()
      modifies this
      ensures Valid() && Parse(left, p) == ParseBitAnd(src, old(p))
      decreases |src.text| - p, 1
    {
      hide Primary, Skip, And32;
      left := EvalPrimary();
      ghost var result := BitAndLoop(src, left, p);
      while true
        invariant Valid() && p >= old(p) && BitAndLoop(src, left, p) == result
        decreases |src.text| - p
      {
        ghost var before := p;
        SkipWS();
        SkipTwice(src, before);
        if Peek(0) == '&' && Peek(1) != '&' {
          p := p + 1;
          var right := EvalPrimary();
          left := And32(left, right);
        } else {
          break;
        }
      }
    }

    method EvalCompare() returns (v: u32)
      requires Valid()
      modifies this
      ensures Valid() && Parse(v, p) == ParseCompare(src, old(p))
      decreases |src.text| - p, 2
    {
      hide ParseBitAnd, Skip;
      var left := EvalBitAnd();
      SkipWS();
      if Peek(0) == '=' && Peek(1) == '=' {
        p := p + 2;
        var right := EvalBitAnd();
        return Truth(left == right);
      }
      if Peek(0) == '!' && Peek(1) == '=' {
        p := p + 2;
        var right := EvalBitAnd();
        return Truth(left != right);
      }
      if Peek(0) == '<' && Peek(1) == '=' {
        p := p + 2;
        var right := EvalBitAnd();
        return Truth(left <= right);
      }
      if Peek(0) == '>' && Peek(1) == '=' {
        p := p + 2;
        var right := EvalBitAnd();
        return Truth(left >= right);
      }
      if Peek(0) == '<' {
        p := p + 1;
        var right := EvalBitAnd();
        return Truth(left < right);
      }
      if Peek(0) == '>' {
        p := p + 1;
        var right := EvalBitAnd();
        return Truth(left > right);
      }
      return left;
    }

    method EvalAnd() returns (left: u32)
      requires Valid()
      modifies this
      ensures Valid() && Parse(left, p) == ParseAnd(src, old(p))
      decreases |src.text| - p, 3
    {
      hide ParseCompare, Skip;
      left := EvalCompare();
      ghost var result := AndLoop(src, left, p);
      while true
        invariant Valid() && p >= old(p) && AndLoop(src, left, p) == result
        decreases |src.text| - p
      {
        SkipWS();
        if Peek(0) == '&' && Peek(1) == '&' {
          p := p + 2;
          var right := EvalCompare();
          left := Truth(left != 0 && right != 0);
        } else {
          break;
        }
      }
    }

    method EvalOr() returns (left: u32)
      requires Valid()
      modifies this
      ensures Valid() && Parse(left, p) == ParseOr(src, old(p))
      decreases |src.text| - p, 4
    {
      hide ParseAnd, Skip;
      left := EvalAnd();
      ghost var result := OrLoop(src, left, p);
      while true
        invariant Valid() && p >= old(p) && OrLoop(src, left, p) == result
        decreases |src.text| - p
      {
        SkipWS();
        if Peek(0) == '|' && Peek(1) == '|' {
          p := p + 2;
          var right := EvalAnd();
          left := Truth(left != 0 || right != 0);
        } else {
          break;
        }
      }
    }
  }

  lemma SkipTwice(s: Source, p: nat)
    requires p <= |s.text|
    ensures Skip(s, Skip(s, p)) == Skip(s, p)
  {
    SkipAgain(s, p);
  }

  /** A missing or empty condition holds; otherwise its value decides. */
  method EvaluateCondition(src: Source) returns (holds: bool)
    requires src.Valid()
    ensures holds == (src.text == "" || ParseOr(src, 0).v != 0)
  {
    if src.text == "" { return true; }
    var parser := new CondParser(src);
    var v := parser.EvalOr();
    holds := v != 0;
  }

  /** What the debugger promises: the condition that was written decides. */
  method EvaluatePrinted(src: Source, ghost e: Expr) returns (holds: bool)
    requires src.Valid() && ValidExpr(e, src.regs) && src.text == Show(e, 0)
    ensures holds == (Eval(e, src.regs) != 0)
  {
    ShowStartChar(e, 0, src.regs);
    assert src.text == Show(e, 0) + "";
    ConditionRoundTrip(src, e, "");
    holds := EvaluateCondition(src);
  }
}
