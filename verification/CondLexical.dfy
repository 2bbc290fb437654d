/** How the evaluator reads names and numbers, on every text and not only on printed ones. */
module CondLexical {
  import Bytes
  import opened CondGrammar
  import opened CondMeaning
  import opened CondRoundTrip
  import opened Wrappers

  // ---- Names ------------------------------------------------------------------------------

  /** Letters, digits and the underscore. */
  predicate Alnum(c: char) {
    c == '_' || 48 <= c as int <= 57 || 65 <= c as int <= 90 || 97 <= c as int <= 122
  }

  /** The longest word of letters and digits at p. */
  ghost predicate WordAt(s: Source, p: nat, w: string) {
    At(s, p, w) && (forall i :: 0 <= i < |w| ==> Alnum(w[i])) && !Alnum(Ch(s, p + |w|))
  }

  lemma SameWord(c: char)
    ensures WordChar(c) == Alnum(c)
  {
  }

  lemma WordChars(s: Source, p: nat, w: string)
    requires WordAt(s, p, w)
    ensures !WordChar(Ch(s, p + |w|)) && forall i :: 0 <= i < |w| ==> Ch(s, p + i) == w[i] && WordChar(w[i])
  {
    forall i | 0 <= i < |w|
      ensures Ch(s, p + i) == w[i] && WordChar(w[i])
    {
      AtChar(s, p, w, i);
    }
  }

  /** Whatever is taken for a register is a whole word. */
  lemma TakesWord(s: Source, p: nat, w: string)
    requires WordAt(s, p, w) && TryReg(s, p).Some?
    ensures TryReg(s, p).value.1 == |w|
  {
    hide TryReg, WordChar, Alnum;
    var n := TryReg(s, p).value.1;
    LengthTaken(s, p);
    SameWord(Ch(s, p + |w|));
    if n < |w| { WordLetter(s, p, w, n); }
  }

  lemma WordLetter(s: Source, p: nat, w: string, i: nat)
    requires WordAt(s, p, w) && i < |w|
    ensures WordChar(Ch(s, p + i))
  {
    AtChar(s, p, w, i);
    SameWord(w[i]);
  }

  /** The characters in front of the end of a register name are word characters, the one behind is not. */
  lemma LengthTaken(s: Source, p: nat)
    requires TryReg(s, p).Some?
    ensures var n := TryReg(s, p).value.1;
            && 1 <= n <= 4 && !WordChar(Ch(s, p + n)) && WordChar(Ch(s, p)) && (n > 1 ==> WordChar(Ch(s, p + 1)))
            && (n > 2 ==> WordChar(Ch(s, p + 2))) && (n > 3 ==> WordChar(Ch(s, p + 3)))
  {
    hide Ch;
  }

  /** A word is read as a register if and only if it names one, and then as all of it. */
  lemma NamesExact(s: Source, p: nat, w: string)
    requires s.Valid() && WordAt(s, p, w)
    ensures TryReg(s, p).Some? <==> NameValue(s.regs, w).Some?
    ensures TryReg(s, p).Some? ==> TryReg(s, p).value == (NameValue(s.regs, w).value, |w|)
  {
    hide At;
    WordChars(s, p, w);
    if NameValue(s.regs, w).Some? {
      RegAt(s, p, w);
    } else if TryReg(s, p).Some? {
      TakesWord(s, p, w);
      NamesTaken(s, p, w);
    }
  }

  lemma NamesTaken(s: Source, p: nat, w: string)
    requires s.Valid() && TryReg(s, p).Some? && |w| == TryReg(s, p).value.1
    requires forall i :: 0 <= i < |w| ==> Ch(s, p + i) == w[i]
    ensures NameValue(s.regs, w).Some?
  {
    hide Ch;
  }

  // ---- Numbers ------------------------------------------------------------------------------

  /** White space of the C locale. */
  predicate White(c: char) { c as int == 32 || 9 <= c as int <= 13 }

  lemma {:induction false} SkipSpaceIs(s: Source, p: nat)
    requires p <= |s.text|
    ensures var q := SkipSpace(s, p); !White(Ch(s, q)) && forall i :: p <= i < q ==> White(Ch(s, i))
    decreases |s.text| - p
  {
    if p < |s.text| && Space(s.text[p]) { SkipSpaceIs(s, p + 1); }
  }

  lemma {:induction false} ScanEnd(s: Source, p: nat, base: nat, acc: nat)
    requires p <= |s.text| && (base == 10 || base == 16)
    ensures var e := Scan(s, p, base, acc).1;
            !Digit(Ch(s, e), base) && forall i :: p <= i < e ==> Digit(s.text[i], base)
    decreases |s.text| - p
  {
    SameDigit(Ch(s, p), base);
    if p < |s.text| && IsDigit(s.text[p], base) { ScanEnd(s, p + 1, base, acc * base + DigitVal(s.text[p])); }
  }

  /** The digits at p that end where the scan ends, and their value. */
  lemma ScanIs(s: Source, p: nat, base: nat) returns (ds: string)
    requires p <= |s.text| && (base == 10 || base == 16)
    ensures At(s, p, ds) && AllDigits(ds, base) && !Digit(Ch(s, p + |ds|), base)
    ensures Scan(s, p, base, 0) == (DigitsValue(ds, base), p + |ds|)
  {
    hide Scan, Digit, IsDigit;
    var e := Scan(s, p, base, 0).1;
    ScanEnd(s, p, base, 0);
    ds := s.text[p..e];
    SameDigit(Ch(s, e), base);
    assert ds[..0] == "";
    ScanDigits(s, p, ds, base, 0);
  }

  /** Where the digits of a number start: behind a sign, and behind 0x if a hexadecimal digit follows. */
  function DigitsFrom(s: Source, q: nat, base: nat): nat {
    var p := if Ch(s, q) == '-' || Ch(s, q) == '+' then q + 1 else q;
    if base == 16 && Ch(s, p) == '0' && (Ch(s, p + 1) == 'x' || Ch(s, p + 1) == 'X') && Digit(Ch(s, p + 2), 16)
    then p + 2 else p
  }

  /** The number n as strtoul returns it, then as a uint32_t: too large a number is ULONG_MAX, a sign negates. */
  function Returned(n: nat, minus: bool, ulongMax: nat): int {
    (if n > ulongMax then ulongMax else if minus && n > 0 then ulongMax + 1 - n else n) % 0x1_0000_0000
  }

  lemma StartIs(s: Source, q: nat, base: nat)
    requires q <= |s.text| && s.Valid()
    ensures var minus := Ch(s, q) == '-';
            HexStart(s, if q < |s.text| && (minus || Ch(s, q) == '+') then q + 1 else q, base) == DigitsFrom(s, q, base)
  {
    SameDigit(Ch(s, q + 2), 16);
    SameDigit(Ch(s, q + 3), 16);
  }

  lemma Negated(n: nat, m: nat)
    requires n <= m
    ensures (m + 1 - n) % (m + 1) == if n > 0 then m + 1 - n else 0
  {
    Bytes.Division(m + 1 - n, m + 1, if n > 0 then 0 else 1, if n > 0 then m + 1 - n else 0);
  }

  lemma ReturnedIs(n: nat, minus: bool, m: nat)
    ensures var clamped := if n > m then m else n;
            (if minus && n <= m then (m + 1 - clamped) % (m + 1) else clamped) % 0x1_0000_0000 == Returned(n, minus, m)
  {
    if n <= m { Negated(n, m); }
  }

  /**
   strtoul on any text (section 7.22.1.4 of ISO/IEC 9899:2011): white space, a sign, the
   longest run of digits, its value; no digits, no movement.
   */
  lemma StrToUlExact(s: Source, p: nat, base: nat) returns (q: nat, ds: string)
    requires p <= |s.text| && s.Valid() && (base == 10 || base == 16)
    ensures p <= q && !White(Ch(s, q)) && forall i :: p <= i < q ==> White(Ch(s, i))
    ensures var d := DigitsFrom(s, q, base);
            && At(s, d, ds) && AllDigits(ds, base) && !Digit(Ch(s, d + |ds|), base)
            && var r := StrToUl(s, p, base);
               if ds == "" then r == Parse(0, p)
               else r.pos == d + |ds| && r.v == Returned(DigitsValue(ds, base), Ch(s, q) == '-', s.ulongMax)
  {
    hide Scan, Digit, DigitsFrom, HexStart, SkipSpace, White, DigitsValue, Returned;
    q := SkipSpace(s, p);
    SkipSpaceIs(s, p);
    StartIs(s, q, base);
    ds := ScanIs(s, DigitsFrom(s, q, base), base);
    ReturnedIs(DigitsValue(ds, base), Ch(s, q) == '-', s.ulongMax);
  }
}
