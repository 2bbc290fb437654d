/**
 Writer and reader of the settings file, each against the strings of JSON itself ("The
 JavaScript Object Notation (JSON) Data Interchange Format", section 7 of RFC 8259).
 */
module SettingsJson {
  import opened Bytes
  import opened Settings
  import opened SettingsRoundTrip
  import opened Wrappers

  // ---- JSON strings -----------------------------------------------------------------------

  /** The two-character escapes: the code of the character that \c stands for. */
  function Escaped(c: char): Option<nat> {
    match c
    case '"' => Some(0x22)
    case '\\' => Some(0x5C)
    case '/' => Some(0x2F)
    case 'b' => Some(0x08)
    case 'f' => Some(0x0C)
    case 'n' => Some(0x0A)
    case 'r' => Some(0x0D)
    case 't' => Some(0x09)
    case _ => None
  }

  function HexValue(c: char): Option<nat> {
    if '0' <= c <= '9' then Some(c as int - 48)
    else if 'a' <= c <= 'f' then Some(c as int - 87)
    else if 'A' <= c <= 'F' then Some(c as int - 55)
    else None
  }

  /** The code \uXXXX stands for, outside the surrogates. */
  function Code(t: string): Option<nat>
    requires |t| == 4
  {
    match (HexValue(t[0]), HexValue(t[1]), HexValue(t[2]), HexValue(t[3]))
    case (Some(a), Some(b), Some(c), Some(d)) =>
      var n := 0x1000 * a + 0x100 * b + 0x10 * c + d;
      if n < 0xD800 || n > 0xDFFF then Some(n) else None
    case _ => None
  }

  predicate IsCode(n: int) { 0 <= n < 0xD800 || 0xDFFF < n < 0x1_0000 }

  function Then(n: nat, tail: Option<string>): Option<string> {
    if tail.Some? && IsCode(n) then Some([n as char] + tail.value) else None
  }

  /** The string that the characters between two quotes denote, if they are a JSON string. */
  function Denotes(t: string): Option<string> {
    if t == "" then Some("")
    else if t[0] == '\\' then
      if |t| >= 6 && t[1] == 'u' then
        match Code(t[2..6])
        case None => None
        case Some(n) => Then(n, Denotes(t[6..]))
      else if |t| >= 2 && Escaped(t[1]).Some? then Then(Escaped(t[1]).value, Denotes(t[2..]))
      else None
    else if t[0] == '"' || t[0] as int < 0x20 then None
    else match Denotes(t[1..])
      case None => None
      case Some(v) => Some([t[0]] + v)
  }

  // ---- The writer ---------------------------------------------------------------------------

  lemma EscapeDenotes(c: char, t: string)
    ensures Denotes(EscapeChar(c) + t) == match Denotes(t) case None => None case Some(v) => Some([c] + v)
  {
    var e := EscapeChar(c);
    var all := e + t;
    if |e| == 1 {
      assert all[1..] == t;
    } else if |e| == 2 {
      assert all[2..] == t;
    } else {
      HexPair(c);
      assert all[2..6] == e[2..] && all[6..] == t;
    }
  }

  lemma HexPair(c: char)
    requires Control(c)
    ensures Code("00" + [HexDigit(c as int / 16), HexDigit(c as int % 16)]) == Some(c as int)
  {
    HexDigitReads(c as int / 16);
    HexDigitReads(c as int % 16);
  }

  lemma HexDigitReads(n: int)
    requires 0 <= n < 16
    ensures HexValue(HexDigit(n)) == Some(n)
  {
  }

  /** What json_escape writes is a JSON string, and denotes what was to be written, for every string. */
  lemma {:induction false} EscapeIsJson(s: string)
    ensures Denotes(Escape(s)) == Some(s)
    decreases |s|
  {
    hide Denotes, EscapeChar;
    if s == "" {
      assert Denotes("") == Some("") by { DenotesNothing(); }
    } else {
      EscapeIsJson(s[1..]);
      EscapeDenotes(s[0], Escape(s[1..]));
      assert [s[0]] + s[1..] == s;
    }
  }

  lemma DenotesNothing()
    ensures Denotes("") == Some("")
  {
  }

  // ---- The reader ---------------------------------------------------------------------------

  /** ASCII characters and the escapes of quote, backslash, newline, return and tab. */
  predicate Simple(t: string) {
    t == "" ||
    if t[0] == '\\' then
      |t| >= 2 && (t[1] == '"' || t[1] == '\\' || t[1] == 'n' || t[1] == 'r' || t[1] == 't') && Simple(t[2..])
    else (t[0] as int) < 0x80 && Simple(t[1..])
  }

  /** What the reading loop makes of the text up to the closing quote. */
  function Got(t: string, rest: string): Option<string> { ReadString(Utf8(t + ("\"" + rest))) }

  lemma GotOrdinary(t: string, rest: string)
    requires t != "" && t[0] != '"' && t[0] != '\\'
    ensures Got(t, rest) == Prepend(Latin(Utf8Char(t[0])), Got(t[1..], rest))
    ensures |Latin(Utf8Char(t[0]))| >= 1 && (|Latin(Utf8Char(t[0]))| == 1 <==> (t[0] as int) < 0x80)
    ensures (t[0] as int) < 0x80 ==> Latin(Utf8Char(t[0])) == [t[0]]
  {
    hide ReadString, Utf8;
    assert t + ("\"" + rest) == [t[0]] + (t[1..] + ("\"" + rest));
    Utf8Append([t[0]], t[1..] + ("\"" + rest));
    Utf8One(t[0]);
    ReadOrdinaries(Utf8Char(t[0]), Utf8(t[1..] + ("\"" + rest)));
  }

  lemma GotEscape(t: string, rest: string)
    requires |t| >= 2 && t[0] == '\\' && (t[1] as int) < 0x80
    ensures Got(t, rest) == Prepend(Unescape(t[1] as int), Got(t[2..], rest))
  {
    hide ReadString, Utf8, Unescape;
    assert t + ("\"" + rest) == [t[0], t[1]] + (t[2..] + ("\"" + rest));
    Utf8Append([t[0], t[1]], t[2..] + ("\"" + rest));
    TwoAscii(t[0], t[1]);
    ReadEscape(t[1] as int, Utf8(t[2..] + ("\"" + rest)));
  }

  lemma GotNothing(rest: string)
    ensures Got("", rest) == Some("")
  {
    assert "" + ("\"" + rest) == "\"" + rest;
    assert Utf8("\"" + rest)[0] == QUOTE;
  }

  /** The reader's escapes against the standard's. */
  lemma UnescapeIs(c: char)
    requires Escaped(c).Some?
    ensures c == '"' || c == '\\' || c == 'n' || c == 'r' || c == 't' ==>
              Unescape(c as int) == [Escaped(c).value as char]
    ensures !(c == '"' || c == '\\' || c == 'n' || c == 'r' || c == 't') ==> |Unescape(c as int)| == 2
  {
  }

  /** On a JSON string the reader never gets less than it denotes, and exactly that on a simple one. */
  lemma {:induction false} GotAtLeast(t: string, rest: string)
    requires Denotes(t).Some?
    ensures Got(t, rest).Some? && |Got(t, rest).value| >= |Denotes(t).value|
    ensures Simple(t) ==> Got(t, rest) == Denotes(t)
    ensures !Simple(t) ==> |Got(t, rest).value| > |Denotes(t).value|
    decreases |t|
  {
    hide Got, Latin, Utf8Char, Unescape;
    if t == "" {
      GotNothing(rest);
    } else if t[0] == '\\' {
      if |t| >= 6 && t[1] == 'u' {
        GotCode(t, rest);
        GotAtLeast(t[6..], rest);
      } else {
        GotEscape(t, rest);
        UnescapeIs(t[1]);
        GotAtLeast(t[2..], rest);
      }
    } else {
      GotOrdinary(t, rest);
      GotAtLeast(t[1..], rest);
    }
  }

  /** \uXXXX reads as those six characters. */
  lemma GotCode(t: string, rest: string)
    requires |t| >= 6 && t[0] == '\\' && t[1] == 'u' && Code(t[2..6]).Some? && Denotes(t[6..]).Some?
    ensures Got(t, rest) == Prepend(t[..6], Got(t[6..], rest))
  {
    hide Got, Latin, Utf8Char;
    GotEscape(t, rest);
    assert Unescape(0x75) == "\\u";
    var r := Got(t[6..], rest);
    assert t[2..6][0] == t[2] && t[2..6][1] == t[3] && t[2..6][2] == t[4] && t[2..6][3] == t[5];
    GotOrdinary(t[2..], rest);
    GotOrdinary(t[3..], rest);
    GotOrdinary(t[4..], rest);
    GotOrdinary(t[5..], rest);
    assert t[2..][1..] == t[3..] && t[3..][1..] == t[4..] && t[4..][1..] == t[5..] && t[5..][1..] == t[6..];
    PrependTwice([t[4]], [t[5]], r);
    PrependTwice([t[3]], [t[4]] + [t[5]], r);
    PrependTwice([t[2]], [t[3]] + ([t[4]] + [t[5]]), r);
    PrependTwice("\\u", [t[2]] + ([t[3]] + ([t[4]] + [t[5]])), r);
    assert "\\u" + ([t[2]] + ([t[3]] + ([t[4]] + [t[5]]))) == t[..6];
  }

  /**
   json_extract_string on any text that holds the key, a colon and a JSON string, whatever
   comes before without a quote and whatever comes after: it returns what the string denotes
   if and only if that is ASCII with the five escapes the reader knows.
   */
  lemma ExtractIsJson(before: string, key: string, gap: string, t: string, rest: string)
    requires Quoteless(before) && Quoteless(key) && Quoteless(gap) && ':' !in gap && Denotes(t).Some?
    ensures Extract(before + ("\"" + (key + ("\"" + (":" + (gap + ("\"" + (t + ("\"" + rest)))))))), key) == Denotes(t)
            <==> Simple(t)
  {
    hide ReadString, Utf8, Denotes, Simple, After;
    var value := t + ("\"" + rest);
    var behind := ":" + (gap + ("\"" + value));
    SkipQuoteless(before, "\"" + (key + ("\"" + behind)), key);
    QuoteChunk(key, "\"" + behind, key);
    assert ("\"" + behind)[1..] == behind;
    AfterChar("", ':', gap + ("\"" + value));
    assert "" + behind == behind;
    AfterChar(gap, '"', value);
    GotAtLeast(t, rest);
  }

  // ---- The bytes read ------------------------------------------------------------------------

  /** A continuation byte of UTF-8. */
  predicate Tail(b: byte) { b / 0x40 == 2 }

  function AtLeast(low: nat, n: nat): Option<nat> { if n >= low then Some(n) else None }

  /** The code that bytes stand for in UTF-8 (section 3 of RFC 3629), only in the shortest form. */
  function Utf8Value(b: seq<byte>): Option<nat> {
    match |b|
    case 1 => if b[0] < 0x80 then Some(b[0] as nat) else None
    case 2 => if b[0] / 0x20 == 6 && Tail(b[1]) then AtLeast(0x80, Joined([b[0] % 0x20, b[1] % 0x40])) else None
    case 3 =>
      if b[0] / 0x10 == 14 && Tail(b[1]) && Tail(b[2]) then
        AtLeast(0x800, Joined([b[0] % 0x10, b[1] % 0x40, b[2] % 0x40]))
      else None
    case 4 =>
      if b[0] / 8 == 30 && Tail(b[1]) && Tail(b[2]) && Tail(b[3]) then
        AtLeast(0x1_0000, Joined([b[0] % 8, b[1] % 0x40, b[2] % 0x40, b[3] % 0x40]))
      else None
    case _ => None
  }

  /** Six bits from each byte but the first. */
  function Joined(bits: seq<nat>): nat {
    if bits == [] then 0 else 0x40 * Joined(bits[..|bits| - 1]) + bits[|bits| - 1]
  }

  lemma JoinedTwo(a: nat, b: nat)
    ensures Joined([a, b]) == 0x40 * a + b
  {
    assert [a, b][..1] == [a];
    assert Joined([a]) == 0x40 * Joined([a][..0]) + a;
  }

  lemma JoinedMore(a: nat, b: nat, c: nat, d: nat)
    ensures Joined([a, b, c]) == 0x1000 * a + 0x40 * b + c
    ensures Joined([a, b, c, d]) == 0x4_0000 * a + 0x1000 * b + 0x40 * c + d
  {
    assert [a, b, c][..2] == [a, b];
    assert [a, b, c, d][..3] == [a, b, c];
    JoinedTwo(a, b);
  }

  lemma SixBits(n: nat)
    ensures 0x40 * (n / 0x40) + n % 0x40 == n
    ensures 0x1000 * (n / 0x1000) + 0x40 * (n / 0x40 % 0x40) + n % 0x40 == n
    ensures 0x4_0000 * (n / 0x4_0000) + 0x1000 * (n / 0x1000 % 0x40) + 0x40 * (n / 0x40 % 0x40) + n % 0x40 == n
  {
    assert n / 0x40 / 0x40 == n / 0x1000;
    assert n / 0x1000 / 0x40 == n / 0x4_0000;
  }

  lemma LeadByte(k: nat, v: nat, m: nat)
    requires (k == 0xC0 && m == 0x20) || (k == 0xE0 && m == 0x10) || (k == 0xF0 && m == 8) || (k == 0x80 && m == 0x40)
    requires v < m
    ensures (k + v) % m == v && (k + v) / m == k / m
  {
  }

  /** The reader goes over the UTF-8 form of the text. */
  lemma Utf8CharIs(c: char)
    ensures Utf8Value(Utf8Char(c)) == Some(c as nat)
  {
    hide Joined;
    var n := c as nat;
    SixBits(n);
    LeadByte(0x80, n % 0x40, 0x40);
    LeadByte(0x80, n / 0x40 % 0x40, 0x40);
    LeadByte(0x80, n / 0x1000 % 0x40, 0x40);
    if 0x80 <= n < 0x800 {
      LeadByte(0xC0, n / 0x40, 0x20);
      JoinedTwo(n / 0x40, n % 0x40);
    } else if 0x800 <= n < 0x1_0000 {
      LeadByte(0xE0, n / 0x1000, 0x10);
      JoinedMore(n / 0x1000, n / 0x40 % 0x40, n % 0x40, 0);
    } else if 0x1_0000 <= n {
      LeadByte(0xF0, n / 0x4_0000, 8);
      JoinedMore(n / 0x4_0000, n / 0x1000 % 0x40, n / 0x40 % 0x40, n % 0x40);
    }
  }
}
