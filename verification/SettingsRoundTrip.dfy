/**
 What the settings reader finds in a file the settings writer wrote. The reader looks for
 the first occurrence of the quoted key anywhere in the text, so the question is which
 occurrence that is, and what the reading loop makes of the escaped value behind it.
 */
module SettingsRoundTrip {
  import opened Bytes
  import opened Settings
  import opened Wrappers

  /** A key that escaping leaves alone and that has no colon. */
  predicate PlainKey(k: string) {
    forall i :: 0 <= i < |k| ==> k[i] != '"' && k[i] != '\\' && k[i] != ':' && k[i] as int >= 32
  }

  function Needle(k: string): string { "\"" + k + "\"" }

  predicate Quoteless(s: string) { '"' !in s }

  // ---- Searching ----------------------------------------------------------------------------

  lemma {:induction false} SkipQuoteless(c: string, h: string, k: string)
    requires Quoteless(c)
    ensures After(c + h, Needle(k)) == After(h, Needle(k))
    decreases |c|
  {
    if c == "" {
      assert c + h == h;
    } else {
      assert (c + h)[0] == c[0] && (c + h)[1..] == c[1..] + h;
      SkipQuoteless(c[1..], h, k);
    }
  }

  /** Between two quotes stands the key or something else; in the second case the search goes on. */
  lemma QuoteChunk(c: string, h: string, k: string)
    requires Quoteless(c) && Quoteless(k) && h != "" && h[0] == '"'
    ensures After("\"" + (c + h), Needle(k)) == if c == k then Some(h[1..]) else After(h, Needle(k))
  {
    var t := "\"" + (c + h);
    assert t[1..] == c + h;
    if c == k {
      assert t == Needle(k) + h[1..];
    } else {
      ChunkDiffers(c, h, k);
      SkipQuoteless(c, h, k);
    }
  }

  lemma ChunkDiffers(c: string, h: string, k: string)
    requires Quoteless(c) && Quoteless(k) && h != "" && h[0] == '"' && c != k
    ensures !(Needle(k) <= "\"" + (c + h))
  {
    var t, n := "\"" + (c + h), Needle(k);
    assert n[|k| + 1] == '"';
    assert t[|c| + 1] == '"';
    if |k| < |c| {
      assert t[|k| + 1] == c[|k|] && c[|k|] in c;
    } else if |c| < |k| {
      assert n[|c| + 1] == k[|c|] && k[|c|] in k;
    } else {
      var i :| 0 <= i < |k| && k[i] != c[i];
      assert n[i + 1] == k[i] && t[i + 1] == c[i];
    }
  }

  lemma {:induction false} AfterChar(c: string, x: char, h: string)
    requires x !in c
    ensures After(c + ([x] + h), [x]) == Some(h)
    decreases |c|
  {
    var t := c + ([x] + h);
    if c == "" {
      assert t == [x] + h && t[1..] == h;
    } else {
      assert t[0] == c[0] && t[1..] == c[1..] + ([x] + h);
      AfterChar(c[1..], x, h);
    }
  }

  lemma {:induction false} AfterAbsent(h: string, x: char)
    requires x !in h
    ensures After(h, [x]) == None
    decreases |h|
  {
    if h != "" {
      assert h[0] in h;
      assert [x][0] != h[0];
      AfterAbsent(h[1..], x);
    }
  }

  /** Without a second quote there is no needle. */
  lemma {:induction false} NeedsTwoQuotes(h: string, k: string)
    requires Quoteless(h)
    ensures After("\"" + h, Needle(k)) == None
  {
    var t := "\"" + h;
    assert Needle(k)[|k| + 1] == '"';
    if |k| < |h| { assert t[|k| + 1] == h[|k|] && h[|k|] in h; }
    assert t[1..] == h;
    NoQuotes(h, k);
  }

  lemma {:induction false} NoQuotes(h: string, k: string)
    requires Quoteless(h)
    ensures After(h, Needle(k)) == None
    decreases |h|
  {
    assert Needle(k)[0] == '"';
    if h != "" {
      assert h[0] in h;
      NoQuotes(h[1..], k);
    }
  }

  // ---- Escaping -----------------------------------------------------------------------------

  lemma {:induction false} EscapeAppend(a: string, b: string)
    ensures Escape(a + b) == Escape(a) + Escape(b)
    decreases |a|
  {
    if a == "" {
      assert a + b == b;
    } else {
      assert (a + b)[0] == a[0] && (a + b)[1..] == a[1..] + b;
      EscapeAppend(a[1..], b);
      assert EscapeChar(a[0]) + (Escape(a[1..]) + Escape(b)) == Escape(a) + Escape(b);
    }
  }

  lemma {:induction false} EscapePlain(k: string)
    requires PlainKey(k)
    ensures Escape(k) == k
    decreases |k|
  {
    if k != "" {
      assert PlainKey(k[1..]);
      EscapePlain(k[1..]);
      assert k == [k[0]] + k[1..];
    }
  }

  lemma {:induction false} EscapeQuoteless(v: string)
    requires Quoteless(v)
    ensures Quoteless(Escape(v))
    decreases |v|
  {
    if v != "" {
      assert v[0] != '"';
      EscapeQuoteless(v[1..]);
      assert Quoteless(EscapeChar(v[0]));
    }
  }

  /** Only the key itself is escaped to the key. */
  lemma {:induction false} EscapedIsKey(v: string, k: string)
    requires PlainKey(k)
    ensures Escape(v) == k <==> v == k
    decreases |v|
  {
    EscapePlain(k);
    if Escape(v) == k && v != "" {
      var e := EscapeChar(v[0]);
      assert k[0] == e[0];
      assert k[0] != '\\';
      assert e == [v[0]];
      assert Escape(v[1..]) == k[1..];
      assert PlainKey(k[1..]);
      EscapedIsKey(v[1..], k[1..]);
      assert v == [v[0]] + v[1..];
    }
  }

  // ---- One value ----------------------------------------------------------------------------

  /** The part of a value after its last quote; the whole value if it has none. */
  function AfterLastQuote(v: string): string {
    if v == "" then "" else if '"' in v[1..] then AfterLastQuote(v[1..])
    else if v[0] == '"' then v[1..] else v
  }

  /** The value is the key, or ends in a quote and the key: its closing quote completes a needle. */
  predicate Clash(v: string, k: string) { AfterLastQuote(v) == k }

  function FirstQuote(v: string): (i: nat)
    requires '"' in v
    ensures i < |v| && v[i] == '"' && Quoteless(v[..i])
  {
    if v[0] == '"' then 0
    else
      var j := FirstQuote(v[1..]);
      assert v[..j + 1] == [v[0]] + v[1..][..j];
      j + 1
  }

  lemma {:induction false} LastQuoteBehind(w: string, u: string)
    ensures AfterLastQuote(w + ("\"" + u)) == AfterLastQuote(u)
    decreases |w|
  {
    var v := w + ("\"" + u);
    if w == "" {
      assert v == "\"" + u && v[1..] == u;
      if '"' !in u { NoLastQuote(u); }
    } else {
      assert v[1..] == w[1..] + ("\"" + u);
      assert v[1..][|w| - 1] == '"';
      LastQuoteBehind(w[1..], u);
    }
  }

  lemma NoLastQuote(u: string)
    requires Quoteless(u)
    ensures AfterLastQuote(u) == u
  {
  }

  lemma {:induction false} ValueScan(v: string, h: string, k: string)
    requires PlainKey(k)
    ensures After("\"" + (Escape(v) + ("\"" + h)), Needle(k)) ==
            if Clash(v, k) then Some(h) else After("\"" + h, Needle(k))
    decreases |v|
  {
    hide After, Escape, AfterLastQuote, Needle;
    assert Quoteless(k);
    if Quoteless(v) {
      EscapeQuoteless(v);
      QuoteChunk(Escape(v), "\"" + h, k);
      assert ("\"" + h)[1..] == h;
      EscapedIsKey(v, k);
      NoLastQuote(v);
    } else {
      var i := FirstQuote(v);
      var w, u := v[..i], v[i + 1..];
      assert v == w + ("\"" + u);
      LastQuoteBehind(w, u);
      EscapeSplit(w, u);
      EscapeQuoteless(w);
      var tail := "\"" + (Escape(u) + ("\"" + h));
      BackslashChunk(Escape(w), tail, k);
      Regroup(Escape(w), Escape(u), h);
      ValueScan(u, h, k);
    }
  }

  lemma Regroup(a: string, b: string, h: string)
    ensures (a + ("\\" + ("\"" + b))) + ("\"" + h) == a + "\\" + ("\"" + (b + ("\"" + h)))
  {
  }

  /** What stands before an escaped quote is not the key. */
  lemma BackslashChunk(c: string, tail: string, k: string)
    requires PlainKey(k) && Quoteless(c) && tail != "" && tail[0] == '"'
    ensures After("\"" + (c + "\\" + tail), Needle(k)) == After(tail, Needle(k))
  {
    hide After, Needle;
    assert (c + "\\")[|c|] == '\\';
    QuoteChunk(c + "\\", tail, k);
  }

  lemma EscapeSplit(w: string, u: string)
    ensures Escape(w + ("\"" + u)) == Escape(w) + ("\\" + ("\"" + Escape(u)))
  {
    EscapeAppend(w, "\"" + u);
    EscapeQuote(u);
  }

  lemma EscapeQuote(u: string)
    ensures Escape("\"" + u) == "\\" + ("\"" + Escape(u))
  {
    assert ("\"" + u)[1..] == u;
    assert "\\\"" + Escape(u) == "\\" + ("\"" + Escape(u));
  }

  // ---- The file -------------------------------------------------------------------------------

  /** What follows the quoted key where it stands as a key. */
  function Behind(e: Entry, es: seq<Entry>): string {
    ": \"" + (Escape(e.value) + ("\"" + Rest(es)))
  }

  /** What the search for k leaves of the lines es. */
  function Hit(es: seq<Entry>, k: string): Option<string> {
    if es == [] then None
    else if es[0].key == k then Some(Behind(es[0], es[1..]))
    else if Clash(es[0].value, k) then Some(Rest(es[1..]))
    else Hit(es[1..], k)
  }

  lemma LineScan(e: Entry, h: string, k: string)
    requires PlainKey(e.key) && PlainKey(k)
    ensures After(Line(e) + h, Needle(k)) ==
            if e.key == k then Some(": \"" + (Escape(e.value) + ("\"" + h)))
            else if Clash(e.value, k) then Some(h)
            else After("\"" + h, Needle(k))
  {
    hide Escape, Clash, After;
    EscapePlain(e.key);
    assert Quoteless(k) && Quoteless(e.key);
    var value := "\"" + (Escape(e.value) + ("\"" + h));
    var afterKey := "\"" + (": " + value);
    LineWith(e, h);
    SkipQuoteless("  ", "\"" + (e.key + afterKey), k);
    QuoteChunk(e.key, afterKey, k);
    if e.key == k {
      assert afterKey[1..] == ": \"" + (Escape(e.value) + ("\"" + h));
    } else {
      assert ": "[0] == ':';
      QuoteChunk(": ", value, k);
      ValueScan(e.value, h, k);
    }
  }

  lemma LineWith(e: Entry, h: string)
    requires Escape(e.key) == e.key
    ensures Line(e) + h ==
            "  " + ("\"" + (e.key + ("\"" + (": " + ("\"" + (Escape(e.value) + ("\"" + h)))))))
  {
    hide Escape;
  }

  lemma {:induction false} RestScan(es: seq<Entry>, k: string)
    requires PlainKey(k) && forall i :: 0 <= i < |es| ==> PlainKey(es[i].key)
    ensures After("\"" + Rest(es), Needle(k)) == Hit(es, k)
    decreases |es|
  {
    hide After, Clash, Line;
    assert Quoteless(k);
    if es == [] {
      NeedsTwoQuotes("\n}\n", k);
    } else {
      var line := Line(es[0]) + Rest(es[1..]);
      LineStart(es[0]);
      var body := line[2..];
      assert line == "  " + body;
      assert Rest(es) == ",\n  " + body;
      assert ",\n  "[1] == '\n';
      assert k != ",\n  ";
      QuoteChunk(",\n  ", body, k);
      SkipQuoteless("  ", body, k);
      LineScan(es[0], Rest(es[1..]), k);
      RestScan(es[1..], k);
    }
  }

  lemma LineStart(e: Entry)
    ensures |Line(e)| > 2 && Line(e)[..2] == "  " && Line(e)[2] == '"'
  {
    hide Escape;
  }

  lemma SavedScan(es: seq<Entry>, k: string)
    requires PlainKey(k) && forall i :: 0 <= i < |es| ==> PlainKey(es[i].key)
    ensures After(Saved(es), Needle(k)) == Hit(es, k)
  {
    hide After, Clash, Line;
    if es == [] {
      assert Quoteless(Saved(es));
      NoQuotes(Saved(es), k);
    } else {
      SkipQuoteless("{\n", Line(es[0]) + Rest(es[1..]), k);
      LineScan(es[0], Rest(es[1..]), k);
      RestScan(es[1..], k);
    }
  }

  // ---- Reading a value back ---------------------------------------------------------------------

  /** The bytes taken for characters. */
  function Latin(b: seq<byte>): string {
    seq(|b|, i requires 0 <= i < |b| => b[i] as char)
  }

  function RereadChar(c: char): string {
    if c == '"' || c == '\\' || c == '\n' || c == '\r' || c == '\t' then [c]
    else if Control(c) then EscapeChar(c)
    else Latin(Utf8Char(c))
  }

  /** What the reader makes of the escaped form of v. */
  function Reread(v: string): string {
    if v == "" then "" else RereadChar(v[0]) + Reread(v[1..])
  }

  /** The characters that survive: ASCII, and of the control characters only \n, \r and \t. */
  predicate CleanChar(c: char) {
    32 <= c as int < 128 || c as int == 10 || c as int == 13 || c as int == 9
  }

  predicate Clean(v: string) { forall i :: 0 <= i < |v| ==> CleanChar(v[i]) }

  lemma {:induction false} Utf8Append(a: string, b: string)
    ensures Utf8(a + b) == Utf8(a) + Utf8(b)
    decreases |a|
  {
    if a == "" {
      assert a + b == b;
    } else {
      assert (a + b)[0] == a[0] && (a + b)[1..] == a[1..] + b;
      Utf8Append(a[1..], b);
      assert Utf8Char(a[0]) + (Utf8(a[1..]) + Utf8(b)) == Utf8(a) + Utf8(b);
    }
  }

  /** A byte that is neither a quote nor a backslash stands for itself. */
  lemma ReadOrdinary(x: byte, b: seq<byte>)
    requires x != QUOTE && x != BACKSLASH
    ensures ReadString([x] + b) == Prepend([x as char], ReadString(b))
  {
    assert ([x] + b)[1..] == b;
  }

  lemma {:induction false} ReadOrdinaries(xs: seq<byte>, b: seq<byte>)
    requires QUOTE !in xs && BACKSLASH !in xs
    ensures ReadString(xs + b) == Prepend(Latin(xs), ReadString(b))
    decreases |xs|
  {
    if xs == [] {
      assert xs + b == b;
      PrependNothing(ReadString(b));
    } else {
      assert xs + b == [xs[0]] + (xs[1..] + b);
      ReadOrdinary(xs[0], xs[1..] + b);
      ReadOrdinaries(xs[1..], b);
      assert Latin(xs) == [xs[0] as char] + Latin(xs[1..]);
      PrependTwice([xs[0] as char], Latin(xs[1..]), ReadString(b));
    }
  }

  lemma ReadEscape(x: byte, b: seq<byte>)
    ensures ReadString([BACKSLASH, x] + b) == Prepend(Unescape(x), ReadString(b))
  {
    assert ([BACKSLASH, x] + b)[2..] == b;
  }

  lemma Utf8Ascii(c: char)
    requires c as int < 0x80
    ensures Utf8([c]) == [c as int]
  {
    assert [c][1..] == "";
  }

  lemma TwoAscii(c: char, d: char)
    requires c as int < 0x80 && d as int < 0x80
    ensures Utf8([c, d]) == [c as int, d as int]
  {
    assert [c, d] == [c] + [d];
    Utf8Append([c], [d]);
    Utf8Ascii(c);
    Utf8Ascii(d);
  }

  /** \u00xx is not an escape the reader knows: it reads back as those six characters. */
  lemma ReadControl(d1: char, d2: char, b: seq<byte>)
    requires '0' <= d1 <= 'f' && d1 != '\\' && '0' <= d2 <= 'f' && d2 != '\\'
    ensures ReadString(Utf8("\\u00" + [d1, d2]) + b) == Prepend("\\u00" + [d1, d2], ReadString(b))
  {
    hide ReadString, Utf8, Latin;
    var s := "\\u00" + [d1, d2];
    assert s == "\\u" + ("00" + [d1, d2]);
    Utf8Append("\\u", "00" + [d1, d2]);
    Utf8Append("00", [d1, d2]);
    TwoAscii('\\', 'u');
    TwoAscii('0', '0');
    TwoAscii(d1, d2);
    var xs: seq<byte> := [0x30, 0x30] + [d1 as int, d2 as int];
    assert Utf8(s) + b == [BACKSLASH, 0x75] + (xs + b);
    ReadEscape(0x75, xs + b);
    ReadOrdinaries(xs, b);
    LatinFour(d1, d2);
    PrependTwice("\\u", "00" + [d1, d2], ReadString(b));
  }

  lemma LatinFour(d1: char, d2: char)
    requires d1 as int < 0x80 && d2 as int < 0x80
    ensures Latin([0x30, 0x30] + [d1 as int, d2 as int]) == "00" + [d1, d2]
  {
  }

  lemma ReadChar(c: char, b: seq<byte>)
    ensures ReadString(Utf8(EscapeChar(c)) + b) == Prepend(RereadChar(c), ReadString(b))
  {
    hide ReadString, Utf8;
    if c == '"' {
      TwoAscii('\\', '"');
      ReadEscape(QUOTE, b);
    } else if c == '\\' {
      TwoAscii('\\', '\\');
      ReadEscape(BACKSLASH, b);
    } else if c == '\n' {
      TwoAscii('\\', 'n');
      ReadEscape(0x6E, b);
    } else if c == '\r' {
      TwoAscii('\\', 'r');
      ReadEscape(0x72, b);
    } else if c == '\t' {
      TwoAscii('\\', 't');
      ReadEscape(0x74, b);
    } else if Control(c) {
      ReadControl(HexDigit(c as int / 16), HexDigit(c as int % 16), b);
    } else {
      assert Utf8([c]) == Utf8Char(c) by { Utf8One(c); }
      ReadOrdinaries(Utf8Char(c), b);
    }
  }

  lemma Utf8One(c: char)
    ensures Utf8([c]) == Utf8Char(c)
  {
    assert [c][1..] == "";
  }

  lemma {:induction false} ReadEscaped(v: string, h: string)
    ensures ReadString(Utf8(Escape(v) + ("\"" + h))) == Some(Reread(v))
    decreases |v|
  {
    hide RereadChar, EscapeChar;
    if v == "" {
      assert Escape(v) + ("\"" + h) == "\"" + h;
      assert ("\"" + h)[1..] == h;
      assert Utf8("\"" + h)[0] == QUOTE;
    } else {
      var e, tail := EscapeChar(v[0]), Escape(v[1..]) + ("\"" + h);
      assert Escape(v) + ("\"" + h) == e + tail;
      Utf8Append(e, tail);
      ReadChar(v[0], Utf8(tail));
      ReadEscaped(v[1..], h);
    }
  }

  lemma RereadCharLength(c: char)
    ensures CleanChar(c) ==> RereadChar(c) == [c]
    ensures !CleanChar(c) ==> |RereadChar(c)| >= 2
  {
  }

  lemma {:induction false} RereadLength(v: string)
    ensures |Reread(v)| >= |v|
    ensures Clean(v) ==> Reread(v) == v
    ensures !Clean(v) ==> |Reread(v)| > |v|
    decreases |v|
  {
    if v != "" {
      RereadLength(v[1..]);
      RereadCharLength(v[0]);
      assert v == [v[0]] + v[1..];
      if !Clean(v) { assert !CleanChar(v[0]) || !Clean(v[1..]); }
      if Clean(v) { assert CleanChar(v[0]) && Clean(v[1..]); }
    }
  }

  // ---- The reader on the writer's file -----------------------------------------------------------

  /** The entry whose value a search for k ends up reading. */
  function Answer(es: seq<Entry>, k: string): Option<Entry> {
    if es == [] then None
    else if es[0].key == k then Some(es[0])
    else if Clash(es[0].value, k) then (if es[1..] == [] then None else Some(es[1]))
    else Answer(es[1..], k)
  }

  /** The three searches and the reading loop, from the text behind the hit. */
  function ReadFrom(h: Option<string>): Option<string> {
    match h
    case None => None
    case Some(t) =>
      match After(t, ":")
      case None => None
      case Some(t1) =>
        match After(t1, "\"")
        case None => None
        case Some(t2) => ReadString(Utf8(t2))
  }

  lemma ReadBehind(c: string, e: Entry, es: seq<Entry>)
    requires ':' !in c
    ensures ReadFrom(Some(c + Behind(e, es))) == Some(Reread(e.value))
  {
    hide ReadString, Utf8, Reread, Escape;
    var rest := Escape(e.value) + ("\"" + Rest(es));
    assert c + Behind(e, es) == c + (":" + (" \"" + rest));
    AfterChar(c, ':', " \"" + rest);
    assert " \"" + rest == " " + ("\"" + rest);
    AfterChar(" ", '"', rest);
    ReadEscaped(e.value, Rest(es));
  }

  /** A line up to its colon. */
  function KeyPart(k: string): string { ",\n  " + ("\"" + (k + "\"")) }

  lemma NextLine(es: seq<Entry>)
    requires es != [] && PlainKey(es[0].key)
    ensures Rest(es) == KeyPart(es[0].key) + Behind(es[0], es[1..]) && ':' !in KeyPart(es[0].key)
  {
    hide Escape, Line;
    EscapePlain(es[0].key);
    var k, b := es[0].key, Behind(es[0], es[1..]);
    LineWith(es[0], Rest(es[1..]));
    assert ": " + ("\"" + (Escape(es[0].value) + ("\"" + Rest(es[1..])))) == b;
    assert Line(es[0]) + Rest(es[1..]) == "  " + ("\"" + (k + ("\"" + b)));
    Reassociate(k, b);
  }

  lemma Reassociate(k: string, b: string)
    ensures ",\n" + ("  " + ("\"" + (k + ("\"" + b)))) == KeyPart(k) + b
  {
  }

  /** Behind a clash the next line is read instead, up to its colon; behind the last one nothing. */
  lemma ReadNext(es: seq<Entry>)
    requires forall i :: 0 <= i < |es| ==> PlainKey(es[i].key)
    ensures ReadFrom(Some(Rest(es))) == if es == [] then None else Some(Reread(es[0].value))
  {
    hide ReadString, Utf8, Reread, Escape, After, KeyPart, Behind;
    if es == [] {
      AfterAbsent("\n}\n", ':');
    } else {
      EscapePlain(es[0].key);
      NextLine(es);
      ReadBehind(KeyPart(es[0].key), es[0], es[1..]);
    }
  }

  /** A search for k in the saved file reads the value of the entry Answer names, re-read. */
  lemma {:induction false} ReadHit(es: seq<Entry>, k: string)
    requires PlainKey(k) && forall i :: 0 <= i < |es| ==> PlainKey(es[i].key)
    ensures ReadFrom(Hit(es, k)) ==
            match Answer(es, k) case None => None case Some(e) => Some(Reread(e.value))
    decreases |es|
  {
    hide ReadFrom, Reread, Clash, Rest, Behind;
    if es == [] {
      assert ReadFrom(None) == None by { ReadNothing(); }
    } else if es[0].key == k {
      ReadBehind("", es[0], es[1..]);
      assert "" + Behind(es[0], es[1..]) == Behind(es[0], es[1..]);
    } else if Clash(es[0].value, k) {
      ReadNext(es[1..]);
    } else {
      ReadHit(es[1..], k);
    }
  }

  lemma ReadNothing()
    ensures ReadFrom(None) == None
  {
  }

  lemma ExtractAnswer(es: seq<Entry>, k: string)
    requires PlainKey(k) && forall i :: 0 <= i < |es| ==> PlainKey(es[i].key)
    ensures Extract(Saved(es), k) ==
            match Answer(es, k) case None => None case Some(e) => Some(Reread(e.value))
  {
    hide After, ReadString, Reread, Answer, Hit, Saved;
    SavedScan(es, k);
    ReadHit(es, k);
    assert Extract(Saved(es), k) == ReadFrom(After(Saved(es), Needle(k)));
  }

  // ---- The round trip -----------------------------------------------------------------------------

  /** Distinct plain keys: what the settings table holds. */
  predicate Table(es: seq<Entry>) {
    && (forall i :: 0 <= i < |es| ==> PlainKey(es[i].key))
    && (forall i, j :: 0 <= i < j < |es| ==> es[i].key != es[j].key)
  }

  /** No value written before line i ends like its key. */
  predicate Unshadowed(es: seq<Entry>, i: nat)
    requires i < |es|
  {
    forall j :: 0 <= j < i ==> !Clash(es[j].value, es[i].key)
  }

  /** The line whose value is found for the key of line i: i itself, or the one after the first clash. */
  function Site(es: seq<Entry>, i: nat): (r: nat)
    requires i < |es|
    ensures r <= i && (Unshadowed(es, i) ==> r == i)
    ensures !Unshadowed(es, i) ==> 0 < r && Clash(es[r - 1].value, es[i].key)
  {
    FirstClash(es, i, 0)
  }

  function FirstClash(es: seq<Entry>, i: nat, j: nat): (r: nat)
    requires j <= i < |es|
    ensures j <= r <= i
    ensures (forall m :: j <= m < i ==> !Clash(es[m].value, es[i].key)) ==> r == i
    ensures (exists m :: j <= m < i && Clash(es[m].value, es[i].key)) ==>
              j < r && Clash(es[r - 1].value, es[i].key)
    decreases i - j
  {
    if j == i then i else if Clash(es[j].value, es[i].key) then j + 1 else FirstClash(es, i, j + 1)
  }

  lemma {:induction false} AnswerIsSite(es: seq<Entry>, i: nat, j: nat)
    requires Table(es) && j <= i < |es|
    ensures Answer(es[j..], es[i].key) == Some(es[FirstClash(es, i, j)])
    decreases i - j
  {
    hide Clash;
    var t := es[j..];
    assert t[0] == es[j] && t[1..] == es[j + 1..];
    if j < i && !Clash(es[j].value, es[i].key) { AnswerIsSite(es, i, j + 1); }
  }

  /**
   Reading back the key of line i gives the value of line Site(es, i), re-read. So it gives
   the value that was saved if no earlier value ends like the key and the value is clean;
   and when no earlier value does, only if the value is clean.
   */
  lemma SettingsRoundTrip(es: seq<Entry>, i: nat)
    requires Table(es) && i < |es|
    ensures Extract(Saved(es), es[i].key) == Some(Reread(es[Site(es, i)].value))
    ensures Unshadowed(es, i) ==> (Extract(Saved(es), es[i].key) == Some(es[i].value) <==> Clean(es[i].value))
    ensures !Unshadowed(es, i) ==>
              (Extract(Saved(es), es[i].key) == Some(es[i].value) <==>
               Reread(es[Site(es, i)].value) == es[i].value)
  {
    hide Extract, Saved, Reread, Clash, Clean, PlainKey;
    ExtractAnswer(es, es[i].key);
    AnswerIsSite(es, i, 0);
    assert es[0..] == es;
    RereadLength(es[i].value);
  }

  // ---- The whole map -------------------------------------------------------------------------

  /** es lists exactly the entries of m. */
  predicate Lists(es: seq<Entry>, m: map<string, string>) {
    && (forall i :: 0 <= i < |es| ==> es[i].key in m && m[es[i].key] == es[i].value)
    && (forall k :: k in m ==> exists i :: 0 <= i < |es| && es[i].key == k)
  }

  /** The settings after loading a file. */
  function Loaded(content: string, current: map<string, string>): map<string, string> {
    map k | k in current :: match Extract(content, k) case None => current[k] case Some(v) => v
  }

  /** Line i is read for its own key, or for a value no different from its own. */
  predicate ComesBack(es: seq<Entry>, i: nat)
    requires i < |es|
  {
    if Unshadowed(es, i) then Clean(es[i].value) else Reread(es[Site(es, i)].value) == es[i].value
  }

  /**
   Saving and then loading, over whatever values the settings have by then, restores the
   saved map if and only if every line comes back; when no value ends like a later key, if
   and only if every value is clean.
   */
  lemma SaveLoad(es: seq<Entry>, saved: map<string, string>, current: map<string, string>)
    requires Table(es) && Lists(es, saved) && current.Keys == saved.Keys
    ensures Loaded(Saved(es), current) == saved <==> forall i :: 0 <= i < |es| ==> ComesBack(es, i)
    ensures (forall i :: 0 <= i < |es| ==> Unshadowed(es, i)) ==>
              (Loaded(Saved(es), current) == saved <==> forall i :: 0 <= i < |es| ==> Clean(es[i].value))
  {
    hide Extract, Saved, Reread, Clash, Clean, PlainKey, Unshadowed;
    var now := Loaded(Saved(es), current);
    forall i | 0 <= i < |es|
      ensures es[i].key in current && (now[es[i].key] == es[i].value <==> ComesBack(es, i))
    {
      SettingsRoundTrip(es, i);
      assert es[i].key in saved.Keys;
    }
    if forall i :: 0 <= i < |es| ==> ComesBack(es, i) {
      forall k | k in saved
        ensures now[k] == saved[k]
      {
        var i :| 0 <= i < |es| && es[i].key == k;
        assert ComesBack(es, i);
      }
    }
  }

  /** The two commands one after the other. */
  method SaveThenLoad(es: seq<Entry>, ghost saved: map<string, string>, current: map<string, string>)
    returns (loaded: map<string, string>)
    requires Table(es) && Lists(es, saved) && current.Keys == saved.Keys
    ensures loaded == saved <==> forall i :: 0 <= i < |es| ==> ComesBack(es, i)
  {
    hide Extract, Saved, ComesBack, Table, Lists;
    var content := SaveSettings(es);
    loaded := LoadSettings(content, current);
    assert loaded == Loaded(content, current);
    SaveLoad(es, saved, current);
  }

  lemma ExampleTable()
    ensures Table([Entry("BoardType", "Theme"), Entry("Console", "x"), Entry("Theme", "dark")])
  {
    var es := [Entry("BoardType", "Theme"), Entry("Console", "x"), Entry("Theme", "dark")];
    assert es[0].key[0] == 'B' && es[1].key[0] == 'C' && es[2].key[0] == 'T';
    assert es[0].key != es[1].key && es[1].key != es[2].key && es[0].key != es[2].key;
  }

  /** A file in which a value equal to a later key makes that key read a neighbour's value. */
  lemma ShadowedExample()
    ensures var es := [Entry("BoardType", "Theme"), Entry("Console", "x"), Entry("Theme", "dark")];
            Table(es) && Extract(Saved(es), "Theme") == Some("x")
  {
    hide Extract, Saved;
    var es := [Entry("BoardType", "Theme"), Entry("Console", "x"), Entry("Theme", "dark")];
    ExampleTable();
    NoLastQuote("Theme");
    assert Clash(es[0].value, es[2].key);
    assert Site(es, 2) == 1;
    SettingsRoundTrip(es, 2);
    assert Clean("x");
    RereadLength("x");
  }
}
