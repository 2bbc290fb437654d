/**
 The settings file of mc6809/src/lib.rs: json_escape and the save loop write it,
 json_extract_string reads one key back. Text is a sequence of characters, as in a Rust
 string; reading a value goes over the bytes of its UTF-8 form.
 */
module Settings {
  import opened Bytes
  import opened Wrappers

  datatype Entry = Entry(key: string, value: string)

  // ---- Writing --------------------------------------------------------------------------

  function HexDigit(n: int): char
    requires 0 <= n < 16
  {
    "0123456789abcdef"[n]
  }

  predicate Control(c: char) { c as int < 0x20 }

  function EscapeChar(c: char): string {
    if c == '"' then "\\\""
    else if c == '\\' then "\\\\"
    else if c == '\n' then "\\n"
    else if c == '\r' then "\\r"
    else if c == '\t' then "\\t"
    else if Control(c) then "\\u00" + [HexDigit(c as int / 16), HexDigit(c as int % 16)]
    else [c]
  }

  function Escape(s: string): string {
    if s == "" then "" else EscapeChar(s[0]) + Escape(s[1..])
  }

  function Line(e: Entry): string {
    "  \"" + (Escape(e.key) + ("\": \"" + (Escape(e.value) + "\"")))
  }

  /** The lines after the first one, and the closing brace. */
  function Rest(es: seq<Entry>): string {
    if es == [] then "\n}\n" else ",\n" + (Line(es[0]) + Rest(es[1..]))
  }

  function Saved(es: seq<Entry>): string {
    if es == [] then "{\n" + Rest(es) else "{\n" + (Line(es[0]) + Rest(es[1..]))
  }

  // ---- Reading --------------------------------------------------------------------------

  /** What follows the first occurrence of n in h. */
  function After(h: string, n: string): Option<string> {
    if n <= h then Some(h[|n|..]) else if h == "" then None else After(h[1..], n)
  }

  function Utf8Char(c: char): seq<byte> {
    var n := c as int;
    if n < 0x80 then [n]
    else if n < 0x800 then [0xC0 + n / 0x40, 0x80 + n % 0x40]
    else if n < 0x1_0000 then [0xE0 + n / 0x1000, 0x80 + n / 0x40 % 0x40, 0x80 + n % 0x40]
    else [0xF0 + n / 0x4_0000, 0x80 + n / 0x1000 % 0x40, 0x80 + n / 0x40 % 0x40, 0x80 + n % 0x40]
  }

  function Utf8(s: string): seq<byte> {
    if s == "" then [] else Utf8Char(s[0]) + Utf8(s[1..])
  }

  const QUOTE: byte := 0x22
  const BACKSLASH: byte := 0x5C

  /** What the two bytes of an escape stand for; an unknown one stands for itself. */
  function Unescape(esc: byte): string {
    if esc == QUOTE then "\""
    else if esc == BACKSLASH then "\\"
    else if esc == 0x6E then "\n"
    else if esc == 0x72 then "\r"
    else if esc == 0x74 then "\t"
    else ['\\', esc as char]
  }

  /** The string up to the closing quote, each byte taken for a character. */
  function ReadString(b: seq<byte>): Option<string> {
    if b == [] then None
    else if b[0] == QUOTE then Some("")
    else
      var (piece, n) := if b[0] == BACKSLASH && |b| > 1 then (Unescape(b[1]), 2) else ([b[0] as char], 1);
      match ReadString(b[n..])
      case None => None
      case Some(tail) => Some(piece + tail)
  }

  function Extract(content: string, key: string): Option<string> {
    match After(content, "\"" + key + "\"")
    case None => None
    case Some(afterKey) =>
      match After(afterKey, ":")
      case None => None
      case Some(afterColon) =>
        match After(afterColon, "\"")
        case None => None
        case Some(rest) => ReadString(Utf8(rest))
  }

  // ---- The loops ---------------------------------------------------------------------------

  method JsonEscape(s: string) returns (out: string)
    ensures out == Escape(s)
  {
    out := "";
    for i := 0 to |s|
      invariant out + Escape(s[i..]) == Escape(s)
    {
      assert s[i..][0] == s[i] && s[i..][1..] == s[i + 1..];
      ghost var before := out;
      out := out + EscapeChar(s[i]);
      assert before + (EscapeChar(s[i]) + Escape(s[i + 1..])) == out + Escape(s[i + 1..]);
    }
  }

  /** What the save loop still has to write before entry i. */
  function Pending(es: seq<Entry>, i: nat): string
    requires i <= |es|
  {
    if 0 == i < |es| then Line(es[0]) + Rest(es[1..]) else Rest(es[i..])
  }

  lemma PendingStep(es: seq<Entry>, i: nat, out: string)
    requires i < |es|
    ensures out + Pending(es, i) == out + (if i == 0 then "" else ",\n") + Line(es[i]) + Pending(es, i + 1)
  {
    hide Line;
    assert es[i..][0] == es[i] && es[i..][1..] == es[i + 1..];
  }

  method SaveSettings(es: seq<Entry>) returns (out: string)
    ensures out == Saved(es)
  {
    hide Pending, Line, Rest, Saved, Escape;
    out := "{\n";
    var first := true;
    assert out + Pending(es, 0) == Saved(es) by { SavedIsPending(es); }
    for i := 0 to |es|
      invariant first == (i == 0)
      invariant out + Pending(es, i) == Saved(es)
    {
      PendingStep(es, i, out);
      if !first { out := out + ",\n"; }
      var k := JsonEscape(es[i].key);
      var v := JsonEscape(es[i].value);
      var line := "  \"" + (k + ("\": \"" + (v + "\"")));
      assert line == Line(es[i]) by { LineIs(es[i]); }
      out := out + line;
      first := false;
    }
    out := out + "\n}\n";
    assert Pending(es, |es|) == "\n}\n" by { PendingEnd(es); }
  }

  lemma SavedIsPending(es: seq<Entry>)
    ensures "{\n" + Pending(es, 0) == Saved(es)
  {
    assert es[0..] == es;
  }

  lemma PendingEnd(es: seq<Entry>)
    ensures Pending(es, |es|) == "\n}\n"
  {
  }

  lemma LineIs(e: Entry)
    ensures Line(e) == "  \"" + (Escape(e.key) + ("\": \"" + (Escape(e.value) + "\"")))
  {
  }

  /** The reading loop over the bytes of rest. */
  method ReadValue(b: seq<byte>) returns (r: Option<string>)
    ensures r == ReadString(b)
  {
    var i := 0;
    var out := "";
    assert b[0..] == b;
    PrependNothing(ReadString(b));
    while i < |b|
      invariant i <= |b|
      invariant ReadString(b) == Prepend(out, ReadString(b[i..]))
    {
      var c := b[i];
      ghost var before, rest := out, b[i..];
      assert rest[0] == c;
      if c == QUOTE {
        assert out + "" == out;
        return Some(out);
      } else if c == BACKSLASH && i + 1 < |b| {
        assert rest[1] == b[i + 1] && rest[2..] == b[i + 2..];
        out := out + Unescape(b[i + 1]);
        i := i + 2;
        PrependTwice(before, Unescape(b[i - 1]), ReadString(b[i..]));
      } else {
        assert rest[1..] == b[i + 1..];
        out := out + [c as char];
        i := i + 1;
        PrependTwice(before, [c as char], ReadString(b[i..]));
      }
    }
    r := None;
  }

  function Prepend(p: string, r: Option<string>): Option<string> {
    match r
    case None => None
    case Some(t) => Some(p + t)
  }

  lemma PrependNothing(r: Option<string>)
    ensures Prepend("", r) == r
  {
    if r.Some? { assert "" + r.value == r.value; }
  }

  lemma PrependTwice(a: string, b: string, r: Option<string>)
    ensures Prepend(a, Prepend(b, r)) == Prepend(a + b, r)
  {
    if r.Some? { assert a + (b + r.value) == a + b + r.value; }
  }

  method JsonExtractString(content: string, key: string) returns (r: Option<string>)
    ensures r == Extract(content, key)
  {
    var afterKey := After(content, "\"" + key + "\"");
    if afterKey == None { return None; }
    var afterColon := After(afterKey.value, ":");
    if afterColon == None { return None; }
    var rest := After(afterColon.value, "\"");
    if rest == None { return None; }
    r := ReadValue(Utf8(rest.value));
  }

  /** Only the known keys are looked up; one that is not found keeps its value. */
  method LoadSettings(content: string, settings: map<string, string>) returns (loaded: map<string, string>)
    ensures loaded.Keys == settings.Keys
    ensures forall k :: k in settings ==>
              loaded[k] == match Extract(content, k) case None => settings[k] case Some(v) => v
  {
    hide Extract;
    loaded := settings;
    var known := settings.Keys;
    while known != {}
      invariant known <= settings.Keys == loaded.Keys
      invariant forall k :: k in known ==> loaded[k] == settings[k]
      invariant forall k :: k in settings && k !in known ==>
                  loaded[k] == match Extract(content, k) case None => settings[k] case Some(v) => v
      decreases known
    {
      var key :| key in known;
      var val := JsonExtractString(content, key);
      if val.Some? { loaded := loaded[key := val.value]; }
      known := known - {key};
    }
  }
}
