/**
 S-record files ("S-Record Output Format", Appendix C of the M68000 Family Programmer's
 Reference Manual): to_srec of mc6809/examples/echo/gen_echo.py writes them; emfe_load_srec
 of the MC6809 plugin and of the EM8 plugin read them. Text is a sequence of ASCII characters.
 */
module Srec {
  import opened Bytes
  import opened Wrappers

  datatype Segment = Segment(start: nat, length: nat)

  // ---- Writing --------------------------------------------------------------------------

  function HexChar(n: int): char
    requires 0 <= n < 16
  {
    "0123456789ABCDEF"[n]
  }

  function HexByte(b: byte): string { [HexChar(b / 0x10), HexChar(b % 0x10)] }

  function HexBytes(bs: seq<byte>): string {
    if bs == [] then "" else HexByte(bs[0]) + HexBytes(bs[1..])
  }

  function Sum(bs: seq<byte>): nat { if bs == [] then 0 else bs[0] + Sum(bs[1..]) }

  /** The ones' complement of the low byte of the sum. */
  function Checksum(row: seq<byte>): byte { 0xFF - Sum(row) % 0x100 }

  /** A record of the given type: count, address, data, checksum. */
  function Row(addr: word, data: seq<byte>): seq<byte>
    requires |data| <= 24
  {
    [|data| + 3, Hi(addr), Lo(addr)] + data
  }

  function Record(kind: char, row: seq<byte>): string { "S" + ([kind] + HexBytes(row + [Checksum(row)])) }

  function Chunk(length: nat): nat { if length < 24 then length else 24 }

  /** The S1 records of `length` bytes from `start`, at most 24 bytes each. */
  function DataRecords(m: Ram, start: nat, length: nat): seq<string>
    requires start + length <= 0x10000
    decreases length
  {
    if length == 0 then []
    else
      var n := Chunk(length);
      [Record('1', Row(start, m[start..start + n]))] + DataRecords(m, start + n, length - n)
  }

  predicate Inside(segs: seq<Segment>) {
    forall i :: 0 <= i < |segs| ==> segs[i].start + segs[i].length <= 0x10000
  }

  function SegmentRecords(m: Ram, segs: seq<Segment>): seq<string>
    requires Inside(segs)
  {
    if segs == [] then []
    else DataRecords(m, segs[0].start, segs[0].length) + SegmentRecords(m, segs[1..])
  }

  const HEADER: string := "S0100000656D66655F6D633638303960"

  function Lines(m: Ram, segs: seq<Segment>, entry: word): seq<string>
    requires Inside(segs)
  {
    [HEADER] + SegmentRecords(m, segs) + [Record('9', Row(entry, []))]
  }

  /** Every line with its newline: "\n".join(lines) + "\n". */
  function Joined(lines: seq<string>): string {
    if lines == [] then "" else lines[0] + ("\n" + Joined(lines[1..]))
  }

  function SrecText(m: Ram, segs: seq<Segment>, entry: word): string
    requires Inside(segs)
  {
    Joined(Lines(m, segs, entry))
  }

  // ---- Reading --------------------------------------------------------------------------

  /** The two readers. */
  datatype Reader = Mc6809 | Em8

  /** RAM, the lowest address written, the end of the highest, and the entry point if any. */
  datatype Loader = Loader(ram: Ram, min: int, max: int, entry: Option<word>)

  function Begin(r: Reader, ram: Ram): Loader {
    if r.Mc6809? then Loader(ram, 0x10000, 0, None) else Loader(ram, 0xFFFF, 0, None)
  }

  /** One data byte. The EM8 reader keeps its end address in 16 bits. */
  function Put(r: Reader, l: Loader, a: word, b: byte): Loader {
    var min := if a < l.min then a else l.min;
    var max := if r.Mc6809? then (if a + 1 > l.max then a + 1 else l.max)
               else if a >= l.max then W(a + 1) else l.max;
    l.(ram := l.ram[a := b], min := min, max := max)
  }

  function PutAll(r: Reader, l: Loader, a: word, data: seq<byte>): Loader
    decreases |data|
  {
    if data == [] then l else PutAll(r, Put(r, l, a, data[0]), W(a + 1), data[1..])
  }

  function Nibble(c: char): Option<byte> {
    if '0' <= c <= '9' then Some(c as int - '0' as int)
    else if 'A' <= c <= 'F' then Some(c as int - 'A' as int + 10)
    else if 'a' <= c <= 'f' then Some(c as int - 'a' as int + 10)
    else None
  }

  /** u8::from_str_radix on two characters: a leading plus sign is allowed. */
  function Hex2(c: char, d: char): Option<byte> {
    match Nibble(d)
    case None => None
    case Some(low) =>
      if c == '+' then Some(low)
      else match Nibble(c) case None => None case Some(high) => Some(0x10 * high + low)
  }

  /** parseHexByte of the EM8 reader: a character that is no digit counts as 0. */
  function HexOrZero(c: char, d: char): byte {
    0x10 * (match Nibble(c) case None => 0 case Some(n) => n) + (match Nibble(d) case None => 0 case Some(n) => n)
  }

  function Or0(b: Option<byte>): byte { if b.Some? then b.value else 0 }

  /** The MC6809 reader's data loop: pairs that are not hexadecimal are skipped without moving on. */
  function PutPairs(l: Loader, a: word, p: string): Loader
    decreases |p|
  {
    if |p| < 2 then l
    else match Hex2(p[0], p[1])
         case None => PutPairs(l, a, p[2..])
         case Some(b) => PutPairs(Put(Mc6809, l, a, b), W(a + 1), p[2..])
  }

  function ReadLine6809(l: Loader, line: string): Loader {
    if |line| < 4 || line[0] != 'S' then l
    else
      var bytes := line[2..];
      if Hex2(bytes[0], bytes[1]).None? then l
      else if line[1] == '1' && |bytes| >= 8 then
        var addr := Pair(Or0(Hex2(bytes[2], bytes[3])), Or0(Hex2(bytes[4], bytes[5])));
        PutPairs(l, addr, bytes[6..|bytes| - 2])
      else if line[1] == '9' && |bytes| >= 6 then
        l.(entry := Some(Pair(Or0(Hex2(bytes[2], bytes[3])), Or0(Hex2(bytes[4], bytes[5])))))
      else l
  }

  /** The character at i, a terminator from the end on. */
  function At(line: string, i: nat): char { if i < |line| then line[i] else '\0' }

  function ByteAt(line: string, i: nat): byte { HexOrZero(At(line, i), At(line, i + 1)) }

  /** The data bytes the EM8 reader takes, counted by the record's own length byte. */
  function CountedBytes(line: string, i: nat, n: int): seq<byte>
    decreases n
  {
    if n <= 0 then [] else [ByteAt(line, i)] + CountedBytes(line, i + 2, n - 1)
  }

  function ReadLineEm8(l: Loader, line: string): Loader {
    if |line| < 4 || line[0] != 'S' then l
    else
      var addr := Pair(ByteAt(line, 4), ByteAt(line, 6));
      if line[1] == '1' then PutAll(Em8, l, addr, CountedBytes(line, 8, ByteAt(line, 2) - 3))
      else if line[1] == '9' then l.(entry := Some(addr))
      else l
  }

  function ReadLine(r: Reader, l: Loader, line: string): Loader {
    if r.Mc6809? then ReadLine6809(l, line) else ReadLineEm8(l, line)
  }

  function ReadLines(r: Reader, l: Loader, lines: seq<string>): Loader
    decreases |lines|
  {
    if lines == [] then l else ReadLines(r, ReadLine(r, l, lines[0]), lines[1..])
  }

  /** Rust's lines() takes a carriage return off together with the newline; std::getline does not. */
  function Chomp(r: Reader, line: string): string {
    if r.Mc6809? && line != "" && line[|line| - 1] == '\r' then line[..|line| - 1] else line
  }

  /** The lines of a text: up to each newline, and, as it is, what is left if it does not end in one. */
  function Split(r: Reader, text: string, line: string): seq<string>
    decreases |text|
  {
    if text == "" then (if line == "" then [] else [line])
    else if text[0] == '\n' then [Chomp(r, line)] + Split(r, text[1..], "")
    else Split(r, text[1..], line + [text[0]])
  }

  function Load(r: Reader, ram: Ram, text: string): Loader {
    ReadLines(r, Begin(r, ram), Split(r, text, ""))
  }

  /** Where execution starts after loading; the EM8 reader compares its two addresses. */
  function StartPc(r: Reader, l: Loader, pc: word): word {
    if l.entry.Some? then l.entry.value
    else if r.Mc6809? then (if 0 <= l.min < 0x10000 then l.min else pc)
    else if 0 <= l.min <= l.max && l.min < 0x10000 then l.min else pc
  }

  // ---- The writer's loops ---------------------------------------------------------------

  method Hex(row: seq<byte>) returns (s: string)
    ensures s == HexBytes(row)
  {
    s := "";
    for i := 0 to |row|
      invariant s + HexBytes(row[i..]) == HexBytes(row)
    {
      ghost var before := s;
      assert row[i..][0] == row[i] && row[i..][1..] == row[i + 1..];
      s := s + HexByte(row[i]);
      assert before + (HexByte(row[i]) + HexBytes(row[i + 1..])) == s + HexBytes(row[i + 1..]);
    }
  }

  method MakeRecord(kind: char, row: seq<byte>) returns (s: string)
    ensures s == Record(kind, row)
  {
    var total := 0;
    assert row[0..] == row;
    for i := 0 to |row|
      invariant total + Sum(row[i..]) == Sum(row)
    {
      assert row[i..][1..] == row[i + 1..];
      total := total + row[i];
    }
    var h := Hex(row + [0xFF - total % 0x100]);
    s := "S" + ([kind] + h);
  }

  /** The rows of one segment. */
  method AddSegment(mem: Ram, start: nat, length: nat, before: seq<string>) returns (lines: seq<string>)
    requires start + length <= 0x10000
    ensures lines == before + DataRecords(mem, start, length)
  {
    hide Record;
    lines := before;
    var i := 0;
    while i < length
      invariant i <= length
      invariant lines + DataRecords(mem, start + i, length - i) == before + DataRecords(mem, start, length)
    {
      var chunk := if length - i < 24 then length - i else 24;
      var addr := start + i;
      var r := MakeRecord('1', Row(addr, mem[addr..addr + chunk]));
      ghost var rest := DataRecords(mem, addr + chunk, length - i - chunk);
      assert DataRecords(mem, addr, length - i) == [r] + rest;
      assert lines + ([r] + rest) == lines + [r] + rest;
      lines := lines + [r];
      i := i + chunk;
    }
  }

  method ToSrec(mem: Ram, segments: seq<Segment>, entry: word) returns (text: string)
    requires Inside(segments)
    ensures text == SrecText(mem, segments, entry)
  {
    hide Record, DataRecords, Joined;
    var lines := [HEADER];
    assert segments[0..] == segments;
    for k := 0 to |segments|
      invariant lines + SegmentRecords(mem, segments[k..]) == [HEADER] + SegmentRecords(mem, segments)
    {
      ghost var before := lines;
      lines := AddSegment(mem, segments[k].start, segments[k].length, lines);
      SegmentStep(mem, segments, k, before);
    }
    assert SegmentRecords(mem, segments[|segments|..]) == [];
    assert lines + [] == lines;
    var last := MakeRecord('9', Row(entry, []));
    assert lines + [last] == Lines(mem, segments, entry);
    text := JoinLines(lines + [last]);
  }

  lemma SegmentStep(m: Ram, segs: seq<Segment>, k: nat, before: seq<string>)
    requires Inside(segs) && k < |segs|
    ensures before + SegmentRecords(m, segs[k..]) ==
            before + DataRecords(m, segs[k].start, segs[k].length) + SegmentRecords(m, segs[k + 1..])
  {
    hide DataRecords;
    assert segs[k..][0] == segs[k] && segs[k..][1..] == segs[k + 1..];
  }

  method JoinLines(lines: seq<string>) returns (text: string)
    ensures text == Joined(lines)
  {
    text := "";
    assert lines[0..] == lines;
    for i := 0 to |lines|
      invariant text + Joined(lines[i..]) == Joined(lines)
    {
      JoinStep(lines, i, text);
      text := text + (lines[i] + "\n");
    }
  }

  lemma JoinStep(lines: seq<string>, i: nat, text: string)
    requires i < |lines|
    ensures text + Joined(lines[i..]) == text + (lines[i] + "\n") + Joined(lines[i + 1..])
  {
    assert lines[i..][0] == lines[i] && lines[i..][1..] == lines[i + 1..];
  }
}
