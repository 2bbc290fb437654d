/** Both readers load from a written S-record file exactly what was written. */
module SrecRoundTrip {
  import opened Bytes
  import opened Srec
  import opened Wrappers

  // ---- Checksums and rows -------------------------------------------------------------------

  lemma {:induction false} SumAppend(a: seq<byte>, b: byte)
    ensures Sum(a + [b]) == Sum(a) + b
    decreases |a|
  {
    if a == [] {
      assert [b][1..] == [];
      assert a + [b] == [b];
    } else {
      assert (a + [b])[0] == a[0] && (a + [b])[1..] == a[1..] + [b];
      SumAppend(a[1..], b);
    }
  }

  /** The bytes of every record, checksum included, add up to FF in the low byte. */
  lemma ChecksumCompletes(row: seq<byte>)
    ensures Sum(row + [Checksum(row)]) % 0x100 == 0xFF
  {
    SumAppend(row, Checksum(row));
  }

  /** The rows of a segment follow one another every 24 bytes; only the last may be shorter. */
  lemma {:induction false} RowsTile(m: Ram, start: nat, length: nat, j: nat)
    requires start + length <= 0x10000 && 24 * j < length
    ensures j < |DataRecords(m, start, length)|
    ensures var lo := start + 24 * j;
            var hi := if length < 24 * j + 24 then start + length else lo + 24;
            DataRecords(m, start, length)[j] == Record('1', Row(lo, m[lo..hi]))
    decreases j
  {
    hide Record;
    if j > 0 { RowsTile(m, start + 24, length - 24, j - 1); }
  }

  lemma {:induction false} RowCount(m: Ram, start: nat, length: nat)
    requires start + length <= 0x10000
    ensures |DataRecords(m, start, length)| == (length + 23) / 24
    decreases length
  {
    hide Record;
    if length > 0 { RowCount(m, start + Chunk(length), length - Chunk(length)); }
  }

  // ---- Hexadecimal ----------------------------------------------------------------------------

  predicate UpperHex(c: char) { '0' <= c <= '9' || 'A' <= c <= 'F' }

  lemma NibbleOfHexChar(n: int)
    requires 0 <= n < 16
    ensures Nibble(HexChar(n)) == Some(n) && UpperHex(HexChar(n))
  {
  }

  lemma HexByteReads(b: byte)
    ensures var h := HexByte(b);
            && |h| == 2 && UpperHex(h[0]) && UpperHex(h[1])
            && Hex2(h[0], h[1]) == Some(b) && HexOrZero(h[0], h[1]) == b
  {
    hide HexChar, Nibble;
    NibbleOfHexChar(b / 0x10);
    NibbleOfHexChar(b % 0x10);
  }

  /** Where byte i of a row stands in its text. */
  lemma {:induction false} HexBytesAt(bs: seq<byte>, i: nat)
    requires i < |bs|
    ensures |HexBytes(bs)| == 2 * |bs| && HexBytes(bs)[2 * i..2 * i + 2] == HexByte(bs[i])
    decreases |bs|
  {
    hide HexByte;
    HexByteLength(bs[0]);
    if i == 0 {
      HexLength(bs);
    } else {
      HexBytesAt(bs[1..], i - 1);
      assert HexBytes(bs)[2 * i..2 * i + 2] == HexBytes(bs[1..])[2 * i - 2..2 * i];
    }
  }

  lemma HexByteLength(b: byte)
    ensures |HexByte(b)| == 2
  {
  }

  lemma {:induction false} HexLength(bs: seq<byte>)
    ensures |HexBytes(bs)| == 2 * |bs|
    decreases |bs|
  {
    if bs != [] { HexLength(bs[1..]); }
  }

  lemma {:induction false} HexAppend(a: seq<byte>, b: seq<byte>)
    ensures HexBytes(a + b) == HexBytes(a) + HexBytes(b)
    decreases |a|
  {
    hide HexByte;
    if a == [] {
      assert a + b == b;
    } else {
      assert (a + b)[0] == a[0] && (a + b)[1..] == a[1..] + b;
      HexAppend(a[1..], b);
      assert HexByte(a[0]) + (HexBytes(a[1..]) + HexBytes(b)) == HexBytes(a) + HexBytes(b);
    }
  }

  lemma {:induction false} HexBytesUpper(bs: seq<byte>)
    ensures forall i :: 0 <= i < |HexBytes(bs)| ==> UpperHex(HexBytes(bs)[i])
    decreases |bs|
  {
    if bs != [] {
      HexByteReads(bs[0]);
      HexBytesUpper(bs[1..]);
    }
  }

  // ---- What a range of bytes does to memory -------------------------------------------------------

  lemma {:induction false} PutAllRam(r: Reader, l: Loader, addr: word, data: seq<byte>, a: word)
    requires addr + |data| <= 0x10000
    ensures var e := PutAll(r, l, addr, data);
            && e.entry == l.entry
            && e.ram[a] == if addr <= a < addr + |data| then data[a - addr] else l.ram[a]
    decreases |data|
  {
    if |data| == 1 {
      assert data[1..] == [];
    } else if data != [] {
      PutAllRam(r, Put(r, l, addr, data[0]), addr + 1, data[1..], a);
    }
  }

  // ---- Records through the MC6809 reader ------------------------------------------------------------

  lemma {:induction false} PairsAreBytes(l: Loader, a: word, data: seq<byte>)
    ensures PutPairs(l, a, HexBytes(data)) == PutAll(Mc6809, l, a, data)
    decreases |data|
  {
    hide HexByte, Hex2, Put;
    if data != [] {
      var p := HexBytes(data);
      HexByteReads(data[0]);
      assert p[0] == HexByte(data[0])[0] && p[1] == HexByte(data[0])[1];
      assert p[2..] == HexBytes(data[1..]);
      PairsAreBytes(Put(Mc6809, l, a, data[0]), W(a + 1), data[1..]);
    }
  }

  /** The middle of a row's text is its middle's text. */
  lemma HexMiddle(head: seq<byte>, data: seq<byte>, ck: byte)
    ensures var b := HexBytes(head + data + [ck]);
            |b| == 2 * |head| + 2 * |data| + 2 && b[2 * |head|..|b| - 2] == HexBytes(data)
  {
    hide HexByte, HexBytes;
    HexAppend(head + data, [ck]);
    HexAppend(head, data);
    HexLength(head);
    HexLength(data);
    HexLength([ck]);
  }

  lemma HexStart(row: seq<byte>, n: nat, hi: byte, lo: byte)
    requires |row| > 3 && row[0] == n && row[1] == hi && row[2] == lo
    ensures var b := HexBytes(row);
            |b| == 2 * |row| && b[0..2] == HexByte(n) && b[2..4] == HexByte(hi) && b[4..6] == HexByte(lo)
  {
    hide HexByte, HexBytes;
    HexBytesAt(row, 0);
    HexBytesAt(row, 1);
    HexBytesAt(row, 2);
  }

  /** The fields of a record, in the text after its two-character tag. */
  lemma Fields(kind: char, addr: word, data: seq<byte>)
    requires |data| <= 24
    ensures var line := Record(kind, Row(addr, data));
            var b := line[2..];
            && |line| == 2 * |data| + 10 && line[0] == 'S' && line[1] == kind
            && b[0..2] == HexByte(|data| + 3) && b[2..4] == HexByte(Hi(addr)) && b[4..6] == HexByte(Lo(addr))
            && b[6..|b| - 2] == HexBytes(data)
  {
    hide HexByte, HexBytes, Checksum, Hi, Lo;
    var row := Row(addr, data);
    var head := [|data| + 3, Hi(addr), Lo(addr)];
    HexMiddle(head, data, Checksum(row));
    HexStart(row + [Checksum(row)], |data| + 3, Hi(addr), Lo(addr));
    assert Record(kind, row)[2..] == HexBytes(row + [Checksum(row)]);
  }

  lemma TwoOf(h: string, b: string, i: nat)
    requires i + 2 <= |b| && b[i..i + 2] == h && |h| == 2
    ensures b[i] == h[0] && b[i + 1] == h[1]
  {
    assert b[i..i + 2][0] == b[i] && b[i..i + 2][1] == b[i + 1];
  }

  lemma Read6809(l: Loader, kind: char, addr: word, data: seq<byte>)
    requires |data| <= 24
    ensures var line := Record(kind, Row(addr, data));
            && (kind == '1' ==> ReadLine6809(l, line) == PutAll(Mc6809, l, addr, data))
            && (kind == '9' ==> ReadLine6809(l, line) == l.(entry := Some(addr)))
  {
    hide Record, Row, HexByte, HexBytes, Hex2, PutPairs, PutAll, Pair, Hi, Lo;
    Fields(kind, addr, data);
    var b := Record(kind, Row(addr, data))[2..];
    HexByteReads(|data| + 3);
    HexByteReads(Hi(addr));
    HexByteReads(Lo(addr));
    TwoOf(HexByte(|data| + 3), b, 0);
    TwoOf(HexByte(Hi(addr)), b, 2);
    TwoOf(HexByte(Lo(addr)), b, 4);
    PairOf(addr);
    PairsAreBytes(l, addr, data);
  }

  // ---- Records through the EM8 reader -----------------------------------------------------------------

  lemma {:induction false} CountedAre(line: string, i: nat, data: seq<byte>)
    requires i + 2 * |data| <= |line| && line[i..i + 2 * |data|] == HexBytes(data)
    ensures CountedBytes(line, i, |data|) == data
    decreases |data|
  {
    hide HexByte, HexOrZero;
    if data != [] {
      HexByteReads(data[0]);
      var h := HexBytes(data);
      assert h[..2] == HexByte(data[0]) && h[2..] == HexBytes(data[1..]);
      assert line[i..i + 2 * |data|][0] == line[i] && line[i..i + 2 * |data|][1] == line[i + 1];
      assert line[i + 2..i + 2 + 2 * |data[1..]|] == h[2..];
      CountedAre(line, i + 2, data[1..]);
    }
  }

  lemma ByteAtIs(line: string, i: nat, v: byte)
    requires i + 1 < |line| && HexOrZero(line[i], line[i + 1]) == v
    ensures ByteAt(line, i) == v
  {
  }

  lemma DropTwo(line: string, n: nat)
    requires 8 <= n <= |line|
    ensures line[8..n] == line[2..][6..n - 2]
  {
    var a, b := line[8..n], line[2..][6..n - 2];
    assert forall i :: 0 <= i < |a| ==> a[i] == b[i];
  }

  lemma ReadEm8(l: Loader, kind: char, addr: word, data: seq<byte>)
    requires |data| <= 24
    ensures var line := Record(kind, Row(addr, data));
            && (kind == '1' ==> ReadLineEm8(l, line) == PutAll(Em8, l, addr, data))
            && (kind == '9' ==> ReadLineEm8(l, line) == l.(entry := Some(addr)))
  {
    hide Record, Row, HexByte, HexBytes, HexOrZero, ByteAt, CountedBytes, PutAll, Pair, Hi, Lo;
    Fields(kind, addr, data);
    var line := Record(kind, Row(addr, data));
    var b := line[2..];
    HexByteReads(|data| + 3);
    HexByteReads(Hi(addr));
    HexByteReads(Lo(addr));
    TwoOf(HexByte(|data| + 3), b, 0);
    TwoOf(HexByte(Hi(addr)), b, 2);
    TwoOf(HexByte(Lo(addr)), b, 4);
    PairOf(addr);
    assert line[2] == b[0] && line[3] == b[1] && line[4] == b[2] && line[5] == b[3];
    assert line[6] == b[4] && line[7] == b[5];
    ByteAtIs(line, 2, |data| + 3);
    ByteAtIs(line, 4, Hi(addr));
    ByteAtIs(line, 6, Lo(addr));
    DropTwo(line, 8 + 2 * |data|);
    CountedAre(line, 8, data);
  }

  lemma ReadRecord(r: Reader, l: Loader, kind: char, addr: word, data: seq<byte>)
    requires |data| <= 24
    ensures var line := Record(kind, Row(addr, data));
            && (kind == '1' ==> ReadLine(r, l, line) == PutAll(r, l, addr, data))
            && (kind == '9' ==> ReadLine(r, l, line) == l.(entry := Some(addr)))
  {
    hide Record, Row, ReadLine6809, ReadLineEm8;
    Read6809(l, kind, addr, data);
    ReadEm8(l, kind, addr, data);
  }

  lemma ReadHeader(r: Reader, l: Loader)
    ensures ReadLine(r, l, HEADER) == l
  {
    assert HEADER[0] == 'S' && HEADER[1] == '0' && |HEADER| == 32;
  }

  // ---- Segments -------------------------------------------------------------------------------------

  lemma {:induction false} ReadAppend(r: Reader, l: Loader, a: seq<string>, b: seq<string>)
    ensures ReadLines(r, l, a + b) == ReadLines(r, ReadLines(r, l, a), b)
    decreases |a|
  {
    hide ReadLine;
    if a == [] {
      assert a + b == b;
    } else {
      assert (a + b)[0] == a[0] && (a + b)[1..] == a[1..] + b;
      ReadAppend(r, ReadLine(r, l, a[0]), a[1..], b);
    }
  }

  lemma {:induction false} ReadSegment(r: Reader, l: Loader, m: Ram, start: nat, length: nat, a: word)
    requires start + length <= 0x10000
    ensures var e := ReadLines(r, l, DataRecords(m, start, length));
            && e.entry == l.entry
            && e.ram[a] == if start <= a < start + length then m[a] else l.ram[a]
    decreases length
  {
    hide Record, Row, ReadLine, PutAll;
    if length > 0 {
      var n := Chunk(length);
      var data := m[start..start + n];
      ReadRecord(r, l, '1', start, data);
      var l1 := ReadLine(r, l, Record('1', Row(start, data)));
      PutAllRam(r, l, start, data, a);
      ReadSegment(r, l1, m, start + n, length - n, a);
      var rs := DataRecords(m, start, length);
      assert rs[0] == Record('1', Row(start, data)) && rs[1..] == DataRecords(m, start + n, length - n);
    }
  }

  /** Address a lies in one of the segments. */
  predicate Covered(segs: seq<Segment>, a: int) {
    exists i :: 0 <= i < |segs| && segs[i].start <= a < segs[i].start + segs[i].length
  }

  lemma {:induction false} ReadSegments(r: Reader, l: Loader, m: Ram, segs: seq<Segment>, a: word)
    requires Inside(segs)
    ensures var e := ReadLines(r, l, SegmentRecords(m, segs));
            && e.entry == l.entry
            && e.ram[a] == if Covered(segs, a) then m[a] else l.ram[a]
    decreases |segs|
  {
    hide DataRecords, ReadLines;
    if segs == [] {
      assert ReadLines(r, l, []) == l by { ReadNone(r, l); }
    } else {
      var first := DataRecords(m, segs[0].start, segs[0].length);
      var l1 := ReadLines(r, l, first);
      ReadSegment(r, l, m, segs[0].start, segs[0].length, a);
      ReadAppend(r, l, first, SegmentRecords(m, segs[1..]));
      ReadSegments(r, l1, m, segs[1..], a);
      CoveredStep(segs, a);
    }
  }

  lemma ReadNone(r: Reader, l: Loader)
    ensures ReadLines(r, l, []) == l
  {
  }

  lemma CoveredStep(segs: seq<Segment>, a: int)
    requires segs != []
    ensures Covered(segs, a) <==> segs[0].start <= a < segs[0].start + segs[0].length || Covered(segs[1..], a)
  {
    if Covered(segs, a) {
      var i :| 0 <= i < |segs| && segs[i].start <= a < segs[i].start + segs[i].length;
      if i > 0 { assert segs[1..][i - 1] == segs[i]; }
    }
    if Covered(segs[1..], a) {
      var i :| 0 <= i < |segs[1..]| && segs[1..][i].start <= a < segs[1..][i].start + segs[1..][i].length;
      assert segs[i + 1] == segs[1..][i];
    }
  }

  // ---- Lines ------------------------------------------------------------------------------------------

  /** A line that survives joining, splitting and chomping. */
  predicate Proper(line: string) { '\n' !in line && '\r' !in line }

  predicate AllProper(lines: seq<string>) { forall i :: 0 <= i < |lines| ==> Proper(lines[i]) }

  lemma {:induction false} SplitLine(r: Reader, line: string, rest: string, got: string)
    requires '\n' !in line
    ensures Split(r, line + ("\n" + rest), got) == [Chomp(r, got + line)] + Split(r, rest, "")
    decreases |line|
  {
    hide Chomp;
    var t := line + ("\n" + rest);
    if line == "" {
      assert t[0] == '\n' && t[1..] == rest && got + line == got;
    } else {
      assert t[0] == line[0] && line[0] in line;
      assert t[1..] == line[1..] + ("\n" + rest);
      SplitLine(r, line[1..], rest, got + [line[0]]);
      assert got + [line[0]] + line[1..] == got + line;
    }
  }

  /** A text without a newline is one line, whatever character it ends in. */
  lemma {:induction false} SplitUnterminated(r: Reader, text: string, got: string)
    requires '\n' !in text
    ensures Split(r, text, got) == if got + text == "" then [] else [got + text]
    decreases |text|
  {
    hide Chomp;
    if text == "" {
      assert got + text == got;
    } else {
      assert text[0] in text;
      SplitUnterminated(r, text[1..], got + [text[0]]);
      assert got + [text[0]] + text[1..] == got + text;
    }
  }

  lemma {:induction false} SplitJoined(r: Reader, lines: seq<string>)
    requires AllProper(lines)
    ensures Split(r, Joined(lines), "") == lines
    decreases |lines|
  {
    hide Chomp;
    if lines != [] {
      SplitLine(r, lines[0], Joined(lines[1..]), "");
      SplitJoined(r, lines[1..]);
      assert "" + lines[0] == lines[0];
      ChompProper(r, lines[0]);
      assert lines == [lines[0]] + lines[1..];
    }
  }

  lemma ChompProper(r: Reader, line: string)
    requires Proper(line)
    ensures Chomp(r, line) == line
  {
    if line != "" { assert line[|line| - 1] in line; }
  }

  lemma RecordProper(kind: char, row: seq<byte>)
    requires kind != '\n' && kind != '\r'
    ensures Proper(Record(kind, row))
  {
    HexBytesUpper(row + [Checksum(row)]);
  }

  lemma {:induction false} DataProper(m: Ram, start: nat, length: nat)
    requires start + length <= 0x10000
    ensures AllProper(DataRecords(m, start, length))
    decreases length
  {
    hide Record, Row, Proper;
    if length > 0 {
      var n := Chunk(length);
      RecordProper('1', Row(start, m[start..start + n]));
      DataProper(m, start + n, length - n);
    }
  }

  lemma {:induction false} SegmentsProper(m: Ram, segs: seq<Segment>)
    requires Inside(segs)
    ensures AllProper(SegmentRecords(m, segs))
    decreases |segs|
  {
    hide Proper, DataRecords;
    if segs != [] {
      DataProper(m, segs[0].start, segs[0].length);
      SegmentsProper(m, segs[1..]);
    }
  }

  // ---- The round trip ------------------------------------------------------------------------------------

  /**
   Loading the written file, with either reader and into any memory: the segments hold the
   image, every other byte is as it was, and execution starts at the entry point.
   */
  lemma SrecRoundTrip(r: Reader, m: Ram, segs: seq<Segment>, entry: word, ram: Ram, pc: word)
    requires Inside(segs)
    ensures var l := Load(r, ram, SrecText(m, segs, entry));
            && StartPc(r, l, pc) == entry
            && forall a :: 0 <= a < 0x10000 ==> l.ram[a] == if Covered(segs, a) then m[a] else ram[a]
  {
    hide Record, Row, ReadLine, Proper, SegmentRecords, Joined, Split, Chomp, Covered, HEADER, ReadLines;
    var body := SegmentRecords(m, segs);
    var last := Record('9', Row(entry, []));
    var lines := Lines(m, segs, entry);
    LinesProper(m, segs, entry);
    SplitJoined(r, lines);
    var l0 := Begin(r, ram);
    ReadHeader(r, l0);
    ReadAll(r, l0, body, last);
    var l1 := ReadLines(r, l0, body);
    ReadRecord(r, l1, '9', entry, []);
    forall a | 0 <= a < 0x10000
      ensures l1.ram[a] == if Covered(segs, a) then m[a] else ram[a]
    {
      ReadSegments(r, l0, m, segs, a);
    }
  }

  lemma LinesProper(m: Ram, segs: seq<Segment>, entry: word)
    requires Inside(segs)
    ensures AllProper(Lines(m, segs, entry))
  {
    hide Record, Row, SegmentRecords;
    SegmentsProper(m, segs);
    RecordProper('9', Row(entry, []));
  }

  lemma ReadAll(r: Reader, l: Loader, body: seq<string>, last: string)
    requires ReadLine(r, l, HEADER) == l
    ensures ReadLines(r, l, [HEADER] + body + [last]) == ReadLine(r, ReadLines(r, l, body), last)
  {
    hide ReadLine, HEADER;
    assert [HEADER] + body + [last] == [HEADER] + (body + [last]);
    ReadAppend(r, l, [HEADER], body + [last]);
    ReadAppend(r, l, body, [last]);
    ReadOne(r, l, HEADER);
    ReadOne(r, ReadLines(r, l, body), last);
  }

  lemma ReadOne(r: Reader, l: Loader, line: string)
    ensures ReadLines(r, l, [line]) == ReadLine(r, l, line)
  {
    hide ReadLine;
    assert [line][1..] == [];
  }
}
