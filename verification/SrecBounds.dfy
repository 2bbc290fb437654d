/**
 How far the EM8 loader reads. It walks a line by the record's own length byte, so a record
 whose length byte promises more than the line holds is read past the end of its C string.
 */
module SrecBounds {
  import opened Bytes
  import opened Srec
  import opened SrecRoundTrip
  import opened Wrappers

  /** The memory a C string lies in: the line, its terminator, and whatever comes after. */
  function CharIn(line: string, beyond: int -> char, i: nat): char {
    if i < |line| then line[i] else if i == |line| then '\0' else beyond(i)
  }

  function ByteIn(line: string, beyond: int -> char, i: nat): byte {
    HexOrZero(CharIn(line, beyond, i), CharIn(line, beyond, i + 1))
  }

  function CountedIn(line: string, beyond: int -> char, i: nat, n: int): seq<byte>
    decreases n
  {
    if n <= 0 then [] else [ByteIn(line, beyond, i)] + CountedIn(line, beyond, i + 2, n - 1)
  }

  /** The loader on one line, in its surroundings. */
  function ReadLineIn(l: Loader, line: string, beyond: int -> char): Loader {
    if |line| < 4 || line[0] != 'S' then l
    else
      var addr := Pair(ByteIn(line, beyond, 4), ByteIn(line, beyond, 6));
      if line[1] == '1' then PutAll(Em8, l, addr, CountedIn(line, beyond, 8, ByteIn(line, beyond, 2) - 3))
      else if line[1] == '9' then l.(entry := Some(addr))
      else l
  }

  /** The number of characters the loader looks at: for data, as many as the length byte says. */
  function Reach(line: string): nat {
    if |line| < 4 || line[0] != 'S' || (line[1] != '1' && line[1] != '9') then 0
    else
      var n := ByteAt(line, 2) - 3;
      if line[1] == '1' && n > 0 then 8 + 2 * n else 8
  }

  /** The loader looks at nothing behind the terminator. */
  predicate StaysInside(line: string) { Reach(line) <= |line| + 1 }

  lemma ByteInside(line: string, beyond: int -> char, i: nat)
    requires i + 2 <= |line| + 1
    ensures ByteIn(line, beyond, i) == ByteAt(line, i)
  {
  }

  lemma {:induction false} CountedInside(line: string, beyond: int -> char, i: nat, n: int)
    requires n > 0 ==> i + 2 * n <= |line| + 1
    ensures CountedIn(line, beyond, i, n) == CountedBytes(line, i, n)
    decreases n
  {
    hide ByteIn, ByteAt;
    if n > 0 {
      ByteInside(line, beyond, i);
      CountedInside(line, beyond, i + 2, n - 1);
    }
  }

  /** A data record whose length byte leaves no room for data: whatever the address, nothing is loaded. */
  predicate TakesNothing(line: string) {
    |line| >= 4 && line[0] == 'S' && line[1] == '1' && ByteAt(line, 2) <= 3
  }

  /** What the loader does with the line does not depend on what lies behind it. */
  ghost predicate Decides(l: Loader, line: string) {
    forall beyond: int -> char :: ReadLineIn(l, line, beyond) == ReadLineEm8(l, line)
  }

  lemma NoneCounted(l: Loader, line: string, beyond: int -> char)
    requires TakesNothing(line)
    ensures ReadLineIn(l, line, beyond) == l == ReadLineEm8(l, line)
  {
    hide ByteIn, ByteAt, Pair;
    ByteInside(line, beyond, 2);
  }

  // ---- Two surroundings -------------------------------------------------------------------

  /** The last character the loader takes a digit from. */
  function LastRead(line: string): int { Reach(line) - 1 }

  function FiveAt(k: int): int -> char { i => if i == k then '5' else '0' }

  /** Behind the line, a digit 0 reads as a NUL does. */
  lemma NulAndZero()
    ensures Nibble('\0') == None && Nibble('0') == Some(0) && Nibble('5') == Some(5)
  {
  }

  /** Up to the character k the two surroundings agree; in it they differ. */
  lemma FiveByte(line: string, i: nat, k: int)
    requires k > |line|
    ensures i + 1 < k ==> ByteIn(line, FiveAt(k), i) == ByteAt(line, i)
    ensures i + 1 == k ==> ByteIn(line, FiveAt(k), i) == ByteAt(line, i) + 5
  {
    hide Nibble;
    NulAndZero();
  }

  lemma {:induction false} CountedDiffers(line: string, i: nat, n: nat)
    requires n > 0 && i + 2 * n - 1 > |line|
    ensures var bs := CountedIn(line, FiveAt(i + 2 * n - 1), i, n);
            var cs := CountedBytes(line, i, n);
            |bs| == n == |cs| && bs[n - 1] != cs[n - 1]
    decreases n
  {
    hide ByteIn, ByteAt;
    FiveByte(line, i, i + 2 * n - 1);
    if n > 1 { CountedDiffers(line, i + 2, n - 1); }
  }

  /** The byte stored last stays. */
  lemma {:induction false} LastStays(r: Reader, l: Loader, a: word, data: seq<byte>)
    requires data != []
    ensures PutAll(r, l, a, data).ram[W(a + |data| - 1)] == data[|data| - 1]
    decreases |data|
  {
    hide W;
    if |data| == 1 {
      assert data[1..] == [];
      WordItself(a);
    } else {
      AddWraps(a + 1, |data| - 2);
      LastStays(r, Put(r, l, a, data[0]), W(a + 1), data[1..]);
    }
  }

  lemma WordItself(a: word)
    ensures W(a) == a
  {
  }

  lemma PairDiffers(hi: byte, lo: byte, lo': byte)
    requires lo != lo'
    ensures Pair(hi, lo) != Pair(hi, lo')
  {
  }

  /**
   What the loader does with a line depends on that line alone if and only if it stays
   inside it or is a data record whose length byte leaves no room for data.
   */
  lemma DecidesExactly(l: Loader, line: string)
    ensures Decides(l, line) <==> StaysInside(line) || TakesNothing(line)
  {
    hide ByteIn, ByteAt, CountedIn, CountedBytes, PutAll, Pair, FiveAt, W;
    if TakesNothing(line) {
      forall beyond: int -> char
        ensures ReadLineIn(l, line, beyond) == ReadLineEm8(l, line)
      {
        NoneCounted(l, line, beyond);
      }
    } else if StaysInside(line) {
      forall beyond: int -> char
        ensures ReadLineIn(l, line, beyond) == ReadLineEm8(l, line)
      {
        if Reach(line) > 0 {
          ByteInside(line, beyond, 2);
          ByteInside(line, beyond, 4);
          ByteInside(line, beyond, 6);
          if line[1] == '1' { CountedInside(line, beyond, 8, ByteAt(line, 2) - 3); }
        }
      }
    } else {
      var b := FiveAt(LastRead(line));
      FiveByte(line, 4, LastRead(line));
      FiveByte(line, 6, LastRead(line));
      if line[1] == '1' {
        ByteInside(line, b, 2);
        var n := ByteAt(line, 2) - 3;
        var addr := Pair(ByteAt(line, 4), ByteAt(line, 6));
        CountedDiffers(line, 8, n);
        LastStays(Em8, l, addr, CountedIn(line, b, 8, n));
        LastStays(Em8, l, addr, CountedBytes(line, 8, n));
      } else {
        PairDiffers(ByteAt(line, 4), ByteAt(line, 6), ByteIn(line, b, 6));
      }
      assert ReadLineIn(l, line, b) != ReadLineEm8(l, line);
    }
  }

  /** A record of 4 bytes cut off after its address: what is loaded at 0000 lies behind the line. */
  lemma ShortRecord(l: Loader)
    ensures var line := "S1040000";
            && !StaysInside(line)
            && ReadLineIn(l, line, i => '0').ram[0] == 0x00
            && ReadLineIn(l, line, i => '5').ram[0] == 0x05
  {
    var line := "S1040000";
    var b0, b5: int -> char := i => '0', i => '5';
    assert ByteAt(line, 2) == 4 && ByteIn(line, b0, 2) == 4 && ByteIn(line, b5, 2) == 4;
    assert ByteIn(line, b0, 8) == 0 && ByteIn(line, b5, 8) == 5;
    assert CountedIn(line, b0, 8, 1) == [0] && CountedIn(line, b5, 8, 1) == [5];
    PutAllRam(Em8, l, 0, [0], 0);
    PutAllRam(Em8, l, 0, [5], 0);
  }

  // ---- Written files --------------------------------------------------------------------

  lemma RecordInside(kind: char, addr: word, data: seq<byte>)
    requires |data| <= 24
    ensures StaysInside(Record(kind, Row(addr, data)))
  {
    hide Record, Row, HexByte, HexBytes, ByteAt, HexOrZero, Hi, Lo;
    Fields(kind, addr, data);
    var line := Record(kind, Row(addr, data));
    HexByteReads(|data| + 3);
    TwoOf(HexByte(|data| + 3), line[2..], 0);
    assert line[2] == line[2..][0] && line[3] == line[2..][1];
    ByteAtIs(line, 2, |data| + 3);
  }

  predicate AllInside(lines: seq<string>) { forall i :: 0 <= i < |lines| ==> StaysInside(lines[i]) }

  lemma {:induction false} DataInside(m: Ram, start: nat, length: nat)
    requires start + length <= 0x10000
    ensures AllInside(DataRecords(m, start, length))
    decreases length
  {
    hide Record, Row, StaysInside;
    if length > 0 {
      var n := Chunk(length);
      RecordInside('1', start, m[start..start + n]);
      DataInside(m, start + n, length - n);
    }
  }

  lemma {:induction false} SegmentsInside(m: Ram, segs: seq<Segment>)
    requires Inside(segs)
    ensures AllInside(SegmentRecords(m, segs))
    decreases |segs|
  {
    hide StaysInside, DataRecords;
    if segs != [] {
      DataInside(m, segs[0].start, segs[0].length);
      SegmentsInside(m, segs[1..]);
    }
  }

  /** The loader stays inside every line of a written file. */
  lemma WrittenInside(m: Ram, segs: seq<Segment>, entry: word)
    requires Inside(segs)
    ensures AllInside(Split(Em8, SrecText(m, segs, entry), ""))
  {
    hide Record, Row, SegmentRecords, Joined, Split, Chomp, Proper, StaysInside, HEADER;
    SegmentsInside(m, segs);
    RecordInside('9', entry, []);
    HeaderInside();
    var lines := Lines(m, segs, entry);
    LinesProper(m, segs, entry);
    SplitJoined(Em8, lines);
  }

  lemma HeaderInside()
    ensures StaysInside(HEADER)
  {
    assert HEADER[1] == '0';
  }
}
