/** The address range the S-record readers report, and where a file without an entry starts. */
module SrecRange {
  import opened Bytes
  import opened Srec
  import opened SrecRoundTrip
  import opened Wrappers

  function Lesser(a: int, b: int): int { if a < b then a else b }

  /** The end address e after a block up to end: the EM8 reader keeps it in 16 bits. */
  function Raised(r: Reader, e: int, end: int): int {
    if r.Em8? && end == 0x10000 then 0 else if end > e then end else e
  }

  /** l has become t, whose range also covers the addresses from a to end - 1. */
  predicate Covers(r: Reader, l: Loader, t: Loader, a: int, end: int) {
    t.entry == l.entry && t.min == Lesser(l.min, a) && t.max == Raised(r, l.max, end)
  }

  lemma CoversMore(r: Reader, l: Loader, u: Loader, t: Loader, a: int, mid: int, end: int)
    requires a < mid < end && Covers(r, l, u, a, mid) && Covers(r, u, t, mid, end) && mid < 0x10000
    ensures Covers(r, l, t, a, end)
  {
  }

  predicate Fits(r: Reader, l: Loader) { r.Em8? ==> 0 <= l.max <= 0xFFFF }

  lemma {:induction false} PutAllRange(r: Reader, l: Loader, a: word, data: seq<byte>)
    requires data != [] && a + |data| <= 0x10000 && Fits(r, l)
    ensures Covers(r, l, PutAll(r, l, a, data), a, a + |data|)
    decreases |data|
  {
    if |data| > 1 {
      PutAllRange(r, Put(r, l, a, data[0]), a + 1, data[1..]);
    } else {
      assert data[1..] == [];
    }
  }

  lemma StillFits(r: Reader, l: Loader, u: Loader, a: int, end: int)
    requires Covers(r, l, u, a, end) && Fits(r, l) && end <= 0x10000
    ensures Fits(r, u)
  {
  }

  lemma {:induction false} DataRange(r: Reader, l: Loader, m: Ram, start: nat, length: nat)
    requires 0 < length && start + length <= 0x10000 && Fits(r, l)
    ensures Covers(r, l, ReadLines(r, l, DataRecords(m, start, length)), start, start + length)
    decreases length
  {
    hide Record, Row, ReadLine, PutAll, Covers;
    var n := Chunk(length);
    var row := m[start..start + n];
    var lines := DataRecords(m, start, length);
    ReadRecord(r, l, '1', start, row);
    PutAllRange(r, l, start, row);
    assert lines[0] == Record('1', Row(start, row)) && lines[1..] == DataRecords(m, start + n, length - n);
    if n < length {
      var u := PutAll(r, l, start, row);
      StillFits(r, l, u, start, start + n);
      DataRange(r, u, m, start + n, length - n);
      CoversMore(r, l, u, ReadLines(r, l, lines), start, start + n, start + length);
    }
  }

  /** The lowest start of a segment that is not empty, if below low. */
  function Lowest(segs: seq<Segment>, low: int): int {
    if segs == [] then low
    else Lowest(segs[1..], if segs[0].length == 0 then low else Lesser(low, segs[0].start))
  }

  /** The end address behind all segments. */
  function Ending(r: Reader, segs: seq<Segment>, e: int): int {
    if segs == [] then e
    else Ending(r, segs[1..], if segs[0].length == 0 then e else Raised(r, e, segs[0].start + segs[0].length))
  }

  lemma {:induction false} SegmentsRange(r: Reader, l: Loader, m: Ram, segs: seq<Segment>)
    requires Inside(segs) && Fits(r, l)
    ensures var t := ReadLines(r, l, SegmentRecords(m, segs));
            t.entry == l.entry && t.min == Lowest(segs, l.min) && t.max == Ending(r, segs, l.max)
    decreases |segs|
  {
    hide DataRecords, ReadLines;
    if segs == [] {
      NoLines(r, l);
    } else {
      var first := DataRecords(m, segs[0].start, segs[0].length);
      var u := ReadLines(r, l, first);
      ReadAppend(r, l, first, SegmentRecords(m, segs[1..]));
      if segs[0].length == 0 { NoRecords(r, l, m, segs[0].start); }
      else { DataRange(r, l, m, segs[0].start, segs[0].length); }
      SegmentsRange(r, u, m, segs[1..]);
    }
  }

  lemma NoLines(r: Reader, l: Loader)
    ensures ReadLines(r, l, []) == l
  {
  }

  lemma NoRecords(r: Reader, l: Loader, m: Ram, start: nat)
    requires start <= 0x10000
    ensures ReadLines(r, l, DataRecords(m, start, 0)) == l
  {
  }

  predicate Used(segs: seq<Segment>, i: int) { 0 <= i < |segs| && segs[i].length > 0 }

  /** v is the lowest start of a segment that is not empty. */
  ghost predicate StartsAt(segs: seq<Segment>, v: int) {
    (exists i :: Used(segs, i) && segs[i].start == v) && forall i :: Used(segs, i) ==> v <= segs[i].start
  }

  /** v is the address behind the highest one of a segment. */
  ghost predicate EndsAt(segs: seq<Segment>, v: int) {
    && (exists i :: Used(segs, i) && segs[i].start + segs[i].length == v)
    && forall i :: Used(segs, i) ==> segs[i].start + segs[i].length <= v
  }

  lemma UsedTail(segs: seq<Segment>)
    requires segs != []
    ensures forall i :: Used(segs, i) && i > 0 ==> Used(segs[1..], i - 1) && segs[1..][i - 1] == segs[i]
    ensures forall i :: Used(segs[1..], i) ==> Used(segs, i + 1) && segs[1..][i] == segs[i + 1]
  {
  }

  lemma {:induction false} LowestIs(segs: seq<Segment>, low: int)
    ensures var v := Lowest(segs, low);
            && v <= low && (forall i :: Used(segs, i) ==> v <= segs[i].start)
            && (v == low || exists i :: Used(segs, i) && segs[i].start == v)
  {
    if segs != [] {
      var next := if segs[0].length == 0 then low else Lesser(low, segs[0].start);
      LowestIs(segs[1..], next);
      UsedTail(segs);
      var v := Lowest(segs, low);
      forall i | Used(segs, i)
        ensures v <= segs[i].start
      {
        if i > 0 { assert Used(segs[1..], i - 1); }
      }
      if v != next {
        var i :| Used(segs[1..], i) && segs[1..][i].start == v;
        assert Used(segs, i + 1);
      } else if v != low {
        assert Used(segs, 0);
      }
    }
  }

  lemma {:induction false} EndingIs(segs: seq<Segment>, e: int)
    ensures var v := Ending(Mc6809, segs, e);
            && e <= v && (forall i :: Used(segs, i) ==> segs[i].start + segs[i].length <= v)
            && (v == e || exists i :: Used(segs, i) && segs[i].start + segs[i].length == v)
  {
    if segs != [] {
      var next := if segs[0].length == 0 then e else Raised(Mc6809, e, segs[0].start + segs[0].length);
      EndingIs(segs[1..], next);
      UsedTail(segs);
      var v := Ending(Mc6809, segs, e);
      forall i | Used(segs, i)
        ensures segs[i].start + segs[i].length <= v
      {
        if i > 0 { assert Used(segs[1..], i - 1); }
      }
      if v != next {
        var i :| Used(segs[1..], i) && segs[1..][i].start + segs[1..][i].length == v;
        assert Used(segs, i + 1);
      } else if v != e {
        assert Used(segs, 0);
      }
    }
  }

  /** k is the last segment that is not empty. */
  ghost predicate IsLast(segs: seq<Segment>, k: nat) { Used(segs, k) && forall i :: Used(segs, i) ==> i <= k }

  lemma {:induction false} NoneUsed(r: Reader, segs: seq<Segment>, e: int)
    requires forall i :: !Used(segs, i)
    ensures Ending(r, segs, e) == e
  {
    if segs != [] {
      UsedTail(segs);
      assert !Used(segs, 0);
      NoneUsed(r, segs[1..], e);
    }
  }

  lemma {:induction false} EndingLast(segs: seq<Segment>, k: nat, e: int)
    requires IsLast(segs, k)
    ensures var v, end := Ending(Em8, segs, e), segs[k].start + segs[k].length;
            if end == 0x10000 then v == 0 else v >= end
  {
    UsedTail(segs);
    if k == 0 {
      forall i ensures !Used(segs[1..], i) { assert Used(segs[1..], i) ==> Used(segs, i + 1); }
      NoneUsed(Em8, segs[1..], Raised(Em8, e, segs[0].start + segs[0].length));
    } else {
      forall i | Used(segs[1..], i) ensures i <= k - 1 { assert Used(segs, i + 1); }
      EndingLast(segs[1..], k - 1, if segs[0].length == 0 then e else Raised(Em8, e, segs[0].start + segs[0].length));
    }
  }

  /**
   A file of data records alone: both readers report the lowest address as the start of the
   program. The MC6809 reader reports the end of the highest and always starts there; the EM8
   reader leaves PC as it was if, and only if, the last record written ends at FFFF, where its
   end address wraps to 0, and nothing is loaded at 0.
   */
  lemma DataOnly(r: Reader, ram: Ram, m: Ram, segs: seq<Segment>, k: nat, pc: word)
    requires Inside(segs) && IsLast(segs, k)
    ensures var t := ReadLines(r, Begin(r, ram), SegmentRecords(m, segs));
            && t.entry == None && StartsAt(segs, t.min)
            && (r.Mc6809? ==> EndsAt(segs, t.max) && StartPc(r, t, pc) == t.min)
            && (r.Em8? ==> StartPc(r, t, pc) == if segs[k].start + segs[k].length == 0x10000 && t.min > 0 then pc
                                                else t.min)
  {
    hide ReadLines, SegmentRecords, Lowest, Ending;
    var l := Begin(r, ram);
    SegmentsRange(r, l, m, segs);
    LowestIs(segs, l.min);
    EndingIs(segs, l.max);
    EndingLast(segs, k, l.max);
    assert segs[k].start + segs[k].length <= 0x10000;
  }
}
