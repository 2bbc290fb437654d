/** The two S-record loaders, poking into the memory array record by record. */
module SrecLoad {
  import opened Bytes
  import opened Srec
  import opened Wrappers

  /** emfe_load_srec of the MC6809 plugin: the new PC, and the loaded address range. */
  method LoadMc6809(ram: array<byte>, content: string, pc: word) returns (newPc: word, minAddr: int, maxAddr: int)
    requires ram.Length == 0x10000
    modifies ram
    ensures var l := Load(Mc6809, old(ram[..]), content);
            ram[..] == l.ram && minAddr == l.min && maxAddr == l.max && newPc == StartPc(Mc6809, l, pc)
  {
    hide ReadLine6809;
    minAddr, maxAddr := 0x10000, 0;
    var entry := None;
    var lines := Split(Mc6809, content, "");
    assert lines[0..] == lines;
    for i := 0 to |lines|
      invariant ReadLines(Mc6809, Loader(ram[..], minAddr, maxAddr, entry), lines[i..])
                == Load(Mc6809, old(ram[..]), content)
    {
      assert lines[i..][0] == lines[i] && lines[i..][1..] == lines[i + 1..];
      minAddr, maxAddr, entry := LineMc6809(ram, lines[i], minAddr, maxAddr, entry);
    }
    newPc := if entry.Some? then entry.value else if 0 <= minAddr < 0x10000 then minAddr else pc;
  }

  method LineMc6809(ram: array<byte>, line: string, min: int, max: int, entry: Option<word>)
    returns (min': int, max': int, entry': Option<word>)
    requires ram.Length == 0x10000
    modifies ram
    ensures Loader(ram[..], min', max', entry') == ReadLine6809(Loader(old(ram[..]), min, max, entry), line)
  {
    hide Hex2, Pair;
    min', max', entry' := min, max, entry;
    if |line| < 4 || line[0] != 'S' { return; }
    var bytes := line[2..];
    if Hex2(bytes[0], bytes[1]).None? { return; }
    if line[1] == '1' && |bytes| >= 8 {
      var a := Pair(Or0(Hex2(bytes[2], bytes[3])), Or0(Hex2(bytes[4], bytes[5])));
      min', max' := PairsMc6809(ram, bytes[6..|bytes| - 2], a, min, max, entry);
    } else if line[1] == '9' && |bytes| >= 6 {
      entry' := Some(Pair(Or0(Hex2(bytes[2], bytes[3])), Or0(Hex2(bytes[4], bytes[5]))));
    }
  }

  method PairsMc6809(ram: array<byte>, hex: string, addr: word, min: int, max: int, ghost entry: Option<word>)
    returns (min': int, max': int)
    requires ram.Length == 0x10000
    modifies ram
    ensures Loader(ram[..], min', max', entry) == PutPairs(Loader(old(ram[..]), min, max, entry), addr, hex)
  {
    hide Hex2;
    min', max' := min, max;
    var a: word := addr;
    var p := hex;
    while |p| >= 2
      invariant PutPairs(Loader(ram[..], min', max', entry), a, p)
                == PutPairs(Loader(old(ram[..]), min, max, entry), addr, hex)
      decreases |p|
    {
      var h := Hex2(p[0], p[1]);
      if h.Some? {
        ghost var was := ram[..];
        ram[a] := h.value;
        assert ram[..] == was[a := h.value];
        if a < min' { min' := a; }
        if a + 1 > max' { max' := a + 1; }
        a := W(a + 1);
      }
      p := p[2..];
    }
  }

  /** emfe_load_srec of the EM8 plugin. */
  method LoadEm8(ram: array<byte>, content: string, pc: word) returns (newPc: word, minAddr: int, maxAddr: int)
    requires ram.Length == 0x10000
    modifies ram
    ensures var l := Load(Em8, old(ram[..]), content);
            ram[..] == l.ram && minAddr == l.min && maxAddr == l.max && newPc == StartPc(Em8, l, pc)
  {
    hide ReadLineEm8;
    minAddr, maxAddr := 0xFFFF, 0;
    var entry := None;
    var lines := Split(Em8, content, "");
    assert lines[0..] == lines;
    for i := 0 to |lines|
      invariant ReadLines(Em8, Loader(ram[..], minAddr, maxAddr, entry), lines[i..])
                == Load(Em8, old(ram[..]), content)
    {
      assert lines[i..][0] == lines[i] && lines[i..][1..] == lines[i + 1..];
      minAddr, maxAddr, entry := LineEm8(ram, lines[i], minAddr, maxAddr, entry);
    }
    newPc := if entry.Some? then entry.value
             else if 0 <= minAddr <= maxAddr && minAddr < 0x10000 then minAddr else pc;
  }

  method LineEm8(ram: array<byte>, line: string, min: int, max: int, entry: Option<word>)
    returns (min': int, max': int, entry': Option<word>)
    requires ram.Length == 0x10000
    modifies ram
    ensures Loader(ram[..], min', max', entry') == ReadLineEm8(Loader(old(ram[..]), min, max, entry), line)
  {
    hide ByteAt, Pair;
    min', max', entry' := min, max, entry;
    if |line| < 4 || line[0] != 'S' { return; }
    var recType := line[1];
    var addr := Pair(ByteAt(line, 4), ByteAt(line, 6));
    if recType == '1' {
      var dataCount := ByteAt(line, 2) - 3;
      min', max' := CountedEm8(ram, line, dataCount, addr, min, max, entry);
    } else if recType == '9' {
      entry' := Some(addr);
    }
  }

  method CountedEm8(ram: array<byte>, line: string, dataCount: int, addr: word, min: int, max: int,
                    ghost entry: Option<word>)
    returns (min': int, max': int)
    requires ram.Length == 0x10000
    modifies ram
    ensures Loader(ram[..], min', max', entry)
            == PutAll(Em8, Loader(old(ram[..]), min, max, entry), addr, CountedBytes(line, 8, dataCount))
  {
    hide ByteAt;
    min', max' := min, max;
    var a: word, p, i := addr, 8, 0;
    while i < dataCount
      invariant 0 <= i && (i <= dataCount || i == 0)
      invariant PutAll(Em8, Loader(ram[..], min', max', entry), a, CountedBytes(line, p, dataCount - i))
                == PutAll(Em8, Loader(old(ram[..]), min, max, entry), addr, CountedBytes(line, 8, dataCount))
    {
      ghost var rest := CountedBytes(line, p, dataCount - i);
      assert rest[0] == ByteAt(line, p) && rest[1..] == CountedBytes(line, p + 2, dataCount - i - 1);
      var dataByte := ByteAt(line, p);
      p := p + 2;
      ghost var was := ram[..];
      ram[a] := dataByte;
      assert ram[..] == was[a := dataByte];
      if a < min' { min' := a; }
      if a >= max' { max' := W(a + 1); }
      a := W(a + 1);
      i := i + 1;
    }
  }
}
