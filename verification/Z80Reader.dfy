/** The decoder of z80/src/Z80Disasm.cpp: a cursor that pulls bytes and a chain of opcode tests. */
module Z80Reader {
  import opened Bytes
  import opened Z80State
  import opened Z80Exec
  import opened Z80Machine
  import opened Z80Disasm
  import opened Wrappers

  /** What Decode reports, apart from the text: DB is not known, a relative jump has a target. */
  datatype Decoded = Decoded(length: nat, known: bool, target: Option<word>)

  /** The bytes the unprefixed table does not know: the prefixes, handled before it, and F9. */
  predicate Undecoded(op: byte) { op == 0xDD || op == 0xED || op == 0xFD || op == 0xCB || op == 0xF9 }

  class Reader {
    const mem: Z80Memory
    var pc: word
    var length: nat

    constructor (mem: Z80Memory, addr: word)
      ensures this.mem == mem && pc == addr && length == 0
    {
      this.mem, pc, length := mem, addr, 0;
    }

    method Fetch() returns (b: byte)
      requires mem.Valid()
      modifies this
      ensures b == mem.Contents()[old(pc)] && pc == W(old(pc) + 1) && length == old(length) + 1
    {
      b := mem.ReadByte(pc);
      pc := W(pc + 1);
      length := length + 1;
    }

    method FetchWord()
      requires mem.Valid()
      modifies this
      ensures length == old(length) + 2
    {
      var lo := Fetch();
      var hi := Fetch();
    }

    /** The relative target printed: the cursor after the displacement byte, plus it. */
    method RelativeOperand() returns (target: word)
      requires mem.Valid()
      modifies this
      ensures target == W(old(pc) + 1 + Signed(mem.Contents()[old(pc)])) && length == old(length) + 1
    {
      var e := Fetch();
      target := W(pc + Signed(e));
    }

    method DecodeEd()
      requires mem.Valid()
      modifies this
      ensures length == old(length) + 1 + EdOperands(mem.Contents()[old(pc)])
    {
      var sub := Fetch();
      if (sub / 0x40 == 1 && sub % 0x10 == 3) || (sub / 0x40 == 1 && sub % 0x10 == 0xB) {
        FetchWord();
      }
    }

    method DecodeDdFd() returns (known: bool)
      requires mem.Valid()
      modifies this
      ensures length == old(length) + 1 + IndexOperands(mem.Contents()[old(pc)])
      ensures known <==> !Unprefixable(mem.Contents()[old(pc)])
    {
      var op := Fetch();
      known := true;
      if op == 0x21 || op == 0x22 || op == 0x2A {
        FetchWord();
      } else if op == 0x23 || op == 0x2B || (op < 0x40 && op % 0x10 == 9) {
      } else if op == 0xE5 || op == 0xE1 || op == 0xE9 || op == 0xF9 {
      } else if op == 0x36 {
        var d := Fetch();
        var n := Fetch();
      } else if op / 0x40 == 1 && op % 8 == 6 && op != 0x76 {
        var d := Fetch();
      } else if op / 8 == 0x0E && op != 0x76 {
        var d := Fetch();
      } else if op == 0x34 || op == 0x35 {
        var d := Fetch();
      } else if op / 0x40 == 2 && op % 8 == 6 {
        var d := Fetch();
      } else if op == 0x24 || op == 0x2C || op == 0x25 || op == 0x2D {
      } else if op == 0x26 || op == 0x2E {
        var n := Fetch();
      } else if op == 0xCB {
        var d := Fetch();
        var cb := Fetch();
      } else {
        known := HalfForm(op);
      }
    }

    /** LD and ALU forms that name IXH or IXL. */
    predicate HalfForm(op: byte) {
      var dst, src := op / 8 % 8, op % 8;
      (op / 0x40 == 1 && op != 0x76 && dst != 6 && src != 6 && (dst == 4 || dst == 5 || src == 4 || src == 5))
      || (op / 0x40 == 2 && (src == 4 || src == 5))
    }

    method DecodePlain() returns (known: bool, target: Option<word>)
      requires mem.Valid()
      modifies this
      ensures var op := mem.Contents()[old(pc)];
              && length == old(length) + 1 + PlainOperands(op)
              && (known <==> !Undecoded(op))
              && target == if IsRelative(op) then Some(Target(mem.Contents(), old(pc))) else None
    {
      var op := Fetch();
      known, target := true, None;
      if op < 0x40 {
        target := DecodeLow(op);
      } else if op >= 0xC0 {
        known := DecodeHigh(op);
      }
    }

    method DecodeLow(op: byte) returns (target: Option<word>)
      requires mem.Valid() && op < 0x40
      modifies this
      ensures length == old(length) + PlainOperands(op)
      ensures target == if IsRelative(op) then Some(W(old(pc) + 1 + Signed(mem.Contents()[old(pc)]))) else None
    {
      target := None;
      if op == 0x00 || op == 0x08 || op % 8 == 7 {
      } else if op % 0x10 == 1 {
        FetchWord();
      } else if op % 0x10 == 9 || op % 8 == 3 || op % 8 == 4 || op % 8 == 5 {
      } else if op == 0x02 || op == 0x12 || op == 0x0A || op == 0x1A {
      } else if op == 0x22 || op == 0x2A || op == 0x32 || op == 0x3A {
        FetchWord();
      } else if op % 8 == 6 {
        var n := Fetch();
      } else {
        var t := RelativeOperand();
        target := Some(t);
      }
    }

    method DecodeHigh(op: byte) returns (known: bool)
      requires mem.Valid() && op >= 0xC0
      modifies this
      ensures length == old(length) + PlainOperands(op)
      ensures known <==> !Undecoded(op)
    {
      known := true;
      if op == 0xF3 || op == 0xFB || op == 0xD9 || op == 0xE3 || op == 0xEB {
      } else if op % 8 == 6 {
        var n := Fetch();
      } else if op == 0xC3 || op % 8 == 2 || op == 0xCD || op % 8 == 4 {
        FetchWord();
      } else if op == 0xE9 || op == 0xC9 || op % 8 == 0 || op % 8 == 7 || op % 0x10 == 5 || op % 0x10 == 1 {
      } else if op == 0xDB || op == 0xD3 {
        var p := Fetch();
      } else {
        known := false;
      }
    }
  }

  /**
   Decode agrees with the tables; it prints DB exactly for the prefixes that ExecuteOne
   ignores and for F9, which ExecuteOne runs as LD SP,HL; and a relative target exactly for
   the relative jumps.
   */
  method Decode(mem: Z80Memory, addr: word) returns (d: Decoded)
    requires mem.Valid()
    ensures var m := mem.Contents();
            && d.length == Length(m, addr)
            && (d.known <==> !PrefixIgnored(m, addr) && m[addr] != 0xF9)
            && d.target == if IsRelative(m[addr]) then Some(Target(m, addr)) else None
  {
    var r := new Reader(mem, addr);
    var first := mem.ReadByte(addr);
    var known, target := true, None;
    if first == 0xCB {
      var prefix := r.Fetch();
      var cb := r.Fetch();
    } else if first == 0xDD || first == 0xFD {
      var prefix := r.Fetch();
      known := r.DecodeDdFd();
    } else if first == 0xED {
      var prefix := r.Fetch();
      r.DecodeEd();
    } else {
      known, target := r.DecodePlain();
    }
    d := Decoded(r.length, known, target);
  }
}
