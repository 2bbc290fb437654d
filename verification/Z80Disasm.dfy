/**
 The disassembler z80/src/Z80Disasm.cpp: how many bytes it consumes, where it says a jump
 goes, and when it gives up and prints DB. These are tables by opcode fields; class
 Z80Reader.Reader is the byte-pulling decoder itself, proved to agree with them. Mnemonic and operand
 text is not modelled.
 */
module Z80Disasm {
  import opened Bytes
  import opened Z80State
  import opened Z80Exec

  // ---- Lengths by table -------------------------------------------------------------

  /** Bytes after an unprefixed opcode other than CB. */
  function PlainOperands(op: byte): nat {
    var y, z := Fy(op), Fz(op);
    if Fx(op) == 0 then
      if z == 0 then (if y >= 2 then 1 else 0)
      else if z == 1 then (if y % 2 == 0 then 2 else 0)
      else if z == 2 then (if y >= 4 then 2 else 0)
      else if z == 6 then 1 else 0
    else if Fx(op) == 3 then
      if z == 2 || z == 4 then 2
      else if z == 3 then (if y == 0 then 2 else if y == 2 || y == 3 then 1 else 0)
      else if z == 5 then (if y == 1 then 2 else 0)
      else if z == 6 then 1 else 0
    else 0
  }

  /** Bytes after a DD or FD suffix. */
  function IndexOperands(op: byte): nat {
    var y, z := Fy(op), Fz(op);
    if Fx(op) == 0 then
      if z == 1 then (if y == 4 then 2 else 0)
      else if z == 2 then (if y == 4 || y == 5 then 2 else 0)
      else if z == 4 || z == 5 then (if y == 6 then 1 else 0)
      else if z == 6 then (if y == 6 then 2 else if y == 4 || y == 5 then 1 else 0)
      else 0
    else if Fx(op) == 1 then (if (y == 6) != (z == 6) then 1 else 0)
    else if Fx(op) == 2 then (if z == 6 then 1 else 0)
    else if op == 0xCB then 2 else 0
  }

  /** Bytes after an ED suffix. */
  function EdOperands(op: byte): nat { if Fx(op) == 1 && Fz(op) == 3 then 2 else 0 }

  /** The suffixes after which a DD or FD prefix has no effect. */
  predicate Unprefixable(op: byte) {
    var y, z := Fy(op), Fz(op);
    if Fx(op) == 0 then
      z == 0 || z == 7
      || (z == 1 && y % 2 == 0 && y != 4) || ((z == 2 || z == 3) && y != 4 && y != 5)
      || (z >= 4 && y != 4 && y != 5 && y != 6)
    else if Fx(op) == 1 then
      (y == 6 && z == 6) || (y != 4 && y != 5 && y != 6 && z != 4 && z != 5 && z != 6)
    else if Fx(op) == 2 then z != 4 && z != 5 && z != 6
    else op != 0xCB && op != 0xE5 && op != 0xE1 && op != 0xE9 && op != 0xF9
  }

  /** The length Decode reports for the instruction at a. */
  function Length(m: Ram, a: word): nat {
    var op, sub := m[a], m[W(a + 1)];
    if op == 0xDD || op == 0xFD then 2 + IndexOperands(sub)
    else if op == 0xED then 2 + EdOperands(sub)
    else if op == 0xCB then 2
    else 1 + PlainOperands(op)
  }

  /** A prefix without effect: Decode reports both bytes as DB, ExecuteOne goes back over the second. */
  predicate PrefixIgnored(m: Ram, a: word) {
    (m[a] == 0xDD || m[a] == 0xFD) && Unprefixable(m[W(a + 1)])
  }

  /** JR, DJNZ and the conditional JRs. */
  predicate IsRelative(op: byte) { Fx(op) == 0 && Fz(op) == 0 && Fy(op) >= 2 }

  /** The relative target Decode prints: the end of the instruction plus the displacement. */
  function Target(m: Ram, a: word): word { W(a + 2 + Signed(m[W(a + 1)])) }
}
