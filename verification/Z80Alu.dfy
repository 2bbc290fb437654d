/**
 What the ALU helpers of z80/src/Z80Cpu.cpp compute: a result together with the new flag
 byte. Every function is pure; the operands and the old flags are arguments.
 */
module Z80Alu {
  import opened Bytes
  import opened Z80State

  /** A result byte and the flags that go with it. */
  datatype Res = Res(v: byte, f: byte)

  /** A 16-bit result and the flags that go with it. */
  datatype Res16 = Res16(v: word, f: byte)

  /** The number of one bits. */
  function Ones(v: nat): nat {
    if v == 0 then 0 else v % 2 + Ones(v / 2)
  }

  /** The P flag of the logical operations: an even number of one bits. */
  predicate Parity(v: byte) { Ones(v) % 2 == 0 }

  // ---- 8-bit arithmetic and logic ---------------------------------------------

  function AluAdd(a: byte, b: byte, carry: bool): Res {
    var cy := Num(carry);
    var full := a + b + cy;
    var half := a % 0x10 + b % 0x10 + cy;
    var r := B(full);
    Res(r, MkF(Neg(r), r == 0, B5(r), half > 0x0F, B3(r),
               Neg(a) != Neg(r) && Neg(b) != Neg(r), false, full > 0xFF))
  }

  function AluSub(a: byte, b: byte, borrow: bool): Res {
    var bw := Num(borrow);
    var full := a - b - bw;
    var half := a % 0x10 - b % 0x10 - bw;
    var r := B(full);
    Res(r, MkF(Neg(r), r == 0, B5(r), half < 0, B3(r),
               Neg(a) != Neg(b) && Neg(a) != Neg(r), true, full < 0))
  }

  /** Shared by AND, OR and XOR; only AND sets H. */
  function Logic(r: byte, h: bool): Res {
    Res(r, MkF(Neg(r), r == 0, B5(r), h, B3(r), Parity(r), false, false))
  }

  /** CP leaves A alone and takes Y and X from the operand. */
  function AluCp(a: byte, b: byte): Res {
    var full := a - b;
    var r := B(full);
    Res(a, MkF(Neg(r), r == 0, B5(b), a % 0x10 - b % 0x10 < 0, B3(b),
               Neg(a) != Neg(b) && Neg(a) != Neg(r), true, full < 0))
  }

  /** The operation field ooo: ADD ADC SUB SBC AND XOR OR CP. */
  function AluOp(op: int, a: byte, v: byte, f: byte): Res {
    if op == 0 then AluAdd(a, v, false)
    else if op == 1 then AluAdd(a, v, FC(f))
    else if op == 2 then AluSub(a, v, false)
    else if op == 3 then AluSub(a, v, FC(f))
    else if op == 4 then Logic(And(a, v), true)
    else if op == 5 then Logic(Xor(a, v), false)
    else if op == 6 then Logic(Or(a, v), false)
    else AluCp(a, v)
  }

  function Inc8(v: byte, f: byte): Res {
    var r := B(v + 1);
    Res(r, MkF(Neg(r), r == 0, B5(r), v % 0x10 == 0x0F, B3(r), r == 0x80, false, FC(f)))
  }

  function Dec8(v: byte, f: byte): Res {
    var r := B(v - 1);
    Res(r, MkF(Neg(r), r == 0, B5(r), v % 0x10 == 0, B3(r), r == 0x7F, true, FC(f)))
  }

  // ---- 16-bit arithmetic ----------------------------------------------------------

  /** ADD HL,rr keeps S, Z and P/V. */
  function Add16(a: word, b: word, f: byte): Res16 {
    var full := a + b;
    var r := W(full);
    Res16(r, MkF(FS(f), FZ(f), B5(Hi(r)), a % 0x1000 + b % 0x1000 > 0x0FFF, B3(Hi(r)),
                 FP(f), false, full > 0xFFFF))
  }

  function Adc16(a: word, b: word, f: byte): Res16 {
    var cy := Num(FC(f));
    var full := a + b + cy;
    var r := W(full);
    Res16(r, MkF(Neg(Hi(r)), r == 0, B5(Hi(r)), a % 0x1000 + b % 0x1000 + cy > 0x0FFF, B3(Hi(r)),
                 Neg(Hi(a)) != Neg(Hi(r)) && Neg(Hi(b)) != Neg(Hi(r)), false, full > 0xFFFF))
  }

  function Sbc16(a: word, b: word, f: byte): Res16 {
    var bw := Num(FC(f));
    var full := a - b - bw;
    var r := W(full);
    Res16(r, MkF(Neg(Hi(r)), r == 0, B5(Hi(r)), a % 0x1000 - b % 0x1000 - bw < 0, B3(Hi(r)),
                 Neg(Hi(a)) != Neg(Hi(b)) && Neg(Hi(a)) != Neg(Hi(r)), true, full < 0))
  }

  // ---- Rotates, shifts, bit tests ---------------------------------------------------

  /** The byte v shifted left, with b coming into bit 0. */
  function ShlIn(v: byte, b: bool): byte { B(2 * v) + Num(b) }

  /** The byte v shifted right, with b coming into bit 7. */
  function ShrIn(v: byte, b: bool): byte { v / 2 + 0x80 * Num(b) }

  /** The CB rotation field: RLC RRC RL RR SLA SRA SLL SRL. */
  function RotValue(idx: int, v: byte, f: byte): byte {
    if idx == 0 then ShlIn(v, Neg(v))
    else if idx == 1 then ShrIn(v, Odd(v))
    else if idx == 2 then ShlIn(v, FC(f))
    else if idx == 3 then ShrIn(v, FC(f))
    else if idx == 4 then ShlIn(v, false)
    else if idx == 5 then ShrIn(v, Neg(v))
    else if idx == 6 then ShlIn(v, true)
    else ShrIn(v, false)
  }

  /** The bit shifted out: bit 7 for the even rotations, bit 0 for the odd ones. */
  predicate RotCarry(idx: int, v: byte) { if idx % 2 == 0 then Neg(v) else Odd(v) }

  function RotFlags(r: byte, carry: bool): byte {
    MkF(Neg(r), r == 0, B5(r), false, B3(r), Parity(r), false, carry)
  }

  function Rot(idx: int, v: byte, f: byte): Res {
    var r := RotValue(idx, v, f);
    Res(r, RotFlags(r, RotCarry(idx, v)))
  }

  /** BIT b: only flags; Y and X come from a separate byte. */
  function BitFlags(b: int, v: byte, yx: byte, f: byte): byte
    requires 0 <= b < 8
  {
    var on := Bit(v, b);
    MkF(on && b == 7, !on, B5(yx), true, B3(yx), !on, false, FC(f))
  }

  function ResBit(b: int, v: byte): byte
    requires 0 <= b < 8
  {
    And(v, 0xFF - Mask(b))
  }

  function SetBit(b: int, v: byte): byte
    requires 0 <= b < 8
  {
    Or(v, Mask(b))
  }

  // ---- Accumulator operations 07 0F 17 1F 27 2F 37 3F ---------------------------------

  /** RLCA RRCA RLA RRA share the rotations 0..3 but keep S, Z and P/V. */
  function AccRot(idx: int, a: byte, f: byte): Res {
    var r := RotValue(idx, a, f);
    Res(r, MkF(FS(f), FZ(f), B5(r), false, B3(r), FP(f), false, RotCarry(idx, a)))
  }

  function DaaLow(a: byte, f: byte): bool { FH(f) || (!FN(f) && a % 0x10 > 9) }
  function DaaHigh(a: byte, f: byte): bool { FC(f) || (!FN(f) && a > 0x99) }

  function Daa(a: byte, f: byte): Res {
    var fix := (if DaaLow(a, f) then 0x06 else 0) + (if DaaHigh(a, f) then 0x60 else 0);
    var r := if FN(f) then B(a - fix) else B(a + fix);
    var h := if FN(f) then FH(f) && a % 0x10 < 6 else a % 0x10 > 9;
    Res(r, MkF(Neg(r), r == 0, B5(r), h, B3(r), Parity(r), FN(f), DaaHigh(a, f)))
  }

  function Cpl(a: byte, f: byte): Res {
    var r := 0xFF - a;
    Res(r, MkF(FS(f), FZ(f), B5(r), true, B3(r), FP(f), true, FC(f)))
  }

  function Scf(a: byte, f: byte): Res {
    Res(a, MkF(FS(f), FZ(f), B5(a), false, B3(a), FP(f), false, true))
  }

  function Ccf(a: byte, f: byte): Res {
    Res(a, MkF(FS(f), FZ(f), B5(a), FC(f), B3(a), FP(f), false, !FC(f)))
  }

  function AccOp(y: int, a: byte, f: byte): Res {
    if y < 4 then AccRot(y, a, f)
    else if y == 4 then Daa(a, f)
    else if y == 5 then Cpl(a, f)
    else if y == 6 then Scf(a, f)
    else Ccf(a, f)
  }

  /** The flags of IN r,(C), RRD and RLD: parity of the byte, C kept. */
  function InFlags(v: byte, f: byte): byte {
    MkF(Neg(v), v == 0, B5(v), false, B3(v), Parity(v), false, FC(f))
  }
}
