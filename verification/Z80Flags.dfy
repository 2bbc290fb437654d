/**
 Results and flag bytes of the Z80's operations in plain arithmetic (Zilog, "Z80 CPU User
 Manual", with the undocumented copies Y and X of bits 5 and 3), and that the engine's
 helpers compute them.
 */
module Z80Flags {
  import opened Bitwise
  import opened Bytes
  import opened Z80State
  import opened Z80Alu
  import Z80AluLaws

  // ---- The flag byte ------------------------------------------------------------------------

  function Weigh(b: bool, w: byte): int { if b then w else 0 }

  /** S, Z, Y, H, X, P/V, N, C from bit 7 down. */
  function FlagByte(s: bool, z: bool, y: bool, h: bool, x: bool, p: bool, n: bool, c: bool): byte {
    Weigh(s, 128) + Weigh(z, 64) + Weigh(y, 32) + Weigh(h, 16) + Weigh(x, 8) + Weigh(p, 4) + Weigh(n, 2) + Weigh(c, 1)
  }

  predicate SignOf(f: byte) { f >= 128 }
  predicate ZeroOf(f: byte) { f / 64 % 2 == 1 }
  predicate HalfOf(f: byte) { f / 16 % 2 == 1 }
  predicate ParityOf(f: byte) { f / 4 % 2 == 1 }
  predicate SubtractOf(f: byte) { f / 2 % 2 == 1 }
  predicate CarryOf(f: byte) { f % 2 == 1 }

  /** Bits 5 and 3 of a byte. */
  predicate Bit5(v: byte) { v / 32 % 2 == 1 }
  predicate Bit3(v: byte) { v / 8 % 2 == 1 }

  /** An even number of ones. */
  predicate EvenOnes(v: byte) {
    (v % 2 + v / 2 % 2 + v / 4 % 2 + v / 8 % 2 + v / 16 % 2 + v / 32 % 2 + v / 64 % 2 + v / 128) % 2 == 0
  }

  function Value(v: byte): int { if v < 128 then v else v - 256 }
  function Value16(v: word): int { if v < 32768 then v else v - 65536 }
  function One(b: bool): int { if b then 1 else 0 }

  // ---- Eight bits -----------------------------------------------------------------------------

  function Added(a: byte, v: byte, c: bool): (byte, byte) {
    var full := a + v + One(c);
    var r: byte := full % 256;
    var d := Value(a) + Value(v) + One(c);
    (r, FlagByte(r >= 128, r == 0, Bit5(r), a % 16 + v % 16 + One(c) > 15, Bit3(r), d < -128 || d > 127, false, full > 255))
  }

  function Subtracted(a: byte, v: byte, c: bool): (byte, byte) {
    var full := a - v - One(c);
    var r: byte := full % 256;
    var d := Value(a) - Value(v) - One(c);
    (r, FlagByte(r >= 128, r == 0, Bit5(r), a % 16 < v % 16 + One(c), Bit3(r), d < -128 || d > 127, true, full < 0))
  }

  /** The flags of a subtraction, with bits 5 and 3 of the operand; A stays. */
  function ComparedWith(a: byte, v: byte): (byte, byte) {
    var r: byte := (a - v) % 256;
    var d := Value(a) - Value(v);
    (a, FlagByte(r >= 128, r == 0, Bit5(v), a % 16 < v % 16, Bit3(v), d < -128 || d > 127, true, a < v))
  }

  function Joined8(op: BitOp, a: byte, v: byte): (byte, byte) {
    CombineBelow(op, a, v, 8);
    EightBits();
    var r: byte := Combine(op, a, v, 8);
    (r, FlagByte(r >= 128, r == 0, Bit5(r), op == Conj, Bit3(r), EvenOnes(r), false, false))
  }

  lemma EightBits()
    ensures Pow2(8) == 256
  {
    assert Pow2(4) == 16;
    assert Pow2(6) == 64;
  }

  /** ADD, ADC, SUB, SBC, AND, XOR, OR and CP, in the order of the opcodes. */
  function Operated(k: int, a: byte, v: byte, f: byte): (byte, byte) {
    match k
    case 0 => Added(a, v, false)
    case 1 => Added(a, v, CarryOf(f))
    case 2 => Subtracted(a, v, false)
    case 3 => Subtracted(a, v, CarryOf(f))
    case 4 => Joined8(Conj, a, v)
    case 5 => Joined8(Differ, a, v)
    case 6 => Joined8(Disj, a, v)
    case _ => ComparedWith(a, v)
  }

  function Incremented(v: byte, f: byte): (byte, byte) {
    var r: byte := (v + 1) % 256;
    (r, FlagByte(r >= 128, r == 0, Bit5(r), r % 16 == 0, Bit3(r), v == 127, false, CarryOf(f)))
  }

  function Decremented(v: byte, f: byte): (byte, byte) {
    var r: byte := (v - 1) % 256;
    (r, FlagByte(r >= 128, r == 0, Bit5(r), v % 16 == 0, Bit3(r), v == 128, true, CarryOf(f)))
  }

  // ---- Sixteen bits -----------------------------------------------------------------------------

  function Added16(a: word, v: word, f: byte): (word, byte) {
    var r: word := (a + v) % 65536;
    (r, FlagByte(SignOf(f), ZeroOf(f), Bit5(r / 256), a % 4096 + v % 4096 > 4095, Bit3(r / 256), ParityOf(f), false,
                 a + v > 65535))
  }

  function AddedCarry16(a: word, v: word, f: byte): (word, byte) {
    var c := One(CarryOf(f));
    var r: word := (a + v + c) % 65536;
    var d := Value16(a) + Value16(v) + c;
    (r, FlagByte(r >= 32768, r == 0, Bit5(r / 256), a % 4096 + v % 4096 + c > 4095, Bit3(r / 256),
                 d < -32768 || d > 32767, false, a + v + c > 65535))
  }

  function SubtractedCarry16(a: word, v: word, f: byte): (word, byte) {
    var c := One(CarryOf(f));
    var r: word := (a - v - c) % 65536;
    var d := Value16(a) - Value16(v) - c;
    (r, FlagByte(r >= 32768, r == 0, Bit5(r / 256), a % 4096 < v % 4096 + c, Bit3(r / 256),
                 d < -32768 || d > 32767, true, a < v + c))
  }

  // ---- Rotations, bits, the accumulator -----------------------------------------------------------

  /** RLC, RRC, RL, RR, SLA, SRA, SLL and SRL, in the order of the opcodes: result and bit shifted out. */
  function Rotated(k: int, v: byte, c: bool): (byte, bool) {
    match k
    case 0 => (v * 2 % 256 + v / 128, v >= 128)
    case 1 => (v / 2 + 128 * (v % 2), v % 2 == 1)
    case 2 => (v * 2 % 256 + One(c), v >= 128)
    case 3 => (v / 2 + 128 * One(c), v % 2 == 1)
    case 4 => (v * 2 % 256, v >= 128)
    case 5 => (v / 2 + (if v >= 128 then 128 else 0), v % 2 == 1)
    case 6 => (v * 2 % 256 + 1, v >= 128)
    case _ => (v / 2, v % 2 == 1)
  }

  function RotatedFlags(r: byte, c: bool): byte {
    FlagByte(r >= 128, r == 0, Bit5(r), false, Bit3(r), EvenOnes(r), false, c)
  }

  /** The weight of bit b. */
  function WeightOf(b: int): byte {
    match b case 0 => 1 case 1 => 2 case 2 => 4 case 3 => 8 case 4 => 16 case 5 => 32 case 6 => 64 case _ => 128
  }

  predicate Has(v: byte, b: int) { v / WeightOf(b) % 2 == 1 }

  function Without(v: byte, b: int): int { if Has(v, b) then v - WeightOf(b) else v }
  function With(v: byte, b: int): int { if Has(v, b) then v as int else v + WeightOf(b) }

  /** BIT b, with the byte that bits 5 and 3 come from. */
  function Tested(b: int, v: byte, yx: byte, f: byte): byte {
    FlagByte(b == 7 && v >= 128, !Has(v, b), Bit5(yx), true, Bit3(yx), !Has(v, b), false, CarryOf(f))
  }

  /** RLCA, RRCA, RLA, RRA: the first four rotations, S, Z and P/V kept. */
  function RotatedA(k: int, a: byte, f: byte): (byte, byte) {
    var (r, c) := Rotated(k, a, CarryOf(f));
    (r, FlagByte(SignOf(f), ZeroOf(f), Bit5(r), false, Bit3(r), ParityOf(f), false, c))
  }

  /** DAA: 6 for a low digit above 9 or a half-carry, 60h for a number above 99h or a carry. */
  function Adjusted(a: byte, f: byte): (byte, byte) {
    var low := HalfOf(f) || (!SubtractOf(f) && a % 16 > 9);
    var high := CarryOf(f) || (!SubtractOf(f) && a > 0x99);
    var fix := (if low then 6 else 0) + if high then 0x60 else 0;
    var r: byte := (if SubtractOf(f) then a - fix else a + fix) % 256;
    (r, FlagByte(r >= 128, r == 0, Bit5(r), if SubtractOf(f) then HalfOf(f) && a % 16 < 6 else a % 16 > 9, Bit3(r),
                 EvenOnes(r), SubtractOf(f), high))
  }

  /** RLCA RRCA RLA RRA DAA CPL SCF CCF. */
  function Accumulated(k: int, a: byte, f: byte): (byte, byte) {
    match k
    case 4 => Adjusted(a, f)
    case 5 => (255 - a, FlagByte(SignOf(f), ZeroOf(f), Bit5(255 - a), true, Bit3(255 - a), ParityOf(f), true, CarryOf(f)))
    case 6 => (a, FlagByte(SignOf(f), ZeroOf(f), Bit5(a), false, Bit3(a), ParityOf(f), false, true))
    case 7 => (a, FlagByte(SignOf(f), ZeroOf(f), Bit5(a), CarryOf(f), Bit3(a), ParityOf(f), false, !CarryOf(f)))
    case _ => RotatedA(k, a, f)
  }

  /** The flags of a byte read from a port, or left in A by RRD and RLD. */
  function ReadFlags(v: byte, f: byte): byte {
    FlagByte(v >= 128, v == 0, Bit5(v), false, Bit3(v), EvenOnes(v), false, CarryOf(f))
  }

  // ---- The engine's helpers -------------------------------------------------------------------------

  lemma FlagByteIs(s: bool, z: bool, y: bool, h: bool, x: bool, p: bool, n: bool, c: bool)
    ensures MkF(s, z, y, h, x, p, n, c) == FlagByte(s, z, y, h, x, p, n, c)
  {
    hide MkF;
    MkFHalves(s, z, y, h, x, p, n, c);
  }

  lemma HighFlagsAre(f: byte)
    ensures FS(f) == SignOf(f) && FZ(f) == ZeroOf(f) && FH(f) == HalfOf(f)
  {
    var h := f / 16;
    assert f / 64 == h / 4;
  }

  lemma ParityFlag(f: byte)
    ensures FP(f) == ParityOf(f)
  {
    assert f % 16 % 8 == f % 8;
  }

  lemma SubtractFlag(f: byte)
    ensures FN(f) == SubtractOf(f)
  {
    assert f % 16 % 4 == f % 4;
  }

  lemma CarryFlag(f: byte)
    ensures FC(f) == CarryOf(f)
  {
    assert f % 16 % 2 == f % 2;
  }

  lemma FlagsAre(f: byte)
    ensures FS(f) == SignOf(f) && FZ(f) == ZeroOf(f) && FH(f) == HalfOf(f)
    ensures FP(f) == ParityOf(f) && FN(f) == SubtractOf(f) && FC(f) == CarryOf(f)
  {
    HighFlagsAre(f);
    ParityFlag(f);
    SubtractFlag(f);
    CarryFlag(f);
  }

  lemma BitsAre(v: byte)
    ensures B5(v) == Bit5(v) && B3(v) == Bit3(v) && Neg(v) == (v >= 128)
  {
  }

  lemma OnesTwice(v: nat)
    ensures Ones(v) == v % 2 + v / 2 % 2 + Ones(v / 4)
  {
    assert v / 2 / 2 == v / 4;
    assert Ones(v) == v % 2 + Ones(v / 2);
    assert Ones(v / 2) == v / 2 % 2 + Ones(v / 4);
  }

  lemma OnesFour(v: nat)
    ensures Ones(v) == v % 2 + v / 2 % 2 + v / 4 % 2 + v / 8 % 2 + Ones(v / 16)
  {
    hide Ones;
    OnesTwice(v);
    OnesTwice(v / 4);
    assert v / 4 / 4 == v / 16 && v / 4 / 2 == v / 8;
  }

  lemma SixteenthBits(v: byte)
    ensures v / 16 / 2 == v / 32 && v / 16 / 4 == v / 64 && v / 16 / 8 == v / 128 && v / 16 / 16 == 0
  {
  }

  lemma OnesAre(v: byte)
    ensures Parity(v) == EvenOnes(v)
  {
    hide Ones;
    var low, high := Ones(v) - Ones(v / 16), Ones(v / 16);
    OnesFour(v);
    OnesFour(v / 16);
    SixteenthBits(v);
    NoOnes();
    TopBit(v);
    SameParity(Ones(v), v % 2 + v / 2 % 2 + v / 4 % 2 + v / 8 % 2 + v / 16 % 2 + v / 32 % 2 + v / 64 % 2 + v / 128);
  }

  lemma TopBit(v: byte)
    ensures v / 128 % 2 == v / 128
  {
  }

  lemma SameParity(x: int, y: int)
    requires x == y
    ensures x % 2 == y % 2
  {
  }

  lemma NoOnes()
    ensures Ones(0) == 0
  {
  }

  lemma SumSigns(a: byte, v: byte, c: bool)
    ensures var r := B(a + v + Num(c));
            var d := Value(a) + Value(v) + One(c);
            (Neg(a) != Neg(r) && Neg(v) != Neg(r)) <==> d < -128 || d > 127
  {
  }

  lemma DifferenceSigns(a: byte, v: byte, c: bool)
    ensures var r := B(a - v - Num(c));
            var d := Value(a) - Value(v) - One(c);
            (Neg(a) != Neg(v) && Neg(a) != Neg(r)) <==> d < -128 || d > 127
  {
  }

  lemma AddIs(a: byte, v: byte, c: bool)
    ensures AluAdd(a, v, c) == Res(Added(a, v, c).0, Added(a, v, c).1)
  {
    hide MkF, FlagByte, B5, B3, Bit5, Bit3, B, Neg, Value;
    var r := B(a + v + Num(c));
    Casts(a + v + Num(c));
    SumSigns(a, v, c);
    BitsAre(r);
    FlagByteIs(Neg(r), r == 0, B5(r), a % 16 + v % 16 + Num(c) > 15, B3(r),
               Neg(a) != Neg(r) && Neg(v) != Neg(r), false, a + v + Num(c) > 255);
  }

  lemma SubIs(a: byte, v: byte, c: bool)
    ensures AluSub(a, v, c) == Res(Subtracted(a, v, c).0, Subtracted(a, v, c).1)
  {
    hide MkF, FlagByte, B5, B3, Bit5, Bit3, B, Neg, Value;
    var r := B(a - v - Num(c));
    Casts(a - v - Num(c));
    DifferenceSigns(a, v, c);
    BitsAre(r);
    FlagByteIs(Neg(r), r == 0, B5(r), a % 16 - v % 16 - Num(c) < 0, B3(r),
               Neg(a) != Neg(v) && Neg(a) != Neg(r), true, a - v - Num(c) < 0);
  }

  lemma CpIs(a: byte, v: byte)
    ensures AluCp(a, v) == Res(ComparedWith(a, v).0, ComparedWith(a, v).1)
  {
    hide MkF, FlagByte, B5, B3, Bit5, Bit3, B, Neg, Value;
    var r := B(a - v);
    Casts(a - v);
    DifferenceSigns(a, v, false);
    BitsAre(r);
    BitsAre(v);
    FlagByteIs(Neg(r), r == 0, B5(v), a % 16 - v % 16 < 0, B3(v), Neg(a) != Neg(v) && Neg(a) != Neg(r), true, a - v < 0);
  }

  lemma LogicIs(op: BitOp, a: byte, v: byte, r: byte)
    requires r == Combine(op, a, v, 8)
    ensures Logic(r, op == Conj) == Res(Joined8(op, a, v).0, Joined8(op, a, v).1)
  {
    hide MkF, FlagByte, B5, B3, Bit5, Bit3, Neg, Parity, EvenOnes, Combine;
    BitsAre(r);
    OnesAre(r);
    FlagByteIs(Neg(r), r == 0, B5(r), op == Conj, B3(r), Parity(r), false, false);
  }

  /** The operation field of the ALU opcodes. */
  lemma OperatedIs(k: int, a: byte, v: byte, f: byte)
    requires 0 <= k < 8
    ensures AluOp(k, a, v, f) == Res(Operated(k, a, v, f).0, Operated(k, a, v, f).1)
  {
    hide AluAdd, AluSub, AluCp, Logic, Added, Subtracted, ComparedWith, Joined8, FC, CarryOf, And, Or, Xor, Combine;
    FlagsAre(f);
    ByteOps(a, v);
    AddIs(a, v, false);
    AddIs(a, v, CarryOf(f));
    SubIs(a, v, false);
    SubIs(a, v, CarryOf(f));
    LogicIs(Conj, a, v, And(a, v));
    LogicIs(Differ, a, v, Xor(a, v));
    LogicIs(Disj, a, v, Or(a, v));
    CpIs(a, v);
  }

  lemma IncIs(v: byte, f: byte)
    ensures Inc8(v, f) == Res(Incremented(v, f).0, Incremented(v, f).1)
  {
    hide MkF, FlagByte, B5, B3, Bit5, Bit3, FC, CarryOf;
    var r := B(v + 1);
    FlagsAre(f);
    BitsAre(r);
    FlagByteIs(Neg(r), r == 0, B5(r), v % 16 == 15, B3(r), r == 0x80, false, FC(f));
  }

  lemma DecIs(v: byte, f: byte)
    ensures Dec8(v, f) == Res(Decremented(v, f).0, Decremented(v, f).1)
  {
    hide MkF, FlagByte, B5, B3, Bit5, Bit3, FC, CarryOf;
    var r := B(v - 1);
    FlagsAre(f);
    BitsAre(r);
    FlagByteIs(Neg(r), r == 0, B5(r), v % 16 == 0, B3(r), r == 0x7F, true, FC(f));
  }

  lemma Add16Is(a: word, v: word, f: byte)
    ensures Add16(a, v, f) == Res16(Added16(a, v, f).0, Added16(a, v, f).1)
  {
    hide MkF, FlagByte, B5, B3, Bit5, Bit3, FS, FZ, FP, SignOf, ZeroOf, ParityOf, W;
    var r := W(a + v);
    Casts(a + v);
    FlagsAre(f);
    BitsAre(Hi(r));
    FlagByteIs(FS(f), FZ(f), B5(Hi(r)), a % 0x1000 + v % 0x1000 > 0x0FFF, B3(Hi(r)), FP(f), false, a + v > 0xFFFF);
  }

  lemma WordSigns(a: word, v: word, c: bool)
    ensures var r := W(a + v + Num(c));
            var d := Value16(a) + Value16(v) + One(c);
            (Neg(Hi(a)) != Neg(Hi(r)) && Neg(Hi(v)) != Neg(Hi(r))) <==> d < -32768 || d > 32767
    ensures var r := W(a - v - Num(c));
            var d := Value16(a) - Value16(v) - One(c);
            (Neg(Hi(a)) != Neg(Hi(v)) && Neg(Hi(a)) != Neg(Hi(r))) <==> d < -32768 || d > 32767
  {
  }

  lemma HighSign(r: word)
    ensures Neg(Hi(r)) == (r >= 32768)
  {
  }

  lemma Adc16Is(a: word, v: word, f: byte)
    ensures Adc16(a, v, f) == Res16(AddedCarry16(a, v, f).0, AddedCarry16(a, v, f).1)
  {
    hide MkF, FlagByte, B5, B3, Bit5, Bit3, FC, CarryOf, W, Neg, Value16;
    FlagsAre(f);
    var c := Num(FC(f));
    var r := W(a + v + c);
    Casts(a + v + c);
    WordSigns(a, v, FC(f));
    HighSign(r);
    BitsAre(Hi(r));
    FlagByteIs(Neg(Hi(r)), r == 0, B5(Hi(r)), a % 0x1000 + v % 0x1000 + c > 0x0FFF, B3(Hi(r)),
               Neg(Hi(a)) != Neg(Hi(r)) && Neg(Hi(v)) != Neg(Hi(r)), false, a + v + c > 0xFFFF);
  }

  lemma Sbc16Is(a: word, v: word, f: byte)
    ensures Sbc16(a, v, f) == Res16(SubtractedCarry16(a, v, f).0, SubtractedCarry16(a, v, f).1)
  {
    hide MkF, FlagByte, B5, B3, Bit5, Bit3, FC, CarryOf, W, Neg, Value16;
    FlagsAre(f);
    var c := Num(FC(f));
    var r := W(a - v - c);
    Casts(a - v - c);
    WordSigns(a, v, FC(f));
    HighSign(r);
    BitsAre(Hi(r));
    FlagByteIs(Neg(Hi(r)), r == 0, B5(Hi(r)), a % 0x1000 - v % 0x1000 - c < 0, B3(Hi(r)),
               Neg(Hi(a)) != Neg(Hi(v)) && Neg(Hi(a)) != Neg(Hi(r)), true, a - v - c < 0);
  }

  lemma ShiftsAre(v: byte, b: bool)
    ensures ShlIn(v, b) == v * 2 % 256 + One(b) && ShrIn(v, b) == v / 2 + 128 * One(b)
    ensures One(Neg(v)) == v / 128 && One(Odd(v)) == v % 2
  {
  }

  lemma RotatedIs(k: int, v: byte, f: byte)
    requires 0 <= k < 8
    ensures RotValue(k, v, f) == Rotated(k, v, CarryOf(f)).0 && RotCarry(k, v) == Rotated(k, v, CarryOf(f)).1
  {
    hide FC, CarryOf, ShlIn, ShrIn;
    FlagsAre(f);
    ShiftsAre(v, true);
    ShiftsAre(v, false);
    ShiftsAre(v, Neg(v));
    ShiftsAre(v, Odd(v));
    ShiftsAre(v, FC(f));
  }

  lemma RotIs(k: int, v: byte, f: byte)
    requires 0 <= k < 8
    ensures var r := Rotated(k, v, CarryOf(f)); Rot(k, v, f) == Res(r.0, RotatedFlags(r.0, r.1))
  {
    hide MkF, FlagByte, B5, B3, Bit5, Bit3, CarryOf, RotValue, RotCarry, Rotated, Parity, EvenOnes;
    RotatedIs(k, v, f);
    var r := RotValue(k, v, f);
    BitsAre(r);
    OnesAre(r);
    FlagByteIs(Neg(r), r == 0, B5(r), false, B3(r), Parity(r), false, RotCarry(k, v));
  }

  lemma HasIs(v: byte, b: int)
    requires 0 <= b < 8
    ensures Bit(v, b) == Has(v, b) && Mask(b) == WeightOf(b)
  {
  }

  lemma TestedIs(b: int, v: byte, yx: byte, f: byte)
    requires 0 <= b < 8
    ensures BitFlags(b, v, yx, f) == Tested(b, v, yx, f)
  {
    hide MkF, FlagByte, B5, B3, Bit5, Bit3, FC, CarryOf, Bit, Has;
    HasIs(v, b);
    TopHas(v);
    FlagsAre(f);
    BitsAre(yx);
    FlagByteIs(Bit(v, b) && b == 7, !Bit(v, b), B5(yx), true, B3(yx), !Bit(v, b), false, FC(f));
  }

  lemma TopHas(v: byte)
    ensures Has(v, 7) == (v >= 128)
  {
  }

  lemma RotatedAIs(k: int, a: byte, f: byte)
    requires 0 <= k < 4
    ensures AccRot(k, a, f) == Res(RotatedA(k, a, f).0, RotatedA(k, a, f).1)
  {
    hide MkF, FlagByte, B5, B3, Bit5, Bit3, CarryOf, RotValue, RotCarry, Rotated, FS, FZ, FP, SignOf, ZeroOf, ParityOf;
    RotatedIs(k, a, f);
    FlagsAre(f);
    var r := RotValue(k, a, f);
    BitsAre(r);
    FlagByteIs(FS(f), FZ(f), B5(r), false, B3(r), FP(f), false, RotCarry(k, a));
  }

  lemma DaaIs(a: byte, f: byte)
    ensures Daa(a, f) == Res(Adjusted(a, f).0, Adjusted(a, f).1)
  {
    hide MkF, FlagByte, B5, B3, Bit5, Bit3, FC, FH, FN, CarryOf, HalfOf, SubtractOf, Parity, EvenOnes, Neg;
    FlagsAre(f);
    var fix := (if DaaLow(a, f) then 6 else 0) + if DaaHigh(a, f) then 0x60 else 0;
    Casts(a - fix);
    Casts(a + fix);
    var r := if FN(f) then B(a - fix) else B(a + fix);
    BitsAre(r);
    OnesAre(r);
    FlagByteIs(Neg(r), r == 0, B5(r), if FN(f) then FH(f) && a % 16 < 6 else a % 16 > 9, B3(r), Parity(r), FN(f),
               DaaHigh(a, f));
  }

  lemma AccumulatedIs(k: int, a: byte, f: byte)
    requires 0 <= k < 8
    ensures AccOp(k, a, f) == Res(Accumulated(k, a, f).0, Accumulated(k, a, f).1)
  {
    hide MkF, FlagByte, B5, B3, Bit5, Bit3, FS, FZ, FP, FC, SignOf, ZeroOf, ParityOf, CarryOf, AccRot, Daa, Adjusted,
         RotatedA;
    FlagsAre(f);
    BitsAre(a);
    BitsAre(255 - a);
    if k < 4 { RotatedAIs(k, a, f); }
    DaaIs(a, f);
    FlagByteIs(FS(f), FZ(f), B5(255 - a), true, B3(255 - a), FP(f), true, FC(f));
    FlagByteIs(FS(f), FZ(f), B5(a), false, B3(a), FP(f), false, true);
    FlagByteIs(FS(f), FZ(f), B5(a), FC(f), B3(a), FP(f), false, !FC(f));
  }

  lemma ReadFlagsAre(v: byte, f: byte)
    ensures InFlags(v, f) == ReadFlags(v, f)
  {
    hide MkF, FlagByte, B5, B3, Bit5, Bit3, FC, CarryOf, Parity, EvenOnes;
    FlagsAre(f);
    BitsAre(v);
    OnesAre(v);
    FlagByteIs(Neg(v), v == 0, B5(v), false, B3(v), Parity(v), false, FC(f));
  }
}
