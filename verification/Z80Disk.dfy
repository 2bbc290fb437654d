/**
 The Z80 sector device (z80/src/Z80DiskDevice.cpp): ports F0-F7 in front of an image of
 128-byte sectors that it copies to and from guest RAM.
 */
module Z80Disk {
  import opened Bytes

  type Lba = x: int | 0 <= x < 0x100_0000

  const SECTOR: nat := 128

  datatype Disk = Disk(image: seq<byte>, writeProtect: bool, lba: Lba, bufPtr: word, error: bool)

  /** The device and the RAM it is wired to. */
  datatype State = State(disk: Disk, ram: Ram)

  /** Port writes, and what happens around them: mounting, reset, and RAM as the guest's own stores leave it. */
  datatype Event =
    | PortWrite(port: byte, val: byte)
    | Mount(bytes: seq<byte>, protect: bool)
    | ResetDevice
    | Guest(ram: Ram)

  // ---- Blocks of RAM --------------------------------------------------------------------

  /** n bytes from p on, wrapping past FFFF. */
  function Window(ram: Ram, p: word, n: nat): seq<byte> { seq(n, i requires 0 <= i < n => ram[W(p + i)]) }

  function BlitAt(ram: Ram, p: word, bs: seq<byte>, a: word): byte {
    if W(a - p) < |bs| then bs[W(a - p)] else ram[a]
  }

  /** RAM with bs written from p on, wrapping past FFFF. */
  function Blit(ram: Ram, p: word, bs: seq<byte>): Ram {
    seq(0x10000, a requires 0 <= a < 0x10000 => BlitAt(ram, p, bs, a))
  }

  // ---- The device -----------------------------------------------------------------------

  /** The byte offset in uint32_t arithmetic. */
  function Offset(lba: Lba): int { lba * SECTOR % 0x1_0000_0000 }

  /** The source's bounds test, in uint32_t arithmetic. */
  predicate InImage(d: Disk) { (Offset(d.lba) + SECTOR) % 0x1_0000_0000 <= |d.image| }

  /** The arithmetic of the bounds test never wraps. */
  lemma OffsetExact(d: Disk)
    ensures Offset(d.lba) == d.lba * SECTOR
    ensures InImage(d) <==> (d.lba + 1) * SECTOR <= |d.image|
  {
  }

  predicate CanRead(d: Disk) { d.image != [] && InImage(d) }
  predicate CanWrite(d: Disk) { d.image != [] && !d.writeProtect && InImage(d) }

  /** Sector n of an image. */
  function Sector(image: seq<byte>, n: nat): seq<byte>
    requires (n + 1) * SECTOR <= |image|
  {
    image[n * SECTOR..n * SECTOR + SECTOR]
  }

  function PutSector(image: seq<byte>, n: nat, bs: seq<byte>): seq<byte>
    requires (n + 1) * SECTOR <= |image| && |bs| == SECTOR
  {
    image[..n * SECTOR] + bs + image[n * SECTOR + SECTOR..]
  }

  function Failed(s: State): State { s.(disk := s.disk.(error := true)) }

  function Command(s: State, cmd: byte): State {
    var d := s.disk;
    OffsetExact(d);
    if cmd == 0 then s.(disk := d.(error := false))
    else if cmd == 1 then
      if !CanRead(d) then Failed(s) else s.(ram := Blit(s.ram, d.bufPtr, Sector(d.image, d.lba)))
    else if cmd == 2 then
      if !CanWrite(d) then Failed(s)
      else s.(disk := d.(image := PutSector(d.image, d.lba, Window(s.ram, d.bufPtr, SECTOR))))
    else Failed(s)
  }

  function WriteIo(s: State, port: byte, val: byte): State {
    var d := s.disk;
    match port
    case 0xF0 => s.(disk := d.(lba := d.lba / 0x100 * 0x100 + val))
    case 0xF1 => s.(disk := d.(lba := d.lba / 0x10000 * 0x10000 + val * 0x100 + d.lba % 0x100))
    case 0xF2 => s.(disk := d.(lba := val * 0x10000 + d.lba % 0x10000))
    case 0xF3 => s.(disk := d.(bufPtr := Pair(Hi(d.bufPtr), val)))
    case 0xF4 => s.(disk := d.(bufPtr := Pair(val, Lo(d.bufPtr))))
    case 0xF5 => Command(s, val)
    case _ => s
  }

  function ReadIo(d: Disk, port: byte): byte {
    match port
    case 0xF0 => d.lba % 0x100
    case 0xF1 => d.lba / 0x100 % 0x100
    case 0xF2 => d.lba / 0x10000
    case 0xF3 => Lo(d.bufPtr)
    case 0xF4 => Hi(d.bufPtr)
    case 0xF6 => 1 + 2 * Num(d.error) + 4 * Num(d.writeProtect) + 8 * Num(d.image != [])
    case 0xF7 => 0
    case _ => 0xFF
  }

  function Step(s: State, e: Event): State {
    match e
    case PortWrite(port, val) => WriteIo(s, port, val)
    case Mount(bytes, protect) => s.(disk := Disk(bytes, protect, 0, 0, false))
    case ResetDevice => s.(disk := s.disk.(lba := 0, bufPtr := 0, error := false))
    case Guest(m) => s.(ram := m)
  }

  function Run(s: State, es: seq<Event>): State
    decreases |es|
  {
    if es == [] then s else Run(Step(s, es[0]), es[1..])
  }

  // ---- Sectors --------------------------------------------------------------------------

  lemma {:induction false} SectorOfPut(image: seq<byte>, n: nat, bs: seq<byte>, m: nat)
    requires (n + 1) * SECTOR <= |image| && |bs| == SECTOR && (m + 1) * SECTOR <= |image|
    ensures |PutSector(image, n, bs)| == |image|
    ensures Sector(PutSector(image, n, bs), m) == if m == n then bs else Sector(image, m)
  {
    var put := PutSector(image, n, bs);
    if m < n { assert (m + 1) * SECTOR <= n * SECTOR; }
    if m > n { assert (n + 1) * SECTOR <= m * SECTOR; }
    assert forall i :: 0 <= i < |image| && !(n * SECTOR <= i < n * SECTOR + SECTOR) ==> put[i] == image[i];
    assert forall i :: n * SECTOR <= i < n * SECTOR + SECTOR ==> put[i] == bs[i - n * SECTOR];
    var want := if m == n then bs else Sector(image, m);
    assert forall i :: 0 <= i < SECTOR ==> Sector(put, m)[i] == want[i];
  }

  lemma WindowOfBlit(ram: Ram, p: word, bs: seq<byte>)
    requires |bs| <= 0x10000
    ensures Window(Blit(ram, p, bs), p, |bs|) == bs
  {
    hide W;
    forall i | 0 <= i < |bs|
      ensures Blit(ram, p, bs)[W(p + i)] == bs[i]
    {
      WrapBack(p, i);
    }
  }

  lemma WrapBack(p: word, i: int)
    requires 0 <= i < 0x10000
    ensures W(W(p + i) - p) == i
  {
  }

  lemma WindowLength(ram: Ram, p: word)
    ensures |Window(ram, p, SECTOR)| == SECTOR
  {
  }

  predicate IsWrite(e: Event) { e == PortWrite(0xF5, 2) }

  /** The sector an event writes to, when it writes one. */
  predicate Writes(s: State, e: Event, n: nat) { IsWrite(e) && CanWrite(s.disk) && s.disk.lba == n }

  /**
   One event against the sector map: between mounts the image keeps its length and its write
   protection, and sector n changes only by a successful WRITE to n, to the RAM window.
   */
  lemma StepSectors(s: State, e: Event, n: nat)
    requires !e.Mount? && (n + 1) * SECTOR <= |s.disk.image|
    ensures var t := Step(s, e);
            && |t.disk.image| == |s.disk.image| && t.disk.writeProtect == s.disk.writeProtect
            && Sector(t.disk.image, n) ==
               if Writes(s, e, n) then Window(s.ram, s.disk.bufPtr, SECTOR) else Sector(s.disk.image, n)
  {
    hide Window, Blit, Sector, PutSector, InImage, Pair, Hi, Lo;
    if IsWrite(e) && CanWrite(s.disk) {
      OffsetExact(s.disk);
      WindowLength(s.ram, s.disk.bufPtr);
      SectorOfPut(s.disk.image, s.disk.lba, Window(s.ram, s.disk.bufPtr, SECTOR), n);
    }
  }

  predicate NoMount(es: seq<Event>) { forall i :: 0 <= i < |es| ==> !es[i].Mount? }

  /** What sector n holds after a run: the window of the last successful WRITE to it, or what it held. */
  function LastWritten(s: State, es: seq<Event>, n: nat, held: seq<byte>): seq<byte>
    decreases |es|
  {
    if es == [] then held
    else LastWritten(Step(s, es[0]), es[1..], n,
                     if Writes(s, es[0], n) then Window(s.ram, s.disk.bufPtr, SECTOR) else held)
  }

  /** Any run without a mount refines the sector map. */
  lemma {:induction false} RunSectors(s: State, es: seq<Event>, n: nat)
    requires NoMount(es) && (n + 1) * SECTOR <= |s.disk.image|
    ensures var t := Run(s, es);
            && |t.disk.image| == |s.disk.image| && t.disk.writeProtect == s.disk.writeProtect
            && Sector(t.disk.image, n) == LastWritten(s, es, n, Sector(s.disk.image, n))
    decreases |es|
  {
    hide Step, Sector, Writes, Window;
    if es != [] {
      StepSectors(s, es[0], n);
      assert forall i :: 0 <= i < |es[1..]| ==> es[1..][i] == es[i + 1];
      RunSectors(Step(s, es[0]), es[1..], n);
    }
  }

  /** No event of the run writes sector n. */
  predicate Untouched(s: State, es: seq<Event>, n: nat)
    decreases |es|
  {
    es == [] || (!Writes(s, es[0], n) && Untouched(Step(s, es[0]), es[1..], n))
  }

  lemma {:induction false} UntouchedKeeps(s: State, es: seq<Event>, n: nat, held: seq<byte>)
    requires Untouched(s, es, n)
    ensures LastWritten(s, es, n, held) == held
    decreases |es|
  {
    hide Step, Writes;
    if es != [] { UntouchedKeeps(Step(s, es[0]), es[1..], n, held); }
  }

  const READ: Event := PortWrite(0xF5, 1)
  const WRITE: Event := PortWrite(0xF5, 2)

  /**
   WRITE a sector, let anything happen that does not write that sector or mount, READ it to
   any buffer pointer: exactly those 128 bytes arrive there, and nowhere else.
   */
  lemma WriteThenRead(s: State, es: seq<Event>)
    requires CanWrite(s.disk) && NoMount(es) && Untouched(Step(s, WRITE), es, s.disk.lba)
    requires Run(Step(s, WRITE), es).disk.lba == s.disk.lba
    ensures var t := Run(Step(s, WRITE), es);
            var u := Step(t, READ);
            var q := t.disk.bufPtr;
            && CanRead(t.disk)
            && Window(u.ram, q, SECTOR) == Window(s.ram, s.disk.bufPtr, SECTOR)
            && u.disk == t.disk
            && forall a :: 0 <= a < 0x10000 && W(a - q) >= SECTOR ==> u.ram[a] == t.ram[a]
  {
    hide Window, Run, Untouched, Sector, PutSector;
    var n := s.disk.lba;
    OffsetExact(s.disk);
    var s1 := Step(s, WRITE);
    StepSectors(s, WRITE, n);
    assert Writes(s, WRITE, n);
    RunSectors(s1, es, n);
    UntouchedKeeps(s1, es, n, Sector(s1.disk.image, n));
    var t := Run(s1, es);
    OffsetExact(t.disk);
    SectorLength(t.disk.image, n);
    WindowOfBlit(t.ram, t.disk.bufPtr, Sector(t.disk.image, n));
  }

  lemma SectorLength(image: seq<byte>, n: nat)
    requires (n + 1) * SECTOR <= |image|
    ensures |Sector(image, n)| == SECTOR
  {
  }

  /** Write protection freezes the image until the next mount. */
  lemma {:induction false} Protected(s: State, es: seq<Event>)
    requires NoMount(es) && s.disk.writeProtect
    ensures Run(s, es).disk.image == s.disk.image && Run(s, es).disk.writeProtect
    decreases |es|
  {
    hide Blit, Window, PutSector, Sector, InImage, Pair, Hi, Lo;
    if es != [] {
      assert forall i :: 0 <= i < |es[1..]| ==> es[1..][i] == es[i + 1];
      Protected(Step(s, es[0]), es[1..]);
    }
  }

  // ---- The error bit ----------------------------------------------------------------------

  /** A command that is refused: unknown, out of range, without an image, or WRITE under protection. */
  predicate Fails(s: State, e: Event) {
    && e.PortWrite? && e.port == 0xF5
    && (e.val > 2
        || (e.val == 1 && (s.disk.image == [] || (s.disk.lba + 1) * SECTOR > |s.disk.image|))
        || (e.val == 2 && (s.disk.image == [] || s.disk.writeProtect || (s.disk.lba + 1) * SECTOR > |s.disk.image|)))
  }

  /** NOP, a mount and a reset clear the error. */
  predicate Clears(e: Event) { e == PortWrite(0xF5, 0) || e.Mount? || e.ResetDevice? }

  /** Some command of the run failed and nothing after it cleared the error. */
  predicate FailedSince(s: State, es: seq<Event>)
    decreases |es|
  {
    es != [] && (FailedSince(Step(s, es[0]), es[1..])
                 || (Fails(s, es[0]) && forall i :: 1 <= i < |es| ==> !Clears(es[i])))
  }

  lemma StepError(s: State, e: Event)
    ensures Step(s, e).disk.error <==> Fails(s, e) || (s.disk.error && !Clears(e))
  {
    hide Blit, Window, PutSector, Sector, InImage, Offset, Pair, Hi, Lo;
    OffsetExact(s.disk);
  }

  /** ERROR is set exactly when a command failed since the last NOP, mount or reset. */
  lemma {:induction false} ErrorBit(s: State, es: seq<Event>)
    ensures Run(s, es).disk.error
            <==> FailedSince(s, es) || (s.disk.error && forall i :: 0 <= i < |es| ==> !Clears(es[i]))
    decreases |es|
  {
    hide Step, Fails, Clears;
    if es != [] {
      StepError(s, es[0]);
      ErrorBit(Step(s, es[0]), es[1..]);
      var rest := es[1..];
      assert (forall i :: 0 <= i < |rest| ==> !Clears(rest[i])) <==> (forall i :: 1 <= i < |es| ==> !Clears(es[i])) by {
        assert forall i :: 0 <= i < |rest| ==> rest[i] == es[i + 1];
        assert forall i :: 1 <= i < |es| ==> es[i] == rest[i - 1];
      }
    }
  }

  /** The status port shows it. */
  lemma StatusBits(d: Disk)
    ensures var st := ReadIo(d, 0xF6);
            && st % 2 == 1 && (st / 2 % 2 == 1 <==> d.error) && (st / 4 % 2 == 1 <==> d.writeProtect)
            && (st / 8 % 2 == 1 <==> d.image != []) && st < 0x10
  {
  }

  /** The address ports read back what was written to them, and leave one another alone. */
  lemma PortsReadBack(s: State, port: byte, val: byte, other: byte)
    requires 0xF0 <= port <= 0xF4 && 0xF0 <= other <= 0xF4
    ensures ReadIo(WriteIo(s, port, val).disk, other) == if other == port then val else ReadIo(s.disk, other)
  {
    hide Command, Hi, Lo, Pair;
    LbaDigits(s.disk.lba, val);
    PairParts(Hi(s.disk.bufPtr), val);
    PairParts(val, Lo(s.disk.bufPtr));
    var d, e := s.disk, WriteIo(s, port, val).disk;
    if port <= 0xF2 {
      assert e.bufPtr == d.bufPtr;
    } else {
      assert e.lba == d.lba;
    }
  }

  /** The last byte written to a port since the last mount or reset, or v. */
  function LastTo(es: seq<Event>, port: byte, v: byte): byte
    decreases |es|
  {
    if es == [] then v
    else LastTo(es[1..], port,
                match es[0]
                case PortWrite(p, w) => if p == port then w else v
                case Guest(_) => v
                case _ => 0)
  }

  lemma CommandKeeps(s: State, cmd: byte)
    ensures Command(s, cmd).disk.lba == s.disk.lba && Command(s, cmd).disk.bufPtr == s.disk.bufPtr
  {
    hide InImage, Blit, Window, PutSector, Sector;
  }

  lemma AddressParts(d: Disk)
    ensures d.lba == d.lba % 0x100 + 0x100 * (d.lba / 0x100 % 0x100) + 0x10000 * (d.lba / 0x10000)
    ensures d.bufPtr == d.bufPtr % 0x100 + 0x100 * (d.bufPtr / 0x100)
  {
  }

  /** A read shows the digit as it is, or as the event writes it. */
  lemma SpellOne(s: State, e: Event, port: byte)
    requires 0xF0 <= port <= 0xF4
    ensures ReadIo(Step(s, e).disk, port) == LastTo([e], port, ReadIo(s.disk, port))
  {
    hide WriteIo;
    assert [e][1..] == [];
    if e.PortWrite? {
      if 0xF0 <= e.port <= 0xF4 { PortsReadBack(s, e.port, e.val, port); } else { OtherPort(s, e.port, e.val); }
    }
  }

  lemma OtherPort(s: State, port: byte, val: byte)
    requires port < 0xF0 || port > 0xF4
    ensures var d := WriteIo(s, port, val).disk; d.lba == s.disk.lba && d.bufPtr == s.disk.bufPtr
  {
    hide Command;
    CommandKeeps(s, val);
  }

  lemma {:induction false} PortsHold(s: State, es: seq<Event>, port: byte)
    requires 0xF0 <= port <= 0xF4
    ensures ReadIo(Run(s, es).disk, port) == LastTo(es, port, ReadIo(s.disk, port))
    decreases |es|
  {
    hide Step, ReadIo;
    if es != [] {
      SpellOne(s, es[0], port);
      PortsHold(Step(s, es[0]), es[1..], port);
    }
  }

  /**
   After any run the sector number is F0 + 256 F1 + 65536 F2 and the buffer pointer
   F3 + 256 F4, each port standing for the last byte written to it.
   */
  lemma PortsSpell(s: State, es: seq<Event>)
    ensures var d, t := s.disk, Run(s, es).disk;
            && t.lba == LastTo(es, 0xF0, d.lba % 0x100) + 0x100 * LastTo(es, 0xF1, d.lba / 0x100 % 0x100)
                        + 0x10000 * LastTo(es, 0xF2, d.lba / 0x10000)
            && t.bufPtr == LastTo(es, 0xF3, d.bufPtr % 0x100) + 0x100 * LastTo(es, 0xF4, d.bufPtr / 0x100)
  {
    hide Run, LastTo;
    AddressParts(Run(s, es).disk);
    PortsHold(s, es, 0xF0);
    PortsHold(s, es, 0xF1);
    PortsHold(s, es, 0xF2);
    PortsHold(s, es, 0xF3);
    PortsHold(s, es, 0xF4);
  }

  /** Replacing one byte of a 24-bit number keeps the other two. */
  lemma LbaDigits(lba: Lba, v: byte)
    ensures var x := lba / 0x100 * 0x100 + v;
            x % 0x100 == v && x / 0x100 % 0x100 == lba / 0x100 % 0x100 && x / 0x10000 == lba / 0x10000
    ensures var x := lba / 0x10000 * 0x10000 + v * 0x100 + lba % 0x100;
            x % 0x100 == lba % 0x100 && x / 0x100 % 0x100 == v && x / 0x10000 == lba / 0x10000
    ensures var x := v * 0x10000 + lba % 0x10000;
            x % 0x100 == lba % 0x100 && x / 0x100 % 0x100 == lba / 0x100 % 0x100 && x / 0x10000 == v
  {
    var h: byte, m: byte, l: byte := lba / 0x10000, lba / 0x100 % 0x100, lba % 0x100;
    LbaBytes(h, m, l);
    LbaBytes(h, m, v);
    LbaBytes(h, v, l);
    LbaBytes(v, m, l);
    assert lba == h * 0x10000 + m * 0x100 + l;
  }

  lemma LbaBytes(h: byte, m: byte, l: byte)
    ensures var x := h * 0x10000 + m * 0x100 + l;
            && x % 0x100 == l && x / 0x100 % 0x100 == m && x / 0x10000 == h
            && x / 0x100 * 0x100 == h * 0x10000 + m * 0x100 && x % 0x10000 == m * 0x100 + l
  {
    var x := h * 0x10000 + m * 0x100 + l;
    assert x == (h * 0x100 + m) * 0x100 + l;
    assert x / 0x100 == h * 0x100 + m;
  }
}
