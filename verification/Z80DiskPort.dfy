/**
 The Z80 board: the CPU with the console UART and the sector device behind its ports
 (z80/src/Z80Memory.cpp). Whatever program runs, the device goes through the steps of
 Z80Disk, so what holds of its sectors holds for programs that drive it by IN and OUT.
 */
module Z80DiskPort {
  import opened Bytes
  import opened Wrappers
  import opened Z80State
  import opened Z80Exec
  import opened Z80Ed
  import opened Z80Step
  import opened Z80Ports
  import Z80Disk

  // ---- What is behind the ports -----------------------------------------------------------

  datatype Device = Uart | Disk | Nothing

  /** The port map. */
  function Behind(port: byte): Device {
    if port == 0xFE || port == 0xFF then Uart
    else if 0xF0 <= port <= 0xF7 then Disk
    else Nothing
  }

  predicate InWindow(a: word, p: word) { W(a - p) < Z80Disk.SECTOR }

  /** What the disk stores in RAM on a READ it accepts. */
  function SectorStores(d: Z80Disk.Disk): map<word, byte>
    requires Z80Disk.CanRead(d)
  {
    Z80Disk.OffsetExact(d);
    var bs := Z80Disk.Sector(d.image, d.lba);
    map a: word | 0 <= a < 0x10000 && InWindow(a, d.bufPtr) :: bs[W(a - d.bufPtr)]
  }

  /** What the board does at an access, with `uart` the byte the UART would answer. */
  function AnswerTo(d: Z80Disk.Disk, a: Access, uart: byte): Answer {
    match a
    case Read(p) =>
      Answer(match Behind(p) case Uart => uart case Disk => Z80Disk.ReadIo(d, p) case Nothing => 0xFF, map[])
    case Write(p, v) => Answer(0xFF, if p == 0xF5 && v == 1 && Z80Disk.CanRead(d) then SectorStores(d) else map[])
  }

  // ---- The board ----------------------------------------------------------------------------

  datatype Board = Board(cpu: Cpu, disk: Z80Disk.Disk)

  /** One ExecuteOne with the interrupt lines at the given levels, or what the host does to the disk. */
  datatype Turn =
    | Execute(nmi: bool, irq: bool, uart: byte)
    | Mount(bytes: seq<byte>, protect: bool)
    | ResetDisk

  function WithLines(s: Cpu, nmi: bool, irq: bool): Cpu { s.(ints := s.ints.(nmi := nmi, irq := irq)) }

  /** The CPU before a turn: its lines set, and the board's answer ready for the access it will make. */
  function Wired(b: Board, t: Turn): Cpu
    requires t.Execute?
  {
    var s := WithLines(b.cpu, t.nmi, t.irq);
    match NextAccess(s)
    case None => s
    case Some(a) => s.(bus := s.bus.(answers := [AnswerTo(b.disk, a, t.uart)]))
  }

  /** The disk after the access: only a write to one of its own ports moves it. */
  function DiskAfter(s: Cpu, d: Z80Disk.Disk): Z80Disk.Disk {
    match NextAccess(s)
    case Some(Write(p, v)) => if Behind(p).Disk? then Z80Disk.WriteIo(Z80Disk.State(d, s.ram), p, v).disk else d
    case _ => d
  }

  function TurnOf(b: Board, t: Turn): Board {
    match t
    case Execute(_, _, _) => var s := Wired(b, t); Board(Step(s).s, DiskAfter(s, b.disk))
    case Mount(bytes, protect) => b.(disk := Z80Disk.Disk(bytes, protect, 0, 0, false))
    case ResetDisk => b.(disk := b.disk.(lba := 0, bufPtr := 0, error := false))
  }

  function RunBoard(b: Board, ts: seq<Turn>): Board
    decreases |ts|
  {
    if ts == [] then b else RunBoard(TurnOf(b, ts[0]), ts[1..])
  }

  // ---- The device's view ----------------------------------------------------------------------

  function View(b: Board): Z80Disk.State { Z80Disk.State(b.disk, b.cpu.ram) }

  /** What a turn is to the device: a port write, or RAM as the instruction leaves it. */
  function EventOf(b: Board, t: Turn): Z80Disk.Event {
    match t
    case Mount(bytes, protect) => Z80Disk.Mount(bytes, protect)
    case ResetDisk => Z80Disk.ResetDevice
    case Execute(_, _, _) =>
      match NextAccess(Wired(b, t))
      case Some(Write(p, v)) => Z80Disk.PortWrite(p, v)
      case _ => Z80Disk.Guest(TurnOf(b, t).cpu.ram)
  }

  function Events(b: Board, ts: seq<Turn>): seq<Z80Disk.Event>
    decreases |ts|
  {
    if ts == [] then [] else [EventOf(b, ts[0])] + Events(TurnOf(b, ts[0]), ts[1..])
  }

  lemma StoresAreBlit(ram: Ram, d: Z80Disk.Disk)
    requires Z80Disk.CanRead(d)
    ensures Stored(ram, SectorStores(d)) == Z80Disk.Command(Z80Disk.State(d, ram), 1).ram
  {
    hide W, Z80Disk.InImage;
    Z80Disk.OffsetExact(d);
    var bs := Z80Disk.Sector(d.image, d.lba);
    forall a | 0 <= a < 0x10000
      ensures StoredAt(ram, SectorStores(d), a) == Z80Disk.BlitAt(ram, d.bufPtr, bs, a)
    {
    }
  }

  lemma NothingStored(ram: Ram)
    ensures Stored(ram, map[]) == ram
  {
  }

  /** A port write does to RAM what the board's answer stores. */
  lemma WriteStores(d: Z80Disk.Disk, ram: Ram, p: byte, v: byte, uart: byte)
    ensures Stored(ram, AnswerTo(d, Write(p, v), uart).stores) == Z80Disk.WriteIo(Z80Disk.State(d, ram), p, v).ram
    ensures !Behind(p).Disk? ==> Z80Disk.WriteIo(Z80Disk.State(d, ram), p, v).disk == d
  {
    hide Stored, SectorStores, Z80Disk.CanRead, Z80Disk.Blit, Z80Disk.CanWrite, Z80Disk.PutSector, Pair, Hi, Lo;
    NothingStored(ram);
    if p == 0xF5 && v == 1 && Z80Disk.CanRead(d) { StoresAreBlit(ram, d); }
  }

  lemma SameLines(b: Board, t: Turn)
    requires t.Execute?
    ensures NextAccess(Wired(b, t)) == NextAccess(WithLines(b.cpu, t.nmi, t.irq))
    ensures Wired(b, t).ram == b.cpu.ram
  {
    hide BumpR, W, Hi, Lo, AnswerTo;
  }

  /** One turn of the board is one step of the device. */
  lemma TurnIsStep(b: Board, t: Turn)
    ensures View(TurnOf(b, t)) == Z80Disk.Step(View(b), EventOf(b, t))
  {
    hide Step, NextAccess, Stored, Z80Disk.WriteIo, AnswerTo;
    if t.Execute? {
      var s := Wired(b, t);
      AccessExact(s);
      SameLines(b, t);
      match NextAccess(s)
      case Some(Write(p, v)) => WriteStores(b.disk, b.cpu.ram, p, v, t.uart);
      case _ =>
    }
  }

  /** Any program and any host: the board runs the device's steps, one a turn. */
  lemma {:induction false} RunIsSteps(b: Board, ts: seq<Turn>)
    ensures View(RunBoard(b, ts)) == Z80Disk.Run(View(b), Events(b, ts))
    decreases |ts|
  {
    hide TurnOf, EventOf, Z80Disk.Step;
    if ts != [] {
      TurnIsStep(b, ts[0]);
      RunIsSteps(TurnOf(b, ts[0]), ts[1..]);
      var es := Events(b, ts);
      assert es[0] == EventOf(b, ts[0]) && es[1..] == Events(TurnOf(b, ts[0]), ts[1..]);
    }
  }

  /** IN A,(p) from a port of the disk: A gets what the port reads, and the disk stays as it is. */
  lemma InReadsPort(b: Board, t: Turn)
    requires t.Execute? && Quiet(WithLines(b.cpu, t.nmi, t.irq)) && Imm8(b.cpu) == 0xDB
    requires Behind(Imm8(Fetched(b.cpu))).Disk?
    ensures var c := TurnOf(b, t);
            RegA(c.cpu) == Z80Disk.ReadIo(b.disk, Imm8(Fetched(b.cpu))) && c.disk == b.disk && c.cpu.ram == b.cpu.ram
  {
    hide BumpR, W, Lo, Stored, Z80Step.Execute, EdAccess, Behind;
    NothingStored(b.cpu.ram);
    SameLines(b, t);
    InRow(Undelayed(Armed(Wired(b, t))));
  }

  lemma InRow(s: Cpu)
    requires Imm8(s) == 0xDB
    ensures var u := Z80Step.Execute(s).s;
            RegA(u) == PortValue(s) && u.ram == Stored(s.ram, NextAnswer(s.bus).stores)
  {
    hide PrefixDdFd, PrefixEd, Quad0, LdReg, AluReg, X3Z0, X3Z1, X3Z2, X3Z4, X3Z5, X3Z6, X3Z7, Cb, Stored, BumpR, W, Lo;
    PairParts(PortValue(s), Lo(s.af));
  }

  predicate Quiet(s: Cpu) { !BreakpointHit(s) && !s.ints.nmi && !IrqTaken(s) && !s.ints.halted }

  // ---- WRITE, then READ -----------------------------------------------------------------------

  /** The turn executes OUT (F5),A with the given command in A. */
  predicate Commands(b: Board, t: Turn, cmd: byte) {
    && t.Execute? && Quiet(WithLines(b.cpu, t.nmi, t.irq))
    && Imm8(b.cpu) == 0xD3 && Imm8(Fetched(b.cpu)) == 0xF5 && RegA(b.cpu) == cmd
  }

  lemma CommandEvent(b: Board, t: Turn, cmd: byte)
    requires Commands(b, t, cmd)
    ensures EventOf(b, t) == Z80Disk.PortWrite(0xF5, cmd)
  {
    hide BumpR, W, Hi, Lo, Step, AnswerTo, EdAccess;
    SameLines(b, t);
  }

  /** One OUT to the command port does to disk and RAM what the device's command does. */
  lemma OutCommands(b: Board, t: Turn, cmd: byte)
    requires Commands(b, t, cmd)
    ensures View(TurnOf(b, t)) == Z80Disk.Command(View(b), cmd)
  {
    hide TurnOf, EventOf, Commands, Z80Disk.Command;
    CommandEvent(b, t, cmd);
    TurnIsStep(b, t);
  }

  /** Neither a mount nor a WRITE to sector n. */
  predicate Spares(b: Board, t: Turn, n: nat) { !t.Mount? && !Z80Disk.Writes(View(b), EventOf(b, t), n) }

  predicate AllSpare(b: Board, ts: seq<Turn>, n: nat)
    decreases |ts|
  {
    ts == [] || (Spares(b, ts[0], n) && AllSpare(TurnOf(b, ts[0]), ts[1..], n))
  }

  lemma {:induction false} SparedSector(b: Board, ts: seq<Turn>, n: nat)
    requires AllSpare(b, ts, n)
    ensures Z80Disk.NoMount(Events(b, ts)) && Z80Disk.Untouched(View(b), Events(b, ts), n)
    decreases |ts|
  {
    hide TurnOf, Z80Disk.Step, Z80Disk.Writes;
    if ts != [] {
      TurnIsStep(b, ts[0]);
      SparedSector(TurnOf(b, ts[0]), ts[1..], n);
      var es := Events(b, ts);
      assert es[0] == EventOf(b, ts[0]) && es[1..] == Events(TurnOf(b, ts[0]), ts[1..]);
      assert forall i :: 1 <= i < |es| ==> es[i] == es[1..][i - 1];
    }
  }

  /**
   OUT (F5),A with A = 2, then any instructions, interrupts and resets that do not write that
   sector, then OUT (F5),A with A = 1: the 128 bytes the buffer held at the first are in RAM
   where the buffer pointer points at the last, everything else in RAM is as it was before it.
   */
  lemma OutWriteThenOutRead(b: Board, w: Turn, ts: seq<Turn>, r: Turn)
    requires Commands(b, w, 2) && Z80Disk.CanWrite(b.disk) && AllSpare(TurnOf(b, w), ts, b.disk.lba)
    requires var c := RunBoard(TurnOf(b, w), ts); Commands(c, r, 1) && c.disk.lba == b.disk.lba
    ensures var c := RunBoard(TurnOf(b, w), ts);
            var e := TurnOf(c, r);
            var q := c.disk.bufPtr;
            && Z80Disk.Window(e.cpu.ram, q, Z80Disk.SECTOR)
               == Z80Disk.Window(b.cpu.ram, b.disk.bufPtr, Z80Disk.SECTOR)
            && e.disk == c.disk
            && forall a :: 0 <= a < 0x10000 && W(a - q) >= Z80Disk.SECTOR ==> e.cpu.ram[a] == c.cpu.ram[a]
  {
    hide TurnOf, EventOf, Commands, Z80Disk.Step, Z80Disk.Window, Z80Disk.CanWrite, Z80Disk.CanRead, W;
    var b1 := TurnOf(b, w);
    CommandEvent(b, w, 2);
    TurnIsStep(b, w);
    RunIsSteps(b1, ts);
    SparedSector(b1, ts, b.disk.lba);
    var c := RunBoard(b1, ts);
    CommandEvent(c, r, 1);
    TurnIsStep(c, r);
    Z80Disk.WriteThenRead(View(b), Events(b1, ts));
  }
}
