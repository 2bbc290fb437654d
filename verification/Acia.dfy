/**
 The MC6850 console chip and the host-side staging queue of the MC6809 plugin
 (mc6809/src/lib.rs): bytes travel host -> staging queue -> chip FIFO -> guest.
 */
module Acia {
  import opened Bytes

  const RX_FIFO_MAX: nat := 16
  const HOST_RX_CAP: nat := 1024

  // ---- The chip -------------------------------------------------------------------------

  datatype Chip = Chip(cds: int, txIrqEnable: bool, rie: bool, rxFifo: seq<byte>,
                       rdrf: bool, rxOverrun: bool, tdre: bool, inMasterReset: bool)

  /** The state of a new chip and after a hard reset. */
  const RESET: Chip := Chip(3, false, false, [], false, false, false, true)

  predicate IrqActive(c: Chip) { (c.rdrf && c.rie) || (c.tdre && c.txIrqEnable) }

  /** The status register. */
  function Sr(c: Chip): byte {
    Num(c.rdrf) + 2 * Num(c.tdre) + 0x20 * Num(c.rxOverrun) + 0x80 * Num(IrqActive(c))
  }

  function Rdr(c: Chip): byte { if c.rxFifo == [] then 0 else c.rxFifo[0] }

  function AfterRdr(c: Chip): Chip {
    var rest := if c.rxFifo == [] then [] else c.rxFifo[1..];
    c.(rxFifo := rest, rdrf := rest != [], rxOverrun := false)
  }

  function AfterCr(c: Chip, v: byte): Chip {
    var d := c.(cds := v % 4, txIrqEnable := v / 0x20 % 4 == 1, rie := v >= 0x80);
    if v % 4 == 3 then
      d.(inMasterReset := true, tdre := false, rdrf := false, rxOverrun := false, rxFifo := [])
    else if d.inMasterReset then d.(inMasterReset := false, tdre := true)
    else d
  }

  function AfterTdr(c: Chip): Chip { if c.inMasterReset then c else c.(tdre := true) }

  predicate CanReceive(c: Chip) { !c.inMasterReset && |c.rxFifo| < RX_FIFO_MAX }

  function Receive(c: Chip, b: byte): Chip {
    if c.inMasterReset then c
    else if |c.rxFifo| >= RX_FIFO_MAX then c.(rxOverrun := true)
    else c.(rxFifo := c.rxFifo + [b], rdrf := true)
  }

  // ---- The whole path -------------------------------------------------------------------

  datatype Link = Link(chip: Chip, pending: seq<byte>)

  /** Everything the host thread, the worker thread and the guest can do, one atomic step each. */
  datatype Event =
    | SendChar(ch: byte)
    | SendString(text: seq<byte>)
    | Drain(locked: bool)
    | ReadRdr
    | WriteCr(cr: byte)
    | WriteTdr(ch: byte)
    | HardReset

  function TxSpace(s: Link): nat { if |s.pending| >= HOST_RX_CAP then 0 else HOST_RX_CAP - |s.pending| }

  /** The bytes of a send that still fit. */
  function Fitting(s: Link, text: seq<byte>): seq<byte> {
    if |text| <= TxSpace(s) then text else text[..TxSpace(s)]
  }

  function DrainTo(s: Link): Link
    decreases |s.pending|
  {
    if !CanReceive(s.chip) || s.pending == [] then s
    else DrainTo(Link(Receive(s.chip, s.pending[0]), s.pending[1..]))
  }

  function Step(s: Link, e: Event): Link {
    match e
    case SendChar(ch) => s.(pending := s.pending + Fitting(s, [ch]))
    case SendString(text) => s.(pending := s.pending + Fitting(s, text))
    case Drain(locked) => if locked then DrainTo(s) else s
    case ReadRdr => s.(chip := AfterRdr(s.chip))
    case WriteCr(v) => s.(chip := AfterCr(s.chip, v))
    case WriteTdr(_) => s.(chip := AfterTdr(s.chip))
    case HardReset => s.(chip := RESET)
  }

  /** What becomes of a byte: the guest reads it, or a reset of the chip throws it away. */
  datatype Fate = Delivered(ch: byte) | Discarded(ch: byte)

  function Discard(bs: seq<byte>): seq<Fate> { seq(|bs|, i requires 0 <= i < |bs| => Discarded(bs[i])) }

  function Chars(fs: seq<Fate>): seq<byte> { seq(|fs|, i requires 0 <= i < |fs| => fs[i].ch) }

  /** The bytes an event offers to the queue, those the queue accepts, and those that leave the chip. */
  function Offers(e: Event): seq<byte> {
    match e
    case SendChar(ch) => [ch]
    case SendString(text) => text
    case _ => []
  }

  function Accepts(s: Link, e: Event): seq<byte> { Fitting(s, Offers(e)) }

  function Leaves(s: Link, e: Event): seq<Fate> {
    match e
    case ReadRdr => if s.chip.rxFifo == [] then [] else [Delivered(Rdr(s.chip))]
    case WriteCr(v) => if v % 4 == 3 then Discard(s.chip.rxFifo) else []
    case HardReset => Discard(s.chip.rxFifo)
    case _ => []
  }

  function Run(s: Link, es: seq<Event>): Link
    decreases |es|
  {
    if es == [] then s else Run(Step(s, es[0]), es[1..])
  }

  function Offered(es: seq<Event>): seq<byte> {
    if es == [] then [] else Offers(es[0]) + Offered(es[1..])
  }

  function Accepted(s: Link, es: seq<Event>): seq<byte>
    decreases |es|
  {
    if es == [] then [] else Accepts(s, es[0]) + Accepted(Step(s, es[0]), es[1..])
  }

  function Gone(s: Link, es: seq<Event>): seq<Fate>
    decreases |es|
  {
    if es == [] then [] else Leaves(s, es[0]) + Gone(Step(s, es[0]), es[1..])
  }

  /** What holds of every reachable chip and queue. */
  predicate Inv(s: Link) {
    var c := s.chip;
    && (c.rdrf <==> c.rxFifo != [])
    && (c.tdre <==> !c.inMasterReset)
    && (c.inMasterReset <==> c.cds == 3)
    && (c.inMasterReset ==> c.rxFifo == [])
    && |c.rxFifo| <= RX_FIFO_MAX
    && !c.rxOverrun
    && |s.pending| <= HOST_RX_CAP
  }

  /** All bytes under way, oldest first. */
  function UnderWay(s: Link): seq<byte> { s.chip.rxFifo + s.pending }

  // ---- Conservation ---------------------------------------------------------------------

  lemma {:induction false} DrainKeeps(s: Link)
    requires Inv(s)
    ensures var t := DrainTo(s);
            && Inv(t) && UnderWay(t) == UnderWay(s)
            && t.chip.inMasterReset == s.chip.inMasterReset
            && (CanReceive(t.chip) ==> t.pending == [])
    decreases |s.pending|
  {
    if CanReceive(s.chip) && s.pending != [] {
      var t := Link(Receive(s.chip, s.pending[0]), s.pending[1..]);
      assert UnderWay(t) == UnderWay(s);
      DrainKeeps(t);
    }
  }

  /** Event e keeps the invariant and neither loses, invents nor reorders a byte. */
  predicate Conserves(s: Link, e: Event) {
    && Inv(Step(s, e))
    && Chars(Leaves(s, e)) + UnderWay(Step(s, e)) == UnderWay(s) + Accepts(s, e)
  }

  lemma CharsOf(bs: seq<byte>)
    ensures Chars([]) == [] && Chars(Discard(bs)) == bs
  {
  }

  lemma SendConserves(s: Link, e: Event)
    requires Inv(s) && (e.SendChar? || e.SendString?)
    ensures Conserves(s, e)
  {
    hide Chars;
    CharsOf([]);
  }

  lemma DrainConserves(s: Link, locked: bool)
    requires Inv(s)
    ensures Conserves(s, Drain(locked))
  {
    hide Chars, DrainTo;
    CharsOf([]);
    DrainKeeps(s);
  }

  lemma ReadConserves(s: Link)
    requires Inv(s)
    ensures Conserves(s, ReadRdr)
  {
    if s.chip.rxFifo != [] { assert Chars([Delivered(Rdr(s.chip))]) == [s.chip.rxFifo[0]]; }
  }

  lemma ResetConserves(s: Link, e: Event)
    requires Inv(s) && (e.WriteCr? || e.HardReset?)
    ensures Conserves(s, e)
  {
    hide Chars, Discard;
    CharsOf(s.chip.rxFifo);
  }

  lemma WriteConserves(s: Link, ch: byte)
    requires Inv(s)
    ensures Conserves(s, WriteTdr(ch))
  {
    hide Chars;
    CharsOf([]);
  }

  lemma StepConserves(s: Link, e: Event)
    requires Inv(s)
    ensures Inv(Step(s, e))
    ensures Chars(Leaves(s, e)) + UnderWay(Step(s, e)) == UnderWay(s) + Accepts(s, e)
  {
    hide Inv, Step, Chars, Leaves, UnderWay, Accepts;
    match e
    case SendChar(_) => SendConserves(s, e);
    case SendString(_) => SendConserves(s, e);
    case Drain(locked) => DrainConserves(s, locked);
    case ReadRdr => ReadConserves(s);
    case WriteCr(_) => ResetConserves(s, e);
    case WriteTdr(ch) => WriteConserves(s, ch);
    case HardReset => ResetConserves(s, e);
  }

  lemma CharsAppend(a: seq<Fate>, b: seq<Fate>)
    ensures Chars(a + b) == Chars(a) + Chars(b)
  {
  }

  /**
   Over any interleaving: the bytes that were under way and then the accepted ones, in that
   order, are exactly the bytes that left the chip and then those still under way.
   */
  lemma {:induction false} Conservation(s: Link, es: seq<Event>)
    requires Inv(s)
    ensures Inv(Run(s, es))
    ensures Chars(Gone(s, es)) + UnderWay(Run(s, es)) == UnderWay(s) + Accepted(s, es)
    decreases |es|
  {
    if es == [] {
      assert Chars([]) + UnderWay(s) == UnderWay(s) + [];
    } else {
      hide Step, Inv, UnderWay, Leaves, Accepts;
      var t := Step(s, es[0]);
      StepConserves(s, es[0]);
      Conservation(t, es[1..]);
      CharsAppend(Leaves(s, es[0]), Gone(t, es[1..]));
      Chain(Chars(Leaves(s, es[0])), UnderWay(t), Chars(Gone(t, es[1..])), UnderWay(Run(t, es[1..])),
            UnderWay(s), Accepts(s, es[0]), Accepted(t, es[1..]));
    }
  }

  lemma Chain(out1: seq<byte>, mid: seq<byte>, out2: seq<byte>, end: seq<byte>,
              start: seq<byte>, in1: seq<byte>, in2: seq<byte>)
    requires out1 + mid == start + in1 && out2 + end == mid + in2
    ensures (out1 + out2) + end == start + (in1 + in2)
  {
    calc {
      (out1 + out2) + end;
      out1 + (out2 + end);
      out1 + (mid + in2);
      (out1 + mid) + in2;
      (start + in1) + in2;
      start + (in1 + in2);
    }
  }

  /** From power-on: accepted bytes = delivered or discarded ones, then chip FIFO, then queue. */
  lemma ByteStream(es: seq<Event>)
    ensures var s := Run(Link(RESET, []), es);
            && Inv(s)
            && Accepted(Link(RESET, []), es) == Chars(Gone(Link(RESET, []), es)) + s.chip.rxFifo + s.pending
  {
    hide Run, Accepted, Gone, Chars;
    var start := Link(RESET, []);
    Conservation(start, es);
    assert UnderWay(start) == [];
    var s := Run(start, es);
    var gone := Chars(Gone(start, es));
    assert [] + Accepted(start, es) == Accepted(start, es);
    assert gone + (s.chip.rxFifo + s.pending) == (gone + s.chip.rxFifo) + s.pending;
  }

  /** In every reachable state the status register tells the guest what the next RDR read does. */
  lemma StatusIsTruthful(s: Link)
    requires Inv(s)
    ensures Sr(s.chip) % 2 == 1 <==> Leaves(s, ReadRdr) != []
    ensures Sr(s.chip) % 2 == 1 ==> Leaves(s, ReadRdr) == [Delivered(UnderWay(s)[0])]
    ensures Sr(s.chip) / 2 % 2 == 1 <==> !s.chip.inMasterReset
    ensures Sr(s.chip) / 4 % 0x10 == 0 && Sr(s.chip) / 0x40 % 2 == 0
    ensures Sr(s.chip) >= 0x80 <==> IrqActive(s.chip)
  {
  }

  /**
   The interrupt line after a control register write v and any run without another one: bit 7
   of v asks for an interrupt while a byte waits, bits 6-5 = 01 for one whenever the
   transmitter is empty, which it always is out of master reset.
   */
  lemma InterruptEnable(s: Link, v: byte, es: seq<Event>)
    requires Inv(s) && v % 4 != 3
    requires forall i :: 0 <= i < |es| ==> !es[i].WriteCr? && !es[i].HardReset?
    ensures var c := Run(Step(s, WriteCr(v)), es).chip;
            && (Sr(c) >= 0x80 <==> IrqActive(c)) && !c.inMasterReset && c.cds == v % 4
            && (IrqActive(c) <==> (v >= 0x80 && c.rxFifo != []) || v / 0x20 % 4 == 1)
  {
    hide Run, Conserves;
    var t := Step(s, WriteCr(v));
    StepConserves(s, WriteCr(v));
    Conservation(t, es);
    EnablesStay(t, es);
  }

  lemma {:induction false} DrainEnables(s: Link)
    ensures DrainTo(s).chip == s.chip.(rxFifo := DrainTo(s).chip.rxFifo, rdrf := DrainTo(s).chip.rdrf,
                                       rxOverrun := DrainTo(s).chip.rxOverrun)
    decreases |s.pending|
  {
    if CanReceive(s.chip) && s.pending != [] { DrainEnables(Link(Receive(s.chip, s.pending[0]), s.pending[1..])); }
  }

  lemma {:induction false} EnablesStay(s: Link, es: seq<Event>)
    requires forall i :: 0 <= i < |es| ==> !es[i].WriteCr? && !es[i].HardReset?
    ensures var c := Run(s, es).chip;
            && c.rie == s.chip.rie && c.txIrqEnable == s.chip.txIrqEnable && c.cds == s.chip.cds
            && c.inMasterReset == s.chip.inMasterReset
    decreases |es|
  {
    if es != [] {
      assert !es[0].WriteCr? && !es[0].HardReset?;
      assert forall i :: 0 <= i < |es[1..]| ==> es[1..][i] == es[i + 1];
      DrainEnables(s);
      EnablesStay(Step(s, es[0]), es[1..]);
    }
  }

  /**
   A byte that meets a full FIFO is dropped and shows as bit 5 of the status until the next
   read; a read of an empty FIFO gives 0.
   */
  lemma OverrunShown(c: Chip, b: byte)
    requires !c.inMasterReset && c.rdrf == (c.rxFifo != []) && !c.rxOverrun
    ensures var d := Receive(c, b);
            && (if |c.rxFifo| >= 16 then d.rxFifo == c.rxFifo else d.rxFifo == c.rxFifo + [b])
            && (Sr(d) / 0x20 % 2 == 1 <==> |c.rxFifo| >= 16) && Sr(d) % 2 == 1
            && Sr(AfterRdr(d)) / 0x20 % 2 == 0
    ensures c.rxFifo == [] ==> Rdr(c) == 0 && AfterRdr(c).rxFifo == []
  {
  }

  // ---- Backpressure ---------------------------------------------------------------------

  lemma {:induction false} DrainShrinks(s: Link)
    ensures |DrainTo(s).pending| <= |s.pending|
    decreases |s.pending|
  {
    if CanReceive(s.chip) && s.pending != [] {
      DrainShrinks(Link(Receive(s.chip, s.pending[0]), s.pending[1..]));
    }
  }

  /** A host that sends no more than the space it was told, in any pieces and at any time, loses nothing. */
  lemma {:induction false} NoLoss(s: Link, es: seq<Event>)
    requires |Offered(es)| <= TxSpace(s)
    ensures Accepted(s, es) == Offered(es)
    decreases |es|
  {
    if es != [] {
      var t := Step(s, es[0]);
      if es[0].Drain? { DrainShrinks(s); }
      assert |t.pending| <= |s.pending| + |Offers(es[0])|;
      NoLoss(t, es[1..]);
    }
  }

  /** n rounds of a successful drain and a guest read. */
  function Polls(n: nat): seq<Event> { if n == 0 then [] else [Drain(true), ReadRdr] + Polls(n - 1) }

  function Deliver(bs: seq<byte>): seq<Fate> { seq(|bs|, i requires 0 <= i < |bs| => Delivered(bs[i])) }

  /** A drain fills the chip up to sixteen bytes; the queue takes 1024. */
  lemma {:induction false} DrainFills(s: Link)
    requires Inv(s) && !s.chip.inMasterReset
    ensures |DrainTo(s).chip.rxFifo| == if |UnderWay(s)| < 16 then |UnderWay(s)| else 16
    ensures TxSpace(s) + |s.pending| == 1024
    decreases |s.pending|
  {
    if CanReceive(s.chip) && s.pending != [] {
      DrainFills(Link(Receive(s.chip, s.pending[0]), s.pending[1..]));
    }
  }

  lemma OneRound(s: Link)
    requires Inv(s) && !s.chip.inMasterReset && UnderWay(s) != []
    ensures var t := Step(s, Drain(true));
            var u := Step(t, ReadRdr);
            && Inv(u) && !u.chip.inMasterReset && UnderWay(u) == UnderWay(s)[1..]
            && Leaves(s, Drain(true)) == [] && Leaves(t, ReadRdr) == [Delivered(UnderWay(s)[0])]
  {
    hide DrainTo;
    DrainKeeps(s);
    var t := DrainTo(s);
    assert t.chip.rxFifo != [] by {
      assert t.chip.rxFifo == [] ==> CanReceive(t.chip) && UnderWay(t) == [];
    }
    assert UnderWay(Step(t, ReadRdr)) == UnderWay(t)[1..];
  }

  lemma RoundThen(s: Link, rest: seq<Event>)
    ensures var t := Step(s, Drain(true));
            var u := Step(t, ReadRdr);
            var es := [Drain(true), ReadRdr] + rest;
            Run(s, es) == Run(u, rest) && Gone(s, es) == Leaves(s, Drain(true)) + (Leaves(t, ReadRdr) + Gone(u, rest))
  {
    hide Step, Leaves;
    var es := [Drain(true), ReadRdr] + rest;
    assert es[0] == Drain(true) && es[1..][0] == ReadRdr && es[1..][1..] == rest;
  }

  /** Out of master reset, every byte under way reaches the guest, in order, one a round. */
  lemma {:induction false} Delivery(s: Link, n: nat)
    requires Inv(s) && !s.chip.inMasterReset && n <= |UnderWay(s)|
    ensures Gone(s, Polls(n)) == Deliver(UnderWay(s)[..n])
    ensures UnderWay(Run(s, Polls(n))) == UnderWay(s)[n..]
    decreases n
  {
    hide Inv, UnderWay, Step, Leaves;
    if n > 0 {
      var u := Step(Step(s, Drain(true)), ReadRdr);
      OneRound(s);
      RoundThen(s, Polls(n - 1));
      Delivery(u, n - 1);
      var way := UnderWay(s);
      assert way[1..][..n - 1] == way[1..n];
    }
  }
}
