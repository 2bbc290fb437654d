/** The chip and the plugin's console path as they run: fields updated in place. */
module AciaMachine {
  import opened Bytes
  import opened Acia

  class Mc6850 {
    var cds: int
    var txIrqEnable: bool
    var rie: bool
    var rxFifo: seq<byte>
    var rdrf: bool
    var rxOverrun: bool
    var tdre: bool
    var inMasterReset: bool

    ghost function State(): Chip
      reads this
    {
      Chip(cds, txIrqEnable, rie, rxFifo, rdrf, rxOverrun, tdre, inMasterReset)
    }

    constructor ()
      ensures State() == RESET
    {
      cds, txIrqEnable, rie, rxFifo := 3, false, false, [];
      rdrf, rxOverrun, tdre, inMasterReset := false, false, false, true;
    }

    method HardReset()
      modifies this
      ensures State() == RESET
    {
      cds, txIrqEnable, rie, rxFifo := 3, false, false, [];
      rdrf, rxOverrun, tdre, inMasterReset := false, false, false, true;
    }

    method IrqLine() returns (irq: bool)
      ensures irq == IrqActive(State())
    {
      irq := (rdrf && rie) || (tdre && txIrqEnable);
    }

    method ReadSr() returns (s: byte)
      ensures s == Sr(State())
    {
      s := 0;
      if rdrf { s := s + 0x01; }
      if tdre { s := s + 0x02; }
      if rxOverrun { s := s + 0x20; }
      var irq := IrqLine();
      if irq { s := s + 0x80; }
    }

    method ReadRdr() returns (v: byte)
      modifies this
      ensures v == Rdr(old(State())) && State() == AfterRdr(old(State()))
    {
      v := 0;
      if rxFifo != [] { v, rxFifo := rxFifo[0], rxFifo[1..]; }
      rdrf := rxFifo != [];
      rxOverrun := false;
    }

    method WriteCr(val: byte)
      modifies this
      ensures State() == AfterCr(old(State()), val)
    {
      cds := val % 4;
      txIrqEnable := val / 0x20 % 4 == 1;
      rie := val >= 0x80;
      if cds == 3 {
        inMasterReset, tdre, rdrf, rxOverrun := true, false, false, false;
        rxFifo := [];
        return;
      }
      if inMasterReset { inMasterReset, tdre := false, true; }
    }

    /** The byte goes out at once unless the chip is held in reset. */
    method WriteTdr(val: byte) returns (transmitted: seq<byte>)
      modifies this
      ensures State() == AfterTdr(old(State()))
      ensures transmitted == if old(State()).inMasterReset then [] else [val]
    {
      transmitted := [];
      if inMasterReset { return; }
      transmitted := [val];
      tdre := true;
    }

    method ReceiveByte(ch: byte)
      modifies this
      ensures State() == Receive(old(State()), ch)
    {
      if inMasterReset { return; }
      if |rxFifo| >= RX_FIFO_MAX {
        rxOverrun := true;
        return;
      }
      rxFifo := rxFifo + [ch];
      rdrf := true;
    }
  }

  /**
   The plugin's side: the staging queue, and as ghost history all bytes ever accepted and all
   bytes that left the chip, which Valid ties to what the queue and the chip hold.
   */
  class Console {
    const acia: Mc6850
    var hostRxPending: seq<byte>
    ghost var accepted: seq<byte>
    ghost var gone: seq<Fate>

    ghost function State(): Link
      reads this, acia
    {
      Link(acia.State(), hostRxPending)
    }

    ghost predicate Valid()
      reads this, acia
    {
      Inv(State()) && Chars(gone) + UnderWay(State()) == accepted
    }

    constructor ()
      ensures Valid() && fresh(acia) && State() == Link(RESET, []) && accepted == [] && gone == []
    {
      acia := new Mc6850();
      hostRxPending, accepted, gone := [], [], [];
    }

    /** The history after event e from a valid state is that of the byte stream. */
    twostate lemma Track(e: Event)
      requires old(Valid()) && State() == Step(old(State()), e)
      requires accepted == old(accepted) + Accepts(old(State()), e)
      requires gone == old(gone) + Leaves(old(State()), e)
      ensures Valid()
    {
      hide Step, Inv, UnderWay, Accepts, Leaves;
      StepConserves(old(State()), e);
      CharsAppend(old(gone), Leaves(old(State()), e));
      Chain(Chars(old(gone)), UnderWay(old(State())), Chars(Leaves(old(State()), e)), UnderWay(State()),
            [], old(accepted), Accepts(old(State()), e));
      assert [] + old(accepted) == old(accepted);
      assert [] + (old(accepted) + Accepts(old(State()), e)) == accepted;
    }

    method Space() returns (n: nat)
      ensures n == TxSpace(State())
    {
      n := if |hostRxPending| >= HOST_RX_CAP then 0 else HOST_RX_CAP - |hostRxPending|;
    }

    method SendChar(ch: byte)
      requires Valid()
      modifies this
      ensures Valid() && State() == Step(old(State()), Event.SendChar(ch))
      ensures accepted == old(accepted) + Accepts(old(State()), Event.SendChar(ch)) && gone == old(gone)
    {
      if |hostRxPending| < HOST_RX_CAP { hostRxPending := hostRxPending + [ch]; }
      accepted := accepted + Accepts(old(State()), Event.SendChar(ch));
      assert gone == gone + [];
      Track(Event.SendChar(ch));
    }

    method SendString(text: seq<byte>)
      requires Valid()
      modifies this
      ensures Valid() && State() == Step(old(State()), Event.SendString(text))
      ensures accepted == old(accepted) + Accepts(old(State()), Event.SendString(text)) && gone == old(gone)
    {
      var i := 0;
      while i < |text|
        invariant 0 <= i <= |text|
        invariant hostRxPending == old(hostRxPending) + text[..i] && |hostRxPending| <= HOST_RX_CAP
        invariant accepted == old(accepted) && gone == old(gone)
      {
        if |hostRxPending| >= HOST_RX_CAP { break; }
        hostRxPending := hostRxPending + [text[i]];
        i := i + 1;
      }
      assert text[..i] == Fitting(old(State()), text);
      accepted := accepted + Accepts(old(State()), Event.SendString(text));
      assert gone == gone + [];
      Track(Event.SendString(text));
    }

    /** One worker step's hand-off; `locked` says whether try_lock got the queue. */
    method DrainHostRx(locked: bool)
      requires Valid()
      modifies this, acia
      ensures Valid() && State() == Step(old(State()), Drain(locked))
      ensures accepted == old(accepted) && gone == old(gone)
    {
      if locked {
        while !acia.inMasterReset && |acia.rxFifo| < RX_FIFO_MAX
          invariant DrainTo(State()) == DrainTo(old(State()))
          invariant accepted == old(accepted) && gone == old(gone)
          decreases |hostRxPending|
        {
          if hostRxPending == [] { break; }
          var b := hostRxPending[0];
          hostRxPending := hostRxPending[1..];
          acia.ReceiveByte(b);
        }
      }
      assert gone == gone + [] && accepted == accepted + [];
      Track(Drain(locked));
    }

    method ReadRdr() returns (v: byte)
      requires Valid()
      modifies this, acia
      ensures Valid() && State() == Step(old(State()), Event.ReadRdr) && v == Rdr(old(State()).chip)
      ensures accepted == old(accepted) && gone == old(gone) + Leaves(old(State()), Event.ReadRdr)
    {
      v := acia.ReadRdr();
      gone := gone + Leaves(old(State()), Event.ReadRdr);
      assert accepted == accepted + [];
      Track(Event.ReadRdr);
    }

    method WriteCr(val: byte)
      requires Valid()
      modifies this, acia
      ensures Valid() && State() == Step(old(State()), Event.WriteCr(val))
      ensures accepted == old(accepted) && gone == old(gone) + Leaves(old(State()), Event.WriteCr(val))
    {
      acia.WriteCr(val);
      gone := gone + Leaves(old(State()), Event.WriteCr(val));
      assert accepted == accepted + [];
      Track(Event.WriteCr(val));
    }

    method WriteTdr(val: byte) returns (transmitted: seq<byte>)
      requires Valid()
      modifies this, acia
      ensures Valid() && State() == Step(old(State()), Event.WriteTdr(val))
      ensures accepted == old(accepted) && gone == old(gone)
      ensures transmitted == if old(State()).chip.inMasterReset then [] else [val]
    {
      transmitted := acia.WriteTdr(val);
      assert gone == gone + [] && accepted == accepted + [];
      Track(Event.WriteTdr(val));
    }

    /** emfe_reset: the chip is reset, the staging queue survives. */
    method HardReset()
      requires Valid()
      modifies this, acia
      ensures Valid() && State() == Step(old(State()), Event.HardReset)
      ensures accepted == old(accepted) && gone == old(gone) + Leaves(old(State()), Event.HardReset)
    {
      acia.HardReset();
      gone := gone + Leaves(old(State()), Event.HardReset);
      assert accepted == accepted + [];
      Track(Event.HardReset);
    }
  }
}
