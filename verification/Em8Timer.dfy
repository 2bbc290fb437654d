/**
 The EM8 timer (em8/src/Em8Timer.cpp; z8000/src/Z8000Timer.cpp counts the same way): a loop
 of one turn per CPU cycle, against its constant-time meaning.
 */
module Em8Timer {
  import opened Bytes

  /** Control bits: 0 enable, 1 auto-reload, 2 interrupt enable. */
  datatype Timer = Timer(reload: word, counter: word, cr: byte, overflow: bool)

  predicate Enabled(t: Timer) { t.cr % 2 == 1 }
  predicate AutoReload(t: Timer) { t.cr / 2 % 2 == 1 }
  predicate IrqPending(t: Timer) { t.overflow && t.cr / 4 % 2 == 1 }

  /** One cycle of an enabled timer. */
  function Cycle(t: Timer): Timer {
    if t.counter > 0 then t.(counter := t.counter - 1)
    else if AutoReload(t) then t.(counter := t.reload, overflow := true)
    else t.(cr := if Enabled(t) then t.cr - 1 else t.cr, overflow := true)
  }

  /** n cycles at once. The counter runs out every reload + 1 cycles. */
  function Ticked(t: Timer, n: nat): Timer {
    if !Enabled(t) || n == 0 then t
    else if n <= t.counter then t.(counter := t.counter - n)
    else if AutoReload(t) then
      t.(counter := t.reload - (n - t.counter - 1) % (t.reload + 1), overflow := true)
    else t.(counter := 0, cr := t.cr - 1, overflow := true)
  }

  lemma ModStep(a: nat, m: nat)
    requires m > 0
    ensures (a + 1) % m == if a % m == m - 1 then 0 else a % m + 1
  {
    var q, r := a / m, a % m;
    assert a == q * m + r;
    if r == m - 1 {
      assert a + 1 == (q + 1) * m;
      Division(a + 1, m, q + 1, 0);
    } else {
      Division(a + 1, m, q, r + 1);
    }
  }

  /** One more cycle. */
  lemma TickedThenCycle(t: Timer, n: nat)
    ensures Ticked(t, n + 1) == if Enabled(Ticked(t, n)) then Cycle(Ticked(t, n)) else Ticked(t, n)
  {
    if Enabled(t) && n > t.counter && AutoReload(t) { ModStep(n - t.counter - 1, t.reload + 1); }
    if n == t.counter { assert 0 % (t.reload + 1) == 0; }
  }

  /** Ticking in two stretches is ticking once: the timer cannot tell how cycles are batched. */
  lemma {:induction false} TickedAdds(t: Timer, a: nat, b: nat)
    ensures Ticked(Ticked(t, a), b) == Ticked(t, a + b)
    decreases b
  {
    hide Ticked, Cycle, Enabled;
    if b == 0 {
      NoCycles(Ticked(t, a));
    } else {
      TickedAdds(t, a, b - 1);
      TickedThenCycle(Ticked(t, a), b - 1);
      TickedThenCycle(t, a + b - 1);
    }
  }

  lemma NoCycles(t: Timer)
    ensures Ticked(t, 0) == t
  {
  }

  /** The interrupt condition: it overflows exactly when it was enabled and given more cycles than its count. */
  lemma OverflowsWhen(t: Timer, n: nat)
    ensures Ticked(t, n).overflow <==> t.overflow || (Enabled(t) && n > t.counter)
    ensures Enabled(Ticked(t, n)) <==> Enabled(t) && (AutoReload(t) || n <= t.counter)
  {
  }

  lemma Stays(t: Timer, n: int)
    requires !Enabled(t)
    ensures n >= 0 ==> Ticked(t, n) == t
  {
  }

  // ---- Registers ------------------------------------------------------------------------

  /** What a register read returns. */
  function ReadBack(t: Timer, offset: byte): byte {
    match offset
    case 0 => Lo(t.reload)
    case 1 => Hi(t.reload)
    case 2 => Lo(t.counter)
    case 3 => Hi(t.counter)
    case 4 => t.cr
    case 5 => Num(t.overflow)
    case _ => 0
  }

  /** A register write. */
  function Written(t: Timer, offset: byte, val: byte): Timer {
    match offset
    case 0 => t.(reload := Pair(Hi(t.reload), val))
    case 1 => t.(reload := Pair(val, Lo(t.reload)))
    case 4 => t.(cr := val, counter := if val % 2 == 1 then t.reload else t.counter)
    case 6 => t.(overflow := false)
    case _ => t
  }

  /**
   What a write does to every register: reload and control read back what was written,
   starting the timer copies reload into the counter, the acknowledge register clears the
   status, and nothing else changes.
   */
  lemma WriteReads(t: Timer, offset: byte, val: byte, other: byte)
    ensures ReadBack(Written(t, offset, val), other) ==
            if other == offset && (offset < 2 || offset == 4) then val
            else if offset == 4 && val % 2 == 1 && (other == 2 || other == 3) then ReadBack(t, other - 2)
            else if offset == 6 && other == 5 then 0
            else ReadBack(t, other)
  {
    hide Hi, Lo, Pair;
    PairParts(Hi(t.reload), val);
    PairParts(val, Lo(t.reload));
  }

  /**
   Writing a control byte with the enable bit starts a countdown of exactly reload + 1 cycles
   to overflow, whatever the counter held; the interrupt line follows if the byte enables it.
   Without the enable bit nothing overflows any more.
   */
  lemma StartsCountdown(t: Timer, val: byte, n: nat)
    ensures var u := Ticked(Written(t, 4, val), n);
            && (u.overflow <==> t.overflow || (val % 2 == 1 && n >= t.reload + 1))
            && (IrqPending(u) <==> u.overflow && val / 4 % 2 == 1)
  {
    OverflowsWhen(Written(t, 4, val), n);
    TickedKeepsIrqEnable(Written(t, 4, val), n);
  }

  lemma TickedKeepsIrqEnable(t: Timer, n: nat)
    ensures Ticked(t, n).cr / 2 == t.cr / 2 && Ticked(t, n).reload == t.reload
  {
  }

  /** An auto-reloading timer is back at its reload value after every reload + 1 cycles. */
  lemma Periodic(t: Timer, k: nat)
    requires Enabled(t) && AutoReload(t) && t.counter == t.reload
    ensures Ticked(t, k * (t.reload + 1)).counter == t.reload
  {
    if k > 0 {
      var m := t.reload + 1;
      assert k * m - t.counter - 1 == (k - 1) * m;
      assert k * m >= m;
      Division((k - 1) * m, m, k - 1, 0);
    }
  }

  /**
   A periodic interrupt: started with auto-reload and acknowledged after any whole number of
   periods, the timer overflows again after exactly reload + 1 more cycles.
   */
  lemma NextPeriod(t: Timer, val: byte, k: nat, ack: byte, n: nat)
    requires val % 2 == 1 && val / 2 % 2 == 1
    ensures var u := Written(Ticked(Written(t, 4, val), k * (t.reload + 1)), 6, ack);
            Ticked(u, n).overflow <==> n >= t.reload + 1
  {
    hide Ticked;
    var s := Written(t, 4, val);
    var c := k * (t.reload + 1);
    Periodic(s, k);
    OverflowsWhen(s, c);
    var u := Written(Ticked(s, c), 6, ack);
    OverflowsWhen(u, n);
  }

  class TimerDevice {
    var Reload: word
    var Counter: word
    var Cr: byte
    var Overflow: bool

    ghost function State(): Timer
      reads this
    {
      Timer(Reload, Counter, Cr, Overflow)
    }

    constructor ()
      ensures State() == Timer(0, 0, 0, false)
    {
      Reload, Counter, Cr, Overflow := 0, 0, 0, false;
    }

    /** The per-cycle loop. A negative count does nothing. */
    method Tick(cycles: int)
      modifies this
      ensures State() == if cycles < 0 then old(State()) else Ticked(old(State()), cycles)
    {
      hide Ticked;
      NoCycles(State());
      if Cr % 2 == 0 {
        Stays(State(), cycles);
        return;
      }
      var i := 0;
      while i < cycles
        invariant 0 <= i && (i <= cycles || i == 0)
        invariant State() == Ticked(old(State()), i) && Enabled(State())
      {
        TickedThenCycle(old(State()), i);
        if Counter == 0 {
          Overflow := true;
          if Cr / 2 % 2 == 1 {
            Counter := Reload;
          } else {
            Cr := Cr - 1;
            TickedAdds(old(State()), i + 1, cycles - i - 1);
            Stays(State(), cycles - i - 1);
            return;
          }
        } else {
          Counter := Counter - 1;
        }
        i := i + 1;
      }
    }

    method HasPendingIrq() returns (irq: bool)
      ensures irq == IrqPending(State())
    {
      irq := Overflow && Cr / 4 % 2 == 1;
    }

    method ReadReg(offset: byte) returns (v: byte)
      ensures v == ReadBack(State(), offset)
    {
      match offset
      case 0 => v := Reload % 0x100;
      case 1 => v := Reload / 0x100;
      case 2 => v := Counter % 0x100;
      case 3 => v := Counter / 0x100;
      case 4 => v := Cr;
      case 5 => v := if Overflow then 1 else 0;
      case _ => v := 0;
    }

    /** A register write. Setting the enable bit loads the counter. */
    method WriteReg(offset: byte, val: byte)
      modifies this
      ensures State() == Written(old(State()), offset, val)
    {
      match offset
      case 0 => Reload := Reload / 0x100 * 0x100 + val;
      case 1 => Reload := Reload % 0x100 + val * 0x100;
      case 4 =>
        Cr := val;
        if val % 2 == 1 { Counter := Reload; }
      case 6 => Overflow := false;
      case _ =>
    }
  }
}
