/** Specification functions of the TWI driver and the lemmas about them: the
    interrupt dispatcher's effect on the state, the register values and task
    traces of the start/stop sequences, the byte engines and the composed
    transactions, and the lifecycle guards. The methods of TwiDriver are
    proved against these functions. */
module TwiSpec {
  import opened TwiTypes

  // ---------------------------------------------------------------------
  // Interrupt dispatch
  // ---------------------------------------------------------------------

  /** The state the interrupt handler leaves behind when it runs in state `s`
      with the event flags `ev` pending. The handler tests STOPPED, RXDREADY,
      TXDSENT and SUSPENDED in this order and each pending one overwrites the
      state, so the last pending one in that order decides; ERROR and BB are
      acknowledged without touching the state. */
  function Dispatch(s: State, ev: Events): (r: State)
    ensures ev.suspended ==> r == Suspended
    ensures !ev.suspended && ev.txdSent ==> r == TxSent
    ensures !ev.suspended && !ev.txdSent && ev.rxdReady ==> r == RxReady
    ensures !ev.suspended && !ev.txdSent && !ev.rxdReady && ev.stopped ==> r == Stopped
    ensures !ev.suspended && !ev.txdSent && !ev.rxdReady && !ev.stopped ==> r == s
    ensures r == Disabled ==> s == Disabled
  {
    var afterStopped := if ev.stopped then Stopped else s;
    var afterRxdReady := if ev.rxdReady then RxReady else afterStopped;
    var afterTxdSent := if ev.txdSent then TxSent else afterRxdReady;
    if ev.suspended then Suspended else afterTxdSent
  }

  /** The tasks the interrupt handler triggers: RESUME on RXDREADY. */
  function IrqTasks(ev: Events): seq<Task> {
    if ev.rxdReady then [Resume] else []
  }

  /** ERROR and BB never influence the state the handler leaves. */
  lemma DispatchIgnoresErrorAndBb(s: State, ev: Events, error: bool, bb: bool)
    ensures Dispatch(s, ev.(error := error, bb := bb)) == Dispatch(s, ev)
  {
  }

  /** A spin-wait `while (State != to);` entered in state `from` ends after an
      interrupt delivering `d`: the handler's dispatch yields `to`. The
      peripheral raises RXDREADY exactly when the driver is waiting for a
      received byte. */
  predicate Awaits(d: Delivery, from: State, to: State) {
    Dispatch(from, d.events) == to && (d.events.rxdReady <==> to == RxReady)
  }

  predicate AllAwait(ds: seq<Delivery>, from: State, to: State) {
    forall k :: 0 <= k < |ds| ==> Awaits(ds[k], from, to)
  }

  /** A spin `while (State != to);` entered in state `from` returns at once
      when the state already is `to`; otherwise it ends after the interrupt
      delivering `d`. */
  predicate SpinEnds(d: Delivery, from: State, to: State) {
    from == to || Awaits(d, from, to)
  }

  /** What such a spin adds to the trace: nothing when it returns at once;
      otherwise the handler's RESUME when the awaited state is RxReady, and
      the end of the wait. */
  function SpinTrace(from: State, to: State): seq<Task> {
    if from == to then [] else (if to == RxReady then [Resume] else []) + [WaitDone(to)]
  }

  /** What each awaited state demands of the delivered events. */
  lemma AwaitedEvent(d: Delivery, from: State, to: State)
    requires Awaits(d, from, to) && from != to
    ensures to == Suspended ==> d.events.suspended
    ensures to == TxSent ==> d.events.txdSent && !d.events.suspended
    ensures to == RxReady ==> d.events.rxdReady && !d.events.txdSent && !d.events.suspended
    ensures to == Stopped ==> d.events.stopped && !d.events.rxdReady && !d.events.txdSent && !d.events.suspended
    ensures to != Disabled && to != Tx && to != Rx
  {
  }

  // ---------------------------------------------------------------------
  // Start and stop sequences
  // ---------------------------------------------------------------------

  /** `x |= 0x80` on a 32-bit register. */
  function SetBit7(x: u32): (r: u32)
    ensures (r / 0x80) % 2 == 1
    ensures r % 0x80 == x % 0x80 && r / 0x100 == x / 0x100
    ensures x < 0x100 ==> 0x80 <= r < 0x100
  {
    if (x / 0x80) % 2 == 1 then x
    else
      // bit 7 is clear: x = 0x100 * (x / 0x100) + x % 0x80
      assert x == 0x100 * (x / 0x100) + x % 0x80;
      x + 0x80
  }

  /** ADDRESS after the start sequence: the 8-bit address, with the read bit
      (bit 7) set for a receive. */
  function StartAddress(address: u8, xfer: Xfer): (r: u32)
    ensures r < 0x100 && r % 0x80 == address as u32 % 0x80
    ensures r >= 0x80 <==> (xfer.XferRx? || address >= 0x80)
  {
    if xfer.XferTx? then address as u32 else SetBit7(address as u32)
  }

  predicate HasShort(shorts: u32, mask: u32)
    requires mask > 0
  {
    (shorts / mask) % 2 == 1
  }

  /** SHORTS after the start sequence. */
  function StartShorts(size: u8, xfer: Xfer): (r: u32)
    ensures r < 4
    ensures xfer == XferTx ==> !HasShort(r, ShortsBbStop) && !HasShort(r, ShortsBbSuspend)
    ensures xfer == XferRx ==> (HasShort(r, ShortsBbStop) <==> size == 1)
    ensures xfer == XferRx ==> (HasShort(r, ShortsBbSuspend) <==> size != 1)
  {
    if xfer == XferTx then 0
    else if size == 1 then ShortsBbStop
    else ShortsBbSuspend
  }

  /** The trace of the start sequence in transmit direction entered in state
      `from`: ADDRESS, SHORTS cleared, STARTTX, SUSPEND, the wait for
      Suspended, and RESUME only after it. */
  function StartTxTrace(address: u8, from: State): seq<Task> {
    [AddressWrite(address as u32), ShortsWrite(0), StartTx, Suspend] +
    SpinTrace(from, Suspended) + [Resume]
  }

  /** The trace of the start sequence in receive direction entered in state
      `from`: ADDRESS, ADDRESS again with the read bit, the shortcut, SUSPEND,
      the wait for Suspended, then RESUME and STARTRX. */
  function StartRxTrace(address: u8, size: u8, from: State): seq<Task> {
    [AddressWrite(address as u32), AddressWrite(StartAddress(address, XferRx)),
     ShortsWrite(StartShorts(size, XferRx)), Suspend] +
    SpinTrace(from, Suspended) + [Resume, StartRx]
  }

  function StartTrace(address: u8, size: u8, xfer: Xfer, from: State): seq<Task> {
    if xfer.XferTx? then StartTxTrace(address, from) else StartRxTrace(address, size, from)
  }

  /** The trace of the stop sequence entered in state `from`: SHORTS cleared
      before STOP, then the wait for Stopped. */
  function StopTrace(from: State): seq<Task> {
    [ShortsWrite(0), Stop] + SpinTrace(from, Stopped)
  }

  // ---------------------------------------------------------------------
  // Byte engines
  // ---------------------------------------------------------------------

  /** The trace of transmitting `bs`: each byte written to TXD is followed by
      a wait for TxSent that needs an interrupt, because the state is set to
      Tx before every byte. */
  function TransmitTrace(bs: seq<u8>): (t: seq<Task>)
    ensures |t| == 2 * |bs|
  {
    if bs == [] then [] else [TxdWrite(bs[0]), WaitDone(TxSent)] + TransmitTrace(bs[1..])
  }

  /** Byte k of `bs` is the 2k-th entry of its transmit trace, and every
      other entry is the end of a wait for TxSent. */
  lemma {:induction false} TransmitTraceShape(bs: seq<u8>)
    ensures forall k :: 0 <= k < 2 * |bs| ==>
              TransmitTrace(bs)[k] == if k % 2 == 0 then TxdWrite(bs[k / 2]) else WaitDone(TxSent)
  {
    if bs != [] {
      TransmitTraceShape(bs[1..]);
    }
  }

  /** The trace of receiving `n` bytes: each wait for RxReady needs an
      interrupt, because the state is set to Rx before it, and the handler
      triggers RESUME on the RXDREADY that ends it. */
  function ReceiveTrace(n: nat): (t: seq<Task>)
    ensures |t| == 2 * n
  {
    if n == 0 then [] else [Resume, WaitDone(RxReady)] + ReceiveTrace(n - 1)
  }

  /** The receive trace alternates RESUME and the end of a wait for RxReady. */
  lemma {:induction false} ReceiveTraceShape(n: nat)
    ensures forall k :: 0 <= k < 2 * n ==>
              ReceiveTrace(n)[k] == if k % 2 == 0 then Resume else WaitDone(RxReady)
  {
    if n != 0 {
      var t := ReceiveTrace(n);
      var u := ReceiveTrace(n - 1);
      ReceiveTraceShape(n - 1);
      forall k | 2 <= k < |t|
        ensures t[k] == if k % 2 == 0 then Resume else WaitDone(RxReady)
      {
        assert t[k] == u[k - 2] && (k - 2) % 2 == k % 2;
      }
    }
  }

  lemma {:induction false} TransmitTraceSnoc(bs: seq<u8>, b: u8)
    ensures TransmitTrace(bs + [b]) == TransmitTrace(bs) + [TxdWrite(b), WaitDone(TxSent)]
  {
    if bs != [] {
      assert (bs + [b])[1..] == bs[1..] + [b];
      TransmitTraceSnoc(bs[1..], b);
    } else {
      assert bs + [b] == [b];
    }
  }

  lemma {:induction false} ReceiveTraceSnoc(n: nat)
    ensures ReceiveTrace(n + 1) == ReceiveTrace(n) + [Resume, WaitDone(RxReady)]
  {
    if n != 0 {
      ReceiveTraceSnoc(n - 1);
    }
  }

  /** The bytes the hardware latched into RXD, one per delivery. */
  function Received(ds: seq<Delivery>): (r: seq<u8>)
    ensures |r| == |ds|
    ensures forall k :: 0 <= k < |ds| ==> r[k] == ds[k].rxd
  {
    if ds == [] then [] else [ds[0].rxd] + Received(ds[1..])
  }

  /** The bytes a trace puts on the bus: its TXD writes, in order. */
  function TxdBytes(t: seq<Task>): (r: seq<u8>)
    ensures |r| <= |t|
  {
    if t == [] then []
    else (if t[0].TxdWrite? then [t[0].b] else []) + TxdBytes(t[1..])
  }

  lemma {:induction false} TxdBytesAppend(a: seq<Task>, b: seq<Task>)
    ensures TxdBytes(a + b) == TxdBytes(a) + TxdBytes(b)
  {
    if a != [] {
      assert (a + b)[0] == a[0];
      assert (a + b)[1..] == a[1..] + b;
      TxdBytesAppend(a[1..], b);
    } else {
      assert a + b == b;
    }
  }

  /** Transmitting `bs` puts exactly `bs` on the bus. */
  lemma {:induction false} TxdBytesOfTransmit(bs: seq<u8>)
    ensures TxdBytes(TransmitTrace(bs)) == bs
  {
    if bs != [] {
      var t := TransmitTrace(bs);
      assert t[1..] == [WaitDone(TxSent)] + TransmitTrace(bs[1..]);
      assert t[1..][1..] == TransmitTrace(bs[1..]);
      TxdBytesOfTransmit(bs[1..]);
    }
  }

  /** A trace without TXD writes puts nothing on the bus. */
  lemma {:induction false} TxdBytesOfTriggers(t: seq<Task>)
    requires forall k :: 0 <= k < |t| ==> !t[k].TxdWrite?
    ensures TxdBytes(t) == []
  {
    if t != [] {
      TxdBytesOfTriggers(t[1..]);
    }
  }

  /** The start and stop sequences and the receive engine put nothing on the
      bus. */
  lemma ControlSendsNothing(address: u8, size: u8, from: State, n: nat)
    ensures TxdBytes(StartTxTrace(address, from)) == []
    ensures TxdBytes(StartRxTrace(address, size, from)) == []
    ensures TxdBytes(StopTrace(from)) == []
    ensures TxdBytes(ReceiveTrace(n)) == []
  {
    TxdBytesOfTriggers(StartTxTrace(address, from));
    TxdBytesOfTriggers(StartRxTrace(address, size, from));
    TxdBytesOfTriggers(StopTrace(from));
    ReceiveTraceShape(n);
    TxdBytesOfTriggers(ReceiveTrace(n));
  }

  // ---------------------------------------------------------------------
  // Conversions at the call sites of the composed transactions
  // ---------------------------------------------------------------------

  /** The C conversion of a uint32_t size passed where a uint8_t is expected:
      the size modulo 256. TruncatedSizes states what it does to the
      transactions. */
  function Truncate8(size: u32): u8 {
    (size % 0x100) as u8
  }

  /** The two bytes of a uint16_t as they lie in memory on the little-endian
      Cortex-M4: low byte first. */
  function MemoryOrder(m: u16): (r: seq<u8>)
    ensures |r| == 2
    ensures r[0] as int + 0x100 * r[1] as int == m as int
  {
    [(m % 0x100) as u8, (m / 0x100) as u8]
  }

  // ---------------------------------------------------------------------
  // Traces of the composed transactions
  // ---------------------------------------------------------------------

  /** I2C_Write entered in state `from`: start in transmit direction, then
      transmit the bytes. */
  function WriteTrace(address: u8, bs: seq<u8>, from: State): seq<Task> {
    StartTxTrace(address, from) + TransmitTrace(bs)
  }

  /** I2C_Read entered in state `from`: start in receive direction, then
      receive `n` bytes. */
  function ReadTrace(address: u8, n: u8, from: State): seq<Task> {
    StartRxTrace(address, n, from) + ReceiveTrace(n as nat)
  }

  /** The memory writes: a write of the (non-empty) sub-address `sub`, a
      transmit of the data, then the stop sequence, entered in TxSent. */
  function WriteMemoryTrace(address: u8, sub: seq<u8>, bs: seq<u8>, from: State): seq<Task>
    requires sub != []
  {
    WriteTrace(address, sub, from) + TransmitTrace(bs) + StopTrace(TxSent)
  }

  /** The memory reads with a re-start: a write of the sub-address `sub`, a
      read of `n` bytes, then the stop sequence. */
  function ReadMemoryTrace(address: u8, sub: seq<u8>, n: u8, from: State): seq<Task>
    requires sub != []
  {
    WriteTrace(address, sub, from) + ReadTrace(address, n, TxSent) +
    StopTrace(if n == 0 then Suspended else RxReady)
  }

  /** I2C_ReadMemory16 as written: a write of the sub-address, `n` receive
      steps without any start in receive direction, then the stop sequence. */
  function NoRestartReadTrace(address: u8, sub: seq<u8>, n: u8, from: State): seq<Task>
    requires sub != []
  {
    WriteTrace(address, sub, from) + ReceiveTrace(n as nat) +
    StopTrace(if n == 0 then TxSent else RxReady)
  }

  /** Regrouping a trace built call by call into the composed trace. */
  lemma Regroup2(o: seq<Task>, a: seq<Task>, b: seq<Task>)
    ensures o + a + b == o + (a + b)
  {
  }

  lemma Regroup3(o: seq<Task>, a: seq<Task>, b: seq<Task>, c: seq<Task>)
    ensures o + a + b + c == o + (a + b + c)
  {
  }

  /** I2C_Write puts exactly its bytes on the bus. */
  lemma WriteBusBytes(address: u8, bs: seq<u8>, from: State)
    ensures TxdBytes(WriteTrace(address, bs, from)) == bs
  {
    TxdBytesAppend(StartTxTrace(address, from), TransmitTrace(bs));
    ControlSendsNothing(address, 0, from, 0);
    TxdBytesOfTransmit(bs);
  }

  /** A memory write puts the sub-address and then the data on the bus. */
  lemma WriteMemoryBusBytes(address: u8, sub: seq<u8>, bs: seq<u8>, from: State)
    requires sub != []
    ensures TxdBytes(WriteMemoryTrace(address, sub, bs, from)) == sub + bs
  {
    var w := WriteTrace(address, sub, from);
    WriteBusBytes(address, sub, from);
    TxdBytesAppend(w, TransmitTrace(bs));
    TxdBytesOfTransmit(bs);
    TxdBytesAppend(w + TransmitTrace(bs), StopTrace(TxSent));
    ControlSendsNothing(address, 0, TxSent, 0);
  }

  /** The 16-bit memory write sends the low byte of the sub-address first. */
  lemma WriteMemory16BusBytes(address: u8, m: u16, bs: seq<u8>, from: State)
    ensures var bus := TxdBytes(WriteMemoryTrace(address, MemoryOrder(m), bs, from));
            |bus| == 2 + |bs| && bus[0] as int == m as int % 0x100 &&
            bus[1] as int == m as int / 0x100 && bus[2..] == bs
  {
    WriteMemoryBusBytes(address, MemoryOrder(m), bs, from);
  }

  /** A memory read with a re-start puts only the sub-address on the bus;
      after the sub-address it writes the address again with the read bit
      set, and its STARTRX comes after the re-start's wait for Suspended. */
  lemma ReadMemoryBusBytes(address: u8, sub: seq<u8>, n: u8, from: State)
    requires sub != []
    ensures var t := ReadMemoryTrace(address, sub, n, from);
            var w := |WriteTrace(address, sub, from)|;
            w + 6 < |t| && TxdBytes(t[..w]) == sub &&
            t[w] == AddressWrite(address as u32) &&
            t[w + 1].AddressWrite? && t[w + 1].address >= 0x80 &&
            t[w + 4] == WaitDone(Suspended) && t[w + 6] == StartRx &&
            TxdBytes(t) == sub
  {
    var wt := WriteTrace(address, sub, from);
    var rt := ReadTrace(address, n, TxSent);
    var st := StopTrace(if n == 0 then Suspended else RxReady);
    var t := ReadMemoryTrace(address, sub, n, from);
    assert t == wt + (rt + st);
    assert t[..|wt|] == wt;
    WriteBusBytes(address, sub, from);
    ControlSendsNothing(address, n, TxSent, n as nat);
    ControlSendsNothing(address, n, if n == 0 then Suspended else RxReady, 0);
    TxdBytesAppend(StartRxTrace(address, n, TxSent), ReceiveTrace(n as nat));
    TxdBytesAppend(rt, st);
    TxdBytesAppend(wt, rt + st);
  }

  /** I2C_ReadMemory16 as written never triggers STARTRX and never sets the
      read bit: every ADDRESS write it makes is the plain 8-bit address. */
  lemma NoRestartNeverStartsRx(address: u8, sub: seq<u8>, n: u8, from: State)
    requires sub != []
    ensures var t := NoRestartReadTrace(address, sub, n, from);
            StartRx !in t &&
            forall k :: 0 <= k < |t| && t[k].AddressWrite? ==> t[k].address == address as u32
  {
    var s := StartTxTrace(address, from);
    var t := NoRestartReadTrace(address, sub, n, from);
    TransmitTraceShape(sub);
    ReceiveTraceShape(n as nat);
    var tx := TransmitTrace(sub);
    var rx := ReceiveTrace(n as nat);
    var st := StopTrace(if n == 0 then TxSent else RxReady);
    assert t == s + (tx + rx + st);
    assert forall k :: 0 <= k < |tx| ==> !tx[k].AddressWrite? && tx[k] != StartRx;
    assert forall k :: 0 <= k < |rx| ==> !rx[k].AddressWrite? && rx[k] != StartRx;
    assert forall k :: 0 <= k < |st| ==> !st[k].AddressWrite? && st[k] != StartRx;
  }

  /** Only the low byte of a uint32_t size reaches the byte engines: a memory
      write of `size` bytes puts size mod 256 data bytes on the bus (none at
      all for 256), a memory read receives size mod 256 bytes, and takes the
      BB_STOP shortcut exactly when size mod 256 is 1. */
  lemma TruncatedSizes(address: u8, sub: seq<u8>, data: seq<u8>, size: u32, from: State)
    requires sub != [] && size as int % 0x100 <= |data|
    ensures |TxdBytes(WriteMemoryTrace(address, sub, data[..Truncate8(size)], from))| ==
            |sub| + size as int % 0x100
    ensures size == 0x100 ==>
              TxdBytes(WriteMemoryTrace(address, sub, data[..Truncate8(size)], from)) == sub
    ensures |ReceiveTrace(Truncate8(size) as nat)| == 2 * (size as int % 0x100)
    ensures HasShort(StartShorts(Truncate8(size), XferRx), ShortsBbStop) <==> size % 0x100 == 1
  {
    WriteMemoryBusBytes(address, sub, data[..Truncate8(size)], from);
  }

  // ---------------------------------------------------------------------
  // Lifecycle
  // ---------------------------------------------------------------------

  /** I2C_Enable on ENABLE = `enable` in state `s`. */
  function EnableStep(enable: u32, s: State): (r: (u32, State))
    ensures enable == 0 && s == Disabled ==> r == (EnableTwi, Stopped)
    ensures enable != 0 || s != Disabled ==> r == (enable, s)
  {
    if enable == 0 && s == Disabled then (EnableTwi, Stopped) else (enable, s)
  }

  /** I2C_Disable on ENABLE = `enable` in state `s`. */
  function DisableStep(enable: u32, s: State): (r: (u32, State))
    ensures s !in {Suspended, Stopped} ==> r == (enable, s)
    ensures enable == 0 ==> r == (enable, s)
    ensures enable != 0 && s in {Suspended, Stopped} ==> r == (0, Disabled)
  {
    if enable != 0 && (s == Suspended || s == Stopped) then (0, Disabled) else (enable, s)
  }

  /** The first call of Enable or Disable does all the work. */
  lemma EnableIdempotent(enable: u32, s: State)
    ensures var once := EnableStep(enable, s);
            EnableStep(once.0, once.1) == once
  {
  }

  lemma DisableIdempotent(enable: u32, s: State)
    ensures var once := DisableStep(enable, s);
            DisableStep(once.0, once.1) == once
  {
  }

  /** The lifecycle invariant: the peripheral is switched off exactly when the
      driver's state is Disabled. */
  predicate PowerConsistent(enable: u32, s: State) {
    enable == 0 <==> s == Disabled
  }

  /** Enable and Disable keep the lifecycle invariant, Disable undoes Enable,
      and no interrupt brings an enabled driver back to Disabled. */
  lemma LifecycleKeepsPower(enable: u32, s: State, ev: Events)
    requires PowerConsistent(enable, s)
    ensures var e := EnableStep(enable, s); PowerConsistent(e.0, e.1)
    ensures var d := DisableStep(enable, s); PowerConsistent(d.0, d.1)
    ensures PowerConsistent(enable, Dispatch(s, ev)) || s == Disabled
    ensures s == Disabled ==> var e := EnableStep(enable, s); DisableStep(e.0, e.1) == (enable, s)
  {
  }

  /** The three ways I2C_Init ends. */
  datatype InitPath = DmaRejected | Conflict | Programmed

  /** The path I2C_Init takes, given the DMA setting and the ENABLE register of
      the instance it settles on. */
  function InitPathOf(dma: DmaCtrl, enable: u32): (p: InitPath)
    ensures p == DmaRejected <==> dma.DmaOn?
    ensures p == Programmed <==> dma.DmaOff? && enable == 0
  {
    if dma.DmaOn? then DmaRejected
    else if enable != 0 then Conflict
    else Programmed
  }

  /** The registers after a successful I2C_Init: FREQUENCY, PSELSCL, PSELSDA
      and INTENSET programmed; nothing else touched (in particular not the
      slave ADDRESS). */
  function Configured(r: Regs, speed: Speed, scl: u8, sda: u8, interrupts: u32): (q: Regs)
    ensures q.frequency == speed.Frequency() && q.pselscl as int == scl as int &&
            q.pselsda as int == sda as int && q.intenset == interrupts
    ensures q.enable == r.enable && q.address == r.address && q.shorts == r.shorts &&
            q.rxd == r.rxd && q.events == r.events
  {
    r.(frequency := speed.Frequency(), pselscl := scl as u32, pselsda := sda as u32,
       intenset := interrupts)
  }

  /** A successful I2C_Init leaves the peripheral ready for I2C_Enable, which
      then switches it on. */
  lemma InitThenEnable(dma: DmaCtrl, enable: u32)
    requires InitPathOf(dma, enable) == Programmed
    ensures PowerConsistent(enable, Disabled)
    ensures EnableStep(enable, Disabled) == (EnableTwi, Stopped)
  {
  }
}
