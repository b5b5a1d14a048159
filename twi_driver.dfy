/** The TWI (I2C master) driver of HAL/nrf52_i2c.c: the handle, the peripheral
    register block it points at, and the driver functions as methods that
    update both in place.

    Every `while (State != X);` spin of the driver is a hand-off point
    (`Spin`): the caller's context waits there until the TWI interrupt has
    run, unless the state already is X. Each blocking method takes the
    deliveries the hardware makes at its hand-off points, in order, and
    requires that each spin that has to wait is ended by its delivery
    (`SpinEnds`). The blocking methods also require that no event is pending
    when they are entered; the handler clears all six flags every time it
    runs, so they all leave it so. */
module TwiDriver {
  import opened TwiTypes
  import opened TwiSpec

  /** One memory-mapped TWI peripheral instance (NRF_TWI_Type). */
  class Twi {
    var regs: Regs
    /** The transfer trace, oldest entry first. */
    var tasks: seq<Task>

    /** A write to ADDRESS. */
    method WriteAddress(v: u32)
      modifies this
      ensures regs == old(regs).(address := v) && tasks == old(tasks) + [AddressWrite(v)]
    {
      regs := regs.(address := v);
      tasks := tasks + [AddressWrite(v)];
    }

    /** A write to SHORTS. */
    method WriteShorts(v: u32)
      modifies this
      ensures regs == old(regs).(shorts := v) && tasks == old(tasks) + [ShortsWrite(v)]
    {
      regs := regs.(shorts := v);
      tasks := tasks + [ShortsWrite(v)];
    }

    /** A write of 1 to a TASKS_* register, or of a byte to TXD. */
    method Trigger(t: Task)
      requires t.StartTx? || t.StartRx? || t.Suspend? || t.Resume? || t.Stop? || t.TxdWrite?
      modifies this
      ensures regs == old(regs) && tasks == old(tasks) + [t]
    {
      tasks := tasks + [t];
    }
  }

  /** The instance I2C_Init settles on: TWI0 replaces a null pointer. */
  function Target(instance: Twi?, twi0: Twi): Twi {
    if instance == null then twi0 else instance
  }

  /** I2C_HandleTypeDef */
  class I2CHandle {
    var instance: Twi?
    var mode: Mode
    var dma: DmaCtrl
    var speed: Speed
    var sdaPin: u8
    var sclPin: u8
    var mainAddress: u8
    var state: State
    var errors: u32
    var interrupts: u32
    /** Whether a completion callback is installed (the callback itself is a
        no-op here). */
    var hasCallback: bool

    /** No event flag of the instance is pending. */
    predicate Quiet()
      reads this, instance
      requires instance != null
    {
      instance.regs.events == NoEvents
    }

    // -------------------------------------------------------------------
    // Lifecycle
    // -------------------------------------------------------------------

    /** I2C_Init: rejects DMA, corrects slave mode to master and a null
        instance to TWI0, aborts on an instance already in use, otherwise
        programs the registers and leaves the state Disabled. */
    method Init(twi0: Twi)
      modifies this`mode, this`instance, this`state, instance, twi0
      ensures var t := Target(old(instance), twi0);
              var path := InitPathOf(old(dma), old(t.regs.enable));
              (path == DmaRejected ==>
                 mode == old(mode) && instance == old(instance) && state == old(state) &&
                 unchanged(t) && unchanged(twi0)) &&
              (path != DmaRejected ==> mode == Master && instance == t) &&
              (path == Conflict ==> state == old(state) && unchanged(t) && unchanged(twi0)) &&
              (path == Programmed ==>
                 state == Disabled && t.tasks == old(t.tasks) &&
                 t.regs == Configured(old(t.regs), speed, sclPin, sdaPin, interrupts) &&
                 (twi0 != t ==> unchanged(twi0)))
    {
      if dma == DmaOn {
        if mode == Slave {
          // LOG_ERROR: EasyDMA is not available
          return;
        }
        if mode == Master {
          // LOG_ERROR: EasyDMA is not available
          return;
        }
      } else {
        if mode == Slave {
          // LOG_ERROR: slave mode needs EasyDMA, switched to master
          mode := Master;
        }
        if mode == Master {
          if instance == null {
            // LOG_ERROR: empty instance pointer, TWI0 used
            instance := twi0;
          }
          if instance.regs.enable != 0 {
            // LOG_ERROR: resource conflict
            return;
          }
        }
      }
      if mode == Slave {
        // The slave ADDRESS write is dead code: DMA on returned above and DMA
        // off switched to master mode.
        assert false;
      }
      var twi := instance;
      twi.regs := twi.regs.(frequency := speed.Frequency());
      twi.regs := twi.regs.(pselscl := sclPin as u32);
      twi.regs := twi.regs.(pselsda := sdaPin as u32);
      twi.regs := twi.regs.(intenset := interrupts);
      state := Disabled;
    }

    /** I2C_Enable */
    method Enable()
      requires instance != null
      modifies this`state, instance
      ensures (instance.regs.enable, state) == EnableStep(old(instance.regs.enable), old(state))
      ensures instance.regs == old(instance.regs).(enable := instance.regs.enable)
      ensures instance.tasks == old(instance.tasks)
    {
      if instance.regs.enable == 0 && state == Disabled {
        instance.regs := instance.regs.(enable := EnableTwi);
        state := Stopped;
      }
    }

    /** I2C_Disable */
    method Disable()
      requires instance != null
      modifies this`state, instance
      ensures (instance.regs.enable, state) == DisableStep(old(instance.regs.enable), old(state))
      ensures instance.regs == old(instance.regs).(enable := instance.regs.enable)
      ensures instance.tasks == old(instance.tasks)
    {
      if instance.regs.enable != 0 && (state == Suspended || state == Stopped) {
        instance.regs := instance.regs.(enable := 0);
        state := Disabled;
      }
    }

    /** I2C_InitDefault: disables the current instance, installs the default
        master configuration on TWI0 (400 kHz, SCL 13, SDA 12, all six
        interrupts, no DMA, no callback) and runs Init. */
    method InitDefault(twi0: Twi)
      requires instance != null
      modifies this`mode, this`speed, this`sclPin, this`sdaPin, this`interrupts,
               this`dma, this`hasCallback, this`instance, this`state, instance, twi0
      ensures mode == Master && speed == Speed400K && sclPin == 13 && sdaPin == 12 &&
              interrupts == DefaultInterrupts && dma == DmaOff && !hasCallback &&
              instance == twi0
      ensures var off := DisableStep(old(instance.regs.enable), old(state));
              var r1 := if old(instance) == twi0 then old(twi0.regs).(enable := off.0)
                        else old(twi0.regs);
              twi0.tasks == old(twi0.tasks) &&
              (old(instance) != twi0 ==>
                 old(instance).regs == old(instance.regs).(enable := off.0) &&
                 old(instance).tasks == old(instance.tasks)) &&
              (r1.enable != 0 ==> state == off.1 && twi0.regs == r1) &&
              (r1.enable == 0 ==>
                 state == Disabled &&
                 twi0.regs == Configured(r1, Speed400K, 13, 12, DefaultInterrupts))
    {
      Disable();
      mode := Master;
      speed := Speed400K;
      sclPin := 13;
      sdaPin := 12;
      interrupts := DefaultInterrupts;
      dma := DmaOff;
      hasCallback := false;
      instance := twi0;
      Init(twi0);
      // NVIC_EnableIRQ: interrupt controller plumbing, not part of this model
    }

    // -------------------------------------------------------------------
    // Interrupt
    // -------------------------------------------------------------------

    /** I2C_IRQHandler: acknowledges every pending event flag; STOPPED,
        RXDREADY, TXDSENT and SUSPENDED set the state, RXDREADY also
        triggers RESUME. */
    method IRQHandler()
      requires instance != null
      modifies this`state, instance
      ensures state == Dispatch(old(state), old(instance.regs.events))
      ensures instance.regs == old(instance.regs).(events := NoEvents)
      ensures instance.tasks == old(instance.tasks) + IrqTasks(old(instance.regs.events))
    {
      var twi := instance;
      if twi.regs.events.error {
        // LOG_ERROR: diagnostic output only
        twi.regs := twi.regs.(events := twi.regs.events.(error := false));
      }
      if twi.regs.events.stopped {
        twi.regs := twi.regs.(events := twi.regs.events.(stopped := false));
        state := Stopped;
      }
      if twi.regs.events.rxdReady {
        twi.regs := twi.regs.(events := twi.regs.events.(rxdReady := false));
        state := RxReady;
        twi.tasks := twi.tasks + [Resume];
      }
      if twi.regs.events.txdSent {
        twi.regs := twi.regs.(events := twi.regs.events.(txdSent := false));
        state := TxSent;
      }
      if twi.regs.events.bb {
        twi.regs := twi.regs.(events := twi.regs.events.(bb := false));
      }
      if twi.regs.events.suspended {
        twi.regs := twi.regs.(events := twi.regs.events.(suspended := false));
        state := Suspended;
      }
      // the user callback is a no-op here
    }

    /** The hardware latches the received byte (on RXDREADY), raises the
        delivered events, and the TWI interrupt runs the handler. */
    method Interrupt(d: Delivery)
      requires instance != null && Quiet()
      modifies this`state, instance
      ensures state == Dispatch(old(state), d.events) && Quiet()
      ensures instance.regs == old(instance.regs).(rxd := if d.events.rxdReady then d.rxd else old(instance.regs.rxd))
      ensures instance.tasks == old(instance.tasks) + IrqTasks(d.events)
    {
      if d.events.rxdReady {
        instance.regs := instance.regs.(rxd := d.rxd);
      }
      instance.regs := instance.regs.(events := d.events);
      IRQHandler();
    }

    /** A hand-off point `while (State != to);`: it returns at once when the
        state already is `to`; otherwise the caller's context waits until the
        interrupt delivering `d` has brought `to`, and the trace records the
        end of the wait. */
    method Spin(to: State, d: Delivery)
      requires instance != null && Quiet()
      requires SpinEnds(d, state, to)
      modifies this`state, instance
      ensures state == to && Quiet()
      ensures instance.regs == old(instance.regs).(rxd := if old(state) != to && to == RxReady then d.rxd
                                                          else old(instance.regs.rxd))
      ensures instance.tasks == old(instance.tasks) + SpinTrace(old(state), to)
    {
      if state != to {
        Interrupt(d);
        instance.tasks := instance.tasks + [WaitDone(to)];
      }
    }

    // -------------------------------------------------------------------
    // Start and stop sequences
    // -------------------------------------------------------------------

    /** I2C_StartTransfer: writes ADDRESS; for a transmit clears SHORTS and
        triggers STARTTX, SUSPEND and, once suspended, RESUME; for a receive
        sets the read bit, picks the BB_STOP shortcut for one byte and
        BB_SUSPEND otherwise, and triggers SUSPEND and, once suspended,
        RESUME and STARTRX. */
    method StartTransfer(address: u8, size: u8, xfer: Xfer, d: Delivery)
      requires instance != null && Quiet()
      requires SpinEnds(d, state, Suspended)
      modifies this`state, instance
      ensures state == Suspended && Quiet()
      ensures instance.regs == old(instance.regs).(address := StartAddress(address, xfer),
                                                   shorts := StartShorts(size, xfer))
      ensures instance.tasks == old(instance.tasks) + StartTrace(address, size, xfer, old(state))
    {
      var twi := instance;
      twi.WriteAddress(address as u32);
      if xfer == XferTx {
        twi.WriteShorts(0);
        twi.Trigger(StartTx);
        twi.Trigger(Suspend);
        assert twi.tasks == old(twi.tasks) + [AddressWrite(address as u32), ShortsWrite(0), StartTx, Suspend];
        Spin(Suspended, d);
        twi.Trigger(Resume);
        Regroup3(old(twi.tasks), [AddressWrite(address as u32), ShortsWrite(0), StartTx, Suspend],
                    SpinTrace(old(state), Suspended), [Resume]);
      } else {
        twi.WriteAddress(SetBit7(twi.regs.address));
        twi.WriteShorts(if size == 1 then ShortsBbStop else ShortsBbSuspend);
        twi.Trigger(Suspend);
        ghost var head := [AddressWrite(address as u32), AddressWrite(StartAddress(address, XferRx)),
                           ShortsWrite(StartShorts(size, XferRx)), Suspend];
        assert twi.tasks == old(twi.tasks) + head;
        Spin(Suspended, d);
        twi.Trigger(Resume);
        twi.Trigger(StartRx);
        assert twi.tasks == old(twi.tasks) + head + SpinTrace(old(state), Suspended) + [Resume, StartRx];
        Regroup3(old(twi.tasks), head, SpinTrace(old(state), Suspended), [Resume, StartRx]);
      }
    }

    /** I2C_StopTransfer: clears SHORTS, triggers STOP and waits for Stopped. */
    method StopTransfer(d: Delivery)
      requires instance != null && Quiet()
      requires SpinEnds(d, state, Stopped)
      modifies this`state, instance
      ensures state == Stopped && Quiet()
      ensures instance.regs == old(instance.regs).(shorts := 0)
      ensures instance.tasks == old(instance.tasks) + StopTrace(old(state))
    {
      var twi := instance;
      twi.WriteShorts(0);
      twi.Trigger(Stop);
      Spin(Stopped, d);
    }

    // -------------------------------------------------------------------
    // Byte engines
    // -------------------------------------------------------------------

    /** I2C_Transmit: writes data[0..size) to TXD in order, setting the state
        to Tx before each byte and waiting for TxSent after it. */
    method Transmit(data: seq<u8>, size: u8, ds: seq<Delivery>)
      requires instance != null && Quiet()
      requires size as int <= |data| && |ds| == size as int
      requires AllAwait(ds, Tx, TxSent)
      modifies this`state, instance
      ensures state == (if size == 0 then old(state) else TxSent) && Quiet()
      ensures instance.regs == old(instance.regs)
      ensures instance.tasks == old(instance.tasks) + TransmitTrace(data[..size])
    {
      var twi := instance;
      var remaining := size;
      var i := 0;
      while remaining != 0
        invariant 0 <= i <= size as int && remaining as int == size as int - i
        invariant twi == instance && twi.regs == old(twi.regs)
        invariant twi.tasks == old(twi.tasks) + TransmitTrace(data[..i])
        invariant state == if i == 0 then old(state) else TxSent
      {
        remaining := remaining - 1;
        state := Tx;
        twi.Trigger(TxdWrite(data[i]));
        Spin(TxSent, ds[i]);
        assert data[..i + 1] == data[..i] + [data[i]];
        TransmitTraceSnoc(data[..i], data[i]);
        i := i + 1;
      }
    }

    /** I2C_Receive: stores `size` received bytes into data[0..size) in
        order, setting the state to Rx before each wait for RxReady, and
        leaves the rest of `data` alone. */
    method Receive(data: array<u8>, size: u8, ds: seq<Delivery>)
      requires instance != null && Quiet()
      requires size as int <= data.Length && |ds| == size as int
      requires AllAwait(ds, Rx, RxReady)
      modifies this`state, instance, data
      ensures state == (if size == 0 then old(state) else RxReady) && Quiet()
      ensures data[..size] == Received(ds) && data[size..] == old(data[size..])
      ensures instance.regs == old(instance.regs).(rxd := if size == 0 then old(instance.regs.rxd) else ds[size - 1].rxd)
      ensures instance.tasks == old(instance.tasks) + ReceiveTrace(size as nat)
    {
      var twi := instance;
      var remaining := size;
      var i := 0;
      while remaining != 0
        invariant 0 <= i <= size as int && remaining as int == size as int - i
        invariant twi == instance
        invariant twi.regs == old(twi.regs).(rxd := if i == 0 then old(twi.regs.rxd) else ds[i - 1].rxd)
        invariant twi.tasks == old(twi.tasks) + ReceiveTrace(i)
        invariant state == if i == 0 then old(state) else RxReady
        invariant data[..i] == Received(ds[..i])
        invariant forall k :: i <= k < data.Length ==> data[k] == old(data[k])
      {
        remaining := remaining - 1;
        state := Rx;
        Spin(RxReady, ds[i]);
        data[i] := twi.regs.rxd;
        ReceiveTraceSnoc(i);
        assert ds[..i + 1] == ds[..i] + [ds[i]];
        i := i + 1;
      }
      assert ds[..size] == ds;
    }

    // -------------------------------------------------------------------
    // Composed transactions
    // -------------------------------------------------------------------

    /** I2C_Write: start in transmit direction, transmit, keep the bus. */
    method Write(address: u8, data: seq<u8>, size: u8, ds: seq<Delivery>)
      requires instance != null && Quiet()
      requires size as int <= |data| && |ds| == 1 + size as int
      requires SpinEnds(ds[0], state, Suspended) && AllAwait(ds[1..], Tx, TxSent)
      modifies this`state, instance
      ensures state == (if size == 0 then Suspended else TxSent) && Quiet()
      ensures instance.regs == old(instance.regs).(address := address as u32, shorts := 0)
      ensures instance.tasks == old(instance.tasks) + WriteTrace(address, data[..size], old(state))
    {
      StartTransfer(address, size, XferTx, ds[0]);
      Transmit(data, size, ds[1..]);
      Regroup2(old(instance.tasks), StartTxTrace(address, old(state)), TransmitTrace(data[..size]));
    }

    /** I2C_Read: start in receive direction, receive, keep the bus. */
    method Read(address: u8, data: array<u8>, size: u8, ds: seq<Delivery>)
      requires instance != null && Quiet()
      requires size as int <= data.Length && |ds| == 1 + size as int
      requires SpinEnds(ds[0], state, Suspended) && AllAwait(ds[1..], Rx, RxReady)
      modifies this`state, instance, data
      ensures state == (if size == 0 then Suspended else RxReady) && Quiet()
      ensures data[..size] == Received(ds[1..]) && data[size..] == old(data[size..])
      ensures instance.regs == old(instance.regs).(address := StartAddress(address, XferRx),
                                                   shorts := StartShorts(size, XferRx),
                                                   rxd := if size == 0 then old(instance.regs.rxd) else ds[size].rxd)
      ensures instance.tasks == old(instance.tasks) + ReadTrace(address, size, old(state))
    {
      StartTransfer(address, size, XferRx, ds[0]);
      Receive(data, size, ds[1..]);
      Regroup2(old(instance.tasks), StartRxTrace(address, size, old(state)), ReceiveTrace(size as nat));
    }
    /** I2C_WriteMemoryByte: write the sub-address, then the data byte, then
        stop the bus. */
    method WriteMemoryByte(address: u8, memoryAddress: u8, value: u8, ds: seq<Delivery>)
      requires instance != null && Quiet() && |ds| == 4
      requires SpinEnds(ds[0], state, Suspended) && Awaits(ds[1], Tx, TxSent)
      requires Awaits(ds[2], Tx, TxSent) && Awaits(ds[3], TxSent, Stopped)
      modifies this`state, instance
      ensures state == Stopped && Quiet()
      ensures instance.regs == old(instance.regs).(address := address as u32, shorts := 0)
      ensures instance.tasks == old(instance.tasks) + WriteMemoryTrace(address, [memoryAddress], [value], old(state))
    {
      assert [memoryAddress][..1] == [memoryAddress] && [value][..1] == [value];
      Write(address, [memoryAddress], 1, ds[..2]);
      Transmit([value], 1, ds[2..3]);
      StopTransfer(ds[3]);
      Regroup3(old(instance.tasks), WriteTrace(address, [memoryAddress], old(state)),
               TransmitTrace([value]), StopTrace(TxSent));
    }

    /** I2C_ReadMemoryByte: write the sub-address, re-start in receive
        direction for one byte, stop the bus, return the byte. */
    method ReadMemoryByte(address: u8, memoryAddress: u8, ds: seq<Delivery>) returns (rx: u8)
      requires instance != null && Quiet() && |ds| == 5
      requires SpinEnds(ds[0], state, Suspended) && Awaits(ds[1], Tx, TxSent)
      requires Awaits(ds[2], TxSent, Suspended) && Awaits(ds[3], Rx, RxReady)
      requires Awaits(ds[4], RxReady, Stopped)
      modifies this`state, instance
      ensures rx == ds[3].rxd
      ensures state == Stopped && Quiet()
      ensures instance.regs == old(instance.regs).(address := StartAddress(address, XferRx),
                                                   shorts := 0, rxd := ds[3].rxd)
      ensures instance.tasks == old(instance.tasks) + ReadMemoryTrace(address, [memoryAddress], 1, old(state))
    {
      var rxData := new u8[1];
      assert [memoryAddress][..1] == [memoryAddress];
      Write(address, [memoryAddress], 1, ds[..2]);
      Read(address, rxData, 1, ds[2..4]);
      StopTransfer(ds[4]);
      rx := rxData[0];
      Regroup3(old(instance.tasks), WriteTrace(address, [memoryAddress], old(state)),
               ReadTrace(address, 1, TxSent), StopTrace(RxReady));
    }

    /** I2C_WriteMemory: write the sub-address, transmit `size` bytes (only
        the low byte of `size` reaches the uint8_t parameter), stop. */
    method WriteMemory(address: u8, memoryAddress: u8, data: seq<u8>, size: u32, ds: seq<Delivery>)
      requires instance != null && Quiet()
      requires Truncate8(size) as int <= |data| && |ds| == 3 + Truncate8(size) as int
      requires SpinEnds(ds[0], state, Suspended) && Awaits(ds[1], Tx, TxSent)
      requires AllAwait(ds[2..|ds| - 1], Tx, TxSent) && Awaits(ds[|ds| - 1], TxSent, Stopped)
      modifies this`state, instance
      ensures state == Stopped && Quiet()
      ensures instance.regs == old(instance.regs).(address := address as u32, shorts := 0)
      ensures instance.tasks == old(instance.tasks) + WriteMemoryTrace(address, [memoryAddress], data[..Truncate8(size)], old(state))
    {
      var n := Truncate8(size);
      assert [memoryAddress][..1] == [memoryAddress];
      Write(address, [memoryAddress], 1, ds[..2]);
      Transmit(data, n, ds[2..2 + n as int]);
      StopTransfer(ds[2 + n as int]);
      Regroup3(old(instance.tasks), WriteTrace(address, [memoryAddress], old(state)),
               TransmitTrace(data[..n]), StopTrace(TxSent));
    }

    /** I2C_ReadMemory: write the sub-address, re-start in receive direction
        for `size` bytes (truncated to its low byte), stop. */
    method ReadMemory(address: u8, memoryAddress: u8, data: array<u8>, size: u32, ds: seq<Delivery>)
      requires instance != null && Quiet()
      requires Truncate8(size) as int <= data.Length && |ds| == 4 + Truncate8(size) as int
      requires SpinEnds(ds[0], state, Suspended) && Awaits(ds[1], Tx, TxSent)
      requires Awaits(ds[2], TxSent, Suspended) && AllAwait(ds[3..|ds| - 1], Rx, RxReady)
      requires Awaits(ds[|ds| - 1], if Truncate8(size) == 0 then Suspended else RxReady, Stopped)
      modifies this`state, instance, data
      ensures state == Stopped && Quiet()
      ensures var n := Truncate8(size);
              data[..n] == Received(ds[3..3 + n as int]) && data[n..] == old(data[n..])
      ensures instance.regs == old(instance.regs).(address := StartAddress(address, XferRx), shorts := 0,
                                                   rxd := if Truncate8(size) == 0 then old(instance.regs.rxd)
                                                          else ds[2 + Truncate8(size) as int].rxd)
      ensures instance.tasks == old(instance.tasks) + ReadMemoryTrace(address, [memoryAddress], Truncate8(size), old(state))
    {
      var n := Truncate8(size);
      assert [memoryAddress][..1] == [memoryAddress];
      Write(address, [memoryAddress], 1, ds[..2]);
      Read(address, data, n, ds[2..3 + n as int]);
      assert ds[2..3 + n as int][1..] == ds[3..3 + n as int];
      StopTransfer(ds[3 + n as int]);
      Regroup3(old(instance.tasks), WriteTrace(address, [memoryAddress], old(state)),
                  ReadTrace(address, n, TxSent), StopTrace(if n == 0 then Suspended else RxReady));
    }

    /** I2C_WriteMemory16: as WriteMemory, with the two bytes of the 16-bit
        sub-address sent in memory order (low byte first). */
    method WriteMemory16(address: u8, memoryAddress: u16, data: seq<u8>, size: u32, ds: seq<Delivery>)
      requires instance != null && Quiet()
      requires Truncate8(size) as int <= |data| && |ds| == 4 + Truncate8(size) as int
      requires SpinEnds(ds[0], state, Suspended) && AllAwait(ds[1..3], Tx, TxSent)
      requires AllAwait(ds[3..|ds| - 1], Tx, TxSent) && Awaits(ds[|ds| - 1], TxSent, Stopped)
      modifies this`state, instance
      ensures state == Stopped && Quiet()
      ensures instance.regs == old(instance.regs).(address := address as u32, shorts := 0)
      ensures instance.tasks == old(instance.tasks) +
                WriteMemoryTrace(address, MemoryOrder(memoryAddress), data[..Truncate8(size)], old(state))
    {
      var n := Truncate8(size);
      var sub := MemoryOrder(memoryAddress);
      assert sub[..2] == sub;
      Write(address, sub, 2, ds[..3]);
      Transmit(data, n, ds[3..3 + n as int]);
      StopTransfer(ds[3 + n as int]);
      Regroup3(old(instance.tasks), WriteTrace(address, sub, old(state)),
               TransmitTrace(data[..n]), StopTrace(TxSent));
    }

    /** I2C_ReadMemory16 as written: writes the 16-bit sub-address and then
        runs the receive engine directly, without a start in receive
        direction (no read bit, no STARTRX), then stops. */
    method ReadMemory16(address: u8, memoryAddress: u16, data: array<u8>, size: u32, ds: seq<Delivery>)
      requires instance != null && Quiet()
      requires Truncate8(size) as int <= data.Length && |ds| == 4 + Truncate8(size) as int
      requires SpinEnds(ds[0], state, Suspended) && AllAwait(ds[1..3], Tx, TxSent)
      requires AllAwait(ds[3..|ds| - 1], Rx, RxReady)
      requires Awaits(ds[|ds| - 1], if Truncate8(size) == 0 then TxSent else RxReady, Stopped)
      modifies this`state, instance, data
      ensures state == Stopped && Quiet()
      ensures var n := Truncate8(size);
              data[..n] == Received(ds[3..3 + n as int]) && data[n..] == old(data[n..])
      ensures instance.regs == old(instance.regs).(address := address as u32, shorts := 0,
                                                   rxd := if Truncate8(size) == 0 then old(instance.regs.rxd)
                                                          else ds[2 + Truncate8(size) as int].rxd)
      ensures instance.tasks == old(instance.tasks) +
                NoRestartReadTrace(address, MemoryOrder(memoryAddress), Truncate8(size), old(state))
    {
      var n := Truncate8(size);
      var sub := MemoryOrder(memoryAddress);
      assert sub[..2] == sub;
      Write(address, sub, 2, ds[..3]);
      Receive(data, n, ds[3..3 + n as int]);
      StopTransfer(ds[3 + n as int]);
      Regroup3(old(instance.tasks), WriteTrace(address, sub, old(state)),
               ReceiveTrace(n as nat), StopTrace(if n == 0 then TxSent else RxReady));
    }

    /** I2C_ReadMemory16 corrected to follow ReadMemory: after the 16-bit
        sub-address it re-starts in receive direction with the read bit set. */
    method ReadMemory16Restart(address: u8, memoryAddress: u16, data: array<u8>, size: u32, ds: seq<Delivery>)
      requires instance != null && Quiet()
      requires Truncate8(size) as int <= data.Length && |ds| == 5 + Truncate8(size) as int
      requires SpinEnds(ds[0], state, Suspended) && AllAwait(ds[1..3], Tx, TxSent)
      requires Awaits(ds[3], TxSent, Suspended) && AllAwait(ds[4..|ds| - 1], Rx, RxReady)
      requires Awaits(ds[|ds| - 1], if Truncate8(size) == 0 then Suspended else RxReady, Stopped)
      modifies this`state, instance, data
      ensures state == Stopped && Quiet()
      ensures var n := Truncate8(size);
              data[..n] == Received(ds[4..4 + n as int]) && data[n..] == old(data[n..])
      ensures instance.regs == old(instance.regs).(address := StartAddress(address, XferRx), shorts := 0,
                                                   rxd := if Truncate8(size) == 0 then old(instance.regs.rxd)
                                                          else ds[3 + Truncate8(size) as int].rxd)
      ensures instance.tasks == old(instance.tasks) +
                ReadMemoryTrace(address, MemoryOrder(memoryAddress), Truncate8(size), old(state))
    {
      var n := Truncate8(size);
      var sub := MemoryOrder(memoryAddress);
      assert sub[..2] == sub;
      Write(address, sub, 2, ds[..3]);
      Read(address, data, n, ds[3..4 + n as int]);
      assert ds[3..4 + n as int][1..] == ds[4..4 + n as int];
      StopTransfer(ds[4 + n as int]);
      Regroup3(old(instance.tasks), WriteTrace(address, sub, old(state)),
               ReadTrace(address, n, TxSent), StopTrace(if n == 0 then Suspended else RxReady));
    }
  }
}
