# nRF52 TWI (I2C master) driver — Dafny model

This project models the TWI (I2C master) driver of `HAL/nrf52_i2c.c`. The
driver keeps one handle (`I2C_HandleTypeDef`) that points at a memory-mapped
TWI peripheral. The handle holds, among other fields, one `State` shared
between the caller's context and the TWI interrupt.

- `I2C_Init` and `I2C_InitDefault` check the configuration, then reject it,
  correct it silently, or program the peripheral.
- `I2C_Enable` and `I2C_Disable` are guarded power toggles.
- `I2C_StartTransfer` and `I2C_StopTransfer` set ADDRESS and the shortcuts
  and trigger the peripheral's tasks in a fixed order:
  - transmit start: STARTTX, SUSPEND, the wait, RESUME;
  - receive start: SUSPEND, the wait, RESUME, STARTRX;
  - stop: STOP, then the wait.
- `I2C_Transmit` and `I2C_Receive` move one byte per wait.
- `I2C_Write`, `I2C_Read` and the six `*Memory*` functions are built from
  the start/stop sequences and the byte engines.
- `I2C_IRQHandler` acknowledges the event flags and sets the state.

Files:

- `twi_types.dfy` (module `TwiTypes`): the header's enumerations and masks,
  C's `uint8_t`/`uint16_t`/`uint32_t` as newtypes, the register block `Regs`
  with its six event flags, and the trace entries `Task`. A trace entry is
  one of:
  - a write of 1 to `TASKS_STARTTX`, `TASKS_STARTRX`, `TASKS_SUSPEND`,
    `TASKS_RESUME` or `TASKS_STOP`;
  - a byte written to `TXD`;
  - a write to `ADDRESS` or `SHORTS` by the start and stop sequences;
  - `WaitDone(s)`: the end of a spin `while (State != s);` that had to wait
    for an interrupt.
- `twi_spec.dfy` (module `TwiSpec`): specification functions and lemmas.
  They cover the interrupt dispatch, the ADDRESS and SHORTS values, and the
  traces of every operation. They also cover the bytes each transaction puts
  on the bus, the lifecycle guards and the outcome of `I2C_Init`.
- `twi_driver.dfy` (module `TwiDriver`): class `Twi` is the peripheral
  instance. It has a `regs: Regs` field and a `tasks: seq<Task>` trace.
  Its methods `WriteAddress`, `WriteShorts` and `Trigger` are the
  register writes. Class `I2CHandle` is the handle. Each driver function is a method of it,
  which updates the handle and the instance in place and is proved against
  the functions of `TwiSpec`.

How the waits are modelled. Every `while (State != X);` spin is a hand-off
point: the caller's context waits there while the interrupt runs.

- A blocking method takes one `Delivery` per hand-off point, in order. A
  delivery is the events the peripheral raises there, plus the byte it
  latches into RXD on RXDREADY.
- `Spin(X, d)` is the spin. When the state already is X it returns at once,
  without an interrupt and without a trace entry. Otherwise `Interrupt`
  raises the delivered events and runs `IRQHandler`, and `WaitDone(X)` is
  appended.
- A spin that has to wait requires `Awaits`: the handler's dispatch of the
  delivery gives X, and RXDREADY comes only while a byte is expected.
  `SpinEnds` is "already X, or `Awaits`".
- The traces therefore fix where each wait sits among the register writes.
  They also show whether it waited at all. `I2C_Transmit` and
  `I2C_Receive` set Tx or Rx before every wait, so each of their waits needs
  an interrupt. A `I2C_StartTransfer` entered in Suspended does not wait
  before RESUME.
- Blocking methods are entered with no event pending (`Quiet`). Every
  dispatch clears all six flags, so they also return that way.

Integer widths are explicit:

- The `uint32_t` size of the `*Memory*` functions reaches the `uint8_t`
  parameter of `I2C_Transmit`/`I2C_Read`/`I2C_Receive` as `size % 256`
  (`Truncate8`). Size 256 therefore moves no data bytes.
- `I2C_ReadMemory` with size 257 moves one byte and picks the BB_STOP
  shortcut (`TruncatedSizes`).
- The 16-bit sub-address goes on the bus in memory order, low byte first
  (`MemoryOrder`).

Register constants:

- FREQUENCY: 0x01980000, 0x04000000 and 0x06680000, from the driver's
  header.
- Interrupt bits: 1, 2, 7, 9, 14 and 18, from the driver's header.
- ENABLE value: 5, the literal `I2C_Enable` writes (`HAL/nrf52_i2c.c` line 81).
- SHORTS bits: BB_SUSPEND is bit 0 and BB_STOP is bit 1, as in the nRF52 TWI
  register layout. `nrf52_bitfields.h` is not part of this model.

## Model

| member | source | states |
|---|---|---|
| `TwiTypes.Speed.Frequency` | HAL/nrf52_i2c.h:17-22 | the FREQUENCY value of each bus speed |
| `TwiSpec.Dispatch` | HAL/nrf52_i2c.c:208-232 | the state after the handler: SUSPENDED wins over TXDSENT, which wins over RXDREADY, which wins over STOPPED; with none of them pending the state is kept; no event leads to Disabled |
| `TwiSpec.DispatchIgnoresErrorAndBb` | HAL/nrf52_i2c.c:203-227 | ERROR and BB never change the state |
| `TwiSpec.IrqTasks` | HAL/nrf52_i2c.c:213-218 | the handler triggers RESUME exactly on RXDREADY |
| `TwiSpec.Awaits` | HAL/nrf52_i2c.c:103-140 | definition: a spin `while (State != to);` entered in `from` is ended by one delivery, whose dispatch gives `to`, and which carries RXDREADY exactly when `to` is RxReady |
| `TwiSpec.AllAwait` | HAL/nrf52_i2c.c:127-142 | definition: every delivery of a byte loop ends its wait, as in `Awaits` |
| `TwiSpec.SpinEnds` | HAL/nrf52_i2c.c:103-140 | definition: a spin either returns at once, because the state already is `to`, or is ended by its delivery (`Awaits`) |
| `TwiSpec.SpinTrace` | HAL/nrf52_i2c.c:103-140 | definition: a spin that returns at once adds nothing to the trace; one that waits adds the handler's RESUME when `to` is RxReady, then `WaitDone(to)` |
| `TwiSpec.AwaitedEvent` | HAL/nrf52_i2c.c:201-232 | which flags must be delivered for each awaited state to be reached, and that Disabled, Tx and Rx are never reached by an interrupt |
| `TwiSpec.SetBit7` | HAL/nrf52_i2c.c:108 | ORing 0x80 into ADDRESS sets bit 7 and keeps every other bit |
| `TwiSpec.StartAddress` | HAL/nrf52_i2c.c:97-108 | ADDRESS ends as the 7 address bits, with bit 7 set for a receive (or if set in the argument) |
| `TwiSpec.StartShorts` | HAL/nrf52_i2c.c:100-109 | transmit: no shortcut; receive: BB_STOP exactly when size is 1, BB_SUSPEND exactly when it is not; no other bit |
| `TwiSpec.StartTxTrace` | HAL/nrf52_i2c.c:97-104 | definition: ADDRESS write, SHORTS := 0, STARTTX, SUSPEND, the spin for Suspended, RESUME |
| `TwiSpec.StartRxTrace` | HAL/nrf52_i2c.c:97-113 | definition: ADDRESS write, ADDRESS write with the read bit, SHORTS := StartShorts, SUSPEND, the spin for Suspended, RESUME, STARTRX |
| `TwiSpec.StartTrace` | HAL/nrf52_i2c.c:95-116 | definition: the transmit or the receive start trace, by direction (line 98) |
| `TwiSpec.StopTrace` | HAL/nrf52_i2c.c:118-123 | definition: SHORTS := 0, STOP, the spin for Stopped |
| `TwiSpec.TransmitTrace` | HAL/nrf52_i2c.c:125-133 | definition: for each byte, in order, its TXD write and then the end of the wait for TxSent; twice as many entries as bytes |
| `TwiSpec.ReceiveTrace` | HAL/nrf52_i2c.c:135-143 | definition: for each byte, the handler's RESUME and then the end of the wait for RxReady; twice as many entries as bytes |
| `TwiSpec.TxdBytes` | HAL/nrf52_i2c.c:130 | definition: the bytes a trace puts on the bus, which are its TXD writes in order; never more than the trace has entries |
| `TwiSpec.TransmitTraceShape` | HAL/nrf52_i2c.c:125-133 | a transmit alternates TXD writes and ends of waits for TxSent: byte k of the data is entry 2k, and entry 2k+1 is the wait for it to be sent |
| `TwiSpec.ReceiveTraceShape` | HAL/nrf52_i2c.c:135-143 | a receive alternates the handler's RESUME and the end of a wait for RxReady, once per byte |
| `TwiSpec.TransmitTraceSnoc` | HAL/nrf52_i2c.c:127-132 | one more byte adds its TXD write and its wait at the end of the transmit trace |
| `TwiSpec.ReceiveTraceSnoc` | HAL/nrf52_i2c.c:137-142 | one more byte adds its RESUME and its wait at the end of the receive trace |
| `TwiSpec.Received` | HAL/nrf52_i2c.c:141 | the received bytes are the RXD values latched at the hand-offs, in order |
| `TwiSpec.TxdBytesOfTransmit` | HAL/nrf52_i2c.c:125-133 | a transmit puts exactly its bytes on the bus |
| `TwiSpec.ControlSendsNothing` | HAL/nrf52_i2c.c:95-143 | the start and stop sequences and the receive engine write nothing to TXD |
| `TwiSpec.Truncate8` | HAL/nrf52_i2c.c:176-197 | definition: the C conversion of a `uint32_t` size to the `uint8_t` parameter at lines 176, 183, 190 and 197, i.e. size mod 256 |
| `TwiSpec.TruncatedSizes` | HAL/nrf52_i2c.c:173-185 | a `uint32_t` size reaches the byte engines mod 256: a memory write puts size mod 256 data bytes on the bus, none for size 256; a memory read has size mod 256 receive steps and takes BB_STOP exactly when size mod 256 is 1 |
| `TwiSpec.MemoryOrder` | HAL/nrf52_i2c.c:189 | the two sub-address bytes, low byte first, recombine to the 16-bit value |
| `TwiSpec.WriteTrace` | HAL/nrf52_i2c.c:145-149 | definition: the transmit start trace, then the transmit trace of the bytes |
| `TwiSpec.ReadTrace` | HAL/nrf52_i2c.c:151-155 | definition: the receive start trace, then the receive trace of `n` bytes |
| `TwiSpec.WriteMemoryTrace` | HAL/nrf52_i2c.c:157-192 | definition: the memory writes of lines 159-161, 175-177 and 189-191: the write of the sub-address, the transmit of the data, then the stop sequence entered in TxSent |
| `TwiSpec.ReadMemoryTrace` | HAL/nrf52_i2c.c:164-185 | definition: the memory reads of lines 167-169 and 182-184: the write of the sub-address, the read (a re-start) entered in TxSent, then the stop sequence |
| `TwiSpec.NoRestartReadTrace` | HAL/nrf52_i2c.c:194-199 | definition: I2C_ReadMemory16 as written: the write of the sub-address, the receive trace with no start sequence, then the stop sequence |
| `TwiSpec.WriteBusBytes` | HAL/nrf52_i2c.c:145-149 | I2C_Write puts exactly its bytes on the bus |
| `TwiSpec.WriteMemoryBusBytes` | HAL/nrf52_i2c.c:173-178 | a memory write puts the sub-address and then the data on the bus |
| `TwiSpec.WriteMemory16BusBytes` | HAL/nrf52_i2c.c:187-192 | the 16-bit memory write sends the low sub-address byte, then the high one, then the data |
| `TwiSpec.ReadMemoryBusBytes` | HAL/nrf52_i2c.c:180-185 | a memory read with a re-start puts only the sub-address on the bus; after it, ADDRESS is written again with the read bit set, and STARTRX follows the re-start's wait for Suspended |
| `TwiSpec.NoRestartNeverStartsRx` | HAL/nrf52_i2c.c:194-199 | ReadMemory16 as written never triggers STARTRX, and every ADDRESS write it makes is the plain address without the read bit |
| `TwiSpec.EnableStep` | HAL/nrf52_i2c.c:77-84 | Enable acts (ENABLE=5, Stopped) exactly when ENABLE is 0 and the state is Disabled; otherwise nothing changes |
| `TwiSpec.DisableStep` | HAL/nrf52_i2c.c:86-93 | Disable acts (ENABLE=0, Disabled) exactly when ENABLE is nonzero and the state is Suspended or Stopped; in Disabled, Tx, Rx, TxSent and RxReady it is a no-op |
| `TwiSpec.EnableIdempotent` | HAL/nrf52_i2c.c:77-84 | Enable twice is Enable once |
| `TwiSpec.DisableIdempotent` | HAL/nrf52_i2c.c:86-93 | Disable twice is Disable once |
| `TwiSpec.LifecycleKeepsPower` | HAL/nrf52_i2c.c:77-93 | Enable and Disable keep "ENABLE is 0 exactly in state Disabled", and so does every interrupt taken outside state Disabled; Disable undoes Enable from Disabled |
| `TwiSpec.InitPathOf` | HAL/nrf52_i2c.c:8-41 | Init is rejected exactly when DMA is on, and programs the registers exactly when DMA is off and the instance's ENABLE is 0 |
| `TwiSpec.Configured` | HAL/nrf52_i2c.c:43-53 | a successful Init sets FREQUENCY, PSELSCL, PSELSDA and INTENSET and leaves ENABLE, ADDRESS, SHORTS, RXD and the events alone |
| `TwiSpec.InitThenEnable` | HAL/nrf52_i2c.c:35-84 | after a successful Init the lifecycle invariant holds and Enable switches the peripheral on |
| `TwiDriver.Target` | HAL/nrf52_i2c.c:30-34 | a null instance is replaced by TWI0 |
| `TwiDriver.I2CHandle.Init` | HAL/nrf52_i2c.c:6-54 | DMA on: mode, instance, state and every register unchanged; DMA off: mode Master and instance settled on TWI0 if null; ENABLE nonzero: registers and state unchanged; otherwise the Configured registers and state Disabled; the slave ADDRESS write is proved unreachable |
| `TwiDriver.I2CHandle.Enable` | HAL/nrf52_i2c.c:77-84 | ENABLE and state follow EnableStep; nothing else changes |
| `TwiDriver.I2CHandle.Disable` | HAL/nrf52_i2c.c:86-93 | ENABLE and state follow DisableStep; nothing else changes |
| `TwiDriver.I2CHandle.InitDefault` | HAL/nrf52_i2c.c:61-75 | the default configuration (master, 400K, SCL 13, SDA 12, all six interrupts, DMA off, no callback, TWI0) is installed, and the registers and state are Disable on the old instance followed by Init on TWI0 |
| `TwiDriver.I2CHandle.IRQHandler` | HAL/nrf52_i2c.c:201-234 | every event flag cleared, state given by Dispatch, RESUME appended on RXDREADY, no other register touched |
| `TwiDriver.Twi.WriteAddress` | HAL/nrf52_i2c.c:97-108 | a write to ADDRESS changes that register only and is recorded in the trace |
| `TwiDriver.Twi.WriteShorts` | HAL/nrf52_i2c.c:100-120 | a write to SHORTS changes that register only and is recorded in the trace |
| `TwiDriver.Twi.Trigger` | HAL/nrf52_i2c.c:101-130 | a task trigger or TXD write changes no data register and is recorded in the trace |
| `TwiDriver.I2CHandle.Interrupt` | HAL/nrf52_i2c.c:201-234 | the peripheral raises the delivered events and latches RXD on RXDREADY, then the handler runs: the state is the dispatch of the events and RESUME follows RXDREADY |
| `TwiDriver.I2CHandle.Spin` | HAL/nrf52_i2c.c:103-140 | each spin `while (State != X);` (lines 103, 111, 122, 131 and 140): it ends in X; when the state already is X nothing happens; otherwise one interrupt runs, RXD holds the delivered byte when X is RxReady, and the end of the wait is recorded after the handler's tasks |
| `TwiDriver.I2CHandle.StartTransfer` | HAL/nrf52_i2c.c:95-116 | ADDRESS ends as StartAddress and SHORTS as StartShorts; the trace is ADDRESS, then SHORTS and STARTTX, SUSPEND, the wait for Suspended, RESUME (transmit), or ADDRESS with the read bit, SHORTS, SUSPEND, the wait, RESUME, STARTRX (receive); the wait is skipped only when entered in Suspended |
| `TwiDriver.I2CHandle.StopTransfer` | HAL/nrf52_i2c.c:118-123 | the trace is the SHORTS clear, then STOP, then the wait for Stopped; SHORTS ends 0 and the state Stopped |
| `TwiDriver.I2CHandle.Transmit` | HAL/nrf52_i2c.c:125-133 | exactly data[0..size) is written to TXD, in order, each byte followed by a wait that needs an interrupt; the state ends TxSent (unchanged for size 0); no register changes |
| `TwiDriver.I2CHandle.Receive` | HAL/nrf52_i2c.c:135-143 | data[0..size) holds the received bytes in order, data[size..] is untouched; each byte has a wait that needs an interrupt and the handler's RESUME; the state ends RxReady (unchanged for size 0) |
| `TwiDriver.I2CHandle.Write` | HAL/nrf52_i2c.c:145-149 | the transmit start sequence then the bytes; the bus is not stopped |
| `TwiDriver.I2CHandle.Read` | HAL/nrf52_i2c.c:151-155 | the receive start sequence then the received bytes; the bus is not stopped |
| `TwiDriver.I2CHandle.WriteMemoryByte` | HAL/nrf52_i2c.c:157-162 | trace of the sub-address write, the data byte and STOP; the state ends Stopped |
| `TwiDriver.I2CHandle.ReadMemoryByte` | HAL/nrf52_i2c.c:164-171 | returns the byte latched at the receive hand-off, after the sub-address write, the re-start with the read bit and before STOP |
| `TwiDriver.I2CHandle.WriteMemory` | HAL/nrf52_i2c.c:173-178 | trace of the sub-address write, the first size mod 256 data bytes and STOP |
| `TwiDriver.I2CHandle.ReadMemory` | HAL/nrf52_i2c.c:180-185 | the first size mod 256 bytes of data are received after a re-start with the read bit; the rest is untouched; ends Stopped |
| `TwiDriver.I2CHandle.WriteMemory16` | HAL/nrf52_i2c.c:187-192 | as WriteMemory with the two sub-address bytes in memory order |
| `TwiDriver.I2CHandle.ReadMemory16` | HAL/nrf52_i2c.c:194-199 | as written: the receive engine runs after the sub-address write with no re-start, ADDRESS keeps the address without the read bit |
| `TwiDriver.I2CHandle.ReadMemory16Restart` | HAL/nrf52_i2c.c:180-185 | the corrected 16-bit memory read: as ReadMemory, with the two sub-address bytes in memory order |

## Left out

- `I2C_DeInit` (a single write of 0 to ENABLE) is not modelled.
- `HAL/nrf52_system.c` and `HAL/nrf52_system.h` are not part of this model. They hold SysTick, `Delay`, the error handler and type declarations with no operations.
- The unbounded spins: the model assumes the awaited event arrives (`Awaits`). A wait that never ends is not modelled. Two examples are an ERROR event, which leaves the state alone, and a slave that never acknowledges.
- `NVIC_EnableIRQ` in `I2C_InitDefault` and the `LOG_ERROR` calls are no-ops. The `LOG_ERROR` at line 205 prints a `k` that is declared in none of the files shown. `LOG_ERROR` comes from `err.h`, which is not part of this model.
- The user callback at line 233 is an uninterpreted no-op; the handle only records whether one is installed.
- The peripheral's own behaviour is not modelled: the shortcut automation, bus timing and the slave device. Deliveries stand in for all of it.
- INTENSET is modelled as a register that holds the written mask, not with the hardware's write-1-to-set semantics.
- `Mode` and `Speed` hold only their enumerators. A C enum variable holding another integer is not modelled. For example, a mode that is neither master nor slave, with DMA on, would fall through the checks at lines 10-19.
- The `Errors` field is carried but never written, as in the source.
- The methods other than `Init` require a non-null instance, because the source dereferences it unchecked. `InitDefault` needs this too, since it calls `I2C_Disable` first.
- TwiDriver.I2CHandle.Spin: one interrupt ends each wait, RXDREADY is delivered only while a byte is awaited, and blocking methods are entered with no event pending. A delivery that carries RXDREADY during a transmit wait, or several interrupts during one wait, is not covered.
- TwiDriver.I2CHandle.StartTransfer: covered only for deliveries that satisfy `SpinEnds`, as for `Spin`.
- TwiDriver.I2CHandle.StopTransfer: covered only for deliveries that satisfy `SpinEnds`.
- TwiDriver.I2CHandle.Transmit: covered only for deliveries that satisfy `Awaits`. The contract proves that the state is set to something other than TxSent before each byte, which is what makes each wait take an interrupt. It does not prove that the value is Tx: interrupts come only at the spins and the callback is a no-op, so nothing in the model reads that value.
- TwiDriver.I2CHandle.Receive: covered only for deliveries that satisfy `Awaits`. As for Transmit, the contract proves that the state is set to something other than RxReady before each wait, not that it is Rx.
- Interrupts come only at the spins. An interrupt between two register writes, e.g. between `State = I2C_STATE_TX` and the TXD write, is not modelled.
- No simulated slave device: the write-then-read round trip through a memory device is not stated. The model states the bytes put on the bus and the bytes received instead.

## Findings

| source | as written | input that shows it | evidently intended | confidence | as-written member | corrected member |
|---|---|---|---|---|---|---|
| HAL/nrf52_i2c.c:194-199 | `I2C_ReadMemory16` runs `I2C_Receive` right after writing the sub-address, without `I2C_Read`: no STARTRX and no read bit in ADDRESS, so the peripheral is still transmitting when the driver waits for RXDREADY | any call, e.g. memory_address 0x1234, size 4 | a re-start in receive direction, as `I2C_ReadMemory` does at line 183 | high, not executed | `TwiSpec.NoRestartNeverStartsRx` (trace of `TwiDriver.I2CHandle.ReadMemory16`) | `TwiSpec.ReadMemoryBusBytes` (trace of `TwiDriver.I2CHandle.ReadMemory16Restart`) |
