/** Types of the nRF52 TWI (I2C master) driver: the enumerations and masks of
    the driver's header, the register block of one TWI peripheral instance,
    and the trace of what the driver does to the peripheral. */
module TwiTypes {

  /** C's fixed-width unsigned integers. */
  newtype u8 = x: int | 0 <= x < 0x100
  newtype u16 = x: int | 0 <= x < 0x1_0000
  newtype u32 = x: int | 0 <= x < 0x1_0000_0000

  /** I2C_State_t: the transfer state shared by the interrupt handler and the
      blocking byte engine. */
  datatype State = Disabled | Stopped | Suspended | Tx | Rx | TxSent | RxReady

  /** I2C_Mode_t */
  datatype Mode = Master | Slave

  /** I2C_EasyDMA_Ctrl_t */
  datatype DmaCtrl = DmaOff | DmaOn

  /** I2C_Xfer_t: the direction passed to the start sequence. */
  datatype Xfer = XferRx | XferTx

  /** I2C_Speed_t; the enumerator values are the FREQUENCY register settings. */
  datatype Speed = Speed100K | Speed250K | Speed400K
  {
    function Frequency(): u32 {
      match this
      case Speed100K => 0x0198_0000
      case Speed250K => 0x0400_0000
      case Speed400K => 0x0668_0000
    }
  }

  /** I2C_IT_t: interrupt enable bits (INTENSET layout). */
  const ItStopped: u32 := 0x2        // bit 1
  const ItRxReady: u32 := 0x4        // bit 2
  const ItTxdSent: u32 := 0x80       // bit 7
  const ItErr: u32 := 0x200          // bit 9
  const ItBb: u32 := 0x4000          // bit 14
  const ItSuspend: u32 := 0x4_0000   // bit 18

  /** The mask installed by I2C_InitDefault: the OR of all six bits, which are
      distinct, so the OR equals the sum. */
  const DefaultInterrupts: u32 := ItStopped + ItRxReady + ItTxdSent + ItErr + ItBb + ItSuspend

  /** SHORTS register bits of the nRF52 TWI: BB_SUSPEND is bit 0, BB_STOP bit 1. */
  const ShortsBbSuspend: u32 := 0x1
  const ShortsBbStop: u32 := 0x2

  /** The value written to ENABLE to switch the TWI peripheral on. */
  const EnableTwi: u32 := 0x5

  /** The six event flags the interrupt handler inspects (true: pending). */
  datatype Events = Events(error: bool, stopped: bool, rxdReady: bool,
                           txdSent: bool, bb: bool, suspended: bool)

  const NoEvents := Events(false, false, false, false, false, false)

  /** The register block of one TWI instance (the data registers; tasks are
      write-only triggers and are recorded in a trace instead). */
  datatype Regs = Regs(enable: u32, address: u32, frequency: u32,
                       pselscl: u32, pselsda: u32, intenset: u32,
                       shorts: u32, rxd: u8, events: Events)

  /** One entry of the transfer trace: a write of 1 to a TASKS_* register, a
      byte written to TXD, a write to ADDRESS or SHORTS by the start and stop
      sequences, or the end of a spin `while (State != awaited);` that had to
      wait for an interrupt. */
  datatype Task =
    | StartTx | StartRx | Suspend | Resume | Stop
    | TxdWrite(b: u8)
    | AddressWrite(address: u32)
    | ShortsWrite(shorts: u32)
    | WaitDone(awaited: State)

  /** What the hardware does while the driver spins at one of its waits: it
      raises `events`, latches `rxd` into RXD when a byte has arrived
      (RXDREADY), and the TWI interrupt runs the driver's handler. */
  datatype Delivery = Delivery(events: Events, rxd: u8)
}
