# MAX31865 RTD driver, modelled in Dafny

This project models the Java driver `AdafruitMax31865` for the MAX31865
resistance-temperature-detector front end. The driver bit-bangs SPI over four
GPIO pins: chip select (CS), clock (SCLK), data out (MOSI) and data in (MISO).
Over that it builds register reads and writes. With those it keeps the
chip's configuration register (0x00) by read-modify-write, starts one-shot
conversions, reads the 15-bit RTD code from registers 0x01/0x02, and decodes
the fault-status register 0x07.

Modules, leaf to root:

- `Bits` (bits.dfy): bytes as `bv8`, and the MSB-first assembly of a byte from
  MISO samples (`Gather`). It also shows that the Java `int` reply of `spixfer`
  equals that byte.
- `Registers` (registers.dfy): the register and bit constants of the driver.
  It also holds the configuration-byte transitions of `setWires`, `setBias`,
  `setAutoconvert`, `clearFault` and the one-shot trigger, the 16-bit join of
  `readRegister16`, and the `>>= 1` of `readRTD`.
- `Faults` (faults.dfy): `bool(int)` and the decoding of the fault byte into
  the six-flag `Fault` record, with an encoder as its right inverse (decoding
  is not injective: it ignores bits 0x02 and 0x01).
- `Wire` (wire.dfy): the exact sequence of GPIO calls each driver operation
  makes, as a function of the MISO samples. `f(m)` says whether the m-th
  `digitalRead` of the session returned 1. Lemmas give the shape of the clock
  and CS lines.
- `Chip` (chip.dfy): a reference model of the chip as the driver addresses
  it, on which the driver's traces are run:
  - a register file behind an SPI receiver;
  - MOSI is latched on the falling SCLK edge;
  - the next MISO bit is presented on the rising edge;
  - the first byte of a CS frame is the address, with bit 7 set for a write;
  - later bytes auto-increment the address.
- `Operations` (operations.dfy): runs the driver's traces on the chip. A
  read-modify-write changes register 0x00 only, to the transition of the byte
  read. When the samples are the chip's replies, `init` and `readRTD` leave
  the configuration given by `InitConfig` and `RtdConfig`, and `readRTD`
  and `getFault` return what the chip's registers hold.
- `Driver` (driver.dfy): the driver object itself.
  - Class `Board` is the GPIO layer: it records every call and serves MISO
    samples from `input`.
  - Class `Max31865` has a method for each Java method of the core, with
    the same statements, except:
    - the `for` loop of `readRegisterN` (lines 477-479) is its own method,
      `ReadBytes`, which `ReadRegisterN` calls;
    - the MOSI mask `1 << i` is the table `Bits.Mask`;
    - `reset`, `resistance` and `temperature` have no method (see below).
    `SpiXfer` and `ReadBytes` keep the source's loops.
  - Each method's postcondition states its whole GPIO trace as the `Wire`
    function, and what it returns.

The chip model makes these assumptions:
- the registers change only through SPI writes (no autonomous conversion
  result is modelled);
- MISO is read as the chip drives it (the `Faithful` predicate, which
  connects a sample stream with a chip state);
- CS, SCLK and MOSI are three different pins (`Wire.Distinct`). Every clock
  and CS shape lemma of `Wire` and every lemma of `Chip` and `Operations`
  requires it. The driver never checks this; the pin numbers in `App.java`
  (22, 12, 13, 14) satisfy it.

## Model

| member | source | states |
|---|---|---|
| Bits.MaskIsShift | src/main/java/com/trustysoft/adafruit/max31865/AdafruitMax31865.java:458 | the table of bit masks used for MOSI is `1 << i` for every bit position 0..7 |
| Bits.ShiftIn | src/main/java/com/trustysoft/adafruit/max31865/AdafruitMax31865.java:456-462 | one loop step of `spixfer`: the old bit 6 of the reply becomes bit 7, and bit 0 is the MISO sample |
| Bits.GatherMsbFirst | src/main/java/com/trustysoft/adafruit/max31865/AdafruitMax31865.java:452-466 | after the eight iterations, the sample read in iteration j (i = 7 - j) is bit 7 - j of the reply: the reply is assembled MSB first |
| Bits.GatherIsBits | src/main/java/com/trustysoft/adafruit/max31865/AdafruitMax31865.java:452-466 | the reply equals a byte b exactly when the eight samples are the bits of b, top bit first (both directions) |
| Bits.GatherValue | src/main/java/com/trustysoft/adafruit/max31865/AdafruitMax31865.java:453-465 | the reply computed on a Java `int` (doubled, plus one on a high sample) equals the 8-bit reply and is below 2^n after n iterations, so a full reply lies in [0, 255] |
| Registers.WithWires | src/main/java/com/trustysoft/adafruit/max31865/AdafruitMax31865.java:411-427 | after `setWires` the 3-wire bit 0x10 is set exactly for THREE, and every other bit of the configuration byte is unchanged |
| Registers.TwoAndFourAgree | src/main/java/com/trustysoft/adafruit/max31865/AdafruitMax31865.java:414-424 | TWO and FOUR wires give the same configuration byte |
| Registers.WithBias | src/main/java/com/trustysoft/adafruit/max31865/AdafruitMax31865.java:429-437 | the bias bit 0x80 is set exactly when `bias` holds; no other bit changes |
| Registers.BiasLastWins | src/main/java/com/trustysoft/adafruit/max31865/AdafruitMax31865.java:429-437 | a second `setBias` overrides the first |
| Registers.WithAutoconvert | src/main/java/com/trustysoft/adafruit/max31865/AdafruitMax31865.java:439-447 | the auto-conversion bit 0x40 is set exactly when `autoconvert` holds; no other bit changes |
| Registers.BiasAutoconvertCommute | src/main/java/com/trustysoft/adafruit/max31865/AdafruitMax31865.java:429-447 | setting bias and auto-conversion in either order gives the same byte |
| Registers.WithFaultCleared | src/main/java/com/trustysoft/adafruit/max31865/AdafruitMax31865.java:401-406 | `clearFault` clears the bits of 0x2C and with them the one-shot bit; it sets the fault-status-clear bit 0x02 and keeps 0x80, 0x40, 0x10 and 0x01 |
| Registers.ClearFaultIdempotent | src/main/java/com/trustysoft/adafruit/max31865/AdafruitMax31865.java:401-406 | clearing faults twice gives the same byte as clearing once |
| Registers.WithOneShot | src/main/java/com/trustysoft/adafruit/max31865/AdafruitMax31865.java:237-239 | the step of `readRTD` that requests a conversion sets 0x20 and keeps every other bit |
| Registers.InitConfig | src/main/java/com/trustysoft/adafruit/max31865/AdafruitMax31865.java:195-198 | the four transitions of `init`, in order, keep only bit 0x01 of the old byte and set 0x12 for THREE wires and 0x02 otherwise |
| Registers.RtdConfig | src/main/java/com/trustysoft/adafruit/max31865/AdafruitMax31865.java:231-239 | clear faults, bias on and one-shot, in order, keep bits 0x51 of the old byte and set 0xA2: bias on, one-shot set, fault-detection bits clear, fault-status clear set, other bits kept |
| Registers.RtdConfigSteps | src/main/java/com/trustysoft/adafruit/max31865/AdafruitMax31865.java:231-239 | that byte is the three transitions applied one after the other |
| Registers.Join16 | src/main/java/com/trustysoft/adafruit/max31865/AdafruitMax31865.java:490-499 | the 16-bit value is below 0x10000; its high byte is the first byte read and its low byte the second |
| Registers.RtdCode | src/main/java/com/trustysoft/adafruit/max31865/AdafruitMax31865.java:243-245 | the arithmetic `>>= 1` of a 16-bit value drops exactly its low bit: the code is below 0x8000 and shifting it back, with the dropped bit restored, gives the value |
| Registers.RtdExample | src/main/java/com/trustysoft/adafruit/max31865/AdafruitMax31865.java:243-245 | the register bytes 0x80, 0x02 give the code 0x4001 |
| Faults.DecodeFault | src/main/java/com/trustysoft/adafruit/max31865/AdafruitMax31865.java:327-338 | each of the six flags holds exactly when its mask (0x80, 0x40, 0x20, 0x10, 0x08, 0x04) is set in the raw byte |
| Faults.DecodeEncode | src/main/java/com/trustysoft/adafruit/max31865/AdafruitMax31865.java:327-338 | every combination of the six flags is the decoding of some byte: the flags are independent |
| Faults.EncodeDecode | src/main/java/com/trustysoft/adafruit/max31865/AdafruitMax31865.java:327-338 | decoding keeps the six flag bits and nothing else |
| Faults.DecodeSameIff | src/main/java/com/trustysoft/adafruit/max31865/AdafruitMax31865.java:327-338 | two bytes decode alike exactly when they agree on 0xFC, so bits 0x02 and 0x01 have no effect |
| Faults.NoFaultByte | src/main/java/com/trustysoft/adafruit/max31865/AdafruitMax31865.java:327-338 | the byte 0x00 reports no fault |
| Faults.AllFaultsByte | src/main/java/com/trustysoft/adafruit/max31865/AdafruitMax31865.java:327-338 | the byte 0xFC reports all six faults |
| Wire.MosiLevel | src/main/java/com/trustysoft/adafruit/max31865/AdafruitMax31865.java:458 | the second call of each iteration writes MOSI, with a nonzero level exactly when the bit being sent is set |
| Wire.XferClock | src/main/java/com/trustysoft/adafruit/max31865/AdafruitMax31865.java:455-463 | n iterations write SCLK HIGH then LOW exactly n times, ending low, and never touch CS |
| Wire.DummiesClock | src/main/java/com/trustysoft/adafruit/max31865/AdafruitMax31865.java:477-479 | n dummy transfers make exactly 8n clock pulses and do not touch CS |
| Wire.FramedWrites | src/main/java/com/trustysoft/adafruit/max31865/AdafruitMax31865.java:471-481 | a transaction drives CS low once and high once, and pulls SCLK low before its clock pulses |
| Wire.ReadFrameClock | src/main/java/com/trustysoft/adafruit/max31865/AdafruitMax31865.java:468-482 | a read of n registers is one CS frame with SCLK pulled low and then 8(n + 1) pulses |
| Wire.WriteFrameClock | src/main/java/com/trustysoft/adafruit/max31865/AdafruitMax31865.java:501-510 | a register write is one CS frame with SCLK pulled low and then 16 pulses |
| Chip.CycleRun | src/main/java/com/trustysoft/adafruit/max31865/AdafruitMax31865.java:456-462 | one iteration, on the chip: the rising edge presents the next output bit, the MOSI level is the bit sent, and the falling edge latches it; the read agrees with the chip whenever the chip drives MISO |
| Chip.TransferRun | src/main/java/com/trustysoft/adafruit/max31865/AdafruitMax31865.java:452-466 | a whole `spixfer(x)` from a byte boundary delivers x to the chip, and when the chip is sending, the samples are faithful exactly when the reply is the chip's byte |
| Chip.FramedRun | src/main/java/com/trustysoft/adafruit/max31865/AdafruitMax31865.java:471-481 | SCLK low then CS low starts a new frame at a byte boundary; CS high ends it |
| Chip.DummiesRun | src/main/java/com/trustysoft/adafruit/max31865/AdafruitMax31865.java:477-479 | the dummy transfers leave the registers alone, advance the address once per byte, and are faithful exactly when each byte read is the next register |
| Chip.ReadFrameRun | src/main/java/com/trustysoft/adafruit/max31865/AdafruitMax31865.java:468-482 | `readRegisterN` sends `addr & 0x7F` and n bytes of 0xFF in one frame; it changes no register, and its samples are faithful exactly when byte i is the i-th register after `addr & 0x7F`, the address wrapping from 0x7F to 0x00 (`Chip.Offset`) |
| Chip.WriteFrameRun | src/main/java/com/trustysoft/adafruit/max31865/AdafruitMax31865.java:501-510 | `writeRegister8` sends the address with bit 7 set, then the data, in one frame, and stores the data in register `addr & 0x7F`, whatever MISO reads |
| Operations.UpdateRun | src/main/java/com/trustysoft/adafruit/max31865/AdafruitMax31865.java:411-427 | a read-modify-write of register 0x00 changes that register only, to the transition applied to the byte read, and the read is faithful exactly when it returned the register (`clearFault`, `setBias`, `setAutoconvert` have the same shape) |
| Operations.UpdatesRun | src/main/java/com/trustysoft/adafruit/max31865/AdafruitMax31865.java:195-198 | a sequence of read-modify-writes ends outside a frame and, when the samples are faithful, leaves register 0x00 equal to the composed transitions of its old value |
| Operations.InitRun | src/main/java/com/trustysoft/adafruit/max31865/AdafruitMax31865.java:185-199 | `init` from any chip state ends outside a frame, with register 0x00 equal to `InitConfig` of its old value and every other register kept, when the samples are faithful |
| Operations.RtdPrologueRun | src/main/java/com/trustysoft/adafruit/max31865/AdafruitMax31865.java:231-241 | the part of `readRTD` before the RTD read ends outside a frame and, when the samples are faithful, leaves register 0x00 equal to `RtdConfig` of its old value |
| Operations.RtdBytesRun | src/main/java/com/trustysoft/adafruit/max31865/AdafruitMax31865.java:230-243 | with faithful samples, the two bytes `readRTD` reads are registers 0x01 and 0x02 |
| Operations.RtdRun | src/main/java/com/trustysoft/adafruit/max31865/AdafruitMax31865.java:230-248 | with faithful samples, `readRTD` returns the code of the register pair 0x01, 0x02 without its fault bit |
| Operations.FaultRun | src/main/java/com/trustysoft/adafruit/max31865/AdafruitMax31865.java:316-338 | `readFault` changes no register, and its sample is faithful exactly when it is register 0x07; then `getFault` reports that register's decoding |
| Driver.Max31865.constructor | src/main/java/com/trustysoft/adafruit/max31865/AdafruitMax31865.java:165-180 | stores the pins and the wiring, then makes the GPIO calls of `init` |
| Driver.Max31865.Init | src/main/java/com/trustysoft/adafruit/max31865/AdafruitMax31865.java:185-199 | CS high, SCLK low, then `setWires`, `setBias(false)`, `setAutoconvert(false)`, `clearFault`: the trace is `InitEvents` and 128 samples are read |
| Driver.Max31865.SpiXfer | src/main/java/com/trustysoft/adafruit/max31865/AdafruitMax31865.java:452-466 | returns the byte the eight samples assemble MSB first; for bits 7 down to 0 it writes SCLK HIGH, MOSI `x & (1 << i)`, SCLK LOW, then reads MISO |
| Driver.Max31865.ReadRegisterN | src/main/java/com/trustysoft/adafruit/max31865/AdafruitMax31865.java:468-482 | the trace is `ReadFrame`; buffer[i] is the i-th byte after the address byte, and the rest of the buffer is unchanged |
| Driver.Max31865.ReadBytes | src/main/java/com/trustysoft/adafruit/max31865/AdafruitMax31865.java:477-479 | n transfers of 0xFF, the i-th reply stored in buffer[i] and nothing else in the buffer changed |
| Driver.Max31865.ReadRegister8 | src/main/java/com/trustysoft/adafruit/max31865/AdafruitMax31865.java:484-488 | returns the one byte of a one-register read frame |
| Driver.Max31865.ReadRegister16 | src/main/java/com/trustysoft/adafruit/max31865/AdafruitMax31865.java:490-499 | returns `Join16` of the two bytes of a two-register read frame |
| Driver.Max31865.WriteRegister8 | src/main/java/com/trustysoft/adafruit/max31865/AdafruitMax31865.java:501-510 | the trace is `WriteFrame`: SCLK low, CS low, the address with bit 7 set, the data, CS high |
| Driver.Max31865.ClearFault | src/main/java/com/trustysoft/adafruit/max31865/AdafruitMax31865.java:401-406 | the trace is the read-modify-write that writes `WithFaultCleared` of the byte read |
| Driver.Max31865.SetWires | src/main/java/com/trustysoft/adafruit/max31865/AdafruitMax31865.java:411-427 | the trace is the read-modify-write that writes `WithWires` of the byte read |
| Driver.Max31865.SetBias | src/main/java/com/trustysoft/adafruit/max31865/AdafruitMax31865.java:429-437 | the trace is the read-modify-write that writes `WithBias` of the byte read |
| Driver.Max31865.SetAutoconvert | src/main/java/com/trustysoft/adafruit/max31865/AdafruitMax31865.java:439-447 | the trace is the read-modify-write that writes `WithAutoconvert` of the byte read |
| Driver.Max31865.ReadRtd | src/main/java/com/trustysoft/adafruit/max31865/AdafruitMax31865.java:230-248 | the trace is `RtdEvents`, with waits of 10 and 65 ms; the result is `RtdResult` and below 0x8000 |
| Driver.Max31865.ReadFault | src/main/java/com/trustysoft/adafruit/max31865/AdafruitMax31865.java:316-318 | returns the byte of a one-register read of 0x07 |
| Driver.Max31865.GetFault | src/main/java/com/trustysoft/adafruit/max31865/AdafruitMax31865.java:327-338 | returns `DecodeFault` of the byte read from register 0x07 |
| Driver.Max31865.Sleep | src/main/java/com/trustysoft/adafruit/max31865/AdafruitMax31865.java:515-519 | records one wait of the given length and reads nothing |

`bool(int)` (lines 521-525) is `Faults.AsBool`, used by `DecodeFault`. The
constants of lines 108-122 are the `const` declarations of `Registers` and
`Faults`, with their values unchanged. The `Wires` enumeration (lines 136-150)
is `Registers.Wires`.

## Left out

- `resistance()` and `temperature()` (lines 257-305): floating-point
  arithmetic, which Dafny cannot model faithfully. For the same reason the
  `rtdNominal` and `refResistor` fields are not modelled.
- `reset()` (lines 205-217): teardown that releases the pins, outside the
  register logic. Its three `pinModeAlt` calls, its `pinMode` call and its
  four `digitalWrite` calls (SCLK LOW, MOSI HIGH, MISO LOW, CS HIGH) are not
  modelled.
- The four `pinMode` calls in `init` (lines 186, 189, 192, 193): pin-direction
  configuration of the GPIO layer, which does not change the values driven
  or read.
- A null `wires`: `setWires` would throw a `NullPointerException` at line 414,
  after the CS and SCLK writes of `init` and the read frame of register 0x00,
  and construction would fail. The model's `Wires` cannot be null, so this
  path is not modelled.
- `Gpio.wiringPiSetup()` in the constructor: it is I/O outside the driver.
  The code creates a `RuntimeException` on failure, discards it, and goes
  on, so construction always proceeds. The model follows the code here.
- `sleep`: the wait itself, and an `InterruptedException` that ends it early
  (which the code ignores), are not modelled. A sleep is recorded as a
  `Delay` event of its length.
- `Fault` getters and `Fault.toString`, and the example program `App.java`:
  the getters are the record's fields; the rest is presentation.
- Board.DigitalRead: the GPIO read is assumed to return 0 or 1. The code
  tests `== 1`, so another value would be read as 0.
- Driver.Max31865.SpiXfer: `x` is a byte rather than a Java `int`. Every
  caller passes a byte (a register address with bit 7 cleared or set, 0xFF,
  or a configuration byte read from the chip). The MOSI mask is a
  table, `Bits.Mask`, equal to `1 << i` by `Bits.MaskIsShift`.
- Driver.Max31865.ReadRegisterN: requires `n <= buffer.Length`. Java would
  throw an `ArrayIndexOutOfBoundsException` midway; its two callers always
  pass a buffer of length n.
- Concurrency: the driver is single-threaded and has no locking; the model
  is sequential.
