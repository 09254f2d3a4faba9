/** Register addresses, configuration-register bits and the pure bit
    arithmetic of the driver's read-modify-write transitions. */
module Registers {
  import opened Bits

  /** A Java `int` that can exceed a byte: the 16-bit RTD register value. */
  type Int = bv32

  const CONFIG_REG: Byte := 0x00
  const CONFIG_3WIRE: Byte := 0x10
  const CONFIG_FAULTSTAT: Byte := 0x02
  const CONFIG_BIAS: Byte := 0x80
  const CONFIG_1SHOT: Byte := 0x20
  const RTDMSB_REG: Byte := 0x01
  const CONFIG_MODEAUTO: Byte := 0x40
  const FAULTSTAT_REG: Byte := 0x07

  /** The bits `clearFault` clears: one-shot (0x20) and the two
      fault-detection cycle bits (0x08, 0x04). */
  const FAULT_CONTROL: Byte := 0x2C

  /** Number of wires between the chip and the sensor. */
  datatype Wires = Two | Three | Four

  /** The 3-wire bit after `setWires`: set for THREE, cleared for TWO and FOUR. */
  function WithWires(config: Byte, wires: Wires): (r: Byte)
    ensures (r & CONFIG_3WIRE != 0) <==> wires == Three
    ensures r & !CONFIG_3WIRE == config & !CONFIG_3WIRE
  {
    match wires
    case Two => config & !CONFIG_3WIRE
    case Three => config | CONFIG_3WIRE
    case Four => config & !CONFIG_3WIRE
  }

  /** `setBias`: the bias bit follows the argument, no other bit changes. */
  function WithBias(config: Byte, bias: bool): (r: Byte)
    ensures (r & CONFIG_BIAS != 0) <==> bias
    ensures r & !CONFIG_BIAS == config & !CONFIG_BIAS
  {
    if bias then config | CONFIG_BIAS else config & !CONFIG_BIAS
  }

  /** `setAutoconvert`: the auto-conversion bit follows the argument, no other
      bit changes. */
  function WithAutoconvert(config: Byte, autoconvert: bool): (r: Byte)
    ensures (r & CONFIG_MODEAUTO != 0) <==> autoconvert
    ensures r & !CONFIG_MODEAUTO == config & !CONFIG_MODEAUTO
  {
    if autoconvert then config | CONFIG_MODEAUTO else config & !CONFIG_MODEAUTO
  }

  /** `clearFault`: clears 0x20, 0x08 and 0x04, sets the fault-status-clear
      bit 0x02 and keeps 0x80, 0x40, 0x10 and 0x01. */
  function WithFaultCleared(config: Byte): (r: Byte)
    ensures r & FAULT_CONTROL == 0
    ensures r & CONFIG_1SHOT == 0
    ensures r & CONFIG_FAULTSTAT != 0
    ensures r & !(FAULT_CONTROL | CONFIG_FAULTSTAT) == config & !(FAULT_CONTROL | CONFIG_FAULTSTAT)
  {
    (config & !FAULT_CONTROL) | CONFIG_FAULTSTAT
  }

  /** The one-shot trigger inside `readRTD`: sets 0x20, keeps the rest. */
  function WithOneShot(config: Byte): (r: Byte)
    ensures r & CONFIG_1SHOT != 0
    ensures r & !CONFIG_1SHOT == config & !CONFIG_1SHOT
  {
    config | CONFIG_1SHOT
  }

  /** The configuration-register transitions of the driver, each a read of
      register 0x00, a change of some bits and a write of the whole byte. */
  datatype ConfigOp = SetWires(wires: Wires) | SetBias(bias: bool) | SetAutoconvert(autoconvert: bool)
                    | ClearFault | StartOneShot

  function Apply(op: ConfigOp, config: Byte): Byte
  {
    match op
    case SetWires(w) => WithWires(config, w)
    case SetBias(b) => WithBias(config, b)
    case SetAutoconvert(a) => WithAutoconvert(config, a)
    case ClearFault => WithFaultCleared(config)
    case StartOneShot => WithOneShot(config)
  }

  /** The effect of a sequence of transitions, first one first. */
  function ApplyAll(ops: seq<ConfigOp>, config: Byte): Byte
  {
    if ops == [] then config else ApplyAll(ops[1..], Apply(ops[0], config))
  }

  /** The transitions `init` performs, in order. */
  function InitOps(wires: Wires): seq<ConfigOp>
  {
    [SetWires(wires), SetBias(false), SetAutoconvert(false), ClearFault]
  }

  /** The configuration byte `init` leaves: bias off, one-shot mode, 3-wire
      bit per the wiring, fault-detection bits clear, fault status being
      cleared; only the filter bit 0x01 is kept from before. */
  function InitConfig(config: Byte, wires: Wires): (r: Byte)
    ensures r == (config & 0x01) | (if wires == Three then 0x12 else 0x02)
  {
    var c1 := WithWires(config, wires);
    var c2 := WithBias(c1, false);
    var c3 := WithAutoconvert(c2, false);
    var c4 := WithFaultCleared(c3);
    assert ApplyAll([ClearFault], c3) == c4 by { assert ApplyAll([], c4) == c4; }
    assert ApplyAll([SetAutoconvert(false), ClearFault], c2) == c4;
    assert ApplyAll([SetBias(false), SetAutoconvert(false), ClearFault], c1) == c4;
    assert ApplyAll(InitOps(wires), config) == c4;
    ApplyAll(InitOps(wires), config)
  }

  /** The transitions `readRTD` performs before its conversion wait. */
  function RtdOps(): seq<ConfigOp>
  {
    [ClearFault, SetBias(true), StartOneShot]
  }

  /** The configuration byte `readRTD` writes to start the conversion: bias
      on, one-shot set, fault-detection bits clear, fault status being
      cleared; auto-conversion, 3-wire and filter bits are kept. */
  function RtdConfig(config: Byte): (r: Byte)
    ensures r == (config & 0x51) | 0xA2
  {
    var c1 := WithFaultCleared(config);
    var c2 := WithBias(c1, true);
    var c3 := WithOneShot(c2);
    assert ApplyAll([StartOneShot], c2) == c3 by { assert ApplyAll([], c3) == c3; }
    assert ApplyAll([SetBias(true), StartOneShot], c1) == c3;
    assert ApplyAll(RtdOps(), config) == c3;
    ApplyAll(RtdOps(), config)
  }

  lemma RtdConfigSteps(config: Byte)
    ensures RtdConfig(config) == Apply(StartOneShot, Apply(SetBias(true), Apply(ClearFault, config)))
  {
    var c3 := Apply(StartOneShot, Apply(SetBias(true), Apply(ClearFault, config)));
    assert ApplyAll([StartOneShot], Apply(SetBias(true), Apply(ClearFault, config))) == c3 by {
      assert ApplyAll([], c3) == c3;
    }
    assert ApplyAll([SetBias(true), StartOneShot], Apply(ClearFault, config)) == c3;
    assert ApplyAll(RtdOps(), config) == c3;
  }

  /** `readRegister16`: the first byte read is the high byte. */
  function Join16(hi: Byte, lo: Byte): (r: Int)
    ensures r < 0x1_0000
    ensures r >> 8 == hi as Int && r & 0xFF == lo as Int
  {
    ((hi as Int) << 8) | (lo as Int)
  }

  /** Java's `>>= 1` on an int: a shift that copies the sign bit. */
  function ArithShiftRight1(x: Int): Int
  {
    (x >> 1) | (x & 0x8000_0000)
  }

  /** `readRTD`'s `rtd >>= 1`: drops exactly the low (fault) bit of the
      16-bit register value, leaving a 15-bit code. */
  function RtdCode(raw: Int): (r: Int)
    requires raw < 0x1_0000
    ensures r < 0x8000
    ensures (r << 1) | (raw & 1) == raw
  {
    ArithShiftRight1(raw)
  }

  /** TWO and FOUR wires give the same configuration byte. */
  lemma TwoAndFourAgree(config: Byte)
    ensures WithWires(config, Two) == WithWires(config, Four)
  {
  }

  /** Bias and auto-conversion are independent bits: setting them in either
      order gives the same byte. */
  lemma BiasAutoconvertCommute(config: Byte, bias: bool, autoconvert: bool)
    ensures WithBias(WithAutoconvert(config, autoconvert), bias)
         == WithAutoconvert(WithBias(config, bias), autoconvert)
  {
  }

  /** A later `setBias` overrides an earlier one. */
  lemma BiasLastWins(config: Byte, first: bool, second: bool)
    ensures WithBias(WithBias(config, first), second) == WithBias(config, second)
  {
  }

  /** Clearing faults twice is the same as clearing them once. */
  lemma ClearFaultIdempotent(config: Byte)
    ensures WithFaultCleared(WithFaultCleared(config)) == WithFaultCleared(config)
  {
  }

  /** The two register bytes 0x80, 0x02 give the RTD code 0x4001 (16385). */
  lemma RtdExample()
    ensures RtdCode(Join16(0x80, 0x02)) == 0x4001
  {
  }
}
