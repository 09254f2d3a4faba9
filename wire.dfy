/** The GPIO traffic the driver produces: the events of one bit-banged byte
    transfer, of a register read or write frame, and of the driver's
    higher-level operations, as functions of the MISO samples. A sample
    stream `f` says, for the m-th `digitalRead` of the session, whether it
    returned 1. */
module Wire {
  import opened Bits
  import opened Registers

  /** The four GPIO pin numbers the driver is constructed with. */
  datatype Pins = Pins(cs: int, mosi: int, miso: int, sclk: int)

  /** CS, SCLK and MOSI, the pins the driver writes, are three different
      pins; MISO, which it only reads, is unconstrained. */
  predicate Distinct(p: Pins)
  {
    p.cs != p.sclk && p.cs != p.mosi && p.sclk != p.mosi
  }

  /** One GPIO call: `digitalWrite`, `digitalRead` (with the value it
      returned) or a sleep of the calling thread. */
  datatype Event = Write(pin: int, value: Byte) | Read(pin: int, value: Byte) | Delay(millis: int)

  /** The calls of the loop iteration that sends bit i of x. */
  function Cycle(p: Pins, x: Byte, i: nat, sample: bool): seq<Event>
    requires i < 8
  {
    [Write(p.sclk, HIGH), Write(p.mosi, x & (1 << i)), Write(p.sclk, LOW), Read(p.miso, Bit(sample))]
  }

  /** The first n iterations of `spixfer(x)`, bits 7 down to 8 - n, reading
      the samples f(k), ..., f(k + n - 1). */
  function Xfer(p: Pins, x: Byte, f: nat -> bool, k: nat, n: nat): seq<Event>
    requires n <= 8
  {
    if n == 0 then [] else Xfer(p, x, f, k, n - 1) + Cycle(p, x, 8 - n, f(k + n - 1))
  }

  /** All of `spixfer(x)`; its reply is `Gather(f, k, 8)`. */
  function Transfer(p: Pins, x: Byte, f: nat -> bool, k: nat): seq<Event>
  {
    Xfer(p, x, f, k, 8)
  }

  /** n transfers of the dummy byte 0xFF, the i-th reading samples from
      k + 8 * i on. */
  function Dummies(p: Pins, n: nat, f: nat -> bool, k: nat): seq<Event>
  {
    if n == 0 then [] else Dummies(p, n - 1, f, k) + Transfer(p, 0xFF, f, k + 8 * (n - 1))
  }

  /** SCLK low, CS low, the transfers, CS high: one SPI transaction. */
  function Framed(p: Pins, body: seq<Event>): seq<Event>
  {
    [Write(p.sclk, LOW), Write(p.cs, LOW)] + body + [Write(p.cs, HIGH)]
  }

  /** `readRegisterN(addr, buffer, n)`: the i-th byte read is
      `Gather(f, k + 8 + 8 * i, 8)`. */
  function ReadFrame(p: Pins, addr: Byte, n: nat, f: nat -> bool, k: nat): seq<Event>
  {
    Framed(p, Transfer(p, addr & 0x7F, f, k) + Dummies(p, n, f, k + 8))
  }

  /** `writeRegister8(addr, data)`. */
  function WriteFrame(p: Pins, addr: Byte, data: Byte, f: nat -> bool, k: nat): seq<Event>
  {
    Framed(p, Transfer(p, addr | 0x80, f, k) + Transfer(p, data, f, k + 8))
  }

  /** One read-modify-write of the configuration register: a one-byte read
      (16 samples) and a write (16 samples) of the changed byte. */
  function Update(p: Pins, op: ConfigOp, f: nat -> bool, k: nat): seq<Event>
  {
    ReadFrame(p, CONFIG_REG, 1, f, k) + WriteFrame(p, CONFIG_REG, Apply(op, Gather(f, k + 8, 8)), f, k + 16)
  }

  function Updates(p: Pins, ops: seq<ConfigOp>, f: nat -> bool, k: nat): seq<Event>
  {
    if ops == [] then [] else Update(p, ops[0], f, k) + Updates(p, ops[1..], f, k + 32)
  }

  /** `init`, with the pin-mode calls left out. */
  function InitEvents(p: Pins, wires: Wires, f: nat -> bool, k: nat): seq<Event>
  {
    [Write(p.cs, HIGH), Write(p.sclk, LOW)] + Updates(p, InitOps(wires), f, k)
  }

  /** The start of `readRTD`: clear faults, bias on, wait 10 ms, start a
      one-shot conversion, wait 65 ms. */
  function RtdPrologue(p: Pins, f: nat -> bool, k: nat): seq<Event>
  {
    Update(p, ClearFault, f, k) + Update(p, SetBias(true), f, k + 32) + [Delay(10)]
      + Update(p, StartOneShot, f, k + 64) + [Delay(65)]
  }

  /** `readRTD`: the prologue, then the read of the two RTD bytes. */
  function RtdEvents(p: Pins, f: nat -> bool, k: nat): seq<Event>
  {
    RtdPrologue(p, f, k) + ReadFrame(p, RTDMSB_REG, 2, f, k + 96)
  }

  /** The code `readRTD` returns on the samples of `RtdEvents(p, f, k)`. */
  function RtdResult(f: nat -> bool, k: nat): Int
  {
    RtdCode(Join16(Gather(f, k + 104, 8), Gather(f, k + 112, 8)))
  }

  /** The values written to `pin`, in order. */
  function Writes(pin: int, es: seq<Event>): seq<Byte>
  {
    if es == [] then []
    else (if es[0].Write? && es[0].pin == pin then [es[0].value] else []) + Writes(pin, es[1..])
  }

  /** n clock pulses: HIGH then LOW, n times. */
  function Clock(n: nat): (r: seq<Byte>)
    ensures |r| == 2 * n
  {
    seq(2 * n, i => if i % 2 == 0 then HIGH else LOW)
  }

  lemma {:induction false} WritesAppend(pin: int, a: seq<Event>, b: seq<Event>)
    ensures Writes(pin, a + b) == Writes(pin, a) + Writes(pin, b)
  {
    if a == [] {
      assert a + b == b;
    } else {
      assert (a + b)[1..] == a[1..] + b;
      WritesAppend(pin, a[1..], b);
    }
  }

  lemma ClockAppend(m: nat, n: nat)
    ensures Clock(m + n) == Clock(m) + Clock(n)
  {
    forall i | 0 <= i < 2 * (m + n)
      ensures Clock(m + n)[i] == (Clock(m) + Clock(n))[i]
    {
      if i >= 2 * m {
        ParityShift(i - 2 * m, m);
      }
    }
  }

  lemma ClockStep(n: nat)
    ensures Clock(n + 1) == Clock(n) + [HIGH, LOW]
  {
    ClockAppend(n, 1);
    assert Clock(1) == [HIGH, LOW];
  }

  lemma {:induction false} ParityShift(j: nat, m: nat)
    ensures (j + 2 * m) % 2 == j % 2
  {
    if m > 0 {
      ParityShift(j, m - 1);
      assert j + 2 * m == (j + 2 * (m - 1)) + 2;
    }
  }

  lemma WritesOne(pin: int, e: Event)
    ensures Writes(pin, [e]) == if e.Write? && e.pin == pin then [e.value] else []
  {
    assert [e][1..] == [];
  }

  lemma CycleWrites(p: Pins, x: Byte, i: nat, sample: bool)
    requires i < 8
    requires Distinct(p)
    ensures Writes(p.sclk, Cycle(p, x, i, sample)) == [HIGH, LOW]
    ensures Writes(p.cs, Cycle(p, x, i, sample)) == []
  {
    var e0, e1, e2, e3 := Write(p.sclk, HIGH), Write(p.mosi, x & (1 << i)), Write(p.sclk, LOW), Read(p.miso, Bit(sample));
    assert Cycle(p, x, i, sample) == [e0] + [e1] + [e2] + [e3];
    forall pin | pin == p.sclk || pin == p.cs
      ensures Writes(pin, Cycle(p, x, i, sample))
           == Writes(pin, [e0]) + Writes(pin, [e1]) + Writes(pin, [e2]) + Writes(pin, [e3])
    {
      WritesAppend(pin, [e0] + [e1] + [e2], [e3]);
      WritesAppend(pin, [e0] + [e1], [e2]);
      WritesAppend(pin, [e0], [e1]);
    }
    WritesOne(p.sclk, e0); WritesOne(p.sclk, e1); WritesOne(p.sclk, e2); WritesOne(p.sclk, e3);
    WritesOne(p.cs, e0); WritesOne(p.cs, e1); WritesOne(p.cs, e2); WritesOne(p.cs, e3);
  }

  /** The MOSI level of each loop iteration is nonzero exactly when the bit
      it sends is set. */
  lemma MosiLevel(p: Pins, x: Byte, i: nat, sample: bool)
    requires i < 8
    ensures Cycle(p, x, i, sample)[1].pin == p.mosi
    ensures Cycle(p, x, i, sample)[1].value != LOW <==> IsSet(x, i)
  {
  }

  /** A transfer makes exactly n clock pulses, starting each with SCLK high
      and leaving SCLK low, and does not touch CS. */
  lemma {:induction false} XferClock(p: Pins, x: Byte, f: nat -> bool, k: nat, n: nat)
    requires n <= 8
    requires Distinct(p)
    ensures Writes(p.sclk, Xfer(p, x, f, k, n)) == Clock(n)
    ensures Writes(p.cs, Xfer(p, x, f, k, n)) == []
  {
    if n > 0 {
      var prev := Xfer(p, x, f, k, n - 1);
      var c := Cycle(p, x, 8 - n, f(k + n - 1));
      assert Xfer(p, x, f, k, n) == prev + c;
      XferClock(p, x, f, k, n - 1);
      WritesAppend(p.sclk, prev, c);
      WritesAppend(p.cs, prev, c);
      CycleWrites(p, x, 8 - n, f(k + n - 1));
      ClockStep(n - 1);
    }
  }

  lemma {:induction false} DummiesClock(p: Pins, n: nat, f: nat -> bool, k: nat)
    requires Distinct(p)
    ensures Writes(p.sclk, Dummies(p, n, f, k)) == Clock(8 * n)
    ensures Writes(p.cs, Dummies(p, n, f, k)) == []
  {
    if n > 0 {
      var t := Transfer(p, 0xFF, f, k + 8 * (n - 1));
      DummiesClock(p, n - 1, f, k);
      XferClock(p, 0xFF, f, k + 8 * (n - 1), 8);
      WritesAppend(p.sclk, Dummies(p, n - 1, f, k), t);
      WritesAppend(p.cs, Dummies(p, n - 1, f, k), t);
      ClockAppend(8 * (n - 1), 8);
    }
  }

  /** A transaction drives CS low once and high once, and pulls SCLK low
      before anything else it clocks. */
  lemma FramedWrites(p: Pins, body: seq<Event>)
    requires Distinct(p)
    requires Writes(p.cs, body) == []
    ensures Writes(p.cs, Framed(p, body)) == [LOW, HIGH]
    ensures Writes(p.sclk, Framed(p, body)) == [LOW] + Writes(p.sclk, body)
  {
    var e0, e1, e2 := Write(p.sclk, LOW), Write(p.cs, LOW), Write(p.cs, HIGH);
    assert Framed(p, body) == [e0] + [e1] + body + [e2];
    forall pin | pin == p.sclk || pin == p.cs
      ensures Writes(pin, Framed(p, body))
           == Writes(pin, [e0]) + Writes(pin, [e1]) + Writes(pin, body) + Writes(pin, [e2])
    {
      WritesAppend(pin, [e0] + [e1] + body, [e2]);
      WritesAppend(pin, [e0] + [e1], body);
      WritesAppend(pin, [e0], [e1]);
    }
    WritesOne(p.sclk, e0); WritesOne(p.sclk, e1); WritesOne(p.sclk, e2);
    WritesOne(p.cs, e0); WritesOne(p.cs, e1); WritesOne(p.cs, e2);
  }

  /** A register read drives CS low once and high once, and clocks exactly
      8 pulses per byte, the address byte included, after pulling SCLK low. */
  lemma ReadFrameClock(p: Pins, addr: Byte, n: nat, f: nat -> bool, k: nat)
    requires Distinct(p)
    ensures Writes(p.cs, ReadFrame(p, addr, n, f, k)) == [LOW, HIGH]
    ensures Writes(p.sclk, ReadFrame(p, addr, n, f, k)) == [LOW] + Clock(8 * (n + 1))
  {
    var t := Transfer(p, addr & 0x7F, f, k);
    var d := Dummies(p, n, f, k + 8);
    XferClock(p, addr & 0x7F, f, k, 8);
    DummiesClock(p, n, f, k + 8);
    ClockAppend(8, 8 * n);
    WritesAppend(p.cs, t, d);
    WritesAppend(p.sclk, t, d);
    FramedWrites(p, t + d);
  }

  /** A register write drives CS low once and high once around exactly 16
      clock pulses. */
  lemma WriteFrameClock(p: Pins, addr: Byte, data: Byte, f: nat -> bool, k: nat)
    requires Distinct(p)
    ensures Writes(p.cs, WriteFrame(p, addr, data, f, k)) == [LOW, HIGH]
    ensures Writes(p.sclk, WriteFrame(p, addr, data, f, k)) == [LOW] + Clock(16)
  {
    var t := Transfer(p, addr | 0x80, f, k);
    var d := Transfer(p, data, f, k + 8);
    XferClock(p, addr | 0x80, f, k, 8);
    XferClock(p, data, f, k + 8, 8);
    ClockAppend(8, 8);
    WritesAppend(p.cs, t, d);
    WritesAppend(p.sclk, t, d);
    FramedWrites(p, t + d);
  }
}
