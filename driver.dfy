/** The driver object: its private SPI bit-banging and register access and
    its public operations, each over a recording GPIO board. */
module Driver {
  import opened Bits
  import opened Registers
  import opened Faults
  import opened Wire

  /** The GPIO layer as the driver sees it. Every call is appended to
      `trace`; the m-th `digitalRead` of the session returns 1 when
      `input(m)` holds and 0 otherwise. */
  class Board {
    const input: nat -> bool
    var trace: seq<Event>
    var sampled: nat

    constructor(input: nat -> bool)
      ensures this.input == input && trace == [] && sampled == 0
    {
      this.input := input;
      trace := [];
      sampled := 0;
    }

    method DigitalWrite(pin: int, value: Byte)
      modifies this
      ensures trace == old(trace) + [Write(pin, value)] && sampled == old(sampled)
    {
      trace := trace + [Write(pin, value)];
    }

    method DigitalRead(pin: int) returns (value: Byte)
      modifies this
      ensures value == Bit(input(old(sampled)))
      ensures trace == old(trace) + [Read(pin, value)] && sampled == old(sampled) + 1
    {
      value := Bit(input(sampled));
      trace := trace + [Read(pin, value)];
      sampled := sampled + 1;
    }

    /** A pause of the calling thread. */
    method Sleep(millis: int)
      modifies this
      ensures trace == old(trace) + [Delay(millis)] && sampled == old(sampled)
    {
      trace := trace + [Delay(millis)];
    }
  }

  class Max31865 {
    const cs: int
    const mosi: int
    const miso: int
    const sclk: int
    const wires: Wires
    const board: Board

    function P(): Pins
    {
      Pins(cs, mosi, miso, sclk)
    }

    /** The constructor, including `init`. */
    constructor(board: Board, cs: int, mosi: int, miso: int, sclk: int, wires: Wires)
      modifies board
      ensures this.board == board && this.wires == wires
      ensures P() == Pins(cs, mosi, miso, sclk)
      ensures board.trace == old(board.trace) + InitEvents(P(), wires, board.input, old(board.sampled))
      ensures board.sampled == old(board.sampled) + 128
    {
      this.cs := cs;
      this.mosi := mosi;
      this.miso := miso;
      this.sclk := sclk;
      this.wires := wires;
      this.board := board;
      new;
      Init();
    }

    method Init()
      modifies board
      ensures board.trace == old(board.trace) + InitEvents(P(), wires, board.input, old(board.sampled))
      ensures board.sampled == old(board.sampled) + 128
    {
      var k := board.sampled;
      board.DigitalWrite(cs, HIGH);
      board.DigitalWrite(sclk, LOW);
      SetWires();
      ghost var k1 := board.sampled;
      SetBias(false);
      ghost var k2 := board.sampled;
      SetAutoconvert(false);
      ghost var k3 := board.sampled;
      ClearFault();
      InitTrace(P(), wires, board.input, k, k1, k2, k3, old(board.trace), board.trace);
    }

    /** `spixfer(x)`: sends x MSB first and returns the byte sampled. */
    method SpiXfer(x: Byte) returns (reply: Byte)
      modifies board
      ensures reply == Gather(board.input, old(board.sampled), 8)
      ensures board.trace == old(board.trace) + Transfer(P(), x, board.input, old(board.sampled))
      ensures board.sampled == old(board.sampled) + 8
    {
      var k := board.sampled;
      ghost var f := board.input;
      reply := 0;
      var i: int := 7;
      ghost var n: nat := 0;
      while i >= 0
        invariant -1 <= i <= 7 && n == 7 - i
        invariant board.sampled == k + n
        invariant board.trace == old(board.trace) + Xfer(P(), x, f, k, n)
        invariant reply == Gather(f, k, n)
      {
        ghost var t, index := board.trace, board.sampled;
        ghost var acc := reply;
        reply := reply << 1;
        board.DigitalWrite(sclk, HIGH);
        board.DigitalWrite(mosi, x & Mask(i));
        board.DigitalWrite(sclk, LOW);
        var v := board.DigitalRead(miso);
        if v == HIGH {
          reply := reply | 1;
        }
        CycleStep(P(), x, f, k, n, index, i, v, old(board.trace), t, acc, reply, board.trace);
        assert board.trace == old(board.trace) + Xfer(P(), x, f, k, n + 1);
        assert reply == Gather(f, k, n + 1);
        n := n + 1;
        i := i - 1;
      }
    }

    /** `readRegisterN(addr, buffer, n)`: one frame that sends the address
        with bit 7 clear and then clocks in n bytes. */
    method ReadRegisterN(addr: Byte, buffer: array<Byte>, n: nat)
      requires n <= buffer.Length
      modifies board, buffer
      ensures board.trace == old(board.trace) + ReadFrame(P(), addr, n, board.input, old(board.sampled))
      ensures board.sampled == old(board.sampled) + 8 * (n + 1)
      ensures forall i :: 0 <= i < n ==> buffer[i] == Gather(board.input, old(board.sampled) + 8 + 8 * i, 8)
      ensures forall i :: n <= i < buffer.Length ==> buffer[i] == old(buffer[i])
    {
      var k := board.sampled;
      var a := addr & 0x7F;
      board.DigitalWrite(sclk, LOW);
      board.DigitalWrite(cs, LOW);
      var _ := SpiXfer(a);
      ghost var head, k8 := board.trace, board.sampled;
      ReadBytes(buffer, n);
      board.DigitalWrite(cs, HIGH);
      ReadFrameTrace(P(), addr, n, board.input, k, k8, old(board.trace), head, board.trace);
    }

    /** The loop of `readRegisterN`: n transfers of 0xFF, the i-th reply
        stored in buffer[i]. */
    method ReadBytes(buffer: array<Byte>, n: nat)
      requires n <= buffer.Length
      modifies board, buffer
      ensures board.trace == old(board.trace) + Dummies(P(), n, board.input, old(board.sampled))
      ensures board.sampled == old(board.sampled) + 8 * n
      ensures forall i :: 0 <= i < n ==> buffer[i] == Gather(board.input, old(board.sampled) + 8 * i, 8)
      ensures forall i :: n <= i < buffer.Length ==> buffer[i] == old(buffer[i])
    {
      var k := board.sampled;
      ghost var f := board.input;
      var i := 0;
      while i < n
        invariant 0 <= i <= n
        invariant board.sampled == k + 8 * i
        invariant board.trace == old(board.trace) + Dummies(P(), i, f, k)
        invariant forall j :: 0 <= j < i ==> buffer[j] == Gather(f, k + 8 * j, 8)
        invariant forall j :: i <= j < buffer.Length ==> buffer[j] == old(buffer[j])
      {
        ghost var t, index := board.trace, board.sampled;
        var b := SpiXfer(0xFF);
        DummiesStep(P(), f, k, i, index, old(board.trace), t, board.trace);
        buffer[i] := b;
        i := i + 1;
      }
    }

    /** `readRegister8(addr)`. */
    method ReadRegister8(addr: Byte) returns (value: Byte)
      modifies board
      ensures value == Gather(board.input, old(board.sampled) + 8, 8)
      ensures board.trace == old(board.trace) + ReadFrame(P(), addr, 1, board.input, old(board.sampled))
      ensures board.sampled == old(board.sampled) + 16
    {
      var buffer := new Byte[1](_ => 0);
      ReadRegisterN(addr, buffer, 1);
      value := buffer[0];
    }

    /** `readRegister16(addr)`: the first byte read is the high byte. */
    method ReadRegister16(addr: Byte) returns (value: Int)
      modifies board
      ensures value == Join16(Gather(board.input, old(board.sampled) + 8, 8), Gather(board.input, old(board.sampled) + 16, 8))
      ensures board.trace == old(board.trace) + ReadFrame(P(), addr, 2, board.input, old(board.sampled))
      ensures board.sampled == old(board.sampled) + 24
    {
      var buffer := new Byte[2](_ => 0);
      ReadRegisterN(addr, buffer, 2);
      value := buffer[0] as Int;
      value := value << 8;
      value := value | buffer[1] as Int;
    }

    /** `writeRegister8(addr, data)`. */
    method WriteRegister8(addr: Byte, data: Byte)
      modifies board
      ensures board.trace == old(board.trace) + WriteFrame(P(), addr, data, board.input, old(board.sampled))
      ensures board.sampled == old(board.sampled) + 16
    {
      var k := board.sampled;
      board.DigitalWrite(sclk, LOW);
      board.DigitalWrite(cs, LOW);
      var _ := SpiXfer(addr | 0x80);
      var _ := SpiXfer(data);
      board.DigitalWrite(cs, HIGH);
      FramedTrace(P(), old(board.trace), Transfer(P(), addr | 0x80, board.input, k), Transfer(P(), data, board.input, k + 8), board.trace);
    }

    /** `clearFault()`. */
    method ClearFault()
      modifies board
      ensures board.trace == old(board.trace) + Update(P(), ConfigOp.ClearFault, board.input, old(board.sampled))
      ensures board.sampled == old(board.sampled) + 32
    {
      ghost var k := board.sampled;
      var config := ReadRegister8(CONFIG_REG);
      ghost var read := config;
      config := config & !FAULT_CONTROL;
      config := config | CONFIG_FAULTSTAT;
      assert config == Apply(ConfigOp.ClearFault, read);
      ghost var k16 := board.sampled;
      WriteRegister8(CONFIG_REG, config);
      UpdateTrace(P(), ConfigOp.ClearFault, board.input, k, k16, old(board.trace), read, config, board.trace);
    }

    /** `setWires()`, for the wiring given at construction. */
    method SetWires()
      modifies board
      ensures board.trace == old(board.trace) + Update(P(), ConfigOp.SetWires(wires), board.input, old(board.sampled))
      ensures board.sampled == old(board.sampled) + 32
    {
      ghost var k := board.sampled;
      var config := ReadRegister8(CONFIG_REG);
      ghost var read := config;
      match wires {
        case Two => config := config & !CONFIG_3WIRE;
        case Three => config := config | CONFIG_3WIRE;
        case Four => config := config & !CONFIG_3WIRE;
      }
      assert config == Apply(ConfigOp.SetWires(wires), read);
      ghost var k16 := board.sampled;
      WriteRegister8(CONFIG_REG, config);
      UpdateTrace(P(), ConfigOp.SetWires(wires), board.input, k, k16, old(board.trace), read, config, board.trace);
    }

    /** `setBias(bias)`. */
    method SetBias(bias: bool)
      modifies board
      ensures board.trace == old(board.trace) + Update(P(), ConfigOp.SetBias(bias), board.input, old(board.sampled))
      ensures board.sampled == old(board.sampled) + 32
    {
      ghost var k := board.sampled;
      var config := ReadRegister8(CONFIG_REG);
      ghost var read := config;
      if bias {
        config := config | CONFIG_BIAS;
      } else {
        config := config & !CONFIG_BIAS;
      }
      assert config == Apply(ConfigOp.SetBias(bias), read);
      ghost var k16 := board.sampled;
      WriteRegister8(CONFIG_REG, config);
      UpdateTrace(P(), ConfigOp.SetBias(bias), board.input, k, k16, old(board.trace), read, config, board.trace);
    }

    /** `setAutoconvert(autoconvert)`. */
    method SetAutoconvert(autoconvert: bool)
      modifies board
      ensures board.trace == old(board.trace) + Update(P(), ConfigOp.SetAutoconvert(autoconvert), board.input, old(board.sampled))
      ensures board.sampled == old(board.sampled) + 32
    {
      ghost var k := board.sampled;
      var config := ReadRegister8(CONFIG_REG);
      ghost var read := config;
      if autoconvert {
        config := config | CONFIG_MODEAUTO;
      } else {
        config := config & !CONFIG_MODEAUTO;
      }
      assert config == Apply(ConfigOp.SetAutoconvert(autoconvert), read);
      ghost var k16 := board.sampled;
      WriteRegister8(CONFIG_REG, config);
      UpdateTrace(P(), ConfigOp.SetAutoconvert(autoconvert), board.input, k, k16, old(board.trace), read, config, board.trace);
    }

    /** `readRTD()`: the raw 15-bit RTD code. */
    method ReadRtd() returns (rtd: Int)
      modifies board
      ensures rtd == RtdResult(board.input, old(board.sampled)) && rtd < 0x8000
      ensures board.trace == old(board.trace) + RtdEvents(P(), board.input, old(board.sampled))
      ensures board.sampled == old(board.sampled) + 120
    {
      ghost var k := board.sampled;
      ClearFault();
      ghost var k1 := board.sampled;
      SetBias(true);
      Sleep(10);
      ghost var t2, k2 := board.trace, board.sampled;
      var config := ReadRegister8(CONFIG_REG);
      ghost var read := config;
      config := config | CONFIG_1SHOT;
      assert config == Apply(StartOneShot, read);
      ghost var k16 := board.sampled;
      WriteRegister8(CONFIG_REG, config);
      UpdateTrace(P(), StartOneShot, board.input, k2, k16, t2, read, config, board.trace);
      Sleep(65);
      ghost var k3 := board.sampled;
      rtd := ReadRegister16(RTDMSB_REG);
      ghost var raw := rtd;
      rtd := (rtd >> 1) | (rtd & 0x8000_0000);
      RtdTrace(P(), board.input, k, k1, k2, k3, old(board.trace), board.trace);
      RtdValue(board.input, k, k3, raw, rtd);
    }

    /** `readFault()`: the raw fault-status byte. */
    method ReadFault() returns (raw: Byte)
      modifies board
      ensures raw == Gather(board.input, old(board.sampled) + 8, 8)
      ensures board.trace == old(board.trace) + ReadFrame(P(), FAULTSTAT_REG, 1, board.input, old(board.sampled))
      ensures board.sampled == old(board.sampled) + 16
    {
      raw := ReadRegister8(FAULTSTAT_REG);
    }

    /** `getFault()`. */
    method GetFault() returns (fault: Fault)
      modifies board
      ensures fault == DecodeFault(Gather(board.input, old(board.sampled) + 8, 8))
      ensures board.trace == old(board.trace) + ReadFrame(P(), FAULTSTAT_REG, 1, board.input, old(board.sampled))
      ensures board.sampled == old(board.sampled) + 16
    {
      var rawFault := ReadFault();
      var highThresh := AsBool(rawFault & FAULT_HIGHTHRESH);
      var lowThresh := AsBool(rawFault & FAULT_LOWTHRESH);
      var refInLow := AsBool(rawFault & FAULT_REFINLOW);
      var refInHigh := AsBool(rawFault & FAULT_REFINHIGH);
      var rtdInLow := AsBool(rawFault & FAULT_RTDINLOW);
      var ovuv := AsBool(rawFault & FAULT_OVUV);
      fault := Fault(highThresh, lowThresh, refInLow, refInHigh, rtdInLow, ovuv);
    }

    /** `sleep(millis)`. */
    method Sleep(millis: int)
      modifies board
      ensures board.trace == old(board.trace) + [Delay(millis)] && board.sampled == old(board.sampled)
    {
      board.Sleep(millis);
    }
  }

  /** The trace of `readRegister8(CONFIG_REG)` followed by
      `writeRegister8(CONFIG_REG, v)` of the transformed byte. */
  lemma UpdateTrace(p: Pins, op: ConfigOp, f: nat -> bool, k: nat, k16: nat, base: seq<Event>, read: Byte, v: Byte, t: seq<Event>)
    requires k16 == k + 16
    requires read == Gather(f, k + 8, 8)
    requires v == Apply(op, read)
    requires t == base + ReadFrame(p, CONFIG_REG, 1, f, k) + WriteFrame(p, CONFIG_REG, v, f, k16)
    ensures t == base + Update(p, op, f, k)
  {
    AppendAssoc(base, ReadFrame(p, CONFIG_REG, 1, f, k), WriteFrame(p, CONFIG_REG, v, f, k16));
  }

  lemma FramedTrace(p: Pins, base: seq<Event>, b1: seq<Event>, b2: seq<Event>, t: seq<Event>)
    requires t == base + [Write(p.sclk, LOW)] + [Write(p.cs, LOW)] + b1 + b2 + [Write(p.cs, HIGH)]
    ensures t == base + Framed(p, b1 + b2)
  {
    Regroup(base, [Write(p.sclk, LOW)], [Write(p.cs, LOW)], b1, b2, [Write(p.cs, HIGH)]);
  }

  lemma ReadFrameTrace(p: Pins, addr: Byte, n: nat, f: nat -> bool, k: nat, k8: nat, base: seq<Event>, head: seq<Event>, t: seq<Event>)
    requires k8 == k + 8
    requires head == base + [Write(p.sclk, LOW)] + [Write(p.cs, LOW)] + Transfer(p, addr & 0x7F, f, k)
    requires t == head + Dummies(p, n, f, k8) + [Write(p.cs, HIGH)]
    ensures t == base + ReadFrame(p, addr, n, f, k)
  {
    FramedTrace(p, base, Transfer(p, addr & 0x7F, f, k), Dummies(p, n, f, k8), t);
  }

  lemma DummiesStep(p: Pins, f: nat -> bool, k: nat, i: nat, index: nat, base: seq<Event>, t: seq<Event>, t': seq<Event>)
    requires index == k + 8 * i
    requires t == base + Dummies(p, i, f, k)
    requires t' == t + Transfer(p, 0xFF, f, index)
    ensures t' == base + Dummies(p, i + 1, f, k)
  {
    assert Dummies(p, i + 1, f, k) == Dummies(p, i, f, k) + Transfer(p, 0xFF, f, index);
    AppendAssoc(base, Dummies(p, i, f, k), Transfer(p, 0xFF, f, index));
  }

  lemma InitTrace(p: Pins, wires: Wires, f: nat -> bool, k: nat, k1: nat, k2: nat, k3: nat, base: seq<Event>, t: seq<Event>)
    requires k1 == k + 32 && k2 == k + 64 && k3 == k + 96
    requires t == base + [Write(p.cs, HIGH)] + [Write(p.sclk, LOW)]
      + Update(p, SetWires(wires), f, k) + Update(p, SetBias(false), f, k1)
      + Update(p, SetAutoconvert(false), f, k2) + Update(p, ClearFault, f, k3)
    ensures t == base + InitEvents(p, wires, f, k)
  {
    var ops := InitOps(wires);
    var u0, u1, u2, u3 := Update(p, SetWires(wires), f, k), Update(p, SetBias(false), f, k1),
      Update(p, SetAutoconvert(false), f, k2), Update(p, ClearFault, f, k3);
    UpdatesCons(p, ops, f, k);
    UpdatesCons(p, ops[1..], f, k1);
    UpdatesCons(p, ops[1..][1..], f, k2);
    UpdatesCons(p, ops[1..][1..][1..], f, k3);
    assert Updates(p, ops[1..][1..][1..][1..], f, k3 + 32) == [];
    assert Updates(p, ops, f, k) == u0 + (u1 + (u2 + (u3 + [])));
    Regroup7(base, [Write(p.cs, HIGH)], [Write(p.sclk, LOW)], u0, u1, u2, u3);
    assert [Write(p.cs, HIGH)] + [Write(p.sclk, LOW)] == [Write(p.cs, HIGH), Write(p.sclk, LOW)];
  }

  lemma UpdatesCons(p: Pins, ops: seq<ConfigOp>, f: nat -> bool, k: nat)
    requires ops != []
    ensures Updates(p, ops, f, k) == Update(p, ops[0], f, k) + Updates(p, ops[1..], f, k + 32)
  {
  }

  lemma Regroup7<T>(base: seq<T>, a: seq<T>, b: seq<T>, c: seq<T>, d: seq<T>, e: seq<T>, g: seq<T>)
    ensures base + a + b + c + d + e + g == base + (a + b + (c + (d + (e + (g + [])))))
  {
  }

  lemma RtdTrace(p: Pins, f: nat -> bool, k: nat, k1: nat, k2: nat, k3: nat, base: seq<Event>, t: seq<Event>)
    requires k1 == k + 32 && k2 == k + 64 && k3 == k + 96
    requires t == base + Update(p, ClearFault, f, k) + Update(p, SetBias(true), f, k1) + [Delay(10)]
      + Update(p, StartOneShot, f, k2) + [Delay(65)] + ReadFrame(p, RTDMSB_REG, 2, f, k3)
    ensures t == base + RtdEvents(p, f, k)
  {
    var u0, u1, u2 := Update(p, ClearFault, f, k), Update(p, SetBias(true), f, k1), Update(p, StartOneShot, f, k2);
    var r := ReadFrame(p, RTDMSB_REG, 2, f, k3);
    Regroup6(base, u0, u1, [Delay(10)], u2, [Delay(65)], r);
  }

  lemma RtdValue(f: nat -> bool, k: nat, k3: nat, raw: Int, rtd: Int)
    requires k3 == k + 96
    requires raw == Join16(Gather(f, k3 + 8, 8), Gather(f, k3 + 16, 8))
    requires rtd == (raw >> 1) | (raw & 0x8000_0000)
    ensures rtd == RtdResult(f, k) && rtd < 0x8000
  {
    assert rtd == RtdCode(raw);
  }

  lemma Regroup6<T>(base: seq<T>, a: seq<T>, b: seq<T>, c: seq<T>, d: seq<T>, e: seq<T>, g: seq<T>)
    ensures base + a + b + c + d + e + g == base + (a + b + c + d + e + g)
  {
  }

  /** base + a + b + c + d + e, regrouped as a frame around c + d. */
  lemma Regroup<T>(base: seq<T>, a: seq<T>, b: seq<T>, c: seq<T>, d: seq<T>, e: seq<T>)
    ensures base + a + b + c + d + e == base + (a + b + (c + d) + e)
  {
  }

  lemma AppendAssoc<T>(a: seq<T>, b: seq<T>, c: seq<T>)
    ensures a + b + c == a + (b + c)
  {
  }

  lemma AppendFour<T>(t: seq<T>, a: T, b: T, c: T, d: T)
    ensures t + [a] + [b] + [c] + [d] == t + [a, b, c, d]
  {
  }

  /** One iteration of the loop of `spixfer`: the four calls extend the
      trace by the next cycle and the reply by the next sample. */
  lemma CycleStep(p: Pins, x: Byte, f: nat -> bool, k: nat, n: nat, index: nat, i: nat, v: Byte,
                  base: seq<Event>, t: seq<Event>, acc: Byte, reply: Byte, t': seq<Event>)
    requires n + i == 7 && index == k + n
    requires v == Bit(f(index))
    requires t == base + Xfer(p, x, f, k, n)
    requires acc == Gather(f, k, n)
    requires reply == if v == HIGH then (acc << 1) | 1 else acc << 1
    requires t' == t + [Write(p.sclk, HIGH)] + [Write(p.mosi, x & Mask(i))] + [Write(p.sclk, LOW)]
                    + [Read(p.miso, v)]
    ensures t' == base + Xfer(p, x, f, k, n + 1)
    ensures reply == Gather(f, k, n + 1)
  {
    MaskIsShift(i);
    var c := Cycle(p, x, 7 - n, f(k + n));
    AppendFour(t, c[0], c[1], c[2], c[3]);
    assert Xfer(p, x, f, k, n + 1) == Xfer(p, x, f, k, n) + c;
    AppendAssoc(base, Xfer(p, x, f, k, n), c);
  }
}
