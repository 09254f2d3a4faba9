/** A reference model of the MAX31865 as the driver addresses it: a
    register file behind an SPI receiver that samples MOSI on the falling
    clock edge, presents its next output bit on MISO at the rising edge,
    takes the first byte of each CS frame as the address (top bit set for a
    write) and auto-increments the address for further bytes. The
    driver's traces are run on it: a register read or write the driver
    performs is shown to read or write the chip's register. */
module Chip {
  import opened Bits
  import opened Registers
  import opened Wire

  datatype Phase = Command | Reading(ptr: Byte) | Writing(ptr: Byte)

  /** The register file, keyed by address. */
  type RegFile = map<int, Byte>

  /** The byte-level state: the registers, what the next byte of the frame
      means, and the bytes received since CS fell. */
  datatype Core = Core(regs: RegFile, phase: Phase, frame: seq<Byte>)

  /** The bit-level state: the byte-level state plus the receiver's pins,
      shift registers and bit counter. */
  datatype State = State(core: Core, selected: bool, clock: bool, mosi: bool,
                         rx: Byte, count: nat, out: Byte, sdo: bool, driving: bool)

  /** A register that was never written reads as 0. */
  function Reg(regs: RegFile, a: Byte): Byte
  {
    if a as int in regs then regs[a as int] else 0
  }

  /** The register file after writing v at address a. */
  function Store(regs: RegFile, a: Byte, v: Byte): RegFile
  {
    regs[a as int := v]
  }

  /** The address after a, within the 7-bit address space. */
  function Next(a: Byte): Byte
  {
    (a + 1) & 0x7F
  }

  /** The address i bytes after a. */
  function Offset(a: Byte, i: nat): Byte
  {
    if i == 0 then a else Next(Offset(a, i - 1))
  }

  /** The effect of one received byte. */
  function Receive(c: Core, b: Byte): Core
  {
    var c := c.(frame := c.frame + [b]);
    match c.phase
    case Command => if Top(b) then c.(phase := Writing(b & 0x7F)) else c.(phase := Reading(b & 0x7F))
    case Writing(a) => c.(regs := Store(c.regs, a, b), phase := Writing(Next(a)))
    case Reading(a) => c.(phase := Reading(Next(a)))
  }

  /** The byte the chip shifts out during the next transfer. */
  function Reply(c: Core): Byte
  {
    if c.phase.Reading? then Reg(c.regs, c.phase.ptr) else 0
  }

  /** CS falls: a new frame starts with a command byte. */
  function Begin(s: State): State
  {
    s.(core := s.core.(phase := Command, frame := []), selected := true, rx := 0, count := 0, out := 0)
  }

  /** A falling clock edge while selected: shift MOSI in, shift the output
      register on, and act on a completed byte. */
  function Latch(s: State): (r: State)
    ensures r.selected == s.selected && r.sdo == s.sdo && r.driving == s.driving
  {
    var rx := ShiftIn(s.rx, s.mosi);
    if s.count < 7 then s.(rx := rx, count := s.count + 1, out := s.out << 1)
    else
      var core := Receive(s.core, rx);
      s.(core := core, rx := 0, count := 0, out := Reply(core))
  }

  /** The chip's reaction to one GPIO call of the driver. */
  function Step(p: Pins, s: State, e: Event): State
  {
    match e
    case Write(pin, v) =>
      if pin == p.cs then
        (if v != LOW then s.(selected := false, driving := false)
         else if s.selected then s
         else Begin(s))
      else if pin == p.sclk then
        (if v != LOW then s.(clock := true, sdo := Top(s.out), driving := s.selected && s.core.phase.Reading?)
         else if s.clock && s.selected then Latch(s.(clock := false))
         else s.(clock := false))
      else if pin == p.mosi then s.(mosi := v != LOW)
      else s
    case Read(_, _) => s
    case Delay(_) => s
  }

  function Run(p: Pins, s: State, es: seq<Event>): State
    decreases |es|
  {
    if es == [] then s else Run(p, Step(p, s, es[0]), es[1..])
  }

  /** The driver's reads of MISO return what the chip drives, wherever it
      drives the line. */
  predicate Faithful(p: Pins, s: State, es: seq<Event>)
    decreases |es|
  {
    if es == [] then true
    else
      (es[0].Read? && es[0].pin == p.miso && s.driving ==> es[0].value == Bit(s.sdo))
      && Faithful(p, Step(p, s, es[0]), es[1..])
  }

  /** At a byte boundary inside a frame. */
  predicate Ready(s: State)
  {
    s.selected && s.count == 0 && s.rx == 0 && s.out == Reply(s.core)
  }

  lemma {:induction false} RunAppend(p: Pins, s: State, a: seq<Event>, b: seq<Event>)
    ensures Run(p, s, a + b) == Run(p, Run(p, s, a), b)
    ensures Faithful(p, s, a + b) == (Faithful(p, s, a) && Faithful(p, Run(p, s, a), b))
    decreases |a|
  {
    if a == [] {
      assert a + b == b;
    } else {
      assert (a + b)[1..] == a[1..] + b;
      RunAppend(p, Step(p, s, a[0]), a[1..], b);
    }
  }

  lemma RunOne(p: Pins, s: State, e: Event)
    ensures Run(p, s, [e]) == Step(p, s, e)
    ensures Faithful(p, s, [e]) == (e.Read? && e.pin == p.miso && s.driving ==> e.value == Bit(s.sdo))
  {
    assert [e][1..] == [];
  }

  /** One loop iteration of `spixfer`: a rising edge that presents the next
      output bit, the data bit on MOSI, a falling edge that latches it, and
      the read of MISO, which must agree with the presented bit when the
      chip drives the line. */
  lemma CycleRun(p: Pins, s: State, x: Byte, i: nat, sample: bool)
    requires i < 8
    requires Distinct(p)
    requires s.selected
    ensures Run(p, s, Cycle(p, x, i, sample))
         == Latch(s.(clock := false, mosi := IsSet(x, i), sdo := Top(s.out), driving := s.core.phase.Reading?))
    ensures Faithful(p, s, Cycle(p, x, i, sample)) <==> (s.core.phase.Reading? ==> sample == Top(s.out))
  {
    var e0, e1, e2, e3 := Write(p.sclk, HIGH), Write(p.mosi, x & (1 << i)), Write(p.sclk, LOW), Read(p.miso, Bit(sample));
    RunFour(p, s, e0, e1, e2, e3);
    var s1 := s.(clock := true, sdo := Top(s.out), driving := s.core.phase.Reading?);
    StepRise(p, s);
    var s2 := s1.(mosi := IsSet(x, i));
    StepMosi(p, s1, x, i);
    var s3 := Latch(s2.(clock := false));
    StepFall(p, s2);
    RunOne(p, s, e0);
    RunOne(p, s1, e1);
    RunOne(p, s2, e2);
    RunOne(p, s3, e3);
  }

  lemma StepRise(p: Pins, s: State)
    requires Distinct(p)
    requires s.selected
    ensures Step(p, s, Write(p.sclk, HIGH)) == s.(clock := true, sdo := Top(s.out), driving := s.core.phase.Reading?)
  {
  }

  lemma StepMosi(p: Pins, s: State, x: Byte, i: nat)
    requires i < 8
    requires Distinct(p)
    ensures Step(p, s, Write(p.mosi, x & (1 << i))) == s.(mosi := IsSet(x, i))
  {
  }

  lemma StepFall(p: Pins, s: State)
    requires Distinct(p)
    requires s.selected && s.clock
    ensures Step(p, s, Write(p.sclk, LOW)) == Latch(s.(clock := false))
  {
  }

  /** Four calls in a row. */
  lemma RunFour(p: Pins, s: State, e0: Event, e1: Event, e2: Event, e3: Event)
    ensures var s1 := Step(p, s, e0); var s2 := Step(p, s1, e1); var s3 := Step(p, s2, e2);
      Run(p, s, [e0, e1, e2, e3]) == Step(p, s3, e3)
      && Faithful(p, s, [e0, e1, e2, e3])
         == (Faithful(p, s, [e0]) && Faithful(p, s1, [e1]) && Faithful(p, s2, [e2]) && Faithful(p, s3, [e3]))
  {
    var s1 := Step(p, s, e0);
    var s2 := Step(p, s1, e1);
    var s3 := Step(p, s2, e2);
    assert [e0, e1, e2, e3] == [e0] + [e1] + [e2] + [e3];
    RunAppend(p, s, [e0] + [e1] + [e2], [e3]);
    RunAppend(p, s, [e0] + [e1], [e2]);
    RunAppend(p, s, [e0], [e1]);
    RunOne(p, s, e0);
    RunOne(p, s1, e1);
    RunOne(p, s2, e2);
    RunOne(p, s3, e3);
  }

  /** The receive register after the top n bits of x, MSB first. */
  function RxAfter(x: Byte, n: nat): Byte
    requires n <= 8
  {
    if n == 0 then 0 else ShiftIn(RxAfter(x, n - 1), IsSet(x, 8 - n))
  }

  /** The output register after n shifts. */
  function Shl(o: Byte, n: nat): Byte
  {
    if n == 0 then o else Shl(o, n - 1) << 1
  }

  /** After all 8 bits the receive register holds the byte sent. */
  lemma RxAfterAll(x: Byte)
    ensures RxAfter(x, 8) == x
  {
    assert RxAfter(x, 0) == 0;
    ChainBits(RxAfter(x, 1), RxAfter(x, 2), RxAfter(x, 3), RxAfter(x, 4),
              RxAfter(x, 5), RxAfter(x, 6), RxAfter(x, 7), RxAfter(x, 8),
              IsSet(x, 7), IsSet(x, 6), IsSet(x, 5), IsSet(x, 4),
              IsSet(x, 3), IsSet(x, 2), IsSet(x, 1), IsSet(x, 0));
    BitsDetermine(RxAfter(x, 8), x);
  }

  /** The output bit presented at the j-th rising edge is bit 7 - j of the
      reply byte. */
  lemma TopShl(o: Byte)
    ensures Top(Shl(o, 0)) == IsSet(o, 7) && Top(Shl(o, 1)) == IsSet(o, 6)
    ensures Top(Shl(o, 2)) == IsSet(o, 5) && Top(Shl(o, 3)) == IsSet(o, 4)
    ensures Top(Shl(o, 4)) == IsSet(o, 3) && Top(Shl(o, 5)) == IsSet(o, 2)
    ensures Top(Shl(o, 6)) == IsSet(o, 1) && Top(Shl(o, 7)) == IsSet(o, 0)
  {
    assert Shl(o, 0) == o;
    assert Shl(o, 1) == o << 1;
    assert Shl(o, 2) == o << 2;
    assert Shl(o, 3) == o << 3;
    assert Shl(o, 4) == o << 4;
    assert Shl(o, 5) == o << 5;
    assert Shl(o, 6) == o << 6;
    assert Shl(o, 7) == o << 7;
  }

  /** The samples f(k), ..., f(k + n - 1) match the first n bits shifted
      out of o. */
  predicate Matches(f: nat -> bool, k: nat, o: Byte, n: nat)
  {
    n == 0 || (Matches(f, k, o, n - 1) && f(k + n - 1) == Top(Shl(o, n - 1)))
  }

  lemma LatchMid(s: State)
    requires s.count < 7
    ensures Latch(s) == s.(rx := ShiftIn(s.rx, s.mosi), count := s.count + 1, out := s.out << 1)
  {
  }

  /** The chip is n bits into a transfer of x that started at the byte
      boundary s. */
  predicate AtBit(d: State, s: State, x: Byte, n: nat)
    requires n <= 8
  {
    d.core == s.core && d.selected && d.count == n && d.rx == RxAfter(x, n) && d.out == Shl(s.out, n)
  }

  lemma LatchLast(s: State)
    requires s.count == 7
    ensures var r := Latch(s);
      r.core == Receive(s.core, ShiftIn(s.rx, s.mosi)) && r.count == 0 && r.rx == 0 && r.out == Reply(r.core)
  {
  }

  lemma MidStep(d: State, s: State, x: Byte, n: nat)
    requires 1 <= n <= 7
    requires AtBit(d, s, x, n - 1)
    ensures AtBit(Latch(d.(clock := false, mosi := IsSet(x, 8 - n), sdo := Top(d.out), driving := d.core.phase.Reading?)), s, x, n)
  {
    LatchMid(d.(clock := false, mosi := IsSet(x, 8 - n), sdo := Top(d.out), driving := d.core.phase.Reading?));
  }

  /** The first n < 8 iterations of a transfer from a byte boundary. */
  lemma {:induction false} XferPrefix(p: Pins, s: State, x: Byte, f: nat -> bool, k: nat, n: nat)
    requires n <= 7
    requires Distinct(p)
    requires s.selected && s.count == 0 && s.rx == 0
    ensures AtBit(Run(p, s, Xfer(p, x, f, k, n)), s, x, n)
  {
    if n > 0 {
      var d := Run(p, s, Xfer(p, x, f, k, n - 1));
      XferPrefix(p, s, x, f, k, n - 1);
      RunAppend(p, s, Xfer(p, x, f, k, n - 1), Cycle(p, x, 8 - n, f(k + n - 1)));
      CycleRun(p, d, x, 8 - n, f(k + n - 1));
      MidStep(d, s, x, n);
    } else {
      assert Xfer(p, x, f, k, 0) == [];
    }
  }

  /** Which samples the first n iterations of a transfer must read. */
  lemma {:induction false} XferPrefixFaithful(p: Pins, s: State, x: Byte, f: nat -> bool, k: nat, n: nat)
    requires n <= 8
    requires Distinct(p)
    requires s.selected && s.count == 0 && s.rx == 0
    ensures Faithful(p, s, Xfer(p, x, f, k, n)) <==> (s.core.phase.Reading? ==> Matches(f, k, s.out, n))
  {
    if n > 0 {
      var d := Run(p, s, Xfer(p, x, f, k, n - 1));
      XferPrefixFaithful(p, s, x, f, k, n - 1);
      XferPrefix(p, s, x, f, k, n - 1);
      RunAppend(p, s, Xfer(p, x, f, k, n - 1), Cycle(p, x, 8 - n, f(k + n - 1)));
      CycleRun(p, d, x, 8 - n, f(k + n - 1));
    } else {
      assert Xfer(p, x, f, k, 0) == [];
    }
  }

  /** Eight samples match the bits shifted out of o exactly when they
      assemble, MSB first, into o. */
  lemma MatchesGather(f: nat -> bool, k: nat, o: Byte)
    ensures Matches(f, k, o, 8) <==> Gather(f, k, 8) == o
  {
    MatchesSteps(f, k, o);
    TopShl(o);
    GatherEightBits(f, k, o);
  }

  lemma MatchesSteps(f: nat -> bool, k: nat, o: Byte)
    ensures Matches(f, k, o, 8) <==>
      f(k) == Top(Shl(o, 0)) && f(k + 1) == Top(Shl(o, 1)) && f(k + 2) == Top(Shl(o, 2)) &&
      f(k + 3) == Top(Shl(o, 3)) && f(k + 4) == Top(Shl(o, 4)) && f(k + 5) == Top(Shl(o, 5)) &&
      f(k + 6) == Top(Shl(o, 6)) && f(k + 7) == Top(Shl(o, 7))
  {
    assert Matches(f, k, o, 1) <==> f(k) == Top(Shl(o, 0)) by { assert Matches(f, k, o, 0); }
    assert Matches(f, k, o, 2) <==> Matches(f, k, o, 1) && f(k + 1) == Top(Shl(o, 1));
    assert Matches(f, k, o, 3) <==> Matches(f, k, o, 2) && f(k + 2) == Top(Shl(o, 2));
    assert Matches(f, k, o, 4) <==> Matches(f, k, o, 3) && f(k + 3) == Top(Shl(o, 3));
    assert Matches(f, k, o, 5) <==> Matches(f, k, o, 4) && f(k + 4) == Top(Shl(o, 4));
    assert Matches(f, k, o, 6) <==> Matches(f, k, o, 5) && f(k + 5) == Top(Shl(o, 5));
    assert Matches(f, k, o, 7) <==> Matches(f, k, o, 6) && f(k + 6) == Top(Shl(o, 6));
  }

  /** A whole `spixfer(x)` from a byte boundary: the chip receives x, and
      where it drives MISO the reply read is the byte it sends. */
  lemma TransferRun(p: Pins, s: State, x: Byte, f: nat -> bool, k: nat)
    requires Distinct(p)
    requires Ready(s)
    ensures Ready(Run(p, s, Transfer(p, x, f, k)))
    ensures Run(p, s, Transfer(p, x, f, k)).core == Receive(s.core, x)
    ensures Faithful(p, s, Transfer(p, x, f, k)) <==> (s.core.phase.Reading? ==> Gather(f, k, 8) == Reply(s.core))
  {
    var d := Run(p, s, Xfer(p, x, f, k, 7));
    var c := Cycle(p, x, 0, f(k + 7));
    XferPrefix(p, s, x, f, k, 7);
    RunAppend(p, s, Xfer(p, x, f, k, 7), c);
    CycleRun(p, d, x, 0, f(k + 7));
    LatchLast(d.(clock := false, mosi := IsSet(x, 0), sdo := Top(d.out), driving := d.core.phase.Reading?));
    assert ShiftIn(RxAfter(x, 7), IsSet(x, 0)) == x by {
      RxAfterAll(x);
    }
    XferPrefixFaithful(p, s, x, f, k, 8);
    MatchesGather(f, k, s.out);
  }

  /** The state in which a frame's transfers start: SCLK pulled low, then
      CS pulled low on an idle chip. */
  function Start(s: State): State
  {
    Begin(s.(clock := false))
  }

  lemma {:induction false} FramedRun(p: Pins, s: State, body: seq<Event>)
    requires Distinct(p)
    requires !s.selected
    ensures Ready(Start(s)) && Start(s).core == s.core.(phase := Command, frame := [])
    ensures Run(p, s, Framed(p, body)).core == Run(p, Start(s), body).core
    ensures !Run(p, s, Framed(p, body)).selected
    ensures Faithful(p, s, Framed(p, body)) == Faithful(p, Start(s), body)
  {
    var e0, e1, e2 := Write(p.sclk, LOW), Write(p.cs, LOW), Write(p.cs, HIGH);
    assert Framed(p, body) == [e0] + [e1] + body + [e2];
    var s1 := Step(p, s, e0);
    assert s1 == s.(clock := false);
    assert Step(p, s1, e1) == Start(s);
    RunAppend(p, s, [e0] + [e1] + body, [e2]);
    RunAppend(p, s, [e0] + [e1], body);
    RunAppend(p, s, [e0], [e1]);
    RunOne(p, s, e0);
    RunOne(p, s1, e1);
    RunOne(p, Run(p, Start(s), body), e2);
  }

  /** n bytes of 0xFF. */
  function Fill(n: nat): (r: seq<Byte>)
    ensures |r| == n
  {
    seq(n, _ => 0xFF)
  }

  /** The n bytes assembled from the samples from k on are the registers
      from address a on. */
  predicate Replies(f: nat -> bool, k: nat, regs: RegFile, a: Byte, n: nat)
  {
    forall i :: 0 <= i < n ==> Gather(f, k + 8 * i, 8) == Reg(regs, Offset(a, i))
  }

  /** The dummy transfers of a register read: the chip sends successive
      registers, and receives and ignores the 0xFF bytes. */
  lemma {:induction false} DummiesRun(p: Pins, s: State, regs: RegFile, a: Byte, n: nat, f: nat -> bool, k: nat)
    requires Distinct(p)
    requires Ready(s) && s.core.regs == regs && s.core.phase == Reading(a)
    ensures var d := Run(p, s, Dummies(p, n, f, k));
      Ready(d) && d.core.regs == regs && d.core.phase == Reading(Offset(a, n))
      && d.core.frame == s.core.frame + Fill(n)
    ensures Faithful(p, s, Dummies(p, n, f, k)) <==> Replies(f, k, regs, a, n)
  {
    if n == 0 {
      assert s.core.frame + Fill(0) == s.core.frame;
    } else {
      var d := Run(p, s, Dummies(p, n - 1, f, k));
      DummiesRun(p, s, regs, a, n - 1, f, k);
      RunAppend(p, s, Dummies(p, n - 1, f, k), Transfer(p, 0xFF, f, k + 8 * (n - 1)));
      TransferRun(p, d, 0xFF, f, k + 8 * (n - 1));
      assert s.core.frame + Fill(n - 1) + [0xFF] == s.core.frame + Fill(n);
    }
  }

  /** `readRegisterN(addr, buffer, n)` on an idle chip: the chip receives
      `addr & 0x7F` and then n bytes of 0xFF inside one CS frame, its
      registers do not change, and the samples are faithful exactly when the
      i-th byte read is the register i places after `addr & 0x7F`. */
  lemma ReadFrameRun(p: Pins, s: State, addr: Byte, n: nat, f: nat -> bool, k: nat)
    requires Distinct(p)
    requires !s.selected
    ensures var d := Run(p, s, ReadFrame(p, addr, n, f, k));
      !d.selected && d.core.regs == s.core.regs && d.core.frame == [addr & 0x7F] + Fill(n)
    ensures Faithful(p, s, ReadFrame(p, addr, n, f, k)) <==> Replies(f, k + 8, s.core.regs, addr & 0x7F, n)
  {
    var t := Transfer(p, addr & 0x7F, f, k);
    var ds := Dummies(p, n, f, k + 8);
    FramedRun(p, s, t + ds);
    var s0 := Start(s);
    RunAppend(p, s0, t, ds);
    TransferRun(p, s0, addr & 0x7F, f, k);
    var s1 := Run(p, s0, t);
    ReceiveAddress(s0.core, addr & 0x7F);
    assert s1.core == s.core.(phase := Reading(addr & 0x7F), frame := [addr & 0x7F]);
    DummiesRun(p, s1, s.core.regs, addr & 0x7F, n, f, k + 8);
  }

  /** The first byte of a frame selects the address and the direction. */
  lemma ReceiveAddress(c: Core, b: Byte)
    requires c.phase == Command
    ensures Receive(c, b) == c.(phase := if Top(b) then Writing(b & 0x7F) else Reading(b & 0x7F), frame := c.frame + [b])
  {
  }

  /** `writeRegister8(addr, data)` on an idle chip: the chip receives
      `addr | 0x80` and then the data inside one CS frame and stores the
      data in register `addr & 0x7F`, whatever MISO reads. */
  lemma WriteFrameRun(p: Pins, s: State, addr: Byte, data: Byte, f: nat -> bool, k: nat)
    requires Distinct(p)
    requires !s.selected
    ensures var d := Run(p, s, WriteFrame(p, addr, data, f, k));
      !d.selected && d.core.regs == Store(s.core.regs, addr & 0x7F, data) && d.core.frame == [addr | 0x80, data]
    ensures Faithful(p, s, WriteFrame(p, addr, data, f, k))
  {
    var t := Transfer(p, addr | 0x80, f, k);
    var t2 := Transfer(p, data, f, k + 8);
    FramedRun(p, s, t + t2);
    var s0 := Start(s);
    RunAppend(p, s0, t, t2);
    TransferRun(p, s0, addr | 0x80, f, k);
    var s1 := Run(p, s0, t);
    ReceiveAddress(s0.core, addr | 0x80);
    assert (addr | 0x80) & 0x7F == addr & 0x7F && Top(addr | 0x80);
    assert s1.core == s.core.(phase := Writing(addr & 0x7F), frame := [addr | 0x80]);
    TransferRun(p, s1, data, f, k + 8);
  }
}
