/** What the driver's operations do to the reference chip: each
    read-modify-write changes exactly the configuration register, `init`
    leaves it as `InitConfig` states, and `readRTD` and `getFault` return
    what the chip's registers hold, provided the MISO samples are the
    chip's replies. */
module Operations {
  import opened Bits
  import opened Registers
  import opened Faults
  import opened Wire
  import opened Chip

  lemma RepliesOne(f: nat -> bool, k: nat, regs: RegFile, a: Byte)
    ensures Replies(f, k, regs, a, 1) <==> Gather(f, k, 8) == Reg(regs, a)
  {
    assert Offset(a, 0) == a;
    assert k + 8 * 0 == k;
  }

  lemma RepliesTwo(f: nat -> bool, k: nat, regs: RegFile, a: Byte)
    ensures Replies(f, k, regs, a, 2) <==> Gather(f, k, 8) == Reg(regs, a) && Gather(f, k + 8, 8) == Reg(regs, Next(a))
  {
    assert Offset(a, 0) == a;
    assert Offset(a, 1) == Next(a);
    assert k + 8 * 0 == k && k + 8 * 1 == k + 8;
  }

  lemma Overwrite(m: RegFile, a: Byte, x: Byte, y: Byte)
    ensures Reg(Store(m, a, x), a) == x
    ensures Store(Store(m, a, x), a, y) == Store(m, a, y)
  {
  }

  /** One read-modify-write of the configuration register on an idle chip:
      the byte written is the transition applied to the byte read, it lands
      in register 0x00 and nowhere else, and the read is faithful exactly
      when it returned the register's value. */
  lemma UpdateRun(p: Pins, s: State, op: ConfigOp, f: nat -> bool, k: nat)
    requires Distinct(p)
    requires !s.selected
    ensures var d := Run(p, s, Update(p, op, f, k));
      !d.selected && d.core.regs == Store(s.core.regs, CONFIG_REG, Apply(op, Gather(f, k + 8, 8)))
    ensures Faithful(p, s, Update(p, op, f, k)) <==> Gather(f, k + 8, 8) == Reg(s.core.regs, CONFIG_REG)
  {
    var r := ReadFrame(p, CONFIG_REG, 1, f, k);
    var w := WriteFrame(p, CONFIG_REG, Apply(op, Gather(f, k + 8, 8)), f, k + 16);
    RunAppend(p, s, r, w);
    ReadFrameRun(p, s, CONFIG_REG, 1, f, k);
    RepliesOne(f, k + 8, s.core.regs, CONFIG_REG & 0x7F);
    WriteFrameRun(p, Run(p, s, r), CONFIG_REG, Apply(op, Gather(f, k + 8, 8)), f, k + 16);
  }

  /** A sequence of read-modify-writes acts as the composed transition. */
  lemma {:induction false} UpdatesRun(p: Pins, s: State, ops: seq<ConfigOp>, f: nat -> bool, k: nat)
    requires Distinct(p)
    requires !s.selected
    requires ops != []
    ensures !Run(p, s, Updates(p, ops, f, k)).selected
    ensures Faithful(p, s, Updates(p, ops, f, k)) ==>
      Run(p, s, Updates(p, ops, f, k)).core.regs
        == Store(s.core.regs, CONFIG_REG, ApplyAll(ops, Reg(s.core.regs, CONFIG_REG)))
    decreases |ops|
  {
    var u := Update(p, ops[0], f, k);
    var rest := Updates(p, ops[1..], f, k + 32);
    var d := Run(p, s, u);
    assert Updates(p, ops, f, k) == u + rest;
    RunAppend(p, s, u, rest);
    UpdateRun(p, s, ops[0], f, k);
    if ops[1..] == [] {
      assert rest == [];
      assert ApplyAll(ops, Reg(s.core.regs, CONFIG_REG)) == Apply(ops[0], Reg(s.core.regs, CONFIG_REG)) by {
        assert ApplyAll([], Apply(ops[0], Reg(s.core.regs, CONFIG_REG))) == Apply(ops[0], Reg(s.core.regs, CONFIG_REG));
      }
    } else {
      UpdatesRun(p, d, ops[1..], f, k + 32);
      if Faithful(p, s, Updates(p, ops, f, k)) {
        var r := Reg(s.core.regs, CONFIG_REG);
        var v := Apply(ops[0], r);
        Overwrite(s.core.regs, CONFIG_REG, v, ApplyAll(ops[1..], v));
      }
    }
  }

  /** `init` from any chip state: CS is raised first, so a frame left open
      is closed, and with faithful samples the configuration register ends
      as `InitConfig` of its old value while every other register keeps its
      value. */
  lemma InitRun(p: Pins, s: State, wires: Wires, f: nat -> bool, k: nat)
    requires Distinct(p)
    ensures !Run(p, s, InitEvents(p, wires, f, k)).selected
    ensures Faithful(p, s, InitEvents(p, wires, f, k)) ==>
      Run(p, s, InitEvents(p, wires, f, k)).core.regs
        == Store(s.core.regs, CONFIG_REG, InitConfig(Reg(s.core.regs, CONFIG_REG), wires))
  {
    var e0, e1 := Write(p.cs, HIGH), Write(p.sclk, LOW);
    var us := Updates(p, InitOps(wires), f, k);
    assert InitEvents(p, wires, f, k) == [e0] + [e1] + us;
    RunAppend(p, s, [e0] + [e1], us);
    RunAppend(p, s, [e0], [e1]);
    RunOne(p, s, e0);
    var s1 := Step(p, s, e0);
    RunOne(p, s1, e1);
    var s2 := Step(p, s1, e1);
    assert !s2.selected && s2.core == s.core;
    UpdatesRun(p, s2, InitOps(wires), f, k);
  }

  /** The three read-modify-writes and two waits before the RTD registers
      are read. */
  lemma RtdPrologueRun(p: Pins, s: State, f: nat -> bool, k: nat)
    requires Distinct(p)
    requires !s.selected
    ensures !Run(p, s, RtdPrologue(p, f, k)).selected
    ensures Faithful(p, s, RtdPrologue(p, f, k)) ==>
      Run(p, s, RtdPrologue(p, f, k)).core.regs == Store(s.core.regs, CONFIG_REG, RtdConfig(Reg(s.core.regs, CONFIG_REG)))
  {
    var es := RtdPrologue(p, f, k);
    var u0, u1, u2 := Update(p, ClearFault, f, k), Update(p, SetBias(true), f, k + 32), Update(p, StartOneShot, f, k + 64);
    var s1 := Run(p, s, u0);
    var s2 := Run(p, s1, u1);
    var s3 := Run(p, s2, [Delay(10)]);
    var s4 := Run(p, s3, u2);
    RunAppend(p, s, u0 + u1 + [Delay(10)] + u2, [Delay(65)]);
    RunAppend(p, s, u0 + u1 + [Delay(10)], u2);
    RunAppend(p, s, u0 + u1, [Delay(10)]);
    RunAppend(p, s, u0, u1);
    UpdateRun(p, s, ClearFault, f, k);
    UpdateRun(p, s1, SetBias(true), f, k + 32);
    RunOne(p, s2, Delay(10));
    UpdateRun(p, s3, StartOneShot, f, k + 64);
    RunOne(p, s4, Delay(65));
    if Faithful(p, s, es) {
      var r := Reg(s.core.regs, CONFIG_REG);
      var v1 := Apply(ClearFault, r);
      var v2 := Apply(SetBias(true), v1);
      var v3 := Apply(StartOneShot, v2);
      Overwrite(s.core.regs, CONFIG_REG, v1, v2);
      Overwrite(s.core.regs, CONFIG_REG, v2, v3);
      RtdConfigSteps(r);
    }
  }

  /** `readRTD` on an idle chip with faithful samples: the configuration
      register ends with bias on and a one-shot conversion requested, and
      the two bytes read are the RTD registers 0x01 and 0x02. */
  lemma RtdBytesRun(p: Pins, s: State, f: nat -> bool, k: nat)
    requires Distinct(p)
    requires !s.selected
    ensures !Run(p, s, RtdEvents(p, f, k)).selected
    ensures Faithful(p, s, RtdEvents(p, f, k)) ==>
      Run(p, s, RtdEvents(p, f, k)).core.regs == Store(s.core.regs, CONFIG_REG, RtdConfig(Reg(s.core.regs, CONFIG_REG)))
      && Gather(f, k + 104, 8) == Reg(s.core.regs, RTDMSB_REG) && Gather(f, k + 112, 8) == Reg(s.core.regs, RTDMSB_REG + 1)
  {
    var pre := RtdPrologue(p, f, k);
    var rd := ReadFrame(p, RTDMSB_REG, 2, f, k + 96);
    RunAppend(p, s, pre, rd);
    RtdPrologueRun(p, s, f, k);
    var d := Run(p, s, pre);
    ReadFrameRun(p, d, RTDMSB_REG, 2, f, k + 96);
    RepliesTwo(f, k + 104, d.core.regs, RTDMSB_REG & 0x7F);
  }

  /** The code `readRTD` returns is the RTD register pair without its fault
      bit. */
  lemma RtdRun(p: Pins, s: State, f: nat -> bool, k: nat)
    requires Distinct(p)
    requires !s.selected
    ensures !Run(p, s, RtdEvents(p, f, k)).selected
    ensures Faithful(p, s, RtdEvents(p, f, k)) ==>
      Run(p, s, RtdEvents(p, f, k)).core.regs == Store(s.core.regs, CONFIG_REG, RtdConfig(Reg(s.core.regs, CONFIG_REG)))
      && RtdResult(f, k) == RtdCode(Join16(Reg(s.core.regs, RTDMSB_REG), Reg(s.core.regs, RTDMSB_REG + 1)))
  {
    RtdBytesRun(p, s, f, k);
  }

  /** `getFault` on an idle chip with faithful samples reports the decoding
      of the fault-status register 0x07, and changes no register. */
  lemma FaultRun(p: Pins, s: State, f: nat -> bool, k: nat)
    requires Distinct(p)
    requires !s.selected
    ensures Run(p, s, ReadFrame(p, FAULTSTAT_REG, 1, f, k)).core.regs == s.core.regs
    ensures Faithful(p, s, ReadFrame(p, FAULTSTAT_REG, 1, f, k)) <==>
      Gather(f, k + 8, 8) == Reg(s.core.regs, FAULTSTAT_REG)
    ensures Faithful(p, s, ReadFrame(p, FAULTSTAT_REG, 1, f, k)) ==>
      DecodeFault(Gather(f, k + 8, 8)) == DecodeFault(Reg(s.core.regs, FAULTSTAT_REG))
  {
    ReadFrameRun(p, s, FAULTSTAT_REG, 1, f, k);
    RepliesOne(f, k + 8, s.core.regs, FAULTSTAT_REG & 0x7F);
  }
}
