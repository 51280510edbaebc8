/**
 * A reference model of the controller's side of the bus, independent of the
 * writers: it follows the levels of RS, R/W, E and D4..D7 through a trace of
 * calls, and in a write (R/W low) it latches RS and the four data lines on
 * each falling edge of E. Two latched nibbles, high first, form one transfer
 * to the instruction register (RS = 0) or the data register (RS = 1).
 * The serial writers drive the same pins through a PCF8574 expander whose
 * outputs P0..P7 are wired RS, R/W, E, backlight, D4, D5, D6, D7.
 */
module Receiver {
  import opened Bus
  import opened Encoding

  /** Levels seen by the controller; bit j of `bus` is line D(4+j). */
  datatype Pins = Pins(rs: bool, rw: bool, en: bool, bus: bv4)

  /** One nibble taken in on a falling edge of E. */
  datatype Latch = Latch(rs: bool, nibble: bv4)

  /** What the controller receives: an instruction or a character code. */
  datatype Transfer = Command(code: Byte) | Data(value: Byte)

  /** The pins at the end of a trace and the nibbles latched along it. */
  datatype Reception = Reception(pins: Pins, latches: seq<Latch>)

  /** Between two transfers: E low and R/W low. */
  predicate Idle(p: Pins)
  {
    !p.en && !p.rw
  }

  /** The bit of `bus` that carries line D(4+j). */
  function LineMask(j: nat): bv4
    requires j < 4
  {
    if j == 0 then 1 else if j == 1 then 2 else if j == 2 then 4 else 8
  }

  function SetBusLine(bus: bv4, j: nat, high: bool): bv4
    requires j < 4
  {
    if high then bus | LineMask(j) else bus & !LineMask(j)
  }

  /** Pin levels after one pin-setter call; a non-zero level drives a line
      high. Lines D0..D3 are not connected in 4-bit operation. */
  function Drive(p: Pins, e: Event): Pins
  {
    match e
    case SetRS(v) => p.(rs := v != 0)
    case SetRW(v) => p.(rw := v != 0)
    case SetEN(v) => p.(en := v != 0)
    case SetD(k, v) => if 4 <= k < 8 then p.(bus := SetBusLine(p.bus, k - 4, v != 0)) else p
    case Delay(_) => p
    case I2CSend(_, _) => p
  }

  /** Pin levels after the expander outputs byte `x`. */
  function Expander(x: Byte): Pins
  {
    Pins(x & 0x01 != 0, x & 0x02 != 0, x & 0x04 != 0, (x >> 4) as bv4)
  }

  /** A change of the pins from `before` to `after`, latching on a falling edge of E in a write. */
  function Edge(before: Pins, after: Pins): Reception
  {
    Reception(after, if before.en && !after.en && !after.rw then [Latch(after.rs, after.bus)] else [])
  }

  function RunBytes(p: Pins, xs: seq<Byte>): Reception
    decreases |xs|
  {
    if xs == [] then Reception(p, [])
    else
      var r := Edge(p, Expander(xs[0]));
      var s := RunBytes(r.pins, xs[1..]);
      Reception(s.pins, r.latches + s.latches)
  }

  /** One call: an I2C send puts each byte of its buffer on the expander in turn. */
  function Step(p: Pins, e: Event): Reception
  {
    if e.I2CSend? then RunBytes(p, e.bytes) else Edge(p, Drive(p, e))
  }

  /** A whole trace, from pins `p`. */
  function Run(p: Pins, evs: seq<Event>): Reception
    decreases |evs|
  {
    if evs == [] then Reception(p, [])
    else
      var r := Step(p, evs[0]);
      var s := Run(r.pins, evs[1..]);
      Reception(s.pins, r.latches + s.latches)
  }

  /** Pairs of nibbles, high first, as transfers; a trailing odd nibble is incomplete. */
  function Assemble(ls: seq<Latch>): seq<Transfer>
    decreases |ls|
  {
    if |ls| < 2 then []
    else
      var b := ((ls[0].nibble as Byte) << 4) | (ls[1].nibble as Byte);
      [if ls[0].rs then Data(b) else Command(b)] + Assemble(ls[2..])
  }

  /** From every idle state, trace `evs` ends idle, latches whole bytes only,
      and the controller receives exactly `ts`. */
  ghost predicate Delivers(evs: seq<Event>, ts: seq<Transfer>)
  {
    forall p: Pins :: Idle(p) ==>
      var r := Run(p, evs);
      Idle(r.pins) && |r.latches| % 2 == 0 && Assemble(r.latches) == ts
  }

  /** What a writer delivers: nothing in 8-bit mode, otherwise `ts`. */
  function Expected(w: Writer, ts: seq<Transfer>): seq<Transfer>
  {
    if w == Parallel8 then [] else ts
  }

  lemma {:induction false} RunAppend(p: Pins, a: seq<Event>, b: seq<Event>)
    ensures var r := Run(p, a); var s := Run(r.pins, b);
      Run(p, a + b) == Reception(s.pins, r.latches + s.latches)
    decreases |a|
  {
    if a == [] {
      assert a + b == b;
    } else {
      assert (a + b)[0] == a[0];
      assert (a + b)[1..] == a[1..] + b;
      RunAppend(Step(p, a[0]).pins, a[1..], b);
    }
  }

  lemma {:induction false} AssembleAppend(a: seq<Latch>, b: seq<Latch>)
    requires |a| % 2 == 0
    ensures Assemble(a + b) == Assemble(a) + Assemble(b)
    decreases |a|
  {
    if a == [] {
      assert a + b == b;
    } else {
      assert (a + b)[2..] == a[2..] + b;
      AssembleAppend(a[2..], b);
    }
  }

  /** Deliveries compose: one trace after another delivers one list after the other. */
  lemma DeliversAppend(a: seq<Event>, ta: seq<Transfer>, b: seq<Event>, tb: seq<Transfer>)
    requires Delivers(a, ta) && Delivers(b, tb)
    ensures Delivers(a + b, ta + tb)
  {
    forall p: Pins | Idle(p)
      ensures var r := Run(p, a + b);
        Idle(r.pins) && |r.latches| % 2 == 0 && Assemble(r.latches) == ta + tb
    {
      RunAppend(p, a, b);
      var r := Run(p, a);
      AssembleAppend(r.latches, Run(r.pins, b).latches);
    }
  }

  /** A delay changes no pin. */
  lemma DelayDelivers(ms: nat)
    ensures Delivers([Delay(ms)], [])
  {
  }

  lemma RunSnoc(p: Pins, a: seq<Event>, e: Event)
    ensures var r := Run(p, a); var s := Step(r.pins, e);
      Run(p, a + [e]) == Reception(s.pins, r.latches + s.latches)
  {
    RunAppend(p, a, [e]);
    assert [e][1..] == [];
  }

  lemma {:induction false} RunBytesAppend(p: Pins, a: seq<Byte>, b: seq<Byte>)
    ensures var r := RunBytes(p, a); var s := RunBytes(r.pins, b);
      RunBytes(p, a + b) == Reception(s.pins, r.latches + s.latches)
    decreases |a|
  {
    if a == [] {
      assert a + b == b;
    } else {
      assert (a + b)[0] == a[0];
      assert (a + b)[1..] == a[1..] + b;
      RunBytesAppend(Expander(a[0]), a[1..], b);
    }
  }

  lemma RunBytesSnoc(p: Pins, a: seq<Byte>, x: Byte)
    ensures var r := RunBytes(p, a); var s := Edge(r.pins, Expander(x));
      RunBytes(p, a + [x]) == Reception(s.pins, r.latches + s.latches)
  {
    RunBytesAppend(p, a, [x]);
    assert [x][1..] == [];
  }

  /** Driving D4..D7 with the four bits of a nibble leaves the nibble on the bus. */
  lemma BusTakesNibble(bus: bv4, nibble: Byte)
    requires nibble < 16
    ensures var b0 := SetBusLine(bus, 0, (nibble >> 0) & 0x01 != 0);
      var b1 := SetBusLine(b0, 1, (nibble >> 1) & 0x01 != 0);
      var b2 := SetBusLine(b1, 2, (nibble >> 2) & 0x01 != 0);
      SetBusLine(b2, 3, (nibble >> 3) & 0x01 != 0) == nibble as bv4
  {
  }

  /** Four data-line calls, in any levels, set D4..D7 in turn and latch nothing. */
  lemma DataLinesSet(p: Pins, v0: Byte, v1: Byte, v2: Byte, v3: Byte)
    ensures var b0 := SetBusLine(p.bus, 0, v0 != 0);
      var b1 := SetBusLine(b0, 1, v1 != 0);
      var b2 := SetBusLine(b1, 2, v2 != 0);
      Run(p, [SetD(4, v0), SetD(5, v1), SetD(6, v2), SetD(7, v3)])
        == Reception(p.(bus := SetBusLine(b2, 3, v3 != 0)), [])
  {
    var e := [SetD(4, v0), SetD(5, v1), SetD(6, v2), SetD(7, v3)];
    assert e[..0] == [];
    assert e[..1] == e[..0] + [e[0]];
    RunSnoc(p, e[..0], e[0]);
    assert e[..2] == e[..1] + [e[1]];
    RunSnoc(p, e[..1], e[1]);
    assert e[..3] == e[..2] + [e[2]];
    RunSnoc(p, e[..2], e[2]);
    assert e[..4] == e[..3] + [e[3]];
    RunSnoc(p, e[..3], e[3]);
    assert e[..4] == e;
  }

  /** The data-line calls of a nibble put that nibble on D4..D7 and latch nothing. */
  lemma NibbleOnBus(p: Pins, nibble: Byte)
    requires nibble < 16
    ensures Run(p, NibbleLines(nibble)) == Reception(p.(bus := nibble as bv4), [])
  {
    DataLinesSet(p, (nibble >> 0) & 0x01, (nibble >> 1) & 0x01, (nibble >> 2) & 0x01, (nibble >> 3) & 0x01);
    BusTakesNibble(p.bus, nibble);
  }

  /** The enable pulse latches RS and the bus once, on its falling edge. */
  lemma PulseLatches(q: Pins)
    requires !q.rw
    ensures Run(q, ENABLE_PULSE) == Reception(q.(en := false), [Latch(q.rs, q.bus)])
  {
    var e := ENABLE_PULSE;
    assert e[..0] == [];
    assert e[..1] == e[..0] + [e[0]];
    RunSnoc(q, e[..0], e[0]);
    assert e[..2] == e[..1] + [e[1]];
    RunSnoc(q, e[..1], e[1]);
    assert e[..3] == e[..2] + [e[2]];
    RunSnoc(q, e[..2], e[2]);
    assert e[..4] == e[..3] + [e[3]];
    RunSnoc(q, e[..3], e[3]);
    assert e[..4] == e;
  }

  /** One nibble of a 4-bit writer: D(4+k) carries bit k, and the E pulse latches it once. */
  lemma NibbleLatched(p: Pins, nibble: Byte)
    requires nibble < 16 && !p.rw
    ensures Run(p, NibbleEvents(nibble))
      == Reception(p.(en := false, bus := nibble as bv4), [Latch(p.rs, nibble as bv4)])
  {
    NibbleOnBus(p, nibble);
    PulseLatches(p.(bus := nibble as bv4));
    RunAppend(p, NibbleLines(nibble), ENABLE_PULSE);
  }

  /** RS, then RW low when an RW setter is present: no latch, E unchanged. */
  lemma SelectRegister(p: Pins, rs: Byte, hasRW: bool)
    requires !p.rw
    ensures Run(p, [SetRS(rs)] + (if hasRW then [SetRW(0)] else [])) == Reception(p.(rs := rs != 0), [])
  {
    RunSnoc(p, [], SetRS(rs));
    assert [] + [SetRS(rs)] == [SetRS(rs)];
    if hasRW {
      RunSnoc(p, [SetRS(rs)], SetRW(0));
    } else {
      assert [SetRS(rs)] + [] == [SetRS(rs)];
    }
  }

  /** RS (and RW), then the first nibble: one latch with RS = `rs`. */
  lemma SelectThenNibble(p: Pins, rs: Byte, hasRW: bool, nibble: Byte)
    requires Idle(p) && nibble < 16
    ensures Run(p, [SetRS(rs)] + (if hasRW then [SetRW(0)] else []) + NibbleEvents(nibble))
      == Reception(p.(rs := rs != 0, bus := nibble as bv4), [Latch(rs != 0, nibble as bv4)])
  {
    var head := [SetRS(rs)] + (if hasRW then [SetRW(0)] else []);
    SelectRegister(p, rs, hasRW);
    NibbleLatched(p.(rs := rs != 0), nibble);
    RunAppend(p, head, NibbleEvents(nibble));
  }

  /** A 4-bit write latches the high nibble, then the low one, both with RS = `rs`. */
  lemma ParallelRun(p: Pins, rs: Byte, hasRW: bool, b: Byte)
    requires Idle(p)
    ensures Run(p, ParallelTrace(rs, hasRW, b)) == Reception(
      p.(rs := rs != 0, bus := LowNibble(b) as bv4),
      [Latch(rs != 0, HighNibble(b) as bv4), Latch(rs != 0, LowNibble(b) as bv4)])
  {
    var hi, lo := HighNibble(b), LowNibble(b);
    var first := [SetRS(rs)] + (if hasRW then [SetRW(0)] else []) + NibbleEvents(hi);
    assert ParallelTrace(rs, hasRW, b) == first + NibbleEvents(lo);
    assert hi < 16 && lo < 16;
    SelectThenNibble(p, rs, hasRW, hi);
    TwoRuns(p, first, NibbleEvents(lo), p.(rs := rs != 0, bus := hi as bv4), Latch(rs != 0, hi as bv4));
    NibbleLatched(p.(rs := rs != 0, bus := hi as bv4), lo);
  }

  lemma TwoRuns(p: Pins, a: seq<Event>, b: seq<Event>, q: Pins, l: Latch)
    requires Run(p, a) == Reception(q, [l])
    ensures Run(p, a + b) == Reception(Run(q, b).pins, [l] + Run(q, b).latches)
  {
    RunAppend(p, a, b);
  }

  /** Two latched nibbles with the same RS make one transfer. */
  lemma AssemblePair(rs: bool, b: Byte)
    ensures Assemble([Latch(rs, HighNibble(b) as bv4), Latch(rs, LowNibble(b) as bv4)])
      == [if rs then Data(b) else Command(b)]
  {
    var ls := [Latch(rs, HighNibble(b) as bv4), Latch(rs, LowNibble(b) as bv4)];
    assert ls[2..] == [];
    NibblesRecompose(b);
    assert ((HighNibble(b) as bv4 as Byte) << 4) | (LowNibble(b) as bv4 as Byte) == b;
  }

  /** A 4-bit write with register-select level `rs` delivers byte `b`. */
  lemma ParallelDelivers(rs: Byte, hasRW: bool, b: Byte)
    requires rs == 0 || rs == 1
    ensures Delivers(ParallelTrace(rs, hasRW, b), [if rs == 1 then Data(b) else Command(b)])
  {
    AssemblePair(rs == 1, b);
    forall p: Pins | Idle(p)
      ensures var r := Run(p, ParallelTrace(rs, hasRW, b));
        Idle(r.pins) && |r.latches| % 2 == 0
        && Assemble(r.latches) == [if rs == 1 then Data(b) else Command(b)]
    {
      ParallelRun(p, rs, hasRW, b);
    }
  }

  /** Four expander bytes that raise E in bytes 0 and 2, lower it in bytes 1
      and 3 and never raise R/W latch the upper halves of bytes 1 and 3. */
  lemma FrameLatches(p: Pins, x0: Byte, x1: Byte, x2: Byte, x3: Byte)
    requires x0 & 0x04 != 0 && x1 & 0x04 == 0 && x2 & 0x04 != 0 && x3 & 0x04 == 0
    requires x1 & 0x02 == 0 && x3 & 0x02 == 0
    ensures RunBytes(p, [x0, x1, x2, x3]) == Reception(Expander(x3),
      [Latch(x1 & 0x01 != 0, (x1 >> 4) as bv4), Latch(x3 & 0x01 != 0, (x3 >> 4) as bv4)])
  {
    var f := [x0, x1, x2, x3];
    assert f[..0] == [];
    assert f[..1] == f[..0] + [f[0]];
    RunBytesSnoc(p, f[..0], f[0]);
    assert f[..2] == f[..1] + [f[1]];
    RunBytesSnoc(p, f[..1], f[1]);
    assert f[..3] == f[..2] + [f[2]];
    RunBytesSnoc(p, f[..2], f[2]);
    assert f[..4] == f[..3] + [f[3]];
    RunBytesSnoc(p, f[..3], f[3]);
    assert f[..4] == f;
  }

  /** The control and data bits of a serial frame as the expander presents them. */
  lemma FrameBits(isData: bool, b: Byte)
    ensures var f := if isData then SerialDataFrame(b) else SerialCommandFrame(b);
      && f[0] & 0x04 != 0 && f[1] & 0x04 == 0 && f[2] & 0x04 != 0 && f[3] & 0x04 == 0
      && f[1] & 0x02 == 0 && f[3] & 0x02 == 0
      && (f[1] & 0x01 != 0) == isData && (f[3] & 0x01 != 0) == isData
      && (f[1] >> 4) as bv4 == HighNibble(b) as bv4 && (f[3] >> 4) as bv4 == LowNibble(b) as bv4
  {
  }

  /** A serial write latches the high nibble, then the low one. */
  lemma SerialRun(p: Pins, isData: bool, b: Byte)
    ensures var f := if isData then SerialDataFrame(b) else SerialCommandFrame(b);
      Run(p, [I2CSend(f, I2C_TIMEOUT)]) == Reception(Expander(f[3]),
        [Latch(isData, HighNibble(b) as bv4), Latch(isData, LowNibble(b) as bv4)])
  {
    var f := if isData then SerialDataFrame(b) else SerialCommandFrame(b);
    FrameBits(isData, b);
    FrameLatches(p, f[0], f[1], f[2], f[3]);
    assert f == [f[0], f[1], f[2], f[3]];
    assert [I2CSend(f, I2C_TIMEOUT)][1..] == [];
  }

  /** The four bytes of a serial frame deliver the byte. */
  lemma SerialFrameDelivers(isData: bool, b: Byte)
    ensures Delivers([I2CSend(if isData then SerialDataFrame(b) else SerialCommandFrame(b), I2C_TIMEOUT)],
                     [if isData then Data(b) else Command(b)])
  {
    var f := if isData then SerialDataFrame(b) else SerialCommandFrame(b);
    FrameBits(isData, b);
    AssemblePair(isData, b);
    forall p: Pins | Idle(p)
      ensures var r := Run(p, [I2CSend(f, I2C_TIMEOUT)]);
        Idle(r.pins) && |r.latches| % 2 == 0 && Assemble(r.latches) == [if isData then Data(b) else Command(b)]
    {
      SerialRun(p, isData, b);
    }
  }

  /** write_cmd delivers the instruction in 4-bit and serial mode and nothing in 8-bit mode. */
  lemma CommandDelivers(w: Writer, hasRW: bool, cmd: Byte)
    ensures Delivers(CommandTrace(w, hasRW, cmd), Expected(w, [Command(cmd)]))
  {
    match w
    case Parallel4 => ParallelDelivers(0, hasRW, cmd);
    case Parallel8 =>
    case Serial => SerialFrameDelivers(false, cmd);
  }

  /** write_data delivers the character in 4-bit and serial mode and nothing in 8-bit mode. */
  lemma DataDelivers(w: Writer, hasRW: bool, data: Byte)
    ensures Delivers(DataTrace(w, hasRW, data), Expected(w, [Data(data)]))
  {
    match w
    case Parallel4 => ParallelDelivers(1, hasRW, data);
    case Parallel8 =>
    case Serial => SerialFrameDelivers(true, data);
  }
}
