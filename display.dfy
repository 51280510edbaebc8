/**
 * The public operations of hd44780.c as the calls they make through a
 * configured handle, given its writer variant and whether an RW setter is
 * present, together with the HD44780 instructions they issue and what the
 * controller receives (see module Receiver).
 */
module Display {
  import opened Bus
  import opened Encoding
  import opened Receiver
  import opened Decimal

  /** HD44780 instructions the driver issues. */
  const CMD_CLEAR: Byte := 0x01          // clear display
  const CMD_HOME: Byte := 0x02           // return home
  const CMD_ENTRY_MODE: Byte := 0x06     // entry mode: increment, no display shift
  const CMD_DISPLAY_ON: Byte := 0x0C     // display on, cursor off, blink off
  const CMD_FUNCTION_SET: Byte := 0x28   // 4-bit interface, 2 lines, 5x8 dots
  const CMD_CURSOR_RIGHT: Byte := 0x14   // cursor/display shift: cursor right
  const CMD_CURSOR_LEFT: Byte := 0x10    // cursor/display shift: cursor left
  const SET_DDRAM_ADDRESS: Byte := 0x80  // set DDRAM address, address in bits 0..6

  /** The commands of hd44780_config, in order. */
  const POWER_ON_COMMANDS: seq<Byte> :=
    [CMD_HOME, CMD_FUNCTION_SET, CMD_ENTRY_MODE, CMD_DISPLAY_ON, CMD_CLEAR]

  /** Settle delay after each power-on command, and the busy wait of hd44780_wait. */
  const POWER_ON_DELAY_MS: nat := 100
  const WAIT_MS: nat := 2

  /** Columns of the widest display size the driver names (20x4). */
  const MAX_COLUMNS: Byte := 20

  function AsCommands(cmds: seq<Byte>): (ts: seq<Transfer>)
    ensures |ts| == |cmds|
    ensures forall i :: 0 <= i < |cmds| ==> ts[i] == Command(cmds[i])
  {
    if cmds == [] then [] else [Command(cmds[0])] + AsCommands(cmds[1..])
  }

  function AsData(s: seq<Byte>): (ts: seq<Transfer>)
    ensures |ts| == |s|
    ensures forall i :: 0 <= i < |s| ==> ts[i] == Data(s[i])
  {
    if s == [] then [] else [Data(s[0])] + AsData(s[1..])
  }

  // ---------------------------------------------------------------- config

  /** The 4-bit branch of hd44780_config: RS, RW (when present), E and D4..D7 low. */
  function ZeroLines(hasRW: bool): seq<Event>
  {
    [SetRS(0)] + (if hasRW then [SetRW(0)] else []) + [SetEN(0)]
    + [SetD(4, 0), SetD(5, 0), SetD(6, 0), SetD(7, 0)]
  }

  /** Each command through write_cmd, followed by delay(ms). */
  function CommandsWithDelay(w: Writer, hasRW: bool, cmds: seq<Byte>, ms: nat): seq<Event>
  {
    if cmds == [] then []
    else CommandTrace(w, hasRW, cmds[0]) + [Delay(ms)] + CommandsWithDelay(w, hasRW, cmds[1..], ms)
  }

  /** What hd44780_config calls for a handle whose mode is `mode`. */
  function ConfigTrace(mode: int, hasRW: bool): seq<Event>
  {
    (if mode == COMM_MODE_4BIT then ZeroLines(hasRW) else [])
    + CommandsWithDelay(WriterFor(mode), hasRW, POWER_ON_COMMANDS, POWER_ON_DELAY_MS)
  }

  /** Driving every line low from an idle state latches nothing and stays idle. */
  lemma ZeroLinesDelivers(hasRW: bool)
    ensures Delivers(ZeroLines(hasRW), [])
  {
    var head := [SetRS(0)] + (if hasRW then [SetRW(0)] else []);
    assert ZeroLines(hasRW) == (head + [SetEN(0)]) + [SetD(4, 0), SetD(5, 0), SetD(6, 0), SetD(7, 0)];
    forall p: Pins | Idle(p)
      ensures var r := Run(p, ZeroLines(hasRW));
        Idle(r.pins) && |r.latches| % 2 == 0 && Assemble(r.latches) == []
    {
      SelectRegister(p, 0, hasRW);
      RunSnoc(p, head, SetEN(0));
      var q := p.(rs := false);
      DataLinesSet(q, 0, 0, 0, 0);
      RunAppend(p, head + [SetEN(0)], [SetD(4, 0), SetD(5, 0), SetD(6, 0), SetD(7, 0)]);
    }
  }

  /** From any pin levels the reset leaves RS, E and D4..D7 low, and R/W low
      unless it was high with no RW setter to lower it. When E starts high in
      a write, lowering it before D4..D7 latches the old bus once as an
      instruction nibble. */
  lemma ZeroLinesReset(p: Pins, hasRW: bool)
    ensures var rw := p.rw && !hasRW;
      var r := Run(p, ZeroLines(hasRW));
      && r.pins == Pins(false, rw, false, 0)
      && r.latches == (if p.en && !rw then [Latch(false, p.bus)] else [])
  {
    var rw := p.rw && !hasRW;
    var head := [SetRS(0)] + (if hasRW then [SetRW(0)] else []);
    var lines := [SetD(4, 0), SetD(5, 0), SetD(6, 0), SetD(7, 0)];
    assert ZeroLines(hasRW) == (head + [SetEN(0)]) + lines;
    var q := p.(rs := false, rw := rw);
    ResetSelect(p, hasRW);
    RunSnoc(p, head, SetEN(0));
    var stray := if p.en && !rw then [Latch(false, p.bus)] else [];
    assert Run(p, head + [SetEN(0)]) == Reception(q.(en := false), stray);
    DataLinesSet(q.(en := false), 0, 0, 0, 0);
    BusCleared(p.bus);
    assert Run(q.(en := false), lines) == Reception(Pins(false, rw, false, 0), []);
    RunAppend(p, head + [SetEN(0)], lines);
    AppendEmpty(stray);
  }

  /** RS low, then R/W low when an RW setter is present, from any pin levels. */
  lemma ResetSelect(p: Pins, hasRW: bool)
    ensures Run(p, [SetRS(0)] + (if hasRW then [SetRW(0)] else []))
      == Reception(p.(rs := false, rw := p.rw && !hasRW), [])
  {
    RunSnoc(p, [], SetRS(0));
    assert [] + [SetRS(0)] == [SetRS(0)];
    if hasRW {
      RunSnoc(p, [SetRS(0)], SetRW(0));
    } else {
      assert [SetRS(0)] + [] == [SetRS(0)];
    }
  }

  /** Lowering D4..D7 in turn clears the bus. */
  lemma BusCleared(bus: bv4)
    ensures SetBusLine(SetBusLine(SetBusLine(SetBusLine(bus, 0, false), 1, false), 2, false), 3, false) == 0
  {
  }

  /** One more command at the end adds its write and its delay at the end. */
  lemma {:induction false} CommandsWithDelayAppend(w: Writer, hasRW: bool, cmds: seq<Byte>, c: Byte, ms: nat)
    ensures CommandsWithDelay(w, hasRW, cmds + [c], ms)
      == CommandsWithDelay(w, hasRW, cmds, ms) + CommandTrace(w, hasRW, c) + [Delay(ms)]
    decreases |cmds|
  {
    var cmd := CommandTrace(w, hasRW, c);
    var last := cmd + [Delay(ms)];
    AppendAssoc(CommandsWithDelay(w, hasRW, cmds, ms), cmd, [Delay(ms)]);
    if cmds == [] {
      assert [c][1..] == [];
      assert CommandsWithDelay(w, hasRW, [c], ms) == last + [];
      AppendEmpty(last);
    } else {
      var head := CommandTrace(w, hasRW, cmds[0]) + [Delay(ms)];
      var rest := CommandsWithDelay(w, hasRW, cmds[1..], ms);
      assert (cmds + [c])[0] == cmds[0];
      assert (cmds + [c])[1..] == cmds[1..] + [c];
      CommandsWithDelayAppend(w, hasRW, cmds[1..], c, ms);
      AppendAssoc(rest, cmd, [Delay(ms)]);
      AppendAssoc(head, rest, last);
    }
  }

  lemma {:induction false} CommandsWithDelayDelivers(w: Writer, hasRW: bool, cmds: seq<Byte>, ms: nat)
    ensures Delivers(CommandsWithDelay(w, hasRW, cmds, ms), Expected(w, AsCommands(cmds)))
    decreases |cmds|
  {
    if cmds == [] {
      assert Delivers([], []) by {
        forall p: Pins | Idle(p) ensures Run(p, []) == Reception(p, []) { }
      }
    } else {
      CommandDelivers(w, hasRW, cmds[0]);
      DelayDelivers(ms);
      DeliversAppend(CommandTrace(w, hasRW, cmds[0]), Expected(w, [Command(cmds[0])]), [Delay(ms)], []);
      CommandsWithDelayDelivers(w, hasRW, cmds[1..], ms);
      DeliversAppend(CommandTrace(w, hasRW, cmds[0]) + [Delay(ms)], Expected(w, [Command(cmds[0])]) + [],
                     CommandsWithDelay(w, hasRW, cmds[1..], ms), Expected(w, AsCommands(cmds[1..])));
      assert Expected(w, [Command(cmds[0])]) + [] + Expected(w, AsCommands(cmds[1..]))
        == Expected(w, AsCommands(cmds));
    }
  }

  /** hd44780_config delivers return home, function set, entry mode, display
      on and clear, in that order (nothing in 8-bit mode). */
  lemma ConfigDelivers(mode: int, hasRW: bool)
    ensures Delivers(ConfigTrace(mode, hasRW),
      Expected(WriterFor(mode), [Command(0x02), Command(0x28), Command(0x06), Command(0x0C), Command(0x01)]))
  {
    var w := WriterFor(mode);
    var cmds := CommandsWithDelay(w, hasRW, POWER_ON_COMMANDS, POWER_ON_DELAY_MS);
    CommandsWithDelayDelivers(w, hasRW, POWER_ON_COMMANDS, POWER_ON_DELAY_MS);
    assert AsCommands(POWER_ON_COMMANDS)
      == [Command(0x02), Command(0x28), Command(0x06), Command(0x0C), Command(0x01)];
    if mode == COMM_MODE_4BIT {
      ZeroLinesDelivers(hasRW);
      DeliversAppend(ZeroLines(hasRW), [], cmds, Expected(w, AsCommands(POWER_ON_COMMANDS)));
      assert [] + Expected(w, AsCommands(POWER_ON_COMMANDS)) == Expected(w, AsCommands(POWER_ON_COMMANDS));
    } else {
      assert ConfigTrace(mode, hasRW) == cmds;
    }
  }

  // ---------------------------------------------------------- clear, home

  /** hd44780_clear: the clear command, then the 2 ms wait. */
  function ClearTrace(w: Writer, hasRW: bool): seq<Event>
  {
    CommandTrace(w, hasRW, CMD_CLEAR) + [Delay(WAIT_MS)]
  }

  /** hd44780_home: the return-home command, then the 2 ms wait. */
  function HomeTrace(w: Writer, hasRW: bool): seq<Event>
  {
    CommandTrace(w, hasRW, CMD_HOME) + [Delay(WAIT_MS)]
  }

  /** clear and home deliver exactly one instruction each, 0x01 and 0x02. */
  lemma ClearHomeDeliver(w: Writer, hasRW: bool)
    ensures Delivers(ClearTrace(w, hasRW), Expected(w, [Command(0x01)]))
    ensures Delivers(HomeTrace(w, hasRW), Expected(w, [Command(0x02)]))
  {
    DelayDelivers(WAIT_MS);
    CommandDelivers(w, hasRW, CMD_CLEAR);
    DeliversAppend(CommandTrace(w, hasRW, CMD_CLEAR), Expected(w, [Command(0x01)]), [Delay(WAIT_MS)], []);
    assert Expected(w, [Command(0x01)]) + [] == Expected(w, [Command(0x01)]);
    CommandDelivers(w, hasRW, CMD_HOME);
    DeliversAppend(CommandTrace(w, hasRW, CMD_HOME), Expected(w, [Command(0x02)]), [Delay(WAIT_MS)], []);
    assert Expected(w, [Command(0x02)]) + [] == Expected(w, [Command(0x02)]);
  }

  // ------------------------------------------------- characters and text

  /** One write_data per byte, in order. */
  function DataBytesTrace(w: Writer, hasRW: bool, s: seq<Byte>): seq<Event>
  {
    if s == [] then [] else DataTrace(w, hasRW, s[0]) + DataBytesTrace(w, hasRW, s[1..])
  }

  lemma {:induction false} DataBytesTraceAppend(w: Writer, hasRW: bool, s: seq<Byte>, c: Byte)
    ensures DataBytesTrace(w, hasRW, s + [c]) == DataBytesTrace(w, hasRW, s) + DataTrace(w, hasRW, c)
    decreases |s|
  {
    if s == [] {
      assert [c][1..] == [];
    } else {
      assert (s + [c])[1..] == s[1..] + [c];
      DataBytesTraceAppend(w, hasRW, s[1..], c);
    }
  }

  /** The characters a run of data writes delivers: the bytes, in order, to the data register. */
  lemma {:induction false} DataBytesDeliver(w: Writer, hasRW: bool, s: seq<Byte>)
    ensures Delivers(DataBytesTrace(w, hasRW, s), Expected(w, AsData(s)))
    decreases |s|
  {
    if s == [] {
      assert Delivers([], []) by {
        forall p: Pins | Idle(p) ensures Run(p, []) == Reception(p, []) { }
      }
    } else {
      DataDelivers(w, hasRW, s[0]);
      DataBytesDeliver(w, hasRW, s[1..]);
      DeliversAppend(DataTrace(w, hasRW, s[0]), Expected(w, [Data(s[0])]),
                     DataBytesTrace(w, hasRW, s[1..]), Expected(w, AsData(s[1..])));
      assert Expected(w, [Data(s[0])]) + Expected(w, AsData(s[1..])) == Expected(w, AsData(s));
    }
  }

  /** The bytes hd44780_write_string reads from `mem`: everything before the
      first 0 byte, which must exist. */
  function CString(mem: seq<Byte>): (s: seq<Byte>)
    requires 0 in mem
    ensures |s| < |mem| && s == mem[..|s|] && mem[|s|] == 0
    ensures 0 !in s
  {
    if mem[0] == 0 then [] else [mem[0]] + CString(mem[1..])
  }

  /** hd44780_write_string: one data write per byte before the terminator. */
  function StringTrace(w: Writer, hasRW: bool, mem: seq<Byte>): seq<Event>
    requires 0 in mem
  {
    DataBytesTrace(w, hasRW, CString(mem))
  }

  /** write_string delivers the characters up to the terminator and nothing
      after it; an empty string delivers nothing. */
  lemma StringDelivers(w: Writer, hasRW: bool, mem: seq<Byte>)
    requires 0 in mem
    ensures Delivers(StringTrace(w, hasRW, mem), Expected(w, AsData(CString(mem))))
    ensures mem[0] == 0 ==> StringTrace(w, hasRW, mem) == []
  {
    DataBytesDeliver(w, hasRW, CString(mem));
  }

  /** hd44780_write_int: the characters of IntText, each by write_data. */
  function IntTrace(w: Writer, hasRW: bool, number: int): seq<Event>
  {
    DataBytesTrace(w, hasRW, IntText(number))
  }

  /** write_int's calls in two parts: the '-' write for a negative number, then
      one write per digit of its absolute value. */
  lemma IntTraceSplit(w: Writer, hasRW: bool, number: int)
    ensures IntTrace(w, hasRW, number)
      == (if number < 0 then DataTrace(w, hasRW, ASCII_MINUS) else [])
         + DataBytesTrace(w, hasRW, FormatDecimal(Abs(number)))
  {
    var digits := FormatDecimal(Abs(number));
    if number < 0 {
      assert ([ASCII_MINUS] + digits)[1..] == digits;
    } else {
      assert [] + digits == digits;
    }
  }

  /** write_int delivers '-' exactly for a negative number, then its decimal
      digits, and the delivered text reads back as the number. */
  lemma IntDelivers(w: Writer, hasRW: bool, number: int)
    ensures Delivers(IntTrace(w, hasRW, number), Expected(w, AsData(IntText(number))))
    ensures ParseInt(IntText(number)) == number
    ensures (IntText(number)[0] == ASCII_MINUS) == (number < 0)
  {
    DataBytesDeliver(w, hasRW, IntText(number));
    IntTextFacts(number);
  }

  // ---------------------------------------------------------------- gotoxy

  /** Set-DDRAM-address instruction for the first column of a row; rows 3
      and above share the row-3 base. */
  function RowBase(row: Byte): Byte
  {
    if row == 0 then 0x80 else if row == 1 then 0xC0 else if row == 2 then 0x94 else 0xD4
  }

  /** The command hd44780_gotoxy(col, row) issues: base + col, wrapping
      modulo 256 as the `uint8_t` parameter of write_cmd does. */
  function GotoCommand(col: Byte, row: Byte): Byte
  {
    RowBase(row) + col
  }

  /** GotoCommand row by row: base 0x80, 0xC0, 0x94, and 0xD4 for every row above 2. */
  lemma GotoRowCommands(col: Byte)
    ensures GotoCommand(col, 0) == 0x80 + col
    ensures GotoCommand(col, 1) == 0xC0 + col
    ensures GotoCommand(col, 2) == 0x94 + col
    ensures forall row: Byte :: row > 2 ==> GotoCommand(col, row) == 0xD4 + col
  {
  }

  /** DDRAM address of the first column of rows 0..3 on a 4-line panel. */
  function RowOffset(row: Byte): Byte
    requires row < 4
  {
    if row == 0 then 0x00 else if row == 1 then 0x40 else if row == 2 then 0x14 else 0x54
  }

  /** The screen position (column, row) of a DDRAM address on a 20-column, 4-line panel. */
  function PositionOf(addr: Byte): (Byte, Byte)
  {
    if addr >= 0x54 then (addr - 0x54, 3)
    else if addr >= 0x40 then (addr - 0x40, 1)
    else if addr >= 0x14 then (addr - 0x14, 2)
    else (addr, 0)
  }

  /** Within the columns of the panel, gotoxy issues Set DDRAM Address
      (0x80 | addr) for the address of (col, row), rows past 3 being row 3;
      and the address names that position again. */
  lemma GotoSetsAddress(col: Byte, row: Byte)
    requires col < MAX_COLUMNS
    ensures var r: Byte := if row < 3 then row else 3;
      var cmd := GotoCommand(col, row);
      && cmd & SET_DDRAM_ADDRESS == SET_DDRAM_ADDRESS
      && cmd & 0x7F == RowOffset(r) + col
      && PositionOf(cmd & 0x7F) == (col, r)
  {
  }

  /** Different positions of a 20x4 panel get different commands. */
  lemma GotoInjective(c1: Byte, r1: Byte, c2: Byte, r2: Byte)
    requires c1 < MAX_COLUMNS && c2 < MAX_COLUMNS && r1 < 4 && r2 < 4
    requires GotoCommand(c1, r1) == GotoCommand(c2, r2)
    ensures c1 == c2 && r1 == r2
  {
    GotoSetsAddress(c1, r1);
    GotoSetsAddress(c2, r2);
  }

  /** Column 5 of row 1 is 0xC5; past the address space the sum wraps, and
      column 64 of row 1 gives 0x00, which is not a Set-DDRAM-address command. */
  lemma GotoExamples()
    ensures GotoCommand(5, 1) == 0xC5
    ensures GotoCommand(0, 7) == GotoCommand(0, 3) == 0xD4
    ensures GotoCommand(64, 1) == 0x00
  {
  }

  /** hd44780_gotoxy: one command. */
  function GotoTrace(w: Writer, hasRW: bool, col: Byte, row: Byte): seq<Event>
  {
    CommandTrace(w, hasRW, GotoCommand(col, row))
  }

  // ---------------------------------------------------------------- shifts

  /** `step` copies of the command `cmd`. */
  function RepeatCommand(w: Writer, hasRW: bool, cmd: Byte, step: nat): seq<Event>
  {
    if step == 0 then [] else RepeatCommand(w, hasRW, cmd, step - 1) + CommandTrace(w, hasRW, cmd)
  }

  /** The shift operations deliver their command exactly `step` times. */
  lemma {:induction false} RepeatDelivers(w: Writer, hasRW: bool, cmd: Byte, step: nat)
    ensures Delivers(RepeatCommand(w, hasRW, cmd, step), Expected(w, AsCommands(seq(step, _ => cmd))))
  {
    if step == 0 {
      assert Delivers([], []) by {
        forall p: Pins | Idle(p) ensures Run(p, []) == Reception(p, []) { }
      }
    } else {
      RepeatDelivers(w, hasRW, cmd, step - 1);
      CommandDelivers(w, hasRW, cmd);
      DeliversAppend(RepeatCommand(w, hasRW, cmd, step - 1), Expected(w, AsCommands(seq(step - 1, _ => cmd))),
                     CommandTrace(w, hasRW, cmd), Expected(w, [Command(cmd)]));
      assert Expected(w, AsCommands(seq(step - 1, _ => cmd))) + Expected(w, [Command(cmd)])
        == Expected(w, AsCommands(seq(step, _ => cmd)));
    }
  }
}
