/**
 * The HD44780 handle and the public operations of hd44780.c. A handle holds
 * the configuration copied in by SetConfig and the writer pair chosen for its
 * mode; each call it makes through an injected function is appended to its
 * `trace`. Operations take a possibly-null handle and return NullPtr for null.
 */
module Driver {
  import opened Bus
  import opened Encoding
  import opened Decimal
  import opened Display

  /** Which injected functions are present (false: a NULL pointer). */
  datatype Capabilities = Capabilities(
    setRS: bool, setRW: bool, setEN: bool,
    setD0: bool, setD1: bool, setD2: bool, setD3: bool,
    setD4: bool, setD5: bool, setD6: bool, setD7: bool,
    i2cSend: bool, delay: bool)

  const NO_CAPABILITIES: Capabilities :=
    Capabilities(false, false, false, false, false, false, false, false, false, false, false, false, false)

  /** `hd44780_cfg_t`: display size, communication mode and injected functions. */
  datatype Config = Config(size: int, commMode: int, caps: Capabilities)

  /** Everything SetConfig writes into a handle. */
  datatype Setup = Setup(size: int, commMode: int, caps: Capabilities, writer: Option<Writer>, waitSet: bool)

  /** The injected functions a writer pair calls. */
  predicate WriterNeeds(w: Writer, caps: Capabilities)
  {
    match w
    case Parallel4 =>
      caps.setRS && caps.setEN && caps.setD4 && caps.setD5 && caps.setD6 && caps.setD7 && caps.delay
    case Parallel8 => true
    case Serial => caps.i2cSend
  }

  predicate HasDataLine(caps: Capabilities, line: nat)
  {
    match line
    case 0 => caps.setD0
    case 1 => caps.setD1
    case 2 => caps.setD2
    case 3 => caps.setD3
    case 4 => caps.setD4
    case 5 => caps.setD5
    case 6 => caps.setD6
    case 7 => caps.setD7
    case _ => false
  }

  class Handle {
    var size: int
    var commMode: int
    var caps: Capabilities
    /** write_cmd and write_data; None while they are NULL. */
    var writer: Option<Writer>
    /** wait (hd44780_wait) is set. */
    var waitSet: bool
    /** Every call made through the injected functions, in order. */
    var trace: seq<Event>

    /** hd44780_init: a zero-filled handle, not yet configured. */
    constructor ()
      ensures size == 0 && commMode == COMM_MODE_4BIT && caps == NO_CAPABILITIES
      ensures writer == None && !waitSet && trace == []
      ensures !Configured()
    {
      size, commMode, caps := 0, 0, NO_CAPABILITIES;
      writer, waitSet := None, false;
      trace := [];
    }

    function Settings(): Setup
      reads this`size, this`commMode, this`caps, this`writer, this`waitSet
    {
      Setup(size, commMode, caps, writer, waitSet)
    }

    /** SetConfig has run: the writer pair matches the mode and wait is set. */
    predicate Configured()
      reads this`size, this`commMode, this`caps, this`writer, this`waitSet
    {
      writer == Some(WriterFor(commMode)) && waitSet
    }

    /** Configured, with every injected function its writer pair calls present. */
    predicate Ready()
      reads this`size, this`commMode, this`caps, this`writer, this`waitSet
    {
      Configured() && WriterNeeds(writer.value, caps)
    }

    // ------------------------------------------- calls to injected functions

    method CallSetRS(level: Byte)
      requires caps.setRS
      modifies this`trace
      ensures trace == old(trace) + [SetRS(level)]
    {
      trace := trace + [SetRS(level)];
    }

    method CallSetRW(level: Byte)
      requires caps.setRW
      modifies this`trace
      ensures trace == old(trace) + [SetRW(level)]
    {
      trace := trace + [SetRW(level)];
    }

    method CallSetEN(level: Byte)
      requires caps.setEN
      modifies this`trace
      ensures trace == old(trace) + [SetEN(level)]
    {
      trace := trace + [SetEN(level)];
    }

    method CallSetD(line: nat, level: Byte)
      requires HasDataLine(caps, line)
      modifies this`trace
      ensures trace == old(trace) + [SetD(line, level)]
    {
      trace := trace + [SetD(line, level)];
    }

    method CallDelay(ms: nat)
      requires caps.delay
      modifies this`trace
      ensures trace == old(trace) + [Delay(ms)]
    {
      trace := trace + [Delay(ms)];
    }

    /** The driver ignores what the send function returns. */
    method CallI2CSend(buf: seq<Byte>, timeout: nat)
      requires caps.i2cSend
      modifies this`trace
      ensures trace == old(trace) + [I2CSend(buf, timeout)]
    {
      trace := trace + [I2CSend(buf, timeout)];
    }

    /** hd44780_wait: delay(2). */
    method Wait()
      requires waitSet && caps.delay
      modifies this`trace
      ensures trace == old(trace) + [Delay(WAIT_MS)]
    {
      CallDelay(WAIT_MS);
    }

    /** The 4-bit branch of hd44780_config: RS, RW (when present), E and D4..D7 low. */
    method DriveLinesLow()
      requires WriterNeeds(Parallel4, caps)
      modifies this`trace
      ensures trace == old(trace) + ZeroLines(caps.setRW)
    {
      CallSetRS(0);
      if caps.setRW {
        CallSetRW(0);
      }
      CallSetEN(0);
      CallSetD(4, 0);
      CallSetD(5, 0);
      CallSetD(6, 0);
      CallSetD(7, 0);
    }

    // ------------------------------------------------------------- writers

    /** One nibble on D4..D7, bit k on D(4+k), then the enable pulse. */
    method PutNibble(nibble: Byte)
      requires WriterNeeds(Parallel4, caps)
      modifies this`trace
      ensures trace == old(trace) + NibbleEvents(nibble)
    {
      var bitData := (nibble >> 0) & 0x01;
      CallSetD(4, bitData);
      bitData := (nibble >> 1) & 0x01;
      CallSetD(5, bitData);
      bitData := (nibble >> 2) & 0x01;
      CallSetD(6, bitData);
      bitData := (nibble >> 3) & 0x01;
      CallSetD(7, bitData);

      CallSetEN(1);
      CallDelay(1);
      CallSetEN(0);
      CallDelay(1);
    }

    /** The shared body of the two 4-bit writers, with RS at `rs`. */
    method Write4Bit(rs: Byte, b: Byte)
      requires WriterNeeds(Parallel4, caps)
      modifies this`trace
      ensures trace == old(trace) + ParallelTrace(rs, caps.setRW, b)
    {
      var nibbleH := (b >> 4) & 0x0F;
      var nibbleL := b & 0x0F;
      ghost var t0 := trace;
      ghost var select := [SetRS(rs)] + (if caps.setRW then [SetRW(0)] else []);
      CallSetRS(rs);
      if caps.setRW {
        CallSetRW(0);
      }
      assert trace == t0 + select;
      PutNibble(nibbleH);
      PutNibble(nibbleL);
      AppendAssoc3(t0, select, NibbleEvents(nibbleH), NibbleEvents(nibbleL));
    }

    /** hd44780_write_cmd_4bit: RS low (instruction register). */
    method WriteCmd4Bit(cmd: Byte) returns (ret: ErrCode)
      requires WriterNeeds(Parallel4, caps)
      modifies this`trace
      ensures ret == Success
      ensures trace == old(trace) + CommandTrace(Parallel4, caps.setRW, cmd)
    {
      Write4Bit(0, cmd);
      return Success;
    }

    /** hd44780_write_data_4bit: RS high (data register). */
    method WriteData4Bit(data: Byte) returns (ret: ErrCode)
      requires WriterNeeds(Parallel4, caps)
      modifies this`trace
      ensures ret == Success
      ensures trace == old(trace) + DataTrace(Parallel4, caps.setRW, data)
    {
      Write4Bit(1, data);
      return Success;
    }

    /** hd44780_write_cmd_8bit: not supported, succeeds without a call. */
    method WriteCmd8Bit(cmd: Byte) returns (ret: ErrCode)
      ensures ret == Success
    {
      return Success;
    }

    /** hd44780_write_data_8bit: not supported, succeeds without a call. */
    method WriteData8Bit(data: Byte) returns (ret: ErrCode)
      ensures ret == Success
    {
      return Success;
    }

    /** hd44780_write_cmd_serial: one 4-byte frame with RS clear. */
    method WriteCmdSerial(cmd: Byte) returns (ret: ErrCode)
      requires WriterNeeds(Serial, caps)
      modifies this`trace
      ensures ret == Success
      ensures trace == old(trace) + CommandTrace(Serial, caps.setRW, cmd)
    {
      var bufSend := [(cmd & 0xF0) | 0x04, cmd & 0xF0,
                      ((cmd << 4) & 0xF0) | 0x04, ((cmd << 4) & 0xF0) | 0x08];
      CallI2CSend(bufSend, I2C_TIMEOUT);
      return Success;
    }

    /** hd44780_write_data_serial: one 4-byte frame with RS set. */
    method WriteDataSerial(data: Byte) returns (ret: ErrCode)
      requires WriterNeeds(Serial, caps)
      modifies this`trace
      ensures ret == Success
      ensures trace == old(trace) + DataTrace(Serial, caps.setRW, data)
    {
      var bufSend := [(data & 0xF0) | 0x0D, (data & 0xF0) | 0x09,
                      ((data << 4) & 0xF0) | 0x0D, ((data << 4) & 0xF0) | 0x09];
      CallI2CSend(bufSend, I2C_TIMEOUT);
      return Success;
    }

    /** handle->write_cmd: the writer SetConfig selected. */
    method WriteCmd(cmd: Byte) returns (ret: ErrCode)
      requires Ready()
      modifies this`trace
      ensures ret == Success
      ensures trace == old(trace) + CommandTrace(writer.value, caps.setRW, cmd)
    {
      match writer.value
      case Parallel4 => ret := WriteCmd4Bit(cmd);
      case Parallel8 => ret := WriteCmd8Bit(cmd);
      case Serial => ret := WriteCmdSerial(cmd);
    }

    /** handle->write_data: the writer SetConfig selected. */
    method WriteData(data: Byte) returns (ret: ErrCode)
      requires Ready()
      modifies this`trace
      ensures ret == Success
      ensures trace == old(trace) + DataTrace(writer.value, caps.setRW, data)
    {
      match writer.value
      case Parallel4 => ret := WriteData4Bit(data);
      case Parallel8 => ret := WriteData8Bit(data);
      case Serial => ret := WriteDataSerial(data);
    }

    /** The digit loop of hd44780_write_int: write_data for buf[0] .. buf[count - 1]. */
    method WriteBytes(buf: seq<Byte>, count: int) returns (ret: ErrCode)
      requires Ready() && count == |buf|
      modifies this`trace
      ensures ret == Success
      ensures trace == old(trace) + DataBytesTrace(writer.value, caps.setRW, buf)
    {
      for i := 0 to count
        invariant trace == old(trace) + DataBytesTrace(writer.value, caps.setRW, buf[..i])
      {
        ret := WriteData(buf[i]);
        if ret != Success {
          return ret;
        }
        assert buf[..i + 1] == buf[..i] + [buf[i]];
        DataBytesTraceAppend(writer.value, caps.setRW, buf[..i], buf[i]);
        AppendAssoc(old(trace), DataBytesTrace(writer.value, caps.setRW, buf[..i]), DataTrace(writer.value, caps.setRW, buf[i]));
      }
      assert buf[..count] == buf;
      return Success;
    }

    /** One step of hd44780_config: write_cmd (its result is not looked at), then delay(100). */
    method PowerOnCommand(cmd: Byte)
      requires Ready() && caps.delay
      modifies this`trace
      ensures trace == old(trace) + CommandTrace(writer.value, caps.setRW, cmd) + [Delay(POWER_ON_DELAY_MS)]
    {
      var _ := WriteCmd(cmd);
      CallDelay(POWER_ON_DELAY_MS);
    }
  }

  // ------------------------------------------------------ public operations

  /** hd44780_set_config: choose the writer pair for the mode and copy every field. */
  method SetConfig(h: Handle?, config: Config) returns (ret: ErrCode)
    modifies h
    ensures h == null ==> ret == NullPtr
    ensures h != null ==> ret == Success
    ensures h != null ==> h.Settings() == Setup(config.size, config.commMode, config.caps, Some(WriterFor(config.commMode)), true)
    ensures h != null ==> h.trace == old(h.trace)
    ensures h != null ==> h.Configured()
    ensures h != null ==> (h.Ready() <==> WriterNeeds(WriterFor(config.commMode), config.caps))
  {
    if h == null {
      return NullPtr;
    }
    var w: Writer;
    if config.commMode == COMM_MODE_4BIT {
      w := Parallel4;
    } else if config.commMode == COMM_MODE_8BIT {
      w := Parallel8;
    } else {
      w := Serial;
    }
    h.size := config.size;
    h.commMode := config.commMode;
    h.caps := config.caps;
    h.writer := Some(w);
    h.waitSet := true;
    return Success;
  }

  /** hd44780_config: in 4-bit mode drive the control and data lines low, then
      the five power-on commands, each followed by delay(100). The writers'
      results are not looked at. */
  method ConfigDisplay(h: Handle?) returns (ret: ErrCode)
    requires h != null ==> h.Ready() && h.caps.delay
    modifies h
    ensures h == null ==> ret == NullPtr
    ensures h != null ==> ret == Success
    ensures h != null ==> h.Settings() == old(h.Settings())
    ensures h != null ==> h.trace == old(h.trace) + ConfigTrace(h.commMode, h.caps.setRW)
  {
    if h == null {
      return NullPtr;
    }
    var w, rw := h.writer.value, h.caps.setRW;
    if h.commMode == COMM_MODE_4BIT {
      h.DriveLinesLow();
    } else if h.commMode == COMM_MODE_8BIT {
      // 8-bit mode is not supported
    } else {
      // nothing to do
    }
    ghost var start := h.trace;
    assert start == old(h.trace) + (if h.commMode == COMM_MODE_4BIT then ZeroLines(rw) else []);
    h.PowerOnCommand(CMD_HOME);
    h.PowerOnCommand(CMD_FUNCTION_SET);
    h.PowerOnCommand(CMD_ENTRY_MODE);
    h.PowerOnCommand(CMD_DISPLAY_ON);
    h.PowerOnCommand(CMD_CLEAR);
    PowerOnFlat(start, w, rw);
    AppendAssoc(old(h.trace), (if h.commMode == COMM_MODE_4BIT then ZeroLines(rw) else []),
                CommandsWithDelay(w, rw, POWER_ON_COMMANDS, POWER_ON_DELAY_MS));
    return Success;
  }

  /** The five power-on steps one after the other make up CommandsWithDelay of the
      power-on commands. */
  lemma PowerOnFlat(t: seq<Event>, w: Writer, rw: bool)
    ensures t + CommandTrace(w, rw, CMD_HOME) + [Delay(POWER_ON_DELAY_MS)]
              + CommandTrace(w, rw, CMD_FUNCTION_SET) + [Delay(POWER_ON_DELAY_MS)]
              + CommandTrace(w, rw, CMD_ENTRY_MODE) + [Delay(POWER_ON_DELAY_MS)]
              + CommandTrace(w, rw, CMD_DISPLAY_ON) + [Delay(POWER_ON_DELAY_MS)]
              + CommandTrace(w, rw, CMD_CLEAR) + [Delay(POWER_ON_DELAY_MS)]
      == t + CommandsWithDelay(w, rw, POWER_ON_COMMANDS, POWER_ON_DELAY_MS)
  {
    assert t + CommandsWithDelay(w, rw, [], POWER_ON_DELAY_MS) == t;
    PowerOnStep(t, w, rw, [], CMD_HOME);
    PowerOnStep(t, w, rw, [CMD_HOME], CMD_FUNCTION_SET);
    PowerOnStep(t, w, rw, [CMD_HOME, CMD_FUNCTION_SET], CMD_ENTRY_MODE);
    PowerOnStep(t, w, rw, [CMD_HOME, CMD_FUNCTION_SET, CMD_ENTRY_MODE], CMD_DISPLAY_ON);
    PowerOnStep(t, w, rw, [CMD_HOME, CMD_FUNCTION_SET, CMD_ENTRY_MODE, CMD_DISPLAY_ON], CMD_CLEAR);
    assert [] + [CMD_HOME] == [CMD_HOME];
    assert [CMD_HOME] + [CMD_FUNCTION_SET] == [CMD_HOME, CMD_FUNCTION_SET];
    assert [CMD_HOME, CMD_FUNCTION_SET] + [CMD_ENTRY_MODE] == [CMD_HOME, CMD_FUNCTION_SET, CMD_ENTRY_MODE];
    assert [CMD_HOME, CMD_FUNCTION_SET, CMD_ENTRY_MODE] + [CMD_DISPLAY_ON]
      == [CMD_HOME, CMD_FUNCTION_SET, CMD_ENTRY_MODE, CMD_DISPLAY_ON];
    assert [CMD_HOME, CMD_FUNCTION_SET, CMD_ENTRY_MODE, CMD_DISPLAY_ON] + [CMD_CLEAR] == POWER_ON_COMMANDS;
  }

  /** One more power-on command and its delay after those already sent. */
  lemma PowerOnStep(t: seq<Event>, w: Writer, rw: bool, done: seq<Byte>, c: Byte)
    ensures t + CommandsWithDelay(w, rw, done, POWER_ON_DELAY_MS) + CommandTrace(w, rw, c) + [Delay(POWER_ON_DELAY_MS)]
      == t + CommandsWithDelay(w, rw, done + [c], POWER_ON_DELAY_MS)
  {
    CommandsWithDelayAppend(w, rw, done, c, POWER_ON_DELAY_MS);
    AppendAssoc3(t, CommandsWithDelay(w, rw, done, POWER_ON_DELAY_MS), CommandTrace(w, rw, c), [Delay(POWER_ON_DELAY_MS)]);
  }

  /** hd44780_clear: the clear command, then wait. */
  method Clear(h: Handle?) returns (ret: ErrCode)
    requires h != null ==> h.Ready() && h.caps.delay
    modifies h
    ensures h == null ==> ret == NullPtr
    ensures h != null ==> ret == Success
    ensures h != null ==> h.Settings() == old(h.Settings())
    ensures h != null ==> h.trace == old(h.trace) + ClearTrace(h.writer.value, h.caps.setRW)
  {
    if h == null {
      return NullPtr;
    }
    ret := h.WriteCmd(CMD_CLEAR);
    if ret != Success {
      return ret;
    }
    h.Wait();
    return Success;
  }

  /** hd44780_home: the return-home command, then wait. */
  method Home(h: Handle?) returns (ret: ErrCode)
    requires h != null ==> h.Ready() && h.caps.delay
    modifies h
    ensures h == null ==> ret == NullPtr
    ensures h != null ==> ret == Success
    ensures h != null ==> h.Settings() == old(h.Settings())
    ensures h != null ==> h.trace == old(h.trace) + HomeTrace(h.writer.value, h.caps.setRW)
  {
    if h == null {
      return NullPtr;
    }
    ret := h.WriteCmd(CMD_HOME);
    if ret != Success {
      return ret;
    }
    h.Wait();
    return Success;
  }

  /** hd44780_write_char: one data write. */
  method WriteChar(h: Handle?, chr: Byte) returns (ret: ErrCode)
    requires h != null ==> h.Ready()
    modifies h
    ensures h == null ==> ret == NullPtr
    ensures h != null ==> ret == Success
    ensures h != null ==> h.Settings() == old(h.Settings())
    ensures h != null ==> h.trace == old(h.trace) + DataTrace(h.writer.value, h.caps.setRW, chr)
  {
    if h == null {
      return NullPtr;
    }
    ret := h.WriteData(chr);
    if ret != Success {
      return ret;
    }
    return Success;
  }

  /** hd44780_write_string: a data write per byte of `str` before its first 0 byte. */
  method WriteString(h: Handle?, str: seq<Byte>) returns (ret: ErrCode)
    requires 0 in str
    requires h != null ==> h.Ready()
    modifies h
    ensures h == null ==> ret == NullPtr
    ensures h != null ==> ret == Success
    ensures h != null ==> h.Settings() == old(h.Settings())
    ensures h != null ==> h.trace == old(h.trace) + StringTrace(h.writer.value, h.caps.setRW, str)
  {
    if h == null {
      return NullPtr;
    }
    var w, rw := h.writer.value, h.caps.setRW;
    ghost var text := CString(str);
    var i := 0;
    while str[i] != 0
      invariant 0 <= i <= |text|
      invariant h.Settings() == old(h.Settings())
      invariant h.trace == old(h.trace) + DataBytesTrace(w, rw, str[..i])
      decreases |text| - i
    {
      assert i < |text|;
      ret := h.WriteData(str[i]);
      if ret != Success {
        return ret;
      }
      assert str[..i + 1] == str[..i] + [str[i]];
      DataBytesTraceAppend(w, rw, str[..i], str[i]);
      AppendAssoc(old(h.trace), DataBytesTrace(w, rw, str[..i]), DataTrace(w, rw, str[i]));
      i := i + 1;
    }
    assert i == |text|;
    return Success;
  }

  /** hd44780_write_int: '-' for a negative number, then its decimal digits. */
  method WriteInt(h: Handle?, number: int) returns (ret: ErrCode)
    requires INT_MIN < number <= INT_MAX
    requires h != null ==> h.Ready()
    modifies h
    ensures h == null ==> ret == NullPtr
    ensures h != null ==> ret == Success
    ensures h != null ==> h.Settings() == old(h.Settings())
    ensures h != null ==> h.trace == old(h.trace) + IntTrace(h.writer.value, h.caps.setRW, number)
  {
    if h == null {
      return NullPtr;
    }
    var w, rw := h.writer.value, h.caps.setRW;
    var n := number;
    if n < 0 {
      ret := h.WriteData(ASCII_MINUS);
      if ret != Success {
        return ret;
      }
      n := n * -1;
    }
    assert h.trace == old(h.trace) + (if number < 0 then DataTrace(w, rw, ASCII_MINUS) else []);
    var numDigit := CountDigits(n);
    var buf := FormatDecimal(n);
    ret := h.WriteBytes(buf, numDigit);
    if ret != Success {
      return ret;
    }
    IntTraceSplit(w, rw, number);
    AppendAssoc(old(h.trace), (if number < 0 then DataTrace(w, rw, ASCII_MINUS) else []), DataBytesTrace(w, rw, buf));
    return Success;
  }

  /** hd44780_gotoxy(col, row): one command, row base plus column. */
  method Gotoxy(h: Handle?, col: Byte, row: Byte) returns (ret: ErrCode)
    requires h != null ==> h.Ready()
    modifies h
    ensures h == null ==> ret == NullPtr
    ensures h != null ==> ret == Success
    ensures h != null ==> h.Settings() == old(h.Settings())
    ensures h != null ==> h.trace == old(h.trace) + GotoTrace(h.writer.value, h.caps.setRW, col, row)
  {
    if h == null {
      return NullPtr;
    }
    GotoRowCommands(col);
    if row == 0 {
      ret := h.WriteCmd(0x80 + col);
      if ret != Success {
        return ret;
      }
    } else if row == 1 {
      ret := h.WriteCmd(0xC0 + col);
      if ret != Success {
        return ret;
      }
    } else if row == 2 {
      ret := h.WriteCmd(0x94 + col);
      if ret != Success {
        return ret;
      }
    } else {
      ret := h.WriteCmd(0xD4 + col);
      if ret != Success {
        return ret;
      }
    }
    return Success;
  }

  /** The loop shared by the two shift operations: `step` copies of `cmd`. */
  method ShiftCursor(h: Handle, cmd: Byte, step: Byte) returns (ret: ErrCode)
    requires h.Ready()
    modifies h
    ensures ret == Success && h.Settings() == old(h.Settings())
    ensures h.trace == old(h.trace) + RepeatCommand(h.writer.value, h.caps.setRW, cmd, step as int)
  {
    var n := step as int;
    var i := 0;
    while i < n
      invariant 0 <= i <= n
      invariant h.Settings() == old(h.Settings())
      invariant h.trace == old(h.trace) + RepeatCommand(h.writer.value, h.caps.setRW, cmd, i)
    {
      ret := h.WriteCmd(cmd);
      if ret != Success {
        return ret;
      }
      AppendAssoc(old(h.trace), RepeatCommand(h.writer.value, h.caps.setRW, cmd, i), CommandTrace(h.writer.value, h.caps.setRW, cmd));
      i := i + 1;
    }
    return Success;
  }

  /** hd44780_shift_cursor_forward: `step` cursor-right commands. */
  method ShiftCursorForward(h: Handle?, step: Byte) returns (ret: ErrCode)
    requires h != null ==> h.Ready()
    modifies h
    ensures h == null ==> ret == NullPtr
    ensures h != null ==> ret == Success
    ensures h != null ==> h.Settings() == old(h.Settings())
    ensures h != null ==> h.trace == old(h.trace) + RepeatCommand(h.writer.value, h.caps.setRW, CMD_CURSOR_RIGHT, step as int)
  {
    if h == null {
      return NullPtr;
    }
    ret := ShiftCursor(h, CMD_CURSOR_RIGHT, step);
  }

  /** hd44780_shift_cursor_backward: `step` cursor-left commands. */
  method ShiftCursorBackward(h: Handle?, step: Byte) returns (ret: ErrCode)
    requires h != null ==> h.Ready()
    modifies h
    ensures h == null ==> ret == NullPtr
    ensures h != null ==> ret == Success
    ensures h != null ==> h.Settings() == old(h.Settings())
    ensures h != null ==> h.trace == old(h.trace) + RepeatCommand(h.writer.value, h.caps.setRW, CMD_CURSOR_LEFT, step as int)
  {
    if h == null {
      return NullPtr;
    }
    ret := ShiftCursor(h, CMD_CURSOR_LEFT, step);
  }
}
