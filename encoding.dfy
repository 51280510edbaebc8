/**
 * The three write_cmd / write_data variants of hd44780.c as encoders from one
 * byte to the calls they make: the 4-bit parallel writers (RS, optional RW,
 * then each nibble on D4..D7 followed by an E pulse), the 8-bit writers (which
 * do nothing) and the serial writers (one 4-byte frame for a PCF8574 I/O
 * expander wired P0 = RS, P1 = R/W, P2 = E, P3 = backlight, P4..P7 = D4..D7).
 */
module Encoding {
  import opened Bus

  /** Values of `hd44780_comm_mode_t`. */
  const COMM_MODE_4BIT: int := 0
  const COMM_MODE_8BIT: int := 1
  const COMM_MODE_I2C: int := 2

  /** Which pair of write_cmd / write_data functions a handle uses. */
  datatype Writer = Parallel4 | Parallel8 | Serial

  /** The writer hd44780_set_config selects for a communication mode value:
      every value other than 4BIT and 8BIT, I2C included, selects the serial pair. */
  function WriterFor(mode: int): (w: Writer)
    ensures w == Parallel4 <==> mode == COMM_MODE_4BIT
    ensures w == Parallel8 <==> mode == COMM_MODE_8BIT
    ensures w == Serial <==> mode != COMM_MODE_4BIT && mode != COMM_MODE_8BIT
  {
    if mode == COMM_MODE_4BIT then Parallel4
    else if mode == COMM_MODE_8BIT then Parallel8
    else Serial
  }

  /** `b >> 4 & 0x0F`: the nibble sent first. */
  function HighNibble(b: Byte): Byte
  {
    (b >> 4) & 0x0F
  }

  /** `b & 0x0F`: the nibble sent second. */
  function LowNibble(b: Byte): Byte
  {
    b & 0x0F
  }

  /** The split loses nothing: 16 * high + low is the byte again. */
  lemma NibblesRecompose(b: Byte)
    ensures HighNibble(b) < 16 && LowNibble(b) < 16
    ensures HighNibble(b) as int * 16 + LowNibble(b) as int == b as int
    ensures (HighNibble(b) << 4) | LowNibble(b) == b
  {
  }

  /** Bit k of a nibble, `(nibble >> k) & 0x01`, on line D(4+k), k = 0..3. */
  function NibbleLines(nibble: Byte): seq<Event>
  {
    [ SetD(4, (nibble >> 0) & 0x01), SetD(5, (nibble >> 1) & 0x01),
      SetD(6, (nibble >> 2) & 0x01), SetD(7, (nibble >> 3) & 0x01) ]
  }

  /** E high, 1 ms, E low, 1 ms. */
  const ENABLE_PULSE: seq<Event> := [SetEN(1), Delay(1), SetEN(0), Delay(1)]

  /** One nibble of a 4-bit writer: the data lines, then the enable pulse. */
  function NibbleEvents(nibble: Byte): seq<Event>
  {
    NibbleLines(nibble) + ENABLE_PULSE
  }

  /** The calls of a 4-bit writer: RS to `rs`, RW to 0 when an RW setter is
      present, then the high nibble and the low nibble. */
  function ParallelTrace(rs: Byte, hasRW: bool, b: Byte): seq<Event>
  {
    [SetRS(rs)] + (if hasRW then [SetRW(0)] else [])
    + NibbleEvents(HighNibble(b)) + NibbleEvents(LowNibble(b))
  }

  /** The 4-byte expander frame of the serial command writer (RS = 0). */
  function SerialCommandFrame(cmd: Byte): seq<Byte>
  {
    [ (cmd & 0xF0) | 0x04, cmd & 0xF0,
      ((cmd << 4) & 0xF0) | 0x04, ((cmd << 4) & 0xF0) | 0x08 ]
  }

  /** The 4-byte expander frame of the serial data writer (RS = 1, backlight on). */
  function SerialDataFrame(data: Byte): seq<Byte>
  {
    [ (data & 0xF0) | 0x0D, (data & 0xF0) | 0x09,
      ((data << 4) & 0xF0) | 0x0D, ((data << 4) & 0xF0) | 0x09 ]
  }

  /** Both frames carry the byte: the upper half of byte 0 is its high nibble and
      the upper half of byte 2 its low nibble; the lower halves are control bits
      (E set in bytes 0 and 2 and clear in bytes 1 and 3, RS set only for data,
      R/W never set). */
  lemma SerialFramesCarryByte(b: Byte)
    ensures var f := SerialCommandFrame(b);
      && |f| == 4 && ((f[0] & 0xF0) | (f[2] >> 4)) == b
      && f[1] & 0xF0 == f[0] & 0xF0 && f[3] & 0xF0 == f[2] & 0xF0
      && f[0] & 0x0F == 0x04 && f[1] & 0x0F == 0x00
      && f[2] & 0x0F == 0x04 && f[3] & 0x0F == 0x08
    ensures var f := SerialDataFrame(b);
      && |f| == 4 && ((f[0] & 0xF0) | (f[2] >> 4)) == b
      && f[1] & 0xF0 == f[0] & 0xF0 && f[3] & 0xF0 == f[2] & 0xF0
      && f[0] & 0x0F == 0x0D && f[1] & 0x0F == 0x09
      && f[2] & 0x0F == 0x0D && f[3] & 0x0F == 0x09
  {
  }

  /** Function set 0x28 over I2C. */
  lemma SerialFunctionSetExample()
    ensures SerialCommandFrame(0x28) == [0x24, 0x20, 0x84, 0x88]
  {
  }

  /** What write_cmd(handle, cmd) calls, for each writer variant. */
  function CommandTrace(w: Writer, hasRW: bool, cmd: Byte): seq<Event>
  {
    match w
    case Parallel4 => ParallelTrace(0, hasRW, cmd)
    case Parallel8 => []
    case Serial => [I2CSend(SerialCommandFrame(cmd), I2C_TIMEOUT)]
  }

  /** What write_data(handle, data) calls, for each writer variant. */
  function DataTrace(w: Writer, hasRW: bool, data: Byte): seq<Event>
  {
    match w
    case Parallel4 => ParallelTrace(1, hasRW, data)
    case Parallel8 => []
    case Serial => [I2CSend(SerialDataFrame(data), I2C_TIMEOUT)]
  }

  /** In 4-bit mode a command and a data write differ only in the RS level:
      0 for the instruction register, 1 for the data register. */
  lemma ParallelWritersDifferOnlyInRS(hasRW: bool, b: Byte)
    ensures CommandTrace(Parallel4, hasRW, b)[0] == SetRS(0)
    ensures DataTrace(Parallel4, hasRW, b)[0] == SetRS(1)
    ensures CommandTrace(Parallel4, hasRW, b)[1..] == DataTrace(Parallel4, hasRW, b)[1..]
    ensures |CommandTrace(Parallel4, hasRW, b)| == if hasRW then 18 else 17
  {
  }
}
