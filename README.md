# HD44780 character LCD driver — Dafny model

This project models the driver in `hd44780.c`. The driver talks to an HD44780 character LCD
through functions that the application injects. These set the RS, R/W, E and D0..D7 lines,
send a buffer over I2C to a PCF8574 expander, or wait a number of milliseconds.

The model records each injected call as an `Event` in an ordered trace:
`SetRS`, `SetRW`, `SetEN`, `SetD(line, level)`, `Delay(ms)` or `I2CSend(bytes, timeout)`.
The handle is a class whose fields are the ones the source keeps:

- size and communication mode;
- which injected functions are present;
- the writer pair chosen by `hd44780_set_config`;
- whether `wait` is set;
- the trace of calls made so far.

Modules:

- `Bus`: events, error codes and small sequence lemmas.
- `Encoding`: the three write_cmd / write_data variants as functions from a byte to the calls they make:
  - 4-bit parallel: RS, optional R/W, then two nibbles on D4..D7, each followed by an E pulse;
  - 8-bit: no call at all;
  - serial: one 4-byte expander frame.
- `Receiver`: an independent model of the controller's side of the bus. In a write (R/W low) it
  latches RS and D4..D7 on each falling edge of E. Two nibbles make one instruction or one
  character. `Delivers(trace, transfers)` says that from every idle state the trace ends idle
  and the controller receives exactly `transfers`. Every writer and every public operation is
  proved against this receiver. The receiver pairs nibbles from the first E pulse, so it
  describes a controller that is already in 4-bit interface mode.
- `Decimal`: the digit-count loop of `hd44780_write_int` and the text `sprintf("%d")` produces,
  with a parse-back round trip.
- `Display`: the trace of each public operation, the instructions it issues, and the gotoxy
  address arithmetic.
- `Driver`: the handle class and the public operations as methods. Each method appends to
  `trace` exactly the trace its `Display` function describes.

A configured handle and its injected functions (`Ready`) are preconditions, because the source
calls through those pointers without checking them. A NULL handle gives `NullPtr`, as in the source.

## Model

| member | source | states |
|---|---|---|
| Encoding.WriterFor | hd44780.c:184-198 | The 4BIT mode selects the 4-bit writers and the 8BIT mode the 8-bit ones. Every other mode value, I2C included, selects the serial writers. Each case is stated as an if-and-only-if. |
| Encoding.NibblesRecompose | hd44780.c:37-38 | The high and low nibbles are each below 16, and `high << 4 \| low` is the original byte. |
| Encoding.SerialFramesCarryByte | hd44780.c:85-160 | Both serial frames carry the byte: the upper halves of bytes 0/1 hold its high nibble and those of bytes 2/3 its low nibble, with E set in bytes 0 and 2 and clear in 1 and 3, and R/W never set. The command frame has RS clear and the backlight bit set only in byte 3; the data frame has RS and the backlight bit set in all four bytes. |
| Encoding.SerialFunctionSetExample | hd44780.c:254 | Function set 0x28 goes out over I2C as the frame 0x24, 0x20, 0x84, 0x88. |
| Encoding.ParallelWritersDifferOnlyInRS | hd44780.c:98-140 | The 4-bit data writer makes the same calls as the command writer except the first, which sets RS to 1 rather than 0. The write is 17 calls, or 18 when an RW setter is present. |
| Receiver.NibbleLatched | hd44780.c:47-59 | Putting bit k of a nibble on D(4+k) and pulsing E latches exactly that nibble, once, and leaves E low. |
| Receiver.SelectRegister | hd44780.c:40-45 | Setting RS (and R/W low when present) latches nothing and leaves E as it was. |
| Receiver.ParallelRun | hd44780.c:34-76 | From an idle bus, a 4-bit write latches the high nibble and then the low nibble, both with the RS level written. |
| Receiver.ParallelDelivers | hd44780.c:34-76 | A 4-bit write with RS 0 delivers exactly the instruction, and with RS 1 exactly the character. It ends idle. |
| Receiver.FrameLatches | hd44780.c:88-93 | Four expander bytes that raise E in bytes 0 and 2 and lower it in bytes 1 and 3, with R/W low, latch the data bits of bytes 1 and 3. |
| Receiver.SerialFrameDelivers | hd44780.c:85-96 | A serial command frame delivers exactly its instruction, and a data frame exactly its character. It ends idle. |
| Receiver.CommandDelivers | hd44780.c:34-96 | write_cmd in each mode delivers the instruction in 4-bit and serial mode and nothing in 8-bit mode. |
| Receiver.DataDelivers | hd44780.c:98-160 | write_data in each mode delivers the character in 4-bit and serial mode and nothing in 8-bit mode. |
| Decimal.FormatDecimal | hd44780.c:376-377 | The text of a non-negative number is at least one character, all decimal digits, with no leading zero unless it is "0". |
| Decimal.FormatDecimalLength | hd44780.c:368-374 | The text has k digits with n < 10^k, and 10^(k-1) <= n when k > 1. |
| Decimal.ParseFormatDecimal | hd44780.c:376-377 | The digits written for n read back as n. |
| Decimal.CountDigits | hd44780.c:368-374 | The digit-count loop returns exactly the number of characters `sprintf` writes for the number. |
| Decimal.IntTextFacts | hd44780.c:359-385 | The text for a number starts with '-' if and only if the number is negative. All other characters are digits. The text reads back as the number. |
| Decimal.IntTextExamples | hd44780.c:359-385 | -42 is written "-42", 0 is written "0" and 1000 is written "1000". |
| Display.ZeroLinesDelivers | hd44780.c:230-242 | Driving RS, R/W, E and D4..D7 low from an idle bus latches nothing and stays idle. |
| Display.ZeroLinesReset | hd44780.c:230-242 | From any pin levels, the reset leaves RS, E and D4..D7 low, and R/W low unless it was high with no RW setter. If E starts high in a write, it latches the old bus once as an instruction nibble, because E is lowered before D4..D7. |
| Display.CommandsWithDelayDelivers | hd44780.c:252-261 | A run of write_cmd calls, each followed by a delay, delivers the commands in order (nothing in 8-bit mode). |
| Display.ConfigDelivers | hd44780.c:222-264 | hd44780_config delivers return home, function set 0x28, entry mode 0x06, display on 0x0C and clear 0x01, in that order, in 4-bit and serial mode, and nothing in 8-bit mode. |
| Display.ClearHomeDeliver | hd44780.c:266-306 | Clear delivers exactly the instruction 0x01 and home exactly 0x02, each followed by the wait (nothing in 8-bit mode). |
| Display.DataBytesDeliver | hd44780.c:379-385 | A run of write_data calls delivers the bytes in order to the data register (nothing in 8-bit mode). |
| Display.CString | hd44780.c:337-344 | The bytes write_string sends are the prefix of the buffer before its first 0. They contain no 0, and the byte after them is 0. |
| Display.StringDelivers | hd44780.c:327-347 | write_string delivers the characters before the terminator, in order (nothing in 8-bit mode). An empty string makes no call. |
| Display.IntTraceSplit | hd44780.c:359-385 | write_int's calls are the '-' write for a negative number followed by one write per digit of the absolute value. |
| Display.IntDelivers | hd44780.c:349-388 | write_int delivers '-' exactly for a negative number, then the decimal digits (nothing in 8-bit mode). The characters read back as the number. |
| Display.GotoRowCommands | hd44780.c:443-472 | gotoxy's command is 0x80 + col for row 0, 0xC0 + col for row 1, 0x94 + col for row 2, and 0xD4 + col for every row above 2. |
| Display.GotoSetsAddress | hd44780.c:434-473 | For a column within the 20-column panel, the command is Set DDRAM Address, with the address of (col, row) and rows past 3 taken as row 3. The address maps back to that position. |
| Display.GotoInjective | hd44780.c:434-473 | Different positions of a 20x4 panel give different commands. |
| Display.GotoExamples | hd44780.c:443-472 | (5, 1) gives 0xC5. Row 7 gives the same command as row 3. Column 64 of row 1 wraps to 0x00 in the 8-bit sum. |
| Display.RepeatDelivers | hd44780.c:485-492 | `step` repetitions of write_cmd deliver the command exactly `step` times (nothing in 8-bit mode). |
| Driver.Handle.constructor | hd44780.c:162-171 | hd44780_init gives a zero-filled handle: mode 4BIT, no injected functions, no writers, not configured, no calls. |
| Driver.Handle.Wait | hd44780.c:29-32 | hd44780_wait makes one call, delay(2). |
| Driver.Handle.DriveLinesLow | hd44780.c:230-242 | RS low, R/W low only when an RW setter is present, then E, D4, D5, D6 and D7 low, appended in that order. |
| Driver.Handle.PutNibble | hd44780.c:47-59 | Bit k of the nibble is set on D(4+k), then E goes high, 1 ms, low, 1 ms. |
| Driver.Handle.Write4Bit | hd44780.c:34-76 | The shared 4-bit write appends RS, optional R/W low, the high nibble and the low nibble. |
| Driver.Handle.WriteCmd4Bit | hd44780.c:34-76 | The 4-bit command writer appends the RS-0 write of the command and returns success. |
| Driver.Handle.WriteData4Bit | hd44780.c:98-140 | The 4-bit data writer appends the RS-1 write of the data and returns success. |
| Driver.Handle.WriteCmd8Bit | hd44780.c:78-83 | The 8-bit command writer returns success without any call. |
| Driver.Handle.WriteData8Bit | hd44780.c:142-147 | The 8-bit data writer returns success without any call. |
| Driver.Handle.WriteCmdSerial | hd44780.c:85-96 | The serial command writer sends the command frame in one i2c_send with timeout 1000 and returns success. |
| Driver.Handle.WriteDataSerial | hd44780.c:149-160 | The serial data writer sends the data frame in one i2c_send with timeout 1000 and returns success. |
| Driver.Handle.WriteCmd | hd44780.c:24 | write_cmd through the handle runs the writer SetConfig selected. |
| Driver.Handle.WriteData | hd44780.c:25 | write_data through the handle runs the writer SetConfig selected. |
| Driver.Handle.WriteBytes | hd44780.c:379-385 | The write_int loop writes buf[0..count-1] by write_data, in order. |
| Driver.Handle.PowerOnCommand | hd44780.c:252-253 | One power-on step: write_cmd, then delay(100). |
| Driver.SetConfig | hd44780.c:173-220 | For a NULL handle it returns NullPtr. Otherwise it copies size, mode and every injected function, selects the writer pair for the mode, sets wait and makes no call. `Ready()` then holds exactly when the injected functions its writer calls are present. |
| Driver.ConfigDisplay | hd44780.c:222-264 | NULL gives NullPtr. Otherwise it appends the 4-bit line reset in 4-bit mode, then the five power-on commands, each followed by delay(100). Configuration is unchanged. |
| Driver.Clear | hd44780.c:266-285 | NULL gives NullPtr. Otherwise it appends write_cmd(0x01), then the 2 ms wait. |
| Driver.Home | hd44780.c:287-306 | NULL gives NullPtr. Otherwise it appends write_cmd(0x02), then the 2 ms wait. |
| Driver.WriteChar | hd44780.c:308-325 | NULL gives NullPtr. Otherwise it appends one write_data of the character. |
| Driver.WriteString | hd44780.c:327-347 | NULL gives NullPtr. Otherwise it appends one write_data per byte before the terminator, in order. |
| Driver.WriteInt | hd44780.c:349-388 | NULL gives NullPtr. Otherwise it appends write_data('-') for a negative number, then the digits of the absolute value. |
| Driver.Gotoxy | hd44780.c:434-473 | NULL gives NullPtr. Otherwise it appends one write_cmd of the row base plus the column. |
| Driver.ShiftCursor | hd44780.c:485-492 | The loop appends exactly `step` write_cmd calls of the command. |
| Driver.ShiftCursorForward | hd44780.c:475-495 | NULL gives NullPtr. Otherwise it appends `step` cursor-right commands (0x14). |
| Driver.ShiftCursorBackward | hd44780.c:497-517 | NULL gives NullPtr. Otherwise it appends `step` cursor-left commands (0x10). |

## Left out

- `hd44780_write_float` is floating-point formatting and is not modelled.
- Real timing, the electrical bus and the display's internal state stay outside. The receiver models only which bytes the controller latches.
- A calloc failure in `hd44780_init` (a NULL result) is not modelled; the constructor always succeeds.
- In `hd44780_write_int`, the terminating 0 that `sprintf` writes one byte past `buf` is not modelled. The model only takes the characters written.
- The `hd44780_func_i2c_send` type in hd44780.h:36 takes two parameters, but the serial writers call it with three. The model follows the call: buffer and timeout 1000, with the length being the buffer's.
- The `size` field is copied by set_config but never read. The model stores it and nothing depends on it.
- Concurrency: the handle is used by one caller at a time.
- Driver.WriteInt: requires `number > INT_MIN`. For INT_MIN, `-number` overflows in C, and the model does not give that case a meaning.
- Driver.ConfigDisplay, Driver.Clear, Driver.Home, Driver.WriteChar, Driver.WriteString, Driver.WriteInt, Driver.Gotoxy, Driver.ShiftCursorForward, Driver.ShiftCursorBackward: require a handle that set_config has configured and whose writer's injected functions are present (`Ready`). Driver.ConfigDisplay, Driver.Clear and Driver.Home also need the delay function, which they call in every mode (hd44780.c:31, 253-261) and which `Ready` does not include for the serial or 8-bit writer. Without these the source calls a NULL pointer.
- `err_code.h` is not part of this model. Only the two codes the core returns, success and NULL pointer, appear.
- The values returned by injected functions, such as `i2c_send`, are ignored, as in the source. The writers always return success, so the source's early returns on failure are never taken.
- D0..D3 are copied into the handle but never driven, and are not given to the receiver.
- The receiver does not model the PCF8574 backlight bit (P3), only RS, R/W, E and D4..D7. The command frame leaves the backlight off in bytes 0-2, and `Encoding.SerialFramesCarryByte` states this.
- Driver.Handle.DriveLinesLow, Driver.Handle.PowerOnCommand, Driver.Handle.WriteBytes and Driver.ShiftCursor are methods grouping calls the source writes inline. Their traces are exactly the inline calls.
- Driver.Gotoxy: the header declares `hd44780_gotoxy(handle, row, col)` (hd44780.h:199), but the definition takes `(col, row)`. The model follows the definition.
- Display.ConfigDelivers: the receiver treats the controller as already in 4-bit interface mode. After power-on an HD44780 is in 8-bit interface mode and takes each E pulse as a whole instruction until a function set with DL = 0 arrives. On a fresh controller, the first write of hd44780_config (0x02, hd44780.c:252) is therefore not received as return home; its second nibble is what switches the controller to 4-bit mode. The power-on initialisation sequence is not modelled.
- Display.ZeroLinesDelivers covers an idle bus only. From other pin levels, `Display.ZeroLinesReset` states what the reset at hd44780.c:232-241 does: with E high at the start, the controller latches one stray instruction nibble.
- Driver.Gotoxy: the row table (0x80, 0xC0, 0x94, 0xD4) is the 20x4 layout whatever `size` says (hd44780.h:47-52). On a 16x4 panel, rows 2 and 3 start at DDRAM 0x10 and 0x50, so `gotoxy(0, 2)` sends 0x94, which is column 4 of row 2. `Display.GotoSetsAddress` is therefore stated for the 20-column layout only.
