/**
 * The boundary between the HD44780 driver and the capabilities its caller
 * injects (GPIO setters, an I2C transmit function and a millisecond delay).
 * Every call the driver makes through one of them is recorded as an Event;
 * an operation of the driver is then described by the events it appends.
 */
module Bus {

  /** An 8-bit value, as carried by `uint8_t` in the driver. */
  type Byte = bv8

  /** Timeout argument the serial writers pass to the I2C send function. */
  const I2C_TIMEOUT: nat := 1000

  /** One call into an injected capability. */
  datatype Event =
    | SetRS(level: Byte)              // set_rs(level)
    | SetRW(level: Byte)              // set_rw(level)
    | SetEN(level: Byte)              // set_en(level)
    | SetD(line: nat, level: Byte)    // set_d<line>(level)
    | Delay(ms: nat)                  // delay(ms)
    | I2CSend(bytes: seq<Byte>, timeout: nat)   // i2c_send(buf, len, timeout)

  /** The two error codes the driver itself produces. */
  datatype ErrCode = Success | NullPtr

  datatype Option<T> = None | Some(value: T)

  // Regrouping concatenations, stated over plain sequences so that callers
  // need not unfold what the parts are made of.

  lemma AppendAssoc<T>(t: seq<T>, a: seq<T>, b: seq<T>)
    ensures t + a + b == t + (a + b)
  {
  }

  lemma AppendAssoc3<T>(t: seq<T>, a: seq<T>, b: seq<T>, c: seq<T>)
    ensures t + a + b + c == t + (a + b + c)
  {
  }

  lemma AppendEmpty<T>(s: seq<T>)
    ensures s + [] == s && [] + s == s
  {
  }
}
