/**
 * The integer-to-text part of hd44780_write_int: the digit-count loop and the
 * characters `sprintf(buf, "%d", number)` produces, with '-' written first for
 * a negative number.
 */
module Decimal {
  import opened Bus

  const ASCII_ZERO: Byte := 0x30
  const ASCII_MINUS: Byte := 0x2D

  /** Range of a 32-bit C `int`. */
  const INT_MIN: int := -0x8000_0000
  const INT_MAX: int := 0x7FFF_FFFF

  predicate IsDigit(c: Byte)
  {
    0x30 <= c <= 0x39
  }

  /** The character '0' + d. */
  function DigitChar(d: nat): (c: Byte)
    requires d < 10
    ensures IsDigit(c) && DigitValue(c) == d
  {
    [0x30, 0x31, 0x32, 0x33, 0x34, 0x35, 0x36, 0x37, 0x38, 0x39][d]
  }

  /** The value c - '0' of a digit character. */
  function DigitValue(c: Byte): nat
    requires IsDigit(c)
  {
    (c - ASCII_ZERO) as int
  }

  function Pow10(k: nat): (p: nat)
    ensures p >= 1
  {
    if k == 0 then 1 else 10 * Pow10(k - 1)
  }

  /** The characters of `sprintf("%d", n)` for n >= 0: decimal digits, most
      significant first, with no leading zero except for 0 itself. */
  function FormatDecimal(n: nat): (s: seq<Byte>)
    ensures |s| >= 1
    ensures forall i :: 0 <= i < |s| ==> IsDigit(s[i])
    ensures |s| > 1 ==> s[0] != ASCII_ZERO
    decreases n
  {
    if n < 10 then [DigitChar(n)]
    else FormatDecimal(n / 10) + [DigitChar(n % 10)]
  }

  /** As many digits as the value needs: n < 10^k, and n >= 10^(k-1) when k > 1. */
  lemma {:induction false} FormatDecimalLength(n: nat)
    ensures var k := |FormatDecimal(n)|;
      n < Pow10(k) && (k > 1 ==> Pow10(k - 1) <= n)
    decreases n
  {
    if n >= 10 {
      FormatDecimalLength(n / 10);
    }
  }

  /** Value of a string of decimal digits. */
  function ParseDecimal(s: seq<Byte>): nat
    requires forall i :: 0 <= i < |s| ==> IsDigit(s[i])
    decreases |s|
  {
    if s == [] then 0
    else ParseDecimal(s[..|s| - 1]) * 10 + DigitValue(s[|s| - 1])
  }

  /** The digits written for n read back as n. */
  lemma {:induction false} ParseFormatDecimal(n: nat)
    ensures ParseDecimal(FormatDecimal(n)) == n
    decreases n
  {
    var s := FormatDecimal(n);
    if n >= 10 {
      assert s[..|s| - 1] == FormatDecimal(n / 10);
      ParseFormatDecimal(n / 10);
    }
  }

  /** The digit-count loop of hd44780_write_int: 1 plus the number of times
      the value can be divided by 10 while it exceeds 9. */
  method CountDigits(number: int) returns (numDigit: int)
    requires 0 <= number
    ensures numDigit == |FormatDecimal(number)|
  {
    numDigit := 1;
    var temp := number;
    while temp > 9
      invariant 0 <= temp
      invariant numDigit + |FormatDecimal(temp)| - 1 == |FormatDecimal(number)|
    {
      numDigit := numDigit + 1;
      temp := temp / 10;
    }
  }

  function Abs(n: int): nat
  {
    if n < 0 then -n else n
  }

  /** What hd44780_write_int writes for `number`: '-' when it is negative,
      then the decimal digits of its absolute value. */
  function IntText(number: int): seq<Byte>
  {
    (if number < 0 then [ASCII_MINUS] else []) + FormatDecimal(Abs(number))
  }

  /** Reads a text of the IntText form back to an integer. */
  function ParseInt(s: seq<Byte>): int
    requires |s| >= 1
    requires s[0] == ASCII_MINUS || IsDigit(s[0])
    requires forall i :: 1 <= i < |s| ==> IsDigit(s[i])
  {
    if s[0] == ASCII_MINUS then -(ParseDecimal(s[1..]) as int) else ParseDecimal(s)
  }

  /** '-' comes first exactly for negative numbers; every other character is a
      digit, at least one, and the text reads back as the number. */
  lemma IntTextFacts(number: int)
    ensures var t := IntText(number);
      && |t| >= 1
      && (t[0] == ASCII_MINUS <==> number < 0)
      && (forall i :: (if number < 0 then 1 else 0) <= i < |t| ==> IsDigit(t[i]))
      && |t| == (if number < 0 then 1 else 0) + |FormatDecimal(Abs(number))|
      && ParseInt(t) == number
  {
    var t := IntText(number);
    ParseFormatDecimal(Abs(number));
    if number < 0 {
      assert t[1..] == FormatDecimal(Abs(number));
    } else {
      assert t == FormatDecimal(Abs(number));
    }
  }

  lemma IntTextExamples()
    ensures IntText(-42) == [ASCII_MINUS, 0x34, 0x32]
    ensures IntText(0) == [ASCII_ZERO]
    ensures IntText(1000) == [0x31, ASCII_ZERO, ASCII_ZERO, ASCII_ZERO]
  {
  }
}
