/** Clock tick counts on the wire: the publisher renders an unsigned 32-bit
    count in decimal, and a subscriber reads the payload back with the
    String library's toInt, which is the C library's atol/strtol on a 32-bit
    `long` followed by the conversion to `uint32_t`. */
module Decimal {

  type uint32 = x: int | 0 <= x < 0x1_0000_0000

  const LongMax: int := 0x7FFF_FFFF
  const LongMin: int := -0x8000_0000

  predicate IsDigit(c: char) { '0' <= c <= '9' }

  predicate AllDigits(s: string) { forall i :: 0 <= i < |s| ==> IsDigit(s[i]) }

  /** White space as the C library's isspace sees it in the "C" locale. */
  predicate IsSpace(c: char)
  {
    c == ' ' || c == '\t' || c == '\n' || c == '\r' || c == '\U{0B}' || c == '\U{0C}'
  }

  function DigitValue(c: char): (d: nat)
    requires IsDigit(c)
    ensures d < 10
  {
    c as int - '0' as int
  }

  function DigitChar(d: nat): (c: char)
    requires d < 10
    ensures IsDigit(c) && DigitValue(c) == d
  {
    ('0' as int + d) as char
  }

  /** Decimal rendering of an unsigned count, as appending an unsigned
      integer to a String does: digits only, never empty, and no leading
      zero except for the single digit "0". */
  function ToDecimal(n: nat): (s: string)
    ensures |s| >= 1 && AllDigits(s)
    ensures |s| > 1 ==> s[0] != '0'
    decreases n
  {
    if n < 10 then [DigitChar(n)] else ToDecimal(n / 10) + [DigitChar(n % 10)]
  }

  /** The number a string of decimal digits denotes. */
  function DigitsValue(s: string): nat
    requires AllDigits(s)
  {
    if s == [] then 0 else DigitsValue(s[..|s| - 1]) * 10 + DigitValue(s[|s| - 1])
  }

  /** Leading white space removed: the result is a suffix of the input that
      does not start with white space. */
  function SkipSpaces(s: string): (t: string)
    ensures |t| <= |s| && t == s[|s| - |t|..]
    ensures |t| > 0 ==> !IsSpace(t[0])
    ensures (|s| > 0 && !IsSpace(s[0])) ==> t == s
  {
    if |s| > 0 && IsSpace(s[0]) then SkipSpaces(s[1..]) else s
  }

  /** The longest prefix made of decimal digits. */
  function DigitPrefix(s: string): (p: string)
    ensures |p| <= |s| && p == s[..|p|] && AllDigits(p)
    ensures |p| < |s| ==> !IsDigit(s[|p|])
  {
    if |s| > 0 && IsDigit(s[0]) then [s[0]] + DigitPrefix(s[1..]) else []
  }

  /** The digits strtol reads: those right after the leading white space
      and an optional sign. */
  function DigitsAfterSign(s: string): (p: string)
    ensures AllDigits(p)
  {
    var t := SkipSpaces(s);
    DigitPrefix(if |t| > 0 && (t[0] == '-' || t[0] == '+') then t[1..] else t)
  }

  /** strtol in base 10 on a 32-bit long: skip white space, take an optional
      sign and the digits that follow; a string without digits reads as 0,
      and a magnitude out of range saturates at the nearest bound. */
  function ToLong(s: string): (v: int)
    ensures LongMin <= v <= LongMax
  {
    var t := SkipSpaces(s);
    var magnitude: int := DigitsValue(DigitsAfterSign(s));
    if |t| > 0 && t[0] == '-' then
      (if -magnitude < LongMin then LongMin else -magnitude)
    else
      (if magnitude > LongMax then LongMax else magnitude)
  }

  /** Conversion of a signed value to uint32_t: reduction modulo 2^32. */
  function ToUint32(v: int): (u: uint32)
    ensures (u - v) % 0x1_0000_0000 == 0
  {
    v % 0x1_0000_0000
  }

  /** The tick count a subscriber reads from a clock payload. */
  function ParseClock(message: string): (c: uint32)
    ensures ToLong(message) >= 0 ==> c == ToLong(message)
    ensures ToLong(message) < 0 ==> c == ToLong(message) + 0x1_0000_0000
  {
    ToUint32(ToLong(message))
  }

  lemma {:induction false} DigitsValueOfDecimal(n: nat)
    ensures DigitsValue(ToDecimal(n)) == n
    decreases n
  {
    if n >= 10 {
      DigitsValueOfDecimal(n / 10);
      var s := ToDecimal(n);
      assert s[..|s| - 1] == ToDecimal(n / 10);
    }
  }

  /** A digit string is its own digit prefix. */
  lemma DigitPrefixOfDigits(s: string)
    requires AllDigits(s)
    ensures DigitPrefix(s) == s
  {
  }

  /** A published clock count below 2^31 is read back unchanged. */
  lemma ClockRoundTrip(n: uint32)
    requires n <= LongMax
    ensures ParseClock(ToDecimal(n)) == n
  {
    var s := ToDecimal(n);
    assert !IsSpace(s[0]) && s[0] != '-' && s[0] != '+';
    assert SkipSpaces(s) == s;
    DigitPrefixOfDigits(s);
    DigitsValueOfDecimal(n);
  }

  /** From 2^31 on the 32-bit long saturates: every larger count is read as
      2^31 - 1. */
  lemma ClockSaturates(n: uint32)
    requires n > LongMax
    ensures ParseClock(ToDecimal(n)) == LongMax
  {
    var s := ToDecimal(n);
    assert !IsSpace(s[0]) && s[0] != '-' && s[0] != '+';
    assert SkipSpaces(s) == s;
    DigitPrefixOfDigits(s);
    DigitsValueOfDecimal(n);
  }

  /** A payload where no digit follows the leading white space and the
      optional sign reads as 0 instead of failing, whatever comes later. */
  lemma NoDigitsReadsZero(message: string)
    requires DigitsAfterSign(message) == []
    ensures ParseClock(message) == 0
  {
  }

  /** A negative value wraps around: "-1" reads as 2^32 - 1. */
  lemma NegativeWraps()
    ensures ParseClock("-1") == 0xFFFF_FFFF
  {
    assert SkipSpaces("-1") == "-1";
    assert "-1"[1..] == "1";
    assert DigitPrefix("1") == "1";
    assert DigitsValue("1") == 1;
    assert ToLong("-1") == -1;
  }

  /** Text after the digits is ignored: " 5x" reads as 5. */
  lemma TrailingTextIgnored()
    ensures ParseClock(" 5x") == 5
  {
    assert SkipSpaces(" 5x") == "5x";
    assert DigitPrefix("5x") == "5";
    assert DigitsValue("5") == 5;
    assert ToLong(" 5x") == 5;
  }

  /** Text before the digits makes the payload read as 0: "abc5" reads as 0. */
  lemma LeadingTextReadsZero()
    ensures ParseClock("abc5") == 0
  {
    assert SkipSpaces("abc5") == "abc5";
    assert DigitsAfterSign("abc5") == [];
    NoDigitsReadsZero("abc5");
  }
}
