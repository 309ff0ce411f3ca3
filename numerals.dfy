/**
 * Number text as the motor protocol and the G-code reader use it. Integers are written and read
 * concretely (Python's `str(int)` and `int(str)`); floating-point text and `round(x, 3)` stay
 * abstract behind a `Codec`, because the model computes with mathematical reals.
 */
module Numerals {
  import opened Wrappers

  predicate IsDigit(c: char) {
    '0' <= c <= '9'
  }

  predicate IsDigits(s: string) {
    |s| >= 1 && forall i :: 0 <= i < |s| ==> IsDigit(s[i])
  }

  function DigitChar(d: nat): (c: char)
    requires d < 10
    ensures IsDigit(c)
  {
    ('0' as int + d) as char
  }

  function DigitValue(c: char): (d: nat)
    requires IsDigit(c)
    ensures d < 10
  {
    c as int - '0' as int
  }

  /** Decimal digits of a natural number, most significant first, without leading zeros. */
  function NatToString(n: nat): (s: string)
    ensures IsDigits(s)
  {
    if n < 10 then [DigitChar(n)] else NatToString(n / 10) + [DigitChar(n % 10)]
  }

  /** The value of a run of decimal digits. */
  function DigitsValue(s: string): nat
    requires forall i :: 0 <= i < |s| ==> IsDigit(s[i])
  {
    if s == [] then 0 else DigitsValue(s[..|s| - 1]) * 10 + DigitValue(s[|s| - 1])
  }

  /** Python's `str(n)` for an `int`. */
  function IntToString(n: int): string {
    if n < 0 then "-" + NatToString(-n) else NatToString(n)
  }

  /** Python's `int(s)` on text that has already been stripped: an optional sign, then one or more digits. */
  function ParseInt(s: string): Option<int> {
    if s != [] && (s[0] == '-' || s[0] == '+') then
      if IsDigits(s[1..]) then
        var v: int := DigitsValue(s[1..]);
        Some(if s[0] == '-' then -v else v)
      else None
    else if IsDigits(s) then Some(DigitsValue(s))
    else None
  }

  lemma {:induction false} NatRoundTrip(n: nat)
    ensures DigitsValue(NatToString(n)) == n
  {
    if n >= 10 {
      var s := NatToString(n);
      NatRoundTrip(n / 10);
      assert s[..|s| - 1] == NatToString(n / 10);
    }
  }

  /** Reading back what `str` wrote gives the same integer. */
  lemma IntRoundTrip(n: int)
    ensures ParseInt(IntToString(n)) == Some(n)
  {
    if n < 0 {
      var s := IntToString(n);
      assert s[1..] == NatToString(-n);
      NatRoundTrip(-n);
    } else {
      NatRoundTrip(n);
    }
  }

  /** Text that is empty or starts with something other than a sign or a digit is not an integer. */
  lemma ParseIntRejects(s: string)
    requires s == [] || !(s[0] == '-' || s[0] == '+' || IsDigit(s[0]))
    ensures ParseInt(s) == None
  {
  }

  /**
   * Floating-point text: `show` is Python's `str(x)` (what an f-string writes), `parse` is Python's
   * `float(s)` (None when it raises ValueError), `round3` is `round(x, 3)`.
   */
  datatype Codec = Codec(show: real -> string, parse: string -> Option<real>, round3: real -> real)

  /** What the model needs of Python's float parsing: `float('')` raises ValueError. */
  predicate Sound(c: Codec) {
    c.parse("") == None
  }
}
