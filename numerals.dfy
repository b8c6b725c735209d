/**
 * Decimal numerals as the Rust standard library reads and writes them:
 * `str::parse::<i32>` (an optional sign, one or more ASCII digits, the value
 * within 32 bits) and the `Display` of an integer used by `format!`.
 */
module Numerals {
  import opened Wrappers

  const I32Min: int := -0x8000_0000
  const I32Max: int := 0x7FFF_FFFF

  predicate IsI32(n: int) {
    I32Min <= n <= I32Max
  }

  /** An ASCII decimal digit. */
  predicate IsDigit(c: char) {
    '0' <= c <= '9'
  }

  predicate AllDigits(s: string) {
    forall i :: 0 <= i < |s| ==> IsDigit(s[i])
  }

  function DigitValue(c: char): (d: nat)
    requires IsDigit(c)
    ensures d < 10
  {
    c as int - '0' as int
  }

  function DigitChar(d: nat): (c: char)
    requires d < 10
    ensures IsDigit(c) && DigitValue(c) == d
  {
    ('0' as int + d) as char
  }

  /** The value of a string of digits, most significant digit first. */
  function DigitsValue(s: string): nat
    requires AllDigits(s)
  {
    if |s| == 0 then 0 else 10 * DigitsValue(s[..|s| - 1]) + DigitValue(s[|s| - 1])
  }

  /** The shortest decimal numeral of `n`: no sign and no leading zero. */
  function NatToDecimal(n: nat): (s: string)
    ensures |s| >= 1 && AllDigits(s) && DigitsValue(s) == n
    ensures s[0] == '0' ==> s == "0"
  {
    if n < 10 then
      [DigitChar(n)]
    else
      var prefix := NatToDecimal(n / 10);
      var s := prefix + [DigitChar(n % 10)];
      assert s[..|s| - 1] == prefix;
      s
  }

  /** The `Display` of an integer: a `-` before the numeral of a negative value. */
  function IntToDecimal(n: int): (s: string)
    ensures |s| >= 1
    ensures n >= 0 ==> s == NatToDecimal(n)
    ensures n < 0 ==> s == "-" + NatToDecimal(-n)
  {
    if n < 0 then "-" + NatToDecimal(-n) else NatToDecimal(n)
  }

  /**
   * `s.parse::<i32>()`: an optional `+` or `-`, then at least one ASCII digit
   * and nothing else, denoting a value that fits in 32 bits; `None` otherwise.
   */
  function ParseI32(s: string): (r: Option<int>)
    ensures r.Some? ==> IsI32(r.value)
    ensures r.Some? ==> |s| >= 1 && (IsDigit(s[0]) || s[0] == '+' || s[0] == '-')
    ensures r.Some? ==> var body := if s[0] == '+' || s[0] == '-' then s[1..] else s;
                        |body| >= 1 && AllDigits(body)
  {
    if |s| == 0 then
      None
    else
      var body := if s[0] == '+' || s[0] == '-' then s[1..] else s;
      if |body| == 0 || !AllDigits(body) then
        None
      else
        var v: int := if s[0] == '-' then -(DigitsValue(body) as int) else DigitsValue(body);
        if IsI32(v) then Some(v) else None
  }

  /** A numeral without a sign parses to its value exactly when that value fits in an i32. */
  lemma ParseDigits(s: string)
    requires |s| >= 1 && AllDigits(s)
    ensures ParseI32(s) == if DigitsValue(s) <= I32Max then Some(DigitsValue(s)) else None
  {
    assert IsDigit(s[0]);
  }

  /** The value a digit run denotes, with the sign written in front of it. */
  function SignedValue(sign: char, ds: string): int
    requires AllDigits(ds)
  {
    if sign == '-' then -(DigitsValue(ds) as int) else DigitsValue(ds)
  }

  /** A sign and a run of digits parse to the signed value exactly when it fits in an i32. */
  lemma ParseSigned(sign: char, ds: string)
    requires sign == '+' || sign == '-'
    requires |ds| >= 1 && AllDigits(ds)
    ensures ParseI32([sign] + ds) == if IsI32(SignedValue(sign, ds)) then Some(SignedValue(sign, ds)) else None
  {
    assert ([sign] + ds)[1..] == ds;
  }

  /**
   * Reading back what `Display` wrote gives the same value when it is an i32,
   * and fails (overflow) when it is not.
   */
  lemma ParseDisplayed(n: int)
    ensures ParseI32(IntToDecimal(n)) == if IsI32(n) then Some(n) else None
  {
    var s := IntToDecimal(n);
    if n < 0 {
      assert s[0] == '-' && s[1..] == NatToDecimal(-n);
    } else {
      ParseDigits(s);
    }
  }

  /** A sign, or no sign, never makes a numeral contain a given non-digit. */
  lemma DecimalAvoids(n: int, c: char)
    requires !IsDigit(c) && c != '-'
    ensures c !in IntToDecimal(n)
  {
    var d := NatToDecimal(if n < 0 then -n else n);
    assert forall i :: 0 <= i < |d| ==> IsDigit(d[i]);
  }
}
