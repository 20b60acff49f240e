/**
 * Fixed-width integers and decimal text, with the meaning Rust gives them:
 * `i64`/`u64`, the `as u64` reinterpretation, `Display` of integers and
 * `i64::from_str`.
 */
module Numbers {
  import opened Wrappers
  import opened Text

  const I64_MIN: int := -0x8000_0000_0000_0000
  const I64_MAX: int := 0x7fff_ffff_ffff_ffff
  const TWO_64: int := 0x1_0000_0000_0000_0000

  /** Rust's `i64`. */
  type I64 = x: int | I64_MIN <= x <= I64_MAX

  /** Rust's `u64` (and `usize` on a 64-bit target). */
  type U64 = x: int | 0 <= x < TWO_64

  /** `x as u64` (or `as usize`) on an `i64`: the two's complement bits read as unsigned. */
  function AsU64(x: I64): (r: U64)
    ensures r == x % TWO_64
    ensures x >= 0 ==> r == x
  {
    if x >= 0 then x else x + TWO_64
  }

  function DigitValue(c: char): (d: nat)
    requires IsDigit(c)
    ensures d < 10
  {
    (c as int) - ('0' as int)
  }

  function DigitChar(d: nat): (c: char)
    requires d < 10
    ensures IsDigit(c) && DigitValue(c) == d
  {
    (('0' as int) + d) as char
  }

  /** The value of a string of decimal digits, most significant first; "" reads as 0. */
  function DecimalValue(s: string): nat
    requires AllDigits(s)
  {
    if s == [] then 0 else 10 * DecimalValue(s[..|s| - 1]) + DigitValue(s[|s| - 1])
  }

  /** `Display` of a non-negative integer: its decimal digits without leading zeros. */
  function NatToString(n: nat): (s: string)
    ensures |s| >= 1 && AllDigits(s)
    ensures |s| > 1 ==> s[0] != '0'
    ensures DecimalValue(s) == n
  {
    if n < 10 then [DigitChar(n)]
    else
      var s := NatToString(n / 10) + [DigitChar(n % 10)];
      assert s[..|s| - 1] == NatToString(n / 10);
      s
  }

  /** `Display` of an `i64`: a minus sign before the digits of a negative number. */
  function IntToString(i: int): (s: string)
    ensures |s| >= 1
    ensures ':' !in s
  {
    if i < 0 then "-" + NatToString(-i) else NatToString(i)
  }

  /**
   * `s.parse::<i64>()`: an optional `+` or `-`, then at least one ASCII digit and
   * nothing else, with a value that fits in an `i64`; `None` for every other string.
   */
  function ParseI64(s: string): (r: Option<I64>)
    ensures r.Some? ==> |s| >= 1 && AllDigits(if s[0] == '-' || s[0] == '+' then s[1..] else s)
  {
    if |s| == 0 then None
    else if s[0] == '-' then
      if |s| > 1 && AllDigits(s[1..]) && DecimalValue(s[1..]) <= -I64_MIN then Some(0 - DecimalValue(s[1..]))
      else None
    else if s[0] == '+' then
      if |s| > 1 && AllDigits(s[1..]) && DecimalValue(s[1..]) <= I64_MAX then Some(DecimalValue(s[1..]))
      else None
    else if AllDigits(s) && DecimalValue(s) <= I64_MAX then Some(DecimalValue(s))
    else None
  }

  /** Parsing what `Display` wrote gives the number back. */
  lemma {:induction false} ParseIntToString(i: I64)
    ensures ParseI64(IntToString(i)) == Some(i)
  {
    var s := IntToString(i);
    var m: int := i;
    if m < 0 {
      var d := NatToString(-m);
      assert s == "-" + d;
      assert s[0] == '-' && s[1..] == d;
      assert DecimalValue(d) == -m;
    } else {
      assert s == NatToString(i);
      assert IsDigit(s[0]);
      assert DecimalValue(s) == i;
    }
  }

  /** 10^k */
  function Pow10(k: nat): (p: nat)
    ensures p >= 1
  {
    if k == 0 then 1 else 10 * Pow10(k - 1)
  }

  /** A number below 10^k has at most k digits. */
  lemma {:induction false} NatToStringLength(n: nat, k: nat)
    requires 1 <= k && n < Pow10(k)
    ensures |NatToString(n)| <= k
  {
    if n >= 10 {
      assert k > 1;
      NatToStringLength(n / 10, k - 1);
    }
  }

  /** Leading zeros do not change the value of a digit string. */
  lemma {:induction false} LeadingZeros(z: nat, s: string)
    requires AllDigits(s)
    ensures AllDigits(seq(z, _ => '0') + s)
    ensures DecimalValue(seq(z, _ => '0') + s) == DecimalValue(s)
  {
    var t := seq(z, _ => '0') + s;
    if s == [] {
      assert t == seq(z, _ => '0');
      ZerosValue(z);
    } else {
      assert t[..|t| - 1] == seq(z, _ => '0') + s[..|s| - 1];
      LeadingZeros(z, s[..|s| - 1]);
    }
  }

  lemma {:induction false} ZerosValue(z: nat)
    ensures AllDigits(seq(z, _ => '0'))
    ensures DecimalValue(seq(z, _ => '0')) == 0
  {
    if z > 0 {
      assert seq(z, _ => '0')[..z - 1] == seq(z - 1, _ => '0');
      ZerosValue(z - 1);
    }
  }
}
