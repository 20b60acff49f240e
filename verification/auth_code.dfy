/** The text of a one-time code: `generate_code` without its random draw. */
module OneTimeCode {
  import opened Text
  import opened Numbers

  /** Codes are drawn from `0..1000000`. */
  const CODE_SPACE: nat := 1000000

  /**
   * `format!("{:06}", n)` for a draw `n` in `0..1000000`: the decimal digits of
   * `n`, left-padded with zeros to width six.
   */
  function FormatCode(n: nat): (code: string)
    requires n < CODE_SPACE
    ensures |code| == 6 && AllDigits(code)
    ensures DecimalValue(code) == n
    ensures ':' !in code
  {
    var s := NatToString(n);
    assert Pow10(6) == CODE_SPACE;
    NatToStringLength(n, 6);
    LeadingZeros(6 - |s|, s);
    seq(6 - |s|, _ => '0') + s
  }
}
