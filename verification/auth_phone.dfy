/** Phone-number normalisation used as the identity of the one-time-code flow. */
module Phone {
  import opened Text

  /** The ASCII digits of `s` in order: `s.chars().filter(|c| c.is_digit(10)).collect()`. */
  function Digits(s: string): (d: string)
    ensures AllDigits(d) && |d| <= |s|
  {
    if s == [] then [] else (if IsDigit(s[0]) then [s[0]] else []) + Digits(s[1..])
  }

  /**
   * `normalize_phone`: keep the digits; eleven digits led by a 1 get a `+`,
   * ten digits not led by a 1 get `+1`, anything else gets a bare `+`.
   */
  function NormalizePhone(raw: string): (r: string)
    ensures |r| >= 1 && r[0] == '+' && AllDigits(r[1..])
    ensures r[1..] == Digits(raw) || r[1..] == "1" + Digits(raw)
  {
    var d := Digits(raw);
    if StartsWith(d, "1") && |d| == 11 then "+" + d
    else if !StartsWith(d, "1") && |d| == 10 then "+1" + d
    else "+" + d
  }

  lemma {:induction false} DigitsAppend(a: string, b: string)
    ensures Digits(a + b) == Digits(a) + Digits(b)
  {
    if a != [] {
      assert (a + b)[0] == a[0] && (a + b)[1..] == a[1..] + b;
      DigitsAppend(a[1..], b);
    } else {
      assert a + b == b;
    }
  }

  lemma {:induction false} DigitsOfDigitString(s: string)
    requires AllDigits(s)
    ensures Digits(s) == s
  {
    if s != [] {
      DigitsOfDigitString(s[1..]);
      assert [s[0]] + s[1..] == s;
    }
  }

  /** A non-digit anywhere in the input is discarded. */
  lemma NonDigitIgnored(a: string, c: char, b: string)
    requires !IsDigit(c)
    ensures Digits(a + [c] + b) == Digits(a + b)
  {
    DigitsAppend(a + [c], b);
    DigitsAppend(a, [c]);
    DigitsAppend(a, b);
    assert Digits([c]) == [] by {
      assert [c][1..] == [];
    }
  }

  /** Inputs with the same digits normalise alike, whatever else they contain. */
  lemma SameDigitsSameNumber(a: string, b: string)
    requires Digits(a) == Digits(b)
    ensures NormalizePhone(a) == NormalizePhone(b)
  {
  }

  /** The digits of a normalised number are everything after the `+`. */
  lemma {:induction false} DigitsOfNormalized(raw: string)
    ensures Digits(NormalizePhone(raw)) == NormalizePhone(raw)[1..]
  {
    var r := NormalizePhone(raw);
    assert r == "+" + r[1..];
    DigitsAppend("+", r[1..]);
    DigitsOfDigitString(r[1..]);
    assert Digits("+") == [] by {
      assert "+"[1..] == [];
    }
  }

  /** The country code 1 is added exactly to ten digits that do not start with 1. */
  lemma CountryCodeAdded(raw: string)
    ensures var d := Digits(raw);
      NormalizePhone(raw) == "+1" + d <==> |d| == 10 && d[0] != '1'
  {
    var d := Digits(raw);
    if |d| == 11 && d[0] == '1' {
      assert StartsWith(d, "1");
      assert |"+1" + d| != |"+" + d|;
    } else if |d| == 10 && d[0] != '1' {
      assert !StartsWith(d, "1");
    } else {
      assert |d| == 0 || StartsWith(d, "1") == (d[0] == '1');
      assert |"+1" + d| != |"+" + d|;
    }
  }

  /** In every other case the result is `+` followed by the digits, unchanged. */
  lemma PlusPrefixed(raw: string)
    ensures var d := Digits(raw);
      NormalizePhone(raw) == "+" + d <==> !(|d| == 10 && d[0] != '1')
  {
    var d := Digits(raw);
    CountryCodeAdded(raw);
    if |d| == 11 && d[0] == '1' {
      assert StartsWith(d, "1");
    } else if |d| == 10 && d[0] != '1' {
      assert |"+1" + d| != |"+" + d|;
    } else {
      assert |d| == 0 || StartsWith(d, "1") == (d[0] == '1');
    }
  }

  /** Normalising a normalised number changes nothing. */
  lemma NormalizeIdempotent(raw: string)
    ensures NormalizePhone(NormalizePhone(raw)) == NormalizePhone(raw)
  {
    var d := Digits(raw);
    var r := NormalizePhone(raw);
    DigitsOfNormalized(raw);
    var d2 := Digits(r);
    assert d2 == r[1..];
    if StartsWith(d, "1") && |d| == 11 {
      assert d2 == d;
    } else if !StartsWith(d, "1") && |d| == 10 {
      assert d2 == "1" + d;
      assert StartsWith(d2, "1") && |d2| == 11;
    } else {
      assert d2 == d;
    }
  }

  /** The reserved test number "123" normalises to "+123". */
  lemma TestNumberNormalized()
    ensures NormalizePhone("123") == "+123"
  {
    DigitsOfDigitString("123");
  }
}
