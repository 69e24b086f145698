/**
 * `parseFloat` reads the decimal text of an amount back as the amount, for
 * both `toFixed(2)` and `String(x)`.
 */
module ReadBack {
  import opened Seqs
  import opened Text
  import opened Numbers
  import opened DecimalText

  /** `q.ab` reads as `m / 100` for `m = 100q + 10a + b`. */
  lemma ParseTwoDecimals(q: nat, a: nat, b: nat, m: nat)
    requires a < 10 && b < 10 && m == 100 * q + 10 * a + b
    ensures ParseUnsigned(NatToString(q) + "." + [DigitChar(a), DigitChar(b)]) == Some(m as real / 100.0)
  {
    var fd := [DigitChar(a), DigitChar(b)];
    ParseUnsignedDecimal(NatToString(q), fd);
    DigitsValueTwo(a, b);
    assert Pow10(|fd|) == 100;
    assert DecimalValue(NatToString(q), fd) == m as real / 100.0;
  }

  /** `q.a` reads as `m / 100` for `m = 100q + 10a`. */
  lemma ParseOneDecimal(q: nat, a: nat, m: nat)
    requires a < 10 && m == 100 * q + 10 * a
    ensures ParseUnsigned(NatToString(q) + "." + [DigitChar(a)]) == Some(m as real / 100.0)
  {
    var fd := [DigitChar(a)];
    ParseUnsignedDecimal(NatToString(q), fd);
    DigitsValueOne(a);
    assert Pow10(|fd|) == 10;
    assert DecimalValue(NatToString(q), fd) == m as real / 100.0;
  }

  /** A whole `q` reads as `m / 100` for `m = 100q`. */
  lemma ParseNoDecimals(q: nat, m: nat)
    requires m == 100 * q
    ensures ParseUnsigned(NatToString(q)) == Some(m as real / 100.0)
  {
    ParseUnsignedWhole(NatToString(q));
  }

  /** Reading back the two-decimal text of an amount gives the amount. */
  lemma ParseFormatCents(c: nat)
    ensures ParseFloat(FormatCents(c)) == Some(c as real / 100.0)
  {
    var q, a, b := c / 100, c % 100 / 10, c % 10;
    CentsDigits(c);
    assert FormatCents(c) == NatToString(q) + "." + [DigitChar(a), DigitChar(b)];
    ParseFormatDigits(q, a, b, c);
  }

  lemma ParseFormatDigits(q: nat, a: nat, b: nat, m: nat)
    requires a < 10 && b < 10 && m == 100 * q + 10 * a + b
    ensures ParseFloat(NatToString(q) + "." + [DigitChar(a), DigitChar(b)]) == Some(m as real / 100.0)
  {
    var s := NatToString(q) + "." + [DigitChar(a), DigitChar(b)];
    assert s[0] == NatToString(q)[0];
    ParseFloatDigitFirst(s);
    ParseTwoDecimals(q, a, b, m);
  }

  lemma ParseUnsignedText(m: nat)
    ensures ParseUnsigned(UnsignedText(m)) == Some(m as real / 100.0)
  {
    var q, a, b := m / 100, m % 100 / 10, m % 10;
    CentsDigits(m);
    if a == 0 && b == 0 {
      ParseNoDecimals(q, m);
      assert UnsignedText(m) == NatToString(q);
    } else if b == 0 {
      ParseOneDecimal(q, a, m);
      assert UnsignedText(m) == NatToString(q) + "." + [DigitChar(a)];
    } else {
      ParseTwoDecimals(q, a, b, m);
      assert UnsignedText(m) == NatToString(q) + "." + [DigitChar(a), DigitChar(b)];
    }
  }

  /** A minus sign in front of the text of `m` cents reads as `-m` cents. */
  lemma ParseMinusUnsignedText(m: nat, v: real)
    requires v == m as real / 100.0
    ensures ParseFloat("-" + UnsignedText(m)) == Some(-v)
  {
    ParseUnsignedText(m);
    UnsignedTextStartsWithDigit(m);
    ParseFloatMinus(UnsignedText(m), v);
  }

  lemma ParseNonNegativeText(c: int)
    requires c >= 0
    ensures ParseFloat(NumberText(c)) == Some(c as real / 100.0)
  {
    ParseUnsignedText(c);
    UnsignedTextStartsWithDigit(c);
    ParseFloatDigitFirst(UnsignedText(c));
  }

  lemma NegativeNumberText(c: int, m: nat)
    requires c < 0 && m == -c
    ensures NumberText(c) == "-" + UnsignedText(m)
  {
  }

  lemma ParseNegativeNumberText(c: int, m: nat, v: real, x: real)
    requires c < 0 && m == -c && v == m as real / 100.0 && x == -v
    ensures ParseFloat(NumberText(c)) == Some(x)
  {
    NegativeNumberText(c, m);
    ParseMinusUnsignedText(m, v);
  }

  /** Reading back `String(x)` gives `x`. */
  lemma ParseNumberText(c: int)
    ensures ParseFloat(NumberText(c)) == Some(c as real / 100.0)
  {
    if c < 0 {
      ParseNegativeNumberText(c, -c, (-c) as real / 100.0, c as real / 100.0);
    } else {
      ParseNonNegativeText(c);
    }
  }
}
