/**
 * The decimal text the screens write for an amount held in cents:
 * `toFixed(2)` and `String(x)`.
 */
module DecimalText {
  import opened Text
  import opened Numbers

  /** Two decimal places of a non-negative amount held in cents: `(c / 100).toFixed(2)`. */
  function FormatCents(c: nat): string
  {
    NatToString(c / 100) + "." + [DigitChar(c % 100 / 10), DigitChar(c % 10)]
  }

  /** The decimal digits of an amount in cents. */
  lemma CentsDigits(m: nat)
    ensures m == 100 * (m / 100) + 10 * (m % 100 / 10) + m % 10
    ensures m % 100 == 0 <==> m % 100 / 10 == 0 && m % 10 == 0
  {
    var q, r := m / 100, m % 100;
    var a, b := r / 10, r % 10;
    assert r == 10 * a + b;
    assert m == 10 * (10 * q + a) + b;
    assert m % 10 == b;
  }

  /**
   * `String(x)` for an amount of `c` cents: sign, integer part, and the
   * fraction without trailing zeros (none at all for whole amounts).
   */
  function NumberText(c: int): string
  {
    if c < 0 then "-" + UnsignedText(-c) else UnsignedText(c)
  }

  function UnsignedText(m: nat): string
  {
    var q, a, b := m / 100, m % 100 / 10, m % 10;
    if a == 0 && b == 0 then NatToString(q)
    else if b == 0 then NatToString(q) + "." + [DigitChar(a)]
    else NatToString(q) + "." + [DigitChar(a), DigitChar(b)]
  }

  lemma UnsignedTextStartsWithDigit(m: nat)
    ensures |UnsignedText(m)| > 0 && IsDigit(UnsignedText(m)[0])
  {
    var q := m / 100;
    assert UnsignedText(m)[0] == NatToString(q)[0];
  }
}
