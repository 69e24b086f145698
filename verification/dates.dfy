/**
 * Calendar dates as the screens write them: the `YYYY-MM-DD` text stored on
 * every entry, read the way `new Date(s + 'T00:00:00')` reads it (local
 * midnight, so the month and year are the written ones), and written back.
 */
module Dates {
  import opened Seqs
  import opened Text
  import opened Numbers

  datatype Date = Date(year: nat, month: nat, day: nat)

  predicate IsLeapYear(y: nat) {
    (y % 4 == 0 && y % 100 != 0) || y % 400 == 0
  }

  function DaysInMonth(y: nat, m: nat): nat
    requires 1 <= m <= 12
  {
    if m == 2 then (if IsLeapYear(y) then 29 else 28)
    else if m == 4 || m == 6 || m == 9 || m == 11 then 30
    else 31
  }

  /** A day of the calendar with a four-digit year. */
  predicate ValidDate(d: Date) {
    d.year <= 9999 && 1 <= d.month <= 12 && 1 <= d.day <= DaysInMonth(d.year, d.month)
  }

  /** `n` written with exactly two digits. */
  function Pad2(n: nat): (r: string)
    requires n < 100
    ensures |r| == 2 && AllDigits(r)
  {
    [DigitChar(n / 10), DigitChar(n % 10)]
  }

  /** `n` written with exactly four digits. */
  function Pad4(n: nat): (r: string)
    requires n < 10000
    ensures |r| == 4 && AllDigits(r)
  {
    [DigitChar(n / 1000), DigitChar(n / 100 % 10), DigitChar(n / 10 % 10), DigitChar(n % 10)]
  }

  /** The `YYYY-MM-DD` text of a date. */
  function FormatIsoDate(d: Date): (r: string)
    requires ValidDate(d)
    ensures |r| == 10 && r[4] == '-' && r[7] == '-'
  {
    Pad4(d.year) + "-" + Pad2(d.month) + "-" + Pad2(d.day)
  }

  /**
   * The date a `YYYY-MM-DD` text names, or `None` (an Invalid Date, whose
   * month and year compare unequal to everything) for any other text.
   */
  function ParseIsoDate(s: string): (r: Option<Date>)
    ensures r.Some? ==> ValidDate(r.value) && FormatIsoDate(r.value) == s
  {
    if |s| == 10 && s[4] == '-' && s[7] == '-' && AllDigits(s[..4]) && AllDigits(s[5..7]) && AllDigits(s[8..]) then
      var d := Date(DigitsValue(s[..4]), DigitsValue(s[5..7]), DigitsValue(s[8..]));
      if ValidDate(d) then
        ReadPad4(s[..4]);
        ReadPad2(s[5..7]);
        ReadPad2(s[8..]);
        assert s == s[..4] + "-" + s[5..7] + "-" + s[8..];
        Some(d)
      else None
    else None
  }

  lemma DigitCharValue(c: char)
    requires IsDigit(c)
    ensures DigitChar(DigitValue(c)) == c
  {
  }

  /** The value of a short numeral, digit by digit. */
  lemma DigitsValuePrefixes(t: string)
    requires (|t| == 2 || |t| == 4) && AllDigits(t)
    ensures |t| == 2 ==> DigitsValue(t) == 10 * DigitValue(t[0]) + DigitValue(t[1])
    ensures |t| == 4 ==> DigitsValue(t) == 1000 * DigitValue(t[0]) + 100 * DigitValue(t[1]) + 10 * DigitValue(t[2]) + DigitValue(t[3])
  {
    assert t[..1][..0] == [];
    assert DigitsValue(t[..1]) == DigitValue(t[0]);
    assert t[..2][..1] == t[..1];
    assert DigitsValue(t[..2]) == 10 * DigitValue(t[0]) + DigitValue(t[1]);
    if |t| == 4 {
      assert t[..3][..2] == t[..2];
      assert DigitsValue(t[..3]) == 10 * DigitsValue(t[..2]) + DigitValue(t[2]);
      assert DigitsValue(t) == 10 * DigitsValue(t[..3]) + DigitValue(t[3]);
    } else {
      assert t[..2] == t;
    }
  }

  /** Two digits are the padded text of their value. */
  lemma ReadPad2(t: string)
    requires |t| == 2 && AllDigits(t)
    ensures DigitsValue(t) < 100 && Pad2(DigitsValue(t)) == t
  {
    var a, b := DigitValue(t[0]), DigitValue(t[1]);
    DigitsValuePrefixes(t);
    var v := DigitsValue(t);
    TwoPlaceValues(a, b, v);
    DigitCharValue(t[0]);
    DigitCharValue(t[1]);
    assert Pad2(v)[0] == t[0] && Pad2(v)[1] == t[1];
  }

  lemma TwoPlaceValues(a: nat, b: nat, v: nat)
    requires a < 10 && b < 10 && v == 10 * a + b
    ensures v < 100 && v / 10 == a && v % 10 == b
  {
  }

  /** Four digits are the padded text of their value. */
  lemma ReadPad4(t: string)
    requires |t| == 4 && AllDigits(t)
    ensures DigitsValue(t) < 10000 && Pad4(DigitsValue(t)) == t
  {
    var a, b, c, e := DigitValue(t[0]), DigitValue(t[1]), DigitValue(t[2]), DigitValue(t[3]);
    DigitsValuePrefixes(t);
    var v := DigitsValue(t);
    PlaceValues(a, b, c, e, v);
    DigitCharValue(t[0]);
    DigitCharValue(t[1]);
    DigitCharValue(t[2]);
    DigitCharValue(t[3]);
  }

  lemma PlaceValues(a: nat, b: nat, c: nat, e: nat, v: nat)
    requires a < 10 && b < 10 && c < 10 && e < 10 && v == 1000 * a + 100 * b + 10 * c + e
    ensures v / 1000 == a && v / 100 % 10 == b && v / 10 % 10 == c && v % 10 == e
  {
    assert v / 10 == 100 * a + 10 * b + c;
    assert v / 100 == 10 * a + b;
  }

  /** The padded text of a number reads back as that number. */
  lemma ValuePad2(n: nat)
    requires n < 100
    ensures DigitsValue(Pad2(n)) == n
  {
    DigitsValueTwo(n / 10, n % 10);
  }

  lemma ValuePad4(n: nat)
    requires n < 10000
    ensures DigitsValue(Pad4(n)) == n
  {
    var t := Pad4(n);
    DigitsValuePrefixes(t);
    var a, b, c, e := n / 1000, n / 100 % 10, n / 10 % 10, n % 10;
    assert DigitValue(t[0]) == a && DigitValue(t[1]) == b && DigitValue(t[2]) == c && DigitValue(t[3]) == e;
    PlaceDecomposition(n);
  }

  lemma PlaceDecomposition(n: nat)
    requires n < 10000
    ensures n == 1000 * (n / 1000) + 100 * (n / 100 % 10) + 10 * (n / 10 % 10) + n % 10
  {
    assert n / 100 == 10 * (n / 1000) + n / 100 % 10;
    assert n / 10 == 10 * (n / 100) + n / 10 % 10;
  }

  /** Every valid date survives being written and read back. */
  lemma ParseFormatIsoDate(d: Date)
    requires ValidDate(d)
    ensures ParseIsoDate(FormatIsoDate(d)) == Some(d)
  {
    var s := FormatIsoDate(d);
    assert s[..4] == Pad4(d.year) && s[5..7] == Pad2(d.month) && s[8..] == Pad2(d.day);
    ValuePad4(d.year);
    ValuePad2(d.month);
    ValuePad2(d.day);
  }
}
