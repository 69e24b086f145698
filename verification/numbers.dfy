/**
 * Numeric conversions of the screens, on exact values: `parseFloat` of an
 * input string, `Math.round`, and `toFixed(1)` read back by `parseFloat`.
 * NaN is `None`.
 */
module Numbers {
  import opened Seqs
  import opened Text

  function DigitValue(c: char): nat
    requires IsDigit(c)
  {
    (c as int) - ('0' as int)
  }

  function DigitChar(n: nat): (c: char)
    requires n < 10
    ensures IsDigit(c) && DigitValue(c) == n
  {
    (('0' as int) + n) as char
  }

  /** The value of a string of decimal digits (`parseInt` on digits only). */
  function DigitsValue(ds: string): nat
    requires AllDigits(ds)
    decreases |ds|
  {
    if |ds| == 0 then 0 else 10 * DigitsValue(ds[..|ds| - 1]) + DigitValue(ds[|ds| - 1])
  }

  /** One or two digits read as their value. */
  lemma DigitsValueOne(a: nat)
    requires a < 10
    ensures DigitsValue([DigitChar(a)]) == a
  {
    var s := [DigitChar(a)];
    assert s[..0] == [];
  }

  lemma DigitsValueTwo(a: nat, b: nat)
    requires a < 10 && b < 10
    ensures DigitsValue([DigitChar(a), DigitChar(b)]) == 10 * a + b
  {
    var s := [DigitChar(a), DigitChar(b)];
    assert s[..1] == [DigitChar(a)];
    DigitsValueOne(a);
  }

  function Pow10(k: nat): (r: nat)
    ensures r >= 1
  {
    if k == 0 then 1 else 10 * Pow10(k - 1)
  }

  /** The shortest decimal numeral of `n`, as `String(n)` writes it. */
  function NatToString(n: nat): (r: string)
    ensures |r| >= 1 && AllDigits(r)
    ensures DigitsValue(r) == n
    decreases n
  {
    if n < 10 then [DigitChar(n)]
    else
      var r := NatToString(n / 10) + [DigitChar(n % 10)];
      assert r[..|r| - 1] == NatToString(n / 10);
      r
  }

  /** The number of decimal digits at the start of `s`. */
  function LeadingDigits(s: string): (n: nat)
    ensures n <= |s| && AllDigits(s[..n])
    ensures n == |s| || !IsDigit(s[n])
  {
    if |s| > 0 && IsDigit(s[0]) then
      var n := 1 + LeadingDigits(s[1..]);
      assert s[..n] == [s[0]] + s[1..][..n - 1];
      n
    else 0
  }

  /**
   * `parseFloat(s)`: after leading blanks, an optional sign, then the longest
   * prefix of the form digits[.digits] or .digits; NaN (`None`) when that prefix
   * holds no digit. Exponents and `Infinity` are not part of this model.
   */
  function ParseFloat(s: string): Option<real>
  {
    ParseSigned(TrimStart(s))
  }

  /** The numeral after an optional sign. */
  function ParseSigned(t: string): Option<real>
  {
    if |t| > 0 && t[0] == '-' then Negate(ParseUnsigned(t[1..]))
    else if |t| > 0 && t[0] == '+' then ParseUnsigned(t[1..])
    else ParseUnsigned(t)
  }

  /** Unary minus, with NaN staying NaN. */
  function Negate(x: Option<real>): Option<real>
  {
    match x
    case Some(v) => Some(-v)
    case None => None
  }

  /** The digits after a leading '.', if `rest` starts with one. */
  function FractionDigits(rest: string): (f: string)
    ensures AllDigits(f)
  {
    if |rest| > 0 && rest[0] == '.' then rest[1..][..LeadingDigits(rest[1..])] else ""
  }

  /** The value of the numeral `ip.fd`. */
  function DecimalValue(ip: string, fd: string): real
    requires AllDigits(ip) && AllDigits(fd)
  {
    DigitsValue(ip) as real + DigitsValue(fd) as real / Pow10(|fd|) as real
  }

  /** The unsigned decimal numeral at the start of `u`. */
  function ParseUnsigned(u: string): Option<real>
  {
    var n := LeadingDigits(u);
    var frac := FractionDigits(u[n..]);
    if n + |frac| == 0 then None
    else Some(DecimalValue(u[..n], frac))
  }

  /** A string whose first character is a letter other than a sign, a dot or a digit is NaN. */
  lemma ParseFloatNoNumber(s: string)
    requires |s| > 0 && !IsJsSpace(s[0]) && !IsDigit(s[0]) && s[0] != '-' && s[0] != '+' && s[0] != '.'
    ensures ParseFloat(s) == None
  {
    assert TrimStart(s) == s;
    assert LeadingDigits(s) == 0;
    assert s[0..] == s;
  }

  /** Digits followed by a non-digit: the leading-digit count stops at the boundary. */
  lemma {:induction false} LeadingDigitsPrefix(ds: string, rest: string)
    requires AllDigits(ds)
    requires |rest| == 0 || !IsDigit(rest[0])
    ensures LeadingDigits(ds + rest) == |ds|
    decreases |ds|
  {
    if |ds| > 0 {
      assert (ds + rest)[1..] == ds[1..] + rest;
      LeadingDigitsPrefix(ds[1..], rest);
    } else {
      assert ds + rest == rest;
    }
  }

  /** A string of digits is its own leading-digit run. */
  lemma {:induction false} LeadingDigitsAll(ds: string)
    requires AllDigits(ds)
    ensures LeadingDigits(ds) == |ds|
    decreases |ds|
  {
    if |ds| > 0 {
      LeadingDigitsAll(ds[1..]);
    }
  }

  /** An integer numeral reads as its value. */
  lemma ParseUnsignedWhole(ip: string)
    requires AllDigits(ip) && |ip| > 0
    ensures ParseUnsigned(ip) == Some(DigitsValue(ip) as real)
  {
    LeadingDigitsAll(ip);
    var n := LeadingDigits(ip);
    assert ip[..n] == ip;
    assert ip[n..] == "";
    ParseUnsignedSplit(ip, n, ip, "");
    assert DecimalValue(ip, "") == DigitsValue(ip) as real;
  }

  /** The fraction digits after a dot that ends the integer digits. */
  lemma FractionDigitsAfterDot(fd: string)
    requires AllDigits(fd)
    ensures FractionDigits("." + fd) == fd
  {
    var rest := "." + fd;
    assert rest[1..] == fd;
    LeadingDigitsAll(fd);
    assert fd[..|fd|] == fd;
  }

  /** A numeral `ip.fd` reads as `ip + fd / 10^|fd|`. */
  lemma ParseUnsignedDecimal(ip: string, fd: string)
    requires AllDigits(ip) && AllDigits(fd) && |ip| > 0
    ensures ParseUnsigned(ip + "." + fd) == Some(DecimalValue(ip, fd))
  {
    var u := ip + "." + fd;
    var rest := "." + fd;
    assert u == ip + rest;
    LeadingDigitsPrefix(ip, rest);
    FractionDigitsAfterDot(fd);
    ParseUnsignedSplit(u, |ip|, ip, fd);
  }

  /** `ParseUnsigned` once the integer digits and the fraction digits are known. */
  lemma ParseUnsignedSplit(u: string, n: nat, ip: string, fd: string)
    requires AllDigits(ip) && AllDigits(fd) && |ip| > 0
    requires n == LeadingDigits(u) && u[..n] == ip && FractionDigits(u[n..]) == fd
    ensures ParseUnsigned(u) == Some(DecimalValue(ip, fd))
  {
  }

  /** A numeral that starts with a digit is read without sign or blanks. */
  lemma ParseFloatDigitFirst(u: string)
    requires |u| > 0 && IsDigit(u[0])
    ensures ParseFloat(u) == ParseUnsigned(u)
  {
    TrimStartKeeps(u);
    assert ParseSigned(u) == ParseUnsigned(u);
  }

  /** Nothing is trimmed from a string that starts with a non-blank. */
  lemma TrimStartKeeps(s: string)
    requires |s| > 0 && !IsJsSpace(s[0])
    ensures TrimStart(s) == s
  {
  }

  /** A leading minus sign negates the numeral after it. */
  lemma ParseFloatMinus(u: string, v: real)
    requires |u| > 0 && IsDigit(u[0]) && ParseUnsigned(u) == Some(v)
    ensures ParseFloat("-" + u) == Some(-v)
  {
    var s := "-" + u;
    assert s[0] == '-' && s[1..] == u;
    TrimStartKeeps(s);
    assert ParseSigned(s) == Negate(ParseUnsigned(u));
  }

  /** `Math.round(x)`: the nearest integer, halves rounded up. */
  function MathRound(x: real): (r: int)
    ensures x - 0.5 < r as real <= x + 0.5
  {
    (x + 0.5).Floor
  }

  /**
   * `parseFloat(x.toFixed(1))`: `x` to one decimal place, halves rounded away
   * from zero (`toFixed` rounds the magnitude and keeps the sign).
   */
  function RoundOneDecimal(x: real): (r: real)
    ensures IsOneDecimal(r)
    ensures x >= 0.0 ==> x - 0.05 < r <= x + 0.05
    ensures x < 0.0 ==> x - 0.05 <= r < x + 0.05
    ensures x - 0.05 <= r <= x + 0.05
  {
    if x < 0.0 then
      var n := ((-x) * 10.0 + 0.5).Floor;
      RoundMagnitude(-x, n);
      -(n as real / 10.0)
    else
      var n := (x * 10.0 + 0.5).Floor;
      RoundMagnitude(x, n);
      n as real / 10.0
  }

  /** Rounding a magnitude `m` half up to tenths gives a tenth within half a tenth of `m`. */
  lemma RoundMagnitude(m: real, n: int)
    requires m >= 0.0 && n == (m * 10.0 + 0.5).Floor
    ensures IsOneDecimal(n as real / 10.0) && IsOneDecimal(-(n as real / 10.0))
    ensures m - 0.05 < n as real / 10.0 <= m + 0.05
  {
    var k := n as real;
    assert k <= m * 10.0 + 0.5 < k + 1.0;
    TenthIsOneDecimal(n);
    TenthIsOneDecimal(-n);
    assert -(k / 10.0) == (-n) as real / 10.0;
  }

  /** A whole number of tenths has one decimal place. */
  lemma TenthIsOneDecimal(n: int)
    ensures IsOneDecimal(n as real / 10.0)
  {
    assert (n as real / 10.0) * 10.0 == n as real;
  }

  /** A number with at most one decimal place. */
  predicate IsOneDecimal(r: real) {
    (r * 10.0).Floor as real == r * 10.0
  }

  /**
   * The bounds pin the rounding: a number with one decimal place in the
   * window `RoundOneDecimal` promises is `RoundOneDecimal(x)` itself.
   */
  lemma RoundOneDecimalUnique(x: real, y: real)
    requires IsOneDecimal(y)
    requires x >= 0.0 ==> x - 0.05 < y <= x + 0.05
    requires x < 0.0 ==> x - 0.05 <= y < x + 0.05
    ensures y == RoundOneDecimal(x)
  {
    var r := RoundOneDecimal(x);
    var a := (y * 10.0).Floor;
    var b := (r * 10.0).Floor;
    assert -1.0 < y * 10.0 - r * 10.0 < 1.0;
    assert -1 < a - b < 1;
    assert a == b;
  }
}
