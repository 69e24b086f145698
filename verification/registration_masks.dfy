/**
 * The masks of the two registration screens (src/screens/Cadastro.js and
 * src/screens/admin/CadastroClinica.js). Unlike the patient register, these
 * chains anchor their first two patterns at the start (`^`), find the next
 * group by the dot in front of it, and cut the result to the layout's length
 * instead of giving up on long input. All three end up filling their layout
 * with the digits typed, for any input; the phone mask differs from its layout
 * only for one or two digits, which it shows without the parenthesis.
 */
module RegistrationMasks {
  import opened Text
  import opened Masks
  import opened Layouts

  /** `s.replace(/^(\d{k})(\d)/, lead + '$1' + mid + '$2')`. */
  function StartSplit(s: string, k: nat, lead: string, mid: string): string {
    ReplaceAtStart(s, RunAndDigit(k), Insertion(lead, k, mid))
  }

  /** `^(\d{a})\.(\d{3})(\d)`. */
  function SecondGroupPattern(a: nat): (p: seq<Atom>)
    ensures |p| == a + 5
  {
    Digits(a) + [Lit('.')] + Digits(4)
  }

  /** `s.replace(/^(\d{a})\.(\d{3})(\d)/, '$1.$2.$3')`. */
  function SecondDot(s: string, a: nat): string {
    ReplaceAtStart(s, SecondGroupPattern(a), Insertion("", a + 4, "."))
  }

  /** `\.(\d{3})(\d)`. */
  function DotRunPattern(): (p: seq<Atom>)
    ensures |p| == 5 && p[0] == Lit('.')
    ensures forall k :: 1 <= k < 5 ==> p[k] == Digit
  {
    [Lit('.')] + Digits(4)
  }

  /** `s.replace(/\.(\d{3})(\d)/, '.$1' + sep + '$2')`. */
  function AfterDotRun(s: string, sep: string): string {
    ReplaceFirst(s, DotRunPattern(), Insertion("", 4, sep))
  }

  /** The CNPJ chain of `formatarCNPJ` on the digits: masked, then cut to 18 characters. */
  function CnpjMaskChain(d: string): string {
    Take(InsertAfterRun(AfterDotRun(SecondDot(StartSplit(d, 2, "", "."), 2), "/"), 4, "-"), 18)
  }

  /** The CPF chain of `formatarCPF` on the digits: masked, then cut to 14 characters. */
  function CpfMaskChain(d: string): string {
    Take(AfterDotRun(SecondDot(StartSplit(d, 3, "", "."), 3), "-"), 14)
  }

  /** The phone chain of `formatarTelefone` on the digits: masked, then cut to 15 characters. */
  function PhoneMaskChain(d: string): string {
    Take(InsertAfterRun(StartSplit(d, 2, "(", ") "), 5, "-"), 15)
  }

  // ---- The anchored first split ----

  lemma StartSplitDigits(d: string, k: nat, lead: string, mid: string)
    requires AllDigits(d)
    ensures |d| <= k ==> StartSplit(d, k, lead, mid) == d
    ensures |d| > k ==> StartSplit(d, k, lead, mid) == lead + d[..k] + mid + d[k..]
  {
    if |d| > k {
      DigitsMatch(d, k + 1, 0);
      assert d[..0] + lead + d[0..k] == lead + d[..k];
    }
  }

  // ---- The anchored second group ----

  /** A string without a dot where the pattern wants one cannot match it at the start. */
  lemma SecondDotBlocked(s: string, a: nat)
    requires a >= |s| || s[a] != '.'
    ensures SecondDot(s, a) == s
  {
    if a + 5 <= |s| {
      assert SecondGroupPattern(a)[a] == Lit('.');
      assert !AtomMatches(SecondGroupPattern(a)[a], s[0 + a]);
    }
  }

  lemma SecondDotOn(d: string, a: nat)
    requires AllDigits(d) && |d| > a
    ensures var s1 := d[..a] + "." + d[a..];
      (|d| < a + 4 ==> SecondDot(s1, a) == s1) &&
      (|d| >= a + 4 ==> SecondDot(s1, a) == d[..a] + "." + d[a..a + 3] + "." + d[a + 3..])
  {
    var s1 := d[..a] + "." + d[a..];
    var pat := SecondGroupPattern(a);
    if |d| >= a + 4 {
      forall k | 0 <= k < |pat|
        ensures AtomMatches(pat[k], s1[0 + k])
      {
        if k < a {
          assert pat[k] == Digit && s1[k] == d[k];
        } else if k == a {
          assert pat[k] == Lit('.');
        } else {
          assert pat[k] == Digit && s1[k] == d[k - 1];
        }
      }
      assert MatchesAt(s1, pat, 0);
      assert s1[..0] + "" + s1[0..a + 4] == d[..a] + "." + d[a..a + 3];
      assert s1[a + 4..] == d[a + 3..];
    }
  }

  // ---- The group after a dot ----

  /** `\.(\d{3})(\d)` can only match at a dot. */
  lemma DotRunNeedsDot(s: string, j: nat)
    requires j >= |s| || s[j] != '.'
    ensures !MatchesAt(s, DotRunPattern(), j)
  {
    LitBlocks(s, DotRunPattern(), j);
  }

  /** A non-digit within four characters after a dot stops the pattern there. */
  lemma DotRunBlockedAt(s: string, j: nat, p: nat)
    requires j < p <= j + 4 && p < |s| && !IsDigit(s[p])
    ensures !MatchesAt(s, DotRunPattern(), j)
  {
    assert !AtomMatches(DotRunPattern()[p - j], s[j + (p - j)]);
  }

  lemma AfterDotRunNoDot(s: string, sep: string)
    requires '.' !in s
    ensures AfterDotRun(s, sep) == s
  {
    forall j: nat ensures !MatchesAt(s, DotRunPattern(), j) {
      DotRunNeedsDot(s, j);
    }
  }

  /** A single dot with fewer than four digits after it. */
  lemma AfterDotRunOneDot(d: string, a: nat, sep: string)
    requires AllDigits(d) && a < |d| < a + 4
    ensures AfterDotRun(d[..a] + "." + d[a..], sep) == d[..a] + "." + d[a..]
  {
    var s := d[..a] + "." + d[a..];
    forall j: nat ensures !MatchesAt(s, DotRunPattern(), j) {
      if j != a {
        if j < a {
          assert s[j] == d[j];
        } else if j < |s| {
          assert s[j] == d[j - 1];
        }
        DotRunNeedsDot(s, j);
      }
    }
  }

  /** Two dots four apart: the group after the second one, if it has a digit after it, gets `sep`. */
  lemma AfterDotRunTwoDots(d: string, a: nat, sep: string)
    requires AllDigits(d) && a + 3 <= |d|
    ensures var s := d[..a] + "." + d[a..a + 3] + "." + d[a + 3..];
      (|d| < a + 7 ==> AfterDotRun(s, sep) == s) &&
      (|d| >= a + 7 ==> AfterDotRun(s, sep) == d[..a] + "." + d[a..a + 3] + "." + d[a + 3..a + 6] + sep + d[a + 6..])
  {
    var s := d[..a] + "." + d[a..a + 3] + "." + d[a + 3..];
    assert s[a] == '.' && s[a + 4] == '.';
    assert forall j :: 0 <= j < |s| && j != a && j != a + 4 ==> s[j] != '.';
    forall j: nat | j < a + 4
      ensures !MatchesAt(s, DotRunPattern(), j)
    {
      if j == a {
        DotRunBlockedAt(s, a, a + 4);
      } else {
        DotRunNeedsDot(s, j);
      }
    }
    if |d| >= a + 7 {
      assert MatchesAt(s, DotRunPattern(), a + 4);
      assert s[..a + 4] + "" + s[a + 4..a + 8] == d[..a] + "." + d[a..a + 3] + "." + d[a + 3..a + 6];
      assert s[a + 8..] == d[a + 6..];
    } else {
      forall j: nat | j > a + 4
        ensures !MatchesAt(s, DotRunPattern(), j)
      {
        DotRunNeedsDot(s, j);
      }
    }
  }

  // ---- The CNPJ chain, range by range ----

  lemma CnpjMaskUpTo2(d: string)
    requires AllDigits(d) && |d| <= 2
    ensures CnpjMaskChain(d) == d
  {
    StartSplitDigits(d, 2, "", ".");
    SecondDotBlocked(d, 2);
    AfterDotRunNoDot(d, "/");
    InsertAfterRunNone(d, 4, "-");
  }

  lemma CnpjMaskUpTo5(d: string)
    requires AllDigits(d) && 2 < |d| <= 5
    ensures CnpjMaskChain(d) == d[..2] + "." + d[2..]
  {
    var a := d[..2] + "." + d[2..];
    StartSplitDigits(d, 2, "", ".");
    assert "" + d[..2] + "." + d[2..] == a;
    SecondDotOn(d, 2);
    AfterDotRunOneDot(d, 2, "/");
    assert a[2] == '.';
    NonDigitBlocks(a, 5, 2);
    InsertAfterRunNone(a, 4, "-");
  }

  /** The CNPJ chain through its two dots, for six to eight digits. */
  lemma CnpjMaskDots(d: string)
    requires AllDigits(d) && 5 < |d| <= 8
    ensures AfterDotRun(SecondDot(StartSplit(d, 2, "", "."), 2), "/") == d[..2] + "." + d[2..5] + "." + d[5..]
  {
    var a := d[..2] + "." + d[2..];
    assert StartSplit(d, 2, "", ".") == a by {
      StartSplitDigits(d, 2, "", ".");
      assert "" + d[..2] + "." + d[2..] == a;
    }
    var b := d[..2] + "." + d[2..5] + "." + d[5..];
    assert SecondDot(a, 2) == b by {
      SecondDotOn(d, 2);
    }
    AfterDotRunTwoDots(d, 2, "/");
  }

  lemma CnpjMaskUpTo8(d: string)
    requires AllDigits(d) && 5 < |d| <= 8
    ensures CnpjMaskChain(d) == d[..2] + "." + d[2..5] + "." + d[5..]
  {
    var b := d[..2] + "." + d[2..5] + "." + d[5..];
    assert AfterDotRun(SecondDot(StartSplit(d, 2, "", "."), 2), "/") == b by {
      CnpjMaskDots(d);
    }
    assert InsertAfterRun(b, 4, "-") == b by {
      CnpjDotsPunctuation(d, b);
      NonDigitBlocks(b, 5, 2);
      NonDigitBlocks(b, 5, 6);
      InsertAfterRunNone(b, 4, "-");
    }
  }

  /** The CNPJ chain up to the slash, for nine or more digits. */
  lemma CnpjMaskSlash(d: string)
    requires AllDigits(d) && 8 < |d|
    ensures AfterDotRun(SecondDot(StartSplit(d, 2, "", "."), 2), "/") ==
            d[..2] + "." + d[2..5] + "." + d[5..8] + "/" + d[8..]
  {
    var a := d[..2] + "." + d[2..];
    assert StartSplit(d, 2, "", ".") == a by {
      StartSplitDigits(d, 2, "", ".");
      assert "" + d[..2] + "." + d[2..] == a;
    }
    var b := d[..2] + "." + d[2..5] + "." + d[5..];
    assert SecondDot(a, 2) == b by {
      SecondDotOn(d, 2);
    }
    AfterDotRunTwoDots(d, 2, "/");
  }

  lemma CnpjMaskUpTo12(d: string)
    requires AllDigits(d) && 8 < |d| <= 12
    ensures CnpjMaskChain(d) == d[..2] + "." + d[2..5] + "." + d[5..8] + "/" + d[8..]
  {
    var c := d[..2] + "." + d[2..5] + "." + d[5..8] + "/" + d[8..];
    assert AfterDotRun(SecondDot(StartSplit(d, 2, "", "."), 2), "/") == c by {
      CnpjMaskSlash(d);
    }
    assert InsertAfterRun(c, 4, "-") == c by {
      CnpjSlashPunctuation(d, c);
      NonDigitBlocks(c, 5, 2);
      NonDigitBlocks(c, 5, 6);
      NonDigitBlocks(c, 5, 10);
      InsertAfterRunNone(c, 4, "-");
    }
  }

  /** The dash goes after the first four digits behind the slash. */
  lemma CnpjMaskDash(d: string)
    requires AllDigits(d) && 12 < |d|
    ensures var c := d[..2] + "." + d[2..5] + "." + d[5..8] + "/" + d[8..];
      InsertAfterRun(c, 4, "-") == d[..2] + "." + d[2..5] + "." + d[5..8] + "/" + d[8..12] + "-" + d[12..]
  {
    var c := d[..2] + "." + d[2..5] + "." + d[5..8] + "/" + d[8..];
    assert InsertAfterRun(c, 4, "-") == c[..15] + "-" + c[15..] by {
      CnpjSlashPunctuation(d, c);
      NonDigitBlocks(c, 5, 2);
      NonDigitBlocks(c, 5, 6);
      NonDigitBlocks(c, 5, 10);
      InsertAfterRunAt(c, 4, "-", 11, 15);
    }
    CnpjDashSlices(d, c);
  }

  lemma CnpjDashSlices(d: string, c: string)
    requires 12 < |d| && c == d[..2] + "." + d[2..5] + "." + d[5..8] + "/" + d[8..]
    ensures c[..15] == d[..2] + "." + d[2..5] + "." + d[5..8] + "/" + d[8..12] && c[15..] == d[12..]
  {
    var x := d[..2] + "." + d[2..5] + "." + d[5..8] + "/" + d[8..12];
    assert d[8..] == d[8..12] + d[12..];
    assert c == x + d[12..];
    assert |x| == 15;
  }

  lemma CnpjMaskFull(d: string)
    requires AllDigits(d) && 12 < |d|
    ensures CnpjMaskChain(d) == d[..2] + "." + d[2..5] + "." + d[5..8] + "/" + d[8..12] + "-" + Take(d[12..], 2)
  {
    CnpjMaskSlash(d);
    CnpjMaskDash(d);
    var x := d[..2] + "." + d[2..5] + "." + d[5..8] + "/" + d[8..12] + "-";
    TakeAppend(x, d[12..], 18);
  }

  /** `formatarCNPJ` fills the CNPJ layout with the digits, for any number of digits. */
  lemma CnpjMaskFillsLayout(d: string)
    requires AllDigits(d)
    ensures CnpjMaskChain(d) == Template(d, CnpjTemplate)
  {
    if |d| <= 2 {
      CnpjMaskUpTo2(d);
      CnpjLayoutUpTo2(d, CnpjTemplate);
    } else if |d| <= 5 {
      CnpjMaskUpTo5(d);
      CnpjLayoutUpTo8(d, CnpjTemplate);
      Assoc3(d[..2], ".", d[2..]);
    } else if |d| <= 8 {
      CnpjMaskUpTo8(d);
      CnpjLayoutUpTo8(d, CnpjTemplate);
      Assoc5(d[..2], ".", d[2..5], ".", d[5..]);
    } else if |d| <= 12 {
      CnpjMaskUpTo12(d);
      CnpjLayoutUpTo12(d, CnpjTemplate);
      Assoc7(d[..2], ".", d[2..5], ".", d[5..8], "/", d[8..]);
    } else {
      CnpjMaskFull(d);
      CnpjLayoutFull(d, CnpjTemplate);
      Assoc9(d[..2], ".", d[2..5], ".", d[5..8], "/", d[8..12], "-", Take(d[12..], 2));
    }
  }

  // ---- The CPF chain, range by range ----

  lemma CpfMaskUpTo3(d: string)
    requires AllDigits(d) && |d| <= 3
    ensures CpfMaskChain(d) == d
  {
    StartSplitDigits(d, 3, "", ".");
    SecondDotBlocked(d, 3);
    AfterDotRunNoDot(d, "-");
  }

  lemma CpfMaskUpTo6(d: string)
    requires AllDigits(d) && 3 < |d| <= 6
    ensures CpfMaskChain(d) == d[..3] + "." + d[3..]
  {
    StartSplitDigits(d, 3, "", ".");
    assert "" + d[..3] + "." + d[3..] == d[..3] + "." + d[3..];
    SecondDotOn(d, 3);
    AfterDotRunOneDot(d, 3, "-");
  }

  /** The CPF chain before the cut, for seven to nine digits. */
  lemma CpfMaskTwoDots(d: string)
    requires AllDigits(d) && 6 < |d| <= 9
    ensures AfterDotRun(SecondDot(StartSplit(d, 3, "", "."), 3), "-") == d[..3] + "." + d[3..6] + "." + d[6..]
  {
    var a := d[..3] + "." + d[3..];
    assert StartSplit(d, 3, "", ".") == a by {
      StartSplitDigits(d, 3, "", ".");
      assert "" + d[..3] + "." + d[3..] == a;
    }
    var b := d[..3] + "." + d[3..6] + "." + d[6..];
    assert SecondDot(a, 3) == b by {
      SecondDotOn(d, 3);
    }
    AfterDotRunTwoDots(d, 3, "-");
  }

  lemma CpfMaskUpTo9(d: string)
    requires AllDigits(d) && 6 < |d| <= 9
    ensures CpfMaskChain(d) == d[..3] + "." + d[3..6] + "." + d[6..]
  {
    CpfMaskTwoDots(d);
    var s := d[..3] + "." + d[3..6] + "." + d[6..];
    assert |s| <= 14;
  }

  /** The CPF chain before the cut, for ten or more digits. */
  lemma CpfMaskDash(d: string)
    requires AllDigits(d) && 9 < |d|
    ensures AfterDotRun(SecondDot(StartSplit(d, 3, "", "."), 3), "-") ==
            d[..3] + "." + d[3..6] + "." + d[6..9] + "-" + d[9..]
  {
    var a := d[..3] + "." + d[3..];
    assert StartSplit(d, 3, "", ".") == a by {
      StartSplitDigits(d, 3, "", ".");
      assert "" + d[..3] + "." + d[3..] == a;
    }
    var b := d[..3] + "." + d[3..6] + "." + d[6..];
    assert SecondDot(a, 3) == b by {
      SecondDotOn(d, 3);
    }
    AfterDotRunTwoDots(d, 3, "-");
  }

  lemma CpfMaskFull(d: string)
    requires AllDigits(d) && 9 < |d|
    ensures CpfMaskChain(d) == d[..3] + "." + d[3..6] + "." + d[6..9] + "-" + Take(d[9..], 2)
  {
    CpfMaskDash(d);
    TakeAppend(d[..3] + "." + d[3..6] + "." + d[6..9] + "-", d[9..], 14);
  }

  /** `formatarCPF` fills the CPF layout with the digits, for any number of digits. */
  lemma CpfMaskFillsLayout(d: string)
    requires AllDigits(d)
    ensures CpfMaskChain(d) == Template(d, CpfTemplate)
  {
    if |d| <= 3 {
      CpfMaskUpTo3(d);
      CpfLayoutUpTo6(d, CpfTemplate);
    } else if |d| <= 6 {
      CpfMaskUpTo6(d);
      CpfLayoutUpTo6(d, CpfTemplate);
      Assoc3(d[..3], ".", d[3..]);
    } else if |d| <= 9 {
      CpfMaskUpTo9(d);
      CpfLayoutUpTo9(d, CpfTemplate);
      Assoc5(d[..3], ".", d[3..6], ".", d[6..]);
    } else {
      CpfMaskFull(d);
      CpfLayoutFull(d, CpfTemplate);
      Assoc7(d[..3], ".", d[3..6], ".", d[6..9], "-", Take(d[9..], 2));
    }
  }

  // ---- The phone chain, range by range ----

  lemma PhoneMaskUpTo2(d: string)
    requires AllDigits(d) && |d| <= 2
    ensures PhoneMaskChain(d) == d
  {
    StartSplitDigits(d, 2, "(", ") ");
    InsertAfterRunNone(d, 5, "-");
  }

  lemma PhoneMaskUpTo7(d: string)
    requires AllDigits(d) && 2 < |d| <= 7
    ensures PhoneMaskChain(d) == "(" + d[..2] + ") " + d[2..]
  {
    var a := "(" + d[..2] + ") " + d[2..];
    StartSplitDigits(d, 2, "(", ") ");
    assert a[3] == ')' && a[4] == ' ';
    NonDigitBlocks(a, 6, 3);
    NonDigitBlocks(a, 6, 4);
    InsertAfterRunNone(a, 5, "-");
  }

  /** The phone chain before the cut, for eight or more digits. */
  lemma PhoneMaskDash(d: string)
    requires AllDigits(d) && 7 < |d|
    ensures InsertAfterRun(StartSplit(d, 2, "(", ") "), 5, "-") == "(" + d[..2] + ") " + d[2..7] + "-" + d[7..]
  {
    var a := "(" + d[..2] + ") " + d[2..];
    assert StartSplit(d, 2, "(", ") ") == a by {
      StartSplitDigits(d, 2, "(", ") ");
    }
    assert InsertAfterRun(a, 5, "-") == a[..10] + "-" + a[10..] by {
      PhonePunctuation(d, a);
      NonDigitBlocks(a, 6, 3);
      NonDigitBlocks(a, 6, 4);
      InsertAfterRunAt(a, 5, "-", 5, 10);
    }
    PhoneDashSlices(d, a);
  }

  lemma PhoneDashSlices(d: string, a: string)
    requires 7 < |d| && a == "(" + d[..2] + ") " + d[2..]
    ensures a[..10] == "(" + d[..2] + ") " + d[2..7] && a[10..] == d[7..]
  {
    var x := "(" + d[..2] + ") " + d[2..7];
    assert d[2..] == d[2..7] + d[7..];
    assert a == x + d[7..];
    assert |x| == 10;
  }

  lemma PhoneMaskFull(d: string)
    requires AllDigits(d) && 7 < |d|
    ensures PhoneMaskChain(d) == "(" + d[..2] + ") " + d[2..7] + "-" + Take(d[7..], 4)
  {
    PhoneMaskDash(d);
    TakeAppend("(" + d[..2] + ") " + d[2..7] + "-", d[7..], 15);
  }

  /**
   * `formatarTelefone` fills the phone layout with the digits once there are
   * three or more; with one or two digits it shows them bare.
   */
  lemma PhoneMaskFillsLayout(d: string)
    requires AllDigits(d)
    ensures |d| <= 2 ==> PhoneMaskChain(d) == d
    ensures |d| > 2 ==> PhoneMaskChain(d) == Template(d, PhoneTemplate)
  {
    if |d| <= 2 {
      PhoneMaskUpTo2(d);
    } else if |d| <= 7 {
      PhoneMaskUpTo7(d);
      PhoneLayoutShort(d, PhoneTemplate);
      Assoc4("(", d[..2], ") ", d[2..]);
    } else {
      PhoneMaskFull(d);
      PhoneLayoutFull(d, PhoneTemplate);
      Assoc6("(", d[..2], ") ", d[2..7], "-", Take(d[7..], 4));
    }
  }
}
