/**
 * The three document layouts the masks aim at, filled range by range: how
 * many groups of `000.000.000-00`, `00.000.000/0000-00` and
 * `(00) 00000-0000` a given number of digits reaches.
 *
 * Each lemma takes the layout as a parameter equal to the constant, so the
 * layout is unfolded into its groups once, by the group lemmas of `Masks`.
 */
module Layouts {
  import opened Text
  import opened Masks

  lemma CpfLayoutUpTo6(d: string, tpl: string)
    requires |d| <= 6 && tpl == CpfTemplate
    ensures |d| <= 3 ==> Template(d, tpl) == d
    ensures 3 < |d| ==> Template(d, tpl) == d[..3] + ("." + d[3..])
  {
    CpfGroups();
    FourGroupsSecond(d, "000", ".", "000", ".", "000", "-", "00");
  }

  lemma CpfLayoutUpTo9(d: string, tpl: string)
    requires 6 < |d| <= 9 && tpl == CpfTemplate
    ensures Template(d, tpl) == d[..3] + ("." + (d[3..6] + ("." + d[6..])))
  {
    CpfGroups();
    FourGroupsThird(d, "000", ".", "000", ".", "000", "-", "00");
  }

  /** Ten or more digits reach the check-digit group, which takes at most two. */
  lemma CpfLayoutFull(d: string, tpl: string)
    requires 9 < |d| && tpl == CpfTemplate
    ensures Template(d, tpl) == d[..3] + ("." + (d[3..6] + ("." + (d[6..9] + ("-" + Take(d[9..], 2))))))
  {
    CpfGroups();
    FourGroupsFull(d, "000", ".", "000", ".", "000", "-", "00");
  }

  /** The CNPJ layout after its first group. */
  lemma CnpjLayoutHead(d: string, tpl: string, rest: string)
    requires tpl == CnpjTemplate && rest == "000" + ("." + ("000" + ("/" + ("0000" + ("-" + "00")))))
    ensures |d| <= 2 ==> Template(d, tpl) == d
    ensures |d| > 2 ==> Template(d, tpl) == d[..2] + ("." + Template(d[2..], rest))
  {
    CnpjGroups();
    if |d| <= 2 {
      TemplateGroupShort(d, "00", "." + rest);
    } else {
      TemplateGroupLong(d, "00", ".", rest);
    }
  }

  lemma CnpjLayoutUpTo2(d: string, tpl: string)
    requires |d| <= 2 && tpl == CnpjTemplate
    ensures Template(d, tpl) == d
  {
    CnpjLayoutHead(d, tpl, "000" + ("." + ("000" + ("/" + ("0000" + ("-" + "00"))))));
  }

  /** The second CNPJ group, reached but not filled. */
  lemma CnpjRestSecond(e: string, rest: string)
    requires |e| <= 3 && rest == "000" + ("." + ("000" + ("/" + ("0000" + ("-" + "00")))))
    ensures Template(e, rest) == e
  {
    TemplateGroupShort(e, "000", "." + ("000" + ("/" + ("0000" + ("-" + "00")))));
  }

  /** The third CNPJ group, reached but not filled. */
  lemma CnpjRestSecondFull(e: string, rest: string)
    requires 3 < |e| <= 6 && rest == "000" + ("." + ("000" + ("/" + ("0000" + ("-" + "00")))))
    ensures Template(e, rest) == e[..3] + ("." + e[3..])
  {
    FourGroupsSecond(e, "000", ".", "000", "/", "0000", "-", "00");
  }

  lemma CnpjLayoutUpTo5(d: string, tpl: string)
    requires 2 < |d| <= 5 && tpl == CnpjTemplate
    ensures Template(d, tpl) == d[..2] + ("." + d[2..])
  {
    var rest := "000" + ("." + ("000" + ("/" + ("0000" + ("-" + "00")))));
    CnpjLayoutHead(d, tpl, rest);
    CnpjRestSecond(d[2..], rest);
  }

  lemma CnpjLayoutUpTo8Full(d: string, tpl: string)
    requires 5 < |d| <= 8 && tpl == CnpjTemplate
    ensures Template(d, tpl) == d[..2] + ("." + (d[2..5] + ("." + d[5..])))
  {
    var rest := "000" + ("." + ("000" + ("/" + ("0000" + ("-" + "00")))));
    CnpjLayoutHead(d, tpl, rest);
    CnpjRestSecondFull(d[2..], rest);
    GroupSlices2(d, "00", "000");
  }

  lemma CnpjLayoutUpTo8(d: string, tpl: string)
    requires 2 < |d| <= 8 && tpl == CnpjTemplate
    ensures |d| <= 5 ==> Template(d, tpl) == d[..2] + ("." + d[2..])
    ensures 5 < |d| ==> Template(d, tpl) == d[..2] + ("." + (d[2..5] + ("." + d[5..])))
  {
    if |d| <= 5 {
      CnpjLayoutUpTo5(d, tpl);
    } else {
      CnpjLayoutUpTo8Full(d, tpl);
    }
  }

  /** The last three CNPJ groups, reached but not filled. */
  lemma CnpjRestThird(e: string, rest: string)
    requires 6 < |e| <= 10 && rest == "000" + ("." + ("000" + ("/" + ("0000" + ("-" + "00")))))
    ensures Template(e, rest) == e[..3] + ("." + (e[3..6] + ("/" + e[6..])))
  {
    FourGroupsThird(e, "000", ".", "000", "/", "0000", "-", "00");
  }

  /** The last CNPJ groups, all reached. */
  lemma CnpjRestFull(e: string, rest: string)
    requires 10 < |e| && rest == "000" + ("." + ("000" + ("/" + ("0000" + ("-" + "00")))))
    ensures Template(e, rest) == e[..3] + ("." + (e[3..6] + ("/" + (e[6..10] + ("-" + Take(e[10..], 2))))))
  {
    FourGroupsFull(e, "000", ".", "000", "/", "0000", "-", "00");
  }

  lemma CnpjLayoutUpTo12(d: string, tpl: string)
    requires 8 < |d| <= 12 && tpl == CnpjTemplate
    ensures Template(d, tpl) == d[..2] + ("." + (d[2..5] + ("." + (d[5..8] + ("/" + d[8..])))))
  {
    var rest := "000" + ("." + ("000" + ("/" + ("0000" + ("-" + "00")))));
    CnpjLayoutHead(d, tpl, rest);
    CnpjRestThird(d[2..], rest);
    SuffixSlices(d, 2, 3, 6);
  }

  /** Thirteen or more digits reach the check-digit group, which takes at most two. */
  lemma CnpjLayoutFull(d: string, tpl: string)
    requires 12 < |d| && tpl == CnpjTemplate
    ensures Template(d, tpl) ==
            d[..2] + ("." + (d[2..5] + ("." + (d[5..8] + ("/" + (d[8..12] + ("-" + Take(d[12..], 2))))))))
  {
    var rest := "000" + ("." + ("000" + ("/" + ("0000" + ("-" + "00")))));
    CnpjLayoutHead(d, tpl, rest);
    CnpjRestFull(d[2..], rest);
    SuffixSlices(d, 2, 3, 6);
    SuffixSlices(d, 2, 6, 10);
    SuffixSlices(d, 2, 10, 10);
  }

  /** The phone layout: the opening parenthesis appears with the first digit. */
  lemma PhoneLayoutHead(d: string, tpl: string, rest: string)
    requires tpl == PhoneTemplate && rest == "00" + (") " + ("00000" + ("-" + "0000")))
    ensures |d| == 0 ==> Template(d, tpl) == ""
    ensures |d| > 0 ==> Template(d, tpl) == "(" + Template(d, rest)
  {
    PhoneGroups();
    TemplateSeparator(d, "(", rest);
  }

  lemma PhoneRest(d: string, rest: string)
    requires rest == "00" + (") " + ("00000" + ("-" + "0000")))
    ensures |d| <= 2 ==> Template(d, rest) == d
    ensures 2 < |d| <= 7 ==> Template(d, rest) == d[..2] + (") " + d[2..])
    ensures 7 < |d| ==> Template(d, rest) == d[..2] + (") " + (d[2..7] + ("-" + Take(d[7..], 4))))
  {
    ThreeGroups(d, "00", ") ", "00000", "-", "0000");
  }

  lemma PhoneLayoutShort(d: string, tpl: string)
    requires |d| <= 7 && tpl == PhoneTemplate
    ensures |d| == 0 ==> Template(d, tpl) == ""
    ensures 0 < |d| <= 2 ==> Template(d, tpl) == "(" + d
    ensures 2 < |d| ==> Template(d, tpl) == "(" + (d[..2] + (") " + d[2..]))
  {
    var rest := "00" + (") " + ("00000" + ("-" + "0000")));
    PhoneLayoutHead(d, tpl, rest);
    PhoneRest(d, rest);
  }

  /** Eight or more digits reach the last phone group, which takes at most four. */
  lemma PhoneLayoutFull(d: string, tpl: string)
    requires 7 < |d| && tpl == PhoneTemplate
    ensures Template(d, tpl) == "(" + (d[..2] + (") " + (d[2..7] + ("-" + Take(d[7..], 4)))))
  {
    var rest := "00" + (") " + ("00000" + ("-" + "0000")));
    PhoneLayoutHead(d, tpl, rest);
    PhoneRest(d, rest);
  }

  // ---- Where the punctuation sits in a partly masked document ----

  lemma CpfDotPunctuation(d: string, a: string)
    requires AllDigits(d) && 3 < |d| && a == d[..3] + "." + d[3..]
    ensures a[3] == '.'
    ensures forall i :: 4 <= i < |a| ==> IsDigit(a[i])
  {
    var x := d[..3] + ".";
    assert a == x + d[3..];
    forall i | 4 <= i < |a|
      ensures IsDigit(a[i])
    {
      assert a[i] == d[3..][i - 4] == d[i - 1];
    }
  }

  lemma CnpjDotPunctuation(d: string, a: string)
    requires AllDigits(d) && 2 < |d| && a == d[..2] + "." + d[2..]
    ensures a[2] == '.'
    ensures forall i :: 3 <= i < |a| ==> IsDigit(a[i])
  {
    var x := d[..2] + ".";
    assert a == x + d[2..];
    forall i | 3 <= i < |a|
      ensures IsDigit(a[i])
    {
      assert a[i] == d[2..][i - 3] == d[i - 1];
    }
  }

  lemma CnpjDotsPunctuation(d: string, b: string)
    requires AllDigits(d) && 5 < |d| && b == d[..2] + "." + d[2..5] + "." + d[5..]
    ensures b[2] == '.' && b[6] == '.'
    ensures forall i :: 7 <= i < |b| ==> IsDigit(b[i])
  {
    var x := d[..2] + "." + d[2..5] + ".";
    assert b == x + d[5..];
    assert |x| == 7;
    forall i | 7 <= i < |b|
      ensures IsDigit(b[i])
    {
      assert b[i] == d[5..][i - 7] == d[i - 2];
    }
  }

  lemma CnpjSlashPunctuation(d: string, c: string)
    requires AllDigits(d) && 8 < |d| && c == d[..2] + "." + d[2..5] + "." + d[5..8] + "/" + d[8..]
    ensures c[2] == '.' && c[6] == '.' && c[10] == '/'
    ensures forall i :: 11 <= i < |c| ==> IsDigit(c[i])
  {
    var x := d[..2] + "." + d[2..5] + "." + d[5..8] + "/";
    assert c == x + d[8..];
    assert |x| == 11;
    forall i | 11 <= i < |c|
      ensures IsDigit(c[i])
    {
      assert c[i] == d[8..][i - 11] == d[i - 3];
    }
  }

  lemma PhonePunctuation(d: string, a: string)
    requires AllDigits(d) && 2 <= |d| && a == "(" + d[..2] + ") " + d[2..]
    ensures a[3] == ')' && a[4] == ' '
    ensures forall i :: 5 <= i < |a| ==> IsDigit(a[i])
  {
    var x := "(" + d[..2] + ") ";
    assert a == x + d[2..];
    assert |x| == 5;
    forall i | 5 <= i < |a|
      ensures IsDigit(a[i])
    {
      assert a[i] == d[2..][i - 5] == d[i - 3];
    }
  }

  // ---- Cutting a partly masked document at an insertion point ----

  lemma CpfDotSlices(d: string, a: string)
    requires 6 < |d| && a == d[..3] + "." + d[3..]
    ensures a[..7] == d[..3] + "." + d[3..6] && a[7..] == d[6..]
  {
    var x := d[..3] + "." + d[3..6];
    assert d[3..] == d[3..6] + d[6..];
    assert a == x + d[6..];
    assert |x| == 7;
  }

  lemma CnpjDotSlices(d: string, a: string)
    requires 5 < |d| && a == d[..2] + "." + d[2..]
    ensures a[..6] == d[..2] + "." + d[2..5] && a[6..] == d[5..]
  {
    var x := d[..2] + "." + d[2..5];
    assert d[2..] == d[2..5] + d[5..];
    assert a == x + d[5..];
    assert |x| == 6;
  }

  lemma CnpjDotsSlices(d: string, b: string)
    requires 8 < |d| && b == d[..2] + "." + d[2..5] + "." + d[5..]
    ensures b[..10] == d[..2] + "." + d[2..5] + "." + d[5..8] && b[10..] == d[8..]
  {
    var x := d[..2] + "." + d[2..5] + "." + d[5..8];
    assert d[5..] == d[5..8] + d[8..];
    assert b == x + d[8..];
    assert |x| == 10;
  }
}
