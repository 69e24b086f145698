/**
 * The document masks of the registration screens are chains of
 * `String.prototype.replace` calls with fixed-width regular expressions and
 * no `g` flag. This module gives those calls their meaning: a pattern is a
 * sequence of `\d` and literal positions, `replace` rewrites only the
 * leftmost match, and the one pattern with a variable width,
 * `(\d{a})(\d{1,2})$`, is characterised by its leftmost match too.
 *
 * The reference the masks are compared against is a template such as
 * `000.000.000-00`: its '0's are filled with the digits in order, and its
 * other characters are copied only while digits remain.
 */
module Masks {
  import opened Seqs
  import opened Text

  /** One position of a fixed-width pattern: `\d`, or a literal character. */
  datatype Atom = Digit | Lit(c: char)

  predicate AtomMatches(a: Atom, c: char) {
    match a
    case Digit => IsDigit(c)
    case Lit(l) => c == l
  }

  /** `\d{n}`. */
  function Digits(n: nat): (p: seq<Atom>)
    ensures |p| == n && forall k :: 0 <= k < n ==> p[k] == Digit
  {
    seq(n, _ => Digit)
  }

  /** `pat` matches the characters of `s` starting at position `i`. */
  predicate MatchesAt(s: string, pat: seq<Atom>, i: nat) {
    i + |pat| <= |s| && forall k :: 0 <= k < |pat| ==> AtomMatches(pat[k], s[i + k])
  }

  /** The leftmost position at or after `from` where `pat` matches. */
  function FirstMatchFrom(s: string, pat: seq<Atom>, from: nat): (r: Option<nat>)
    ensures r.Some? ==> from <= r.value && MatchesAt(s, pat, r.value)
    ensures forall j: nat :: from <= j && (r.None? || j < r.value) ==> !MatchesAt(s, pat, j)
    decreases |s| - from
  {
    if from + |pat| > |s| then None
    else if MatchesAt(s, pat, from) then Some(from)
    else
      assert |pat| > 0;
      FirstMatchFrom(s, pat, from + 1)
  }

  /**
   * A replacement of the shape `lead$1mid$2`: the matched text is kept, with
   * `lead` written before it and `mid` inserted `at` characters into it.
   */
  datatype Insertion = Insertion(lead: string, at: nat, mid: string)

  /** The match starting at `i` rewritten by `ins`; the rest of `s` is kept. */
  function Rewrite(s: string, i: nat, ins: Insertion): string
    requires i + ins.at <= |s|
  {
    s[..i] + ins.lead + s[i..i + ins.at] + ins.mid + s[i + ins.at..]
  }

  /** `s.replace(/pat/, ins)`: the leftmost match, and only it, is rewritten. */
  function ReplaceFirst(s: string, pat: seq<Atom>, ins: Insertion): (r: string)
    requires ins.at <= |pat|
    ensures (forall j: nat :: !MatchesAt(s, pat, j)) ==> r == s
    ensures forall k: nat :: MatchesAt(s, pat, k) && (forall j: nat :: j < k ==> !MatchesAt(s, pat, j)) ==>
              r == Rewrite(s, k, ins)
  {
    match FirstMatchFrom(s, pat, 0)
    case None => s
    case Some(i) => Rewrite(s, i, ins)
  }

  /** `s.replace(/^pat/, ins)`: only a match at the start counts. */
  function ReplaceAtStart(s: string, pat: seq<Atom>, ins: Insertion): string
    requires ins.at <= |pat|
  {
    if MatchesAt(s, pat, 0) then Rewrite(s, 0, ins) else s
  }

  /** `(\d{a})(\d{1,2})$` matches `s` from position `i` to the end. */
  predicate TailMatchesAt(s: string, a: nat, i: nat) {
    i <= |s| && (|s| - i == a + 1 || |s| - i == a + 2) && AllDigits(s[i..])
  }

  /**
   * `s.replace(/(\d{a})(\d{1,2})$/, '$1' + sep + '$2')`: at the leftmost
   * position where the tail matches, `sep` goes after the first `a` digits.
   */
  function ReplaceTail(s: string, a: nat, sep: char): (r: string)
    ensures (forall i: nat :: !TailMatchesAt(s, a, i)) ==> r == s
    ensures forall i: nat :: TailMatchesAt(s, a, i) && (forall j: nat :: j < i ==> !TailMatchesAt(s, a, j)) ==>
              r == s[..i + a] + [sep] + s[i + a..]
  {
    if |s| >= a + 2 && AllDigits(s[|s| - (a + 2)..]) then
      assert TailMatchesAt(s, a, |s| - (a + 2));
      s[..|s| - 2] + [sep] + s[|s| - 2..]
    else if |s| >= a + 1 && AllDigits(s[|s| - (a + 1)..]) then
      assert TailMatchesAt(s, a, |s| - (a + 1));
      s[..|s| - 1] + [sep] + s[|s| - 1..]
    else
      assert forall i: nat :: !TailMatchesAt(s, a, i);
      s
  }

  /** A non-digit closer to the end than `a + 2` leaves no tail for `(\d{a})(\d{1,2})$` to match. */
  lemma TailBlocked(s: string, a: nat, p: nat, sep: char)
    requires p < |s| && !IsDigit(s[p]) && |s| <= p + a + 1
    ensures ReplaceTail(s, a, sep) == s
  {
    if |s| >= a + 2 {
      assert s[|s| - (a + 2)..][p - (|s| - (a + 2))] == s[p];
    }
    if |s| >= a + 1 {
      assert s[|s| - (a + 1)..][p - (|s| - (a + 1))] == s[p];
    }
  }

  /** Every digit of a mask template is a '0' slot. */
  predicate IsTemplate(tpl: string) {
    forall i :: 0 <= i < |tpl| && IsDigit(tpl[i]) ==> tpl[i] == '0'
  }

  /** The number of digit slots of a template. */
  function Slots(tpl: string): nat {
    if |tpl| == 0 then 0 else (if tpl[0] == '0' then 1 else 0) + Slots(tpl[1..])
  }

  predicate IsZeros(z: string) {
    forall i :: 0 <= i < |z| ==> z[i] == '0'
  }

  /** The digits `d` written into the slots of `tpl`. */
  function Template(d: string, tpl: string): (r: string)
    decreases |tpl|
  {
    if |d| == 0 || |tpl| == 0 then ""
    else if tpl[0] == '0' then [d[0]] + Template(d[1..], tpl[1..])
    else [tpl[0]] + Template(d, tpl[1..])
  }

  /** The result never outgrows the template, and a non-empty input gives a non-empty result. */
  lemma {:induction false} TemplateLength(d: string, tpl: string)
    ensures |Template(d, tpl)| <= |tpl|
    ensures |d| > 0 && |tpl| > 0 ==> |Template(d, tpl)| > 0
    decreases |tpl|
  {
    if |d| > 0 && |tpl| > 0 {
      if tpl[0] == '0' {
        TemplateLength(d[1..], tpl[1..]);
      } else {
        TemplateLength(d, tpl[1..]);
      }
    }
  }

  lemma IsTemplateTail(tpl: string)
    requires |tpl| > 0 && IsTemplate(tpl)
    ensures IsTemplate(tpl[1..])
  {
    forall i | 0 <= i < |tpl[1..]| && IsDigit(tpl[1..][i]) ensures tpl[1..][i] == '0' {
      assert tpl[1..][i] == tpl[i + 1];
    }
  }

  /**
   * Deleting the separators from a filled template gives back the digits it
   * had room for, in order.
   */
  lemma {:induction false} TemplateKeepsDigits(d: string, tpl: string)
    requires AllDigits(d) && IsTemplate(tpl)
    ensures OnlyDigits(Template(d, tpl)) == Take(d, Slots(tpl))
    decreases |tpl|
  {
    if |d| == 0 || |tpl| == 0 {
    } else {
      IsTemplateTail(tpl);
      if tpl[0] == '0' {
        var rest := Template(d[1..], tpl[1..]);
        TemplateKeepsDigits(d[1..], tpl[1..]);
        OnlyDigitsAppend([d[0]], rest);
        assert OnlyDigits([d[0]]) == [d[0]];
        assert [d[0]] + Take(d[1..], Slots(tpl[1..])) == Take(d, Slots(tpl));
      } else {
        var rest := Template(d, tpl[1..]);
        TemplateKeepsDigits(d, tpl[1..]);
        OnlyDigitsAppend([tpl[0]], rest);
        assert OnlyDigits([tpl[0]]) == [];
        assert [] + OnlyDigits(rest) == OnlyDigits(rest);
      }
    }
  }

  /** A template whose last character is a slot has at least one slot. */
  lemma {:induction false} SlotsOfEndingSlot(tpl: string)
    requires |tpl| > 0 && tpl[|tpl| - 1] == '0'
    ensures Slots(tpl) >= 1
    decreases |tpl|
  {
    if tpl[0] != '0' {
      SlotsOfEndingSlot(tpl[1..]);
    }
  }

  /** Digits beyond the slots of a template that ends with a slot are ignored. */
  lemma {:induction false} TemplateIgnoresExtra(d: string, tpl: string)
    requires |tpl| == 0 || tpl[|tpl| - 1] == '0'
    ensures Template(d, tpl) == Template(Take(d, Slots(tpl)), tpl)
    decreases |tpl|
  {
    var t := Take(d, Slots(tpl));
    if |d| == 0 || |tpl| == 0 {
    } else if tpl[0] == '0' {
      TemplateIgnoresExtra(d[1..], tpl[1..]);
      assert t[0] == d[0];
      assert t[1..] == Take(d[1..], Slots(tpl[1..]));
    } else {
      SlotsOfEndingSlot(tpl[1..]);
      TemplateIgnoresExtra(d, tpl[1..]);
    }
  }

  /** A run of `|z|` slots takes the next `|z|` digits (or all that are left). */
  lemma {:induction false} TemplateFill(d: string, z: string, rest: string)
    requires IsZeros(z)
    ensures Template(d, z + rest) == if |d| <= |z| then d else d[..|z|] + Template(d[|z|..], rest)
    decreases |z|
  {
    if |z| == 0 {
      assert z + rest == rest;
      if |d| == 0 {
      } else {
        assert d[..0] + Template(d[0..], rest) == Template(d, rest);
      }
    } else if |d| == 0 {
    } else {
      assert (z + rest)[0] == '0';
      assert (z + rest)[1..] == z[1..] + rest;
      TemplateFill(d[1..], z[1..], rest);
      if |d| <= |z| {
        assert [d[0]] + d[1..] == d;
      } else {
        assert [d[0]] + d[1..][..|z| - 1] == d[..|z|];
        assert d[1..][|z| - 1..] == d[|z|..];
      }
    }
  }

  /** A string without slots. */
  predicate NoSlots(sep: string) {
    forall i :: 0 <= i < |sep| ==> sep[i] != '0'
  }

  /** Separators are written only when a digit follows them. */
  lemma {:induction false} TemplateSeparator(d: string, sep: string, rest: string)
    requires NoSlots(sep)
    ensures |d| == 0 ==> Template(d, sep + rest) == ""
    ensures |d| > 0 ==> Template(d, sep + rest) == sep + Template(d, rest)
    decreases |sep|
  {
    if |sep| == 0 {
      assert sep + rest == rest;
    } else if |d| > 0 {
      assert (sep + rest)[0] == sep[0];
      assert (sep + rest)[1..] == sep[1..] + rest;
      TemplateSeparator(d, sep[1..], rest);
      assert [sep[0]] + (sep[1..] + Template(d, rest)) == sep + Template(d, rest);
    }
  }

  /** A run of `n` digits lets `\d{n}` match where it starts. */
  lemma DigitsMatch(s: string, n: nat, i: nat)
    requires i + n <= |s| && forall k :: i <= k < i + n ==> IsDigit(s[k])
    ensures MatchesAt(s, Digits(n), i)
  {
  }

  /** `\d{n}` cannot match across a non-digit. */
  lemma NonDigitBlocks(s: string, n: nat, p: nat)
    requires p < |s| && !IsDigit(s[p])
    ensures forall j: nat :: j <= p < j + n ==> !MatchesAt(s, Digits(n), j)
  {
    forall j: nat | j <= p < j + n
      ensures !MatchesAt(s, Digits(n), j)
    {
      assert !AtomMatches(Digits(n)[p - j], s[j + (p - j)]);
    }
  }

  /** A pattern that starts with a literal cannot match where that literal is absent. */
  lemma LitBlocks(s: string, pat: seq<Atom>, j: nat)
    requires |pat| > 0 && pat[0].Lit? && (j >= |s| || s[j] != pat[0].c)
    ensures !MatchesAt(s, pat, j)
  {
    if j < |s| {
      assert !AtomMatches(pat[0], s[j + 0]);
    }
  }

  /** The CPF layout, `000.000.000-00`. */
  const CpfTemplate: string := "000.000.000-00"

  /** The CNPJ layout, `00.000.000/0000-00`. */
  const CnpjTemplate: string := "00.000.000/0000-00"

  /** The phone layout with area code, `(00) 00000-0000`. */
  const PhoneTemplate: string := "(00) 00000-0000"

  /** Slots and template-ness of a concatenation. */
  lemma {:induction false} SlotsAppend(a: string, b: string)
    ensures Slots(a + b) == Slots(a) + Slots(b)
    decreases |a|
  {
    if |a| == 0 {
      assert a + b == b;
    } else {
      assert (a + b)[1..] == a[1..] + b;
      SlotsAppend(a[1..], b);
    }
  }

  lemma CpfIsTemplate()
    ensures IsTemplate(CpfTemplate)
  {
  }

  /** A group of slots counts each of its places. */
  lemma {:induction false} ZerosSlots(z: string)
    requires IsZeros(z)
    ensures Slots(z) == |z|
    decreases |z|
  {
    if |z| > 0 {
      ZerosSlots(z[1..]);
    }
  }

  /** A separator counts no slots. */
  lemma {:induction false} SeparatorSlots(sep: string)
    requires NoSlots(sep)
    ensures Slots(sep) == 0
    decreases |sep|
  {
    if |sep| > 0 {
      SeparatorSlots(sep[1..]);
    }
  }

  /** A group of slots followed by a separator, counted. */
  lemma SlotsGroup(z: string, sep: string, rest: string)
    requires IsZeros(z) && NoSlots(sep)
    ensures Slots(z + (sep + rest)) == |z| + Slots(rest)
  {
    ZerosSlots(z);
    SeparatorSlots(sep);
    SlotsAppend(sep, rest);
    SlotsAppend(z, sep + rest);
  }

  /** Four groups of slots between separators, counted. */
  lemma FourGroupsSlots(z1: string, s1: string, z2: string, s2: string, z3: string, s3: string, z4: string)
    requires IsZeros(z1) && IsZeros(z2) && IsZeros(z3) && IsZeros(z4)
    requires NoSlots(s1) && NoSlots(s2) && NoSlots(s3)
    ensures Slots(z1 + (s1 + (z2 + (s2 + (z3 + (s3 + z4)))))) == |z1| + |z2| + |z3| + |z4|
  {
    SlotsGroup(z1, s1, z2 + (s2 + (z3 + (s3 + z4))));
    SlotsGroup(z2, s2, z3 + (s3 + z4));
    SlotsGroup(z3, s3, z4);
    ZerosSlots(z4);
  }

  lemma CpfTemplateSlots()
    ensures Slots(CpfTemplate) == 11
  {
    CpfGroups();
    FourGroupsSlots("000", ".", "000", ".", "000", "-", "00");
  }

  lemma CnpjIsTemplate()
    ensures IsTemplate(CnpjTemplate)
  {
  }

  lemma CnpjTemplateSlots()
    ensures Slots(CnpjTemplate) == 14
  {
    CnpjGroups();
    FourGroupsSlots("000", ".", "000", "/", "0000", "-", "00");
    SlotsGroup("00", ".", "000" + ("." + ("000" + ("/" + ("0000" + ("-" + "00"))))));
  }

  lemma PhoneIsTemplate()
    ensures IsTemplate(PhoneTemplate)
  {
  }

  /** A separator in front adds no slots. */
  lemma SlotsAfterSeparator(sep: string, rest: string)
    requires NoSlots(sep)
    ensures Slots(sep + rest) == Slots(rest)
  {
    SeparatorSlots(sep);
    SlotsAppend(sep, rest);
  }

  /** Three groups of slots between separators, counted. */
  lemma ThreeGroupsSlots(z1: string, s1: string, z2: string, s2: string, z3: string)
    requires IsZeros(z1) && IsZeros(z2) && IsZeros(z3) && NoSlots(s1) && NoSlots(s2)
    ensures Slots(z1 + (s1 + (z2 + (s2 + z3)))) == |z1| + |z2| + |z3|
  {
    SlotsGroup(z1, s1, z2 + (s2 + z3));
    SlotsGroup(z2, s2, z3);
    ZerosSlots(z3);
  }

  /** The groups and separators the phone layout is made of. */
  lemma PhonePieces()
    ensures IsZeros("00") && IsZeros("00000") && IsZeros("0000")
    ensures NoSlots("(") && NoSlots(") ") && NoSlots("-")
  {
  }

  lemma PhoneTemplateSlots()
    ensures Slots(PhoneTemplate) == 11
  {
    PhonePieces();
    ThreeGroupsSlots("00", ") ", "00000", "-", "0000");
    SlotsAfterSeparator("(", "00" + (") " + ("00000" + ("-" + "0000"))));
    PhoneGroups();
  }

  /** A group of slots with room for all the remaining digits. */
  lemma TemplateGroupShort(d: string, z: string, tail: string)
    requires IsZeros(z) && |d| <= |z|
    ensures Template(d, z + tail) == d
  {
    TemplateFill(d, z, tail);
  }

  lemma TemplateFillLong(d: string, z: string, tail: string)
    requires IsZeros(z) && |d| > |z|
    ensures Template(d, z + tail) == d[..|z|] + Template(d[|z|..], tail)
  {
    TemplateFill(d, z, tail);
  }

  /** A full group of slots followed by separators, with digits left after it. */
  lemma TemplateGroupLong(d: string, z: string, sep: string, rest: string)
    requires IsZeros(z) && NoSlots(sep) && |d| > |z|
    ensures Template(d, z + (sep + rest)) == d[..|z|] + (sep + Template(d[|z|..], rest))
  {
    TemplateFillLong(d, z, sep + rest);
    TemplateSeparator(d[|z|..], sep, rest);
  }

  /** Regrouping a concatenation of three pieces. */
  lemma Assoc3(a: string, b: string, c: string)
    ensures a + b + c == a + (b + c)
  {
  }

  /** Regrouping a concatenation of four pieces. */
  lemma Assoc4(a: string, b: string, c: string, d: string)
    ensures a + b + c + d == a + (b + (c + d))
  {
  }

  /** Regrouping a concatenation of five pieces. */
  lemma Assoc5(a: string, b: string, c: string, d: string, e: string)
    ensures a + b + c + d + e == a + (b + (c + (d + e)))
  {
  }

  /** Regrouping a concatenation of six pieces. */
  lemma Assoc6(a: string, b: string, c: string, d: string, e: string, f: string)
    ensures a + b + c + d + e + f == a + (b + (c + (d + (e + f))))
  {
    Assoc4(c, d, e, f);
  }

  /** Regrouping a concatenation of seven pieces. */
  lemma Assoc7(a: string, b: string, c: string, d: string, e: string, f: string, g: string)
    ensures a + b + c + d + e + f + g == a + (b + (c + (d + (e + (f + g)))))
  {
    Assoc5(c, d, e, f, g);
  }

  /** Regrouping a concatenation of nine pieces. */
  lemma Assoc9(a: string, b: string, c: string, d: string, e: string, f: string, g: string, h: string, i: string)
    ensures a + b + c + d + e + f + g + h + i == a + (b + (c + (d + (e + (f + (g + (h + i)))))))
  {
    Assoc7(c, d, e, f, g, h, i);
  }

  /** The last group of a template: at most `|z|` more digits. */
  lemma TemplateLastGroup(d: string, z: string)
    requires IsZeros(z)
    ensures Template(d, z) == Take(d, |z|)
  {
    TemplateFill(d, z, "");
    assert z + "" == z;
  }

  /** Slices of a suffix are slices of the whole. */
  lemma SuffixSlices(d: string, k: nat, a: nat, b: nat)
    requires k <= |d| && a <= b <= |d| - k
    ensures d[k..][..a] == d[k..k + a]
    ensures d[k..][a..b] == d[k + a..k + b]
    ensures d[k..][a..] == d[k + a..]
  {
  }

  /** Two groups: the separator appears once the first group is full and a digit follows. */
  lemma TwoGroups(d: string, z1: string, s1: string, z2: string)
    requires IsZeros(z1) && IsZeros(z2) && NoSlots(s1)
    ensures |d| <= |z1| ==> Template(d, z1 + (s1 + z2)) == d
    ensures |d| > |z1| ==> Template(d, z1 + (s1 + z2)) == d[..|z1|] + (s1 + Take(d[|z1|..], |z2|))
  {
    if |d| <= |z1| {
      TemplateGroupShort(d, z1, s1 + z2);
    } else {
      TemplateGroupLong(d, z1, s1, z2);
      TemplateLastGroup(d[|z1|..], z2);
    }
  }

  /** Slices of the digits after a first group, by the lengths of the next groups. */
  lemma GroupSlices2(d: string, z1: string, z2: string)
    requires |z1| + |z2| <= |d|
    ensures d[|z1|..][..|z2|] == d[|z1|..|z1| + |z2|]
    ensures d[|z1|..][|z2|..] == d[|z1| + |z2|..]
  {
  }

  /** Slices of the digits after a first group, by the lengths of the next two groups. */
  lemma GroupSlices3(d: string, z1: string, z2: string, z3: string)
    requires |z1| + |z2| + |z3| <= |d|
    ensures d[|z1|..][..|z2|] == d[|z1|..|z1| + |z2|]
    ensures d[|z1|..][|z2|..|z2| + |z3|] == d[|z1| + |z2|..|z1| + |z2| + |z3|]
    ensures d[|z1|..][|z2| + |z3|..] == d[|z1| + |z2| + |z3|..]
  {
  }

  /** Three groups, with digits left for the last one. */
  lemma ThreeGroupsFull(d: string, z1: string, s1: string, z2: string, s2: string, z3: string)
    requires IsZeros(z1) && IsZeros(z2) && IsZeros(z3) && NoSlots(s1) && NoSlots(s2)
    requires |z1| + |z2| < |d|
    ensures Template(d, z1 + (s1 + (z2 + (s2 + z3)))) ==
            d[..|z1|] + (s1 + (d[|z1|..|z1| + |z2|] + (s2 + Take(d[|z1| + |z2|..], |z3|))))
  {
    var e := d[|z1|..];
    TemplateGroupLong(d, z1, s1, z2 + (s2 + z3));
    TemplateGroupLong(e, z2, s2, z3);
    TemplateLastGroup(e[|z2|..], z3);
    GroupSlices2(d, z1, z2);
  }

  /** Three groups, filled group by group as the digits run out. */
  lemma ThreeGroups(d: string, z1: string, s1: string, z2: string, s2: string, z3: string)
    requires IsZeros(z1) && IsZeros(z2) && IsZeros(z3) && NoSlots(s1) && NoSlots(s2)
    ensures |d| <= |z1| ==> Template(d, z1 + (s1 + (z2 + (s2 + z3)))) == d
    ensures |z1| < |d| <= |z1| + |z2| ==>
              Template(d, z1 + (s1 + (z2 + (s2 + z3)))) == d[..|z1|] + (s1 + d[|z1|..])
    ensures |z1| + |z2| < |d| ==>
              Template(d, z1 + (s1 + (z2 + (s2 + z3)))) ==
              d[..|z1|] + (s1 + (d[|z1|..|z1| + |z2|] + (s2 + Take(d[|z1| + |z2|..], |z3|))))
  {
    if |d| <= |z1| {
      TemplateGroupShort(d, z1, s1 + (z2 + (s2 + z3)));
    } else if |d| <= |z1| + |z2| {
      TemplateGroupLong(d, z1, s1, z2 + (s2 + z3));
      TemplateGroupShort(d[|z1|..], z2, s2 + z3);
    } else {
      ThreeGroupsFull(d, z1, s1, z2, s2, z3);
    }
  }

  /** The last three of four groups, with digits left for the last one. */
  lemma ThreeGroupsAfter(d: string, z1: string, z2: string, s2: string, z3: string, s3: string, z4: string)
    requires IsZeros(z2) && IsZeros(z3) && IsZeros(z4) && NoSlots(s2) && NoSlots(s3)
    requires |z1| + |z2| + |z3| < |d|
    ensures Template(d[|z1|..], z2 + (s2 + (z3 + (s3 + z4)))) ==
            d[|z1|..|z1| + |z2|] + (s2 + (d[|z1| + |z2|..|z1| + |z2| + |z3|] + (s3 + Take(d[|z1| + |z2| + |z3|..], |z4|))))
  {
    ThreeGroupsFull(d[|z1|..], z2, s2, z3, s3, z4);
    GroupSlices3(d, z1, z2, z3);
  }

  /** Four groups, with digits left for the last one. */
  lemma FourGroupsFull(d: string, z1: string, s1: string, z2: string, s2: string, z3: string, s3: string, z4: string)
    requires IsZeros(z1) && IsZeros(z2) && IsZeros(z3) && IsZeros(z4)
    requires NoSlots(s1) && NoSlots(s2) && NoSlots(s3)
    requires |z1| + |z2| + |z3| < |d|
    ensures Template(d, z1 + (s1 + (z2 + (s2 + (z3 + (s3 + z4)))))) ==
            d[..|z1|] + (s1 + (d[|z1|..|z1| + |z2|] + (s2 + (d[|z1| + |z2|..|z1| + |z2| + |z3|] + (s3
            + Take(d[|z1| + |z2| + |z3|..], |z4|))))))
  {
    TemplateGroupLong(d, z1, s1, z2 + (s2 + (z3 + (s3 + z4))));
    ThreeGroupsAfter(d, z1, z2, s2, z3, s3, z4);
  }

  /** Four groups, with the digits running out in the third. */
  lemma FourGroupsThird(d: string, z1: string, s1: string, z2: string, s2: string, z3: string, s3: string, z4: string)
    requires IsZeros(z1) && IsZeros(z2) && IsZeros(z3) && IsZeros(z4)
    requires NoSlots(s1) && NoSlots(s2) && NoSlots(s3)
    requires |z1| + |z2| < |d| <= |z1| + |z2| + |z3|
    ensures Template(d, z1 + (s1 + (z2 + (s2 + (z3 + (s3 + z4)))))) ==
            d[..|z1|] + (s1 + (d[|z1|..|z1| + |z2|] + (s2 + d[|z1| + |z2|..])))
  {
    var e := d[|z1|..];
    TemplateGroupLong(d, z1, s1, z2 + (s2 + (z3 + (s3 + z4))));
    TemplateGroupLong(e, z2, s2, z3 + (s3 + z4));
    TemplateGroupShort(e[|z2|..], z3, s3 + z4);
    GroupSlices2(d, z1, z2);
  }

  /** Four groups, with the digits running out in the first or second. */
  lemma FourGroupsSecond(d: string, z1: string, s1: string, z2: string, s2: string, z3: string, s3: string, z4: string)
    requires IsZeros(z1) && IsZeros(z2) && NoSlots(s1)
    requires |d| <= |z1| + |z2|
    ensures |d| <= |z1| ==> Template(d, z1 + (s1 + (z2 + (s2 + (z3 + (s3 + z4)))))) == d
    ensures |z1| < |d| ==>
              Template(d, z1 + (s1 + (z2 + (s2 + (z3 + (s3 + z4)))))) == d[..|z1|] + (s1 + d[|z1|..])
  {
    if |d| <= |z1| {
      TemplateGroupShort(d, z1, s1 + (z2 + (s2 + (z3 + (s3 + z4)))));
    } else {
      TemplateGroupLong(d, z1, s1, z2 + (s2 + (z3 + (s3 + z4))));
      TemplateGroupShort(d[|z1|..], z2, s2 + (z3 + (s3 + z4)));
    }
  }

  /** The CPF layout as groups of slots and separators. */
  lemma CpfGroups()
    ensures CpfTemplate == "000" + ("." + ("000" + ("." + ("000" + ("-" + "00")))))
  {
  }

  /** The CNPJ layout as groups of slots and separators. */
  lemma CnpjGroups()
    ensures CnpjTemplate == "00" + ("." + ("000" + ("." + ("000" + ("/" + ("0000" + ("-" + "00")))))))
  {
  }

  /** The phone layout as groups of slots and separators. */
  lemma PhoneGroups()
    ensures PhoneTemplate == "(" + ("00" + (") " + ("00000" + ("-" + "0000"))))
  {
  }

  /** `s.replace(/(\d{run})(\d)/, '$1' + sep + '$2')`: `sep` goes after the first run of `run` digits that has a digit after it. */
  function InsertAfterRun(s: string, run: nat, sep: string): string {
    ReplaceFirst(s, RunAndDigit(run), Insertion("", run, sep))
  }

  /** `(\d{run})(\d)`. */
  function RunAndDigit(run: nat): (p: seq<Atom>)
    ensures |p| == run + 1
  {
    Digits(run + 1)
  }

  /** A run of `run + 1` digits lets `(\d{run})(\d)` match where it starts. */
  lemma RunAndDigitMatch(s: string, run: nat, k: nat)
    requires k + run + 1 <= |s|
    requires forall i :: k <= i < k + run + 1 ==> IsDigit(s[i])
    ensures MatchesAt(s, RunAndDigit(run), k)
  {
    var p := RunAndDigit(run);
    forall i | 0 <= i < |p|
      ensures AtomMatches(p[i], s[k + i])
    {
      assert IsDigit(s[k + i]);
    }
  }

  /** The first run of `run + 1` digits starts at `k`: `sep` goes in at `m = k + run`. */
  lemma InsertAfterRunAt(s: string, run: nat, sep: string, k: nat, m: nat)
    requires m == k + run && m + 1 <= |s|
    requires forall i :: k <= i < k + run + 1 ==> IsDigit(s[i])
    requires forall j: nat :: j < k ==> !MatchesAt(s, RunAndDigit(run), j)
    ensures InsertAfterRun(s, run, sep) == s[..m] + sep + s[m..]
  {
    RunAndDigitMatch(s, run, k);
    var ins := Insertion("", run, sep);
    assert InsertAfterRun(s, run, sep) == Rewrite(s, k, ins);
    EmptyLead(s, k, run);
  }

  /** An empty lead leaves the text before the insertion point whole. */
  lemma EmptyLead(s: string, k: nat, run: nat)
    requires k + run <= |s|
    ensures s[..k] + "" + s[k..k + run] == s[..k + run]
  {
    assert s[..k] + "" == s[..k];
    assert s[..k] + s[k..k + run] == s[..k + run];
  }

  lemma InsertAfterRunNone(s: string, run: nat, sep: string)
    requires forall j: nat :: !MatchesAt(s, RunAndDigit(run), j)
    ensures InsertAfterRun(s, run, sep) == s
  {
  }
}
