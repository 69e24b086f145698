/**
 * Stored amounts of the ledger records. An amount is held exactly, in cents;
 * a record without one (or with a falsy one) reads as zero under `x || 0`
 * and shows as the empty text under `String(x || '')`.
 */
module Amounts {
  import opened Seqs
  import opened Text
  import opened Numbers
  import opened DecimalText
  import opened ReadBack

  /** `parseFloat(x || 0)` for a stored amount. */
  function AmountOf(v: Option<int>): real {
    if v.Some? then v.value as real / 100.0 else 0.0
  }

  /** `String(x || '')` for a stored amount: the text a form shows when it opens a record. */
  function AmountText(v: Option<int>): string {
    if v.None? || v.value == 0 then "" else NumberText(v.value)
  }

  lemma ParseFloatEmpty()
    ensures ParseFloat("") == None
  {
    assert TrimStart("") == "";
    assert ParseSigned("") == ParseUnsigned("");
    assert LeadingDigits("") == 0;
    assert FractionDigits("") == "";
    assert ParseUnsigned("") == None;
  }

  /** Reading back the text of a non-zero amount gives the amount; the empty text is NaN. */
  lemma ReadAmountText(v: Option<int>)
    ensures v.None? || v.value == 0 ==> ParseFloat(AmountText(v)) == None
    ensures v.Some? && v.value != 0 ==> ParseFloat(AmountText(v)) == Some(AmountOf(v))
  {
    if v.None? || v.value == 0 {
      assert AmountText(v) == "";
      ParseFloatEmpty();
    } else {
      ReadNonZeroText(v.value);
    }
  }

  lemma ReadNonZeroText(c: int)
    requires c != 0
    ensures ParseFloat(AmountText(Some(c))) == Some(AmountOf(Some(c)))
  {
    assert AmountText(Some(c)) == NumberText(c);
    assert AmountOf(Some(c)) == c as real / 100.0;
    assert ParseFloat(NumberText(c)) == Some(c as real / 100.0) by { ParseNumberText(c); }
  }

  /** A missing amount and a non-negative one never read below zero. */
  lemma AmountNonNegative(v: Option<int>)
    requires v.None? || v.value >= 0
    ensures AmountOf(v) >= 0.0
  {
  }
}
