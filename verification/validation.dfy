/**
 * Ordered form validation as the registration screens do it: the checks run
 * in a fixed order and the first one that fails decides the message shown.
 */
module Validation {
  import opened Seqs

  /** One check of a form, with the message it shows when it fails. */
  datatype Rule = Rule(holds: bool, message: string)

  /** The message of the first rule that fails, if any. */
  function FirstFailure(rules: seq<Rule>): (r: Option<string>)
    ensures r.None? <==> forall i :: 0 <= i < |rules| ==> rules[i].holds
    ensures r.Some? ==> exists i :: 0 <= i < |rules| && !rules[i].holds && rules[i].message == r.value &&
                          forall j :: 0 <= j < i ==> rules[j].holds
  {
    if |rules| == 0 then None
    else if !rules[0].holds then Some(rules[0].message)
    else
      var r := FirstFailure(rules[1..]);
      assert forall i :: 1 <= i < |rules| ==> rules[i] == rules[1..][i - 1];
      r
  }

  /** Reading the rules from position `k` on. */
  lemma FirstFailureAt(rules: seq<Rule>, k: nat)
    requires k < |rules|
    ensures FirstFailure(rules[k..]) ==
            if rules[k].holds then FirstFailure(rules[k + 1..]) else Some(rules[k].message)
  {
    assert rules[k..][1..] == rules[k + 1..];
  }

  /** Checking from the first rule is the whole validation, and past the last rule nothing fails. */
  lemma FirstFailureEnds(rules: seq<Rule>)
    ensures FirstFailure(rules[0..]) == FirstFailure(rules)
    ensures FirstFailure(rules[|rules|..]) == None
  {
    assert rules[0..] == rules;
  }
}
