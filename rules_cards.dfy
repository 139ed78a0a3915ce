/**
 * The electoral-rules cards: whether a rule's verdict reads as "allowed",
 * decided on its English text whatever the page's language, and the icon shown
 * for a rule key.
 */
module RulesCards {
  import opened Strings
  import SharedTypes

  /**
   * `isAllowedVerdict`: the lowered verdict mentions "allowed" and does not
   * mention "not allowed".
   */
  predicate IsAllowedVerdict(verdictEn: string) {
    Contains(Lower(verdictEn), "allowed") && !Contains(Lower(verdictEn), "not allowed")
  }

  /** The test ignores case: a verdict and its lowered form are classified alike. */
  lemma {:induction false} VerdictIgnoresCase(verdict: string)
    ensures IsAllowedVerdict(verdict) <==> IsAllowedVerdict(Lower(verdict))
  {
    LowerIdempotent(verdict);
  }

  /**
   * A verdict is allowed iff its lowered text mentions "allowed" and never
   * "not allowed"; in particular every "not allowed" verdict, which also
   * mentions "allowed", is refused.
   */
  lemma {:induction false} NotAllowedRefused(verdict: string)
    ensures Contains(Lower(verdict), "not allowed") ==> Contains(Lower(verdict), "allowed") && !IsAllowedVerdict(verdict)
    ensures !Contains(Lower(verdict), "allowed") ==> !IsAllowedVerdict(verdict)
  {
    if Contains(Lower(verdict), "not allowed") {
      assert "not allowed" == "not " + "allowed";
      ContainsSuffixOf(Lower(verdict), "not ", "allowed");
    }
  }

  /** A concrete pair: "Not Allowed" is refused and "Allowed" accepted. */
  lemma {:induction false} VerdictExamples()
    ensures !IsAllowedVerdict("Not Allowed")
    ensures IsAllowedVerdict("Allowed")
  {
    assert Lower("Allowed") == "allowed";
    assert OccursAt(Lower("Allowed"), "allowed", 0);
    assert Lower("Not Allowed") == "not allowed";
    assert OccursAt(Lower("Not Allowed"), "not allowed", 0);
  }

  /** A rule card: its key and its action and verdict in the three languages. */
  datatype Rule = Rule(key: string, action: SharedTypes.Translation, verdict: SharedTypes.Translation)

  /**
   * The card's allowed/refused colouring. It is read off the English verdict
   * alone, so the page's language cannot change it: that fact is structural
   * and takes no proof.
   */
  predicate CardIsAllowed(r: Rule) {
    IsAllowedVerdict(r.verdict.en)
  }

  datatype Icon = Camera | Megaphone | HeartHandshake

  /** `ruleIcons[rule.key] || Camera`. */
  function RuleIcon(key: string): (r: Icon)
    ensures r == Megaphone <==> key == "inside_center_campaign"
    ensures r == HeartHandshake <==> key == "ask_help_disability"
    ensures key !in {"secrecy_photo", "inside_center_campaign", "ask_help_disability"} ==> r == Camera
  {
    if key == "inside_center_campaign" then Megaphone
    else if key == "ask_help_disability" then HeartHandshake
    else Camera
  }
}
