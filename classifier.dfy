/** `detect_document_type`: a first-match-wins chain over the first page's
    text and the document title, each outcome paired with the storage
    subfolder it is filed under. */
module Classifier {
  import opened Text

  datatype DocType = UTO | CMO | Pleading | Discovery | Deposition | Order | Other | Unknown

  /** One link of the chain: it fires when one of `inText` occurs in the
      upper-cased first page or one of `inTitle` in the upper-cased title. */
  datatype Rule = Rule(inText: seq<string>, inTitle: seq<string>, kind: DocType, subfolder: string)

  /** The chain, in the order the source tries it. */
  const Rules: seq<Rule> := [
    Rule(["UNIFORM TRIAL ORDER"], [], UTO, "09 Orders"),
    Rule(["CASE MANAGEMENT ORDER"], [], CMO, "09 Orders"),
    Rule([], ["PLEADING", "COMPLAINT", "ANSWER"], Pleading, "02 Pleadings"),
    Rule([], ["DISCOVERY", "INTERROGATOR", "REQUEST FOR PRODUCTION", "RFP", "RFA"], Discovery, "03 Discovery"),
    Rule([], ["DEPOSITION"], Deposition, "04 Depositions"),
    Rule([], ["ORDER", "NOTICE OF HEARING"], Order, "09 Orders")
  ]

  /** What the chain falls back to when no rule fires. */
  const Default: (DocType, string) := (Other, "03 Discovery")

  /** Some key of `keys` occurs in `s`. */
  predicate AnyIn(s: string, keys: seq<string>) {
    keys != [] && (Contains(s, keys[0]) || AnyIn(s, keys[1..]))
  }

  predicate Fires(rule: Rule, textU: string, titleU: string) {
    AnyIn(textU, rule.inText) || AnyIn(titleU, rule.inTitle)
  }

  /** The outcome of the first rule that fires, or the default. */
  function FirstFiring(rules: seq<Rule>, textU: string, titleU: string): (r: (DocType, string))
    ensures forall k :: 0 <= k < |rules| && Fires(rules[k], textU, titleU) && (forall j :: 0 <= j < k ==> !Fires(rules[j], textU, titleU)) ==>
      r == (rules[k].kind, rules[k].subfolder)
    ensures (forall k :: 0 <= k < |rules| ==> !Fires(rules[k], textU, titleU)) ==> r == Default
  {
    if rules == [] then Default
    else if Fires(rules[0], textU, titleU) then (rules[0].kind, rules[0].subfolder)
    else
      var r := FirstFiring(rules[1..], textU, titleU);
      assert forall k :: 1 <= k < |rules| ==> rules[1..][k - 1] == rules[k];
      r
  }

  /** `detect_document_type` on the first page's text (`None` when the PDF
      has no pages) and the title. The checks are the source's if-chain; its
      contract says the chain is the rule table above, tried in order. */
  function DetectDocumentType(firstPage: Option<string>, title: string): (r: (DocType, string))
    ensures firstPage.None? ==> r == (Unknown, "03 Discovery")
    ensures firstPage.Some? ==> r == FirstFiring(Rules, UpperStr(firstPage.value), UpperStr(title))
    ensures r.1 != ""
    ensures r.0 == UTO <==> firstPage.Some? && Contains(UpperStr(firstPage.value), "UNIFORM TRIAL ORDER")
    ensures r.0 == CMO <==>
      (firstPage.Some? && !Contains(UpperStr(firstPage.value), "UNIFORM TRIAL ORDER")
       && Contains(UpperStr(firstPage.value), "CASE MANAGEMENT ORDER"))
  {
    match firstPage
    case None => (Unknown, "03 Discovery")
    case Some(text) =>
      var textU := UpperStr(text);
      var titleU := UpperStr(title);
      FiringChain(textU, titleU);
      FirstOfSix(Rules, textU, titleU);
      if Contains(textU, "UNIFORM TRIAL ORDER") then (UTO, "09 Orders")
      else if Contains(textU, "CASE MANAGEMENT ORDER") then (CMO, "09 Orders")
      else if Contains(titleU, "PLEADING") || Contains(titleU, "COMPLAINT") || Contains(titleU, "ANSWER") then
        (Pleading, "02 Pleadings")
      else if Contains(titleU, "DISCOVERY") || Contains(titleU, "INTERROGATOR") || Contains(titleU, "REQUEST FOR PRODUCTION")
           || Contains(titleU, "RFP") || Contains(titleU, "RFA") then
        (Discovery, "03 Discovery")
      else if Contains(titleU, "DEPOSITION") then (Deposition, "04 Depositions")
      else if Contains(titleU, "ORDER") || Contains(titleU, "NOTICE OF HEARING") then (Order, "09 Orders")
      else (Other, "03 Discovery")
  }

  /** Unfolds the rule table, one rule at a time. */
  lemma FiringChain(textU: string, titleU: string)
    ensures Fires(Rules[0], textU, titleU) <==> Contains(textU, "UNIFORM TRIAL ORDER")
    ensures Fires(Rules[1], textU, titleU) <==> Contains(textU, "CASE MANAGEMENT ORDER")
    ensures Fires(Rules[2], textU, titleU) <==>
      Contains(titleU, "PLEADING") || Contains(titleU, "COMPLAINT") || Contains(titleU, "ANSWER")
    ensures Fires(Rules[3], textU, titleU) <==>
      Contains(titleU, "DISCOVERY") || Contains(titleU, "INTERROGATOR") || Contains(titleU, "REQUEST FOR PRODUCTION")
      || Contains(titleU, "RFP") || Contains(titleU, "RFA")
    ensures Fires(Rules[4], textU, titleU) <==> Contains(titleU, "DEPOSITION")
    ensures Fires(Rules[5], textU, titleU) <==> Contains(titleU, "ORDER") || Contains(titleU, "NOTICE OF HEARING")
  {
    assert Rules[0].inText[0] == "UNIFORM TRIAL ORDER" && Rules[0].inText[1..] == [];
    assert AnyIn(textU, Rules[0].inText) <==> Contains(textU, "UNIFORM TRIAL ORDER");
    assert !AnyIn(titleU, Rules[0].inTitle);
    assert Rules[1].inText[0] == "CASE MANAGEMENT ORDER" && Rules[1].inText[1..] == [];
    assert AnyIn(textU, Rules[1].inText) <==> Contains(textU, "CASE MANAGEMENT ORDER");
    assert !AnyIn(titleU, Rules[1].inTitle);
    AnyInThree(titleU, Rules[2].inTitle, "PLEADING", "COMPLAINT", "ANSWER");
    assert !AnyIn(textU, Rules[2].inText);
    var d2: seq<string> := ["RFP", "RFA"];
    assert Rules[3].inTitle[2..] == ["REQUEST FOR PRODUCTION"] + d2;
    AnyInTwo(titleU, d2, "RFP", "RFA");
    AnyInThree(titleU, Rules[3].inTitle, "DISCOVERY", "INTERROGATOR", "REQUEST FOR PRODUCTION");
    assert !AnyIn(textU, Rules[3].inText);
    assert Rules[4].inTitle[0] == "DEPOSITION" && Rules[4].inTitle[1..] == [];
    assert !AnyIn(textU, Rules[4].inText);
    AnyInTwo(titleU, Rules[5].inTitle, "ORDER", "NOTICE OF HEARING");
    assert !AnyIn(textU, Rules[5].inText);
  }

  /** `FirstFiring` over a table of six rules, written out. */
  lemma FirstOfSix(rules: seq<Rule>, textU: string, titleU: string)
    requires |rules| == 6
    ensures FirstFiring(rules, textU, titleU) ==
      if Fires(rules[0], textU, titleU) then (rules[0].kind, rules[0].subfolder)
      else if Fires(rules[1], textU, titleU) then (rules[1].kind, rules[1].subfolder)
      else if Fires(rules[2], textU, titleU) then (rules[2].kind, rules[2].subfolder)
      else if Fires(rules[3], textU, titleU) then (rules[3].kind, rules[3].subfolder)
      else if Fires(rules[4], textU, titleU) then (rules[4].kind, rules[4].subfolder)
      else if Fires(rules[5], textU, titleU) then (rules[5].kind, rules[5].subfolder)
      else Default
  {
    var r1 := rules[1..];
    var r2 := r1[1..];
    var r3 := r2[1..];
    var r4 := r3[1..];
    var r5 := r4[1..];
    assert r1[0] == rules[1] && r2[0] == rules[2] && r3[0] == rules[3] && r4[0] == rules[4] && r5[0] == rules[5];
    assert r5[1..] == [];
    assert FirstFiring(r5, textU, titleU) == if Fires(rules[5], textU, titleU) then (rules[5].kind, rules[5].subfolder) else Default;
    assert FirstFiring(r4, textU, titleU) == if Fires(rules[4], textU, titleU) then (rules[4].kind, rules[4].subfolder) else FirstFiring(r5, textU, titleU);
    assert FirstFiring(r3, textU, titleU) == if Fires(rules[3], textU, titleU) then (rules[3].kind, rules[3].subfolder) else FirstFiring(r4, textU, titleU);
    assert FirstFiring(r2, textU, titleU) == if Fires(rules[2], textU, titleU) then (rules[2].kind, rules[2].subfolder) else FirstFiring(r3, textU, titleU);
  }

  /** Unfolds `AnyIn` over a list of two keys. */
  lemma AnyInTwo(s: string, keys: seq<string>, a: string, b: string)
    requires keys == [a, b]
    ensures AnyIn(s, keys) <==> Contains(s, a) || Contains(s, b)
  {
    assert keys[1..] == [b] && keys[1..][1..] == [];
    assert AnyIn(s, keys) == (Contains(s, a) || AnyIn(s, [b]));
    assert AnyIn(s, [b]) == (Contains(s, b) || AnyIn(s, []));
  }

  /** Unfolds `AnyIn` over the first three keys of a list; the rest of the
      list is whatever follows them. */
  lemma AnyInThree(s: string, keys: seq<string>, a: string, b: string, c: string)
    requires |keys| >= 3 && keys[0] == a && keys[1] == b && keys[2] == c
    ensures AnyIn(s, keys) <==> Contains(s, a) || Contains(s, b) || Contains(s, c) || AnyIn(s, keys[3..])
  {
    assert keys[1..][1..][1..] == keys[3..];
    assert AnyIn(s, keys) == (Contains(s, a) || AnyIn(s, keys[1..]));
    assert AnyIn(s, keys[1..]) == (Contains(s, b) || AnyIn(s, keys[1..][1..]));
    assert AnyIn(s, keys[1..][1..]) == (Contains(s, c) || AnyIn(s, keys[3..]));
  }

  /** First match wins: a title with both "ANSWER" and "INTERROGATOR" is a
      pleading, unless the first page is a UTO or CMO. */
  lemma AnswerBeatsInterrogatories(firstPage: string, title: string)
    requires Contains(UpperStr(title), "ANSWER") && Contains(UpperStr(title), "INTERROGATOR")
    requires !Contains(UpperStr(firstPage), "UNIFORM TRIAL ORDER") && !Contains(UpperStr(firstPage), "CASE MANAGEMENT ORDER")
    ensures DetectDocumentType(Some(firstPage), title) == (Pleading, "02 Pleadings")
  {
  }

  /** Every outcome is filed in one of the four subfolders. */
  lemma {:induction false} SubfolderIsKnown(firstPage: Option<string>, title: string)
    ensures DetectDocumentType(firstPage, title).1 in {"09 Orders", "02 Pleadings", "03 Discovery", "04 Depositions"}
  {
    if firstPage.Some? {
      var textU, titleU := UpperStr(firstPage.value), UpperStr(title);
      FiringOutcome(Rules, textU, titleU);
      if FirstFiring(Rules, textU, titleU) != Default {
        var k :| 0 <= k < |Rules| && FirstFiring(Rules, textU, titleU) == (Rules[k].kind, Rules[k].subfolder);
        assert k == 0 || k == 1 || k == 2 || k == 3 || k == 4 || k == 5;
      }
    }
  }

  /** The chain's outcome is the default or the outcome of one of its rules. */
  lemma {:induction false} FiringOutcome(rules: seq<Rule>, textU: string, titleU: string)
    ensures FirstFiring(rules, textU, titleU) == Default
      || exists k :: 0 <= k < |rules| && FirstFiring(rules, textU, titleU) == (rules[k].kind, rules[k].subfolder)
  {
    if rules != [] && !Fires(rules[0], textU, titleU) {
      FiringOutcome(rules[1..], textU, titleU);
      if FirstFiring(rules, textU, titleU) != Default {
        var k :| 0 <= k < |rules[1..]| && FirstFiring(rules[1..], textU, titleU) == (rules[1..][k].kind, rules[1..][k].subfolder);
        assert rules[1..][k] == rules[k + 1];
      }
    }
  }

  /** Only an unreadable PDF is of unknown type. */
  lemma ReadableHasType(firstPage: string, title: string)
    ensures DetectDocumentType(Some(firstPage), title).0 != Unknown
  {
    FiringChain(UpperStr(firstPage), UpperStr(title));
  }
}
