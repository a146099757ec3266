/** The essential-section check: a section is present when one of its
    keywords occurs in the lower-cased text; the score is the sum of the
    weights of the present sections; the required sections that are absent
    are listed in declaration order. */
module Sections {
  import opened Text

  datatype SectionRule = SectionRule(
    name: string, keywords: seq<string>, weight: nat, required: bool, description: string)

  /** The fixed, ordered section table. */
  const Rules: seq<SectionRule> := [
    SectionRule("Contact Information",
      ["email", "@", "phone", "linkedin", "github", "portfolio"], 15, true,
      "Email, phone, and professional profiles"),
    SectionRule("Professional Summary/Objective",
      ["summary", "objective", "profile", "about", "overview"], 10, false,
      "Brief professional summary or career objective"),
    SectionRule("Work Experience",
      ["experience", "work", "employment", "intern", "job", "position", "role"], 25, true,
      "Professional work experience and internships"),
    SectionRule("Education",
      ["education", "university", "degree", "bachelor", "master", "college", "cgpa", "gpa"], 15, true,
      "Educational background and qualifications"),
    SectionRule("Technical Skills",
      ["skills", "technologies", "programming", "languages", "frameworks", "tools"], 20, true,
      "Technical skills and programming languages"),
    SectionRule("Projects",
      ["projects", "portfolio", "developed", "built", "created", "github"], 10, false,
      "Personal or academic projects"),
    SectionRule("Certifications",
      ["certification", "certified", "certificate", "course", "training"], 5, false,
      "Professional certifications and courses")
  ]

  /** The `maxScore` the section check reports. */
  const DeclaredMaxScore: nat := 80

  /** The entry of the per-section map, in table order. */
  datatype SectionStatus = SectionStatus(
    name: string, found: bool, weight: nat, required: bool, description: string)

  datatype SectionResult = SectionResult(
    score: nat, maxScore: nat, sections: seq<SectionStatus>, missingSections: seq<string>)

  /** `section.keywords.some(k => textLower.includes(k))` */
  predicate Found(rule: SectionRule, textLower: string) {
    exists k | k in rule.keywords :: Contains(textLower, k)
  }

  function Status(rule: SectionRule, textLower: string): SectionStatus {
    SectionStatus(rule.name, Found(rule, textLower), rule.weight, rule.required, rule.description)
  }

  /** Sum of all weights of a table. */
  function TotalWeight(rules: seq<SectionRule>): nat {
    if rules == [] then 0 else TotalWeight(DropLast(rules)) + Last(rules).weight
  }

  /** Sum of the weights of the rules found in the text. */
  function FoundWeight(rules: seq<SectionRule>, textLower: string): nat {
    if rules == [] then 0
    else FoundWeight(DropLast(rules), textLower)
         + (if Found(Last(rules), textLower) then Last(rules).weight else 0)
  }

  /** Names of the required rules not found in the text, in table order. */
  function Missing(rules: seq<SectionRule>, textLower: string): seq<string> {
    if rules == [] then []
    else Missing(DropLast(rules), textLower)
         + (if !Found(Last(rules), textLower) && Last(rules).required then [Last(rules).name] else [])
  }

  function Statuses(rules: seq<SectionRule>, textLower: string): (r: seq<SectionStatus>)
    ensures |r| == |rules|
    ensures forall i :: 0 <= i < |rules| ==> r[i] == Status(rules[i], textLower)
  {
    if rules == [] then [] else Statuses(DropLast(rules), textLower) + [Status(Last(rules), textLower)]
  }

  /** `checkEssentialSections` as a function of the text. */
  function Essential(text: string): SectionResult {
    SectionResult(FoundWeight(Rules, Lower(text)), DeclaredMaxScore, Statuses(Rules, Lower(text)),
                  Missing(Rules, Lower(text)))
  }

  /** `checkEssentialSections(text)` */
  method CheckEssentialSections(text: string) returns (r: SectionResult)
    ensures r == Essential(text)
    ensures r.score <= TotalWeight(Rules) == 100
  {
    var textLower := Lower(text);
    var totalScore := 0;
    var sectionResults: seq<SectionStatus> := [];
    var missingSections: seq<string> := [];
    var i := 0;
    while i < |Rules|
      invariant 0 <= i <= |Rules|
      invariant totalScore == FoundWeight(Rules[..i], textLower)
      invariant missingSections == Missing(Rules[..i], textLower)
      invariant sectionResults == Statuses(Rules[..i], textLower)
    {
      var section := Rules[i];
      assert Rules[..i + 1] != [] && DropLast(Rules[..i + 1]) == Rules[..i] && Last(Rules[..i + 1]) == section;
      var hasSection := exists k | k in section.keywords :: Contains(textLower, k);
      sectionResults := sectionResults
        + [SectionStatus(section.name, hasSection, section.weight, section.required, section.description)];
      if hasSection {
        totalScore := totalScore + section.weight;
      } else if section.required {
        missingSections := missingSections + [section.name];
      }
      i := i + 1;
    }
    assert Rules[..i] == Rules;
    FoundWeightAtMostTotal(Rules, textLower);
    TotalWeightIs100();
    r := SectionResult(totalScore, DeclaredMaxScore, sectionResults, missingSections);
  }

  /** The found weight never exceeds the total; it equals the total when
      every rule is found, and, when every weight is positive, only then. */
  lemma {:induction false} FoundWeightAtMostTotal(rules: seq<SectionRule>, textLower: string)
    ensures FoundWeight(rules, textLower) <= TotalWeight(rules)
    ensures FoundWeight(rules, textLower) == TotalWeight(rules)
            <== forall j :: 0 <= j < |rules| ==> Found(rules[j], textLower)
    ensures (forall j :: 0 <= j < |rules| ==> rules[j].weight > 0)
            && FoundWeight(rules, textLower) == TotalWeight(rules)
            ==> forall j :: 0 <= j < |rules| ==> Found(rules[j], textLower)
  {
    if rules != [] {
      var init := DropLast(rules);
      FoundWeightAtMostTotal(init, textLower);
      assert forall j :: 0 <= j < |init| ==> init[j] == rules[j];
      assert Last(rules) == rules[|rules| - 1];
    }
  }

  /** Every section of the table carries a positive weight. */
  lemma WeightsPositive()
    ensures forall j :: 0 <= j < |Rules| ==> Rules[j].weight > 0
  {
  }

  /** The section ceiling is the sum of the weights, 100, not the declared
      80, and a text reaches it exactly when every section is found. */
  lemma SectionCeiling(text: string)
    ensures FoundWeight(Rules, Lower(text)) <= 100
    ensures (forall j :: 0 <= j < |Rules| ==> Found(Rules[j], Lower(text)))
            <==> FoundWeight(Rules, Lower(text)) == 100
    ensures 100 > DeclaredMaxScore
  {
    FoundWeightAtMostTotal(Rules, Lower(text));
    TotalWeightIs100();
    WeightsPositive();
  }

  /** The weights of the section table add up to 100. */
  lemma TotalWeightIs100()
    ensures TotalWeight(Rules) == 100
  {
    PrefixStep(Rules, 0); PrefixStep(Rules, 1); PrefixStep(Rules, 2); PrefixStep(Rules, 3);
    PrefixStep(Rules, 4); PrefixStep(Rules, 5); PrefixStep(Rules, 6);
    assert TotalWeight(Rules[..0]) == 0;
    assert TotalWeight(Rules[..1]) == 15;
    assert TotalWeight(Rules[..2]) == 25;
    assert TotalWeight(Rules[..3]) == 50;
    assert TotalWeight(Rules[..4]) == 65;
    assert TotalWeight(Rules[..5]) == 85;
    assert TotalWeight(Rules[..6]) == 95;
    assert TotalWeight(Rules[..7]) == 100;
    assert Rules[..7] == Rules;
  }

  /** The names of a table, in table order. */
  function Names(rules: seq<SectionRule>): (names: seq<string>)
    ensures |names| == |rules|
    ensures forall i :: 0 <= i < |rules| ==> names[i] == rules[i].name
  {
    if rules == [] then [] else Names(DropLast(rules)) + [Last(rules).name]
  }

  /** A name is listed as missing exactly when it names a required rule
      that is not found, and the list keeps table order. */
  lemma {:induction false} MissingSpec(rules: seq<SectionRule>, textLower: string)
    ensures forall n :: n in Missing(rules, textLower) <==>
      exists j :: 0 <= j < |rules| && rules[j].name == n && rules[j].required && !Found(rules[j], textLower)
    ensures |Missing(rules, textLower)| <= |rules|
    ensures IsSubsequence(Missing(rules, textLower), Names(rules))
  {
    if rules != [] {
      MissingSpec(DropLast(rules), textLower);
      var last := Last(rules);
      var tail := if !Found(last, textLower) && last.required then [last.name] else [];
      SubsequenceAppend(Missing(DropLast(rules), textLower), Names(DropLast(rules)), tail, [last.name]);
      forall n | n in Missing(rules, textLower)
        ensures exists j :: 0 <= j < |rules| && rules[j].name == n && rules[j].required && !Found(rules[j], textLower)
      {
        if n in Missing(DropLast(rules), textLower) {
          var j :| 0 <= j < |DropLast(rules)| && DropLast(rules)[j].name == n
                   && DropLast(rules)[j].required && !Found(DropLast(rules)[j], textLower);
          assert rules[j] == DropLast(rules)[j];
        } else {
          assert Last(rules) == rules[|rules| - 1];
        }
      }
      forall n | exists j :: 0 <= j < |rules| && rules[j].name == n && rules[j].required && !Found(rules[j], textLower)
        ensures n in Missing(rules, textLower)
      {
        var j :| 0 <= j < |rules| && rules[j].name == n && rules[j].required && !Found(rules[j], textLower);
        if j < |rules| - 1 {
          assert DropLast(rules)[j] == rules[j];
        }
      }
    }
  }

  /** A text that holds no keyword of any section lists every required
      section, in table order, and scores 0. */
  lemma NothingFound(text: string)
    requires forall j, k :: 0 <= j < |Rules| && k in Rules[j].keywords ==> !Contains(Lower(text), k)
    ensures Missing(Rules, Lower(text))
            == ["Contact Information", "Work Experience", "Education", "Technical Skills"]
    ensures FoundWeight(Rules, Lower(text)) == 0
  {
    var t := Lower(text);
    forall j | 0 <= j < |Rules| ensures !Found(Rules[j], t) {
    }
    PrefixStep(Rules, 0); PrefixStep(Rules, 1); PrefixStep(Rules, 2); PrefixStep(Rules, 3);
    PrefixStep(Rules, 4); PrefixStep(Rules, 5); PrefixStep(Rules, 6);
    assert Missing(Rules[..0], t) == [] && FoundWeight(Rules[..0], t) == 0;
    assert Missing(Rules[..1], t) == ["Contact Information"];
    assert Missing(Rules[..2], t) == ["Contact Information"];
    assert Missing(Rules[..3], t) == ["Contact Information", "Work Experience"];
    assert Missing(Rules[..4], t) == ["Contact Information", "Work Experience", "Education"];
    assert Missing(Rules[..5], t)
      == ["Contact Information", "Work Experience", "Education", "Technical Skills"];
    assert Missing(Rules[..7], t) == Missing(Rules[..5], t);
    assert FoundWeight(Rules[..1], t) == 0 && FoundWeight(Rules[..2], t) == 0;
    assert FoundWeight(Rules[..3], t) == 0 && FoundWeight(Rules[..4], t) == 0;
    assert FoundWeight(Rules[..5], t) == 0 && FoundWeight(Rules[..6], t) == 0;
    assert FoundWeight(Rules[..7], t) == 0;
    assert Rules[..7] == Rules;
  }

  /** Appending text never makes a found section disappear: the section
      score cannot drop and the missing list can only shrink, keeping its
      order. */
  lemma {:induction false} AppendMonotone(rules: seq<SectionRule>, text: string, more: string)
    ensures FoundWeight(rules, Lower(text)) <= FoundWeight(rules, Lower(text + more))
    ensures IsSubsequence(Missing(rules, Lower(text + more)), Missing(rules, Lower(text)))
  {
    LowerAppend(text, more);
    if rules != [] {
      AppendMonotone(DropLast(rules), text, more);
      var last := Last(rules);
      if Found(last, Lower(text)) {
        var k :| k in last.keywords && Contains(Lower(text), k);
        ContainsAppend(Lower(text), Lower(more), k);
        assert Found(last, Lower(text + more));
      }
      var before := Missing(DropLast(rules), Lower(text));
      var after := Missing(DropLast(rules), Lower(text + more));
      var tailBefore := if !Found(last, Lower(text)) && last.required then [last.name] else [];
      var tailAfter := if !Found(last, Lower(text + more)) && last.required then [last.name] else [];
      SubsequenceAppend(after, before, tailAfter, tailBefore);
    }
  }

  /** No two sections of the table share a name: their lengths already
      differ. */
  lemma RuleNamesDistinct()
    ensures forall i, j :: 0 <= i < j < |Rules| ==> Rules[i].name != Rules[j].name
  {
    var lengths := [19, 30, 15, 9, 16, 8, 14];
    assert forall j :: 0 <= j < |Rules| ==> |Rules[j].name| == lengths[j];
  }

  /** The missing list, a subsequence of the distinct names, never repeats
      a name. */
  lemma MissingDistinct(text: string)
    ensures var m := Missing(Rules, Lower(text));
            forall i, j :: 0 <= i < j < |m| ==> m[i] != m[j]
  {
    RuleNamesDistinct();
    MissingSpec(Rules, Lower(text));
    SubsequenceDistinct(Missing(Rules, Lower(text)), Names(Rules));
  }
}
