/** The ATS pipeline: the four analyzers run on the same text, the overall
    score is their sum, and the recommendation list is assembled from their
    results in a fixed rule order. */
module Analysis {
  import opened Text
  import Patterns
  import S = Sections
  import F = Formatting
  import K = Keywords
  import C = Compatibility

  /** The `type` of a recommendation. */
  datatype Kind = Critical | Important | Suggestion | Positive

  datatype Impact = High | Medium | Low | PositiveImpact

  datatype Title =
    | AddMissingSectionsTitle | FixFormattingIssueTitle | CompatibilityIssueTitle | EnhanceSkillsTitle
    | ImproveFormattingTitle | AddSoftSkillsTitle | ExcellentTitle | GoodFoundationTitle

  /** A description is either one of the analyzers' messages, the list of
      missing sections, or the fixed text that goes with the title. */
  datatype Description =
    | SectionList(missing: seq<string>)
    | FormattingMessage(formatting: F.FormatMessage)
    | CompatibilityMessage(compatibility: C.CompatMessage)
    | Fixed

  datatype Recommendation = Recommendation(kind: Kind, title: Title, description: Description, impact: Impact)

  function TitleText(t: Title): string {
    match t
    case AddMissingSectionsTitle => "Add Missing Essential Sections"
    case FixFormattingIssueTitle => "Fix Formatting Issue"
    case CompatibilityIssueTitle => "ATS Compatibility Issue"
    case EnhanceSkillsTitle => "Enhance Technical Skills Section"
    case ImproveFormattingTitle => "Improve Formatting"
    case AddSoftSkillsTitle => "Add Soft Skills"
    case ExcellentTitle => "Excellent ATS Compatibility!"
    case GoodFoundationTitle => "Good Foundation"
  }

  /** The description text shown for a recommendation. */
  function DescriptionText(r: Recommendation): string {
    match r.description
    case SectionList(missing) => "Include these required sections: " + Join(missing, ", ")
    case FormattingMessage(m) => F.MessageText(m)
    case CompatibilityMessage(m) => C.MessageText(m)
    case Fixed =>
      match r.title
      case EnhanceSkillsTitle => "Add more relevant technical skills to improve keyword matching with job descriptions"
      case AddSoftSkillsTitle => "Include soft skills like teamwork, leadership, and communication"
      case ExcellentTitle => "Your resume shows strong ATS compatibility. Consider minor optimizations for perfection."
      case GoodFoundationTitle =>
        "Your resume has a solid foundation. Focus on the critical issues to improve your ATS score."
      case _ => []
  }

  /** The `maxScore` the analysis reports. */
  const DeclaredMaxScore: nat := 100

  datatype AtsAnalysis = AtsAnalysis(
    overallScore: nat, maxScore: nat, sections: S.SectionResult, formatting: F.FormattingResult,
    keywords: K.KeywordResult, atsCompatibility: C.CompatibilityResult,
    recommendations: seq<Recommendation>, metadata: F.Metadata)

  /** `items.forEach(item => recommendations.push(make(item)))`, as the
      entries it pushes. */
  function Each<M>(items: seq<M>, make: M -> Recommendation): (r: seq<Recommendation>)
    ensures |r| == |items|
    ensures forall i :: 0 <= i < |items| ==> r[i] == make(items[i])
  {
    if items == [] then [] else Each(DropLast(items), make) + [make(Last(items))]
  }

  function MissingEntry(missing: seq<string>): seq<Recommendation> {
    if |missing| > 0 then
      [Recommendation(Critical, AddMissingSectionsTitle, SectionList(missing), High)]
    else []
  }

  function FixFormattingIssue(m: F.FormatMessage): Recommendation {
    Recommendation(Critical, FixFormattingIssueTitle, FormattingMessage(m), High)
  }

  function CompatibilityIssue(m: C.CompatMessage): Recommendation {
    Recommendation(Critical, CompatibilityIssueTitle, CompatibilityMessage(m), High)
  }

  const EnhanceSkills: Recommendation :=
    Recommendation(Important, EnhanceSkillsTitle, Fixed, Medium)

  function SkillsEntry(totalSkillsFound: nat): seq<Recommendation> {
    if totalSkillsFound < 8 then [EnhanceSkills] else []
  }

  function ImproveFormatting(m: F.FormatMessage): Recommendation {
    Recommendation(Important, ImproveFormattingTitle, FormattingMessage(m), Medium)
  }

  const AddSoftSkills: Recommendation :=
    Recommendation(Suggestion, AddSoftSkillsTitle, Fixed, Low)

  function SoftSkillsEntry(softCount: nat): seq<Recommendation> {
    if softCount < 3 then [AddSoftSkills] else []
  }

  const Excellent: Recommendation :=
    Recommendation(Positive, ExcellentTitle, Fixed, PositiveImpact)

  const GoodFoundation: Recommendation :=
    Recommendation(Suggestion, GoodFoundationTitle, Fixed, Medium)

  function ScoreEntry(overall: nat): seq<Recommendation> {
    if overall >= 80 then [Excellent] else if overall >= 60 then [GoodFoundation] else []
  }

  /** The recommendation list over the parts of the analysis it reads, in
      rule order. */
  function RecommendationsFrom(missing: seq<string>, formattingIssues: seq<F.FormatMessage>,
                               compatibilityIssues: seq<C.CompatMessage>, totalSkillsFound: nat,
                               formattingWarnings: seq<F.FormatMessage>, softCount: nat, overall: nat)
    : (recs: seq<Recommendation>)
    ensures |recs| == (if |missing| > 0 then 1 else 0) + |formattingIssues| + |compatibilityIssues|
                      + (if totalSkillsFound < 8 then 1 else 0) + |formattingWarnings|
                      + (if softCount < 3 then 1 else 0) + (if overall >= 60 then 1 else 0)
  {
    MissingEntry(missing) + Each(formattingIssues, FixFormattingIssue)
    + Each(compatibilityIssues, CompatibilityIssue) + SkillsEntry(totalSkillsFound)
    + Each(formattingWarnings, ImproveFormatting) + SoftSkillsEntry(softCount) + ScoreEntry(overall)
  }

  /** `generateRecommendations(analysis)` as a function. */
  function Recommendations(a: AtsAnalysis): seq<Recommendation> {
    RecommendationsFrom(a.sections.missingSections, a.formatting.issues, a.atsCompatibility.compatibilityIssues,
                        a.keywords.totalSkillsFound, a.formatting.warnings, |a.keywords.foundSoftSkills|,
                        a.overallScore)
  }

  /** `generateRecommendations(analysis)` */
  method GenerateRecommendations(a: AtsAnalysis) returns (recommendations: seq<Recommendation>)
    ensures recommendations == Recommendations(a)
  {
    recommendations := [];
    recommendations := AddMissingSections(recommendations, a.sections.missingSections);
    assert recommendations == MissingEntry(a.sections.missingSections);
    recommendations := PushEach(recommendations, a.formatting.issues, FixFormattingIssue);
    recommendations := PushEach(recommendations, a.atsCompatibility.compatibilityIssues, CompatibilityIssue);
    recommendations := AddSkillsEntry(recommendations, a.keywords.totalSkillsFound);
    recommendations := PushEach(recommendations, a.formatting.warnings, ImproveFormatting);
    recommendations := AddSoftSkillsEntry(recommendations, |a.keywords.foundSoftSkills|);
    recommendations := AddScoreEntry(recommendations, a.overallScore);
  }

  /** One critical entry naming all missing sections, when there are any. */
  method AddMissingSections(st: seq<Recommendation>, missing: seq<string>) returns (r: seq<Recommendation>)
    ensures r == st + MissingEntry(missing)
  {
    r := st;
    if |missing| > 0 {
      r := r + [Recommendation(Critical, AddMissingSectionsTitle, SectionList(missing), High)];
    }
  }

  /** Pushes one entry per item, in order. */
  method PushEach<M>(st: seq<Recommendation>, items: seq<M>, make: M -> Recommendation)
    returns (r: seq<Recommendation>)
    ensures r == st + Each(items, make)
  {
    r := st;
    var i := 0;
    while i < |items|
      invariant i <= |items|
      invariant r == st + Each(items[..i], make)
    {
      PrefixStep(items, i);
      r := r + [make(items[i])];
      i := i + 1;
    }
    assert items[..i] == items;
  }

  /** Fewer than eight technical skills. */
  method AddSkillsEntry(st: seq<Recommendation>, totalSkillsFound: nat) returns (r: seq<Recommendation>)
    ensures r == st + SkillsEntry(totalSkillsFound)
  {
    r := st;
    if totalSkillsFound < 8 {
      r := r + [EnhanceSkills];
    }
  }

  /** Fewer than three soft skills. */
  method AddSoftSkillsEntry(st: seq<Recommendation>, softCount: nat) returns (r: seq<Recommendation>)
    ensures r == st + SoftSkillsEntry(softCount)
  {
    r := st;
    if softCount < 3 {
      r := r + [AddSoftSkills];
    }
  }

  /** The closing entry: excellent from 80, a good foundation from 60. */
  method AddScoreEntry(st: seq<Recommendation>, overall: nat) returns (r: seq<Recommendation>)
    ensures r == st + ScoreEntry(overall)
  {
    r := st;
    if overall >= 80 {
      r := r + [Excellent];
    } else if overall >= 60 {
      r := r + [GoodFoundation];
    }
  }

  /** The critical entries come first and there are exactly one for the
      missing sections (when any), one per formatting issue and one per
      compatibility issue. */
  lemma CriticalFirst(missing: seq<string>, formattingIssues: seq<F.FormatMessage>,
                      compatibilityIssues: seq<C.CompatMessage>, totalSkillsFound: nat,
                      formattingWarnings: seq<F.FormatMessage>, softCount: nat, overall: nat)
    ensures var recs := RecommendationsFrom(missing, formattingIssues, compatibilityIssues, totalSkillsFound,
                                            formattingWarnings, softCount, overall);
      var critical := (if |missing| > 0 then 1 else 0) + |formattingIssues| + |compatibilityIssues|;
      forall i :: 0 <= i < |recs| ==> (recs[i].kind == Critical <==> i < critical)
  {
    var p := CriticalPart(missing, formattingIssues, compatibilityIssues);
    var q := BeforeScore(totalSkillsFound, formattingWarnings, softCount);
    Grouped(missing, formattingIssues, compatibilityIssues, totalSkillsFound, formattingWarnings, softCount, overall);
    KindSplit(p, q, |p|);
    KindSplit(p + q, ScoreEntry(overall), |p|);
  }

  /** The list in three parts: the critical entries, the important entries
      and the soft-skill suggestion, and the closing entry. */
  lemma Grouped(missing: seq<string>, formattingIssues: seq<F.FormatMessage>,
                compatibilityIssues: seq<C.CompatMessage>, totalSkillsFound: nat,
                formattingWarnings: seq<F.FormatMessage>, softCount: nat, overall: nat)
    ensures RecommendationsFrom(missing, formattingIssues, compatibilityIssues, totalSkillsFound,
                                formattingWarnings, softCount, overall)
            == CriticalPart(missing, formattingIssues, compatibilityIssues)
               + BeforeScore(totalSkillsFound, formattingWarnings, softCount) + ScoreEntry(overall)
  {
    var a := CriticalPart(missing, formattingIssues, compatibilityIssues);
    var b := SkillsEntry(totalSkillsFound);
    var c := Each(formattingWarnings, ImproveFormatting);
    var d := SoftSkillsEntry(softCount);
    assert a + b + c + d == a + (b + c + d);
  }

  /** The critical entries, in rule order. */
  function CriticalPart(missing: seq<string>, formattingIssues: seq<F.FormatMessage>,
                        compatibilityIssues: seq<C.CompatMessage>): (p: seq<Recommendation>)
    ensures |p| == (if |missing| > 0 then 1 else 0) + |formattingIssues| + |compatibilityIssues|
    ensures forall i :: 0 <= i < |p| ==> p[i].kind == Critical
  {
    var m := MissingEntry(missing);
    var e1 := Each(formattingIssues, FixFormattingIssue);
    var e2 := Each(compatibilityIssues, CompatibilityIssue);
    assert forall i :: 0 <= i < |m + e1| ==> (m + e1)[i].kind == Critical;
    m + e1 + e2
  }

  /** The entries between the critical ones and the closing one. */
  function BeforeScore(totalSkillsFound: nat, formattingWarnings: seq<F.FormatMessage>, softCount: nat)
    : (q: seq<Recommendation>)
    ensures forall i :: 0 <= i < |q| ==> q[i].kind in {Important, Suggestion} && q[i].title != GoodFoundationTitle
  {
    SkillsEntry(totalSkillsFound) + Each(formattingWarnings, ImproveFormatting) + SoftSkillsEntry(softCount)
  }

  /** Appending entries that are not critical keeps the critical ones where they were. */
  lemma KindSplit(p: seq<Recommendation>, q: seq<Recommendation>, n: nat)
    requires n <= |p|
    requires forall i :: 0 <= i < |p| ==> (p[i].kind == Critical <==> i < n)
    requires forall i :: 0 <= i < |q| ==> q[i].kind != Critical
    ensures forall i :: 0 <= i < |p + q| ==> ((p + q)[i].kind == Critical <==> i < n)
  {
  }

  /** The list closes with the positive entry exactly when the overall score
      is at least 80, and holds the "Good Foundation" suggestion exactly when
      it is from 60 to 79. */
  lemma ClosingEntry(missing: seq<string>, formattingIssues: seq<F.FormatMessage>,
                     compatibilityIssues: seq<C.CompatMessage>, totalSkillsFound: nat,
                     formattingWarnings: seq<F.FormatMessage>, softCount: nat, overall: nat)
    ensures var recs := RecommendationsFrom(missing, formattingIssues, compatibilityIssues, totalSkillsFound,
                                            formattingWarnings, softCount, overall);
      && ((exists i :: 0 <= i < |recs| && recs[i].kind == Positive) <==> overall >= 80)
      && ((exists i :: 0 <= i < |recs| && recs[i].title == GoodFoundationTitle) <==> 60 <= overall < 80)
      && (overall >= 60 ==> recs != [] && Last(recs) == (if overall >= 80 then Excellent else GoodFoundation))
  {
    var p := CriticalPart(missing, formattingIssues, compatibilityIssues)
             + BeforeScore(totalSkillsFound, formattingWarnings, softCount);
    Grouped(missing, formattingIssues, compatibilityIssues, totalSkillsFound, formattingWarnings, softCount, overall);
    EndsWith(p, ScoreEntry(overall));
  }

  /** Nothing before the closing entry is positive or a "Good Foundation". */
  lemma EndsWith(p: seq<Recommendation>, closing: seq<Recommendation>)
    requires forall i :: 0 <= i < |p| ==> p[i].kind != Positive && p[i].title != GoodFoundationTitle
    ensures forall i :: 0 <= i < |p + closing| && (p + closing)[i].kind == Positive ==> i >= |p|
    ensures forall i :: 0 <= i < |p + closing| && (p + closing)[i].title == GoodFoundationTitle ==> i >= |p|
    ensures closing != [] ==> Last(p + closing) == Last(closing)
  {
  }

  /** Compatibility warnings and the keyword analysis's own recommendations
      never reach the list: changing them changes nothing. */
  lemma WarningsNotRecommended(a: AtsAnalysis, warnings: seq<C.CompatMessage>, keywordAdvice: seq<K.KeywordMessage>)
    ensures Recommendations(a) == Recommendations(a.(
      atsCompatibility := a.atsCompatibility.(compatibilityWarnings := warnings),
      keywords := a.keywords.(recommendations := keywordAdvice)))
  {
  }

  /** The analysis before its recommendations are generated: the four
      results and their sum. */
  function Assemble(sections: S.SectionResult, formatting: F.FormattingResult, keywords: K.KeywordResult,
                    compatibility: C.CompatibilityResult, meta: F.Metadata): AtsAnalysis
  {
    AtsAnalysis(sections.score + formatting.score + keywords.score + compatibility.score, DeclaredMaxScore,
                sections, formatting, keywords, compatibility, [], meta)
  }

  function WithRecommendations(a: AtsAnalysis): AtsAnalysis {
    a.(recommendations := Recommendations(a))
  }

  /** `performATSAnalysis(text, metadata)` as a function. */
  function Analysis(text: string, meta: F.Metadata): AtsAnalysis {
    WithRecommendations(Assemble(S.Essential(text), F.Formatting(text, meta), K.Keywords(text),
                                 C.Compatibility(text), meta))
  }

  /** `performATSAnalysis(text, metadata)` */
  method PerformAtsAnalysis(text: string, meta: F.Metadata) returns (analysis: AtsAnalysis)
    ensures analysis == Analysis(text, meta)
  {
    var sections := S.CheckEssentialSections(text);
    var formatting := F.CheckAtsFormatting(text, meta);
    var keywords := K.AnalyzeKeywordsAndSkills(text);
    var atsCompatibility := C.CheckAtsCompatibility(text);
    analysis := Combine(sections, formatting, keywords, atsCompatibility, meta);
  }

  /** The overall score and the recommendations, from the four results. */
  method Combine(sections: S.SectionResult, formatting: F.FormattingResult, keywords: K.KeywordResult,
                 atsCompatibility: C.CompatibilityResult, meta: F.Metadata) returns (analysis: AtsAnalysis)
    ensures analysis == WithRecommendations(Assemble(sections, formatting, keywords, atsCompatibility, meta))
  {
    var overallScore := sections.score + formatting.score + keywords.score + atsCompatibility.score;
    analysis := AtsAnalysis(overallScore, DeclaredMaxScore, sections, formatting, keywords, atsCompatibility, [], meta);
    var recommendations := GenerateRecommendations(analysis);
    analysis := analysis.(recommendations := recommendations);
  }

  /** The overall score is the sum of the four scores and at most
      100 + 30 + 22 + 18 = 170, while the reported maximum is 100. */
  lemma OverallCeiling(text: string, meta: F.Metadata)
    ensures var a := Analysis(text, meta);
      && a.overallScore == a.sections.score + a.formatting.score + a.keywords.score + a.atsCompatibility.score
      && a.overallScore <= 170 && a.maxScore == DeclaredMaxScore < 170
  {
    S.SectionCeiling(text);
    F.FormattingCeiling(|text|, Patterns.BulletCount(text), Patterns.DateCount(text), Patterns.QuantityCount(text),
                        F.ActionVerbCount(text), meta);
    C.CompatibilityCeiling(Patterns.WordCount(text), Patterns.SpecialCharCount(text),
                           C.FormattingConsistency(text).isConsistent, C.HeaderCount(text),
                           Patterns.HasEmail(text), Patterns.HasPhone(text));
  }

  /** The reported maximum is not a bound: a text in which every section is
      found, analysed without images, scores more than 100 and is told its
      compatibility is excellent. */
  lemma OverallCanExceedDeclared(text: string, meta: F.Metadata)
    requires forall j :: 0 <= j < |S.Rules| ==> S.Found(S.Rules[j], Lower(text))
    requires !meta.hasImages
    ensures Analysis(text, meta).overallScore > DeclaredMaxScore
    ensures Excellent in Analysis(text, meta).recommendations
  {
    S.SectionCeiling(text);
    var a := Analysis(text, meta);
    assert a.formatting.score >= 2;
    ClosingEntry(a.sections.missingSections, a.formatting.issues, a.atsCompatibility.compatibilityIssues,
                 a.keywords.totalSkillsFound, a.formatting.warnings, |a.keywords.foundSoftSkills|, a.overallScore);
  }

  /** What the upload handler does with extracted text: too little text is
      refused before the analysis runs. */
  datatype Upload = Analyzed(analysis: AtsAnalysis) | Refused(message: string)

  const TooLittleText: string :=
    "The PDF appears to contain mostly images or very little text. Please use a PDF with selectable text."

  function AnalyzeExtracted(text: string, meta: F.Metadata): (r: Upload)
    ensures r.Refused? <==> |Trim(text)| < 50
    ensures r.Refused? ==> r.message == TooLittleText
    ensures r.Analyzed? ==> r.analysis == Analysis(text, meta)
  {
    if |Trim(text)| < 50 then Refused(TooLittleText) else Analyzed(Analysis(text, meta))
  }
}
