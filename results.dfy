/** What the results page derives from an analysis: the colour band of a
    score, the letter grade, the rounded percentages, the summary counts and
    the recommendations grouped by type. */
module Results {
  import opened Text
  import opened Grouping
  import S = Sections
  import Ats = Analysis
  import F = Formatting

  /** `score / maxScore * 100`, as an exact rational. */
  function Percentage(score: int, maxScore: int): real
    requires maxScore > 0
  {
    (score as real / maxScore as real) * 100.0
  }

  /** The percentage compared with a threshold by cross-multiplying. */
  lemma AtLeast(score: int, maxScore: int, threshold: int)
    requires maxScore > 0
    ensures Percentage(score, maxScore) >= threshold as real <==> 100 * score >= threshold * maxScore
  {
    var q := score as real / maxScore as real;
    assert q * maxScore as real == score as real;
    if Percentage(score, maxScore) >= threshold as real {
      assert q * 100.0 >= threshold as real;
      assert (q * 100.0) * maxScore as real >= threshold as real * maxScore as real;
      assert (q * maxScore as real) * 100.0 >= threshold as real * maxScore as real;
    } else {
      assert q * 100.0 < threshold as real;
      assert (q * 100.0) * maxScore as real < threshold as real * maxScore as real;
      assert (q * maxScore as real) * 100.0 < threshold as real * maxScore as real;
    }
  }

  /** The three colour bands of a score. */
  datatype Band = Green | Yellow | Red

  function BandOf(score: int, maxScore: int): (b: Band)
    requires maxScore > 0
    ensures b == Green <==> Percentage(score, maxScore) >= 80.0
    ensures b == Yellow <==> 60.0 <= Percentage(score, maxScore) < 80.0
    ensures b == Red <==> Percentage(score, maxScore) < 60.0
  {
    AtLeast(score, maxScore, 80);
    AtLeast(score, maxScore, 60);
    if 100 * score >= 80 * maxScore then Green
    else if 100 * score >= 60 * maxScore then Yellow
    else Red
  }

  /** `getScoreColor(score, maxScore)` */
  function ScoreColor(score: int, maxScore: int): (r: string)
    requires maxScore > 0
    ensures r == "text-green-600" <==> Percentage(score, maxScore) >= 80.0
    ensures r == "text-yellow-600" <==> 60.0 <= Percentage(score, maxScore) < 80.0
    ensures r == "text-red-600" <==> Percentage(score, maxScore) < 60.0
  {
    match BandOf(score, maxScore)
    case Green => "text-green-600"
    case Yellow => "text-yellow-600"
    case Red => "text-red-600"
  }

  /** `getScoreBgColor(score, maxScore)` */
  function ScoreBgColor(score: int, maxScore: int): (r: string)
    requires maxScore > 0
    ensures r == "bg-green-500" <==> Percentage(score, maxScore) >= 80.0
    ensures r == "bg-yellow-500" <==> 60.0 <= Percentage(score, maxScore) < 80.0
    ensures r == "bg-red-500" <==> Percentage(score, maxScore) < 60.0
  {
    match BandOf(score, maxScore)
    case Green => "bg-green-500"
    case Yellow => "bg-yellow-500"
    case Red => "bg-red-500"
  }

  function BandRank(b: Band): nat {
    match b
    case Red => 0
    case Yellow => 1
    case Green => 2
  }

  /** A higher score never gets a worse colour. */
  lemma BandMonotone(low: int, high: int, maxScore: int)
    requires maxScore > 0 && low <= high
    ensures BandRank(BandOf(low, maxScore)) <= BandRank(BandOf(high, maxScore))
  {
    assert 100 * low <= 100 * high;
  }

  /** `Math.round(score / maxScore * 100)`: the integer nearest the
      percentage, halves rounded up. */
  function RoundedPercentage(score: nat, maxScore: nat): (p: nat)
    requires maxScore > 0
    ensures p as real - 0.5 <= Percentage(score, maxScore) < p as real + 0.5
  {
    var p := (200 * score + maxScore) / (2 * maxScore);
    Rounds(score, maxScore, p);
    p
  }

  lemma Rounds(score: nat, maxScore: nat, p: nat)
    requires maxScore > 0 && p == (200 * score + maxScore) / (2 * maxScore)
    ensures p as real - 0.5 <= Percentage(score, maxScore) < p as real + 0.5
  {
    var d := 2 * maxScore;
    var n := 200 * score + maxScore;
    var r := n % d;
    assert n == p * d + r && 0 <= r < d;
    var q := score as real / maxScore as real;
    assert q * maxScore as real == score as real;
    // 200 * score + maxScore == 2 * maxScore * p + r, divided by 2 * maxScore
    assert (200 * score) as real == (2 * maxScore * p + r - maxScore) as real;
    assert 200.0 * q * maxScore as real == (2 * p - 1) as real * maxScore as real + r as real;
    assert (2 * p - 1) as real * maxScore as real <= 200.0 * q * maxScore as real;
    assert 200.0 * q * maxScore as real < (2 * p + 1) as real * maxScore as real;
    assert (2 * p - 1) as real <= 200.0 * q < (2 * p + 1) as real;
  }

  /** The band of a section card, which is taken from the rounded
      percentage, agrees with `getScoreColor` on the exact one for every
      score ceiling the analysis reports (80, 25, 20, 15 and 100). */
  lemma CardBandAgrees(score: nat, maxScore: nat)
    requires maxScore in {80, 25, 20, 15, 100}
    ensures BandOf(RoundedPercentage(score, maxScore), 100) == BandOf(score, maxScore)
  {
    var p := RoundedPercentage(score, maxScore);
    var d := 2 * maxScore;
    assert p * d <= 200 * score + maxScore < p * d + d;
  }

  datatype Letter = A | B | C | D | F

  datatype GradeInfo = GradeInfo(grade: Letter, description: string)

  /** `getOverallGrade(score)` */
  function OverallGrade(score: int): (g: GradeInfo)
    ensures g.grade == A <==> score >= 80
    ensures g.grade == B <==> 70 <= score < 80
    ensures g.grade == C <==> 60 <= score < 70
    ensures g.grade == D <==> 50 <= score < 60
    ensures g.grade == F <==> score < 50
  {
    if score >= 80 then GradeInfo(A, "Excellent ATS Compatibility")
    else if score >= 70 then GradeInfo(B, "Good ATS Compatibility")
    else if score >= 60 then GradeInfo(C, "Fair ATS Compatibility")
    else if score >= 50 then GradeInfo(D, "Poor ATS Compatibility")
    else GradeInfo(F, "Needs Major Improvements")
  }

  function LetterRank(l: Letter): nat {
    match l
    case F => 0
    case D => 1
    case C => 2
    case B => 3
    case A => 4
  }

  /** A higher percentage never gets a lower grade. */
  lemma GradeMonotone(low: int, high: int)
    requires low <= high
    ensures LetterRank(OverallGrade(low).grade) <= LetterRank(OverallGrade(high).grade)
  {
  }

  /** `overallPercentage` */
  function OverallPercentage(a: Ats.AtsAnalysis): (p: nat)
    requires a.maxScore > 0
    ensures a.maxScore == Ats.DeclaredMaxScore ==> p == a.overallScore
  {
    var p := RoundedPercentage(a.overallScore, a.maxScore);
    assert a.maxScore == Ats.DeclaredMaxScore ==> p * 200 <= 200 * a.overallScore + 100 < p * 200 + 200;
    p
  }

  /** The grade shown agrees with the closing recommendation: A exactly when
      the list holds the positive entry, B or C exactly when it holds the
      "Good Foundation" suggestion. */
  lemma GradeMatchesClosingEntry(a: Ats.AtsAnalysis)
    requires a.maxScore == Ats.DeclaredMaxScore
    ensures var b := Ats.WithRecommendations(a);
      var grade := OverallGrade(OverallPercentage(b)).grade;
      var recs := b.recommendations;
      && (grade == A <==> exists i :: 0 <= i < |recs| && recs[i].kind == Ats.Positive)
      && (grade in {B, C} <==> exists i :: 0 <= i < |recs| && recs[i].title == Ats.GoodFoundationTitle)
  {
    Ats.ClosingEntry(a.sections.missingSections, a.formatting.issues, a.atsCompatibility.compatibilityIssues,
                   a.keywords.totalSkillsFound, a.formatting.warnings, |a.keywords.foundSoftSkills|,
                   a.overallScore);
  }

  /** The overall percentage shown is the overall score, and it can exceed
      100: a text with every section and no images shows more than 100%. */
  lemma PercentageCanExceed100(text: string, meta: F.Metadata)
    requires forall j :: 0 <= j < |S.Rules| ==> S.Found(S.Rules[j], Lower(text))
    requires !meta.hasImages
    ensures OverallPercentage(Ats.Analysis(text, meta)) > 100
    ensures OverallGrade(OverallPercentage(Ats.Analysis(text, meta))).grade == A
  {
    Ats.OverallCanExceedDeclared(text, meta);
  }

  /** `Object.values(sections).filter(s => s.found).length` */
  function FoundCount(statuses: seq<S.SectionStatus>): nat {
    if statuses == [] then 0 else FoundCount(DropLast(statuses)) + (if Last(statuses).found then 1 else 0)
  }

  /** The "found / total" summary: at most the number of rules, and equal to
      it exactly when every rule is found. */
  lemma {:induction false} SectionSummary(rules: seq<S.SectionRule>, textLower: string)
    ensures FoundCount(S.Statuses(rules, textLower)) <= |S.Statuses(rules, textLower)| == |rules|
    ensures FoundCount(S.Statuses(rules, textLower)) == |rules|
            <==> forall j :: 0 <= j < |rules| ==> S.Found(rules[j], textLower)
  {
    if rules != [] {
      var init := DropLast(rules);
      SectionSummary(init, textLower);
      assert DropLast(S.Statuses(rules, textLower)) == S.Statuses(init, textLower);
      if forall j :: 0 <= j < |init| ==> S.Found(init[j], textLower) {
        assert forall j :: 0 <= j < |rules| - 1 ==> rules[j] == init[j];
      } else {
        var j :| 0 <= j < |init| && !S.Found(init[j], textLower);
        assert rules[j] == init[j];
      }
    }
  }

  /** The key `groupedRecommendations` files an entry under. */
  function KindOf(r: Ats.Recommendation): Ats.Kind { r.kind }

  /** `results.recommendations.filter(r => r.type === 'critical').length` */
  function CriticalCount(recs: seq<Ats.Recommendation>): nat {
    |Members(recs, KindOf, Ats.Critical)|
  }

  /** `groupedRecommendations`: the recommendations grouped by type, types in
      order of first appearance. */
  method GroupRecommendations(recs: seq<Ats.Recommendation>) returns (groups: seq<Group<Ats.Kind, Ats.Recommendation>>)
    ensures |groups| == |FirstKeys(recs, KindOf)|
    ensures forall i :: 0 <= i < |groups| ==> groups[i].key == FirstKeys(recs, KindOf)[i]
    ensures forall i :: 0 <= i < |groups| ==> groups[i].items == Members(recs, KindOf, groups[i].key)
  {
    groups := GroupBy(recs, KindOf);
  }

  /** When the elements with key `k` are exactly the first `n`, the group
      of `k` is that prefix. */
  lemma {:induction false} LeadingGroup<K, T>(xs: seq<T>, key: T -> K, k: K, n: nat)
    requires n <= |xs|
    requires forall i :: 0 <= i < |xs| ==> (key(xs[i]) == k <==> i < n)
    ensures Members(xs, key, k) == xs[..n]
  {
    if xs != [] {
      var init := DropLast(xs);
      if n == |xs| {
        LeadingGroup(init, key, k, n - 1);
        assert xs[..n] == init[..n - 1] + [Last(xs)];
      } else {
        LeadingGroup(init, key, k, n);
        assert xs[..n] == init[..n];
      }
    }
  }

  /** The critical group, and the "Critical Issues" count, are the leading
      entries: one for the missing sections (when any), one per formatting
      issue and one per compatibility issue. */
  lemma CriticalGroup(a: Ats.AtsAnalysis)
    ensures var recs := Ats.Recommendations(a);
      var n := (if |a.sections.missingSections| > 0 then 1 else 0) + |a.formatting.issues|
               + |a.atsCompatibility.compatibilityIssues|;
      && Members(recs, KindOf, Ats.Critical) == recs[..n]
      && CriticalCount(recs) == n
      && (n > 0 ==> FirstKeys(recs, KindOf)[0] == Ats.Critical)
  {
    var recs := Ats.Recommendations(a);
    var n := (if |a.sections.missingSections| > 0 then 1 else 0) + |a.formatting.issues|
             + |a.atsCompatibility.compatibilityIssues|;
    Ats.CriticalFirst(a.sections.missingSections, a.formatting.issues, a.atsCompatibility.compatibilityIssues,
                    a.keywords.totalSkillsFound, a.formatting.warnings, |a.keywords.foundSoftSkills|,
                    a.overallScore);
    LeadingGroup(recs, KindOf, Ats.Critical, n);
    if n > 0 {
      FirstKeyIsFirst(recs, KindOf);
    }
  }

  /** The first group is the group of the first element. */
  lemma {:induction false} FirstKeyIsFirst<K, T>(xs: seq<T>, key: T -> K)
    requires xs != []
    ensures FirstKeys(xs, key) != [] && FirstKeys(xs, key)[0] == key(xs[0])
  {
    if |xs| == 1 {
      assert DropLast(xs) == [];
    } else {
      FirstKeyIsFirst(DropLast(xs), key);
    }
  }
}
