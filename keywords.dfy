/** The keyword analysis: technical skills per category, soft skills,
    industry keywords and trending technologies, each found by a plain
    substring test on the lower-cased text. */
module Keywords {
  import opened Text

  datatype Category = Category(name: string, skills: seq<string>)

  /** One entry of `foundSkills`: a category name and the skills of that
      category that occur in the text, in list order. */
  datatype FoundCategory = FoundCategory(category: string, skills: seq<string>)

  datatype KeywordMessage = MoreTechnicalSkills | AddSoftSkills | AddTrendingTech

  function MessageText(m: KeywordMessage): string {
    match m
    case MoreTechnicalSkills => "Add more relevant technical skills to improve ATS keyword matching"
    case AddSoftSkills => "Include soft skills like \"teamwork\", \"leadership\", and \"communication\""
    case AddTrendingTech => "Consider adding trending technologies like React, Node.js, Python, or AWS"
  }

  const ProgrammingLanguages: seq<string> := [
    "javascript", "python", "java", "c++", "c#", "php", "ruby", "go", "swift", "kotlin",
    "typescript", "dart", "scala", "r", "matlab"
  ]

  const TechnicalSkills: seq<Category> := [
    Category("Programming Languages", ProgrammingLanguages),
    Category("Web Technologies", [
      "react", "angular", "vue", "nodejs", "express", "django", "flask", "laravel",
      "html", "css", "sass", "bootstrap", "tailwind", "jquery"]),
    Category("Mobile Development", ["android", "ios", "flutter", "react native", "xamarin", "ionic"]),
    Category("Databases", [
      "mysql", "postgresql", "mongodb", "redis", "sqlite", "oracle", "sql server",
      "firebase", "dynamodb", "cassandra"]),
    Category("Cloud & DevOps", [
      "aws", "azure", "google cloud", "docker", "kubernetes", "jenkins", "git",
      "gitlab", "github", "ci/cd", "terraform", "ansible"]),
    Category("Data Science & AI", [
      "machine learning", "deep learning", "tensorflow", "pytorch", "pandas",
      "numpy", "scikit-learn", "opencv", "nlp", "computer vision"]),
    Category("Testing & Quality", [
      "unit testing", "integration testing", "selenium", "jest", "cypress",
      "postman", "jira", "agile", "scrum"])
  ]

  const SoftSkillsName: string := "Soft Skills"

  const SoftSkills: seq<string> := [
    "teamwork", "leadership", "communication", "problem solving", "analytical",
    "creative", "adaptable", "detail oriented", "time management", "collaborative"
  ]

  const IndustryKeywords: seq<string> := [
    "fintech", "ecommerce", "healthcare", "education", "logistics", "retail",
    "banking", "telecommunications", "startup", "enterprise"
  ]

  const TrendingTech: seq<string> := ["react", "nodejs", "python", "aws", "docker", "mongodb"]

  /** The `maxScore` the keyword analysis reports. */
  const DeclaredMaxScore: nat := 20

  datatype KeywordResult = KeywordResult(
    score: nat, maxScore: nat, foundSkills: seq<FoundCategory>, foundSoftSkills: seq<string>,
    foundIndustryKeywords: seq<string>, totalSkillsFound: nat, recommendations: seq<KeywordMessage>)

  /** The `foundSkills` entries the category loop writes for `cats`. */
  function FoundByCategory(textLower: string, cats: seq<Category>): seq<FoundCategory> {
    if cats == [] then []
    else FoundByCategory(textLower, DropLast(cats)) + [FoundCategory(Last(cats).name, FoundIn(textLower, Last(cats).skills))]
  }

  /** The `totalSkillsFound` the category loop accumulates for `cats`. */
  function TotalFound(textLower: string, cats: seq<Category>): nat {
    if cats == [] then 0 else TotalFound(textLower, DropLast(cats)) + |FoundIn(textLower, Last(cats).skills)|
  }

  function Min(a: nat, b: nat): nat { if a < b then a else b }

  /** The score over the four counts the analysis reads: it reaches 22, not
      the declared 20, and reaches it exactly when 15 technical skills, 3 soft
      skills, an industry keyword and 3 trending technologies are found. */
  function ScoreOf(total: nat, soft: nat, industry: nat, trending: nat): (score: nat)
    ensures score <= 22 && 22 > DeclaredMaxScore
    ensures score == 22 <==> total >= 15 && soft >= 3 && industry >= 1 && trending >= 3
  {
    Min(total, 15) + (if soft >= 3 then 3 else 0) + (if industry >= 1 then 2 else 0)
    + (if trending >= 3 then 2 else 0)
  }

  /** The recommendations, in the order the source pushes them: each is given
      exactly when its count falls short, and none twice. */
  function RecommendationsOf(total: nat, soft: nat, trending: nat): (recs: seq<KeywordMessage>)
    ensures MoreTechnicalSkills in recs <==> total < 8
    ensures AddSoftSkills in recs <==> soft < 3
    ensures AddTrendingTech in recs <==> trending < 3
    ensures forall i, j :: 0 <= i < j < |recs| ==> recs[i] != recs[j]
    ensures IsSubsequence(recs, [MoreTechnicalSkills, AddSoftSkills, AddTrendingTech])
  {
    (if total < 8 then [MoreTechnicalSkills] else [])
    + (if soft < 3 then [AddSoftSkills] else [])
    + (if trending < 3 then [AddTrendingTech] else [])
  }

  /** `analyzeKeywordsAndSkills` as a function of the text. */
  function Keywords(text: string): KeywordResult {
    var textLower := Lower(text);
    var soft := FoundIn(textLower, SoftSkills);
    var industry := FoundIn(textLower, IndustryKeywords);
    var total := TotalFound(textLower, TechnicalSkills);
    var trending := FoundIn(textLower, TrendingTech);
    KeywordResult(
      ScoreOf(total, |soft|, |industry|, |trending|), DeclaredMaxScore,
      FoundByCategory(textLower, TechnicalSkills) + [FoundCategory(SoftSkillsName, soft)],
      soft, industry, total, RecommendationsOf(total, |soft|, |trending|))
  }

  /** `analyzeKeywordsAndSkills(text)` */
  method AnalyzeKeywordsAndSkills(text: string) returns (r: KeywordResult)
    ensures r == Keywords(text)
  {
    var textLower := Lower(text);
    var foundSkills, totalSkillsFound := FindTechnicalSkills(textLower);
    var foundSoftSkills := FoundIn(textLower, SoftSkills);
    foundSkills := foundSkills + [FoundCategory(SoftSkillsName, foundSoftSkills)];
    var foundIndustryKeywords := FoundIn(textLower, IndustryKeywords);
    var foundTrending := FoundIn(textLower, TrendingTech);
    var score, recommendations :=
      ScoreAndRecommend(totalSkillsFound, |foundSoftSkills|, |foundIndustryKeywords|, |foundTrending|);
    r := KeywordResult(score, DeclaredMaxScore, foundSkills, foundSoftSkills, foundIndustryKeywords,
                       totalSkillsFound, recommendations);
  }

  /** The loop over the technical categories: one `foundSkills` entry per
      category and the running total of skills found. */
  method FindTechnicalSkills(textLower: string) returns (foundSkills: seq<FoundCategory>, totalSkillsFound: nat)
    ensures foundSkills == FoundByCategory(textLower, TechnicalSkills)
    ensures totalSkillsFound == TotalFound(textLower, TechnicalSkills)
  {
    foundSkills := [];
    totalSkillsFound := 0;
    var i := 0;
    while i < |TechnicalSkills|
      invariant i <= |TechnicalSkills|
      invariant foundSkills == FoundByCategory(textLower, TechnicalSkills[..i])
      invariant totalSkillsFound == TotalFound(textLower, TechnicalSkills[..i])
    {
      PrefixStep(TechnicalSkills, i);
      var categorySkills := FoundIn(textLower, TechnicalSkills[i].skills);
      foundSkills := foundSkills + [FoundCategory(TechnicalSkills[i].name, categorySkills)];
      totalSkillsFound := totalSkillsFound + |categorySkills|;
      i := i + 1;
    }
    assert TechnicalSkills[..i] == TechnicalSkills;
  }

  /** The score and the recommendations, from the four counts. */
  method ScoreAndRecommend(totalSkillsFound: nat, softCount: nat, industryCount: nat, trendingCount: nat)
    returns (score: nat, recommendations: seq<KeywordMessage>)
    ensures score == ScoreOf(totalSkillsFound, softCount, industryCount, trendingCount)
    ensures recommendations == RecommendationsOf(totalSkillsFound, softCount, trendingCount)
  {
    score := Min(totalSkillsFound, 15);
    if softCount >= 3 {
      score := score + 3;
    }
    if industryCount >= 1 {
      score := score + 2;
    }
    recommendations := [];
    if totalSkillsFound < 8 {
      recommendations := recommendations + [MoreTechnicalSkills];
    }
    if softCount < 3 {
      recommendations := recommendations + [AddSoftSkills];
    }
    if trendingCount >= 3 {
      score := score + 2;
    } else {
      recommendations := recommendations + [AddTrendingTech];
    }
  }

  /** Finding more of anything never lowers the score. */
  lemma ScoreMonotone(total: nat, soft: nat, industry: nat, trending: nat,
                      total': nat, soft': nat, industry': nat, trending': nat)
    requires total <= total' && soft <= soft' && industry <= industry' && trending <= trending'
    ensures ScoreOf(total, soft, industry, trending) <= ScoreOf(total', soft', industry', trending')
  {
  }

  /** The category loop writes one entry per category, in order, holding
      the category's skills that occur in the text. */
  lemma {:induction false} FoundByCategorySpec(textLower: string, cats: seq<Category>)
    ensures |FoundByCategory(textLower, cats)| == |cats|
    ensures forall i :: 0 <= i < |cats| ==>
      FoundByCategory(textLower, cats)[i] == FoundCategory(cats[i].name, FoundIn(textLower, cats[i].skills))
  {
    if cats != [] {
      FoundByCategorySpec(textLower, DropLast(cats));
      assert forall i :: 0 <= i < |cats| - 1 ==> cats[i] == DropLast(cats)[i];
    }
  }

  /** `foundSkills` has eight keys: the seven technical categories in order,
      then "Soft Skills"; each holds, in list order, exactly the skills of its
      list that occur in the lower-cased text. */
  lemma FoundSkillsShape(text: string)
    ensures var r := Keywords(text);
      && |r.foundSkills| == |TechnicalSkills| + 1 == 8
      && r.foundSkills[7] == FoundCategory(SoftSkillsName, r.foundSoftSkills)
      && forall i :: 0 <= i < 7 ==> r.foundSkills[i].category == TechnicalSkills[i].name
                                    && IsSubsequence(r.foundSkills[i].skills, TechnicalSkills[i].skills)
                                    && forall k :: k in r.foundSkills[i].skills
                                                   <==> k in TechnicalSkills[i].skills && Contains(Lower(text), k)
  {
    var textLower := Lower(text);
    FoundByCategorySpec(textLower, TechnicalSkills);
    var found := Keywords(text).foundSkills;
    forall i | 0 <= i < 7
      ensures found[i].category == TechnicalSkills[i].name
      ensures IsSubsequence(found[i].skills, TechnicalSkills[i].skills)
      ensures forall k :: k in found[i].skills <==> k in TechnicalSkills[i].skills && Contains(textLower, k)
    {
      assert found[i] == FoundByCategory(textLower, TechnicalSkills)[i];
      FoundInSpec(textLower, TechnicalSkills[i].skills);
    }
  }

  /** `totalSkillsFound` counts the found entries of the seven categories. */
  lemma {:induction false} TotalIsFoundEntries(textLower: string, cats: seq<Category>)
    ensures TotalFound(textLower, cats) == SkillsIn(FoundByCategory(textLower, cats))
  {
    if cats != [] {
      TotalIsFoundEntries(textLower, DropLast(cats));
      var entries := FoundByCategory(textLower, cats);
      assert DropLast(entries) == FoundByCategory(textLower, DropLast(cats));
    }
  }

  /** Number of skills listed over `entries`. */
  function SkillsIn(entries: seq<FoundCategory>): nat {
    if entries == [] then 0 else SkillsIn(DropLast(entries)) + |Last(entries).skills|
  }

  /** Skills are found by substring: a resume naming JavaScript also counts
      Java. */
  lemma JavaScriptAlsoCountsJava(text: string, p: nat)
    requires p + 10 <= |text| && Lower(text)[p..p + 10] == "javascript"
    ensures var found := FoundIn(Lower(text), ProgrammingLanguages);
      "javascript" in found && "java" in found
  {
    var t := Lower(text);
    assert t[p..p + 4] == t[p..p + 10][..4];
    FoundAt(t, ProgrammingLanguages, 0, p);
    FoundAt(t, ProgrammingLanguages, 2, p);
  }

  /** R is counted as a programming language in any text holding the letter
      r, in either case. */
  lemma LetterRCountsR(text: string, p: nat)
    requires p < |text| && (text[p] == 'r' || text[p] == 'R')
    ensures "r" in FoundIn(Lower(text), ProgrammingLanguages)
  {
    var t := Lower(text);
    assert t[p..p + 1] == "r";
    FoundAt(t, ProgrammingLanguages, 13, p);
  }

  lemma FoundAt(t: string, list: seq<string>, k: nat, at: nat)
    requires k < |list| && at + |list[k]| <= |t| && t[at..at + |list[k]|] == list[k]
    ensures list[k] in FoundIn(t, list)
  {
    ContainsAt(t, list[k], at);
    FoundInSpec(t, list);
  }
}
