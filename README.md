# Codr core in Dafny

Codr is a career site for the Pakistani job market. This project models four
parts of it and proves properties about them:

- **The ATS résumé checker.** The text extracted from an uploaded PDF goes
  through four analyzers:
  - essential sections;
  - formatting;
  - keywords and skills;
  - ATS compatibility.

  Each analyzer scores the text and reports issues and warnings. Their
  scores add up to an overall score, which is turned into a list of
  recommendations. The results page then derives colour bands, a letter
  grade and the grouped recommendations from the analysis.
- **The résumé generator.**
  - The editor's state and its updaters: spreads, `map` and `filter` over
    the entry lists. Remove buttons are guarded so that no editing
    control can empty a list.
  - The LaTeX serializer, which escapes user text and emits Jake's résumé
    template section by section.
- **The company directory pages.**
  - The card page: a search filter, grouping by sector, the statistics and
    badge colours.
  - The data table: sorted industry options, a filter, and per-industry
    counts.
  - The searchable table and its statistics.

## How the model is organised

| Module | What it models |
|---|---|
| `Text` | Strings as `seq<char>`: ASCII lower-casing, substring search (`includes`), trimming, `join`, subsequences. |
| `Patterns` | The analyzers' regular expressions, written as matchers that follow JavaScript's global-match semantics. |
| `Tally` | The running score and message lists that a check block updates. |
| `Sections`, `Formatting`, `Keywords`, `Compatibility` | The four analyzers. Each is a method that runs its checks in source order, proved equal to a function of the text; lemmas about those functions. |
| `Analysis` | The whole pipeline, the recommendation generator and the upload guard. |
| `Results` | The results page. |
| `Grouping` | The group-by-`reduce` idiom. It is a loop over a map whose key order is the order of first insertion. |
| `Editor` | The résumé state, its updaters and the form's guards. |
| `Escape` | `escapeLatex` and `formatUrl`. |
| `Render` | String concatenation over filtered and mapped lists: what the serializer's `forEach` loops append. |
| `Latex` | The section generators, as loops proved equal to functions, and the document. |
| `Companies` | The three company pages. |

The company list is an input: a sequence of name and industry records. The
PDF's layout facts (complex formatting, images) are an input record too.

## Model

| member | source | states |
|---|---|---|
| Patterns.CountMatches | src/components/ResumeChecker/atsAnalyzer.js:158-160 | The number of global matches from a position is at most the number of characters left. |
| Patterns.YearAt | src/components/ResumeChecker/atsAnalyzer.js:392 | A year match is absent or exactly four characters long and inside the text. |
| Patterns.SlashDateAt | src/components/ResumeChecker/atsAnalyzer.js:393 | A numeric date match lies inside the text. |
| Patterns.MonthDateAt | src/components/ResumeChecker/atsAnalyzer.js:394 | A month-name date match lies inside the text. |
| Patterns.DateAt | src/components/ResumeChecker/atsAnalyzer.js:158 | A match of the combined date pattern lies inside the text. |
| Patterns.QuantityAt | src/components/ResumeChecker/atsAnalyzer.js:167 | A quantified-achievement match lies inside the text. |
| Patterns.WordCount | src/components/ResumeChecker/atsAnalyzer.js:321 | Splitting on runs of white space gives between 1 and length+1 pieces. |
| Patterns.PercentThenSpaceIsNoQuantity | src/components/ResumeChecker/atsAnalyzer.js:167 | "30% more" is not a quantified achievement, because `\b` after `%` needs a word character next. |
| Patterns.CountWithUnitIsQuantity | src/components/ResumeChecker/atsAnalyzer.js:167 | A count glued to a unit word ("5users") is one quantity of six characters. |
| Tally.Record | src/components/ResumeChecker/atsAnalyzer.js:139-146 | Recording a check adds its points and pushes its message onto the matching list. |
| Tally.RecordStep | src/components/ResumeChecker/atsAnalyzer.js:151-155 | A check that awards all of its points or reports raises the score by at most its points, and by all of them exactly when it reports nothing. |
| Tally.RecordMessages | src/components/ResumeChecker/atsAnalyzer.js:151-155 | After a check, a message is reported iff it was reported before or this check reports it. |
| Sections.Essential | src/components/ResumeChecker/atsAnalyzer.js:46-131 | Defines the section result: the weights of the found sections, the per-section statuses and the missing names; its properties are the Sections lemmas below. |
| Sections.Statuses | src/components/ResumeChecker/atsAnalyzer.js:105-116 | One status per section rule, in table order, each recording whether a keyword occurs. |
| Sections.CheckEssentialSections | src/components/ResumeChecker/atsAnalyzer.js:46-131 | The loop builds the section result of the text, and its score is at most the total weight, 100. |
| Sections.FoundWeightAtMostTotal | src/components/ResumeChecker/atsAnalyzer.js:117-118 | The found weight is at most the total; it equals the total if every section is found, and, when every weight is positive, only if every section is found. |
| Sections.SectionCeiling | src/components/ResumeChecker/atsAnalyzer.js:49-99 | The section score is at most 100, not the declared 80, and is 100 iff every section is found. |
| Sections.TotalWeightIs100 | src/components/ResumeChecker/atsAnalyzer.js:49-99 | The section weights add up to 100. |
| Sections.MissingSpec | src/components/ResumeChecker/atsAnalyzer.js:117-121 | A name is listed as missing iff it names a required section that is not found, and the list is a subsequence of the section names in declaration order. |
| Sections.RuleNamesDistinct | src/components/ResumeChecker/atsAnalyzer.js:49-99 | No two sections of the table share a name. |
| Sections.MissingDistinct | src/components/ResumeChecker/atsAnalyzer.js:117-121 | The missing list never repeats a name, so with MissingSpec it is exactly the required, not-found names in declaration order. |
| Sections.NothingFound | src/components/ResumeChecker/atsAnalyzer.js:105-121 | With no keyword anywhere, every required section is missing and the score is 0. |
| Sections.AppendMonotone | src/components/ResumeChecker/atsAnalyzer.js:106-108 | Appending text never lowers the score and never adds a missing section. |
| Formatting.CheckAtsFormatting | src/components/ResumeChecker/atsAnalyzer.js:133-211 | The seven checks run in order produce the formatting result of the text and metadata. |
| Formatting.Formatting | src/components/ResumeChecker/atsAnalyzer.js:133-211 | Defines the formatting result as the seven checks in source order; its properties are the ceiling and the issue and warning lemmas below. |
| Formatting.CheckLength | src/components/ResumeChecker/atsAnalyzer.js:139-146 | Length check: under 500 is an issue, under 1000 a warning worth 3, otherwise 5. |
| Formatting.CheckBullets | src/components/ResumeChecker/atsAnalyzer.js:149-155 | Five bullet glyphs score 5, otherwise an issue. |
| Formatting.CheckDates | src/components/ResumeChecker/atsAnalyzer.js:158-164 | Three date matches score 5, otherwise an issue. |
| Formatting.CheckQuantities | src/components/ResumeChecker/atsAnalyzer.js:167-173 | Two quantified achievements score 5, otherwise a warning. |
| Formatting.CheckActionVerbs | src/components/ResumeChecker/atsAnalyzer.js:176-188 | Five action verbs score 5, otherwise a warning. |
| Formatting.CheckLayout | src/components/ResumeChecker/atsAnalyzer.js:191-195 | Complex formatting is a warning, otherwise 3. |
| Formatting.CheckImages | src/components/ResumeChecker/atsAnalyzer.js:198-202 | Images are an issue, otherwise 2. |
| Formatting.FormattingCeiling | src/components/ResumeChecker/atsAnalyzer.js:133-211 | The formatting score is at most 30, above the declared 25, and is 30 iff nothing is reported. |
| Formatting.IssuesAreFailedChecks | src/components/ResumeChecker/atsAnalyzer.js:139-202 | The issues are exactly the messages of the checks that report an issue. |
| Formatting.WarningsAreFailedChecks | src/components/ResumeChecker/atsAnalyzer.js:139-202 | The warnings are exactly the messages of the checks that warn. |
| Formatting.IssueConditions | src/components/ResumeChecker/atsAnalyzer.js:139-202 | Each issue is reported iff its threshold is missed. |
| Formatting.WarningConditions | src/components/ResumeChecker/atsAnalyzer.js:139-195 | Each warning is reported iff its threshold is missed. |
| Keywords.Keywords | src/components/ResumeChecker/atsAnalyzer.js:213-313 | Defines the keyword result: the found skills per category, the soft, industry and trending lists, the score and the recommendations. |
| Keywords.ScoreOf | src/components/ResumeChecker/atsAnalyzer.js:278-301 | The keyword score is at most 22, above the declared 20, and is 22 iff all four counts reach their thresholds. |
| Keywords.RecommendationsOf | src/components/ResumeChecker/atsAnalyzer.js:283-301 | Each keyword recommendation is given iff its count is short; they come in the order skills, soft skills, trending technologies, and none is given twice. |
| Keywords.AnalyzeKeywordsAndSkills | src/components/ResumeChecker/atsAnalyzer.js:213-313 | The analysis method produces the keyword result of the text. |
| Keywords.FindTechnicalSkills | src/components/ResumeChecker/atsAnalyzer.js:257-261 | The category loop produces the per-category entries and their total. |
| Keywords.ScoreAndRecommend | src/components/ResumeChecker/atsAnalyzer.js:278-301 | The score and recommendations computed step by step are those of the four counts. |
| Keywords.ScoreMonotone | src/components/ResumeChecker/atsAnalyzer.js:278-301 | Finding more of anything never lowers the score. |
| Keywords.FoundByCategorySpec | src/components/ResumeChecker/atsAnalyzer.js:257-261 | There is one entry per category, in order, holding exactly the listed skills that occur in the text. |
| Keywords.FoundSkillsShape | src/components/ResumeChecker/atsAnalyzer.js:253-265 | `foundSkills` has the seven technical categories in order, then "Soft Skills"; each holds, in list order, exactly its skills that occur. |
| Keywords.TotalIsFoundEntries | src/components/ResumeChecker/atsAnalyzer.js:260 | `totalSkillsFound` is the number of skills in the category entries. |
| Keywords.JavaScriptAlsoCountsJava | src/components/ResumeChecker/atsAnalyzer.js:258 | A text naming JavaScript also counts Java, because skills are found by substring. |
| Keywords.LetterRCountsR | src/components/ResumeChecker/atsAnalyzer.js:258 | Any text containing the letter r counts the language R. |
| Compatibility.Compatibility | src/components/ResumeChecker/atsAnalyzer.js:315-384 | Defines the compatibility result as the five checks in source order; its properties are the ceiling and the issue and warning lemmas below. |
| Compatibility.MaxOf | src/components/ResumeChecker/atsAnalyzer.js:402 | `Math.max` is at least every count and equal to one of them. |
| Compatibility.ConsistencyOf | src/components/ResumeChecker/atsAnalyzer.js:401-409 | Dates are consistent iff there are none or one format holds at least 70% of them; the single issue is reported iff they are not. |
| Compatibility.CheckAtsCompatibility | src/components/ResumeChecker/atsAnalyzer.js:315-384 | The checks run in order produce the compatibility result of the text. |
| Compatibility.CheckWordCount | src/components/ResumeChecker/atsAnalyzer.js:321-334 | The five word-count tiers, with their points and messages. |
| Compatibility.CheckSpecialChars | src/components/ResumeChecker/atsAnalyzer.js:337-343 | Fewer than ten problematic characters score 3, otherwise a warning. |
| Compatibility.CheckConsistency | src/components/ResumeChecker/atsAnalyzer.js:346-351 | Consistent dates score 3; otherwise the consistency issues become issues. |
| Compatibility.CheckHeaders | src/components/ResumeChecker/atsAnalyzer.js:354-367 | Four standard headers score 4, otherwise a warning. |
| Compatibility.CheckContact | src/components/ResumeChecker/atsAnalyzer.js:370-374 | An e-mail address adds 2 and a phone number 1, with no message. |
| Compatibility.CompatibilityCeiling | src/components/ResumeChecker/atsAnalyzer.js:315-384 | The score is at most 18, above the declared 15, and is 18 iff nothing is reported and both contacts are found. |
| Compatibility.IssuesAreFailedChecks | src/components/ResumeChecker/atsAnalyzer.js:321-351 | The issues are exactly the messages of the checks that report an issue. |
| Compatibility.WarningsAreFailedChecks | src/components/ResumeChecker/atsAnalyzer.js:321-367 | The warnings are exactly the messages of the checks that warn. |
| Compatibility.IssueConditions | src/components/ResumeChecker/atsAnalyzer.js:321-351 | Each issue is reported iff its condition holds. |
| Compatibility.WarningConditions | src/components/ResumeChecker/atsAnalyzer.js:321-367 | Each warning is reported iff its condition holds. |
| Compatibility.SingleFormatIsConsistent | src/components/ResumeChecker/atsAnalyzer.js:397-407 | A résumé using one date format is consistent. |
| Compatibility.EvenSplitIsInconsistent | src/components/ResumeChecker/atsAnalyzer.js:404 | Two formats used equally often are inconsistent. |
| Analysis.Recommendations | src/components/ResumeChecker/atsAnalyzer.js:412-495 | Defines the recommendation list as the rules' contributions in source order; CriticalFirst, Grouped and ClosingEntry state its shape. |
| Analysis.Each | src/components/ResumeChecker/atsAnalyzer.js:426-433 | `forEach` push makes one entry per item, in order. |
| Analysis.RecommendationsFrom | src/components/ResumeChecker/atsAnalyzer.js:412-495 | The number of recommendations is the sum of what each rule contributes. |
| Analysis.GenerateRecommendations | src/components/ResumeChecker/atsAnalyzer.js:412-495 | The pushes produce the recommendation list of the analysis. |
| Analysis.AddMissingSections | src/components/ResumeChecker/atsAnalyzer.js:416-423 | One critical entry for all missing sections, when there are any. |
| Analysis.PushEach | src/components/ResumeChecker/atsAnalyzer.js:425-445 | One entry per message, appended in order. |
| Analysis.AddSkillsEntry | src/components/ResumeChecker/atsAnalyzer.js:448-455 | The skills entry is appended iff fewer than 8 skills are found. |
| Analysis.AddSoftSkillsEntry | src/components/ResumeChecker/atsAnalyzer.js:469-476 | The soft-skills entry is appended iff fewer than 3 are found. |
| Analysis.AddScoreEntry | src/components/ResumeChecker/atsAnalyzer.js:478-492 | The closing entry: positive from 80, "Good Foundation" from 60. |
| Analysis.CriticalFirst | src/components/ResumeChecker/atsAnalyzer.js:415-445 | An entry is critical iff it is among the first (missing ? 1 : 0) + issues + compatibility issues. |
| Analysis.Grouped | src/components/ResumeChecker/atsAnalyzer.js:412-495 | The list is critical entries, then important and suggestion entries, then the closing entry. |
| Analysis.CriticalPart | src/components/ResumeChecker/atsAnalyzer.js:415-445 | The critical part has the stated length and only critical entries. |
| Analysis.BeforeScore | src/components/ResumeChecker/atsAnalyzer.js:447-476 | The middle part holds only important and suggestion entries, none titled "Good Foundation". |
| Analysis.KindSplit | src/components/ResumeChecker/atsAnalyzer.js:447-492 | Appending non-critical entries keeps the critical ones where they were. |
| Analysis.ClosingEntry | src/components/ResumeChecker/atsAnalyzer.js:478-492 | The positive entry appears iff the score is at least 80, "Good Foundation" iff it is in [60, 80), and the one that appears is last. |
| Analysis.EndsWith | src/components/ResumeChecker/atsAnalyzer.js:478-494 | Nothing before the closing entry is positive or "Good Foundation". |
| Analysis.WarningsNotRecommended | src/components/ResumeChecker/atsAnalyzer.js:412-495 | Compatibility warnings and the keyword analysis's own recommendations never affect the list. |
| Analysis.PerformAtsAnalysis | src/components/ResumeChecker/atsAnalyzer.js:2-44 | The pipeline runs the four analyzers, sums their scores and adds the recommendations. |
| Analysis.Analysis | src/components/ResumeChecker/atsAnalyzer.js:2-44 | Defines the whole analysis: the four results, their summed score, maxScore 100 and the recommendations; OverallCeiling states its bounds. |
| Analysis.Combine | src/components/ResumeChecker/atsAnalyzer.js:34-41 | The overall score is the sum of the four scores, then the recommendations are generated. |
| Analysis.OverallCeiling | src/components/ResumeChecker/atsAnalyzer.js:16-41 | The overall score is the sum of the four and at most 170, while the reported maximum is 100. |
| Analysis.OverallCanExceedDeclared | src/components/ResumeChecker/atsAnalyzer.js:18 | A text with every section, and no images, scores above the declared 100 and is told it is excellent. |
| Analysis.AnalyzeExtracted | src/components/ResumeChecker/ResumeChecker.jsx:71-78 | Text under 50 characters after trimming is refused with the upload message; otherwise the analysis of the text. |
| Results.AtLeast | src/components/ResumeChecker/ResultsDisplay.jsx:17-18 | Comparing the percentage with a threshold equals comparing the cross-multiplied integers. |
| Results.BandOf | src/components/ResumeChecker/ResultsDisplay.jsx:16-28 | The band is green from 80%, yellow in [60%, 80%), red below. |
| Results.ScoreColor | src/components/ResumeChecker/ResultsDisplay.jsx:16-21 | Each text colour class is chosen iff the percentage is in its band. |
| Results.ScoreBgColor | src/components/ResumeChecker/ResultsDisplay.jsx:23-28 | Each background class is chosen iff the percentage is in its band. |
| Results.BandMonotone | src/components/ResumeChecker/ResultsDisplay.jsx:16-28 | A higher score never gets a worse colour. |
| Results.RoundedPercentage | src/components/ResumeChecker/ResultsDisplay.jsx:156 | `Math.round` gives the integer within a half of the exact percentage. |
| Results.CardBandAgrees | src/components/ResumeChecker/ResultsDisplay.jsx:156-160 | For the maxima the analyzers report, rounding before banding gives the same band as the exact percentage. |
| Results.OverallGrade | src/components/ResumeChecker/ResultsDisplay.jsx:30-36 | Each letter is given iff the percentage is in its range. |
| Results.GradeMonotone | src/components/ResumeChecker/ResultsDisplay.jsx:30-36 | A higher percentage never gets a lower grade. |
| Results.OverallPercentage | src/components/ResumeChecker/ResultsDisplay.jsx:38 | With the declared maximum of 100, the percentage shown is the overall score. |
| Results.GradeMatchesClosingEntry | src/components/ResumeChecker/ResultsDisplay.jsx:38-39 | Grade A iff the list holds the positive entry; B or C iff it holds "Good Foundation". |
| Results.PercentageCanExceed100 | src/components/ResumeChecker/ResultsDisplay.jsx:38 | A text with every section, and no images, shows above 100% with grade A. |
| Results.SectionSummary | src/components/ResumeChecker/atsAnalyzer.js:129 | The "found out of total" count is at most the number of sections, and equal to it iff all are found. |
| Results.GroupRecommendations | src/components/ResumeChecker/ResultsDisplay.jsx:387-391 | One group per type, in order of first appearance, each holding exactly that type's entries in order. |
| Results.CriticalGroup | src/components/ResumeChecker/ResultsDisplay.jsx:189 | The critical group and the "Critical Issues" count are the leading critical entries; when there are any, they are the first group. |
| Grouping.GroupBy | src/components/CompaniesContent.jsx:32-38 | The `reduce` over a key-indexed object gives, per distinct key in order of creation, the elements with that key. |
| Grouping.Groups | src/components/CompaniesContent.jsx:32-38 | One group per distinct key, in order of first appearance, each holding the elements with that key. |
| Grouping.FirstKeysDistinct | src/components/CompaniesContent.jsx:33-35 | A key's array is created once: no key appears twice. |
| Grouping.FirstKeysSpec | src/components/CompaniesContent.jsx:32-38 | The keys are exactly the keys of the elements. |
| Grouping.MembersSpec | src/components/CompaniesContent.jsx:36 | A group is, in order, exactly the elements with its key, and it is not empty. |
| Grouping.GroupSizesSum | src/components/CompaniesContent.jsx:32-38 | The group sizes add up to the number of elements. |
| Editor.PersonalSet | src/components/ResumeGenerator/ResumeGenerator.jsx:76-84 | The updated field has the new value; every other field is unchanged. |
| Editor.EducationSet | src/components/ResumeGenerator/ResumeGenerator.jsx:86-93 | The same, for an education entry. |
| Editor.ExperienceSet | src/components/ResumeGenerator/ResumeGenerator.jsx:116-123 | The same, for an experience entry; its responsibilities are kept. |
| Editor.ProjectSet | src/components/ResumeGenerator/ResumeGenerator.jsx:183-190 | The same, for a project; its description is kept. |
| Editor.SkillsSet | src/components/ResumeGenerator/ResumeGenerator.jsx:249-257 | The same, for the skills. |
| Editor.CertificationSet | src/components/ResumeGenerator/ResumeGenerator.jsx:917-956 | The same, for a certification. |
| Editor.ReplaceAt | src/components/ResumeGenerator/ResumeGenerator.jsx:89 | `map` with an index test changes at most the entry at the index, and nothing when the index is out of range. |
| Editor.RemoveAt | src/components/ResumeGenerator/ResumeGenerator.jsx:112 | `filter` on the index removes exactly the entry at the index, or nothing when it is out of range. |
| Editor.UpdatePersonalInfo | src/components/ResumeGenerator/ResumeGenerator.jsx:76-84 | Only the personal field changes. |
| Editor.UpdateEducation | src/components/ResumeGenerator/ResumeGenerator.jsx:86-93 | Only the indexed education entry's field changes. |
| Editor.AddEducation | src/components/ResumeGenerator/ResumeGenerator.jsx:95-107 | A blank entry is appended; nothing else changes. |
| Editor.RemoveEducation | src/components/ResumeGenerator/ResumeGenerator.jsx:109-114 | Only the indexed entry is removed. |
| Editor.UpdateExperience | src/components/ResumeGenerator/ResumeGenerator.jsx:116-123 | Only the indexed experience entry's field changes. |
| Editor.AddExperience | src/components/ResumeGenerator/ResumeGenerator.jsx:139-150 | A blank entry with one empty responsibility is appended. |
| Editor.RemoveExperience | src/components/ResumeGenerator/ResumeGenerator.jsx:152-157 | Only the indexed entry is removed. |
| Editor.WithResponsibilities | src/components/ResumeGenerator/ResumeGenerator.jsx:125-181 | Only the indexed entry's responsibilities change. |
| Editor.UpdateResponsibility | src/components/ResumeGenerator/ResumeGenerator.jsx:125-137 | Only the indexed responsibility of the indexed entry changes. |
| Editor.AddResponsibility | src/components/ResumeGenerator/ResumeGenerator.jsx:159-169 | An empty responsibility is appended to the indexed entry. |
| Editor.RemoveResponsibility | src/components/ResumeGenerator/ResumeGenerator.jsx:171-181 | Only the indexed responsibility is removed. |
| Editor.UpdateProject | src/components/ResumeGenerator/ResumeGenerator.jsx:183-190 | Only the indexed project's field changes. |
| Editor.AddProject | src/components/ResumeGenerator/ResumeGenerator.jsx:206-216 | A blank project with one empty description item is appended. |
| Editor.RemoveProject | src/components/ResumeGenerator/ResumeGenerator.jsx:218-223 | Only the indexed project is removed. |
| Editor.WithDescription | src/components/ResumeGenerator/ResumeGenerator.jsx:192-247 | Only the indexed project's description changes. |
| Editor.UpdateProjectDescription | src/components/ResumeGenerator/ResumeGenerator.jsx:192-204 | Only the indexed description item changes. |
| Editor.AddProjectDescription | src/components/ResumeGenerator/ResumeGenerator.jsx:225-235 | An empty item is appended to the indexed description. |
| Editor.RemoveProjectDescription | src/components/ResumeGenerator/ResumeGenerator.jsx:237-247 | Only the indexed description item is removed. |
| Editor.UpdateSkills | src/components/ResumeGenerator/ResumeGenerator.jsx:249-257 | Only the skills field changes. |
| Editor.AddCertification | src/components/ResumeGenerator/ResumeGenerator.jsx:879-886 | A blank certification is appended. |
| Editor.RemoveCertification | src/components/ResumeGenerator/ResumeGenerator.jsx:897-903 | Only the indexed certification is removed. |
| Editor.UpdateCertification | src/components/ResumeGenerator/ResumeGenerator.jsx:913-958 | Only the indexed certification's field changes. |
| Editor.OfferedKeepsLists | src/components/ResumeGenerator/ResumeGenerator.jsx:515 | Any control the form shows keeps every list, nested ones included, non-empty. |
| Editor.FormKeepsLists | src/components/ResumeGenerator/ResumeGenerator.jsx:612 | From any state without an empty list, any sequence of the editing controls keeps every list non-empty. Loading the sample résumé is not one of the modelled controls. |
| Editor.InitialHasNoEmptyList | src/components/ResumeGenerator/ResumeGenerator.jsx:11-64 | The initial state has one entry in every list. |
| Editor.RemoveUnguardedEmpties | src/components/ResumeGenerator/ResumeGenerator.jsx:109-114 | Without the guard, removing the only education entry empties the list. |
| Escape.EscapeLatex | src/components/ResumeGenerator/latexGenerator.js:6-19 | Defines the escape as the ten chained global replaces applied in source order; EscapeIsPerChar and EscapeIdentity state what it does. |
| Escape.EscapeChar | src/components/ResumeGenerator/latexGenerator.js:9-18 | A special character becomes a backslash sequence; any other character is kept. |
| Escape.EscapeIsPerChar | src/components/ResumeGenerator/latexGenerator.js:6-19 | The ten chained global replaces escape each character independently. A backslash's own braces are not escaped again by the later rules. |
| Escape.EscapeIdentity | src/components/ResumeGenerator/latexGenerator.js:6-19 | Escaping leaves a text unchanged iff it has no special character. |
| Escape.EscapeEachIdentity | src/components/ResumeGenerator/latexGenerator.js:6-19 | Escaping never shortens a text, and leaves it unchanged iff it has no special character. |
| Escape.BackslashAndCaret | src/components/ResumeGenerator/latexGenerator.js:9-16 | A backslash becomes `\textbackslash\{\}`: its braces are escaped by the later rules. A caret becomes `\textasciicircum{}`. |
| Escape.StripProtocol | src/components/ResumeGenerator/latexGenerator.js:25 | Removing the protocol leaves a suffix of the URL. |
| Escape.FormatUrl | src/components/ResumeGenerator/latexGenerator.js:22-27 | An empty URL gives nothing; any other URL gives a link to `https://www.`. |
| Escape.ProtocolIgnored | src/components/ResumeGenerator/latexGenerator.js:25-26 | The same link comes out with http://, https:// or no protocol. |
| Latex.AppendContact | src/components/ResumeGenerator/latexGenerator.js:37-51 | A filled-in contact field appends its separator and link. |
| Latex.Header | src/components/ResumeGenerator/latexGenerator.js:30-57 | Defines the header: the centred name and the filled-in contacts joined by separators; HeaderLinks and HeaderWithoutContacts state its properties. |
| Latex.GenerateHeader | src/components/ResumeGenerator/latexGenerator.js:30-57 | The header built step by step is the header of the personal info. |
| Latex.HeaderLinks | src/components/ResumeGenerator/latexGenerator.js:37-51 | Each filled-in contact field appears in the header behind a separator. |
| Latex.HeaderWithoutContacts | src/components/ResumeGenerator/latexGenerator.js:33-54 | With no contact field, the header is name and phone only. |
| Latex.EducationSection | src/components/ResumeGenerator/latexGenerator.js:60-93 | Defines the education section; EducationSectionSpec states its exact form. |
| Latex.GenerateEducation | src/components/ResumeGenerator/latexGenerator.js:60-93 | The loop builds the education section. |
| Latex.EducationSectionSpec | src/components/ResumeGenerator/latexGenerator.js:61-92 | The section is empty iff there is no entry; otherwise it is the frame around the complete entries. |
| Latex.DegreeTextSpec | src/components/ResumeGenerator/latexGenerator.js:71-80 | The escaped degree starts the degree text, and is all of it iff there is no GPA and no honors. |
| Latex.DegreeExtrasShown | src/components/ResumeGenerator/latexGenerator.js:74-80 | A GPA appears as "GPA: " and its escaped value; honors appear escaped. |
| Latex.ItemList | src/components/ResumeGenerator/latexGenerator.js:120-133 | Defines a bullet list of the trimmed, escaped non-blank items; ItemListSpec states its properties. |
| Latex.GenerateItems | src/components/ResumeGenerator/latexGenerator.js:120-133 | The loop builds the item list of the non-blank items. |
| Latex.ItemListSpec | src/components/ResumeGenerator/latexGenerator.js:120-133 | The item list is empty iff every item is blank; each non-blank item appears escaped and trimmed. |
| Latex.AppendExperience | src/components/ResumeGenerator/latexGenerator.js:113-134 | One complete experience entry appends its heading and item list. |
| Latex.ExperienceSection | src/components/ResumeGenerator/latexGenerator.js:96-143 | Defines the experience section guarded by `some`; ExperienceSectionSpec states its exact form. |
| Latex.GenerateExperience | src/components/ResumeGenerator/latexGenerator.js:96-143 | The loop builds the experience section. |
| Latex.EmitExperience | src/components/ResumeGenerator/latexGenerator.js:106-136 | The `forEach` starting from the opening appends the complete entries, each heading followed by its item list, in order. |
| Latex.ExperienceSectionSpec | src/components/ResumeGenerator/latexGenerator.js:97-142 | The section is empty iff no entry has a non-blank heading field; otherwise it is the frame around exactly the complete entries, in order, so every complete entry appears (even one whose fields are only white space) and no incomplete one does. |
| Latex.AppendProject | src/components/ResumeGenerator/latexGenerator.js:163-183 | One complete project appends its heading and item list. |
| Latex.ProjectsSection | src/components/ResumeGenerator/latexGenerator.js:146-190 | Defines the projects section guarded by `some`; ProjectsSectionSpec states its exact form. |
| Latex.GenerateProjects | src/components/ResumeGenerator/latexGenerator.js:146-190 | The loop builds the projects section. |
| Latex.EmitProjects | src/components/ResumeGenerator/latexGenerator.js:156-184 | The `forEach` starting from the opening appends the complete projects, each heading followed by its item list, in order. |
| Latex.ProjectsSectionSpec | src/components/ResumeGenerator/latexGenerator.js:147-189 | The section is empty iff no project has a non-blank heading field; otherwise it is the frame around exactly the complete projects, in order, so every complete project appears (even one whose fields are only white space) and no incomplete one does. |
| Latex.PushSkill | src/components/ResumeGenerator/latexGenerator.js:207-221 | A filled-in skill category pushes its line. |
| Latex.SkillsSection | src/components/ResumeGenerator/latexGenerator.js:193-229 | Defines the skills section over the filled-in technical categories; SkillsSectionSpec and SkillsShown state its properties. |
| Latex.GenerateSkills | src/components/ResumeGenerator/latexGenerator.js:193-229 | The skills section built step by step is the skills section of the skills. |
| Latex.SkillsSectionSpec | src/components/ResumeGenerator/latexGenerator.js:194-196 | The section is empty iff the four technical categories are empty; soft skills and spoken languages never matter. |
| Latex.SkillsShown | src/components/ResumeGenerator/latexGenerator.js:205-226 | Each filled-in category has its line, and every line appears in the section. |
| Latex.LatexDocument | src/components/ResumeGenerator/latexGenerator.js:2-347 | Defines the document: the opening, the author line, the template, the header, the four sections and the closing; DocumentFrame and CertificationsNotEmitted state its properties. |
| Latex.GenerateLatexCode | src/components/ResumeGenerator/latexGenerator.js:2-347 | The document is the author line, the template, the header and the four sections, in order. |
| Latex.CertificationsNotEmitted | src/components/ResumeGenerator/latexGenerator.js:3 | Certifications, soft skills and spoken languages never reach the document. |
| Latex.NoSections | src/components/ResumeGenerator/latexGenerator.js:340 | With no education, no experience or project with content and no technical skill, no section is emitted. |
| Latex.DocumentFrame | src/components/ResumeGenerator/latexGenerator.js:232-344 | The document starts with the author line, contains the header and ends with `\end{document}`. |
| Companies.IndustryOptions | src/components/CompaniesContent.jsx:22 | Defines the industry options as "All" then the first-appearance keys; IndustryOptionsSpec states what they hold. |
| Companies.IndustryOptionsSpec | src/components/CompaniesContent.jsx:22 | The options are "All" followed by exactly the data's industries, each once; the "Industries" figure (line 98) is the number of distinct industries. |
| Companies.FilterCards | src/components/CompaniesContent.jsx:25-29 | Defines the card filter; FilterCardsSpec states which cards are shown. |
| Companies.FilterCardsSpec | src/components/CompaniesContent.jsx:25-29 | A company is shown iff its name contains the search (ignoring case) and its industry is selected or "All"; order is kept; an empty search with "All" shows everything. |
| Companies.GroupBySector | src/components/CompaniesContent.jsx:32-38 | One group per shown industry, in order of first appearance, holding exactly that industry's shown companies. |
| Companies.SectorsPartition | src/components/CompaniesContent.jsx:32-38 | Groups are non-empty, in order, hold exactly their industry's companies, never repeat an industry, and sizes add up to the number shown. |
| Companies.LargestSector | src/components/CompaniesContent.jsx:103 | Defines the largest group size; LargestSectorSpec and LargestSectorBounds state it. |
| Companies.LargestSectorSpec | src/components/CompaniesContent.jsx:103 | The "Largest Sector" figure is at least every group size and equal to one; 0 with no groups. |
| Companies.LargestSectorBounds | src/components/CompaniesContent.jsx:103 | The figure is 0 iff nothing is shown, and never more than the number shown. |
| Companies.IndustryColor | src/components/CompaniesContent.jsx:74-85 | Defines the colour lookup with its default; IndustryColorSpec states it. |
| Companies.IndustryColorSpec | src/components/CompaniesContent.jsx:74-85 | The six listed industries get their own colours; any other industry gets the default. |
| Companies.StrLessIrreflexive | src/components/Companies_improved.jsx:12 | The string order of `sort` is irreflexive. |
| Companies.StrLessTransitive | src/components/Companies_improved.jsx:12 | ... and transitive. |
| Companies.StrLessTotal | src/components/Companies_improved.jsx:12 | ... and total on distinct strings. |
| Companies.Insert | src/components/Companies_improved.jsx:12 | Insertion keeps exactly the old elements plus the new one. |
| Companies.Sort | src/components/Companies_improved.jsx:12 | Sorting keeps exactly the same elements. |
| Companies.InsertSorted | src/components/Companies_improved.jsx:12 | Inserting a new element into a strictly sorted list keeps it strictly sorted. |
| Companies.SortSorted | src/components/Companies_improved.jsx:12 | Sorting distinct strings gives a strictly increasing list. |
| Companies.SortedIndustries | src/components/Companies_improved.jsx:11-14 | Defines the sorted industry options; SortedIndustriesSpec states what they hold. |
| Companies.SortedIndustriesSpec | src/components/Companies_improved.jsx:11-14 | The options are exactly the data's industries, in strictly increasing order, each once. |
| Companies.FilterRows | src/components/Companies_improved.jsx:17-24 | Defines the row filter; FilterRowsSpec states which rows are shown. |
| Companies.FilterRowsSpec | src/components/Companies_improved.jsx:17-24 | A row is shown iff its name or industry contains the search and its industry is selected (or none is); order is kept; no search and no selection shows everything. |
| Companies.IndustryStats | src/components/Companies_improved.jsx:27-34 | The total is the number shown; the count map has exactly the shown industries, each mapped to its number of shown companies. |
| Companies.IndustryCountsSum | src/components/Companies_improved.jsx:27-34 | The per-industry counts add up to the total. |
| Companies.ShownCount | src/components/Companies_improved.jsx:188-192 | Defines `industryCount[k] \|\| 0`; ShownCountSpec states it. |
| Companies.ShownCountSpec | src/components/Companies_improved.jsx:188-192 | `industryCount[k] \|\| 0` is the number of shown companies of industry k, also when none is shown. |
| Companies.FilterBySearch | src/components/Companies/CompaniesTable.jsx:154-157 | Defines the search filter; FilterBySearchSpec states which rows are shown. |
| Companies.FilterBySearchSpec | src/components/Companies/CompaniesTable.jsx:154-157 | A row is shown iff its name or industry contains the search; order is kept; an empty search shows everything. |
| Companies.SearchIsRowsWithoutSelection | src/components/Companies/CompaniesTable.jsx:154-157 | The searchable table shows what the data table shows with no industry selected. |
| Companies.TableStats | src/components/Companies/CompaniesTable.jsx:160-165 | Defines the four figures over the data and the filtered rows; TableStatsSpec states them. |
| Companies.TableStatsSpec | src/components/Companies/CompaniesTable.jsx:160-165 | Shown is at most the total. The total, the industry count and the IT count cover the whole data and do not depend on the search. The industry count is the number of distinct industries, and the IT count the number of IT companies. |

## Left out

- PDF text extraction and the layout facts (complex formatting, images) are inputs, not computed.
- The LaTeX compilation service, downloads, the clipboard and all rendering are left out.
- The analyzers' `console.log` calls and the `analysis` summary strings are left out. The found-sections count behind one of those strings is modelled (`Results.SectionSummary`).
- `performATSAnalysis` also accepts an object holding the text and metadata. Only the plain-text call is modelled.
- `toLowerCase` is ASCII lower-casing. Non-ASCII letters are kept as they are.
- Lengths count Dafny characters, not UTF-16 code units. The same holds for `Patterns.SpecialCharCount`: the source's non-`u` regex counts a character outside the Basic Multilingual Plane, such as an emoji, as two problematic characters, and the model counts it as one. So five emoji give a warning in the source and none in the model.
- The string order used for sorting compares characters, not UTF-16 code units. The two differ only for characters outside the Basic Multilingual Plane.
- Results.BandOf: percentages are exact rationals. Floating-point rounding of `score / maxScore * 100` is not modelled.
- Results.RoundedPercentage: `Math.round` is modelled for non-negative exact values only, which is all the analyzers produce.
- Latex.GenerateLatexCode: the fixed template text between the author line and the header is a parameter (`preamble`), not spelled out.
- Latex.NoSections: the blank initial form is not evaluated as a concrete document, because the literal template strings make that proof too expensive. The general statement is proved instead.
- Inherited object keys: JavaScript objects also answer keys such as "constructor" from their prototype. The model's colour map and count maps hold only their own keys, so an industry with such a name is not modelled as the source would treat it.
- Grouping.GroupBy: object key order is modelled as insertion order. JavaScript lists integer-like keys first; industries and recommendation types are never integer-like.
- `loadSampleData` is left out, and so is the sample résumé. The "Load Sample Data" button, shown at all times, replaces the whole state with that sample. The sample has no certifications list and no project dates, so after loading, the certification controls would fail on the missing list. `Editor.FormKeepsLists` covers only the editing controls.
- The certification fields are edited inline in the form, so they are modelled as updaters. The document never emits them (`Latex.CertificationsNotEmitted`).
- `Companies_new.jsx` is left out: its filter is the searchable table's, already modelled. `Companies.jsx` and `Companies_old.jsx` hold only table styling.
- The "Total Companies" figure (`companyData.length`) of the card page is a plain length and has no member of its own.
