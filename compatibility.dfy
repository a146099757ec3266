/** The ATS compatibility check: word count tiers, problematic characters,
    consistent date formats, standard section headers and the presence of
    an e-mail address and a phone number. */
module Compatibility {
  import opened Text
  import opened Patterns
  import opened Tally

  datatype CompatMessage =
    | TooFewWords | MoreDetail | QuiteLong | TooManyWords
    | MinimizeSpecialChars | UnifyDates | StandardHeaderNames

  function MessageText(m: CompatMessage): string {
    match m
    case TooFewWords => "Resume is too short - ATS systems may flag as incomplete"
    case MoreDetail => "Resume could be more detailed for better ATS scoring"
    case QuiteLong => "Resume is quite long - consider condensing for better ATS processing"
    case TooManyWords => "Resume is too long - ATS systems may not process all content"
    case MinimizeSpecialChars => "Minimize special characters that might cause ATS parsing issues"
    case UnifyDates => "Use consistent date formatting throughout your resume"
    case StandardHeaderNames => "Use standard section headers for better ATS recognition"
  }

  /** The `maxScore` the compatibility check reports. */
  const DeclaredMaxScore: nat := 15

  const StandardHeaders: seq<string> := [
    "experience", "education", "skills", "summary", "objective", "projects",
    "work experience", "professional experience", "technical skills"
  ]

  datatype ConsistencyResult = ConsistencyResult(isConsistent: bool, issues: seq<CompatMessage>)

  datatype CompatibilityResult = CompatibilityResult(
    score: nat, maxScore: nat, compatibilityIssues: seq<CompatMessage>,
    compatibilityWarnings: seq<CompatMessage>, wordCount: nat)

  /** `counts.reduce((sum, count) => sum + count, 0)` */
  function Sum(counts: seq<nat>): nat {
    if counts == [] then 0 else Sum(DropLast(counts)) + Last(counts)
  }

  /** `Math.max(...counts)`, taken as 0 for no counts (none of the callers
      passes an empty list). */
  function MaxOf(counts: seq<nat>): (m: nat)
    ensures forall i :: 0 <= i < |counts| ==> counts[i] <= m
    ensures counts != [] ==> exists i :: 0 <= i < |counts| && counts[i] == m
  {
    if counts == [] then 0
    else
      var rest := MaxOf(DropLast(counts));
      assert forall i :: 0 <= i < |counts| - 1 ==> counts[i] == DropLast(counts)[i];
      if Last(counts) > rest then Last(counts) else rest
  }

  /** Matches of the year, numeric and month date formats, in that order. */
  function DateFormatCounts(text: string): seq<nat> {
    [CountMatches(text, YearAt, 0), CountMatches(text, SlashDateAt, 0), CountMatches(text, MonthDateAt, 0)]
  }

  /** The ratio test `maxFormat / totalDates < 0.7`, cross-multiplied: the
      dates are consistent when there are none or when one format accounts
      for at least 70% of them. */
  function ConsistencyOf(counts: seq<nat>): (r: ConsistencyResult)
    ensures r.isConsistent <==> Sum(counts) == 0
                                || exists i :: 0 <= i < |counts| && 10 * counts[i] >= 7 * Sum(counts)
    ensures r.issues == if r.isConsistent then [] else [UnifyDates]
  {
    var total := Sum(counts);
    var maxFormat := MaxOf(counts);
    if total > 0 && 10 * maxFormat < 7 * total then ConsistencyResult(false, [UnifyDates])
    else ConsistencyResult(true, [])
  }

  /** `checkFormattingConsistency(text)` */
  function FormattingConsistency(text: string): ConsistencyResult {
    ConsistencyOf(DateFormatCounts(text))
  }

  function HeaderCount(text: string): nat { |FoundIn(Lower(text), StandardHeaders)| }

  function WordCountCheck(words: nat): Outcome<CompatMessage> {
    if words < 200 then Issue(TooFewWords)
    else if words < 400 then Warn(MoreDetail, 2)
    else if words <= 800 then Award(5)
    else if words <= 1200 then Warn(QuiteLong, 3)
    else Issue(TooManyWords)
  }

  function SpecialCharCheck(special: nat): Outcome<CompatMessage> {
    if special < 10 then Award(3) else Warn(MinimizeSpecialChars, 0)
  }

  function ConsistencyCheck(consistent: bool): Outcome<CompatMessage> {
    if consistent then Award(3) else Issue(UnifyDates)
  }

  function HeaderCheck(headers: nat): Outcome<CompatMessage> {
    if headers >= 4 then Award(4) else Warn(StandardHeaderNames, 0)
  }

  function ContactCheck(present: bool, points: nat): Outcome<CompatMessage> {
    Award(if present then points else 0)
  }

  /** The six checks recorded in the order the source runs them. */
  function ChecksOf(words: nat, special: nat, consistent: bool, headers: nat, email: bool, phone: bool)
    : Tally<CompatMessage>
  {
    var t2 := Record(Record(Empty(), WordCountCheck(words)), SpecialCharCheck(special));
    var t4 := Record(Record(t2, ConsistencyCheck(consistent)), HeaderCheck(headers));
    Record(Record(t4, ContactCheck(email, 2)), ContactCheck(phone, 1))
  }

  /** `checkATSCompatibility` as a function of the text. */
  function Compatibility(text: string): CompatibilityResult {
    var t := ChecksOf(WordCount(text), SpecialCharCount(text), FormattingConsistency(text).isConsistent,
                      HeaderCount(text), HasEmail(text), HasPhone(text));
    CompatibilityResult(t.score, DeclaredMaxScore, t.issues, t.warnings, WordCount(text))
  }

  /** `checkATSCompatibility(text, metadata)`; the metadata argument is not
      read by the check. */
  method CheckAtsCompatibility(text: string) returns (r: CompatibilityResult)
    ensures r == Compatibility(text)
  {
    var t := Empty();
    var wordCount := WordCount(text);
    t := CheckWordCount(t, wordCount);
    t := CheckSpecialChars(t, text);
    t := CheckConsistency(t, text);
    t := CheckHeaders(t, text);
    t := CheckContact(t, text);
    r := CompatibilityResult(t.score, DeclaredMaxScore, t.issues, t.warnings, wordCount);
  }

  /** The five word count tiers. */
  method CheckWordCount(st: Tally<CompatMessage>, wordCount: nat) returns (r: Tally<CompatMessage>)
    ensures r == Record(st, WordCountCheck(wordCount))
  {
    r := st;
    if wordCount < 200 {
      r := r.(issues := r.issues + [TooFewWords]);
    } else if wordCount < 400 {
      r := r.(warnings := r.warnings + [MoreDetail]);
      r := r.(score := r.score + 2);
    } else if wordCount <= 800 {
      r := r.(score := r.score + 5);
    } else if wordCount <= 1200 {
      r := r.(score := r.score + 3);
      r := r.(warnings := r.warnings + [QuiteLong]);
    } else {
      r := r.(issues := r.issues + [TooManyWords]);
    }
  }

  /** Fewer than ten problematic characters. */
  method CheckSpecialChars(st: Tally<CompatMessage>, text: string) returns (r: Tally<CompatMessage>)
    ensures r == Record(st, SpecialCharCheck(SpecialCharCount(text)))
  {
    r := st;
    var specialCharMatches := SpecialCharCount(text);
    if specialCharMatches < 10 {
      r := r.(score := r.score + 3);
    } else {
      r := r.(warnings := r.warnings + [MinimizeSpecialChars]);
    }
  }

  /** Consistent dates score 3; otherwise the consistency issues are spread
      into the compatibility issues. */
  method CheckConsistency(st: Tally<CompatMessage>, text: string) returns (r: Tally<CompatMessage>)
    ensures r == Record(st, ConsistencyCheck(FormattingConsistency(text).isConsistent))
  {
    r := st;
    var consistentFormatting := FormattingConsistency(text);
    if consistentFormatting.isConsistent {
      r := r.(score := r.score + 3);
    } else {
      r := r.(issues := r.issues + consistentFormatting.issues);
    }
  }

  /** At least four standard headers. */
  method CheckHeaders(st: Tally<CompatMessage>, text: string) returns (r: Tally<CompatMessage>)
    ensures r == Record(st, HeaderCheck(HeaderCount(text)))
  {
    r := st;
    var foundHeaders := HeaderCount(text);
    if foundHeaders >= 4 {
      r := r.(score := r.score + 4);
    } else {
      r := r.(warnings := r.warnings + [StandardHeaderNames]);
    }
  }

  /** An e-mail address scores 2 and a phone number 1, silently. */
  method CheckContact(st: Tally<CompatMessage>, text: string) returns (r: Tally<CompatMessage>)
    ensures r == Record(Record(st, ContactCheck(HasEmail(text), 2)), ContactCheck(HasPhone(text), 1))
  {
    r := st;
    if HasEmail(text) {
      r := r.(score := r.score + 2);
    }
    if HasPhone(text) {
      r := r.(score := r.score + 1);
    }
  }

  /** The compatibility score reaches 18, not the declared 15, and reaches it
      exactly when nothing is reported and both contact details are found. */
  lemma CompatibilityCeiling(words: nat, special: nat, consistent: bool, headers: nat, email: bool, phone: bool)
    ensures var r := ChecksOf(words, special, consistent, headers, email, phone);
      && r.score <= 18 && 18 > DeclaredMaxScore
      && (r.score == 18 <==> r.issues == [] && r.warnings == [] && email && phone)
  {
    var r1 := Record(Empty(), WordCountCheck(words));
    var r2 := Record(r1, SpecialCharCheck(special));
    var r3 := Record(r2, ConsistencyCheck(consistent));
    var r4 := Record(r3, HeaderCheck(headers));
    RecordStep(Empty(), WordCountCheck(words), 5);
    RecordStep(r1, SpecialCharCheck(special), 3);
    RecordStep(r2, ConsistencyCheck(consistent), 3);
    RecordStep(r3, HeaderCheck(headers), 4);
    assert Record(Record(r4, ContactCheck(email, 2)), ContactCheck(phone, 1))
        == ChecksOf(words, special, consistent, headers, email, phone);
  }

  /** The issues hold exactly the messages of the checks that report an issue. */
  lemma IssuesAreFailedChecks(words: nat, special: nat, consistent: bool, headers: nat, email: bool, phone: bool,
                              m: CompatMessage)
    ensures m in ChecksOf(words, special, consistent, headers, email, phone).issues
            <==> WordCountCheck(words) == Issue(m) || ConsistencyCheck(consistent) == Issue(m)
  {
    var r1 := Record(Empty(), WordCountCheck(words));
    var r2 := Record(r1, SpecialCharCheck(special));
    var r3 := Record(r2, ConsistencyCheck(consistent));
    var r4 := Record(r3, HeaderCheck(headers));
    var r5 := Record(r4, ContactCheck(email, 2));
    RecordMessages(Empty(), WordCountCheck(words), m);
    RecordMessages(r1, SpecialCharCheck(special), m);
    RecordMessages(r2, ConsistencyCheck(consistent), m);
    RecordMessages(r3, HeaderCheck(headers), m);
    RecordMessages(r4, ContactCheck(email, 2), m);
    RecordMessages(r5, ContactCheck(phone, 1), m);
  }

  /** The warnings hold exactly the messages of the checks that warn. */
  lemma WarningsAreFailedChecks(words: nat, special: nat, consistent: bool, headers: nat, email: bool, phone: bool,
                                m: CompatMessage)
    ensures m in ChecksOf(words, special, consistent, headers, email, phone).warnings
            <==> (WordCountCheck(words).Warn? && WordCountCheck(words).warning == m)
                 || SpecialCharCheck(special) == Warn(m, 0) || HeaderCheck(headers) == Warn(m, 0)
  {
    var r1 := Record(Empty(), WordCountCheck(words));
    var r2 := Record(r1, SpecialCharCheck(special));
    var r3 := Record(r2, ConsistencyCheck(consistent));
    var r4 := Record(r3, HeaderCheck(headers));
    var r5 := Record(r4, ContactCheck(email, 2));
    RecordMessages(Empty(), WordCountCheck(words), m);
    RecordMessages(r1, SpecialCharCheck(special), m);
    RecordMessages(r2, ConsistencyCheck(consistent), m);
    RecordMessages(r3, HeaderCheck(headers), m);
    RecordMessages(r4, ContactCheck(email, 2), m);
    RecordMessages(r5, ContactCheck(phone, 1), m);
  }

  /** Each issue is reported exactly when its condition holds. */
  lemma IssueConditions(words: nat, special: nat, consistent: bool, headers: nat, email: bool, phone: bool)
    ensures var r := ChecksOf(words, special, consistent, headers, email, phone);
      && (TooFewWords in r.issues <==> words < 200)
      && (TooManyWords in r.issues <==> words > 1200)
      && (UnifyDates in r.issues <==> !consistent)
  {
    IssuesAreFailedChecks(words, special, consistent, headers, email, phone, TooFewWords);
    IssuesAreFailedChecks(words, special, consistent, headers, email, phone, TooManyWords);
    IssuesAreFailedChecks(words, special, consistent, headers, email, phone, UnifyDates);
  }

  /** Each warning is reported exactly when its condition holds. */
  lemma WarningConditions(words: nat, special: nat, consistent: bool, headers: nat, email: bool, phone: bool)
    ensures var r := ChecksOf(words, special, consistent, headers, email, phone);
      && (MoreDetail in r.warnings <==> 200 <= words < 400)
      && (QuiteLong in r.warnings <==> 800 < words <= 1200)
      && (MinimizeSpecialChars in r.warnings <==> special >= 10)
      && (StandardHeaderNames in r.warnings <==> headers < 4)
  {
    WarningsAreFailedChecks(words, special, consistent, headers, email, phone, MoreDetail);
    WarningsAreFailedChecks(words, special, consistent, headers, email, phone, QuiteLong);
    WarningsAreFailedChecks(words, special, consistent, headers, email, phone, MinimizeSpecialChars);
    WarningsAreFailedChecks(words, special, consistent, headers, email, phone, StandardHeaderNames);
  }

  /** A resume that uses a single date format is always consistent. */
  lemma SingleFormatIsConsistent(counts: seq<nat>, k: nat)
    requires k < |counts|
    requires forall i :: 0 <= i < |counts| && i != k ==> counts[i] == 0
    ensures ConsistencyOf(counts).isConsistent
  {
    SumOfSingle(counts, k);
  }

  lemma {:induction false} SumOfSingle(counts: seq<nat>, k: nat)
    requires k < |counts|
    requires forall i :: 0 <= i < |counts| && i != k ==> counts[i] == 0
    ensures Sum(counts) == counts[k]
  {
    if k < |counts| - 1 {
      SumOfSingle(DropLast(counts), k);
    } else {
      SumOfZeros(DropLast(counts));
    }
  }

  lemma {:induction false} SumOfZeros(counts: seq<nat>)
    requires forall i :: 0 <= i < |counts| ==> counts[i] == 0
    ensures Sum(counts) == 0
  {
    if counts != [] {
      SumOfZeros(DropLast(counts));
    }
  }

  /** Two formats used equally often are inconsistent (each holds half). */
  lemma EvenSplitIsInconsistent(n: nat)
    requires n > 0
    ensures !ConsistencyOf([n, n, 0]).isConsistent
  {
    var counts := [n, n, 0];
    assert DropLast(counts) == [n, n] && DropLast([n, n]) == [n] && DropLast([n]) == [];
    assert Sum([n]) == n;
    assert Sum([n, n]) == 2 * n;
    assert Sum(counts) == 2 * n;
    assert MaxOf(counts) == n;
  }
}
