/** The ATS formatting check: seven threshold checks over the text and the
    layout metadata. Each check either awards its points or reports one
    message (the length check alone does both in its middle tier). */
module Formatting {
  import opened Text
  import opened Patterns
  import opened Tally

  /** Layout facts supplied by the PDF text extractor. */
  datatype Metadata = Metadata(pageCount: nat, hasImages: bool, hasComplexFormatting: bool)

  datatype FormatMessage =
    | TooShort | BriefContent | UseBullets | IncludeDates
    | AddQuantifiable | UseActionVerbs | ComplexLayout | ImagesDetected

  function MessageText(m: FormatMessage): string {
    match m
    case TooShort => "Resume appears too short - this might indicate parsing issues with complex formatting"
    case BriefContent => "Resume content seems brief - consider adding more details about your experience"
    case UseBullets => "Use bullet points to improve readability and ATS parsing"
    case IncludeDates => "Include clear dates for your experience and education (Month/Year format recommended)"
    case AddQuantifiable => "Add quantifiable achievements (e.g., \"Improved performance by 30%\", \"Led team of 5 developers\")"
    case UseActionVerbs => "Use more action verbs to describe your accomplishments (developed, created, implemented, etc.)"
    case ComplexLayout => "Complex formatting detected - consider using a simpler layout for better ATS compatibility"
    case ImagesDetected => "Potential graphics or images detected - ATS systems cannot read visual elements"
  }

  const ActionVerbs: seq<string> := [
    "developed", "created", "built", "designed", "implemented", "managed", "led", "improved",
    "optimized", "automated", "integrated", "collaborated", "achieved", "delivered", "maintained"
  ]

  /** The `maxScore` the formatting check reports. */
  const DeclaredMaxScore: nat := 25

  datatype FormattingResult = FormattingResult(
    score: nat, maxScore: nat, issues: seq<FormatMessage>, warnings: seq<FormatMessage>)

  function ActionVerbCount(text: string): nat { |FoundIn(Lower(text), ActionVerbs)| }

  function LengthCheck(length: nat): Outcome<FormatMessage> {
    if length < 500 then Issue(TooShort) else if length < 1000 then Warn(BriefContent, 3) else Award(5)
  }

  function BulletCheck(bullets: nat): Outcome<FormatMessage> { if bullets >= 5 then Award(5) else Issue(UseBullets) }

  function DateCheck(dates: nat): Outcome<FormatMessage> { if dates >= 3 then Award(5) else Issue(IncludeDates) }

  function QuantityCheck(quantities: nat): Outcome<FormatMessage> {
    if quantities >= 2 then Award(5) else Warn(AddQuantifiable, 0)
  }

  function VerbCheck(verbs: nat): Outcome<FormatMessage> { if verbs >= 5 then Award(5) else Warn(UseActionVerbs, 0) }

  function LayoutCheck(meta: Metadata): Outcome<FormatMessage> {
    if meta.hasComplexFormatting then Warn(ComplexLayout, 0) else Award(3)
  }

  function ImageCheck(meta: Metadata): Outcome<FormatMessage> { if meta.hasImages then Issue(ImagesDetected) else Award(2) }

  /** The seven checks recorded in the order the source runs them, over the
      counts they read: the reference for the imperative check below. */
  function ChecksOf(length: nat, bullets: nat, dates: nat, quantities: nat, verbs: nat, meta: Metadata)
    : Tally<FormatMessage>
  {
    var t2 := Record(Record(Empty(), LengthCheck(length)), BulletCheck(bullets));
    var t4 := Record(Record(t2, DateCheck(dates)), QuantityCheck(quantities));
    Record(Record(Record(t4, VerbCheck(verbs)), LayoutCheck(meta)), ImageCheck(meta))
  }

  function ResultOf(t: Tally<FormatMessage>): FormattingResult {
    FormattingResult(t.score, DeclaredMaxScore, t.issues, t.warnings)
  }

  /** `checkATSFormatting` as a function of the text and the metadata. */
  function Formatting(text: string, meta: Metadata): FormattingResult {
    ResultOf(ChecksOf(|text|, BulletCount(text), DateCount(text), QuantityCount(text), ActionVerbCount(text), meta))
  }

  /** `checkATSFormatting(text, metadata)`: the seven checks, each adding to
      the running score, issues and warnings. */
  method CheckAtsFormatting(text: string, meta: Metadata) returns (r: FormattingResult)
    ensures r == Formatting(text, meta)
  {
    var t := Empty();
    t := CheckLength(t, text);
    t := CheckBullets(t, text);
    t := CheckDates(t, text);
    t := CheckQuantities(t, text);
    t := CheckActionVerbs(t, text);
    t := CheckLayout(t, meta);
    t := CheckImages(t, meta);
    r := FormattingResult(t.score, DeclaredMaxScore, t.issues, t.warnings);
  }

  /** Text length: too short is an issue, brief is a warning worth 3. */
  method CheckLength(st: Tally<FormatMessage>, text: string) returns (r: Tally<FormatMessage>)
    ensures r == Record(st, LengthCheck(|text|))
  {
    r := st;
    if |text| < 500 {
      r := r.(issues := r.issues + [TooShort]);
    } else if |text| < 1000 {
      r := r.(warnings := r.warnings + [BriefContent]);
      r := r.(score := r.score + 3);
    } else {
      r := r.(score := r.score + 5);
    }
  }

  /** At least five bullet glyphs. */
  method CheckBullets(st: Tally<FormatMessage>, text: string) returns (r: Tally<FormatMessage>)
    ensures r == Record(st, BulletCheck(BulletCount(text)))
  {
    r := st;
    var bulletMatches := BulletCount(text);
    if bulletMatches >= 5 {
      r := r.(score := r.score + 5);
    } else {
      r := r.(issues := r.issues + [UseBullets]);
    }
  }

  /** At least three dates. */
  method CheckDates(st: Tally<FormatMessage>, text: string) returns (r: Tally<FormatMessage>)
    ensures r == Record(st, DateCheck(DateCount(text)))
  {
    r := st;
    var dateMatches := DateCount(text);
    if dateMatches >= 3 {
      r := r.(score := r.score + 5);
    } else {
      r := r.(issues := r.issues + [IncludeDates]);
    }
  }

  /** At least two quantified achievements. */
  method CheckQuantities(st: Tally<FormatMessage>, text: string) returns (r: Tally<FormatMessage>)
    ensures r == Record(st, QuantityCheck(QuantityCount(text)))
  {
    r := st;
    var quantifiableMatches := QuantityCount(text);
    if quantifiableMatches >= 2 {
      r := r.(score := r.score + 5);
    } else {
      r := r.(warnings := r.warnings + [AddQuantifiable]);
    }
  }

  /** At least five of the action verbs. */
  method CheckActionVerbs(st: Tally<FormatMessage>, text: string) returns (r: Tally<FormatMessage>)
    ensures r == Record(st, VerbCheck(ActionVerbCount(text)))
  {
    r := st;
    var actionVerbCount := ActionVerbCount(text);
    if actionVerbCount >= 5 {
      r := r.(score := r.score + 5);
    } else {
      r := r.(warnings := r.warnings + [UseActionVerbs]);
    }
  }

  /** No complex layout. */
  method CheckLayout(st: Tally<FormatMessage>, meta: Metadata) returns (r: Tally<FormatMessage>)
    ensures r == Record(st, LayoutCheck(meta))
  {
    r := st;
    if meta.hasComplexFormatting {
      r := r.(warnings := r.warnings + [ComplexLayout]);
    } else {
      r := r.(score := r.score + 3);
    }
  }

  /** No images. */
  method CheckImages(st: Tally<FormatMessage>, meta: Metadata) returns (r: Tally<FormatMessage>)
    ensures r == Record(st, ImageCheck(meta))
  {
    r := st;
    if meta.hasImages {
      r := r.(issues := r.issues + [ImagesDetected]);
    } else {
      r := r.(score := r.score + 2);
    }
  }

  /** The formatting score reaches 30, not the declared 25, and reaches it
      exactly when no check reports anything. */
  lemma FormattingCeiling(length: nat, bullets: nat, dates: nat, quantities: nat, verbs: nat, meta: Metadata)
    ensures var r := ChecksOf(length, bullets, dates, quantities, verbs, meta);
      && r.score <= 30 && 30 > DeclaredMaxScore
      && (r.score == 30 <==> r.issues == [] && r.warnings == [])
  {
    var r1 := Record(Empty(), LengthCheck(length));
    var r2 := Record(r1, BulletCheck(bullets));
    var r3 := Record(r2, DateCheck(dates));
    var r4 := Record(r3, QuantityCheck(quantities));
    var r5 := Record(r4, VerbCheck(verbs));
    var r6 := Record(r5, LayoutCheck(meta));
    var r7 := Record(r6, ImageCheck(meta));
    RecordStep(Empty(), LengthCheck(length), 5);
    RecordStep(r1, BulletCheck(bullets), 5);
    RecordStep(r2, DateCheck(dates), 5);
    RecordStep(r3, QuantityCheck(quantities), 5);
    RecordStep(r4, VerbCheck(verbs), 5);
    RecordStep(r5, LayoutCheck(meta), 3);
    RecordStep(r6, ImageCheck(meta), 2);
    assert r7 == ChecksOf(length, bullets, dates, quantities, verbs, meta);
  }

  /** The issues hold exactly the messages of the checks that report an issue. */
  lemma IssuesAreFailedChecks(length: nat, bullets: nat, dates: nat, quantities: nat, verbs: nat, meta: Metadata,
                              m: FormatMessage)
    ensures m in ChecksOf(length, bullets, dates, quantities, verbs, meta).issues
            <==> LengthCheck(length) == Issue(m) || BulletCheck(bullets) == Issue(m)
                 || DateCheck(dates) == Issue(m) || ImageCheck(meta) == Issue(m)
  {
    var r1 := Record(Empty(), LengthCheck(length));
    var r2 := Record(r1, BulletCheck(bullets));
    var r3 := Record(r2, DateCheck(dates));
    var r4 := Record(r3, QuantityCheck(quantities));
    var r5 := Record(r4, VerbCheck(verbs));
    var r6 := Record(r5, LayoutCheck(meta));
    RecordMessages(Empty(), LengthCheck(length), m);
    RecordMessages(r1, BulletCheck(bullets), m);
    RecordMessages(r2, DateCheck(dates), m);
    RecordMessages(r3, QuantityCheck(quantities), m);
    RecordMessages(r4, VerbCheck(verbs), m);
    RecordMessages(r5, LayoutCheck(meta), m);
    RecordMessages(r6, ImageCheck(meta), m);
  }

  /** The warnings hold exactly the messages of the checks that warn. */
  lemma WarningsAreFailedChecks(length: nat, bullets: nat, dates: nat, quantities: nat, verbs: nat, meta: Metadata,
                                m: FormatMessage)
    ensures m in ChecksOf(length, bullets, dates, quantities, verbs, meta).warnings
            <==> LengthCheck(length) == Warn(m, 3) || QuantityCheck(quantities) == Warn(m, 0)
                 || VerbCheck(verbs) == Warn(m, 0) || LayoutCheck(meta) == Warn(m, 0)
  {
    var r1 := Record(Empty(), LengthCheck(length));
    var r2 := Record(r1, BulletCheck(bullets));
    var r3 := Record(r2, DateCheck(dates));
    var r4 := Record(r3, QuantityCheck(quantities));
    var r5 := Record(r4, VerbCheck(verbs));
    var r6 := Record(r5, LayoutCheck(meta));
    RecordMessages(Empty(), LengthCheck(length), m);
    RecordMessages(r1, BulletCheck(bullets), m);
    RecordMessages(r2, DateCheck(dates), m);
    RecordMessages(r3, QuantityCheck(quantities), m);
    RecordMessages(r4, VerbCheck(verbs), m);
    RecordMessages(r5, LayoutCheck(meta), m);
    RecordMessages(r6, ImageCheck(meta), m);
  }

  /** Each issue is reported exactly when its check fails. */
  lemma IssueConditions(length: nat, bullets: nat, dates: nat, quantities: nat, verbs: nat, meta: Metadata)
    ensures var r := ChecksOf(length, bullets, dates, quantities, verbs, meta);
      && (TooShort in r.issues <==> length < 500)
      && (UseBullets in r.issues <==> bullets < 5)
      && (IncludeDates in r.issues <==> dates < 3)
      && (ImagesDetected in r.issues <==> meta.hasImages)
  {
    IssuesAreFailedChecks(length, bullets, dates, quantities, verbs, meta, TooShort);
    IssuesAreFailedChecks(length, bullets, dates, quantities, verbs, meta, UseBullets);
    IssuesAreFailedChecks(length, bullets, dates, quantities, verbs, meta, IncludeDates);
    IssuesAreFailedChecks(length, bullets, dates, quantities, verbs, meta, ImagesDetected);
  }

  /** Each warning is reported exactly when its check falls short. */
  lemma WarningConditions(length: nat, bullets: nat, dates: nat, quantities: nat, verbs: nat, meta: Metadata)
    ensures var r := ChecksOf(length, bullets, dates, quantities, verbs, meta);
      && (BriefContent in r.warnings <==> 500 <= length < 1000)
      && (AddQuantifiable in r.warnings <==> quantities < 2)
      && (UseActionVerbs in r.warnings <==> verbs < 5)
      && (ComplexLayout in r.warnings <==> meta.hasComplexFormatting)
  {
    WarningsAreFailedChecks(length, bullets, dates, quantities, verbs, meta, BriefContent);
    WarningsAreFailedChecks(length, bullets, dates, quantities, verbs, meta, AddQuantifiable);
    WarningsAreFailedChecks(length, bullets, dates, quantities, verbs, meta, UseActionVerbs);
    WarningsAreFailedChecks(length, bullets, dates, quantities, verbs, meta, ComplexLayout);
  }
}
