/** The regular expressions of the analyzers, written out as matchers.

    A matcher `M(s, i)` returns the length of the match that a JavaScript
    regular expression finds when it is tried at position `i` of `s` (its
    backtracking resolved by hand), or 0 when it fails there. `CountMatches`
    then reproduces `s.match(/…/g).length`: it scans from the left and
    resumes after each match, exactly as global matching does. */
module Patterns {
  import opened Text

  predicate WordAt(s: string, j: int) { 0 <= j < |s| && IsWordChar(s[j]) }

  predicate DigitAt(s: string, j: int) { 0 <= j < |s| && IsDigit(s[j]) }

  /** `\b` at position `p`: a word character on exactly one side. */
  predicate Boundary(s: string, p: int) { WordAt(s, p - 1) != WordAt(s, p) }

  /** Length of the run of digits that starts at `j`. */
  function DigitRun(s: string, j: nat): (n: nat)
    ensures j + n <= |s| || n == 0
    ensures forall k :: j <= k < j + n ==> DigitAt(s, k)
    ensures !DigitAt(s, j + n)
    decreases |s| - j
  {
    if DigitAt(s, j) then 1 + DigitRun(s, j + 1) else 0
  }

  /** Length of the run of white space that starts at `j`. */
  function SpaceRun(s: string, j: nat): (n: nat)
    ensures j + n <= |s| || n == 0
    ensures forall k :: j <= k < j + n ==> IsSpace(s[k])
    ensures !(j + n < |s| && IsSpace(s[j + n]))
    decreases |s| - j
  {
    if j < |s| && IsSpace(s[j]) then 1 + SpaceRun(s, j + 1) else 0
  }

  /** Number of matches of matcher `at` in `s[i..]` under global matching. */
  function CountMatches(s: string, at: (string, nat) -> nat, i: nat): (n: nat)
    ensures n <= |s| - i || (i >= |s| && n == 0)
    decreases |s| - i
  {
    if i >= |s| then 0
    else
      var len := at(s, i);
      if len > 0 then 1 + CountMatches(s, at, if i + len <= |s| then i + len else |s|)
      else CountMatches(s, at, i + 1)
  }

  /** `(19|20)` followed by two more digits at `p`. */
  predicate CenturyYear(s: string, p: nat) {
    p + 4 <= |s|
    && ((s[p] == '1' && s[p + 1] == '9') || (s[p] == '2' && s[p + 1] == '0'))
    && IsDigit(s[p + 2]) && IsDigit(s[p + 3])
  }

  /** `\b(19|20)\d{2}\b` */
  function YearAt(s: string, i: nat): (n: nat)
    ensures n == 0 || (n == 4 && i + 4 <= |s|)
  {
    if CenturyYear(s, i) && Boundary(s, i) && Boundary(s, i + 4) then 4 else 0
  }

  /** `\b\d{1,2}\/\d{2,4}\b`. Greedy `\d{1,2}` takes two digits when it can;
      giving one back would leave a digit where `/` is needed, so the first
      choice is the only one. Likewise `\d{2,4}\b` only succeeds on a whole
      run of two to four digits that no word character follows. */
  function SlashDateAt(s: string, i: nat): (n: nat)
    ensures n == 0 || i + n <= |s|
  {
    if !(DigitAt(s, i) && Boundary(s, i)) then 0
    else
      var lead := if DigitAt(s, i + 1) then 2 else 1;
      var slash := i + lead;
      if !(slash < |s| && s[slash] == '/') then 0
      else
        var run := DigitRun(s, slash + 1);
        if 2 <= run <= 4 && Boundary(s, slash + 1 + run) then lead + 1 + run else 0
  }

  const Months: seq<string> :=
    ["jan", "feb", "mar", "apr", "may", "jun", "jul", "aug", "sep", "oct", "nov", "dec"]

  /** `\b(jan|…|dec)\s*(19|20)?\d{2}\b` with the `i` flag. `\s*` never gives
      back white space (a digit must follow it), and `(19|20)?` is tried
      before it is skipped. */
  function MonthDateAt(s: string, i: nat): (n: nat)
    ensures n == 0 || i + n <= |s|
  {
    if !(i + 3 <= |s| && Boundary(s, i) && Lower(s[i..i + 3]) in Months) then 0
    else
      var w := SpaceRun(s, i + 3);
      var p := i + 3 + w;
      if CenturyYear(s, p) && Boundary(s, p + 4) then 3 + w + 4
      else if DigitAt(s, p) && DigitAt(s, p + 1) && Boundary(s, p + 2) then 3 + w + 2
      else 0
  }

  /** The combined date pattern of the formatting check: the three
      alternatives tried in order at one position. */
  function DateAt(s: string, i: nat): (n: nat)
    ensures n == 0 || i + n <= |s|
  {
    var y := YearAt(s, i);
    if y > 0 then y
    else
      var m := MonthDateAt(s, i);
      if m > 0 then m else SlashDateAt(s, i)
  }

  const Units: seq<string> :=
    ["%", "k", "K", "million", "thousand", "users", "projects", "team", "members",
     "increase", "decrease", "improve", "reduce"]

  /** Length of the first unit, in `Units` order, that occurs at `u` and is
      followed by `\b`; 0 when there is none. */
  function UnitAt(s: string, u: nat, units: seq<string>): (n: nat)
    ensures n == 0 || u + n <= |s|
  {
    if units == [] then 0
    else if units[0] != [] && u + |units[0]| <= |s| && s[u..u + |units[0]|] == units[0]
            && Boundary(s, u + |units[0]|)
    then |units[0]|
    else UnitAt(s, u, units[1..])
  }

  /** `\b\d+([.,]\d+)?(%|k|K|million|…|reduce)\b`. No unit begins with a
      digit, `.` or `,`, so giving back digits or the fraction never helps:
      the greedy reading is the only candidate. */
  function QuantityAt(s: string, i: nat): (n: nat)
    ensures n == 0 || i + n <= |s|
  {
    if !(DigitAt(s, i) && Boundary(s, i)) then 0
    else
      var d := DigitRun(s, i);
      var q := i + d;
      var f := if q < |s| && (s[q] == '.' || s[q] == ',') && DigitAt(s, q + 1)
               then 1 + DigitRun(s, q + 1) else 0;
      var unit := UnitAt(s, q + f, Units);
      if unit > 0 then d + f + unit else 0
  }

  /** `\s+` */
  function SpaceRunAt(s: string, i: nat): (n: nat) { SpaceRun(s, i) }

  /** The bullet glyph class `[•\-\*\►\‣]`. */
  predicate IsBullet(c: char) {
    c == '\U{2022}' || c == '-' || c == '*' || c == '\U{25BA}' || c == '\U{2023}'
  }

  /** A character outside `[\w\s\.\,\;\:\!\?\-\(\)\[\]\/\@\#\$\%\&\*\+\=]`. */
  predicate IsProblematic(c: char) {
    !(IsWordChar(c) || IsSpace(c) || c in ".,;:!?-()[]/@#$%&*+=")
  }

  function BulletCount(text: string): nat { CountWhere(text, IsBullet) }

  function SpecialCharCount(text: string): nat { CountWhere(text, IsProblematic) }

  function DateCount(text: string): nat { CountMatches(text, DateAt, 0) }

  function QuantityCount(text: string): nat { CountMatches(text, QuantityAt, 0) }

  /** `text.split(/\s+/).length`: one more piece than there are separators. */
  function WordCount(text: string): (n: nat)
    ensures 1 <= n <= |text| + 1
  {
    CountMatches(text, SpaceRunAt, 0) + 1
  }

  predicate EmailLocal(c: char) { IsAsciiLetter(c) || IsDigit(c) || c in "._%+-" }

  predicate EmailDomain(c: char) { IsAsciiLetter(c) || IsDigit(c) || c in ".-" }

  /** A match of `[a-zA-Z0-9._%+-]+@[a-zA-Z0-9.-]+\.[a-zA-Z]{2,}` with its `@`
      at `a` and its last `.` at `j`. */
  predicate EmailAt(s: string, a: int, j: int) {
    1 <= a && a + 2 <= j && j + 2 < |s|
    && s[a] == '@' && EmailLocal(s[a - 1])
    && (forall k | a < k < j :: EmailDomain(s[k]))
    && s[j] == '.' && IsAsciiLetter(s[j + 1]) && IsAsciiLetter(s[j + 2])
  }

  /** `emailPattern.test(text)` */
  predicate HasEmail(s: string) {
    exists a, j | 0 <= a < |s| && 0 <= j < |s| :: EmailAt(s, a, j)
  }

  predicate Digits(s: string, p: int, n: nat) {
    0 <= p && p + n <= |s| && forall k | p <= k < p + n :: IsDigit(s[k])
  }

  predicate PhoneSep(s: string, p: int) { 0 <= p < |s| && (IsSpace(s[p]) || s[p] == '-') }

  /** `[\s-]?` followed by `n` digits at `p`. */
  predicate SepDigits(s: string, p: int, n: nat) {
    Digits(s, p, n) || (PhoneSep(s, p) && Digits(s, p + 1, n))
  }

  /** A match of the phone pattern whose first three digits (or opening
      parenthesis) are at `i`. The optional `(\+92|0)?[\s-]?` prefix of the
      first alternative can always match nothing, so it does not decide
      whether a match exists. */
  predicate PhoneAt(s: string, i: int) {
    (Digits(s, i, 3) && SepDigits(s, i + 3, 7))
    || (0 <= i && i + 5 <= |s| && s[i] == '(' && Digits(s, i + 1, 3) && s[i + 4] == ')'
        && ((Digits(s, i + 5, 3) && SepDigits(s, i + 8, 4))
            || (PhoneSep(s, i + 5) && Digits(s, i + 6, 3) && SepDigits(s, i + 9, 4))))
  }

  /** `phonePattern.test(text)` */
  predicate HasPhone(s: string) {
    exists i | 0 <= i < |s| :: PhoneAt(s, i)
  }

  lemma {:induction false} NoUnitStartsWith(s: string, u: nat, units: seq<string>)
    requires u < |s|
    requires forall k :: 0 <= k < |units| ==> units[k] != [] && units[k][0] != s[u]
    ensures UnitAt(s, u, units) == 0
  {
    if units != [] {
      if u + |units[0]| <= |s| {
        assert s[u..u + |units[0]|][0] == s[u];
      }
      NoUnitStartsWith(s, u, units[1..]);
    }
  }

  /** A percentage followed by a space is not a quantity: the `\b` after
      `%` needs a word character to follow it. */
  lemma PercentThenSpaceIsNoQuantity()
    ensures QuantityAt("30% more", 0) == 0
  {
    var s := "30% more";
    assert DigitRun(s, 2) == 0;
    assert DigitRun(s, 1) == 1;
    assert DigitRun(s, 0) == 2;
    assert s[2..3] == "%";
    assert !Boundary(s, 3);
    NoUnitStartsWith(s, 2, Units[1..]);
    assert UnitAt(s, 2, Units) == 0;
  }

  /** A count glued to a unit word is a quantity. */
  lemma CountWithUnitIsQuantity()
    ensures QuantityAt("5users", 0) == 6
  {
    var s := "5users";
    assert DigitRun(s, 1) == 0;
    assert DigitRun(s, 0) == 1;
    assert s[1..6] == "users";
    assert Boundary(s, 6);
    assert UnitAt(s, 1, Units[5..]) == 5;
    NoUnitStartsWith(s, 1, Units[..5]);
    assert forall j :: 0 <= j < 5 ==> Units[j] == Units[..5][j];
    UnitAtSkip(s, 1, Units, 5);
  }

  lemma {:induction false} UnitAtSkip(s: string, u: nat, units: seq<string>, m: nat)
    requires m <= |units| && UnitAt(s, u, units[..m]) == 0
    ensures UnitAt(s, u, units) == UnitAt(s, u, units[m..])
  {
    if m > 0 {
      assert units[..m][1..] == units[1..][..m - 1];
      assert units[1..][m - 1..] == units[m..];
      UnitAtSkip(s, u, units[1..], m - 1);
    }
  }
}
