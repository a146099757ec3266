/** The running score and message lists that the analyzers build up check
    by check (`score += n`, `issues.push(m)`, `warnings.push(m)`). */
module Tally {

  /** What one check contributes: points only, an issue, or a warning
      together with the points it still awards. */
  datatype Outcome<M> = Award(points: nat) | Issue(issue: M) | Warn(warning: M, partial: nat)

  datatype Tally<M> = Tally(score: nat, issues: seq<M>, warnings: seq<M>)

  function Points<M>(o: Outcome<M>): nat {
    match o
    case Award(p) => p
    case Issue(_) => 0
    case Warn(_, p) => p
  }

  /** Nothing checked yet. */
  function Empty<M>(): Tally<M> { Tally(0, [], []) }

  /** One check recorded: its points added, its message pushed onto the
      issues or the warnings. */
  function Record<M>(t: Tally<M>, o: Outcome<M>): (r: Tally<M>)
    ensures r.score == t.score + Points(o)
  {
    match o
    case Award(p) => t.(score := t.score + p)
    case Issue(m) => t.(issues := t.issues + [m])
    case Warn(m, p) => t.(score := t.score + p, warnings := t.warnings + [m])
  }

  /** A check either awards all of its `full` points and reports nothing,
      or awards fewer and reports exactly one message. */
  predicate AllOrMessage<M>(o: Outcome<M>, full: nat) {
    match o
    case Award(p) => p == full
    case Issue(_) => 0 < full
    case Warn(_, p) => p < full
  }

  /** Recording such a check: the score rises by at most `full`, and by
      exactly `full` precisely when no message is added. */
  lemma RecordStep<M>(t: Tally<M>, o: Outcome<M>, full: nat)
    requires AllOrMessage(o, full)
    ensures var r := Record(t, o);
      && r.score <= t.score + full
      && |r.issues| + |r.warnings| >= |t.issues| + |t.warnings|
      && (r.score == t.score + full <==> |r.issues| + |r.warnings| == |t.issues| + |t.warnings|)
  {
  }

  /** A message is reported after a check exactly when it was reported
      before or the check reports it. */
  lemma RecordMessages<M>(t: Tally<M>, o: Outcome<M>, m: M)
    ensures m in Record(t, o).issues <==> m in t.issues || o == Issue(m)
    ensures m in Record(t, o).warnings <==> m in t.warnings || (o.Warn? && o.warning == m)
  {
  }
}
