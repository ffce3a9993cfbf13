/**
 * The JSON scorer: compliance information, scores and recommendations derived
 * from a validation response and its security evaluation, and the structured
 * score that gathers them.
 */
module Scorer {
  import opened Text
  import opened Security
  import opened Validator

  const Version := "2.0"
  const SchemaVersion := "1.0"
  const ValidatorName := "NMAP-AI-Security-Validation"

  // ---- compliance ----

  /** One entry of the compliance violations or advisories. */
  datatype Finding = Finding(kind: string, item: string, reason: string, severity: string)

  function ViolationFinding(v: FlagHit): Finding { Finding("forbidden_flag", v.flag, v.reason, "critical") }
  function UnsafeFinding(u: UnsafeTarget): Finding { Finding("unsafe_target", u.target, u.reason, "high") }
  function AdvisoryFinding(w: FlagHit): Finding { Finding("warning_flag", w.flag, w.reason, "warning") }

  /** `f` of each element, in order. */
  function Each<T>(xs: seq<T>, f: T -> Finding): (r: seq<Finding>)
    ensures |r| == |xs|
    decreases |xs|
  {
    if |xs| == 0 then [] else Each(xs[..|xs| - 1], f) + [f(xs[|xs| - 1])]
  }

  /** `Each` maps element by element. */
  lemma {:induction false} EachAt<T>(xs: seq<T>, f: T -> Finding)
    ensures forall i :: 0 <= i < |xs| ==> Each(xs, f)[i] == f(xs[i])
    decreases |xs|
  {
    if |xs| > 0 {
      EachAt(xs[..|xs| - 1], f);
    }
  }

  datatype Compliance = Compliance(status: string, checksPassed: nat, checksFailed: nat,
                                   violations: seq<Finding>, advisories: Option<seq<Finding>>)

  /** `generate_compliance_info`: two checks, forbidden flags and unsafe targets; warnings are advisories. */
  function ComplianceOf(e: Evaluation): Compliance
  {
    Compliance(
      if e.allowed then "compliant" else "non_compliant",
      (if |e.violations| == 0 then 1 else 0) + (if |e.unsafeTargets| == 0 then 1 else 0),
      (if |e.violations| > 0 then 1 else 0) + (if |e.unsafeTargets| > 0 then 1 else 0),
      Each(e.violations, ViolationFinding) + Each(e.unsafeTargets, UnsafeFinding),
      if |e.warnings| > 0 then Some(Each(e.warnings, AdvisoryFinding)) else None)
  }

  /** One of the append loops of `generate_compliance_info`. */
  method AppendEach<T>(acc: seq<Finding>, xs: seq<T>, f: T -> Finding) returns (r: seq<Finding>)
    ensures r == acc + Each(xs, f)
  {
    r := acc;
    var i := 0;
    while i < |xs|
      invariant 0 <= i <= |xs|
      invariant r == acc + Each(xs[..i], f)
    {
      assert xs[..i + 1][..i] == xs[..i];
      r := r + [f(xs[i])];
      i := i + 1;
    }
    assert xs[..i] == xs;
  }

  /** `generate_compliance_info`, with its counters and lists. */
  method ComplianceInfo(e: Evaluation) returns (c: Compliance)
    ensures c == ComplianceOf(e)
  {
    var passed: nat, failed: nat := 0, 0;
    var violations: seq<Finding> := [];
    if |e.violations| > 0 {
      failed := failed + 1;
      violations := AppendEach(violations, e.violations, ViolationFinding);
    } else {
      passed := passed + 1;
    }
    if |e.unsafeTargets| > 0 {
      failed := failed + 1;
      violations := AppendEach(violations, e.unsafeTargets, UnsafeFinding);
    } else {
      passed := passed + 1;
    }
    assert violations == Each(e.violations, ViolationFinding) + Each(e.unsafeTargets, UnsafeFinding);
    var advisories := Advisories(e.warnings);
    c := Compliance(if e.allowed then "compliant" else "non_compliant", passed, failed, violations, advisories);
  }

  /** The advisory block of `generate_compliance_info`: present only when there are warnings. */
  method Advisories(warnings: seq<FlagHit>) returns (a: Option<seq<Finding>>)
    ensures a.Some? <==> |warnings| > 0
    ensures a.Some? ==> a.value == Each(warnings, AdvisoryFinding)
  {
    a := None;
    if |warnings| > 0 {
      var listed := AppendEach([], warnings, AdvisoryFinding);
      assert [] + Each(warnings, AdvisoryFinding) == Each(warnings, AdvisoryFinding);
      a := Some(listed);
    }
  }

  /**
   * Exactly two checks are counted; the violations list the forbidden flags,
   * then the unsafe targets, each in their order; advisories exist exactly
   * when there are warnings, one per warning.
   */
  lemma ComplianceShape(e: Evaluation)
    ensures var c := ComplianceOf(e);
      && c.checksPassed + c.checksFailed == 2
      && c.checksFailed == (if |e.violations| > 0 then 1 else 0) + (if |e.unsafeTargets| > 0 then 1 else 0)
      && |c.violations| == |e.violations| + |e.unsafeTargets|
      && (forall i :: 0 <= i < |e.violations| ==>
            c.violations[i].kind == "forbidden_flag" && c.violations[i].item == e.violations[i].flag)
      && (forall i :: 0 <= i < |e.unsafeTargets| ==>
            c.violations[|e.violations| + i].kind == "unsafe_target"
            && c.violations[|e.violations| + i].item == e.unsafeTargets[i].target)
      && (c.advisories.Some? <==> |e.warnings| > 0)
      && (c.advisories.Some? ==> |c.advisories.value| == |e.warnings|)
  {
    EachAt(e.violations, ViolationFinding);
    EachAt(e.unsafeTargets, UnsafeFinding);
  }

  /** For an evaluation of the risk engine, compliant means no check failed. */
  lemma CompliantIffNoFailure(table: seq<FlagRule>, ranges: seq<string>, flags: seq<string>, targets: seq<string>)
    ensures var c := ComplianceOf(Evaluate(table, ranges, flags, targets));
      (c.status == "compliant" <==> c.checksFailed == 0) && (c.status == "compliant" <==> |c.violations| == 0)
  {
  }

  // ---- scores ----

  datatype Breakdown = Breakdown(commandStructure: int, flagSafety: int, targetSafety: int, executionSafety: int)

  /** The scores; the compliance percentage is kept as the number of the three checks passed. */
  datatype Scores = Scores(overall: int, risk: int, safety: int, checksPassedOfThree: nat, confidence: nat,
                           breakdown: Breakdown)

  /** `weight * count`, as repeated addition so that the proofs about scores stay linear. */
  function Penalty(count: nat, weight: nat): nat
    decreases count
  {
    if count == 0 then 0 else Penalty(count - 1, weight) + weight
  }

  lemma {:induction false} PenaltyIsProduct(count: nat, weight: nat)
    ensures Penalty(count, weight) == weight * count
    decreases count
  {
    if count > 0 {
      PenaltyIsProduct(count - 1, weight);
      assert weight * (count - 1) + weight == weight * count;
    }
  }

  /** A breakdown score: 100 for none, else `weight` off per item, never below 0. */
  function SubScore(count: nat, weight: nat): (r: int)
    ensures 0 <= r <= 100
    ensures weight > 0 ==> (r == 100 <==> count == 0)
  {
    if count == 0 then 100 else Max(0, 100 - Penalty(count, weight))
  }

  /** With at least one item, the score is 100 less the weight times the count, floored at 0. */
  lemma SubScoreWeighted(count: nat, weight: nat)
    requires count > 0
    ensures SubScore(count, weight) == Max(0, 100 - weight * count)
  {
    PenaltyIsProduct(count, weight);
  }

  /** More items never score higher. */
  lemma {:induction false} SubScoreMonotone(c1: nat, c2: nat, weight: nat)
    requires c1 <= c2
    ensures SubScore(c2, weight) <= SubScore(c1, weight)
    decreases c2
  {
    if c1 < c2 {
      SubScoreMonotone(c1, c2 - 1, weight);
    }
  }

  /** `calculate_scores`. */
  function ScoresOf(e: Evaluation): Scores
  {
    var failed := (if |e.violations| > 0 then 1 else 0) + (if |e.unsafeTargets| > 0 then 1 else 0);
    Scores(100 - e.riskScore, e.riskScore, 100 - e.riskScore, 3 - failed, 95,
           Breakdown(if e.allowed then 100 else 0,
                     SubScore(|e.violations|, 40), SubScore(|e.unsafeTargets|, 30), SubScore(|e.warnings|, 10)))
  }

  /**
   * For an evaluation of the risk engine the overall score is the safety
   * score, `100 - risk`, within 0..100; the compliance score counts the two
   * compliance checks plus the warnings check, which never fails; the command
   * structure is 100 exactly when compliant.
   */
  lemma ScoresOfEvaluation(table: seq<FlagRule>, ranges: seq<string>, flags: seq<string>, targets: seq<string>)
    ensures var e := Evaluate(table, ranges, flags, targets);
      var s := ScoresOf(e);
      var c := ComplianceOf(e);
      && s.overall == s.safety == 100 - s.risk && 0 <= s.safety <= 100
      && s.checksPassedOfThree == c.checksPassed + 1
      && (s.breakdown.commandStructure == 100 <==> c.status == "compliant")
      && (s.breakdown.commandStructure == 0 <==> c.status == "non_compliant")
      && (s.breakdown.flagSafety == 100 <==> |e.violations| == 0)
      && (s.breakdown.targetSafety == 100 <==> |e.unsafeTargets| == 0)
  {
    ScoreAndLevel(FlagHits(flags, table), FlagHits(flags, WarningFlags), UnsafeTargets(ranges, targets), SafeTargets(ranges, targets));
  }

  // ---- recommendations ----

  datatype Advice = Advice(priority: string, category: string, message: string, action: string, impact: string)

  function FlagNames(vs: seq<FlagHit>): (r: seq<string>)
    ensures |r| == |vs| && forall i :: 0 <= i < |vs| ==> r[i] == vs[i].flag
  {
    seq(|vs|, i requires 0 <= i < |vs| => vs[i].flag)
  }

  /** A list-valued key that is present and non-empty. */
  predicate Truthy(xs: Option<seq<string>>)
  {
    xs.Some? && |xs.value| > 0
  }

  predicate HighRisk(level: Option<RiskLevel>)
  {
    level == Some(High) || level == Some(Critical)
  }

  const WarningsAdvice := Advice("medium", "warnings", "Command uses aggressive scan options",
                                 "Review the necessity of aggressive flags and ensure proper authorization", "medium")
  const RiskAdvice := Advice("high", "risk_mitigation", "High-risk command detected",
                             "Obtain proper authorization and document the scan purpose", "high")
  const SafeAdvice := Advice("low", "best_practice", "Command appears safe",
                             "Proceed with execution in appropriate environment", "low")
  const TargetsAdvice := Advice("high", "unsafe_targets", "Target restricted IP ranges detected",
                                "Use allowed targets like scanme.nmap.org or external IPs", "high")

  function FlagsAdvice(vs: seq<FlagHit>): Advice
  {
    Advice("high", "forbidden_flags", "Remove forbidden flags from command",
           "Replace or remove the following flags: " + Join(FlagNames(vs), ", "), "critical")
  }

  function SyntaxAdvice(error: Option<string>): Advice
  {
    Advice("critical", "syntax", if error.Some? then error.value else "Invalid command format",
           "Review command syntax and ensure it starts with 'nmap'", "critical")
  }

  /** `generate_recommendations`. */
  function Recommendations(r: Response): seq<Advice>
  {
    if !r.valid then
      if r.blockedBySecurity then
        (if r.security.Some? && |r.security.value.violations| > 0 then [FlagsAdvice(r.security.value.violations)] else []) +
        (if r.security.Some? && |r.security.value.unsafeTargets| > 0 then [TargetsAdvice] else [])
      else [SyntaxAdvice(r.error)]
    else
      (if Truthy(r.warnings) then [WarningsAdvice] else []) + [if HighRisk(r.riskLevel) then RiskAdvice else SafeAdvice]
  }

  function Categories(advice: seq<Advice>): (r: seq<string>)
    ensures |r| == |advice| && forall i :: 0 <= i < |advice| ==> r[i] == advice[i].category
  {
    seq(|advice|, i requires 0 <= i < |advice| => advice[i].category)
  }

  /**
   * A valid response gets the warnings advice when it has warnings and then
   * exactly one of risk mitigation (high or critical risk) or best practice;
   * an invalid response that was not blocked gets exactly one syntax advice,
   * carrying its error; a blocked one only flag and target advice.
   */
  lemma RecommendationShape(r: Response)
    ensures var cats := Categories(Recommendations(r));
      && (r.valid ==>
            |cats| == (if Truthy(r.warnings) then 2 else 1)
            && ("warnings" in cats <==> Truthy(r.warnings))
            && ("risk_mitigation" in cats <==> HighRisk(r.riskLevel))
            && ("best_practice" in cats <==> !HighRisk(r.riskLevel))
            && cats[|cats| - 1] in {"risk_mitigation", "best_practice"})
      && (!r.valid && !r.blockedBySecurity ==>
            cats == ["syntax"] && (r.error.Some? ==> Recommendations(r)[0].message == r.error.value))
      && (!r.valid && r.blockedBySecurity ==>
            |cats| <= 2 && forall i :: 0 <= i < |cats| ==> cats[i] in {"forbidden_flags", "unsafe_targets"})
  {
    if r.valid {
      var last := if HighRisk(r.riskLevel) then RiskAdvice else SafeAdvice;
      if Truthy(r.warnings) {
        assert Categories(Recommendations(r)) == ["warnings", last.category];
      } else {
        assert Categories(Recommendations(r)) == [last.category];
      }
    }
  }

  /** A command the validator blocked always gets at least one piece of advice, all of high priority. */
  lemma BlockedGetsAdvice(cmd: string)
    ensures var r := Validate(cmd, true);
      r.blockedBySecurity ==>
        var advice := Recommendations(r);
        |advice| >= 1 && forall i :: 0 <= i < |advice| ==> advice[i].priority == "high"
  {
    BlockedResponse(cmd);
    var r := Validate(cmd, true);
    if r.blockedBySecurity {
      BlockedAdvice(r);
    }
  }

  /** A blocked response with at least one violation or unsafe target gets high-priority advice only. */
  lemma BlockedAdvice(r: Response)
    requires !r.valid && r.blockedBySecurity && r.security.Some?
    requires |r.security.value.violations| + |r.security.value.unsafeTargets| > 0
    ensures var advice := Recommendations(r);
      |advice| >= 1 && forall i :: 0 <= i < |advice| ==> advice[i].priority == "high"
  {
  }

  // ---- the JSON score ----

  /** The outcome of a real run: its exit code and output, or the error that prevented it. */
  datatype Run = Ran(returnCode: int, stdout: string, stderr: string) | NotRun(error: string)

  datatype Execution = Performed(returnCode: int, success: bool, outputAvailable: bool, errors: string) | ValidationOnly

  datatype RiskAssessment = RiskAssessment(level: Option<RiskLevel>, score: int, factors: seq<string>, recommendation: string)

  datatype Findings = Findings(
    forbiddenFound: bool, forbiddenCount: nat, forbiddenDetails: seq<FlagHit>,
    warningFound: bool, warningCount: nat, warningDetails: seq<FlagHit>,
    safeTargets: seq<SafeTarget>, unsafeTargets: seq<UnsafeTarget>, hasUnsafe: bool)

  /** The parts present only when the response carries a security evaluation. */
  datatype Analysis = Analysis(scores: Scores, risk: RiskAssessment, compliance: Compliance, findings: Findings)

  datatype JsonScore = JsonScore(
    version: string, schemaVersion: string, validator: string,
    raw: string, flags: seq<string>, targets: seq<string>, valid: bool,
    status: string, syntaxCheck: string, error: Option<string>,
    analysis: Option<Analysis>, recommendations: seq<Advice>, execution: Execution)

  function AnalysisOf(r: Response, e: Evaluation): Analysis
  {
    Analysis(
      ScoresOf(e),
      RiskAssessment(r.riskLevel, if r.riskScore.Some? then r.riskScore.value else 0, e.riskFactors,
                     if r.recommendation.Some? then r.recommendation.value else ""),
      ComplianceOf(e),
      Findings(|e.violations| > 0, |e.violations|, e.violations, |e.warnings| > 0, |e.warnings|, e.warnings,
               e.safeTargets, e.unsafeTargets, |e.unsafeTargets| > 0))
  }

  function ExecutionOf(run: Option<Run>): Execution
  {
    match run
    case Some(Ran(code, out, err)) => Performed(code, code == 0, out != "", err)
    case _ => ValidationOnly
  }

  /** `create_json_score`, without the timestamp; `run` is what a real execution left in the response. */
  function CreateJsonScore(r: Response, run: Option<Run>): JsonScore
  {
    JsonScore(
      Version, SchemaVersion, ValidatorName,
      r.command,
      if r.flags.Some? then r.flags.value else [],
      if r.targets.Some? then r.targets.value else [],
      r.valid,
      if r.valid then "passed" else "failed",
      if r.syntax.Some? then r.syntax.value else "FAILED",
      if r.valid then None else r.error,
      if r.security.Some? then Some(AnalysisOf(r, r.security.value)) else None,
      Recommendations(r),
      ExecutionOf(run))
  }

  /**
   * The analysis is present exactly when the response carries an evaluation;
   * its overall score is `100 - risk`; the execution counts as performed
   * exactly when the command ran, and as a success exactly when it exited 0;
   * an error is reported only for a failed validation.
   */
  lemma JsonScoreShape(r: Response, run: Option<Run>)
    ensures var j := CreateJsonScore(r, run);
      && (j.analysis.Some? <==> r.security.Some?)
      && (j.analysis.Some? ==> j.analysis.value.scores.overall == 100 - r.security.value.riskScore
                               && j.analysis.value.compliance == ComplianceOf(r.security.value))
      && (j.execution.Performed? <==> run.Some? && run.value.Ran?)
      && (j.execution.Performed? ==> (j.execution.success <==> run.value.returnCode == 0))
      && (j.status == "passed" <==> r.valid)
      && (r.valid ==> j.error.None?)
  {
  }

  /**
   * For a command the validator blocked, the risk assessment shows score 0
   * and no level, because the blocked response carries its score only inside
   * the security evaluation, while the scores show that evaluation's score,
   * at least 30.
   */
  lemma BlockedRiskAssessment(cmd: string, run: Option<Run>)
    ensures var r := Validate(cmd, true);
      var j := CreateJsonScore(r, run);
      r.blockedBySecurity ==>
        j.analysis.Some? && j.analysis.value.risk.score == 0 && j.analysis.value.risk.level.None?
        && j.analysis.value.scores.risk >= 30 && j.analysis.value.compliance.status == "non_compliant"
  {
    ValidateCases(cmd, true);
    BlockedResponse(cmd);
    if StructurallyValid(cmd) {
      var p := ParsedOf(cmd);
      BlockedIsNeverLow(FlagHits(p.flags, ForbiddenFlags), FlagHits(p.flags, WarningFlags),
        UnsafeTargets(UnsafeRanges, p.targets), SafeTargets(UnsafeRanges, p.targets));
    }
  }

  /** A command the validator accepts is scored compliant, with its clamped risk score in the assessment. */
  lemma AcceptedScore(cmd: string, run: Option<Run>)
    ensures var r := Validate(cmd, true);
      var j := CreateJsonScore(r, run);
      r.valid ==>
        r.security.Some? && j.analysis.Some? && j.analysis.value.compliance.status == "compliant"
        && j.analysis.value.compliance.checksPassed == 2
        && j.analysis.value.risk.score == r.security.value.riskScore
        && j.analysis.value.scores.overall == 100 - j.analysis.value.risk.score
  {
    var r := Validate(cmd, true);
    if r.valid {
      AcceptedResponse(cmd);
      ValidateCases(cmd, true);
      var p := ParsedOf(cmd);
      var e := Evaluate(ForbiddenFlags, UnsafeRanges, p.flags, p.targets);
      assert r.security == Some(e);
      AllowedJson(r, run);
    }
  }

  /** An allowed evaluation has neither violations nor unsafe targets, so both compliance checks pass. */
  lemma AllowedJson(r: Response, run: Option<Run>)
    requires r.security.Some? && r.riskScore == Some(r.security.value.riskScore)
    requires |r.security.value.violations| == 0 && |r.security.value.unsafeTargets| == 0 && r.security.value.allowed
    ensures var j := CreateJsonScore(r, run);
      j.analysis.Some? && j.analysis.value.compliance.status == "compliant"
      && j.analysis.value.compliance.checksPassed == 2
      && j.analysis.value.risk.score == r.security.value.riskScore
      && j.analysis.value.scores.overall == 100 - j.analysis.value.risk.score
  {
    JsonScoreShape(r, run);
  }
}
