/**
 * The validation service's API layer: how an internal validation result is
 * turned into the API's validation record, how a correction session is
 * summarised into a repair response (with feedback for the command
 * generator when it failed), the older heuristic repair, and the session
 * monitoring counts.
 */
module Routes {
  import opened Text
  import opened Security
  import opened Validator
  import Sim = Simulator
  import C = Corrections
  import SC = SelfCorrection
  import V2 = ValidationV2
  import Scorer

  function LevelName(l: RiskLevel): string
  {
    match l
    case Low => "low"
    case Medium => "medium"
    case High => "high"
    case Critical => "critical"
  }

  // ---- `convert_to_validation_result` ----

  datatype Issue = Issue(kind: string, severity: string, message: string, suggestion: Option<string>)

  /** The risk fields of a validation record. */
  datatype Risk = Risk(score: int, level: string, recommendation: string)

  datatype ValidationResult = ValidationResult(status: string, command: string, valid: bool, risk: Risk,
                                               issues: seq<Issue>, warnings: seq<string>)

  /** One security issue text, classified by the words it contains. */
  function SecurityIssue(text: string, severity: RiskLevel): Issue
  {
    if Contains(text, "Forbidden flag") then Issue("forbidden_flag", "critical", text, None)
    else if Contains(text, "Unsafe target") then Issue("unsafe_target", "high", text, None)
    else Issue("validation_error", LevelName(severity), text, None)
  }

  function IssuesOf(texts: seq<string>, severity: RiskLevel): seq<Issue>
    decreases |texts|
  {
    if |texts| == 0 then []
    else IssuesOf(texts[..|texts| - 1], severity) + [SecurityIssue(texts[|texts| - 1], severity)]
  }

  /** One issue per text, in order. */
  lemma {:induction false} IssuesOfAt(texts: seq<string>, severity: RiskLevel)
    ensures |IssuesOf(texts, severity)| == |texts|
    ensures forall i :: 0 <= i < |texts| ==> IssuesOf(texts, severity)[i] == SecurityIssue(texts[i], severity)
    decreases |texts|
  {
    if |texts| > 0 {
      IssuesOfAt(texts[..|texts| - 1], severity);
    }
  }

  /** The single issue of a result rejected for a reason other than security. */
  function SyntaxIssue(r: Response): Issue
  {
    Issue("syntax_error", LevelName(r.severity), if r.error.Some? then r.error.value else "Unknown validation error",
          Some("Check command syntax"))
  }

  function IssueList(r: Response): seq<Issue>
  {
    if r.blockedBySecurity then IssuesOf(r.securityIssues, r.severity)
    else if !r.valid then [SyntaxIssue(r)]
    else []
  }

  /** Risk fields from the risk engine's report, else from the top level, else the defaults. */
  function RiskOf(r: Response): Risk
  {
    match r.security
    case Some(e) => Risk(e.riskScore, LevelName(e.riskLevel), e.recommendation)
    case None =>
      if r.riskScore.Some? then
        Risk(r.riskScore.value, if r.riskLevel.Some? then LevelName(r.riskLevel.value) else "unknown",
             if r.recommendation.Some? then r.recommendation.value else "No recommendation")
      else Risk(0, "unknown", "No recommendation")
  }

  function Converted(r: Response): ValidationResult
  {
    ValidationResult(
      if !r.valid then "invalid" else if Scorer.HighRisk(r.riskLevel) then "warning" else "valid",
      r.command, r.valid, RiskOf(r), IssueList(r),
      if Scorer.Truthy(r.warnings) then r.warnings.value else [])
  }

  /** `convert_to_validation_result`. */
  method ConvertToValidationResult(r: Response) returns (v: ValidationResult)
    ensures v == Converted(r)
  {
    var issues: seq<Issue> := [];
    if r.blockedBySecurity {
      var i := 0;
      while i < |r.securityIssues|
        invariant 0 <= i <= |r.securityIssues|
        invariant issues == IssuesOf(r.securityIssues[..i], r.severity)
      {
        assert r.securityIssues[..i + 1][..i] == r.securityIssues[..i];
        issues := issues + [SecurityIssue(r.securityIssues[i], r.severity)];
        i := i + 1;
      }
      assert r.securityIssues[..i] == r.securityIssues;
    }
    if !r.valid && !r.blockedBySecurity {
      issues := issues + [SyntaxIssue(r)];
    }
    var status := if r.valid then "valid" else "invalid";
    if r.valid && Scorer.HighRisk(r.riskLevel) {
      status := "warning";
    }
    var warnings: seq<string> := [];
    if Scorer.Truthy(r.warnings) {
      warnings := r.warnings.value;
    }
    var risk := Risk(0, "unknown", "No recommendation");
    if r.security.Some? {
      var e := r.security.value;
      risk := Risk(e.riskScore, LevelName(e.riskLevel), e.recommendation);
    } else if r.riskScore.Some? {
      risk := Risk(r.riskScore.value, if r.riskLevel.Some? then LevelName(r.riskLevel.value) else "unknown",
                   if r.recommendation.Some? then r.recommendation.value else "No recommendation");
    }
    v := ValidationResult(status, r.command, r.valid, risk, issues, warnings);
  }

  /** The status is `invalid` exactly for invalid results; a valid one is a `warning` exactly when its risk is high or critical. */
  lemma StatusMeaning(r: Response)
    ensures var v := Converted(r);
      && v.valid == r.valid
      && (v.status == "invalid" <==> !r.valid)
      && (v.status == "warning" <==> r.valid && (r.riskLevel == Some(High) || r.riskLevel == Some(Critical)))
      && (v.status == "valid" <==> r.valid && r.riskLevel != Some(High) && r.riskLevel != Some(Critical))
  {
  }

  /**
   * A blocked result has one issue per security issue text, carrying that
   * text; any other invalid result has exactly one `syntax_error` issue with
   * the result's error; a valid, unblocked result has none.
   */
  lemma IssuesMeaning(r: Response)
    ensures var v := Converted(r);
      && (r.blockedBySecurity ==>
            |v.issues| == |r.securityIssues| &&
            forall i :: 0 <= i < |v.issues| ==>
              v.issues[i].message == r.securityIssues[i] &&
              v.issues[i].kind in {"forbidden_flag", "unsafe_target", "validation_error"} &&
              (v.issues[i].kind == "forbidden_flag" <==> Contains(r.securityIssues[i], "Forbidden flag")))
      && (!r.blockedBySecurity && !r.valid ==>
            |v.issues| == 1 && v.issues[0].kind == "syntax_error" && v.issues[0].severity == LevelName(r.severity) &&
            (r.error.Some? ==> v.issues[0].message == r.error.value))
      && (!r.blockedBySecurity && r.valid ==> v.issues == [])
  {
    IssuesOfAt(r.securityIssues, r.severity);
  }

  lemma PrefixContained(s: string, p: string, q: string)
    requires StartsWith(s, p + q)
    ensures Contains(s, p)
  {
    assert s[..|p|] == (p + q)[..|p|];
  }

  /**
   * The issues of a block by the risk engine: the forbidden flags first, each
   * a critical `forbidden_flag` issue, then the unsafe targets, none of them a
   * `validation_error`.
   */
  lemma EngineIssues(r: Response, e: Evaluation)
    requires r.blockedBySecurity && r.securityIssues == SecurityIssues(e)
    ensures var v := Converted(r);
      && |v.issues| == |e.violations| + |e.unsafeTargets|
      && (forall i :: 0 <= i < |e.violations| ==> v.issues[i].kind == "forbidden_flag" && v.issues[i].severity == "critical")
      && (forall i :: 0 <= i < |v.issues| ==> v.issues[i].kind != "validation_error")
  {
    IssuesOfAt(r.securityIssues, r.severity);
    forall i | 0 <= i < |r.securityIssues|
      ensures Contains(r.securityIssues[i], "Forbidden flag") || Contains(r.securityIssues[i], "Unsafe target")
      ensures i < |e.violations| ==> Contains(r.securityIssues[i], "Forbidden flag")
    {
      if i < |e.violations| {
        PrefixContained(r.securityIssues[i], "Forbidden flag", " ");
      } else {
        PrefixContained(r.securityIssues[i], "Unsafe target", " ");
      }
    }
  }

  /**
   * For the validator's own results (rules applied): a block has at least
   * one issue and no `validation_error` among them, the forbidden flags first
   * as critical `forbidden_flag` issues; a structural rejection carries its
   * error as the one `syntax_error` issue.
   */
  lemma ValidatorIssues(cmd: string)
    ensures var r := Validate(cmd, true);
      var v := Converted(r);
      && (r.blockedBySecurity ==>
            r.security.Some? &&
            var e := r.security.value;
            |v.issues| == |e.violations| + |e.unsafeTargets| > 0 &&
            (forall i :: 0 <= i < |e.violations| ==> v.issues[i].kind == "forbidden_flag" && v.issues[i].severity == "critical") &&
            (forall i :: 0 <= i < |v.issues| ==> v.issues[i].kind != "validation_error"))
      && (!r.valid && !r.blockedBySecurity ==>
            r.error.Some? && v.issues == [Issue("syntax_error", LevelName(r.severity), r.error.value, Some("Check command syntax"))])
  {
    BlockedResponse(cmd);
    ValidateCases(cmd, true);
    var r := Validate(cmd, true);
    if r.blockedBySecurity {
      EngineIssues(r, r.security.value);
    }
  }

  /**
   * For the validator's own results (rules applied): a command that fails
   * the structural checks gets the default risk fields; any other takes them
   * from the risk engine's report, and an accepted one's top-level fields
   * agree with it.
   */
  lemma ValidatorRisk(cmd: string)
    ensures var r := Validate(cmd, true);
      var v := Converted(r);
      && (!StructurallyValid(cmd) ==> v.risk == Risk(0, "unknown", "No recommendation"))
      && (StructurallyValid(cmd) ==>
            var e := Evaluate(ForbiddenFlags, UnsafeRanges, ParsedOf(cmd).flags, ParsedOf(cmd).targets);
            v.risk == Risk(e.riskScore, LevelName(e.riskLevel), e.recommendation))
      && (r.valid ==> r.riskScore.Some? && r.riskLevel.Some? && r.recommendation.Some? &&
                      v.risk == Risk(r.riskScore.value, LevelName(r.riskLevel.value), r.recommendation.value)
                      && 0 <= v.risk.score <= 100)
  {
    ValidateCases(cmd, true);
    AcceptedResponse(cmd);
    if StructurallyValid(cmd) {
      var p := ParsedOf(cmd);
      AssessedRisk(cmd, Strip(cmd), p, Evaluate(ForbiddenFlags, UnsafeRanges, p.flags, p.targets));
    }
  }

  /** A response that carries the risk engine's report takes its risk fields from that report. */
  lemma AssessedRisk(cmd: string, stripped: string, p: Parsed, e: Evaluation)
    ensures RiskOf(Assess(cmd, stripped, p, Some(e))) == Risk(e.riskScore, LevelName(e.riskLevel), e.recommendation)
  {
  }

  // ---- the repair endpoint ----

  datatype RepairRequest = RepairRequest(command: string, intent: string, validationStatus: string, requestId: string)

  /** What the command generator is told after a failed repair. */
  datatype GeneratorFeedback = GeneratorFeedback(feedbackType: string, reason: Option<string>, requiresRetry: bool,
                                                 recommendations: seq<SC.Recommendation>, persistentErrors: seq<string>,
                                                 attemptsMade: nat)

  /** Confidence in hundredths. */
  datatype RepairResponse = RepairResponse(requestId: string, success: bool, originalCommand: string,
                                           repairedCommand: Option<string>, sourceAgent: string, isAutonomousRepair: bool,
                                           attempts: nat, changesApplied: seq<string>, feedback: Option<GeneratorFeedback>,
                                           confidence: nat, repairType: Option<string>)

  function FeedbackTypeName(t: SC.FeedbackType): string
  {
    match t
    case ComplexityReduction => "complexity_reduction"
    case ParameterChange => "parameter_change"
    case AlternativeApproach => "alternative_approach"
    case PrivilegeEscalation => "privilege_escalation"
    case TargetModification => "target_modification"
    case CompleteRegeneration => "complete_regeneration"
  }

  function RepairTypeName(t: SC.RepairType): string
  {
    match t
    case PermissionFix => "permission_fix"
    case SyntaxFix => "syntax_fix"
    case ScriptWhitelist => "script_whitelist"
    case TimingAdjustment => "timing_adjustment"
    case NoFixAvailable => "no_fix_available"
  }

  /**
   * `_prepare_m3_feedback`: nothing without feedback, else the last record.
   * Both final summaries are of type `final_summary` and have no reason,
   * recommendations or persistent errors under those keys.
   */
  function PrepareFeedback(s: SC.Session): (r: Option<GeneratorFeedback>)
    ensures r.None? <==> |s.feedback| == 0
    ensures r.Some? ==> r.value.requiresRetry && r.value.attemptsMade == |s.attempts|
  {
    if |s.feedback| == 0 then None
    else
      var n := |s.attempts|;
      match s.feedback[|s.feedback| - 1]
      case Upstream(t, reason, _, persistent, recommendations) =>
        Some(GeneratorFeedback(FeedbackTypeName(t), Some(reason), true, recommendations, persistent, n))
      case _ => Some(GeneratorFeedback("final_summary", None, true, [], [], n))
  }

  /** `_get_repair_type`: the first attempt's repair type, if any. */
  function RepairTypeOf(s: SC.Session): Option<string>
  {
    if |s.attempts| > 0 && s.attempts[0].repairType.Some? then Some(RepairTypeName(s.attempts[0].repairType.value))
    else None
  }

  /** The agent never sets an attempt's repair type, so its sessions never report one. */
  lemma NoRepairType(s: SC.Session)
    requires SC.Shaped(s)
    ensures RepairTypeOf(s) == None
  {
  }

  /** The response built from a finished session. */
  function ResponseFor(req: RepairRequest, s: SC.Session): RepairResponse
  {
    if s.success then
      RepairResponse(req.requestId, true, req.command, s.finalCommand, SC.SourceAgent(s.isAutonomousRepair),
                     s.isAutonomousRepair, |s.attempts|, SC.ChangesOf(s.attempts), None, 100, RepairTypeOf(s))
    else
      RepairResponse(req.requestId, false, req.command, None, "SELF-CORR-FAILED", false, |s.attempts|,
                     SC.ChangesOf(s.attempts), PrepareFeedback(s), 0, None)
  }

  /** `_extract_all_changes`. */
  method ExtractAllChanges(attempts: seq<SC.Attempt>) returns (changes: seq<string>)
    ensures changes == SC.ChangesOf(attempts)
  {
    changes := [];
    var i := 0;
    while i < |attempts|
      invariant 0 <= i <= |attempts|
      invariant changes == SC.ChangesOf(attempts[..i])
    {
      assert attempts[..i + 1][..i] == attempts[..i];
      changes := changes + attempts[i].changesMade;
      i := i + 1;
    }
    assert attempts[..i] == attempts;
  }

  /** The changes of two runs of attempts are the changes of each, in order. */
  lemma {:induction false} ChangesConcatenate(a: seq<SC.Attempt>, b: seq<SC.Attempt>)
    ensures SC.ChangesOf(a + b) == SC.ChangesOf(a) + SC.ChangesOf(b)
    decreases |b|
  {
    if |b| == 0 {
      assert a + b == a;
    } else {
      var n := |b| - 1;
      assert (a + b)[..|a + b| - 1] == a + b[..n];
      ChangesConcatenate(a, b[..n]);
    }
  }

  /**
   * The response to a repair of the agent's: a success names the last
   * attempt's command, its agent, full confidence and no repair type; a
   * failure names no command, and its feedback is the final summary with
   * nothing under the upstream keys; both list every change in order.
   */
  lemma RepairOutcome(exec: string -> Sim.Report, analyze: Sim.Report -> seq<C.MappedCorrection>, maxAttempts: nat, req: RepairRequest)
    ensures var s := SC.Corrected(exec, analyze, maxAttempts, req.command, req.intent, req.validationStatus).session;
      var resp := ResponseFor(req, s);
      && resp.success == s.success && resp.attempts == |s.attempts| <= maxAttempts + 1
      && resp.changesApplied == SC.ChangesOf(s.attempts)
      && (resp.success ==>
            |s.attempts| > 0 && resp.repairedCommand == Some(s.attempts[|s.attempts| - 1].correctedCommand) &&
            resp.sourceAgent == (if s.isAutonomousRepair then "SELF-CORR-AUTO" else "SELF-CORR-ITER") &&
            resp.confidence == 100 && resp.repairType == None && resp.feedback == None)
      && (!resp.success ==>
            resp.repairedCommand == None && resp.sourceAgent == "SELF-CORR-FAILED" && resp.confidence == 0 &&
            resp.feedback == Some(GeneratorFeedback("final_summary", None, true, [], [], |s.attempts|)))
  {
    SC.SessionShape(exec, analyze, maxAttempts, req.command, req.intent, req.validationStatus);
  }

  /** `repair_command`: one correction session on the agent, recorded in its history, and the response built from it. */
  method Repair(agent: SC.SelfCorrectionAgent, exec: string -> Sim.Report, req: RepairRequest) returns (resp: RepairResponse)
    requires C.AllPaired(agent.analyzer.mappings)
    modifies agent`sessions, agent.analyzer`history
    ensures var s := SC.Corrected(exec, C.Analysis(agent.analyzer.mappings), agent.maxAttempts, req.command, req.intent, req.validationStatus).session;
      resp == ResponseFor(req, s) && agent.sessions == old(agent.sessions) + [s]
  {
    var session := agent.CorrectCommand(exec, req.command, req.intent, req.validationStatus);
    var changes := ExtractAllChanges(session.attempts);
    if session.success {
      resp := RepairResponse(req.requestId, true, req.command, session.finalCommand, SC.SourceAgent(session.isAutonomousRepair),
                             session.isAutonomousRepair, |session.attempts|, changes, None, 100, RepairTypeOf(session));
    } else {
      resp := RepairResponse(req.requestId, false, req.command, None, "SELF-CORR-FAILED", false, |session.attempts|,
                             changes, PrepareFeedback(session), 0, None);
    }
  }

  // ---- `repair_command_legacy` ----

  datatype GenerationMetadata = GenerationMetadata(complexityScore: nat, reason: string, previousAgent: string, riskLevel: string)

  datatype LegacyCandidate = LegacyCandidate(command: string, rationale: string, sourceAgent: string,
                                             suggestedGeneration: string, metadata: GenerationMetadata)

  predicate IsFlagToken(t: string) { |t| > 1 && t[0] == '-' }

  function FlagCount(tokens: seq<string>): (n: nat)
    ensures n <= |tokens|
    decreases |tokens|
  {
    if |tokens| == 0 then 0 else (if IsFlagToken(tokens[0]) then 1 else 0) + FlagCount(tokens[1..])
  }

  /** The heuristic complexity: flags, plus 2 for a pipe or `;`, plus 1 beyond ten tokens. */
  function ComplexityScore(command: string): nat
  {
    var tokens := SplitWs(command);
    FlagCount(tokens) + (if Contains(command, "|") || Contains(command, ";") then 2 else 0) + (if |tokens| > 10 then 1 else 0)
  }

  const PrivilegeRationale := "Privilege issue detected. Switched to TCP Connect scan (-sT)."
  const SlmReason := "High complexity or risk; prefer simpler, more deterministic generation."
  const DiffusionReason := "Command repair straightforward; keep high-capacity generation."

  /**
   * The legacy repair. `contextAgent` and `metadataAgent` are the
   * `previous_agent` entries of the candidate's context and the query's
   * metadata, when present.
   */
  function LegacyRepair(issueMessages: seq<string>, command: string, riskLevel: string,
                        contextAgent: Option<string>, metadataAgent: Option<string>): LegacyCandidate
  {
    var issueText := Join(issueMessages, " ");
    var score := ComplexityScore(command);
    var privilege := Contains(issueText, "Permission Error") || Contains(command, "-sS");
    var repaired := if privilege then ReplaceAll(command, "-sS", "-sT") else command;
    var rationale := if privilege then PrivilegeRationale
                     else "Refined command to address: " + (if issueText == "" then "no specific issues" else issueText);
    var previous := if contextAgent.Some? then contextAgent.value else if metadataAgent.Some? then metadataAgent.value else "DIFFUSION";
    var slm := score >= 5 || riskLevel in ["high", "critical"];
    LegacyCandidate(repaired, rationale, "SELF-CORR", if slm then "SLM" else "Diffusion",
                    GenerationMetadata(score, if slm then SlmReason else DiffusionReason, previous, riskLevel))
  }

  /**
   * The legacy repair never leaves a SYN scan in the command: it rewrites
   * every `-sS` to `-sT` when one is present or a permission error was
   * reported, and otherwise returns the command unchanged.
   */
  lemma LegacyNeverSyn(issueMessages: seq<string>, command: string, riskLevel: string, contextAgent: Option<string>, metadataAgent: Option<string>)
    ensures var c := LegacyRepair(issueMessages, command, riskLevel, contextAgent, metadataAgent);
      var privilege := Contains(Join(issueMessages, " "), "Permission Error") || Contains(command, "-sS");
      && !Contains(c.command, "-sS")
      && (privilege ==> c.rationale == PrivilegeRationale)
      && (!privilege ==> c.command == command && StartsWith(c.rationale, "Refined command to address: "))
  {
    ReplaceFlagRemovesIt(command, '-', 's', 'S', 'T');
    assert "-sS" == ['-', 's', 'S'] && "-sT" == ['-', 's', 'T'];
  }

  /**
   * The complexity score is at most the token count plus three, so a command
   * of at most one token, with no pipe or `;`, and not of high or critical
   * risk keeps the high-capacity generator; a high or critical risk always
   * asks for the simpler one.
   */
  lemma LegacyGeneratorChoice(issueMessages: seq<string>, command: string, riskLevel: string, contextAgent: Option<string>, metadataAgent: Option<string>)
    ensures var c := LegacyRepair(issueMessages, command, riskLevel, contextAgent, metadataAgent);
      && c.metadata.complexityScore <= |SplitWs(command)| + 3
      && (riskLevel in ["high", "critical"] ==> c.suggestedGeneration == "SLM")
      && (|SplitWs(command)| <= 1 && !Contains(command, "|") && !Contains(command, ";") && riskLevel !in ["high", "critical"]
          ==> c.suggestedGeneration == "Diffusion" && c.metadata.reason == DiffusionReason)
      && (c.suggestedGeneration == "SLM" <==> c.metadata.complexityScore >= 5 || riskLevel in ["high", "critical"])
  {
  }

  /** The candidate's context wins over the query's metadata; with neither, the previous agent is diffusion. */
  lemma LegacyPreviousAgent(issueMessages: seq<string>, command: string, riskLevel: string, contextAgent: Option<string>, metadataAgent: Option<string>)
    ensures var c := LegacyRepair(issueMessages, command, riskLevel, contextAgent, metadataAgent);
      && (contextAgent.Some? ==> c.metadata.previousAgent == contextAgent.value)
      && (contextAgent.None? && metadataAgent.Some? ==> c.metadata.previousAgent == metadataAgent.value)
      && (contextAgent.None? && metadataAgent.None? ==> c.metadata.previousAgent == "DIFFUSION")
  {
  }

  // ---- session monitoring ----

  /** A session of the agent's history with the identifier it was stored under. */
  datatype Stored = Stored(id: string, session: SC.Session)

  datatype Lookup = Found(report: SC.SessionReport) | NotFound(status: nat)

  /** The report of the first session with the identifier, else a 404. */
  function FindSession(ss: seq<Stored>, id: string): Lookup
    decreases |ss|
  {
    if |ss| == 0 then NotFound(404)
    else if ss[0].id == id then Found(SC.GenerateReport(ss[0].session))
    else FindSession(ss[1..], id)
  }

  /** `get_repair_session`. */
  method GetRepairSession(ss: seq<Stored>, id: string) returns (r: Lookup)
    ensures r == FindSession(ss, id)
  {
    var i := 0;
    while i < |ss|
      invariant 0 <= i <= |ss|
      invariant FindSession(ss[i..], id) == FindSession(ss, id)
    {
      assert ss[i..][1..] == ss[i + 1..];
      if ss[i].id == id {
        return Found(SC.GenerateReport(ss[i].session));
      }
      i := i + 1;
    }
    return NotFound(404);
  }

  /** A lookup finds exactly the identifiers that are stored, and then the first session stored under it. */
  lemma {:induction false} FindSessionMeans(ss: seq<Stored>, id: string)
    ensures var r := FindSession(ss, id);
      && (r.Found? <==> exists i :: 0 <= i < |ss| && ss[i].id == id)
      && (r.NotFound? ==> r.status == 404)
      && (r.Found? ==> exists i :: 0 <= i < |ss| && ss[i].id == id && (forall j :: 0 <= j < i ==> ss[j].id != id)
                                   && r.report == SC.GenerateReport(ss[i].session))
    decreases |ss|
  {
    if |ss| > 0 && ss[0].id != id {
      FindSessionMeans(ss[1..], id);
      var r := FindSession(ss, id);
      if r.Found? {
        var k :| 0 <= k < |ss[1..]| && ss[1..][k].id == id && (forall j :: 0 <= j < k ==> ss[1..][j].id != id)
                 && r.report == SC.GenerateReport(ss[1..][k].session);
        assert ss[k + 1].id == id;
      } else {
        forall i | 0 <= i < |ss|
          ensures ss[i].id != id
        {
          if i > 0 {
            assert ss[i] == ss[1..][i - 1];
          }
        }
      }
    }
  }

  datatype RepairStats = RepairStats(totalSessions: nat, autonomousRepairs: nat, iterativeRepairs: nat, failedRepairs: nat)

  function CountSessions(ss: seq<SC.Session>, p: SC.Session -> bool): (n: nat)
    ensures n <= |ss|
    decreases |ss|
  {
    if |ss| == 0 then 0 else (if p(ss[0]) then 1 else 0) + CountSessions(ss[1..], p)
  }

  function RepairStatsOf(ss: seq<SC.Session>): RepairStats
  {
    RepairStats(|ss|, CountSessions(ss, (s: SC.Session) => s.isAutonomousRepair),
                CountSessions(ss, (s: SC.Session) => !s.isAutonomousRepair && s.success),
                CountSessions(ss, (s: SC.Session) => !s.success))
  }

  /** The figures of `get_statistics`: the validation service's and the agent's. */
  datatype Stats = Stats(validation: Option<V2.Statistics>, repair: RepairStats)

  function StatsOf(history: seq<V2.Entry>, ss: seq<SC.Session>): Stats
  {
    Stats(V2.StatisticsOf(history), RepairStatsOf(ss))
  }

  /** An autonomous repair is recorded only when it succeeded. */
  lemma AutonomousMeansSuccess(exec: string -> Sim.Report, analyze: Sim.Report -> seq<C.MappedCorrection>, maxAttempts: nat, command: string, intent: string, status: string)
    ensures var s := SC.Corrected(exec, analyze, maxAttempts, command, intent, status).session;
      s.isAutonomousRepair ==> s.success
  {
    var ph := SC.AutonomousPhase(exec, command, intent, status);
    if !ph.done {
      SC.IterateBounds(exec, analyze, maxAttempts, command, 1, SC.Progress(ph.session, ph.current, []));
    }
  }

  /**
   * When every autonomous session succeeded (as `AutonomousMeansSuccess`
   * shows of the agent's), the autonomous, iterative and failed counts
   * partition the sessions.
   */
  lemma {:induction false} RepairCountsPartition(ss: seq<SC.Session>)
    requires forall i :: 0 <= i < |ss| ==> (ss[i].isAutonomousRepair ==> ss[i].success)
    ensures var st := RepairStatsOf(ss);
      st.autonomousRepairs + st.iterativeRepairs + st.failedRepairs == st.totalSessions
    decreases |ss|
  {
    if |ss| > 0 {
      assert forall i :: 0 <= i < |ss[1..]| ==> ss[1..][i] == ss[i + 1];
      RepairCountsPartition(ss[1..]);
    }
  }

  datatype SessionSummary = SessionSummary(id: string, success: bool, isAutonomous: bool, attempts: nat,
                                           originalCommand: string, finalCommand: Option<string>)

  datatype RecentReport = RecentReport(totalSessions: nat, returned: nat, sessions: seq<SessionSummary>)

  /** `sessions[-limit:]` for a positive limit, else every session. */
  function Recent(ss: seq<Stored>, limit: int): seq<Stored>
  {
    if limit > 0 then ss[if limit >= |ss| then 0 else |ss| - limit..] else ss
  }

  function SummaryOf(s: Stored): SessionSummary
  {
    SessionSummary(s.id, s.session.success, s.session.isAutonomousRepair, |s.session.attempts|,
                   s.session.originalCommand, s.session.finalCommand)
  }

  /** `get_recent_sessions`. */
  function RecentSessions(ss: seq<Stored>, limit: int): RecentReport
  {
    var recent := Recent(ss, limit);
    RecentReport(|ss|, |recent|, seq(|recent|, i requires 0 <= i < |recent| => SummaryOf(recent[i])))
  }

  /**
   * The recent sessions are the last `limit` ones (all of them when there
   * are fewer, or when the limit is not positive), summarised in their order.
   */
  lemma RecentSessionsShape(ss: seq<Stored>, limit: int)
    ensures var r := RecentSessions(ss, limit);
      var k := if limit > 0 && limit < |ss| then limit else |ss|;
      && r.totalSessions == |ss| && r.returned == k == |r.sessions|
      && forall i :: 0 <= i < k ==> r.sessions[i] == SummaryOf(ss[|ss| - k + i])
  {
  }
}
