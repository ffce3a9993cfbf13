/**
 * The structural validator of the validation service (non-executing path):
 * the injection blacklist, shlex tokenising, the leading `nmap`, the split of
 * the remaining tokens into flags and targets (skipping the argument of
 * argument-taking flags), the two target formats, and the risk engine with its
 * built-in tables. Also the batch wrapper and the summary counts.
 */
module Validator {
  import opened Text
  import opened Shlex
  import opened Security

  // ---- injection blacklist ----

  /** `[;&|`]|(\$\()|(\|\|)|(&&)|(<)|(>)` found anywhere in the text. */
  predicate Injection(s: string)
  {
    exists i :: 0 <= i < |s| && (s[i] in ";&|`<>" || StartsWith(s[i..], "$("))
  }

  // ---- flags and targets ----

  /** The flags whose following token is their argument. */
  const ArgumentFlags: seq<string> := ["-p", "--ports", "--script", "--script-args", "-oA", "-oN", "-oX"]

  datatype Parsed = Parsed(flags: seq<string>, targets: seq<string>)

  /**
   * The `skip_next` loop over the tokens after `nmap`, read from the front:
   * `skip` says the next token is the argument of the previous flag.
   */
  function SeparateFrom(ts: seq<string>, skip: bool): Parsed
    decreases |ts|
  {
    if |ts| == 0 then Parsed([], [])
    else if skip then SeparateFrom(ts[1..], false)
    else if StartsWith(ts[0], "-") then
      var r := SeparateFrom(ts[1..], ts[0] in ArgumentFlags);
      Parsed([ts[0]] + r.flags, r.targets)
    else
      var r := SeparateFrom(ts[1..], false);
      Parsed(r.flags, [ts[0]] + r.targets)
  }

  function Separate(ts: seq<string>): Parsed
  {
    SeparateFrom(ts, false)
  }

  method SeparateTokens(parts: seq<string>) returns (flags: seq<string>, targets: seq<string>)
    ensures Parsed(flags, targets) == Separate(parts)
  {
    flags, targets := [], [];
    var skipNext := false;
    var i := 0;
    while i < |parts|
      invariant 0 <= i <= |parts|
      invariant var r := SeparateFrom(parts[i..], skipNext);
        Parsed(flags + r.flags, targets + r.targets) == Separate(parts)
    {
      assert parts[i..][1..] == parts[i + 1..];
      var part := parts[i];
      if skipNext {
        skipNext := false;
      } else if StartsWith(part, "-") {
        flags := flags + [part];
        skipNext := part in ArgumentFlags;
        assert flags + SeparateFrom(parts[i + 1..], skipNext).flags == flags[..|flags| - 1] + ([part] + SeparateFrom(parts[i + 1..], skipNext).flags);
      } else {
        targets := targets + [part];
        assert targets + SeparateFrom(parts[i + 1..], false).targets == targets[..|targets| - 1] + ([part] + SeparateFrom(parts[i + 1..], false).targets);
      }
      i := i + 1;
    }
  }

  /**
   * Every flag starts with `-` and no target does; both come from the tokens,
   * and no token is used twice. With no argument-taking flag, every token is
   * kept.
   */
  lemma {:induction false} SeparateShape(ts: seq<string>, skip: bool)
    ensures var r := SeparateFrom(ts, skip);
      (forall i :: 0 <= i < |r.flags| ==> StartsWith(r.flags[i], "-") && r.flags[i] in ts) &&
      (forall i :: 0 <= i < |r.targets| ==> !StartsWith(r.targets[i], "-") && r.targets[i] in ts) &&
      |r.flags| + |r.targets| <= |ts| &&
      ((!skip && forall i :: 0 <= i < |ts| ==> ts[i] !in ArgumentFlags) ==> |r.flags| + |r.targets| == |ts|)
    decreases |ts|
  {
    if |ts| > 0 {
      var tail := ts[1..];
      assert forall x :: x in tail ==> x in ts;
      if skip {
        SeparateShape(tail, false);
      } else if StartsWith(ts[0], "-") {
        SeparateShape(tail, ts[0] in ArgumentFlags);
      } else {
        SeparateShape(tail, false);
      }
    }
  }

  // ---- target formats ----

  predicate IsLabelChar(c: char) { IsLetter(c) || IsDigit(c) || c == '-' }

  /** `(\.[A-Za-z]{2,})+$` at the start of `s`. */
  predicate TopLevelFrom(s: string)
    decreases |s|
  {
    |s| > 0 && s[0] == '.' &&
    var m := Span(s[1..], IsLetter);
    m >= 2 && (AtEnd(s[1 + m..]) || TopLevelFrom(s[1 + m..]))
  }

  /** The domain pattern `^(?!-)[A-Za-z0-9-]{1,63}(?<!-)(\.[A-Za-z]{2,})+$`. */
  predicate DomainShaped(t: string)
  {
    var n := Span(t, IsLabelChar);
    1 <= n <= 63 && t[0] != '-' && t[n - 1] != '-' && TopLevelFrom(t[n..])
  }

  predicate WellFormedTarget(t: string)
  {
    IpShaped(t) || DomainShaped(t)
  }

  /** The targets that match neither format, in order. */
  function BadTargets(targets: seq<string>): (r: seq<string>)
    ensures |r| <= |targets|
    decreases |targets|
  {
    if |targets| == 0 then []
    else (if WellFormedTarget(targets[0]) then [] else [targets[0]]) + BadTargets(targets[1..])
  }

  /** There are no bad targets exactly when every target has one of the two formats. */
  lemma {:induction false} NoBadTargets(targets: seq<string>)
    ensures |BadTargets(targets)| == 0 <==> forall i :: 0 <= i < |targets| ==> WellFormedTarget(targets[i])
    decreases |targets|
  {
    if |targets| > 0 {
      NoBadTargets(targets[1..]);
      assert forall i :: 1 <= i < |targets| ==> targets[1..][i - 1] == targets[i];
    }
  }

  /** An IPv4-shaped target is never also domain-shaped: its first dot is followed by a digit. */
  lemma IpIsNotDomain(t: string)
    requires IpShaped(t)
    ensures !DomainShaped(t)
  {
    var n := Span(t, IsDigit);
    assert t[n] == '.';
    LabelSpanStopsAtDot(t, n);
    assert Span(t, IsLabelChar) == n;
    var s := t[n..];
    assert s[1..] == t[n + 1..];
    assert IsDigit(t[n + 1]);
    assert Span(s[1..], IsLetter) == 0;
  }

  lemma {:induction false} LabelSpanStopsAtDot(t: string, n: nat)
    requires n < |t| && t[n] == '.'
    requires forall i :: 0 <= i < n ==> IsDigit(t[i])
    ensures Span(t, IsLabelChar) == n
    decreases n
  {
    if n > 0 {
      assert forall i :: 0 <= i < n - 1 ==> t[1..][i] == t[i + 1];
      LabelSpanStopsAtDot(t[1..], n - 1);
    }
  }

  // ---- the response ----

  const SyntaxTemplate := "nmap [flags] <target>"
  const EmptyCommand := "Empty or invalid command."
  const InjectionDetected := "Possible command injection detected."
  const MustStartWithNmap := "Command must start with 'nmap'."
  const NoTarget := "No scan target specified."
  const BlockedBySecurity := "Command blocked by security rules."

  /** The response dictionary; a key the source leaves out is `None`. */
  datatype Response = Response(
    command: string,
    valid: bool,
    severity: RiskLevel,
    error: Option<string>,
    syntax: Option<string>,
    flags: Option<seq<string>>,
    targets: Option<seq<string>>,
    security: Option<Evaluation>,
    blockedBySecurity: bool,
    securityIssues: seq<string>,
    warnings: Option<seq<string>>,
    riskScore: Option<int>,
    riskLevel: Option<RiskLevel>,
    recommendation: Option<string>,
    executionTest: Option<string>,
    commandIndex: Option<nat>)

  function Rejected(cmd: string, severity: RiskLevel, error: string): Response
  {
    Response(cmd, false, severity, Some(error), None, None, None, None, false, [], None, None, None, None, None, None)
  }

  /** One issue per forbidden flag, then one per unsafe target. */
  function SecurityIssues(e: Evaluation): (r: seq<string>)
    ensures |r| == |e.violations| + |e.unsafeTargets|
    ensures forall i :: 0 <= i < |e.violations| ==> StartsWith(r[i], "Forbidden flag ")
    ensures forall i :: |e.violations| <= i < |r| ==> StartsWith(r[i], "Unsafe target ")
  {
    var vs, us := e.violations, e.unsafeTargets;
    seq(|vs|, i requires 0 <= i < |vs| => "Forbidden flag " + vs[i].flag + ": " + vs[i].reason) +
    seq(|us|, i requires 0 <= i < |us| => "Unsafe target " + us[i].target + ": " + us[i].reason)
  }

  function WarningLines(ws: seq<FlagHit>): (r: seq<string>)
    ensures |r| == |ws|
  {
    seq(|ws|, i requires 0 <= i < |ws| => ws[i].flag + ": " + ws[i].reason)
  }

  /** The risk engine's report, when the rules are applied. */
  function RulesVerdict(p: Parsed, applyRules: bool): Option<Evaluation>
  {
    if applyRules then Some(Evaluate(ForbiddenFlags, UnsafeRanges, p.flags, p.targets)) else None
  }

  /** The steps after the structural checks: the risk engine's verdict, then the mock execution note. */
  function Assess(cmd: string, stripped: string, p: Parsed, security: Option<Evaluation>): Response
  {
    var accepted := Response(cmd, true, Low, None, Some(SyntaxTemplate), Some(p.flags), Some(p.targets),
                             None, false, [], None, None, None, None, None, None);
    var mock := Some("[MOCK] Would execute: " + stripped);
    match security
    case None => accepted.(executionTest := mock)
    case Some(e) =>
      if !e.allowed then
        accepted.(valid := false, security := Some(e), blockedBySecurity := true,
                  securityIssues := SecurityIssues(e), error := Some(BlockedBySecurity),
                  severity := e.riskLevel)
      else
        accepted.(security := Some(e),
                  warnings := if |e.warnings| > 0 then Some(WarningLines(e.warnings)) else None,
                  riskScore := Some(Max(0, Min(100, e.riskScore))), riskLevel := Some(e.riskLevel),
                  recommendation := Some(e.recommendation), executionTest := mock)
  }

  /** `validate_nmap_command(cmd, execute_real=False, apply_security_rules=applyRules)`. */
  function Validate(cmd: string, applyRules: bool): Response
  {
    if cmd == "" then Rejected(cmd, High, EmptyCommand)
    else
      var stripped := Strip(cmd);
      if Injection(stripped) then Rejected(cmd, Critical, InjectionDetected)
      else
        match Split(stripped)
        case LexError(msg) => Rejected(cmd, High, "Command parsing failed: " + msg)
        case Tokens(parts) =>
          if |parts| == 0 || Lower(parts[0]) != "nmap" then Rejected(cmd, High, MustStartWithNmap)
          else
            var p := Separate(parts[1..]);
            if |p.targets| == 0 then Rejected(cmd, Medium, NoTarget)
            else
              var bad := BadTargets(p.targets);
              if |bad| > 0 then Rejected(cmd, Medium, "Invalid target format: " + Join(bad, ", "))
              else Assess(cmd, stripped, p, RulesVerdict(p, applyRules))
  }

  /** The command text reaches the risk engine: it passes every structural check. */
  predicate StructurallyValid(cmd: string)
  {
    cmd != "" && !Injection(Strip(cmd)) && Split(Strip(cmd)).Tokens? &&
    var parts := Split(Strip(cmd)).tokens;
    |parts| > 0 && Lower(parts[0]) == "nmap" &&
    var p := Separate(parts[1..]);
    |p.targets| > 0 && forall i :: 0 <= i < |p.targets| ==> WellFormedTarget(p.targets[i])
  }

  /**
   * A command is valid exactly when it passes the structural checks and, with
   * the rules on, the risk engine allows its flags and targets.
   */
  lemma ValidIff(cmd: string, applyRules: bool)
    ensures Validate(cmd, applyRules).valid <==>
      StructurallyValid(cmd) &&
      (applyRules ==>
        var p := Separate(Split(Strip(cmd)).tokens[1..]);
        Evaluate(ForbiddenFlags, UnsafeRanges, p.flags, p.targets).allowed)
  {
    ValidateCases(cmd, applyRules);
    if StructurallyValid(cmd) {
      AssessValid(cmd, Strip(cmd), ParsedOf(cmd), RulesVerdict(ParsedOf(cmd), applyRules));
    }
  }

  /** After the structural checks, only the risk engine can still refuse. */
  lemma AssessValid(cmd: string, stripped: string, p: Parsed, security: Option<Evaluation>)
    ensures Assess(cmd, stripped, p, security).valid <==> security.None? || security.value.allowed
  {
  }

  /** Structural rejections carry the severity the source assigns to each. */
  lemma RejectionSeverity(cmd: string, applyRules: bool)
    ensures var r := Validate(cmd, applyRules);
      (cmd != "" && Injection(Strip(cmd)) ==> !r.valid && r.severity == Critical && r.error == Some(InjectionDetected)) &&
      (cmd == "" ==> !r.valid && r.severity == High && r.error == Some(EmptyCommand)) &&
      (!StructurallyValid(cmd) ==> !r.valid && !r.blockedBySecurity && r.security.None? && r.riskLevel.None? && r.riskScore.None? && r.error.Some?)
  {
    var r := Validate(cmd, applyRules);
    if !StructurallyValid(cmd) && cmd != "" && !Injection(Strip(cmd)) && Split(Strip(cmd)).Tokens? {
      var parts := Split(Strip(cmd)).tokens;
      if |parts| > 0 && Lower(parts[0]) == "nmap" {
        var p := Separate(parts[1..]);
        if |p.targets| > 0 {
          NoBadTargets(p.targets);
        }
      }
    }
  }

  function ParsedOf(cmd: string): Parsed
    requires StructurallyValid(cmd)
  {
    Separate(Split(Strip(cmd)).tokens[1..])
  }

  /** A structurally valid command goes on to the risk engine; any other is rejected before it. */
  lemma ValidateCases(cmd: string, applyRules: bool)
    ensures var r := Validate(cmd, applyRules);
      if StructurallyValid(cmd) then
        r == Assess(cmd, Strip(cmd), ParsedOf(cmd), RulesVerdict(ParsedOf(cmd), applyRules))
      else !r.valid && !r.blockedBySecurity && r.security.None? && r.riskLevel.None? && r.riskScore.None? && r.error.Some?
  {
    RejectionSeverity(cmd, applyRules);
    if StructurallyValid(cmd) {
      NoBadTargets(ParsedOf(cmd).targets);
    }
  }

  /**
   * A security block is invalid, lists one issue per forbidden flag and per
   * unsafe target, and takes the risk level as its severity, which is never low.
   */
  lemma BlockedResponse(cmd: string)
    ensures var r := Validate(cmd, true);
      r.blockedBySecurity ==>
        !r.valid && r.security.Some? && !r.security.value.allowed &&
        |r.securityIssues| == |r.security.value.violations| + |r.security.value.unsafeTargets| > 0 &&
        r.severity == r.security.value.riskLevel && r.severity != Low &&
        r.error == Some(BlockedBySecurity) && r.securityIssues == SecurityIssues(r.security.value)
  {
    ValidateCases(cmd, true);
    if StructurallyValid(cmd) {
      var p := ParsedOf(cmd);
      BlockedIsNeverLow(FlagHits(p.flags, ForbiddenFlags), FlagHits(p.flags, WarningFlags),
        UnsafeTargets(UnsafeRanges, p.targets), SafeTargets(UnsafeRanges, p.targets));
      AllowedIff(ForbiddenFlags, UnsafeRanges, p.flags, p.targets);
    }
  }

  /**
   * An accepted command under the rules carries the clamped score, the level,
   * the recommendation and one warning line per warning flag; its targets are
   * well formed and none of its flags is forbidden.
   */
  lemma AcceptedResponse(cmd: string)
    ensures var r := Validate(cmd, true);
      r.valid ==>
        r.security.Some? && r.security.value.allowed &&
        r.riskScore == Some(r.security.value.riskScore) && 0 <= r.riskScore.value <= 100 &&
        r.riskLevel == Some(r.security.value.riskLevel) &&
        r.recommendation == Some(r.security.value.recommendation) &&
        (r.warnings.Some? <==> |r.security.value.warnings| > 0) &&
        (r.warnings.Some? ==> |r.warnings.value| == |r.security.value.warnings|) &&
        r.targets.Some? && (forall i :: 0 <= i < |r.targets.value| ==> WellFormedTarget(r.targets.value[i])) &&
        r.flags.Some? && (forall i :: 0 <= i < |r.flags.value| ==> !Matches(r.flags.value[i], ForbiddenFlags))
  {
    ValidateCases(cmd, true);
    if StructurallyValid(cmd) {
      var p := ParsedOf(cmd);
      AllowedIff(ForbiddenFlags, UnsafeRanges, p.flags, p.targets);
      ScoreAndLevel(FlagHits(p.flags, ForbiddenFlags), FlagHits(p.flags, WarningFlags),
        UnsafeTargets(UnsafeRanges, p.targets), SafeTargets(UnsafeRanges, p.targets));
    }
  }

  /** Only a security block carries the blocked mark, and only accepted responses carry a level. */
  lemma ResponseFlagsConsistent(cmd: string, applyRules: bool)
    ensures var r := Validate(cmd, applyRules);
      (r.blockedBySecurity ==> !r.valid) && (r.riskLevel.Some? ==> r.valid)
  {
    ValidateCases(cmd, applyRules);
    if StructurallyValid(cmd) {
      AssessFlags(cmd, Strip(cmd), ParsedOf(cmd), RulesVerdict(ParsedOf(cmd), applyRules));
    }
  }

  /** The risk engine's step sets the blocked mark only on a refusal and the level only on an acceptance. */
  lemma AssessFlags(cmd: string, stripped: string, p: Parsed, security: Option<Evaluation>)
    ensures var r := Assess(cmd, stripped, p, security);
      (r.blockedBySecurity ==> !r.valid) && (r.riskLevel.Some? ==> r.valid)
  {
  }

  // ---- batch and summary ----

  /** Each command's result, in input order, tagged with its index. */
  function Tagged(cmds: seq<string>, validate: string -> Response): (r: seq<Response>)
    ensures |r| == |cmds|
    ensures forall i :: 0 <= i < |cmds| ==> r[i] == validate(cmds[i]).(commandIndex := Some(i))
  {
    seq(|cmds|, i requires 0 <= i < |cmds| => validate(cmds[i]).(commandIndex := Some(i)))
  }

  /** `validate_batch_commands` with the rules switch. */
  function Batch(cmds: seq<string>, applyRules: bool): (r: seq<Response>)
    ensures |r| == |cmds|
  {
    Tagged(cmds, c => Validate(c, applyRules))
  }

  method TagEach(cmds: seq<string>, validate: string -> Response) returns (results: seq<Response>)
    ensures results == Tagged(cmds, validate)
  {
    results := [];
    var i := 0;
    while i < |cmds|
      invariant 0 <= i <= |cmds|
      invariant results == Tagged(cmds[..i], validate)
    {
      var r := validate(cmds[i]);
      results := results + [r.(commandIndex := Some(i))];
      i := i + 1;
    }
    assert cmds[..i] == cmds;
  }

  method ValidateBatch(cmds: seq<string>, applyRules: bool) returns (results: seq<Response>)
    ensures results == Batch(cmds, applyRules)
  {
    results := TagEach(cmds, c => Validate(c, applyRules));
  }

  function CountWhere(rs: seq<Response>, p: Response -> bool): (n: nat)
    ensures n <= |rs|
    decreases |rs|
  {
    if |rs| == 0 then 0 else (if p(rs[0]) then 1 else 0) + CountWhere(rs[1..], p)
  }

  predicate IsValid(r: Response) { r.valid }
  predicate IsBlocked(r: Response) { r.blockedBySecurity }
  predicate IsHighRisk(r: Response) { r.riskLevel == Some(High) || r.riskLevel == Some(Critical) }

  datatype Summary = Summary(total: nat, valid: nat, blocked: nat, highRisk: nat)

  /** `get_validation_summary`, without the pass-rate text. */
  function Summarize(rs: seq<Response>): Summary
  {
    Summary(|rs|, CountWhere(rs, IsValid), CountWhere(rs, IsBlocked), CountWhere(rs, IsHighRisk))
  }

  lemma {:induction false} CountDisjoint(rs: seq<Response>, p: Response -> bool, q: Response -> bool)
    requires forall i :: 0 <= i < |rs| ==> !(p(rs[i]) && q(rs[i]))
    ensures CountWhere(rs, p) + CountWhere(rs, q) <= |rs|
    decreases |rs|
  {
    if |rs| > 0 {
      assert forall i :: 0 <= i < |rs[1..]| ==> rs[1..][i] == rs[i + 1];
      CountDisjoint(rs[1..], p, q);
    }
  }

  lemma {:induction false} CountImplies(rs: seq<Response>, p: Response -> bool, q: Response -> bool)
    requires forall i :: 0 <= i < |rs| ==> p(rs[i]) ==> q(rs[i])
    ensures CountWhere(rs, p) <= CountWhere(rs, q)
    decreases |rs|
  {
    if |rs| > 0 {
      assert forall i :: 0 <= i < |rs[1..]| ==> rs[1..][i] == rs[i + 1];
      CountImplies(rs[1..], p, q);
    }
  }

  /**
   * Over a batch, valid and blocked results never overlap, and every high-risk
   * result is a valid one (blocked results carry their level only inside the
   * security report).
   */
  lemma SummaryBounds(cmds: seq<string>, applyRules: bool)
    ensures var s := Summarize(Batch(cmds, applyRules));
      s.total == |cmds| && s.valid + s.blocked <= s.total && s.highRisk <= s.valid
  {
    var rs := Batch(cmds, applyRules);
    forall i | 0 <= i < |rs|
      ensures !(IsValid(rs[i]) && IsBlocked(rs[i])) && (IsHighRisk(rs[i]) ==> IsValid(rs[i]))
    {
      ResponseFlagsConsistent(cmds[i], applyRules);
    }
    CountDisjoint(rs, IsValid, IsBlocked);
    CountImplies(rs, IsHighRisk, IsValid);
  }
}
