/**
 * The self-correction agent: a known-fix table repairs a few error types
 * outright; otherwise a bounded loop runs the command, asks the correction
 * engine for the best rewrite and tries it, and a session record collects the
 * attempts and the feedback meant for the command generator.
 *
 * The simulator is an oracle `exec` from a command to its execution report
 * (`SimulatorReports` builds it from the simulator's model of a run).
 */
module SelfCorrection {
  import opened Text
  import opened Simulator
  import C = Corrections

  datatype RepairType = PermissionFix | SyntaxFix | ScriptWhitelist | TimingAdjustment | NoFixAvailable

  datatype FeedbackType =
    | ComplexityReduction | ParameterChange | AlternativeApproach
    | PrivilegeEscalation | TargetModification | CompleteRegeneration

  // ---- the known-fix table ----

  /**
   * One entry of a known fix's `fixes` list: a `re.sub` pattern with its
   * replacement, either applied whenever it matches, or guarded by a check on
   * its first match (`check` reads the text from a position: nothing where the
   * pattern does not match there, else whether the check holds).
   */
  datatype Fix =
    | Substitute(at: string -> Option<Hit>, reason: string)
    | Guarded(at: string -> Option<Hit>, check: string -> Option<bool>, reason: string)

  datatype KnownFix = KnownFix(description: string, repairType: RepairType, fixes: seq<Fix>, dangerousScripts: seq<string>)

  /** A literal pattern: `re.sub(r"-sS", "-sT", s)`. */
  function LiteralAt(p: string, rep: string): string -> Option<Hit>
  {
    s => if |p| > 0 && StartsWith(s, p) then Some(Hit(|p|, rep)) else None
  }

  /** `-p\s+(\d+)-(\d+)` at the start of `s`: the blanks after `-p` and the two digit groups. */
  function PortRangeGroups(s: string): Option<(nat, string, string)>
  {
    if !StartsWith(s, "-p") then None
    else
      var w := Span(s[2..], IsSpace);
      if w == 0 then None
      else
        match C.LeadingRangeText(s[2 + w..])
        case None => None
        case Some(g) => Some((w, g.0, g.1))
  }

  /** The replacement function: every match becomes `-p <second>-<first>`. */
  function SwapRangeAt(s: string): Option<Hit>
  {
    match PortRangeGroups(s)
    case None => None
    case Some(g) => Some(Hit(2 + g.0 + |g.1| + 1 + |g.2|, "-p " + g.2 + "-" + g.1))
  }

  /** The check on a match: the range is reversed. */
  function ReversedRangeAt(s: string): Option<bool>
  {
    match PortRangeGroups(s)
    case None => None
    case Some(g) => Some(AllDigits(g.1) && AllDigits(g.2) && DigitsValue(g.1) > DigitsValue(g.2))
  }

  predicate IsScriptNameChar(c: char) { c != '-' && !IsSpace(c) }

  /** `--script\s+[^-\s]+` at the start of `s`, replaced by `--script default`. */
  function ScriptAt(s: string): Option<Hit>
  {
    if !StartsWith(s, "--script") then None
    else
      var w := Span(s[8..], IsSpace);
      var n := Span(s[8 + w..], IsScriptNameChar);
      if w == 0 || n == 0 then None else Some(Hit(8 + w + n, "--script default"))
  }

  /** `-T[45]` at the start of `s`, replaced by `-T3`. */
  function AggressiveTimingAt(s: string): Option<Hit>
  {
    if |s| >= 3 && s[0] == '-' && s[1] == 'T' && (s[2] == '4' || s[2] == '5') then Some(Hit(3, "-T3")) else None
  }

  const PermissionReasons: seq<string> :=
    ["TCP Connect scan (-sT) doesn't require root privileges", "TCP Connect scan (-sT) is safer alternative"]

  // `AUTONOMOUS_FIXES`, one constant per key.

  const PermissionKnownFix :=
    KnownFix("Permission error - switching to TCP Connect scan", PermissionFix,
             [Substitute(LiteralAt("-sS", "-sT"), PermissionReasons[0]),
              Substitute(LiteralAt("-sA", "-sT"), PermissionReasons[1])], [])

  const PortRangeKnownFix :=
    KnownFix("Invalid port range specification", SyntaxFix,
             [Guarded(SwapRangeAt, ReversedRangeAt, "Reversed port range - correcting to ascending order")], [])

  const ScriptKnownFix :=
    KnownFix("Using potentially dangerous NSE scripts", ScriptWhitelist,
             [Substitute(ScriptAt, "Replacing unsafe scripts with default safe scripts")],
             ["exploit", "brute-force", "malware"])

  const TimingKnownFix :=
    KnownFix("Timing template is too aggressive", TimingAdjustment,
             [Substitute(AggressiveTimingAt, "Reducing timing from aggressive to moderate")], [])

  const KnownErrorTypes: set<string> := {"permission_denied", "invalid_port_range", "dangerous_script", "timing_too_aggressive"}

  /** The table lookup: the fix for an error type, if it is a key. */
  function FixFor(errorType: string): (r: Option<KnownFix>)
    ensures r.Some? <==> errorType in KnownErrorTypes
  {
    if errorType == "permission_denied" then Some(PermissionKnownFix)
    else if errorType == "invalid_port_range" then Some(PortRangeKnownFix)
    else if errorType == "dangerous_script" then Some(ScriptKnownFix)
    else if errorType == "timing_too_aggressive" then Some(TimingKnownFix)
    else None
  }

  // ---- `attempt_autonomous_repair` ----

  /** One fix applied to the command so far and the reasons recorded so far. */
  function ApplyFix(state: (string, seq<string>), f: Fix): (string, seq<string>)
  {
    var c := state.0;
    match f
    case Substitute(at, reason) => (if Search(c, at).Some? then SubAll(c, at) else c, state.1 + [reason])
    case Guarded(at, check, reason) =>
      var first := Search(c, check);
      if first.Some? && first.value then (SubAll(c, at), state.1 + [reason]) else state
  }

  /** The fixes in list order, each on the output of the one before. */
  function ApplyFixes(command: string, fixes: seq<Fix>): (string, seq<string>)
    decreases |fixes|
  {
    if |fixes| == 0 then (command, []) else ApplyFix(ApplyFixes(command, fixes[..|fixes| - 1]), fixes[|fixes| - 1])
  }

  predicate AnyContained(c: string, scripts: seq<string>)
  {
    exists k :: 0 <= k < |scripts| && Contains(c, scripts[k])
  }

  /** The dangerous-script pass: if any listed script occurs, every script argument becomes `default`. */
  function DangerousStep(state: (string, seq<string>), scripts: seq<string>): (string, seq<string>)
  {
    if AnyContained(state.0, scripts) then (SubAll(state.0, ScriptAt), state.1 + ["Replaced dangerous script with default"]) else state
  }

  datatype Repair = Repair(repairedCommand: string, repairType: RepairType, changes: seq<string>,
                           description: string, originalErrorType: string)

  /** `attempt_autonomous_repair`: nothing for an unknown type or when the fixes neither change nor record anything. */
  function RepairOf(command: string, errorType: string): (r: Option<Repair>)
    ensures r.Some? ==> errorType in KnownErrorTypes && r.value.originalErrorType == errorType
    ensures r.Some? ==> r.value.repairedCommand != command || |r.value.changes| > 0
    ensures errorType !in KnownErrorTypes ==> r == None
  {
    match FixFor(errorType)
    case None => None
    case Some(fix) =>
      var fixed := ApplyFixes(command, fix.fixes);
      var done := if errorType == "dangerous_script" then DangerousStep(fixed, fix.dangerousScripts) else fixed;
      if done.0 == command && done.1 == [] then None
      else Some(Repair(done.0, fix.repairType, done.1, fix.description, errorType))
  }

  method AttemptAutonomousRepair(command: string, errorType: string) returns (r: Option<Repair>)
    ensures r == RepairOf(command, errorType)
  {
    var found := FixFor(errorType);
    if found.None? {
      return None;
    }
    var fix := found.value;
    var repaired, changes := RunFixes(command, fix.fixes);
    if errorType == "dangerous_script" {
      repaired, changes := ScriptPass(repaired, changes, fix.dangerousScripts);
    }
    if repaired == command && changes == [] {
      return None;
    }
    return Some(Repair(repaired, fix.repairType, changes, fix.description, errorType));
  }

  /** The loop over a fix's patterns, each applied to the output of the one before. */
  method RunFixes(command: string, fixes: seq<Fix>) returns (repaired: string, changes: seq<string>)
    ensures (repaired, changes) == ApplyFixes(command, fixes)
  {
    repaired, changes := command, [];
    for i := 0 to |fixes|
      invariant (repaired, changes) == ApplyFixes(command, fixes[..i])
    {
      assert fixes[..i + 1][..i] == fixes[..i];
      match fixes[i] {
        case Substitute(at, reason) =>
          if Search(repaired, at).Some? {
            repaired := SubAll(repaired, at);
          }
          changes := changes + [reason];
        case Guarded(at, check, reason) =>
          var first := Search(repaired, check);
          if first.Some? && first.value {
            repaired := SubAll(repaired, at);
            changes := changes + [reason];
          }
      }
    }
    assert fixes[..|fixes|] == fixes;
  }

  /** The dangerous-script loop: the first listed script found triggers the replacement, once. */
  method ScriptPass(command: string, changes: seq<string>, scripts: seq<string>) returns (repaired: string, more: seq<string>)
    ensures (repaired, more) == DangerousStep((command, changes), scripts)
  {
    repaired, more := command, changes;
    var i := 0;
    while i < |scripts|
      invariant 0 <= i <= |scripts| && (repaired, more) == (command, changes)
      invariant forall j :: 0 <= j < i ==> !Contains(command, scripts[j])
    {
      if Contains(repaired, scripts[i]) {
        repaired := SubAll(repaired, ScriptAt);
        more := more + ["Replaced dangerous script with default"];
        return;
      }
      i := i + 1;
    }
  }

  /** A literal `re.sub` is `str.replace`. */
  lemma {:induction false} SubAllLiteral(s: string, p: string, rep: string)
    requires |p| > 0
    ensures SubAll(s, LiteralAt(p, rep)) == ReplaceAll(s, p, rep)
    ensures Search(s, LiteralAt(p, rep)).Some? <==> Contains(s, p)
    decreases |s|
  {
    if |s| > 0 {
      SubAllLiteral(s[1..], p, rep);
      if StartsWith(s, p) {
        SubAllLiteral(s[|p|..], p, rep);
      }
    }
  }

  /**
   * Of the known-fix keys, only `permission_denied` is an error type a report
   * ever carries; the other three entries are never reached.
   */
  lemma OnlyPermissionIsReachable(k: ErrorKind)
    ensures FixFor(KindName(k)).Some? <==> k == PermissionDenied
  {
  }

  /**
   * The fixes without a check record their reason whether or not they
   * matched, so a permission error is always "repaired": both reasons are
   * recorded, and no `-sS` or `-sA` is left.
   */
  lemma PermissionAlwaysRepaired(command: string)
    ensures var r := RepairOf(command, "permission_denied");
      r.Some? && r.value.changes == PermissionReasons && r.value.repairType == PermissionFix
      && !Contains(r.value.repairedCommand, "-sS") && !Contains(r.value.repairedCommand, "-sA")
  {
    var fixes := PermissionKnownFix.fixes;
    assert fixes[..1][..0] == [] && fixes[..2] == fixes;
    var st1 := ApplyFix((command, []), fixes[0]);
    var st2 := ApplyFix(st1, fixes[1]);
    assert st1.1 == [] + [PermissionReasons[0]] == [PermissionReasons[0]];
    assert ApplyFixes(command, fixes[..1]) == st1;
    assert ApplyFixes(command, fixes) == st2;
    var c1 := st1.0;
    SubAllLiteral(command, "-sS", "-sT");
    SubAllLiteral(c1, "-sA", "-sT");
    assert !Contains(c1, "-sS") by {
      if Contains(command, "-sS") {
        ReplaceFlagRemovesIt(command, '-', 's', 'S', 'T');
      }
    }
    if Contains(c1, "-sA") {
      ReplaceFlagRemovesIt(c1, '-', 's', 'A', 'T');
      ReplaceFlagKeepsOut(c1, '-', 's', 'A', 'T', 'S');
    }
  }

  /**
   * The guarded port-range fix acts only when the first `-p a-b` is reversed;
   * it then swaps every `-p a-b`, reversed or not, and records one reason.
   */
  lemma PortRangeRepair(command: string)
    ensures var r := RepairOf(command, "invalid_port_range");
      if Search(command, ReversedRangeAt) == Some(true) then
        r.Some? && r.value.repairedCommand == SubAll(command, SwapRangeAt)
        && r.value.changes == ["Reversed port range - correcting to ascending order"]
      else r == None
  {
    var fix := PortRangeKnownFix;
    assert FixFor("invalid_port_range") == Some(fix);
    assert |"invalid_port_range"| == 18 && |"dangerous_script"| == 16;
    var f := fix.fixes[0];
    assert ApplyFixes(command, fix.fixes) == ApplyFix((command, []), f) by {
      assert fix.fixes[..0] == [];
    }
    if Search(command, ReversedRangeAt) == Some(true) {
      assert ApplyFix((command, []), f) == (SubAll(command, SwapRangeAt), [] + [f.reason]);
      assert [] + [f.reason] == [f.reason];
    } else {
      assert ApplyFix((command, []), f) == (command, []);
    }
  }

  /** The other two fixes also always report a repair, led by their own reason. */
  lemma UnguardedAlwaysRepaired(command: string, errorType: string)
    requires errorType == "dangerous_script" || errorType == "timing_too_aggressive"
    ensures var r := RepairOf(command, errorType);
      r.Some? && |r.value.changes| >= 1 && r.value.changes[0] == FixFor(errorType).value.fixes[0].reason
  {
    var fix := FixFor(errorType).value;
    assert fix.fixes[..0] == [];
    assert ApplyFixes(command, fix.fixes).1 == [] + [fix.fixes[0].reason] == [fix.fixes[0].reason];
  }

  // ---- success, sessions and feedback ----

  /** The errors of severity `critical`, in order. */
  function CriticalErrors(errors: seq<ErrorEntry>): seq<ErrorEntry>
    decreases |errors|
  {
    if |errors| == 0 then []
    else CriticalErrors(errors[..|errors| - 1]) + (if errors[|errors| - 1].severity == Critical then [errors[|errors| - 1]] else [])
  }

  /** `_is_successful_execution`. */
  function IsSuccessful(r: Report): bool
  {
    |CriticalErrors(r.errors)| == 0 && r.execution.exitCode == Some(0) && r.execution.completed
  }

  lemma {:induction false} NoCriticalErrors(errors: seq<ErrorEntry>)
    ensures |CriticalErrors(errors)| == 0 <==> forall e :: e in errors ==> e.severity != Critical
    decreases |errors|
  {
    if |errors| > 0 {
      var front := errors[..|errors| - 1];
      NoCriticalErrors(front);
      assert errors == front + [errors[|errors| - 1]];
    }
  }

  /** A run passes iff no error is critical, the exit code is 0 and the run completed. */
  lemma SuccessMeans(r: Report)
    ensures IsSuccessful(r) <==>
      (forall e :: e in r.errors ==> e.severity != Critical) && r.execution.exitCode == Some(0) && r.execution.completed
  {
    NoCriticalErrors(r.errors);
  }

  datatype Attempt = Attempt(number: nat, originalCommand: string, correctedCommand: string,
                             errorsBefore: seq<ErrorEntry>, errorsAfter: Option<seq<ErrorEntry>>,
                             success: bool, changesMade: seq<string>, repairType: Option<RepairType>)

  datatype Recommendation = Recommendation(action: string, suggestion: string, priority: string)

  /**
   * A feedback record for the command generator. Upstream and failure records
   * always ask for a retry (`requires_m3_retry`), so that flag is not stored.
   */
  datatype Feedback =
    | Upstream(feedbackType: FeedbackType, reason: string, attemptsMade: nat,
               persistentErrors: seq<string>, recommendations: seq<Recommendation>)
    | FinalSuccess(totalAttempts: nat, isAutonomousRepair: bool, finalCommand: Option<string>,
                   correctionsApplied: seq<string>, sourceAgent: string)
    | FinalFailure(totalAttempts: nat, isAutonomousRepair: bool, persistentIssues: seq<string>,
                   recommendedAction: string)

  datatype Session = Session(originalCommand: string, originalIntent: string, attempts: seq<Attempt>,
                             finalCommand: Option<string>, success: bool, isAutonomousRepair: bool,
                             feedback: seq<Feedback>)

  function NewSession(command: string, intent: string): Session
  {
    Session(command, intent, [], None, false, false, [])
  }

  function TypesOf(errors: seq<ErrorEntry>): (r: seq<string>)
    ensures |r| == |errors| && forall i :: 0 <= i < |errors| ==> r[i] == KindName(errors[i].kind)
  {
    seq(|errors|, i requires 0 <= i < |errors| => KindName(errors[i].kind))
  }

  /** The types of every attempt's `errors_before`, in order. */
  function AllErrorTypes(attempts: seq<Attempt>): seq<string>
    decreases |attempts|
  {
    if |attempts| == 0 then []
    else AllErrorTypes(attempts[..|attempts| - 1]) + TypesOf(attempts[|attempts| - 1].errorsBefore)
  }

  function Occurrences(ts: seq<string>, t: string): nat
    decreases |ts|
  {
    if |ts| == 0 then 0
    else Occurrences(ts[..|ts| - 1], t) + (if ts[|ts| - 1] == t then 1 else 0)
  }

  /**
   * The counting dictionary's keys that reach the threshold, in first-seen
   * order: `ts` is scanned, and a type is kept at its first occurrence.
   */
  function FrequentTypes(ts: seq<string>, all: seq<string>, threshold: nat): seq<string>
    decreases |ts|
  {
    if |ts| == 0 then []
    else
      var t := ts[|ts| - 1];
      FrequentTypes(ts[..|ts| - 1], all, threshold)
        + (if t !in ts[..|ts| - 1] && Occurrences(all, t) >= threshold then [t] else [])
  }

  function PersistentTypes(attempts: seq<Attempt>): seq<string>
  {
    var all := AllErrorTypes(attempts);
    FrequentTypes(all, all, |attempts|)
  }

  lemma {:induction false} FrequentTypesMeans(ts: seq<string>, all: seq<string>, threshold: nat)
    ensures forall t :: t in FrequentTypes(ts, all, threshold) <==> t in ts && Occurrences(all, t) >= threshold
    ensures forall i, j :: 0 <= i < j < |FrequentTypes(ts, all, threshold)| ==>
      FrequentTypes(ts, all, threshold)[i] != FrequentTypes(ts, all, threshold)[j]
    decreases |ts|
  {
    if |ts| > 0 {
      var front := ts[..|ts| - 1];
      FrequentTypesMeans(front, all, threshold);
      assert ts == front + [ts[|ts| - 1]];
    }
  }

  /**
   * A type is persistent iff it occurs among the attempts' errors at least
   * as many times as there are attempts; each is listed once.
   */
  lemma PersistentMeans(attempts: seq<Attempt>)
    ensures forall t :: t in PersistentTypes(attempts) <==>
      t in AllErrorTypes(attempts) && Occurrences(AllErrorTypes(attempts), t) >= |attempts|
    ensures forall i, j :: 0 <= i < j < |PersistentTypes(attempts)| ==>
      PersistentTypes(attempts)[i] != PersistentTypes(attempts)[j]
  {
    var all := AllErrorTypes(attempts);
    FrequentTypesMeans(all, all, |attempts|);
  }

  const PrivilegeAdvice := Recommendation("avoid_root_requiring_scans", "Use TCP connect scan (-sT) instead of SYN scan", "high")
  const TargetAdvice := Recommendation("verify_target_accessibility", "Check if target is accessible or use different target", "high")
  const ScriptAdvice := Recommendation("use_basic_scripts", "Stick to default or safe script categories", "medium")
  const SimplifyAdvice := Recommendation("simplify_command", "Generate simpler command with fewer options", "high")

  /** `_generate_upstream_feedback`: each applicable rule adds its advice and overwrites the type. */
  function UpstreamFeedback(attempts: seq<Attempt>, maxAttempts: nat, reason: string): Feedback
  {
    var p := PersistentTypes(attempts);
    var f0 := Upstream(CompleteRegeneration, reason, |attempts|, p, []);
    var f1 := if "permission_denied" in p then f0.(feedbackType := PrivilegeEscalation, recommendations := f0.recommendations + [PrivilegeAdvice]) else f0;
    var f2 := if "network_unreachable" in p then f1.(feedbackType := TargetModification, recommendations := f1.recommendations + [TargetAdvice]) else f1;
    var f3 := if "script_not_found" in p then f2.(feedbackType := AlternativeApproach, recommendations := f2.recommendations + [ScriptAdvice]) else f2;
    if |attempts| >= maxAttempts then f3.(feedbackType := ComplexityReduction, recommendations := f3.recommendations + [SimplifyAdvice]) else f3
  }

  /**
   * The type is the last rule that applies, so the rules take precedence in
   * reverse order; there is one recommendation per applicable rule.
   */
  lemma UpstreamTypePrecedence(attempts: seq<Attempt>, maxAttempts: nat, reason: string)
    ensures var f := UpstreamFeedback(attempts, maxAttempts, reason);
      var p := PersistentTypes(attempts);
      f.Upstream? && f.attemptsMade == |attempts| && f.reason == reason
      && f.feedbackType == (if |attempts| >= maxAttempts then ComplexityReduction
                            else if "script_not_found" in p then AlternativeApproach
                            else if "network_unreachable" in p then TargetModification
                            else if "permission_denied" in p then PrivilegeEscalation
                            else CompleteRegeneration)
      && |f.recommendations| == (if "permission_denied" in p then 1 else 0) + (if "network_unreachable" in p then 1 else 0)
                                + (if "script_not_found" in p then 1 else 0) + (if |attempts| >= maxAttempts then 1 else 0)
  {
  }

  /** Every change of every attempt, in order. */
  function ChangesOf(attempts: seq<Attempt>): seq<string>
    decreases |attempts|
  {
    if |attempts| == 0 then [] else ChangesOf(attempts[..|attempts| - 1]) + attempts[|attempts| - 1].changesMade
  }

  /** `errors_after or errors_before`: an empty or missing after-list falls back. */
  function LastErrors(a: Attempt): seq<ErrorEntry>
  {
    if a.errorsAfter.Some? && |a.errorsAfter.value| > 0 then a.errorsAfter.value else a.errorsBefore
  }

  function IssueText(e: ErrorEntry): string
  {
    KindName(e.kind) + ": " + e.message
  }

  /** `_analyze_persistent_issues`: the last attempt's remaining errors. */
  function PersistentIssues(attempts: seq<Attempt>): (r: seq<string>)
    ensures |attempts| == 0 ==> r == []
    ensures |attempts| > 0 ==> |r| == |LastErrors(attempts[|attempts| - 1])|
  {
    if |attempts| == 0 then []
    else
      var errors := LastErrors(attempts[|attempts| - 1]);
      seq(|errors|, i requires 0 <= i < |errors| => IssueText(errors[i]))
  }

  const NoAttemptsAction := "No attempts made - check initial command validity"
  const PrivilegesAction := "Request elevated privileges or use alternative scan methods"
  const NetworkAction := "Verify network connectivity and target accessibility"
  const SyntaxAction := "Regenerate command with correct syntax"
  const SimplifyAction := "Consider simplifying requirements or using alternative approach"

  /** `_recommend_final_action`. */
  function RecommendFinalAction(attempts: seq<Attempt>): string
  {
    var types := AllErrorTypes(attempts);
    if |attempts| == 0 then NoAttemptsAction
    else if "permission_denied" in types then PrivilegesAction
    else if "network_unreachable" in types then NetworkAction
    else if "syntax_error" in types then SyntaxAction
    else SimplifyAction
  }

  /** Some attempt's `errors_before` holds an error of kind `k`. */
  predicate Seen(attempts: seq<Attempt>, k: ErrorKind)
  {
    exists i :: 0 <= i < |attempts| && HasKind(attempts[i].errorsBefore, k)
  }

  predicate HasKind(errors: seq<ErrorEntry>, k: ErrorKind)
  {
    exists j :: 0 <= j < |errors| && errors[j].kind == k
  }

  lemma TypesOfMeans(errors: seq<ErrorEntry>, k: ErrorKind)
    ensures KindName(k) in TypesOf(errors) <==> HasKind(errors, k)
  {
    var ts := TypesOf(errors);
    if KindName(k) in ts {
      var j :| 0 <= j < |ts| && ts[j] == KindName(k);
      KindNameInjective(errors[j].kind, k);
    }
    if HasKind(errors, k) {
      var j :| 0 <= j < |errors| && errors[j].kind == k;
      assert ts[j] == KindName(k);
    }
  }

  lemma KindNameInjective(a: ErrorKind, b: ErrorKind)
    requires KindName(a) == KindName(b)
    ensures a == b
  {
    match a
    case PermissionDenied => assert KindName(b)[0] == 'p' && KindName(b)[1] == 'e';
    case NetworkUnreachable => assert KindName(b)[0] == 'n';
    case Timeout => assert KindName(b)[0] == 't';
    case InvalidArgument => assert KindName(b)[0] == 'i';
    case PortSpecification => assert KindName(b)[0] == 'p' && KindName(b)[1] == 'o';
    case ScriptNotFound => assert KindName(b)[0] == 's' && KindName(b)[1] == 'c';
    case DnsResolution => assert KindName(b)[0] == 'd';
    case ResourceLimit => assert KindName(b)[0] == 'r';
    case SyntaxError => assert KindName(b)[0] == 's' && KindName(b)[1] == 'y';
    case Unknown => assert KindName(b)[0] == 'u';
  }

  /** A kind's name is among the attempts' error types iff some attempt met an error of that kind. */
  lemma {:induction false} AllErrorTypesMeans(attempts: seq<Attempt>, k: ErrorKind)
    ensures KindName(k) in AllErrorTypes(attempts) <==> Seen(attempts, k)
    decreases |attempts|
  {
    if |attempts| > 0 {
      var n := |attempts| - 1;
      var front := attempts[..n];
      AllErrorTypesMeans(front, k);
      TypesOfMeans(attempts[n].errorsBefore, k);
      if Seen(front, k) {
        var i :| 0 <= i < n && HasKind(front[i].errorsBefore, k);
        assert attempts[i] == front[i];
      }
      if Seen(attempts, k) {
        var i :| 0 <= i < |attempts| && HasKind(attempts[i].errorsBefore, k);
        if i < n {
          assert front[i] == attempts[i];
        }
      }
    }
  }

  /**
   * The final advice asks for privileges exactly when some attempt met a
   * permission error; otherwise an unreachable network, then a syntax error,
   * decide it.
   */
  lemma FinalActionPrecedence(attempts: seq<Attempt>)
    requires |attempts| > 0
    ensures var a := RecommendFinalAction(attempts);
      && (a == PrivilegesAction <==> Seen(attempts, PermissionDenied))
      && (a == NetworkAction <==> !Seen(attempts, PermissionDenied) && Seen(attempts, NetworkUnreachable))
      && (a == SyntaxAction <==>
            !Seen(attempts, PermissionDenied) && !Seen(attempts, NetworkUnreachable) && Seen(attempts, SyntaxError))
  {
    assert |NoAttemptsAction| == 49 && |PrivilegesAction| == 59 && |NetworkAction| == 52 && |SyntaxAction| == 38 && |SimplifyAction| == 63;
    AllErrorTypesMeans(attempts, PermissionDenied);
    AllErrorTypesMeans(attempts, NetworkUnreachable);
    AllErrorTypesMeans(attempts, SyntaxError);
  }

  function SourceAgent(autonomous: bool): string
  {
    if autonomous then "SELF-CORR-AUTO" else "SELF-CORR-ITER"
  }

  /** `_generate_final_feedback`. */
  function FinalFeedback(s: Session): (f: Feedback)
    ensures f.FinalSuccess? <==> s.success
    ensures f.FinalSuccess? ==> f.correctionsApplied == ChangesOf(s.attempts) && f.finalCommand == s.finalCommand
    ensures f.FinalFailure? ==> f.persistentIssues == PersistentIssues(s.attempts)
  {
    if s.success then
      FinalSuccess(|s.attempts|, s.isAutonomousRepair, s.finalCommand, ChangesOf(s.attempts), SourceAgent(s.isAutonomousRepair))
    else
      FinalFailure(|s.attempts|, s.isAutonomousRepair, PersistentIssues(s.attempts), RecommendFinalAction(s.attempts))
  }

  // ---- `correct_command` as a function of the oracle ----

  /**
   * The simulator as the agent calls it: the report for a command on a
   * container target, `run` giving the run the command makes.
   */
  function SimulatorReports(run: string -> RunTrace): string -> Report
  {
    c => Simulated(c, "container", run(c))
  }

  datatype Phase = Phase(session: Session, current: string, done: bool)

  /** The autonomous-repair phase, entered only with status `Repairable`. */
  function AutonomousPhase(exec: string -> Report, command: string, intent: string, status: string): Phase
  {
    var s0 := NewSession(command, intent);
    if status != "Repairable" then Phase(s0, command, false)
    else
      var errors := exec(command).errors;
      if |errors| == 0 then Phase(s0, command, false)
      else
        match RepairOf(command, KindName(errors[0].kind))
        case None => Phase(s0, command, false)
        case Some(rep) =>
          var repaired := rep.repairedCommand;
          var attempt := Attempt(1, command, repaired, errors, None, false, [], None);
          if IsSuccessful(exec(repaired)) then
            Phase(s0.(attempts := [attempt.(success := true)], success := true, isAutonomousRepair := true,
                      finalCommand := Some(repaired)), repaired, true)
          else Phase(s0.(attempts := [attempt]), repaired, false)
  }

  /** The loop's state: the session so far, the command under test, and the analyses requested. */
  datatype Progress = Progress(session: Session, current: string, analyses: seq<C.HistoryEntry>)

  predicate Shaped(s: Session)
  {
    && (forall i :: 0 <= i < |s.attempts| ==> s.attempts[i].repairType.None?)
    && (forall i :: 0 <= i < |s.attempts| - 1 ==> !s.attempts[i].success)
    && (s.success <==> |s.attempts| > 0 && s.attempts[|s.attempts| - 1].success)
    && (s.success ==> s.finalCommand == Some(s.attempts[|s.attempts| - 1].correctedCommand))
    && (!s.success ==> s.finalCommand.None?)
  }

  /** The session with one more attempt and the given outcome. */
  function Record(s: Session, a: Attempt): (r: Session)
    ensures |r.attempts| == |s.attempts| + 1 && r.attempts[..|s.attempts|] == s.attempts && r.attempts[|s.attempts|] == a
    ensures r.success == (s.success || a.success) && r.feedback == s.feedback
    ensures r.originalCommand == s.originalCommand && r.isAutonomousRepair == s.isAutonomousRepair
    ensures Shaped(s) && !s.success && a.repairType.None? ==> Shaped(r)
  {
    if a.success then s.(attempts := s.attempts + [a], success := true, finalCommand := Some(a.correctedCommand))
    else s.(attempts := s.attempts + [a])
  }

  /** The session with one more feedback record; nothing else changes. */
  function WithFeedback(s: Session, f: Feedback): (r: Session)
    ensures r.attempts == s.attempts && r.success == s.success && r.finalCommand == s.finalCommand
    ensures r.originalCommand == s.originalCommand && r.isAutonomousRepair == s.isAutonomousRepair
    ensures r.feedback == s.feedback + [f]
  {
    s.(feedback := s.feedback + [f])
  }

  /**
   * What any pass does: it appends one attempt numbered `num`, asks for at
   * most one analysis, stops when it succeeds, and keeps the
   * session's shape.
   */
  predicate OnePass(p: Progress, q: Progress, num: nat, stop: bool)
  {
    var s, t := p.session, q.session;
    && |t.attempts| == |s.attempts| + 1 && t.attempts[..|s.attempts|] == s.attempts
    && t.attempts[|s.attempts|].number == num
    && t.originalCommand == s.originalCommand && t.isAutonomousRepair == s.isAutonomousRepair
    && |p.analyses| <= |q.analyses| <= |p.analyses| + 1 && q.analyses[..|p.analyses|] == p.analyses
    && (!s.success && t.success ==> stop)
    && (Shaped(s) && !s.success ==> Shaped(t))
  }

  /** The attempt a pass appends started from `a`: same original command and errors before. */
  predicate KeepsOrigin(p: Progress, q: Progress, a: Attempt)
  {
    |q.session.attempts| > |p.session.attempts|
    && q.session.attempts[|p.session.attempts|].originalCommand == a.originalCommand
    && q.session.attempts[|p.session.attempts|].errorsBefore == a.errorsBefore
  }

  /** A pass whose best correction differs from the command under test: that correction is run. */
  function AfterTest(maxAttempts: nat, num: nat, p: Progress, tried: Attempt, test: Report, analyses: seq<C.HistoryEntry>): (r: (Progress, bool))
    requires tried.number == num && !tried.success && tried.repairType.None?
    requires |p.analyses| <= |analyses| <= |p.analyses| + 1 && analyses[..|p.analyses|] == p.analyses
    ensures OnePass(p, r.0, num, r.1)
    ensures KeepsOrigin(p, r.0, tried)
  {
    var last := tried.(errorsAfter := Some(test.errors));
    if IsSuccessful(test) then (Progress(Record(p.session, last.(success := true)), p.current, analyses), true)
    else Continued(maxAttempts, num, p, last, analyses)
  }

  /** A pass that goes on to the next: the attempt is recorded and the correction becomes the command under test. */
  function Continued(maxAttempts: nat, num: nat, p: Progress, last: Attempt, analyses: seq<C.HistoryEntry>): (r: (Progress, bool))
    requires last.number == num && !last.success && last.repairType.None?
    requires |p.analyses| <= |analyses| <= |p.analyses| + 1 && analyses[..|p.analyses|] == p.analyses
    ensures OnePass(p, r.0, num, r.1) && !r.1
    ensures KeepsOrigin(p, r.0, last)
  {
    var s1 := Record(p.session, last);
    var s2 := if num + 1 == maxAttempts then WithFeedback(s1, UpstreamFeedback(s1.attempts, maxAttempts, "max_attempts_approaching")) else s1;
    (Progress(s2, last.correctedCommand, analyses), false)
  }

  /** A failed pass after its analysis: stop without corrections, else try the best one. */
  function AfterAnalysis(exec: string -> Report, maxAttempts: nat, num: nat, p: Progress, attempt: Attempt,
                         corrections: seq<C.MappedCorrection>, analyses: seq<C.HistoryEntry>): (r: (Progress, bool))
    requires attempt.number == num && !attempt.success && attempt.repairType.None? && attempt.correctedCommand == p.current
    requires |p.analyses| <= |analyses| <= |p.analyses| + 1 && analyses[..|p.analyses|] == p.analyses
    ensures OnePass(p, r.0, num, r.1)
    ensures KeepsOrigin(p, r.0, attempt)
  {
    if |corrections| == 0 then
      var s1 := Record(p.session, attempt);
      (Progress(WithFeedback(s1, UpstreamFeedback(s1.attempts, maxAttempts, "no_corrections_available")), p.current, analyses), true)
    else
      var best := corrections[0].correction;
      var tried := attempt.(correctedCommand := best.corrected, changesMade := best.changes);
      if best.corrected != p.current then AfterTest(maxAttempts, num, p, tried, exec(best.corrected), analyses)
      else Continued(maxAttempts, num, p, tried, analyses)
  }

  /** One pass of the iterative loop, numbered `num`: the new state, and whether the loop stops. */
  function Iteration(exec: string -> Report, analyze: Report -> seq<C.MappedCorrection>, maxAttempts: nat, command: string, num: nat, p: Progress): (r: (Progress, bool))
    requires num >= 1 && (num > 1 ==> |p.session.attempts| > 0)
    ensures OnePass(p, r.0, num, r.1)
    ensures var a := r.0.session.attempts[|p.session.attempts|];
      a.errorsBefore == exec(p.current).errors
      && a.originalCommand == (if num == 1 then command else p.session.attempts[|p.session.attempts| - 1].correctedCommand)
  {
    var s := p.session;
    var original := if num == 1 then command else s.attempts[|s.attempts| - 1].correctedCommand;
    var report := exec(p.current);
    var attempt := Attempt(num, original, p.current, report.errors, None, false, [], None);
    if IsSuccessful(report) then (p.(session := Record(s, attempt.(success := true))), true)
    else
      var corrections := analyze(report);
      AfterAnalysis(exec, maxAttempts, num, p, attempt, corrections,
                    p.analyses + [C.HistoryEntry(report.command, report.errors, corrections)])
  }

  /** The loop from pass `num` on, up to `maxAttempts`. */
  function IterateFrom(exec: string -> Report, analyze: Report -> seq<C.MappedCorrection>, maxAttempts: nat, command: string, num: nat, p: Progress): Progress
    requires num >= 1 && (num > 1 ==> |p.session.attempts| > 0)
    decreases maxAttempts + 1 - num
  {
    if num > maxAttempts then p
    else
      var step := Iteration(exec, analyze, maxAttempts, command, num, p);
      if step.1 then step.0 else IterateFrom(exec, analyze, maxAttempts, command, num + 1, step.0)
  }

  datatype Outcome = Outcome(session: Session, analyses: seq<C.HistoryEntry>)

  /** The rest of `correct_command` after the autonomous phase: the loop, then the final summary of a failed session. */
  function Continue(exec: string -> Report, analyze: Report -> seq<C.MappedCorrection>, maxAttempts: nat, command: string, ph: Phase): Outcome
  {
    if ph.done then Outcome(ph.session, [])
    else
      var p := IterateFrom(exec, analyze, maxAttempts, command, 1, Progress(ph.session, ph.current, []));
      var s := p.session;
      Outcome(if s.success then s else WithFeedback(s, FinalFeedback(s)), p.analyses)
  }

  /** What `correct_command` returns and records, and the analyses it asks the correction engine for. */
  function Corrected(exec: string -> Report, analyze: Report -> seq<C.MappedCorrection>, maxAttempts: nat, command: string, intent: string, status: string): Outcome
  {
    Continue(exec, analyze, maxAttempts, command, AutonomousPhase(exec, command, intent, status))
  }

  // ---- properties of a correction session ----

  lemma {:induction false} IterateBounds(exec: string -> Report, analyze: Report -> seq<C.MappedCorrection>, maxAttempts: nat, command: string, num: nat, p: Progress)
    requires 1 <= num <= maxAttempts + 1 && (num > 1 ==> |p.session.attempts| > 0)
    requires Shaped(p.session) && !p.session.success
    ensures var q := IterateFrom(exec, analyze, maxAttempts, command, num, p);
      && |p.session.attempts| <= |q.session.attempts| <= |p.session.attempts| + (maxAttempts + 1 - num)
      && q.session.attempts[..|p.session.attempts|] == p.session.attempts
      && |q.analyses| <= |p.analyses| + (maxAttempts + 1 - num)
      && Shaped(q.session)
      && q.session.isAutonomousRepair == p.session.isAutonomousRepair
    decreases maxAttempts + 1 - num
  {
    if num <= maxAttempts {
      var step := Iteration(exec, analyze, maxAttempts, command, num, p);
      assert OnePass(p, step.0, num, step.1);
      if step.1 {
        assert IterateFrom(exec, analyze, maxAttempts, command, num, p) == step.0;
      } else {
        IterateBounds(exec, analyze, maxAttempts, command, num + 1, step.0);
        var q := IterateFrom(exec, analyze, maxAttempts, command, num + 1, step.0);
        assert IterateFrom(exec, analyze, maxAttempts, command, num, p) == q;
        assert q.session.attempts[..|p.session.attempts|] == q.session.attempts[..|step.0.session.attempts|][..|p.session.attempts|];
      }
    }
  }

  /**
   * A session holds at most `maxAttempts` loop attempts besides the
   * autonomous one and asks for at most `maxAttempts` analyses; no attempt
   * but the last succeeded, the session succeeded iff the last one did (and
   * then ends on its command), no attempt carries a repair type, and a failed
   * session ends with its failure summary.
   */
  lemma SessionShape(exec: string -> Report, analyze: Report -> seq<C.MappedCorrection>, maxAttempts: nat, command: string, intent: string, status: string)
    ensures var o := Corrected(exec, analyze, maxAttempts, command, intent, status);
      && |o.session.attempts| <= maxAttempts + 1
      && |o.analyses| <= maxAttempts
      && Shaped(o.session)
      && (!o.session.success ==> |o.session.feedback| > 0 && o.session.feedback[|o.session.feedback| - 1].FinalFailure?)
  {
    var ph := AutonomousPhase(exec, command, intent, status);
    PhaseShape(exec, command, intent, status);
    if !ph.done {
      var start := Progress(ph.session, ph.current, []);
      IterateBounds(exec, analyze, maxAttempts, command, 1, start);
      var s := IterateFrom(exec, analyze, maxAttempts, command, 1, start).session;
      assert Corrected(exec, analyze, maxAttempts, command, intent, status).session
        == if s.success then s else WithFeedback(s, FinalFeedback(s));
    }
  }

  /** The autonomous phase leaves at most one attempt, in shape, and is done exactly when it succeeded. */
  lemma PhaseShape(exec: string -> Report, command: string, intent: string, status: string)
    ensures var ph := AutonomousPhase(exec, command, intent, status);
      |ph.session.attempts| <= 1 && Shaped(ph.session) && (ph.done <==> ph.session.success)
  {
  }

  /**
   * With status `Repairable`, a first error whose type has a known fix, and a
   * repaired command that passes, the session is a single successful
   * autonomous attempt and the loop never runs.
   */
  lemma AutonomousSuccess(exec: string -> Report, analyze: Report -> seq<C.MappedCorrection>, maxAttempts: nat, command: string, intent: string)
    requires var errors := exec(command).errors;
      |errors| > 0 && RepairOf(command, KindName(errors[0].kind)).Some?
      && IsSuccessful(exec(RepairOf(command, KindName(errors[0].kind)).value.repairedCommand))
    ensures var o := Corrected(exec, analyze, maxAttempts, command, intent, "Repairable");
      var errors := exec(command).errors;
      var repaired := RepairOf(command, KindName(errors[0].kind)).value.repairedCommand;
      && o.session.success && o.session.isAutonomousRepair
      && o.session.finalCommand == Some(repaired)
      && o.session.attempts == [Attempt(1, command, repaired, errors, None, true, [], None)]
      && o.analyses == [] && o.session.feedback == []
  {
  }

  /**
   * A repair that does not pass stays as a failed first attempt, and the loop
   * then starts from the repaired command: its first attempt is numbered 1,
   * names the original command, and holds the repaired command's errors.
   */
  lemma AutonomousFailure(exec: string -> Report, analyze: Report -> seq<C.MappedCorrection>, maxAttempts: nat, command: string, intent: string)
    requires maxAttempts >= 1
    requires var errors := exec(command).errors;
      |errors| > 0 && RepairOf(command, KindName(errors[0].kind)).Some?
      && !IsSuccessful(exec(RepairOf(command, KindName(errors[0].kind)).value.repairedCommand))
    ensures var o := Corrected(exec, analyze, maxAttempts, command, intent, "Repairable");
      var errors := exec(command).errors;
      var repaired := RepairOf(command, KindName(errors[0].kind)).value.repairedCommand;
      && |o.session.attempts| >= 2
      && o.session.attempts[0] == Attempt(1, command, repaired, errors, None, false, [], None)
      && o.session.attempts[1].number == 1 && o.session.attempts[1].originalCommand == command
      && o.session.attempts[1].errorsBefore == exec(repaired).errors
      && !o.session.isAutonomousRepair
  {
    var errors := exec(command).errors;
    var repaired := RepairOf(command, KindName(errors[0].kind)).value.repairedCommand;
    var ph := AutonomousPhase(exec, command, intent, "Repairable");
    assert ph == Phase(NewSession(command, intent).(attempts := [Attempt(1, command, repaired, errors, None, false, [], None)]), repaired, false);
    LoopAfterPhase(exec, analyze, maxAttempts, command, ph);
  }

  /** The loop keeps the attempts it starts with and adds its first attempt, numbered 1, on the command it starts from. */
  lemma LoopAfterPhase(exec: string -> Report, analyze: Report -> seq<C.MappedCorrection>, maxAttempts: nat, command: string, ph: Phase)
    requires maxAttempts >= 1 && !ph.done && Shaped(ph.session) && !ph.session.success
    ensures var s := Continue(exec, analyze, maxAttempts, command, ph).session;
      var n := |ph.session.attempts|;
      && |s.attempts| > n && s.attempts[..n] == ph.session.attempts
      && s.attempts[n].number == 1 && s.attempts[n].originalCommand == command
      && s.attempts[n].errorsBefore == exec(ph.current).errors
      && s.isAutonomousRepair == ph.session.isAutonomousRepair
  {
    var p0 := Progress(ph.session, ph.current, []);
    var step := Iteration(exec, analyze, maxAttempts, command, 1, p0);
    var n := |ph.session.attempts|;
    IterateBounds(exec, analyze, maxAttempts, command, 1, p0);
    if !step.1 {
      IterateBounds(exec, analyze, maxAttempts, command, 2, step.0);
      var q := IterateFrom(exec, analyze, maxAttempts, command, 2, step.0);
      assert q.session.attempts[..n + 1] == step.0.session.attempts;
      assert q.session.attempts[n] == q.session.attempts[..n + 1][n];
    }
  }

  /** Without `Repairable`, or with a first run that reports no errors, the loop starts from the command itself. */
  lemma NoAutonomousPhase(exec: string -> Report, command: string, intent: string, status: string)
    requires status != "Repairable" || |exec(command).errors| == 0
    ensures AutonomousPhase(exec, command, intent, status) == Phase(NewSession(command, intent), command, false)
  {
  }

  /** A pass whose run fails and whose analysis finds nothing stops the loop with a `no_corrections_available` feedback. */
  lemma StopsWithoutCorrections(exec: string -> Report, analyze: Report -> seq<C.MappedCorrection>, maxAttempts: nat, command: string, num: nat, p: Progress)
    requires num >= 1 && (num > 1 ==> |p.session.attempts| > 0) && !p.session.success
    requires var r := exec(p.current);
      !IsSuccessful(r) && analyze(r) == []
    ensures var step := Iteration(exec, analyze, maxAttempts, command, num, p);
      var q := step.0.session;
      step.1 && !q.success
      && q.feedback == p.session.feedback + [UpstreamFeedback(q.attempts, maxAttempts, "no_corrections_available")]
  {
  }

  // ---- `generate_report` (integer parts) ----

  datatype AttemptDetail = AttemptDetail(attempt: nat, command: string, changes: seq<string>, repairType: Option<RepairType>,
                                         errorsBefore: nat, errorsAfter: nat, success: bool)

  datatype Improvements = Improvements(errorsFixed: nat, errorsRemaining: nat)

  datatype SessionReport = SessionReport(success: bool, isAutonomousRepair: bool, originalCommand: string,
                                         finalCommand: Option<string>, totalAttempts: nat, sourceAgent: string,
                                         attemptsDetail: seq<AttemptDetail>, feedback: seq<Feedback>,
                                         improvements: Improvements)

  function Detail(a: Attempt): AttemptDetail
  {
    AttemptDetail(a.number, a.correctedCommand, a.changesMade, a.repairType, |a.errorsBefore|,
                  if a.errorsAfter.Some? && |a.errorsAfter.value| > 0 then |a.errorsAfter.value| else 0, a.success)
  }

  function ImprovementsOf(s: Session): Improvements
  {
    if |s.attempts| == 0 then Improvements(0, 0)
    else
      var first := |s.attempts[0].errorsBefore|;
      if s.success then Improvements(first, 0)
      else
        var last := |LastErrors(s.attempts[|s.attempts| - 1])|;
        Improvements(if first > last then first - last else 0, last)
  }

  function GenerateReport(s: Session): (r: SessionReport)
    ensures |r.attemptsDetail| == |s.attempts| == r.totalAttempts
    ensures forall i :: 0 <= i < |s.attempts| ==> r.attemptsDetail[i] == Detail(s.attempts[i])
  {
    SessionReport(s.success, s.isAutonomousRepair, s.originalCommand, s.finalCommand, |s.attempts|,
                  SourceAgent(s.isAutonomousRepair),
                  seq(|s.attempts|, i requires 0 <= i < |s.attempts| => Detail(s.attempts[i])),
                  s.feedback, ImprovementsOf(s))
  }

  /**
   * Never more errors fixed than the first attempt had; a successful session
   * fixed them all, a failed one fixed the difference to what remains.
   */
  lemma ImprovementBounds(s: Session)
    requires |s.attempts| > 0
    ensures var imp := GenerateReport(s).improvements;
      var first := |s.attempts[0].errorsBefore|;
      && imp.errorsFixed <= first
      && (s.success ==> imp == Improvements(first, 0))
      && (!s.success ==> imp.errorsRemaining == |LastErrors(s.attempts[|s.attempts| - 1])|
                         && (imp.errorsFixed > 0 ==> imp.errorsFixed + imp.errorsRemaining == first))
  {
  }

  /** The report of a session from the agent never names a repair type. */
  lemma ReportHasNoRepairType(exec: string -> Report, analyze: Report -> seq<C.MappedCorrection>, maxAttempts: nat, command: string, intent: string, status: string)
    ensures var r := GenerateReport(Corrected(exec, analyze, maxAttempts, command, intent, status).session);
      forall i :: 0 <= i < |r.attemptsDetail| ==> r.attemptsDetail[i].repairType.None?
  {
    SessionShape(exec, analyze, maxAttempts, command, intent, status);
  }

  // ---- the agent ----

  method AutonomousRepairPhase(exec: string -> Report, command: string, intent: string, status: string) returns (ph: Phase)
    ensures ph == AutonomousPhase(exec, command, intent, status)
  {
    var session := NewSession(command, intent);
    ph := Phase(session, command, false);
    if status == "Repairable" {
      var result := exec(command);
      var errors := result.errors;
      if |errors| > 0 {
        var repair := AttemptAutonomousRepair(command, KindName(errors[0].kind));
        if repair.Some? {
          var repaired := repair.value.repairedCommand;
          var test := exec(repaired);
          var attempt := Attempt(1, command, repaired, errors, None, false, [], None);
          if IsSuccessful(test) {
            attempt := attempt.(success := true);
            session := session.(attempts := [attempt], success := true, isAutonomousRepair := true, finalCommand := Some(repaired));
            return Phase(session, repaired, true);
          }
          session := session.(attempts := [attempt]);
          ph := Phase(session, repaired, false);
        }
      }
    }
  }

  class SelfCorrectionAgent {
    const analyzer: C.ErrorAnalyzer
    const maxAttempts: nat
    var sessions: seq<Session>

    constructor (maxAttempts: nat)
      ensures this.maxAttempts == maxAttempts && sessions == []
      ensures fresh(analyzer) && analyzer.mappings == C.Mappings && analyzer.history == []
    {
      this.maxAttempts := maxAttempts;
      analyzer := new C.ErrorAnalyzer();
      sessions := [];
    }

    /** One pass of the loop; the analysis it asks for is logged by the correction engine. */
    method RunIteration(exec: string -> Report, command: string, num: nat, p: Progress, ghost base: seq<C.HistoryEntry>)
      returns (q: Progress, stop: bool)
      requires num >= 1 && (num > 1 ==> |p.session.attempts| > 0)
      requires C.AllPaired(analyzer.mappings) && analyzer.history == base + p.analyses
      modifies analyzer`history
      ensures (q, stop) == Iteration(exec, C.Analysis(analyzer.mappings), maxAttempts, command, num, p)
      ensures analyzer.history == base + q.analyses
    {
      var s := p.session;
      var original := if num == 1 then command else s.attempts[|s.attempts| - 1].correctedCommand;
      var result := exec(p.current);
      var attempt := Attempt(num, original, p.current, result.errors, None, false, [], None);
      if IsSuccessful(result) {
        attempt := attempt.(success := true);
        return p.(session := Record(s, attempt)), true;
      }
      var corrections := analyzer.AnalyzeErrors(result);
      assert corrections == C.Analysis(analyzer.mappings)(result);
      var analyses := p.analyses + [C.HistoryEntry(result.command, result.errors, corrections)];
      assert analyzer.history == base + analyses by {
        assert base + p.analyses + [C.HistoryEntry(result.command, result.errors, corrections)] == base + analyses;
      }
      assert Iteration(exec, C.Analysis(analyzer.mappings), maxAttempts, command, num, p)
        == AfterAnalysis(exec, maxAttempts, num, p, attempt, corrections, analyses);
      q, stop := TryBest(exec, num, p, attempt, corrections, analyses);
    }

    /** The rest of a failed pass once the corrections are in: stop without any, else test the best one. */
    method TryBest(exec: string -> Report, num: nat, p: Progress, attempt: Attempt,
                   corrections: seq<C.MappedCorrection>, analyses: seq<C.HistoryEntry>) returns (q: Progress, stop: bool)
      requires attempt.number == num && !attempt.success && attempt.repairType.None? && attempt.correctedCommand == p.current
      requires |p.analyses| <= |analyses| <= |p.analyses| + 1 && analyses[..|p.analyses|] == p.analyses
      ensures (q, stop) == AfterAnalysis(exec, maxAttempts, num, p, attempt, corrections, analyses)
      ensures q.analyses == analyses
    {
      var s := p.session;
      if |corrections| == 0 {
        s := Record(s, attempt);
        s := WithFeedback(s, UpstreamFeedback(s.attempts, maxAttempts, "no_corrections_available"));
        return Progress(s, p.current, analyses), true;
      }
      var best := corrections[0].correction;
      var corrected := best.corrected;
      var tried := attempt.(correctedCommand := corrected, changesMade := best.changes);
      if corrected != p.current {
        var test := exec(corrected);
        var checked := tried.(errorsAfter := Some(test.errors));
        if IsSuccessful(test) {
          return Progress(Record(s, checked.(success := true)), p.current, analyses), true;
        }
        tried := checked;
      }
      s := Record(s, tried);
      if num + 1 == maxAttempts {
        s := WithFeedback(s, UpstreamFeedback(s.attempts, maxAttempts, "max_attempts_approaching"));
      }
      return Progress(s, corrected, analyses), false;
    }

    /** The iterative loop of `correct_command`, from pass 1 on, starting at `start`. */
    method RunLoop(exec: string -> Report, command: string, start: Progress) returns (p: Progress)
      requires C.AllPaired(analyzer.mappings) && start.analyses == []
      modifies analyzer`history
      ensures p == IterateFrom(exec, C.Analysis(analyzer.mappings), maxAttempts, command, 1, start)
      ensures analyzer.history == old(analyzer.history) + p.analyses
    {
      ghost var base := analyzer.history;
      p := start;
      var num := 1;
      while num <= maxAttempts
        invariant 1 <= num <= maxAttempts + 1 && (num > 1 ==> |p.session.attempts| > 0)
        invariant analyzer.history == base + p.analyses
        invariant IterateFrom(exec, C.Analysis(analyzer.mappings), maxAttempts, command, num, p) == IterateFrom(exec, C.Analysis(analyzer.mappings), maxAttempts, command, 1, start)
        decreases maxAttempts + 1 - num
      {
        var q, stop := RunIteration(exec, command, num, p, base);
        p := q;
        if stop {
          return;
        }
        num := num + 1;
      }
    }

    /**
     * `correct_command`: the session is returned and appended to the history,
     * a failed one with its final summary.
     */
    method CorrectCommand(exec: string -> Report, command: string, intent: string, status: string) returns (session: Session)
      requires C.AllPaired(analyzer.mappings)
      modifies this`sessions, analyzer`history
      ensures session == Corrected(exec, C.Analysis(analyzer.mappings), maxAttempts, command, intent, status).session
      ensures analyzer.history == old(analyzer.history) + Corrected(exec, C.Analysis(analyzer.mappings), maxAttempts, command, intent, status).analyses
      ensures sessions == old(sessions) + [session]
    {
      var ph := AutonomousRepairPhase(exec, command, intent, status);
      if ph.done {
        session := ph.session;
        sessions := sessions + [session];
        return;
      }
      var p := RunLoop(exec, command, Progress(ph.session, ph.current, []));
      var s := p.session;
      if !s.success {
        s := WithFeedback(s, FinalFeedback(s));
      }
      session := s;
      sessions := sessions + [session];
    }
  }
}
