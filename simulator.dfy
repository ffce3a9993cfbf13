/**
 * The execution report of one nmap run in the sandbox container: the docker
 * command line, the classification of error lines against an ordered pattern
 * table, the runtime metric counters, exit-code diagnostics and fix
 * suggestions. The process is not modelled: a run is given as the lines it
 * printed, in the order they were read, and the way it ended.
 */
module Simulator {
  import opened Text
  import opened Pattern

  datatype ErrorKind =
    | PermissionDenied | NetworkUnreachable | Timeout | InvalidArgument | PortSpecification
    | ScriptNotFound | DnsResolution | ResourceLimit | SyntaxError | Unknown

  /** The `type` string a report carries for each kind. */
  function KindName(k: ErrorKind): string
  {
    match k
    case PermissionDenied => "permission_denied"
    case NetworkUnreachable => "network_unreachable"
    case Timeout => "timeout"
    case InvalidArgument => "invalid_argument"
    case PortSpecification => "port_specification"
    case ScriptNotFound => "script_not_found"
    case DnsResolution => "dns_resolution"
    case ResourceLimit => "resource_limit"
    case SyntaxError => "syntax_error"
    case Unknown => "unknown"
  }

  datatype Severity = Critical | High | Medium

  /** `_determine_severity`. */
  function SeverityOf(k: ErrorKind): Severity
  {
    if k in [PermissionDenied, SyntaxError, Timeout] then Critical
    else if k in [NetworkUnreachable, DnsResolution, ScriptNotFound] then High
    else Medium
  }

  // ---- the error-line table ----

  datatype PatternRow = PatternRow(pieces: Pieces, kind: ErrorKind, subtype: string)

  /** `ErrorPattern.PATTERNS`, in order; a `.*` in the source splits a pattern into pieces. */
  const Patterns: seq<PatternRow> := [
    PatternRow(["Operation not permitted"], PermissionDenied, "requires_root"),
    PatternRow(["requires root privileges"], PermissionDenied, "requires_root"),
    PatternRow(["PCAP permission problem"], PermissionDenied, "pcap_permission"),
    PatternRow(["socket troubles"], PermissionDenied, "socket_permission"),
    PatternRow(["Failed to resolve"], DnsResolution, "dns_failure"),
    PatternRow(["Could not resolve hostname"], DnsResolution, "hostname_invalid"),
    PatternRow(["No route to host"], NetworkUnreachable, "no_route"),
    PatternRow(["Host seems down"], NetworkUnreachable, "host_down"),
    PatternRow(["Network is unreachable"], NetworkUnreachable, "network_unreachable"),
    PatternRow(["Invalid argument"], InvalidArgument, "invalid_arg"),
    PatternRow(["Unknown argument"], InvalidArgument, "unknown_arg"),
    PatternRow(["Illegal port number"], PortSpecification, "illegal_port"),
    PatternRow(["Your port specifications are illegal"], PortSpecification, "port_spec_error"),
    PatternRow(["NSE: Failed to load", "script"], ScriptNotFound, "script_load_fail"),
    PatternRow(["script ", " does not exist"], ScriptNotFound, "script_missing"),
    PatternRow(["Unknown script"], ScriptNotFound, "unknown_script"),
    PatternRow(["memory allocation problem"], ResourceLimit, "memory_limit"),
    PatternRow(["Too many open files"], ResourceLimit, "file_limit"),
    PatternRow(["nmap: unrecognized option"], SyntaxError, "unrecognized_option"),
    PatternRow(["option requires an argument"], SyntaxError, "missing_argument")
  ]

  predicate RowMatches(row: PatternRow, line: string)
  {
    FoundIgnoringCase(line, row.pieces)
  }

  /** The first row, from position `i` on, whose pattern is found in the line. */
  function FirstMatchFrom(rows: seq<PatternRow>, line: string, i: nat): (r: Option<nat>)
    requires i <= |rows|
    ensures r.Some? ==> i <= r.value < |rows| && RowMatches(rows[r.value], line)
    ensures forall k :: i <= k < (if r.Some? then r.value else |rows|) ==> !RowMatches(rows[k], line)
    decreases |rows| - i
  {
    if i == |rows| then None
    else if RowMatches(rows[i], line) then Some(i)
    else FirstMatchFrom(rows, line, i + 1)
  }

  datatype ErrorEntry = ErrorEntry(kind: ErrorKind, subtype: Option<string>, message: string, severity: Severity)

  /** The record a matching row makes of a line. */
  function EntryFor(row: PatternRow, line: string): ErrorEntry
  {
    ErrorEntry(row.kind, Some(row.subtype), Strip(line), SeverityOf(row.kind))
  }

  const WarningWords: seq<string> := ["warning", "warn", "caution"]

  predicate LooksLikeWarning(line: string)
  {
    exists k :: 0 <= k < |WarningWords| && Contains(Lower(line), WarningWords[k])
  }

  /** What one stderr line leaves in the report. */
  datatype LineRecord = Error(entry: ErrorEntry) | Warning(message: string) | Ignored

  /**
   * `_parse_error_output` on one line: the first matching row, in table order,
   * makes the error record; a line matching no row is a warning if it reads
   * like one, and is otherwise dropped.
   */
  function RecordLine(rows: seq<PatternRow>, line: string): (r: LineRecord)
    ensures r.Error? <==> exists k :: 0 <= k < |rows| && RowMatches(rows[k], line)
    ensures r.Error? ==>
      exists k :: 0 <= k < |rows| && RowMatches(rows[k], line)
                  && (forall j :: 0 <= j < k ==> !RowMatches(rows[j], line))
                  && r.entry == EntryFor(rows[k], line)
    ensures r.Warning? <==> !r.Error? && LooksLikeWarning(line)
    ensures r.Warning? ==> r.message == Strip(line)
  {
    var first := FirstMatchFrom(rows, line, 0);
    if first.Some? then
      assert RowMatches(rows[first.value], line);
      Error(EntryFor(rows[first.value], line))
    else if LooksLikeWarning(line) then Warning(Strip(line))
    else Ignored
  }

  /** No row of the table classifies a line as a timeout or an unknown error. */
  lemma RowKinds()
    ensures forall k :: 0 <= k < |Patterns| ==> Patterns[k].kind != Timeout && Patterns[k].kind != Unknown
  {
  }

  /**
   * A classified line is critical exactly when its row reports a permission
   * or syntax error (the table never yields the third critical kind,
   * timeout), and high exactly for the network, DNS and script kinds.
   */
  lemma ClassifiedSeverity(line: string)
    ensures var r := RecordLine(Patterns, line);
      r.Error? ==>
        && (r.entry.severity == Critical <==> r.entry.kind == PermissionDenied || r.entry.kind == SyntaxError)
        && (r.entry.severity == High <==>
              r.entry.kind == NetworkUnreachable || r.entry.kind == DnsResolution || r.entry.kind == ScriptNotFound)
  {
    RowKinds();
    RowSeverity(Patterns, line);
  }

  lemma RowSeverity(rows: seq<PatternRow>, line: string)
    requires forall k :: 0 <= k < |rows| ==> rows[k].kind != Timeout
    ensures var r := RecordLine(rows, line);
      r.Error? ==>
        && (r.entry.severity == Critical <==> r.entry.kind == PermissionDenied || r.entry.kind == SyntaxError)
        && (r.entry.severity == High <==>
              r.entry.kind == NetworkUnreachable || r.entry.kind == DnsResolution || r.entry.kind == ScriptNotFound)
  {
    var first := FirstMatchFrom(rows, line, 0);
    if first.Some? {
      assert RecordLine(rows, line).entry == EntryFor(rows[first.value], line);
      SeverityBands(rows[first.value].kind);
    }
  }

  /** Outside `Timeout`, the critical kinds and the high kinds as named lists. */
  lemma SeverityBands(k: ErrorKind)
    requires k != Timeout
    ensures SeverityOf(k) == Critical <==> k == PermissionDenied || k == SyntaxError
    ensures SeverityOf(k) == High <==> k == NetworkUnreachable || k == DnsResolution || k == ScriptNotFound
  {
  }

  // ---- runtime metrics ----

  datatype Metrics = Metrics(hostsUp: nat, portsScanned: nat, servicesDetected: nat, scanProgress: Option<nat>)

  /** `(\d+)% done` matched at the start of `s`: the percentage. */
  function ProgressAt(s: string): Option<nat>
  {
    var n := Span(s, IsDigit);
    if n > 0 && StartsWith(s[n..], "% done") then Some(DigitsValue(s[..n])) else None
  }

  /** `(\d+)/tcp\s+open` matched at the start of `s`: the port number. */
  function OpenPortAt(s: string): Option<nat>
  {
    var n := Span(s, IsDigit);
    if n == 0 || !StartsWith(s[n..], "/tcp") then None
    else
      var rest := s[n + 4..];
      var w := Span(rest, IsSpace);
      if w > 0 && StartsWith(rest[w..], "open") then Some(DigitsValue(s[..n])) else None
  }

  predicate HostUp(line: string) { Contains(line, "Host is up") }
  predicate OpenPort(line: string) { Search(line, OpenPortAt).Some? }
  predicate ServiceInfo(line: string) { Contains(line, "Service Info:") }

  /** `_parse_runtime_output` on one stdout line. */
  function RuntimeStep(m: Metrics, line: string): Metrics
  {
    var progress := Search(line, ProgressAt);
    Metrics(
      m.hostsUp + (if HostUp(line) then 1 else 0),
      m.portsScanned + (if OpenPort(line) then 1 else 0),
      m.servicesDetected + (if ServiceInfo(line) then 1 else 0),
      if progress.Some? then progress else m.scanProgress)
  }

  // ---- exit codes ----

  function ExitMeaning(code: int): Option<string>
  {
    if code == 1 then Some("General runtime error")
    else if code == 2 then Some("Parse error (invalid command line)")
    else if code == 3 then Some("No targets specified")
    else if code == 255 then Some("Killed by signal")
    else None
  }

  /** `str(i)` for any integer. */
  function IntToString(i: int): string
  {
    if i < 0 then "-" + NatToString(-i) else NatToString(i)
  }

  /** `_interpret_exit_code`: one high-severity record for a code with a known meaning. */
  function ExitCodeErrors(code: int): (r: seq<ErrorEntry>)
    ensures |r| <= 1
    ensures r != [] <==> code in [1, 2, 3, 255]
    ensures forall k :: 0 <= k < |r| ==> r[k].kind == Unknown && r[k].severity == High && r[k].subtype == None
  {
    match ExitMeaning(code)
    case Some(meaning) => [ErrorEntry(Unknown, None, "Exit code " + IntToString(code) + ": " + meaning, High)]
    case None => []
  }

  const TimeoutError := ErrorEntry(Timeout, None, "Execution timed out after 300s", Critical)

  function CrashError(reason: string): ErrorEntry
  {
    ErrorEntry(Unknown, None, "Simulation error: " + reason, Critical)
  }

  // ---- the alternative command ----

  /** The connect-scan replacements, in the order `_generate_alternative_command` tries them. */
  const PermissionAlternatives: seq<(string, string)> :=
    [("-sS", "-sT"), ("-sA", "-sT"), ("-sF", "-sT"), ("-sX", "-sT"), ("-sN", "-sT")]

  /** `_generate_alternative_command(command, issue)`. */
  function AlternativeFor(command: string, issue: string): string
  {
    if issue != "permission" then command
    else
      match FirstPresentFrom(command, PermissionAlternatives, 0)
      case Some(k) => ReplaceAll(command, PermissionAlternatives[k].0, PermissionAlternatives[k].1)
      case None => command
  }

  method GenerateAlternativeCommand(command: string, issue: string) returns (alt: string)
    ensures alt == AlternativeFor(command, issue)
  {
    if issue != "permission" {
      return command;
    }
    alt := command;
    var i := 0;
    while i < |PermissionAlternatives|
      invariant 0 <= i <= |PermissionAlternatives|
      invariant FirstPresentFrom(command, PermissionAlternatives, i) == FirstPresentFrom(command, PermissionAlternatives, 0)
      invariant alt == command
    {
      var (old_, new_) := PermissionAlternatives[i];
      if Contains(alt, old_) {
        alt := ReplaceAll(alt, old_, new_);
        return;
      }
      i := i + 1;
    }
  }

  /**
   * For a permission issue the first stealth flag present is gone from the
   * alternative, which is then a different command; any other issue, or a
   * command with none of the flags, is returned as it is.
   */
  lemma AlternativeDropsStealthFlag(command: string, issue: string)
    ensures var alt := AlternativeFor(command, issue);
      match FirstPresentFrom(command, PermissionAlternatives, 0)
      case Some(k) =>
        issue == "permission" ==> alt != command && !Contains(alt, PermissionAlternatives[k].0)
      case None => alt == command
  {
    match FirstPresentFrom(command, PermissionAlternatives, 0)
    case Some(k) =>
      if issue == "permission" {
        var x := PermissionAlternatives[k].0[2];
        assert PermissionAlternatives[k].0 == ['-', 's', x];
        assert PermissionAlternatives[k].1 == ['-', 's', 'T'];
        ReplaceFlagRemovesIt(command, '-', 's', x, 'T');
        ReplaceAllPresent(command, ['-', 's', x], ['-', 's', 'T']);
      }
    case None =>
  }

  // ---- suggestions ----

  datatype Suggestion = Suggestion(errorRef: ErrorEntry, fixType: string, text: string,
                                   alternative: Option<string>, documentation: Option<string>)

  const PortDocumentation := "https://nmap.org/book/port-scanning-basics.html"

  /** What `_generate_suggestions` adds for one error record: one suggestion about it, or none. */
  function SuggestionFor(command: string, e: ErrorEntry): (r: seq<Suggestion>)
    ensures |r| == (if Suggestible(e) then 1 else 0)
    ensures forall k :: 0 <= k < |r| ==> r[k].errorRef == e
  {
    if e.kind == PermissionDenied then
      if e.subtype == Some("requires_root") then
        [Suggestion(e, "alternative_scan", "Use -sT (TCP connect) instead of SYN scan",
                    Some(AlternativeFor(command, "permission")), None)]
      else []
    else if e.kind == DnsResolution then
      [Suggestion(e, "skip_resolution", "Add -n flag to skip DNS resolution",
                  Some(ReplaceAll(command, "nmap", "nmap -n")), None)]
    else if e.kind == PortSpecification then
      [Suggestion(e, "fix_port_syntax", "Check port specification syntax (e.g., -p 80,443 or -p 1-1000)",
                  None, Some(PortDocumentation))]
    else []
  }

  predicate Suggestible(e: ErrorEntry)
  {
    (e.kind == PermissionDenied && e.subtype == Some("requires_root"))
    || e.kind == DnsResolution || e.kind == PortSpecification
  }

  function SuggestionsFor(command: string, errors: seq<ErrorEntry>): seq<Suggestion>
    decreases |errors|
  {
    if |errors| == 0 then []
    else SuggestionsFor(command, errors[..|errors| - 1]) + SuggestionFor(command, errors[|errors| - 1])
  }

  /**
   * Suggestions follow the error records one for one: each suggestible record
   * gets exactly one, pointing back at it, and no other record gets any.
   */
  lemma {:induction false} SuggestionsMatchErrors(command: string, errors: seq<ErrorEntry>)
    ensures |SuggestionsFor(command, errors)| == CountSuggestible(errors)
    ensures forall g :: g in SuggestionsFor(command, errors) ==> g.errorRef in errors && Suggestible(g.errorRef)
    decreases |errors|
  {
    if |errors| > 0 {
      var front, last := errors[..|errors| - 1], errors[|errors| - 1];
      SuggestionsMatchErrors(command, front);
      assert SuggestionsFor(command, errors) == SuggestionsFor(command, front) + SuggestionFor(command, last);
      assert forall e :: e in front ==> e in errors;
    }
  }

  /** One more error record adds its own suggestions at the end. */
  lemma SuggestionsStep(command: string, errors: seq<ErrorEntry>, i: nat)
    requires i < |errors|
    ensures SuggestionsFor(command, errors[..i + 1]) == SuggestionsFor(command, errors[..i]) + SuggestionFor(command, errors[i])
  {
    assert errors[..i + 1][..i] == errors[..i];
  }

  function CountSuggestible(errors: seq<ErrorEntry>): nat
    decreases |errors|
  {
    if |errors| == 0 then 0
    else CountSuggestible(errors[..|errors| - 1]) + (if Suggestible(errors[|errors| - 1]) then 1 else 0)
  }

  // ---- the sandbox command line ----

  predicate NeedsRootCapability(command: string)
  {
    exists k :: 0 <= k < |RootIndicators| && Contains(command, RootIndicators[k])
  }

  const RootIndicators: seq<string> :=
    ["-sS", "-sA", "-sW", "-sM", "-sN", "-sF", "-sX", "-sU", "-sO", "-O", "-PE", "-PP", "-PM"]

  const DefaultImage := "nmap-ai-sandbox:latest"

  function SandboxBase(now: nat): (r: seq<string>)
    ensures |r| == 13
  {
    ["docker", "run", "--rm", "--name", "nmap-sim-" + NatToString(now),
     "--network", "nmap-ai-net", "--cpus", "0.5", "--memory", "512m", "--cap-drop", "ALL"]
  }

  const RawCapabilities: seq<string> := ["--cap-add", "NET_RAW", "--cap-add", "NET_ADMIN"]
  const ScriptsVolume: seq<string> := ["-v", "/usr/share/nmap/scripts:/usr/share/nmap/scripts:ro"]

  /**
   * `_build_docker_command`: every capability dropped, the raw-socket ones
   * added back only for a scan that needs root, the script directory mounted
   * only when `--script` occurs, and the command handed to `bash -c` last.
   * `now` is the clock reading that names the container.
   */
  function BuildDockerCommand(command: string, image: string, now: nat): (argv: seq<string>)
    ensures |argv| == 13 + (if NeedsRootCapability(command) then 4 else 0)
      + (if Contains(command, "--script") then 2 else 0) + 4
    ensures argv[..13] == SandboxBase(now)
    ensures NeedsRootCapability(command) ==> argv[13..17] == RawCapabilities
    ensures Contains(command, "--script") ==> argv[|argv| - 6..|argv| - 4] == ScriptsVolume
    ensures argv[|argv| - 4..] == [image, "bash", "-c", command]
  {
    SandboxBase(now)
    + (if NeedsRootCapability(command) then RawCapabilities else [])
    + (if Contains(command, "--script") then ScriptsVolume else [])
    + [image, "bash", "-c", command]
  }

  // ---- a run and its report ----

  /** A line as read from the container's stdout or stderr. */
  datatype Event = Out(line: string) | Err(line: string)

  /**
   * How the reading loop ended: the process exited, the 300-second limit
   * fired (the process was terminated, then exited with `code`), or an
   * exception was raised.
   */
  datatype Ending = Exited(code: int) | TimedOut(code: int) | Raised(reason: string)

  /** A run: the lines read in the loop, its ending, and the output collected after the loop. */
  datatype RunTrace = RunTrace(events: seq<Event>, ending: Ending, restOut: string, restErr: string)

  datatype Execution = Execution(completed: bool, exitCode: Option<int>, stdout: string, stderr: string)

  datatype Report = Report(command: string, targetType: string, execution: Execution,
                           errors: seq<ErrorEntry>, warnings: seq<string>,
                           metrics: Metrics, suggestions: seq<Suggestion>)

  const NoMetrics := Metrics(0, 0, 0, None)

  /** The result skeleton `simulate_execution` starts from. */
  function Skeleton(command: string, targetType: string): Report
  {
    Report(command, targetType, Execution(false, None, "", ""), [], [], NoMetrics, [])
  }

  /** Per-event contributions, concatenated in reading order. */
  function Gather<T>(evs: seq<Event>, f: Event -> seq<T>): seq<T>
    decreases |evs|
  {
    if |evs| == 0 then [] else Gather(evs[..|evs| - 1], f) + f(evs[|evs| - 1])
  }

  function LineErrors(line: string): seq<ErrorEntry>
  {
    match RecordLine(Patterns, line)
    case Error(e) => [e]
    case _ => []
  }

  function LineWarnings(line: string): seq<string>
  {
    match RecordLine(Patterns, line)
    case Warning(w) => [w]
    case _ => []
  }

  function ErrorsIn(ev: Event): seq<ErrorEntry> { if ev.Err? then LineErrors(ev.line) else [] }
  function WarningsIn(ev: Event): seq<string> { if ev.Err? then LineWarnings(ev.line) else [] }
  function OutText(ev: Event): seq<string> { if ev.Out? then [Strip(ev.line)] else [] }
  function ErrText(ev: Event): seq<string> { if ev.Err? then [Strip(ev.line)] else [] }

  function MetricsOf(evs: seq<Event>): Metrics
    decreases |evs|
  {
    if |evs| == 0 then NoMetrics
    else
      var m := MetricsOf(evs[..|evs| - 1]);
      match evs[|evs| - 1]
      case Out(line) => RuntimeStep(m, line)
      case Err(_) => m
  }

  /** The captured text: the lines read in the loop, then the rest split at newlines. */
  function Stored(lines: seq<string>, rest: string): string
  {
    Join(lines + (if rest != "" then SplitOn(Strip(rest), '\n') else []), "\n")
  }

  /** The errors after the loop: the timeout record, then the exit-code diagnosis. */
  function ClosingErrors(ending: Ending): seq<ErrorEntry>
    requires !ending.Raised?
  {
    (if ending.TimedOut? then [TimeoutError] else [])
    + (if ending.code != 0 then ExitCodeErrors(ending.code) else [])
  }

  /** The report when the reading loop has handed over the given lines. */
  function LoopReport(command: string, targetType: string, evs: seq<Event>): Report
  {
    Skeleton(command, targetType).(errors := Gather(evs, ErrorsIn), warnings := Gather(evs, WarningsIn),
                                   metrics := MetricsOf(evs))
  }

  /**
   * The rest of `simulate_execution`: an exception adds its record and leaves
   * the run incomplete; otherwise the run is complete with its exit code and
   * output, the timeout and exit-code records are added, then suggestions.
   */
  function AfterLoop(r: Report, ending: Ending, stdout: string, stderr: string): Report
  {
    if ending.Raised? then
      r.(execution := r.execution.(completed := false), errors := r.errors + [CrashError(ending.reason)])
    else
      var all := r.errors + ClosingErrors(ending);
      r.(execution := Execution(true, Some(ending.code), stdout, stderr), errors := all,
         suggestions := r.suggestions + SuggestionsFor(r.command, all))
  }

  /** The report `simulate_execution` returns for a run. */
  function Simulated(command: string, targetType: string, trace: RunTrace): Report
  {
    var evs := trace.events;
    AfterLoop(LoopReport(command, targetType, evs), trace.ending,
              Stored(Gather(evs, OutText), trace.restOut), Stored(Gather(evs, ErrText), trace.restErr))
  }

  /** `_parse_error_output`'s decision for one line. */
  method Classify(rows: seq<PatternRow>, line: string) returns (rec: LineRecord)
    ensures rec == RecordLine(rows, line)
  {
    var k := FindRow(rows, line);
    if k.Some? {
      rec := Error(EntryFor(rows[k.value], line));
    } else if LooksLikeWarning(line) {
      rec := Warning(Strip(line));
    } else {
      rec := Ignored;
    }
  }

  /** The suggestion `_generate_suggestions` makes for one error record, if any. */
  method Suggest(command: string, e: ErrorEntry) returns (added: seq<Suggestion>)
    ensures added == SuggestionFor(command, e)
  {
    added := [];
    if e.kind == PermissionDenied {
      if e.subtype == Some("requires_root") {
        var alt := GenerateAlternativeCommand(command, "permission");
        added := [Suggestion(e, "alternative_scan", "Use -sT (TCP connect) instead of SYN scan", Some(alt), None)];
      }
    } else if e.kind == DnsResolution {
      added := [Suggestion(e, "skip_resolution", "Add -n flag to skip DNS resolution",
                           Some(ReplaceAll(command, "nmap", "nmap -n")), None)];
    } else if e.kind == PortSpecification {
      added := [Suggestion(e, "fix_port_syntax", "Check port specification syntax (e.g., -p 80,443 or -p 1-1000)",
                           None, Some(PortDocumentation))];
    }
  }

  /** The pattern loop of `_parse_error_output`: the first row whose pattern is found, if any. */
  method FindRow(rows: seq<PatternRow>, line: string) returns (k: Option<nat>)
    ensures k == FirstMatchFrom(rows, line, 0)
  {
    var i := 0;
    while i < |rows|
      invariant 0 <= i <= |rows|
      invariant FirstMatchFrom(rows, line, i) == FirstMatchFrom(rows, line, 0)
    {
      if FoundIgnoringCase(line, rows[i].pieces) {
        return Some(i);
      }
      i := i + 1;
    }
    return None;
  }

  /** The mutable `result` dictionary the simulator's helpers fill in. */
  class ExecutionResult {
    const command: string
    const targetType: string
    var execution: Execution
    var errors: seq<ErrorEntry>
    var warnings: seq<string>
    var metrics: Metrics
    var suggestions: seq<Suggestion>

    function Snapshot(): Report
      reads this
    {
      Report(command, targetType, execution, errors, warnings, metrics, suggestions)
    }

    constructor (command: string, targetType: string)
      ensures Snapshot() == Skeleton(command, targetType)
    {
      this.command := command;
      this.targetType := targetType;
      execution := Execution(false, None, "", "");
      errors := [];
      warnings := [];
      metrics := NoMetrics;
      suggestions := [];
    }

    method ParseRuntimeOutput(line: string)
      modifies this`metrics
      ensures metrics == RuntimeStep(old(metrics), line)
    {
      var progress := Search(line, ProgressAt);
      if progress.Some? {
        metrics := metrics.(scanProgress := progress);
      }
      if HostUp(line) {
        metrics := metrics.(hostsUp := metrics.hostsUp + 1);
      }
      if Search(line, OpenPortAt).Some? {
        metrics := metrics.(portsScanned := metrics.portsScanned + 1);
      }
      if ServiceInfo(line) {
        metrics := metrics.(servicesDetected := metrics.servicesDetected + 1);
      }
    }

    method ParseErrorOutput(line: string)
      modifies this`errors, this`warnings
      ensures errors == old(errors) + LineErrors(line)
      ensures warnings == old(warnings) + LineWarnings(line)
    {
      var rec := Classify(Patterns, line);
      match rec {
        case Error(e) => errors := errors + [e];
        case Warning(w) => warnings := warnings + [w];
        case Ignored =>
      }
    }

    /** One line as the reading loop hands it over. */
    method ReadEvent(ev: Event)
      modifies this`errors, this`warnings, this`metrics
      ensures errors == old(errors) + ErrorsIn(ev)
      ensures warnings == old(warnings) + WarningsIn(ev)
      ensures metrics == (if ev.Out? then RuntimeStep(old(metrics), ev.line) else old(metrics))
    {
      match ev {
        case Out(line) => ParseRuntimeOutput(line);
        case Err(line) => ParseErrorOutput(line);
      }
    }

    /**
     * The reading loop: each line is parsed as it arrives and its stripped
     * text kept for the captured output.
     */
    method ReadLoop(evs: seq<Event>) returns (outLines: seq<string>, errLines: seq<string>)
      requires Snapshot() == Skeleton(command, targetType)
      modifies this`errors, this`warnings, this`metrics
      ensures Snapshot() == LoopReport(command, targetType, evs)
      ensures outLines == Gather(evs, OutText) && errLines == Gather(evs, ErrText)
    {
      outLines, errLines := [], [];
      var i := 0;
      while i < |evs|
        invariant 0 <= i <= |evs|
        invariant Snapshot() == LoopReport(command, targetType, evs[..i])
        invariant outLines == Gather(evs[..i], OutText) && errLines == Gather(evs[..i], ErrText)
      {
        outLines, errLines := ReadNext(evs, i, outLines, errLines);
        i := i + 1;
      }
      assert evs[..i] == evs;
    }

    /** One turn of the reading loop: the next line is kept and parsed, and the report grows by its records. */
    method ReadNext(evs: seq<Event>, i: nat, outLines: seq<string>, errLines: seq<string>) returns (outMore: seq<string>, errMore: seq<string>)
      requires i < |evs| && Snapshot() == LoopReport(command, targetType, evs[..i])
      requires outLines == Gather(evs[..i], OutText) && errLines == Gather(evs[..i], ErrText)
      modifies this`errors, this`warnings, this`metrics
      ensures Snapshot() == LoopReport(command, targetType, evs[..i + 1])
      ensures outMore == Gather(evs[..i + 1], OutText) && errMore == Gather(evs[..i + 1], ErrText)
    {
      LoopStep(evs, i);
      var ev := evs[i];
      outMore, errMore := outLines + OutText(ev), errLines + ErrText(ev);
      ReadEvent(ev);
    }

    /** The exception handler: the crash record, and the run marked incomplete. */
    method RecordCrash(reason: string)
      modifies this`errors, this`execution
      ensures errors == old(errors) + [CrashError(reason)]
      ensures execution == old(execution).(completed := false)
    {
      errors := errors + [CrashError(reason)];
      execution := execution.(completed := false);
    }

    /**
     * A run that was not cut short: the timeout record, the captured output
     * and exit code stored, then `_analyze_complete_output`.
     */
    method Finish(ending: Ending, stdout: string, stderr: string)
      requires !ending.Raised?
      modifies this`errors, this`execution
      ensures errors == old(errors) + ClosingErrors(ending)
      ensures execution == Execution(true, Some(ending.code), stdout, stderr)
    {
      ghost var timeoutPart: seq<ErrorEntry> := if ending.TimedOut? then [TimeoutError] else [];
      ghost var codePart := if ending.code != 0 then ExitCodeErrors(ending.code) else [];
      if ending.TimedOut? {
        errors := errors + [TimeoutError];
      }
      execution := Execution(true, Some(ending.code), stdout, stderr);
      if ending.code != 0 {
        InterpretExitCode(ending.code);
      }
      assert errors == (old(errors) + timeoutPart) + codePart;
      AppendAssoc(old(errors), timeoutPart, codePart);
    }

    method InterpretExitCode(code: int)
      modifies this`errors
      ensures errors == old(errors) + ExitCodeErrors(code)
    {
      var meaning := ExitMeaning(code);
      if meaning.Some? {
        errors := errors + [ErrorEntry(Unknown, None, "Exit code " + IntToString(code) + ": " + meaning.value, High)];
      }
    }

    method GenerateSuggestions()
      modifies this`suggestions
      ensures suggestions == old(suggestions) + SuggestionsFor(command, errors)
    {
      var es := errors;
      ghost var start := suggestions;
      var i := 0;
      while i < |es|
        invariant 0 <= i <= |es|
        invariant suggestions == start + SuggestionsFor(command, es[..i])
      {
        var added := Suggest(command, es[i]);
        SuggestionsStep(command, es, i);
        AppendAssoc(start, SuggestionsFor(command, es[..i]), added);
        suggestions := suggestions + added;
        i := i + 1;
      }
      assert es[..i] == es;
    }
  }

  /** One more event read in the loop: its records, counts and captured line are added. */
  lemma LoopStep(evs: seq<Event>, i: nat)
    requires i < |evs|
    ensures Gather(evs[..i + 1], ErrorsIn) == Gather(evs[..i], ErrorsIn) + ErrorsIn(evs[i])
    ensures Gather(evs[..i + 1], WarningsIn) == Gather(evs[..i], WarningsIn) + WarningsIn(evs[i])
    ensures MetricsOf(evs[..i + 1])
      == if evs[i].Out? then RuntimeStep(MetricsOf(evs[..i]), evs[i].line) else MetricsOf(evs[..i])
    ensures Gather(evs[..i + 1], OutText) == Gather(evs[..i], OutText) + OutText(evs[i])
    ensures Gather(evs[..i + 1], ErrText) == Gather(evs[..i], ErrText) + ErrText(evs[i])
  {
    assert evs[..i + 1][..i] == evs[..i];
  }

  /**
   * `simulate_execution` over a given run: the lines read in the loop are
   * parsed as they arrive, the rest of the output is only stored, then the
   * exit code is interpreted and suggestions are made, unless an exception
   * cut the run short.
   */
  method SimulateExecution(command: string, targetType: string, trace: RunTrace) returns (r: Report)
    ensures r == Simulated(command, targetType, trace)
  {
    var result := new ExecutionResult(command, targetType);
    var outLines, errLines := result.ReadLoop(trace.events);
    ghost var looped := result.Snapshot();
    var stdout, stderr := Stored(outLines, trace.restOut), Stored(errLines, trace.restErr);
    assert Simulated(command, targetType, trace) == AfterLoop(looped, trace.ending, stdout, stderr);
    if trace.ending.Raised? {
      result.RecordCrash(trace.ending.reason);
    } else {
      result.Finish(trace.ending, stdout, stderr);
      ghost var closed := result.Snapshot();
      assert closed == looped.(execution := Execution(true, Some(trace.ending.code), stdout, stderr),
                               errors := looped.errors + ClosingErrors(trace.ending));
      result.GenerateSuggestions();
      assert result.Snapshot() == closed.(suggestions := closed.suggestions + SuggestionsFor(command, closed.errors));
    }
    r := result.Snapshot();
  }

  // ---- properties of a report ----

  function CountEvents(evs: seq<Event>, p: Event -> bool): nat
    decreases |evs|
  {
    if |evs| == 0 then 0 else CountEvents(evs[..|evs| - 1], p) + (if p(evs[|evs| - 1]) then 1 else 0)
  }

  predicate ClassifiedErrLine(ev: Event) { ev.Err? && RecordLine(Patterns, ev.line).Error? }
  predicate WarningErrLine(ev: Event) { ev.Err? && RecordLine(Patterns, ev.line).Warning? }
  predicate HostUpLine(ev: Event) { ev.Out? && HostUp(ev.line) }
  predicate OpenPortLine(ev: Event) { ev.Out? && OpenPort(ev.line) }
  predicate ServiceLine(ev: Event) { ev.Out? && ServiceInfo(ev.line) }

  /**
   * The loop's records: exactly one error per stderr line some row matches,
   * none of them a timeout or unknown record, exactly one warning per
   * unmatched warning-like stderr line, and one count per stdout line
   * showing a host up, an open TCP port or service information.
   */
  lemma LoopRecords(evs: seq<Event>)
    ensures |Gather(evs, ErrorsIn)| == CountEvents(evs, ClassifiedErrLine)
    ensures forall k :: 0 <= k < |Gather(evs, ErrorsIn)| ==>
      Gather(evs, ErrorsIn)[k].kind != Timeout && Gather(evs, ErrorsIn)[k].kind != Unknown
    ensures |Gather(evs, WarningsIn)| == CountEvents(evs, WarningErrLine)
    ensures MetricsOf(evs).hostsUp == CountEvents(evs, HostUpLine)
    ensures MetricsOf(evs).portsScanned == CountEvents(evs, OpenPortLine)
    ensures MetricsOf(evs).servicesDetected == CountEvents(evs, ServiceLine)
  {
    ErrorCount(evs);
    ErrorKinds(evs);
    WarningRecords(evs);
    MetricCounts(evs);
  }

  lemma {:induction false} ErrorCount(evs: seq<Event>)
    ensures |Gather(evs, ErrorsIn)| == CountEvents(evs, ClassifiedErrLine)
    decreases |evs|
  {
    if |evs| > 0 {
      ErrorCount(evs[..|evs| - 1]);
    }
  }

  lemma {:induction false} ErrorKinds(evs: seq<Event>)
    ensures forall k :: 0 <= k < |Gather(evs, ErrorsIn)| ==>
      Gather(evs, ErrorsIn)[k].kind != Timeout && Gather(evs, ErrorsIn)[k].kind != Unknown
    decreases |evs|
  {
    if |evs| > 0 {
      var last := evs[|evs| - 1];
      ErrorKinds(evs[..|evs| - 1]);
      if last.Err? {
        LineErrorKind(last.line);
      }
    }
  }

  /** A matched line's record is neither a timeout nor an unknown record. */
  lemma LineErrorKind(line: string)
    ensures forall k :: 0 <= k < |LineErrors(line)| ==> LineErrors(line)[k].kind != Timeout && LineErrors(line)[k].kind != Unknown
  {
    RowKinds();
    var r := RecordLine(Patterns, line);
    assert r.Error? ==> r.entry.kind != Timeout && r.entry.kind != Unknown;
  }

  lemma {:induction false} WarningRecords(evs: seq<Event>)
    ensures |Gather(evs, WarningsIn)| == CountEvents(evs, WarningErrLine)
    decreases |evs|
  {
    if |evs| > 0 {
      WarningRecords(evs[..|evs| - 1]);
    }
  }

  lemma {:induction false} MetricCounts(evs: seq<Event>)
    ensures MetricsOf(evs).hostsUp == CountEvents(evs, HostUpLine)
    ensures MetricsOf(evs).portsScanned == CountEvents(evs, OpenPortLine)
    ensures MetricsOf(evs).servicesDetected == CountEvents(evs, ServiceLine)
    decreases |evs|
  {
    if |evs| > 0 {
      MetricCounts(evs[..|evs| - 1]);
    }
  }

  /** An exception leaves the run incomplete, without exit code or suggestions, its record last. */
  lemma RaisedRun(command: string, targetType: string, trace: RunTrace)
    requires trace.ending.Raised?
    ensures var r := Simulated(command, targetType, trace);
      !r.execution.completed && r.execution.exitCode == None && r.suggestions == []
      && |r.errors| > 0 && r.errors[|r.errors| - 1].kind == Unknown
      && r.errors[|r.errors| - 1].severity == Critical
  {
  }

  /**
   * A run that was not cut short completes with its exit code; it has one
   * more error than its matched stderr lines for a timeout and one more for
   * an exit code of 1, 2, 3 or 255.
   */
  lemma {:induction false} FinishedRun(command: string, targetType: string, trace: RunTrace)
    requires !trace.ending.Raised?
    ensures var r := Simulated(command, targetType, trace);
      r.execution.completed && r.execution.exitCode == Some(trace.ending.code)
      && |r.errors| == CountEvents(trace.events, ClassifiedErrLine)
        + (if trace.ending.TimedOut? then 1 else 0)
        + (if trace.ending.code in [1, 2, 3, 255] then 1 else 0)
      && (trace.ending.TimedOut? ==> TimeoutError in r.errors)
  {
    LoopRecords(trace.events);
    var closing := ClosingErrors(trace.ending);
    if trace.ending.TimedOut? {
      assert closing[0] == TimeoutError;
    }
  }

  /** A clean exit with no matched stderr line yields a report with no error and no suggestion. */
  lemma CleanRun(command: string, targetType: string, trace: RunTrace)
    requires trace.ending == Exited(0)
    requires forall k :: 0 <= k < |trace.events| ==> !ClassifiedErrLine(trace.events[k])
    ensures Simulated(command, targetType, trace).errors == []
    ensures Simulated(command, targetType, trace).suggestions == []
  {
    NoClassifiedLines(trace.events);
  }

  lemma {:induction false} NoClassifiedLines(evs: seq<Event>)
    requires forall k :: 0 <= k < |evs| ==> !ClassifiedErrLine(evs[k])
    ensures Gather(evs, ErrorsIn) == []
    decreases |evs|
  {
    if |evs| > 0 {
      NoClassifiedLines(evs[..|evs| - 1]);
      assert !ClassifiedErrLine(evs[|evs| - 1]);
    }
  }
}
