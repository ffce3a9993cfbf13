/**
 * The correction-rule engine: an ordered table maps an execution error (its
 * kind and message) to a correction kind, a rewriting action and a confidence;
 * each rewriter turns the failing command into a candidate fix; the
 * corrections found for a report are ranked by confidence.
 *
 * Confidences are integer hundredths (0.95 is 95), so ranking is exact.
 */
module Corrections {
  import opened Text
  import opened Pattern
  import opened Simulator

  datatype CorrectionType =
    | ReplaceFlag | AddFlag | RemoveFlag | ModifyParameter | ChangeScanType
    | AdjustTiming | FixSyntax | SimplifyCommand | EscalatePrivileges | AlternativeApproach

  function TypeName(t: CorrectionType): string
  {
    match t
    case ReplaceFlag => "replace_flag"
    case AddFlag => "add_flag"
    case RemoveFlag => "remove_flag"
    case ModifyParameter => "modify_parameter"
    case ChangeScanType => "change_scan_type"
    case AdjustTiming => "adjust_timing"
    case FixSyntax => "fix_syntax"
    case SimplifyCommand => "simplify_command"
    case EscalatePrivileges => "escalate_privileges"
    case AlternativeApproach => "alternative_approach"
  }

  /** The `correction_action` dictionary of a mapping, by the keys its correction kind reads. */
  datatype Action =
    | Replacements(pairs: seq<(string, string)>, reason: string)
    | Add(flag: string, reason: string)
    | Remove(flags: seq<string>, reason: string)
    | FixFunction(name: string)
    | Alternatives(table: seq<(string, seq<string>)>, fallback: string)
    | TimingAdjustments(steps: seq<(string, string)>)
    | SimplificationSteps(stepNames: seq<string>)

  datatype ErrorMapping = ErrorMapping(errorType: string, pattern: seq<Pieces>, correctionType: CorrectionType,
                                       action: Action, confidence: nat, explanation: string)

  predicate NonEmptyKeys(pairs: seq<(string, string)>)
  {
    forall k :: 0 <= k < |pairs| ==> |pairs[k].0| > 0
  }

  /**
   * The action holds the key its correction kind reads (a missing key is a
   * `KeyError` in the source), and the flags it rewrites are not empty.
   */
  predicate Paired(m: ErrorMapping)
  {
    match m.correctionType
    case ReplaceFlag => m.action.Replacements? && NonEmptyKeys(m.action.pairs)
    case AddFlag => m.action.Add?
    case RemoveFlag => m.action.Remove? && forall k :: 0 <= k < |m.action.flags| ==> |m.action.flags[k]| > 0
    case AdjustTiming => m.action.TimingAdjustments? && NonEmptyKeys(m.action.steps)
    case FixSyntax => m.action.FixFunction?
    case AlternativeApproach => m.action.Alternatives?
    case _ => true
  }

  const StealthReplacements: seq<(string, string)> :=
    [("-sS", "-sT"), ("-sA", "-sT"), ("-sF", "-sT"), ("-sX", "-sT"), ("-sN", "-sT"), ("-sU", "-sT")]

  /**
   * The `timing_adjustments` dictionary in its order. The mapping's sibling
   * `add_if_missing` entry is not part of it: only this dictionary reaches
   * the timing rewriter, whose lookup of `add_if_missing` therefore falls
   * back to its default.
   */
  const TimingSteps: seq<(string, string)> := [("-T5", "-T4"), ("-T4", "-T3"), ("-T3", "-T2")]

  /** `_initialize_mappings`, in order. */
  const Mappings: seq<ErrorMapping> := [
    ErrorMapping("permission_denied", [["requires_root"], ["Operation not permitted"]], ReplaceFlag,
                 Replacements(StealthReplacements, "Stealth scans require root privileges"),
                 95, "Replace stealth scan with TCP connect scan that doesn't require root"),
    ErrorMapping("permission_denied", [["PCAP permission problem"]], RemoveFlag,
                 Remove(["-O", "--osscan-guess"], "OS detection requires raw packet access"),
                 90, "Remove OS detection flags that require elevated privileges"),
    ErrorMapping("port_specification", [["Illegal port number"], ["port specifications are illegal"]], FixSyntax,
                 FixFunction("fix_port_syntax"), 85, "Fix port specification syntax"),
    ErrorMapping("dns_resolution", [["Failed to resolve"], ["Could not resolve hostname"]], AddFlag,
                 Add("-n", "Skip DNS resolution for unreachable hosts"), 80, "Add -n flag to skip DNS resolution"),
    ErrorMapping("script_not_found", [["Failed to load", "script"], ["script", "does not exist"]], AlternativeApproach,
                 Alternatives([("vuln", ["default", "discovery"]), ("exploit", ["safe", "version"]), ("brute", ["auth", "default"])],
                              "default"),
                 75, "Replace unavailable script with safe alternative"),
    ErrorMapping("timeout", [["timed out"], ["timeout"]], AdjustTiming,
                 TimingAdjustments(TimingSteps), 85, "Reduce scan aggressiveness to prevent timeout"),
    ErrorMapping("network_unreachable", [["No route to host"], ["Network is unreachable"]], SimplifyCommand,
                 SimplificationSteps(["reduce_port_range", "single_target", "basic_scan"]),
                 70, "Simplify command for unreachable network"),
    ErrorMapping("syntax_error", [["unrecognized option"], ["requires an argument"]], FixSyntax,
                 FixFunction("fix_general_syntax"), 80, "Fix command syntax errors")
  ]

  lemma MappingsPaired()
    ensures forall k :: 0 <= k < |Mappings| ==> Paired(Mappings[k])
  {
  }

  // ---- REPLACE_FLAG: `_apply_replacements` ----

  /** The first table flag present is replaced everywhere, and nothing else is tried. */
  function ReplacementsOf(command: string, pairs: seq<(string, string)>): (string, seq<string>)
    requires NonEmptyKeys(pairs)
  {
    match FirstPresentFrom(command, pairs, 0)
    case Some(k) => (ReplaceAll(command, pairs[k].0, pairs[k].1), ["Replaced " + pairs[k].0 + " with " + pairs[k].1])
    case None => (command, [])
  }

  method ApplyReplacements(command: string, pairs: seq<(string, string)>) returns (corrected: string, changes: seq<string>)
    requires NonEmptyKeys(pairs)
    ensures (corrected, changes) == ReplacementsOf(command, pairs)
  {
    corrected := command;
    changes := [];
    var i := 0;
    while i < |pairs|
      invariant 0 <= i <= |pairs|
      invariant FirstPresentFrom(command, pairs, i) == FirstPresentFrom(command, pairs, 0)
      invariant corrected == command && changes == []
    {
      var (old_, new_) := pairs[i];
      if Contains(corrected, old_) {
        corrected := ReplaceAll(corrected, old_, new_);
        changes := ["Replaced " + old_ + " with " + new_];
        break;
      }
      i := i + 1;
    }
  }

  /**
   * With the stealth table, a command holding a stealth flag loses every
   * occurrence of the first one present and records one change; a command
   * holding none is returned unchanged with no change.
   */
  lemma StealthReplacement(command: string)
    ensures var (corrected, changes) := ReplacementsOf(command, StealthReplacements);
      match FirstPresentFrom(command, StealthReplacements, 0)
      case Some(k) => |changes| == 1 && corrected != command && !Contains(corrected, StealthReplacements[k].0)
      case None => corrected == command && changes == []
  {
    match FirstPresentFrom(command, StealthReplacements, 0)
    case Some(k) =>
      var x := StealthReplacements[k].0[2];
      assert StealthReplacements[k].0 == ['-', 's', x];
      assert StealthReplacements[k].1 == ['-', 's', 'T'];
      ReplaceFlagRemovesIt(command, '-', 's', x, 'T');
      ReplaceAllPresent(command, ['-', 's', x], ['-', 's', 'T']);
    case None =>
  }

  // ---- ADD_FLAG ----

  /** The ADD_FLAG branch: a flag already present changes nothing; otherwise every `nmap` gains it. */
  function AddFlagOf(command: string, flag: string): (string, seq<string>)
  {
    if Contains(command, flag) then (command, [])
    else (ReplaceAll(command, "nmap", "nmap " + flag), ["Added " + flag])
  }

  /**
   * Without the flag, the change is reported even when the command holds no
   * `nmap` to extend, and the command then stays as it was.
   */
  lemma AddFlagWithoutNmap(command: string, flag: string)
    requires !Contains(command, flag) && !Contains(command, "nmap")
    ensures AddFlagOf(command, flag) == (command, ["Added " + flag])
  {
    ReplaceAllAbsent(command, "nmap", "nmap " + flag);
  }

  /** With `nmap` only at the front, the flag lands right after the program name. */
  lemma AddFlagAfterProgram(rest: string, flag: string)
    requires !Contains(" " + rest, "nmap") && !Contains("nmap " + rest, flag)
    ensures AddFlagOf("nmap " + rest, flag) == ("nmap " + flag + " " + rest, ["Added " + flag])
  {
    var c := "nmap " + rest;
    assert c[..4] == "nmap" && c[4..] == " " + rest;
    ReplaceAllAbsent(" " + rest, "nmap", "nmap " + flag);
    assert ReplaceAll(c, "nmap", "nmap " + flag) == "nmap " + flag + ReplaceAll(c[4..], "nmap", "nmap " + flag);
    assert ("nmap " + flag) + (" " + rest) == "nmap " + flag + " " + rest;
  }

  // ---- REMOVE_FLAG and the aggressive-option step: `re.sub` of a flag ----

  /** `\s*FLAG(?:\s+\S+)?` at the start of `s`: the flag, its leading blanks and the next token. */
  function FlagWithTokenAt(flag: string, s: string): Option<Hit>
  {
    var w := Span(s, IsSpace);
    if |flag| == 0 || !StartsWith(s[w..], flag) then None
    else Some(Hit(TokenEnd(s, w + |flag|), ""))
  }

  /** `(?:\s+\S+)?` from `a`: the end of the optional blank-separated token, or `a` without one. */
  function TokenEnd(s: string, a: nat): (r: nat)
    requires a <= |s|
    ensures a <= r <= |s|
  {
    var v := Span(s[a..], IsSpace);
    if v > 0 && a + v < |s| then a + v + Until(s[a + v..], IsSpace) else a
  }

  /** `\s*FLAG` at the start of `s`: the flag and its leading blanks. */
  function FlagAt(flag: string, s: string): Option<Hit>
  {
    var w := Span(s, IsSpace);
    if |flag| == 0 || !StartsWith(s[w..], flag) then None else Some(Hit(w + |flag|, ""))
  }

  /**
   * For each flag in turn, if it occurs, every match of the removal pattern
   * `at` is deleted and a change labelled `prefix` + flag is recorded.
   */
  function RemoveEachOf(command: string, flags: seq<string>, at: (string, string) -> Option<Hit>, prefix: string): (string, seq<string>)
    decreases |flags|
  {
    if |flags| == 0 then (command, [])
    else
      var (c, changes) := RemoveEachOf(command, flags[..|flags| - 1], at, prefix);
      var flag := flags[|flags| - 1];
      if Contains(c, flag) then (SubAll(c, s => at(flag, s)), changes + [prefix + flag]) else (c, changes)
  }

  method RemoveEach(command: string, flags: seq<string>, at: (string, string) -> Option<Hit>, prefix: string)
    returns (corrected: string, changes: seq<string>)
    ensures (corrected, changes) == RemoveEachOf(command, flags, at, prefix)
  {
    corrected := command;
    changes := [];
    var i := 0;
    while i < |flags|
      invariant 0 <= i <= |flags|
      invariant (corrected, changes) == RemoveEachOf(command, flags[..i], at, prefix)
    {
      assert flags[..i + 1][..i] == flags[..i];
      var flag := flags[i];
      if Contains(corrected, flag) {
        corrected := SubAll(corrected, s => at(flag, s));
        changes := changes + [prefix + flag];
      }
      i := i + 1;
    }
    assert flags[..i] == flags;
  }

  /** The REMOVE_FLAG branch: each listed flag present is removed with the token after it, then the text is stripped. */
  function RemovalOf(command: string, flags: seq<string>): (string, seq<string>)
  {
    var (c, changes) := RemoveEachOf(command, flags, FlagWithTokenAt, "Removed ");
    (Strip(c), changes)
  }

  /**
   * The removal pattern's optional `\s+\S+` group swallows the token after the
   * flag: in ` -O scanme.nmap.org` the match runs to the end, target included.
   */
  lemma RemovalSwallowsNextToken(flag: string, s: string)
    requires |flag| > 0 && !IsSpace(flag[0]) && |flag| + 2 < |s|
    requires IsSpace(s[0]) && s[1..|flag| + 1] == flag && IsSpace(s[|flag| + 1])
    requires forall j :: |flag| + 2 <= j < |s| ==> !IsSpace(s[j])
    ensures FlagWithTokenAt(flag, s) == Some(Hit(|s|, ""))
  {
    var a := |flag| + 1;
    assert s[1] == flag[0];
    OneBlankAt(s, 0);
    assert s[0..] == s;
    assert s[1..][..|flag|] == flag;
    OneBlankAt(s, a);
    assert s[a..][1..] == s[a + 1..];
    NoBlankToEnd(s, a + 1);
    assert Span(s, IsSpace) == 1 && StartsWith(s[1..], flag);
    SwallowedToEnd(flag, s);
  }

  /** `FlagWithTokenAt` once the blank runs and the word after the flag are known. */
  lemma SwallowedToEnd(flag: string, s: string)
    requires |flag| > 0 && |flag| + 2 < |s|
    requires Span(s, IsSpace) == 1 && StartsWith(s[1..], flag)
    requires Span(s[|flag| + 1..], IsSpace) == 1
    requires Until(s[|flag| + 2..], IsSpace) == |s| - (|flag| + 2)
    ensures FlagWithTokenAt(flag, s) == Some(Hit(|s|, ""))
  {
    TokenToEnd(s, |flag| + 1);
  }

  /** One blank and then no blank to the end: the optional token runs to the end. */
  lemma TokenToEnd(s: string, a: nat)
    requires a + 1 < |s| && Span(s[a..], IsSpace) == 1
    requires Until(s[a + 1..], IsSpace) == |s| - (a + 1)
    ensures TokenEnd(s, a) == |s|
  {
  }

  /** With no blank from `k` to the end, the word starting at `k` runs to the end. */
  lemma NoBlankToEnd(s: string, k: nat)
    requires k <= |s| && forall j :: k <= j < |s| ==> !IsSpace(s[j])
    ensures Until(s[k..], IsSpace) == |s| - k
  {
  }

  /** A blank followed by a non-blank: the run of blanks from there is one long. */
  lemma OneBlankAt(s: string, i: nat)
    requires i + 1 < |s| && IsSpace(s[i]) && !IsSpace(s[i + 1])
    ensures Span(s[i..], IsSpace) == 1
  {
    assert s[i..][1..][0] == s[i + 1];
  }

  // ---- ADJUST_TIMING: `_adjust_timing` ----

  /** `-T\d` at the start of `s`. */
  function TimingAt(s: string): Option<char>
  {
    if |s| >= 3 && s[0] == '-' && s[1] == 'T' && IsDigit(s[2]) then Some(s[2]) else None
  }

  predicate HasTimingFlag(command: string) { Search(command, TimingAt).Some? }

  /** `adjustments.get("add_if_missing", "-T3")` on the step table itself. */
  function AddIfMissing(steps: seq<(string, string)>): string
    decreases |steps|
  {
    if |steps| == 0 then "-T3"
    else if steps[0].0 == "add_if_missing" then steps[0].1
    else AddIfMissing(steps[1..])
  }

  /**
   * The first step whose old template occurs is applied everywhere; with no
   * step applicable and no `-T<digit>` at all, the default template is
   * inserted after every `nmap`.
   */
  function TimingOf(command: string, steps: seq<(string, string)>): (string, Option<string>)
    requires NonEmptyKeys(steps)
  {
    match FirstPresentFrom(command, steps, 0)
    case Some(k) =>
      (ReplaceAll(command, steps[k].0, steps[k].1), Some("Adjusted timing from " + steps[k].0 + " to " + steps[k].1))
    case None =>
      if !HasTimingFlag(command) then
        var add := AddIfMissing(steps);
        (ReplaceAll(command, "nmap", "nmap " + add), Some("Added " + add + " timing template"))
      else (command, None)
  }

  method AdjustTimingOf(command: string, steps: seq<(string, string)>) returns (corrected: string, change: Option<string>)
    requires NonEmptyKeys(steps)
    ensures (corrected, change) == TimingOf(command, steps)
  {
    corrected := command;
    change := None;
    var i := 0;
    while i < |steps|
      invariant 0 <= i <= |steps|
      invariant FirstPresentFrom(command, steps, i) == FirstPresentFrom(command, steps, 0)
    {
      var (old_, new_) := steps[i];
      if Contains(command, old_) {
        corrected := ReplaceAll(command, old_, new_);
        change := Some("Adjusted timing from " + old_ + " to " + new_);
        return;
      }
      i := i + 1;
    }
    if Search(command, TimingAt).None? {
      var add := AddIfMissing(steps);
      corrected := ReplaceAll(command, "nmap", "nmap " + add);
      change := Some("Added " + add + " timing template");
    }
  }

  /**
   * With the source's step table: the first of `-T5`, `-T4`, `-T3` present
   * (higher templates first) is replaced everywhere by the template one
   * below it, with the "Adjusted timing" change, and is then gone; a command
   * with only `-T0`..`-T2` is left alone; one without any template gets the
   * default `-T3` after every `nmap`.
   */
  lemma TimingStepsDown(command: string)
    ensures var (corrected, change) := TimingOf(command, TimingSteps);
      match FirstPresentFrom(command, TimingSteps, 0)
      case Some(k) =>
        var (from, to) := TimingSteps[k];
        && |from| == 3 && |to| == 3 && from[..2] == "-T" && to[..2] == "-T"
        && '3' <= from[2] <= '5' && to[2] as int == from[2] as int - 1
        && (forall j :: 0 <= j < k ==> !Contains(command, TimingSteps[j].0))
        && corrected == ReplaceAll(command, from, to) && !Contains(corrected, from)
        && change == Some("Adjusted timing from " + from + " to " + to)
      case None =>
        if HasTimingFlag(command) then corrected == command && change == None
        else corrected == ReplaceAll(command, "nmap", "nmap -T3") && change == Some("Added -T3 timing template")
  {
    match FirstPresentFrom(command, TimingSteps, 0)
    case Some(k) =>
      var x, y := TimingSteps[k].0[2], TimingSteps[k].1[2];
      assert TimingSteps[k].0 == ['-', 'T', x] && TimingSteps[k].1 == ['-', 'T', y];
      ReplaceFlagRemovesIt(command, '-', 'T', x, y);
    case None =>
      assert AddIfMissing(TimingSteps) == "-T3" by {
        assert TimingSteps[1..][1..][1..] == [];
      }
      assert "nmap " + "-T3" == "nmap -T3";
      assert "Added " + "-T3" + " timing template" == "Added -T3 timing template";
  }

  // ---- FIX_SYNTAX with `fix_port_syntax`: `_fix_port_syntax` ----

  /** `-p\s+([^\s]+)` at the start of `s`: the port specification. */
  function PortSpecAt(s: string): (r: Option<string>)
    ensures r.Some? ==> |r.value| > 0
  {
    if !StartsWith(s, "-p") then None
    else
      var w := Span(s[2..], IsSpace);
      if w == 0 || 2 + w == |s| then None
      else
        var t := Until(s[2 + w..], IsSpace);
        Some(s[2 + w..2 + w + t])
  }

  /** `re.match(r'(\d+)-(\d+)', spec)`: the two digit groups of a leading range. */
  function LeadingRangeText(spec: string): (r: Option<(string, string)>)
  {
    var a := Span(spec, IsDigit);
    if a == 0 || a == |spec| || spec[a] != '-' then None
    else
      var b := Span(spec[a + 1..], IsDigit);
      if b == 0 then None else Some((spec[..a], spec[a + 1..a + 1 + b]))
  }

  /** The two numbers of a leading range, as `int()` reads the groups. */
  function LeadingRange(spec: string): Option<(nat, nat)>
  {
    match LeadingRangeText(spec)
    case Some(groups) => Some((DigitsValue(groups.0), DigitsValue(groups.1)))
    case None => None
  }

  /** The range spelled the other way round, `f"{end}-{start}"`. */
  function Swapped(start: nat, end: nat): string
  {
    NatToString(end) + "-" + NatToString(start)
  }

  /**
   * `_fix_port_syntax`: a leading reversed range is rewritten (whatever
   * followed it in the specification is dropped), `;` becomes `,`, and the
   * command is rewritten, at `-p ` plus the old specification, only if the
   * specification changed.
   */
  function PortSyntaxFix(command: string): (string, seq<string>)
  {
    match Search(command, PortSpecAt)
    case None => (command, [])
    case Some(spec) =>
      var range := LeadingRange(spec);
      var reversed := range.Some? && range.value.0 > range.value.1;
      var fixed1 := if reversed then Swapped(range.value.0, range.value.1) else spec;
      var changes1 := if reversed then ["Fixed port range: " + spec + " -> " + fixed1] else [];
      var semi := ';' in fixed1;
      var fixed := if semi then ReplaceAll(fixed1, ";", ",") else fixed1;
      var changes := changes1 + (if semi then ["Replaced ; with , in port specification"] else []);
      (if fixed != spec then ReplaceAll(command, "-p " + spec, "-p " + fixed) else command, changes)
  }

  lemma LeadingRangeAt(t: string, a: nat, b: nat)
    requires 0 < a < |t| && t[a] == '-' && Span(t, IsDigit) == a
    requires b > 0 && Span(t[a + 1..], IsDigit) == b
    ensures LeadingRangeText(t) == Some((t[..a], t[a + 1..a + 1 + b]))
  {
  }

  /** Both groups of a leading range are non-empty digit runs. */
  lemma LeadingRangeDigits(spec: string)
    ensures var r := LeadingRangeText(spec);
      r.Some? ==> |r.value.0| > 0 && |r.value.1| > 0 && AllDigits(r.value.0) && AllDigits(r.value.1)
  {
    var a := Span(spec, IsDigit);
    if a != 0 && a != |spec| && spec[a] == '-' {
      var b := Span(spec[a + 1..], IsDigit);
      var first, rest := spec[..a], spec[a + 1..];
      assert AllDigits(first) by {
        forall i | 0 <= i < a
          ensures IsDigit(first[i])
        {
          assert first[i] == spec[i];
        }
      }
      var second := spec[a + 1..a + 1 + b];
      assert AllDigits(second) by {
        forall i | 0 <= i < b
          ensures IsDigit(second[i])
        {
          assert second[i] == rest[i];
        }
      }
    }
  }

  /** Two digit runs joined by `-` read back as their two values. */
  lemma RangeReadsBack(x: string, y: string)
    requires |x| > 0 && |y| > 0 && AllDigits(x) && AllDigits(y)
    ensures LeadingRange(x + "-" + y) == Some((DigitsValue(x), DigitsValue(y)))
  {
    var t := x + "-" + y;
    RangeLeftRun(x, y);
    RangeRightRun(x, y);
    LeadingRangeAt(t, |x|, |y|);
    assert LeadingRangeText(t) == Some((x, y));
  }

  /** The first run of `x-y` is `x`, and the dash follows it. */
  lemma RangeLeftRun(x: string, y: string)
    requires AllDigits(x)
    ensures var t := x + "-" + y; Span(t, IsDigit) == |x| && t[..|x|] == x && t[|x|] == '-'
  {
    var t := x + "-" + y;
    assert t == x + ("-" + y);
    SpanDigits(x, "-" + y);
  }

  /** After the dash of `x-y` comes `y`, whole. */
  lemma RangeRightRun(x: string, y: string)
    requires AllDigits(y)
    ensures var t := x + "-" + y; t[|x| + 1..] == y && t[|x| + 1..|x| + 1 + |y|] == y
    ensures Span((x + "-" + y)[|x| + 1..], IsDigit) == |y|
  {
    var t := x + "-" + y;
    assert t[|x| + 1..] == y;
    assert t[|x| + 1..|x| + 1 + |y|] == y;
    SpanDigits(y, "");
    assert y + "" == y;
  }

  /** A reversed range, once swapped, reads back as the same two numbers in ascending order. */
  lemma SwappedAscends(start: nat, end: nat)
    requires start > end
    ensures LeadingRange(Swapped(start, end)) == Some((end, start))
    ensures ';' !in Swapped(start, end)
  {
    var e, s := NatToString(end), NatToString(start);
    RangeReadsBack(e, s);
    DigitsOfNatToString(end);
    DigitsOfNatToString(start);
    var t := e + "-" + s;
    forall i | 0 <= i < |t| ensures t[i] != ';' {
      if i < |e| { assert t[i] == e[i]; } else if i > |e| { assert t[i] == s[i - |e| - 1]; }
    }
  }

  /** Without a `-p <spec>` the command and the change list are left as they are. */
  lemma PortFixNeedsSpec(command: string)
    requires Search(command, PortSpecAt).None?
    ensures PortSyntaxFix(command) == (command, [])
  {
  }

  // ---- ALTERNATIVE_APPROACH: `_apply_alternative` ----

  predicate IsEqOrSpace(c: char) { c == '=' || IsSpace(c) }

  /**
   * `--script[=\s]+([^\s]+)` at the start of `s`: the script argument. When
   * the separator run reaches the end of the text, backtracking can only give
   * the group a single `=` from inside the run.
   */
  function ScriptArgAt(s: string): Option<string>
  {
    if !StartsWith(s, "--script") then None
    else
      var rest := s[8..];
      var k := Span(rest, IsEqOrSpace);
      if k == 0 then None
      else if k < |rest| then Some(rest[k..k + Until(rest[k..], IsSpace)])
      else if exists j :: 1 <= j < k && rest[j] == '=' then Some("=")
      else None
  }

  /** The first problem script, in table order, that occurs inside the current script argument. */
  function FirstProblem(current: string, table: seq<(string, seq<string>)>, i: nat): (r: Option<nat>)
    requires i <= |table|
    ensures r.Some? ==> i <= r.value < |table| && Contains(current, table[r.value].0)
    ensures forall k :: i <= k < (if r.Some? then r.value else |table|) ==> !Contains(current, table[k].0)
    decreases |table| - i
  {
    if i == |table| then None
    else if Contains(current, table[i].0) then Some(i)
    else FirstProblem(current, table, i + 1)
  }

  /**
   * `_apply_alternative`: the first problem script found in the argument is
   * swapped for its first alternative, at `--script ` plus the argument.
   */
  function AlternativeOf(command: string, table: seq<(string, seq<string>)>): (string, Option<string>)
  {
    match Search(command, ScriptArgAt)
    case None => (command, None)
    case Some(current) =>
      match FirstProblem(current, table, 0)
      case None => (command, None)
      case Some(k) =>
        if |table[k].1| == 0 then (command, None)
        else
          var replacement := table[k].1[0];
          (ReplaceAll(command, "--script " + current, "--script " + replacement),
           Some("Replaced script " + current + " with " + replacement))
  }

  /**
   * A change is reported even when the command does not contain `--script `
   * followed by the argument (as with `--script=vuln`): the command then
   * stays as it was.
   */
  lemma AlternativeReportsUnappliedChange(command: string, table: seq<(string, seq<string>)>)
    requires Search(command, ScriptArgAt).Some?
    requires !Contains(command, "--script " + Search(command, ScriptArgAt).value)
    ensures AlternativeOf(command, table).0 == command
  {
    var current := Search(command, ScriptArgAt).value;
    ReplaceAllAbsent(command, "--script " + current, "--script " + "");
    match FirstProblem(current, table, 0)
    case None =>
    case Some(k) =>
      if |table[k].1| > 0 {
        ReplaceAllAbsent(command, "--script " + current, "--script " + table[k].1[0]);
      }
  }

  // ---- SIMPLIFY_COMMAND: `_simplify_command` ----

  /** `-p\s+(\d+)-(\d+)` at the start of `s`: the two numbers. */
  function PortRangeAt(s: string): Option<(nat, nat)>
  {
    if !StartsWith(s, "-p") then None
    else
      var w := Span(s[2..], IsSpace);
      if w == 0 then None else LeadingRange(s[2 + w..])
  }

  /** Step 1: all ports become the first thousand; otherwise a range wider than 100 is cut to 100. */
  function PortStep(c: string): (string, seq<string>)
  {
    if Contains(c, "-p-") then
      (ReplaceAll(c, "-p-", "-p 1-1000"), ["Reduced port range from all to common ports (1-1000)"])
    else
      match Search(c, PortRangeAt)
      case None => (c, [])
      case Some(range) =>
        var (start, end) := range;
        if end > start + 100 then
          (ReplaceAll(c, "-p " + NatToString(start) + "-" + NatToString(end),
                      "-p " + NatToString(start) + "-" + NatToString(start + 100)),
           ["Limited port range to 100 ports"])
        else (c, [])
  }

  const AggressiveFlags: seq<string> := ["-A", "--version-all", "-sV", "-O"]

  /** Step 3: `-T5`, or else `-T4`, becomes `-T3`. */
  function TimingStep(c: string): (string, seq<string>)
  {
    if Contains(c, "-T5") then (ReplaceAll(c, "-T5", "-T3"), ["Reduced timing from T5 to T3"])
    else if Contains(c, "-T4") then (ReplaceAll(c, "-T4", "-T3"), ["Reduced timing from T4 to T3"])
    else (c, [])
  }

  /** Step 2: each aggressive option present is deleted with the blanks before it. */
  function AggressiveStep(c: string): (string, seq<string>)
  {
    RemoveEachOf(c, AggressiveFlags, FlagAt, "Removed aggressive option ")
  }

  /** `_simplify_command`: the three steps in turn, then the result is stripped. */
  function SimplifiedOf(command: string): (string, seq<string>)
  {
    var step1 := PortStep(command);
    var step2 := AggressiveStep(step1.0);
    var step3 := TimingStep(step2.0);
    (Strip(step3.0), step1.1 + step2.1 + step3.1)
  }

  method Simplify(command: string) returns (corrected: string, changes: seq<string>)
    ensures (corrected, changes) == SimplifiedOf(command)
  {
    // Step 1: the port range
    var c1, ch1 := command, [];
    if Contains(c1, "-p-") {
      c1 := ReplaceAll(c1, "-p-", "-p 1-1000");
      ch1 := ["Reduced port range from all to common ports (1-1000)"];
    } else {
      var m := Search(c1, PortRangeAt);
      if m.Some? {
        var (start, end) := m.value;
        if end > start + 100 {
          c1 := ReplaceAll(c1, "-p " + NatToString(start) + "-" + NatToString(end),
                           "-p " + NatToString(start) + "-" + NatToString(start + 100));
          ch1 := ["Limited port range to 100 ports"];
        }
      }
    }
    assert (c1, ch1) == PortStep(command);
    // Step 2: aggressive options
    var c2, ch2 := RemoveEach(c1, AggressiveFlags, FlagAt, "Removed aggressive option ");
    // Step 3: timing
    var c3, ch3 := c2, [];
    if Contains(c3, "-T5") {
      c3 := ReplaceAll(c3, "-T5", "-T3");
      ch3 := ["Reduced timing from T5 to T3"];
    } else if Contains(c3, "-T4") {
      c3 := ReplaceAll(c3, "-T4", "-T3");
      ch3 := ["Reduced timing from T4 to T3"];
    }
    assert (c3, ch3) == TimingStep(c2);
    corrected, changes := Strip(c3), ch1 + ch2 + ch3;
  }

  /** The timing step leaves no `-T5` behind. */
  lemma TimingStepClearsT5(c: string)
    ensures !Contains(TimingStep(c).0, "-T5")
  {
    if Contains(c, "-T5") {
      ReplaceFlagRemovesIt(c, '-', 'T', '5', '3');
    } else if Contains(c, "-T4") {
      ReplaceFlagKeepsOut(c, '-', 'T', '4', '3', '5');
    }
  }

  /** A simplified command never holds `-T5`. */
  lemma SimplifiedHasNoT5(command: string)
    ensures !Contains(SimplifiedOf(command).0, "-T5")
  {
    var c := AggressiveStep(PortStep(command).0).0;
    TimingStepClearsT5(c);
    if Contains(Strip(TimingStep(c).0), "-T5") {
      StripContains(TimingStep(c).0, "-T5");
    }
  }

  // ---- one correction ----

  datatype Correction = Correction(correctionType: CorrectionType, original: string, corrected: string, changes: seq<string>)

  function OptionalChange(change: Option<string>): seq<string>
  {
    if change.Some? then [change.value] else []
  }

  /** `_generate_correction`: the rewriter the mapping's correction kind selects. */
  function CorrectionFor(command: string, m: ErrorMapping): (c: Correction)
    requires Paired(m)
    ensures c.correctionType == m.correctionType && c.original == command
  {
    var base := Correction(m.correctionType, command, command, []);
    match m.correctionType
    case ReplaceFlag =>
      var (r, changes) := ReplacementsOf(command, m.action.pairs);
      base.(corrected := r, changes := changes)
    case AddFlag =>
      var (r, changes) := AddFlagOf(command, m.action.flag);
      base.(corrected := r, changes := changes)
    case RemoveFlag =>
      var (r, changes) := RemovalOf(command, m.action.flags);
      base.(corrected := r, changes := changes)
    case AdjustTiming =>
      var (r, change) := TimingOf(command, m.action.steps);
      base.(corrected := r, changes := OptionalChange(change))
    case FixSyntax =>
      if m.action.name == "fix_port_syntax" then
        var (r, changes) := PortSyntaxFix(command);
        base.(corrected := r, changes := changes)
      else base
    case AlternativeApproach =>
      var (r, change) := AlternativeOf(command, m.action.table);
      base.(corrected := r, changes := OptionalChange(change))
    case SimplifyCommand =>
      var (r, changes) := SimplifiedOf(command);
      base.(corrected := r, changes := changes)
    case _ => base
  }

  /** The last table row, `fix_general_syntax`, has no rewriter: its correction is the command itself, with no change. */
  lemma GeneralSyntaxUnchanged(command: string)
    ensures Paired(Mappings[7]) && Mappings[7].correctionType == FixSyntax
    ensures CorrectionFor(command, Mappings[7]) == Correction(FixSyntax, command, command, [])
  {
    var m := Mappings[7];
    assert m.action == FixFunction("fix_general_syntax");
    assert m.action.name != "fix_port_syntax" by {
      assert m.action.name[4] == 'g';
    }
  }

  method GenerateCorrection(command: string, m: ErrorMapping) returns (c: Correction)
    requires Paired(m)
    ensures c == CorrectionFor(command, m)
  {
    c := Correction(m.correctionType, command, command, []);
    match m.correctionType {
      case ReplaceFlag =>
        var r, changes := ApplyReplacements(command, m.action.pairs);
        c := c.(corrected := r, changes := changes);
      case AddFlag =>
        var flag := m.action.flag;
        if !Contains(command, flag) {
          c := c.(corrected := ReplaceAll(command, "nmap", "nmap " + flag), changes := ["Added " + flag]);
        }
      case RemoveFlag =>
        var r, changes := RemoveEach(command, m.action.flags, FlagWithTokenAt, "Removed ");
        c := c.(corrected := Strip(r), changes := changes);
      case AdjustTiming =>
        var r, change := AdjustTimingOf(command, m.action.steps);
        c := c.(corrected := r);
        if change.Some? {
          c := c.(changes := [change.value]);
        }
      case FixSyntax =>
        if m.action.name == "fix_port_syntax" {
          var (r, changes) := PortSyntaxFix(command);
          c := c.(corrected := r, changes := changes);
        }
      case AlternativeApproach =>
        var (r, change) := AlternativeOf(command, m.action.table);
        c := c.(corrected := r);
        if change.Some? {
          c := c.(changes := [change.value]);
        }
      case SimplifyCommand =>
        var r, changes := Simplify(command);
        c := c.(corrected := r, changes := changes);
      case _ =>
    }
  }

  // ---- matching errors to mappings ----

  /** The mapping's type equals the error's and its pattern is found in the message, ignoring case. */
  predicate Applies(m: ErrorMapping, e: ErrorEntry)
  {
    m.errorType == KindName(e.kind) && AnyFoundIgnoringCase(e.message, m.pattern)
  }

  function FirstMappingFrom(ms: seq<ErrorMapping>, e: ErrorEntry, i: nat): (r: Option<nat>)
    requires i <= |ms|
    ensures r.Some? ==> i <= r.value < |ms| && Applies(ms[r.value], e)
    ensures forall k :: i <= k < (if r.Some? then r.value else |ms|) ==> !Applies(ms[k], e)
    decreases |ms| - i
  {
    if i == |ms| then None
    else if Applies(ms[i], e) then Some(i)
    else FirstMappingFrom(ms, e, i + 1)
  }

  method FindMapping(ms: seq<ErrorMapping>, e: ErrorEntry) returns (r: Option<nat>)
    ensures r == FirstMappingFrom(ms, e, 0)
  {
    var i := 0;
    while i < |ms|
      invariant 0 <= i <= |ms|
      invariant FirstMappingFrom(ms, e, i) == FirstMappingFrom(ms, e, 0)
    {
      if Applies(ms[i], e) {
        return Some(i);
      }
      i := i + 1;
    }
    return None;
  }

  datatype MappedCorrection = MappedCorrection(error: ErrorEntry, mapping: ErrorMapping, correction: Correction,
                                               confidence: nat, explanation: string)

  predicate AllPaired(ms: seq<ErrorMapping>)
  {
    forall k :: 0 <= k < |ms| ==> Paired(ms[k])
  }

  /** The correction one error gets: from the first mapping that applies, if any. */
  function CorrectionsFor(ms: seq<ErrorMapping>, command: string, e: ErrorEntry): seq<MappedCorrection>
    requires AllPaired(ms)
  {
    match FirstMappingFrom(ms, e, 0)
    case Some(k) => [MappedCorrection(e, ms[k], CorrectionFor(command, ms[k]), ms[k].confidence, ms[k].explanation)]
    case None => []
  }

  /** The corrections in error order, before ranking. */
  function Collected(ms: seq<ErrorMapping>, command: string, errors: seq<ErrorEntry>): seq<MappedCorrection>
    requires AllPaired(ms)
    decreases |errors|
  {
    if |errors| == 0 then []
    else Collected(ms, command, errors[..|errors| - 1]) + CorrectionsFor(ms, command, errors[|errors| - 1])
  }

  /**
   * Each error yields at most one correction, made from the first mapping in
   * table order that applies to it.
   */
  lemma {:induction false} OnePerError(ms: seq<ErrorMapping>, command: string, errors: seq<ErrorEntry>)
    requires AllPaired(ms)
    ensures |Collected(ms, command, errors)| <= |errors|
    ensures forall c :: c in Collected(ms, command, errors) ==>
      c.error in errors && FirstMappingFrom(ms, c.error, 0).Some?
      && c.mapping == ms[FirstMappingFrom(ms, c.error, 0).value]
      && c.confidence == c.mapping.confidence
      && c.correction == CorrectionFor(command, c.mapping)
    decreases |errors|
  {
    if |errors| > 0 {
      var front := errors[..|errors| - 1];
      OnePerError(ms, command, front);
      assert forall e :: e in front ==> e in errors;
    }
  }

  // ---- ranking: `corrections.sort(key=confidence, reverse=True)` ----

  /** Insert after every element of at least the same confidence, so equal ones keep their order. */
  function InsertByConfidence(x: MappedCorrection, sorted: seq<MappedCorrection>): (r: seq<MappedCorrection>)
    ensures |r| == |sorted| + 1
    ensures multiset(r) == multiset(sorted) + multiset{x}
    decreases |sorted|
  {
    if |sorted| == 0 then [x]
    else if sorted[0].confidence >= x.confidence then
      assert sorted == [sorted[0]] + sorted[1..];
      [sorted[0]] + InsertByConfidence(x, sorted[1..])
    else [x] + sorted
  }

  /** The stable sort by descending confidence, one element at a time. */
  function Ranked(cs: seq<MappedCorrection>): (r: seq<MappedCorrection>)
    ensures |r| == |cs|
    ensures multiset(r) == multiset(cs)
    decreases |cs|
  {
    if |cs| == 0 then []
    else
      assert cs == cs[..|cs| - 1] + [cs[|cs| - 1]];
      InsertByConfidence(cs[|cs| - 1], Ranked(cs[..|cs| - 1]))
  }

  predicate Descending(cs: seq<MappedCorrection>)
  {
    forall i, j :: 0 <= i < j < |cs| ==> cs[i].confidence >= cs[j].confidence
  }

  /** The elements of a given confidence, in their order. */
  function WithConfidence(cs: seq<MappedCorrection>, c: nat): seq<MappedCorrection>
    decreases |cs|
  {
    if |cs| == 0 then []
    else WithConfidence(cs[..|cs| - 1], c) + (if cs[|cs| - 1].confidence == c then [cs[|cs| - 1]] else [])
  }

  lemma {:induction false} WithConfidenceCons(x: MappedCorrection, cs: seq<MappedCorrection>, c: nat)
    ensures WithConfidence([x] + cs, c) == (if x.confidence == c then [x] else []) + WithConfidence(cs, c)
    decreases |cs|
  {
    if |cs| > 0 {
      assert ([x] + cs)[..|[x] + cs| - 1] == [x] + cs[..|cs| - 1];
      WithConfidenceCons(x, cs[..|cs| - 1], c);
    }
  }

  lemma {:induction false} NoneAbove(cs: seq<MappedCorrection>, c: nat)
    requires forall i :: 0 <= i < |cs| ==> cs[i].confidence < c
    ensures WithConfidence(cs, c) == []
    decreases |cs|
  {
    if |cs| > 0 {
      NoneAbove(cs[..|cs| - 1], c);
    }
  }

  lemma {:induction false} InsertDescending(x: MappedCorrection, sorted: seq<MappedCorrection>)
    requires Descending(sorted)
    ensures Descending(InsertByConfidence(x, sorted))
    decreases |sorted|
  {
    var r := InsertByConfidence(x, sorted);
    if |sorted| > 0 && sorted[0].confidence >= x.confidence {
      var tail := sorted[1..];
      InsertDescending(x, tail);
      var rt := InsertByConfidence(x, tail);
      assert r == [sorted[0]] + rt;
      forall i, j | 0 <= i < j < |r| ensures r[i].confidence >= r[j].confidence {
        if i == 0 {
          assert r[j] == rt[j - 1];
          assert rt[j - 1] in multiset(tail) + multiset{x} by {
            assert rt[j - 1] in multiset(rt);
          }
        } else {
          assert r[i] == rt[i - 1] && r[j] == rt[j - 1];
        }
      }
    }
  }

  lemma {:induction false} InsertFilter(x: MappedCorrection, sorted: seq<MappedCorrection>, c: nat)
    requires Descending(sorted)
    ensures WithConfidence(InsertByConfidence(x, sorted), c)
      == WithConfidence(sorted, c) + (if x.confidence == c then [x] else [])
    decreases |sorted|
  {
    if |sorted| == 0 {
      assert [x][..0] == [];
    } else if sorted[0].confidence >= x.confidence {
      var tail := sorted[1..];
      assert sorted == [sorted[0]] + tail;
      InsertFilter(x, tail, c);
      var rt := InsertByConfidence(x, tail);
      WithConfidenceCons(sorted[0], rt, c);
      WithConfidenceCons(sorted[0], tail, c);
    } else {
      WithConfidenceCons(x, sorted, c);
      if x.confidence == c {
        NoneAbove(sorted, c);
      }
    }
  }

  /**
   * Ranking sorts by descending confidence, keeps every correction, and is
   * stable: for each confidence, the corrections carrying it come out in the
   * order they went in.
   */
  lemma {:induction false} RankedIsStableSort(cs: seq<MappedCorrection>)
    ensures Descending(Ranked(cs))
    ensures multiset(Ranked(cs)) == multiset(cs)
    ensures forall c: nat :: WithConfidence(Ranked(cs), c) == WithConfidence(cs, c)
    decreases |cs|
  {
    if |cs| > 0 {
      var front, last := cs[..|cs| - 1], cs[|cs| - 1];
      RankedIsStableSort(front);
      forall c: nat ensures WithConfidence(Ranked(cs), c) == WithConfidence(cs, c) {
        InsertFilter(last, Ranked(front), c);
      }
      InsertDescending(last, Ranked(front));
    }
  }

  /** `get_best_correction`: nothing for no corrections, else the head. */
  function BestCorrection(cs: seq<MappedCorrection>): (r: Option<MappedCorrection>)
    ensures r.None? <==> |cs| == 0
    ensures r.Some? ==> r.value == cs[0]
  {
    if |cs| == 0 then None else Some(cs[0])
  }

  /** The head of a ranked list has the highest confidence of all corrections. */
  lemma BestIsMostConfident(cs: seq<MappedCorrection>)
    requires |cs| > 0
    ensures var best := BestCorrection(Ranked(cs)).value;
      best in cs && forall x :: x in cs ==> x.confidence <= best.confidence
  {
    RankedIsStableSort(cs);
    var r := Ranked(cs);
    assert |r| == |multiset(cs)|;
    HeadIsMax(r);
    assert r[0] in multiset(cs);
    forall x | x in cs ensures x.confidence <= r[0].confidence {
      assert x in multiset(r);
    }
  }

  /** The head of a list in descending order of confidence is at least as confident as every member. */
  lemma HeadIsMax(r: seq<MappedCorrection>)
    requires |r| > 0 && Descending(r)
    ensures forall x :: x in r ==> x.confidence <= r[0].confidence
  {
    forall x | x in r ensures x.confidence <= r[0].confidence {
      var i :| 0 <= i < |r| && r[i] == x;
      if i > 0 { assert r[0].confidence >= r[i].confidence; }
    }
  }

  // ---- the analyzer ----

  /** The body of the per-error loop: the first applicable mapping's correction, if any. */
  method CorrectError(ms: seq<ErrorMapping>, command: string, e: ErrorEntry) returns (added: seq<MappedCorrection>)
    requires AllPaired(ms)
    ensures added == CorrectionsFor(ms, command, e)
  {
    added := [];
    var k := FindMapping(ms, e);
    if k.Some? {
      var m := ms[k.value];
      var c := GenerateCorrection(command, m);
      added := [MappedCorrection(e, m, c, m.confidence, m.explanation)];
    }
  }

  /** The loop of `analyze_errors` over the report's errors, before ranking. */
  method CollectCorrections(ms: seq<ErrorMapping>, command: string, errors: seq<ErrorEntry>)
    returns (corrections: seq<MappedCorrection>)
    requires AllPaired(ms)
    ensures corrections == Collected(ms, command, errors)
  {
    corrections := [];
    var i := 0;
    while i < |errors|
      invariant 0 <= i <= |errors|
      invariant corrections == Collected(ms, command, errors[..i])
    {
      assert errors[..i + 1][..i] == errors[..i];
      var added := CorrectError(ms, command, errors[i]);
      corrections := corrections + added;
      i := i + 1;
    }
    assert errors[..i] == errors;
  }

  datatype HistoryEntry = HistoryEntry(command: string, errors: seq<ErrorEntry>, corrections: seq<MappedCorrection>)

  /** What an analyzer with table `ms` returns for a report, as a function. */
  function Analysis(ms: seq<ErrorMapping>): Report -> seq<MappedCorrection>
    requires AllPaired(ms)
  {
    (r: Report) => Ranked(Collected(ms, r.command, r.errors))
  }

  class ErrorAnalyzer {
    const mappings: seq<ErrorMapping>
    var history: seq<HistoryEntry>

    constructor ()
      ensures mappings == Mappings && history == []
    {
      mappings := Mappings;
      history := [];
      MappingsPaired();
    }

    /**
     * `analyze_errors`: one correction per error that some mapping applies
     * to, ranked; the call is logged in the history.
     */
    method AnalyzeErrors(report: Report) returns (corrections: seq<MappedCorrection>)
      requires AllPaired(mappings)
      modifies this`history
      ensures corrections == Ranked(Collected(mappings, report.command, report.errors))
      ensures history == old(history) + [HistoryEntry(report.command, report.errors, corrections)]
    {
      var found := CollectCorrections(mappings, report.command, report.errors);
      corrections := Ranked(found);
      history := history + [HistoryEntry(report.command, report.errors, corrections)];
    }
  }
}
