/**
 * The first-generation syntax check: a non-blank command must show
 * something that looks like an IP address or a host name, and must not
 * contain any of a short list of forbidden substrings.
 */
module SyntaxCheck {
  import opened Text

  datatype SyntaxResult = SyntaxResult(isValid: bool, errorMessage: string, details: seq<string>)

  const EmptyMessage := "Command is empty or contains only whitespace."
  const NoTargetMessage := "No obvious target IP address or hostname found."
  const TargetDetail := "Required for a valid Nmap scan."
  const ForbiddenDetail := "Flag indicates a potentially malicious or non-scan operation."
  const PassedMessage := "Syntax check passed (v1)."

  /** Searched for in list order; only the first one present is reported. */
  const ForbiddenSubstrings: seq<string> := ["--script=shell", "-e", "exec", "system"]

  function ForbiddenMessage(flag: string): string
  {
    "Forbidden flag or script found: '" + flag + "'."
  }

  /**
   * Where `\w+\.\w+` can match: a match needs a word character, a dot and a
   * word character in a row, and any such triple is one.
   */
  predicate WordDotWordAt(s: string, i: nat)
  {
    i + 2 < |s| && IsWordChar(s[i]) && s[i + 1] == '.' && IsWordChar(s[i + 2])
  }

  /** `re.search(r'(\d{1,3}\.\d{1,3}\.\d{1,3}\.\d{1,3}|\w+\.\w+)', s)` succeeds. */
  predicate HasTarget(s: string)
  {
    exists i: nat :: i < |s| && WordDotWordAt(s, i)
  }

  /**
   * The dotted-quad alternative adds nothing: one to three digits, a dot and
   * a digit already match the word alternative.
   */
  lemma QuadStartIsTarget(s: string, i: nat, a: nat)
    requires 1 <= a <= 3 && i + a + 1 < |s|
    requires forall k :: i <= k < i + a ==> IsDigit(s[k])
    requires s[i + a] == '.' && IsDigit(s[i + a + 1])
    ensures HasTarget(s)
  {
    assert WordDotWordAt(s, i + a - 1);
  }

  /** The index of the first forbidden substring present from `i` on. */
  function FirstForbidden(s: string, i: nat): (r: Option<nat>)
    requires i <= |ForbiddenSubstrings|
    ensures r.Some? ==> i <= r.value < |ForbiddenSubstrings| && Contains(s, ForbiddenSubstrings[r.value])
    ensures r.Some? ==> forall j :: i <= j < r.value ==> !Contains(s, ForbiddenSubstrings[j])
    ensures r.None? ==> forall j :: i <= j < |ForbiddenSubstrings| ==> !Contains(s, ForbiddenSubstrings[j])
    decreases |ForbiddenSubstrings| - i
  {
    if i == |ForbiddenSubstrings| then None
    else if Contains(s, ForbiddenSubstrings[i]) then Some(i)
    else FirstForbidden(s, i + 1)
  }

  /** `check_syntax_v1` as a function of the command. */
  function SyntaxV1(command: string): SyntaxResult
  {
    if Strip(command) == "" then SyntaxResult(false, EmptyMessage, [])
    else
      var noTarget := !HasTarget(command);
      var forbidden := FirstForbidden(command, 0);
      var targetNote: seq<string> := if noTarget then [TargetDetail] else [];
      var details := if forbidden.Some? then targetNote + [ForbiddenDetail] else targetNote;
      if forbidden.Some? then SyntaxResult(false, ForbiddenMessage(ForbiddenSubstrings[forbidden.value]), details)
      else if noTarget then SyntaxResult(false, NoTargetMessage, details)
      else SyntaxResult(true, PassedMessage, details)
  }

  /** `check_syntax_v1`: the result record is updated check by check; the forbidden search stops at the first hit. */
  method CheckSyntaxV1(command: string) returns (r: SyntaxResult)
    ensures r == SyntaxV1(command)
  {
    r := SyntaxResult(true, "", []);
    if command == "" || Strip(command) == "" {
      r := r.(isValid := false, errorMessage := EmptyMessage);
      return;
    }
    if !HasTarget(command) {
      r := r.(isValid := false, errorMessage := NoTargetMessage, details := r.details + [TargetDetail]);
    }
    var beforeSearch := r;
    var i := 0;
    while i < |ForbiddenSubstrings|
      invariant 0 <= i <= |ForbiddenSubstrings|
      invariant FirstForbidden(command, i) == FirstForbidden(command, 0)
      invariant r == beforeSearch
    {
      if Contains(command, ForbiddenSubstrings[i]) {
        r := r.(isValid := false, errorMessage := ForbiddenMessage(ForbiddenSubstrings[i]),
                details := r.details + [ForbiddenDetail]);
        break;
      }
      i := i + 1;
    }
    if !r.isValid {
      if i < |ForbiddenSubstrings| {
        assert FirstForbidden(command, 0) == Some(i);
      }
      return;
    }
    r := r.(errorMessage := PassedMessage);
  }

  /** Blank input is rejected at once, with no details. */
  lemma BlankRejected(command: string)
    requires Strip(command) == ""
    ensures SyntaxV1(command) == SyntaxResult(false, EmptyMessage, [])
  {
  }

  /**
   * A command passes exactly when it is not blank, shows a target and
   * contains no forbidden substring; a passing command gets the success
   * message and no details.
   */
  lemma ValidIff(command: string)
    ensures var r := SyntaxV1(command);
      && (r.isValid <==> Strip(command) != "" && HasTarget(command) &&
                         forall k :: 0 <= k < |ForbiddenSubstrings| ==> !Contains(command, ForbiddenSubstrings[k]))
      && (r.isValid ==> r.errorMessage == PassedMessage && r.details == [])
  {
    if Strip(command) != "" {
      var f := FirstForbidden(command, 0);
      if f.Some? {
        assert Contains(command, ForbiddenSubstrings[f.value]);
      } else if HasTarget(command) {
        assert SyntaxV1(command) == SyntaxResult(true, PassedMessage, []);
      }
    }
  }

  /**
   * The missing target is recorded but checking goes on: a forbidden
   * substring overwrites the message, and the details keep both notes in
   * order. Only the first forbidden substring in list order is named.
   */
  lemma LastErrorWins(command: string)
    requires Strip(command) != ""
    ensures var r := SyntaxV1(command);
      && (!HasTarget(command) && FirstForbidden(command, 0).None? ==>
            r == SyntaxResult(false, NoTargetMessage, [TargetDetail]))
      && (FirstForbidden(command, 0).Some? ==>
            var k := FirstForbidden(command, 0).value;
            && !r.isValid && r.errorMessage == ForbiddenMessage(ForbiddenSubstrings[k])
            && (forall j :: 0 <= j < k ==> !Contains(command, ForbiddenSubstrings[j]))
            && r.details == (if HasTarget(command) then [] else [TargetDetail]) + [ForbiddenDetail])
  {
    var f := FirstForbidden(command, 0);
    var t := HasTarget(command);
    if f.Some? {
      var d := (if t then [] else [TargetDetail]) + [ForbiddenDetail];
      assert SyntaxV1(command) == SyntaxResult(false, ForbiddenMessage(ForbiddenSubstrings[f.value]), d);
    } else if !t {
      assert SyntaxV1(command) == SyntaxResult(false, NoTargetMessage, [TargetDetail]);
    }
  }

  /** `-e` also matches inside `--exclude`, so any command using `--exclude` is rejected. */
  lemma ExcludeIsForbidden(command: string)
    requires Contains(command, "--exclude")
    ensures !SyntaxV1(command).isValid
  {
    var i := ContainsWitness(command, "--exclude");
    assert command[i..][..9] == "--exclude";
    assert command[i + 1..][..2] == command[i..][..9][1..3] == "-e";
    ContainsAt(command, "-e", i + 1);
    assert Contains(command, ForbiddenSubstrings[1]);
  }
}
