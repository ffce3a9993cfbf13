/**
 * Validation v2: the validator behind a configuration (rules on or off,
 * execution allowed or not, strict mode, logging), with the JSON score
 * attached on request, a history of validations and batch validation with a
 * risk distribution.
 *
 * A real run of the command is the parameter `run`.
 */
module ValidationV2 {
  import opened Text
  import opened Security
  import opened Validator
  import opened Scorer

  datatype Config = Config(applySecurityRules: bool, enableExecution: bool, executionTimeout: nat,
                           logValidations: bool, strictMode: bool)

  const DefaultConfig := Config(true, false, 60, true, false)

  const StrictModeError := "Command blocked by strict mode due to high risk or warnings"

  /** The validator the service calls: a command and the rules switch to a response. */
  type ValidateFn = (string, bool) -> Response

  /** A validation result with the keys validation v2 adds. */
  datatype Checked = Checked(response: Response, run: Option<Run>, strictModeBlocked: bool,
                             jsonScore: Option<JsonScore>, batchIndex: Option<nat>)

  /** One history record, without its timestamp. */
  datatype Entry = Entry(command: string, valid: bool, riskLevel: Option<RiskLevel>)

  /**
   * `validate_nmap_command` with the effective execution switch: execution
   * happens only when the configuration enables it and the caller asks for
   * it, and only for a command that passed every check (one rejected or
   * blocked earlier returns before the execution step).
   */
  function Executed(config: Config, validate: ValidateFn, command: string, execute: bool, run: string -> Run): (Response, Option<Run>)
  {
    var r := validate(command, config.applySecurityRules);
    if config.enableExecution && execute && r.valid then (r.(executionTest := None), Some(run(command)))
    else (r, None)
  }

  /** Strict mode turns a valid result with warnings or high or critical risk into a block. */
  function Strict(config: Config, r: Response): (Response, bool)
  {
    if config.strictMode && r.valid && (Truthy(r.warnings) || HighRisk(r.riskLevel)) then
      (r.(valid := false, error := Some(StrictModeError)), true)
    else (r, false)
  }

  /** `validate_single`. */
  function Single(config: Config, validate: ValidateFn, command: string, execute: bool, returnJson: bool, run: string -> Run): Checked
  {
    var executed := Executed(config, validate, command, execute, run);
    var strict := Strict(config, executed.0);
    Checked(strict.0, executed.1, strict.1,
            if returnJson then Some(CreateJsonScore(strict.0, executed.1)) else None, None)
  }

  function EntryOf(c: Checked): Entry
  {
    Entry(c.response.command, c.response.valid, c.response.riskLevel)
  }

  /** The history records of a sequence of results, in order. */
  function Entries(cs: seq<Checked>): seq<Entry>
    decreases |cs|
  {
    if |cs| == 0 then [] else Entries(cs[..|cs| - 1]) + [EntryOf(cs[|cs| - 1])]
  }

  /** One history entry per result, in the results' order. */
  lemma {:induction false} EntriesAt(cs: seq<Checked>)
    ensures |Entries(cs)| == |cs| && forall i :: 0 <= i < |cs| ==> Entries(cs)[i] == EntryOf(cs[i])
    decreases |cs|
  {
    if |cs| > 0 {
      EntriesAt(cs[..|cs| - 1]);
    }
  }

  /** Each command's result under `single`, in order, tagged with its index. */
  function Tagging(single: string -> Checked, commands: seq<string>): seq<Checked>
    decreases |commands|
  {
    if |commands| == 0 then []
    else
      var n := |commands| - 1;
      Tagging(single, commands[..n]) + [single(commands[n]).(batchIndex := Some(n))]
  }

  /** The results keep the input order, each tagged with its own index. */
  lemma {:induction false} TaggingAt(single: string -> Checked, commands: seq<string>)
    ensures var r := Tagging(single, commands);
      |r| == |commands| && forall i :: 0 <= i < |commands| ==> r[i] == single(commands[i]).(batchIndex := Some(i))
    decreases |commands|
  {
    if |commands| > 0 {
      var n := |commands| - 1;
      TaggingAt(single, commands[..n]);
    }
  }

  /** `validate_multiple`'s results. */
  /** One more command in the batch: one more tagged result, and one more history entry for it. */
  lemma BatchStep(single: string -> Checked, commands: seq<string>, i: nat, results: seq<Checked>, x: Checked)
    requires i < |commands| && results == Tagging(single, commands[..i])
    requires x == single(commands[i]).(batchIndex := Some(i))
    ensures results + [x] == Tagging(single, commands[..i + 1])
    ensures Entries(results + [x]) == Entries(results) + [EntryOf(x)]
  {
    assert commands[..i + 1][..i] == commands[..i];
    assert (results + [x])[..|results|] == results;
  }

  function Multiple(config: Config, validate: ValidateFn, commands: seq<string>, execute: bool, returnJson: bool, run: string -> Run): seq<Checked>
  {
    Tagging((c: string) => Single(config, validate, c, execute, returnJson, run), commands)
  }

  function Responses(cs: seq<Checked>): (r: seq<Response>)
    ensures |r| == |cs| && forall i :: 0 <= i < |cs| ==> r[i] == cs[i].response
  {
    seq(|cs|, i requires 0 <= i < |cs| => cs[i].response)
  }

  datatype Distribution = Distribution(critical: nat, high: nat, medium: nat, low: nat)

  function AtLevel(rs: seq<Response>, level: RiskLevel): nat
  {
    CountWhere(rs, (r: Response) => r.riskLevel == Some(level))
  }

  function DistributionOf(rs: seq<Response>): Distribution
  {
    Distribution(AtLevel(rs, Critical), AtLevel(rs, High), AtLevel(rs, Medium), AtLevel(rs, Low))
  }

  datatype BatchReport = BatchReport(totalCommands: nat, summary: Summary, distribution: Distribution, results: seq<Checked>)

  datatype Statistics = Statistics(total: nat, valid: nat, blocked: nat, critical: nat, high: nat, medium: nat, low: nat)

  function CountEntries(es: seq<Entry>, p: Entry -> bool): (n: nat)
    ensures n <= |es|
    decreases |es|
  {
    if |es| == 0 then 0 else (if p(es[0]) then 1 else 0) + CountEntries(es[1..], p)
  }

  /** `get_statistics`, without the success-rate text: `None` is the error for an empty history. */
  function StatisticsOf(history: seq<Entry>): Option<Statistics>
  {
    if |history| == 0 then None
    else
      var valid := CountEntries(history, (e: Entry) => e.valid);
      Some(Statistics(|history|, valid, |history| - valid,
                      CountEntries(history, (e: Entry) => e.riskLevel == Some(Critical)),
                      CountEntries(history, (e: Entry) => e.riskLevel == Some(High)),
                      CountEntries(history, (e: Entry) => e.riskLevel == Some(Medium)),
                      CountEntries(history, (e: Entry) => e.riskLevel == Some(Low))))
  }

  // ---- properties ----

  /**
   * Execution is forced off unless the configuration enables it: without
   * `enable_execution` the result is the one of a call that did not ask to
   * execute, and no result carries a run.
   */
  lemma ExecutionNeedsConfig(config: Config, validate: ValidateFn, command: string, execute: bool, returnJson: bool, run: string -> Run)
    ensures var c := Single(config, validate, command, execute, returnJson, run);
      && (!config.enableExecution ==> c == Single(config, validate, command, false, returnJson, run))
      && (c.run.Some? ==> config.enableExecution && execute && validate(command, config.applySecurityRules).valid)
  {
  }

  /**
   * Strict mode blocks exactly the valid results that have warnings or a high
   * or critical risk level, so with it on a valid result has neither; without
   * it the validator's verdict stands. The JSON score is attached exactly
   * when asked for, and it is computed on the result after strict mode.
   */
  lemma StrictModeVerdict(config: Config, validate: ValidateFn, command: string, execute: bool, returnJson: bool, run: string -> Run)
    ensures var r := validate(command, config.applySecurityRules);
      var c := Single(config, validate, command, execute, returnJson, run);
      && (c.strictModeBlocked <==> config.strictMode && r.valid && (Truthy(r.warnings) || HighRisk(r.riskLevel)))
      && (c.strictModeBlocked ==> !c.response.valid && c.response.error == Some(StrictModeError))
      && (config.strictMode && c.response.valid ==> !Truthy(c.response.warnings) && !HighRisk(c.response.riskLevel))
      && (!config.strictMode ==> c.response.valid == r.valid)
      && (c.jsonScore.Some? <==> returnJson)
      && (c.jsonScore.Some? ==> c.jsonScore.value.valid == c.response.valid)
  {
  }

  /** Strict mode is applied after execution: a command it blocks has already been run when execution was on. */
  lemma StrictModeAfterRun(config: Config, validate: ValidateFn, command: string, returnJson: bool, run: string -> Run)
    requires config.enableExecution
    ensures var c := Single(config, validate, command, true, returnJson, run);
      c.strictModeBlocked ==> c.run == Some(run(command))
  {
  }

  /** With the rules applied and no strict mode, the risk distribution counts exactly the valid results. */
  lemma DistributionCountsValid(config: Config, commands: seq<string>, execute: bool, returnJson: bool, run: string -> Run)
    requires config.applySecurityRules && !config.strictMode
    ensures var rs := Responses(Multiple(config, Validate, commands, execute, returnJson, run));
      var d := DistributionOf(rs);
      d.critical + d.high + d.medium + d.low == CountWhere(rs, IsValid)
  {
    var rs := Responses(Multiple(config, Validate, commands, execute, returnJson, run));
    TaggingAt((c: string) => Single(config, Validate, c, execute, returnJson, run), commands);
    forall i | 0 <= i < |rs|
      ensures rs[i].valid <==> rs[i].riskLevel.Some?
    {
      SingleLevelIffValid(config, commands[i], execute, returnJson, run);
    }
    LevelsPartition(rs);
  }

  /** Without strict mode, a result carries a risk level exactly when it is valid. */
  lemma SingleLevelIffValid(config: Config, cmd: string, execute: bool, returnJson: bool, run: string -> Run)
    requires config.applySecurityRules && !config.strictMode
    ensures var r := Single(config, Validate, cmd, execute, returnJson, run).response;
      r.valid <==> r.riskLevel.Some?
  {
    ResponseFlagsConsistent(cmd, true);
    AcceptedResponse(cmd);
  }

  lemma {:induction false} LevelsPartition(rs: seq<Response>)
    requires forall i :: 0 <= i < |rs| ==> (rs[i].valid <==> rs[i].riskLevel.Some?)
    ensures AtLevel(rs, Critical) + AtLevel(rs, High) + AtLevel(rs, Medium) + AtLevel(rs, Low) == CountWhere(rs, IsValid)
    decreases |rs|
  {
    if |rs| > 0 {
      assert forall i :: 0 <= i < |rs[1..]| ==> rs[1..][i] == rs[i + 1];
      LevelsPartition(rs[1..]);
      var level := rs[0].riskLevel;
      assert AtLevel(rs, Critical) == (if level == Some(Critical) then 1 else 0) + AtLevel(rs[1..], Critical);
      assert AtLevel(rs, High) == (if level == Some(High) then 1 else 0) + AtLevel(rs[1..], High);
      assert AtLevel(rs, Medium) == (if level == Some(Medium) then 1 else 0) + AtLevel(rs[1..], Medium);
      assert AtLevel(rs, Low) == (if level == Some(Low) then 1 else 0) + AtLevel(rs[1..], Low);
      assert CountWhere(rs, IsValid) == (if rs[0].valid then 1 else 0) + CountWhere(rs[1..], IsValid);
      assert rs[0].valid <==> level.Some?;
      match level {
        case None =>
        case Some(l) => assert l == Critical || l == High || l == Medium || l == Low;
      }
    }
  }

  /** The statistics exist exactly for a non-empty history; blocked is what is not valid, and the levels never exceed the total. */
  lemma StatisticsShape(history: seq<Entry>)
    ensures var s := StatisticsOf(history);
      && (s.None? <==> |history| == 0)
      && (s.Some? ==> s.value.total == |history| && s.value.valid + s.value.blocked == s.value.total
                      && s.value.critical + s.value.high + s.value.medium + s.value.low <= s.value.total)
  {
    if |history| > 0 {
      LevelEntriesBound(history);
    }
  }

  lemma {:induction false} LevelEntriesBound(es: seq<Entry>)
    ensures CountEntries(es, (e: Entry) => e.riskLevel == Some(Critical)) + CountEntries(es, (e: Entry) => e.riskLevel == Some(High))
          + CountEntries(es, (e: Entry) => e.riskLevel == Some(Medium)) + CountEntries(es, (e: Entry) => e.riskLevel == Some(Low)) <= |es|
    decreases |es|
  {
    if |es| > 0 {
      LevelEntriesBound(es[1..]);
    }
  }

  // ---- the service ----

  class ValidationService {
    const config: Config
    /** `validate_nmap_command`. */
    const validate: ValidateFn
    /** One entry per logged validation, oldest first. */
    var history: seq<Entry>

    /** A missing configuration falls back to the defaults. */
    constructor (config: Option<Config>)
      ensures this.config == (if config.Some? then config.value else DefaultConfig) && history == []
      ensures validate == Validate
    {
      validate := Validate;
      this.config := if config.Some? then config.value else DefaultConfig;
      history := [];
    }

    /** `validate_single`; with logging on, the history grows by exactly this result's entry. */
    method ValidateSingle(command: string, execute: bool, returnJson: bool, run: string -> Run) returns (result: Checked)
      modifies this`history
      ensures result == Single(config, validate, command, execute, returnJson, run)
      ensures history == old(history) + (if config.logValidations then [EntryOf(result)] else [])
    {
      var r, ran := ValidateAndRun(command, execute, run);
      var blocked;
      r, blocked := StrictCheck(r);
      var json: Option<JsonScore> := None;
      if returnJson {
        json := Some(CreateJsonScore(r, ran));
      }
      result := Checked(r, ran, blocked, json, None);
      if config.logValidations {
        LogValidation(result);
      }
    }

    /** The first half of `validate_single`: validate, then run the command when execution is on and it passed. */
    method ValidateAndRun(command: string, execute: bool, run: string -> Run) returns (r: Response, ran: Option<Run>)
      ensures (r, ran) == Executed(config, validate, command, execute, run)
    {
      var doExecute := execute;
      if !config.enableExecution {
        doExecute := false;
      }
      r := validate(command, config.applySecurityRules);
      ran := None;
      if doExecute && r.valid {
        r := r.(executionTest := None);
        ran := Some(run(command));
      }
    }

    /** The strict-mode step of `validate_single`: whether the result is blocked. */
    method StrictCheck(r: Response) returns (checked: Response, blocked: bool)
      ensures (checked, blocked) == Strict(config, r)
    {
      checked, blocked := r, false;
      if config.strictMode && r.valid {
        if Truthy(r.warnings) || HighRisk(r.riskLevel) {
          checked := r.(valid := false, error := Some(StrictModeError));
          blocked := true;
        }
      }
    }

    /** `_log_validation`: one more history record, for this result. */
    method LogValidation(result: Checked)
      modifies this`history
      ensures history == old(history) + [EntryOf(result)]
    {
      history := history + [EntryOf(result)];
    }

    /** `validate_multiple`: the results in input order, each logged as it is validated. */
    method ValidateMultiple(commands: seq<string>, execute: bool, returnJson: bool, run: string -> Run) returns (report: BatchReport)
      modifies this`history
      ensures report.results == Multiple(config, validate, commands, execute, returnJson, run)
      ensures report.totalCommands == |commands|
      ensures report.summary == Summarize(Responses(report.results))
      ensures report.distribution == DistributionOf(Responses(report.results))
      ensures history == old(history) +
        (if config.logValidations then Entries(Multiple(config, validate, commands, execute, returnJson, run)) else [])
    {
      var results := ValidateEach(commands, execute, returnJson, run);
      var rs := Responses(results);
      report := BatchReport(|commands|, Summarize(rs), DistributionOf(rs), results);
    }

    /** The loop of `validate_multiple`: each command validated and logged in turn, its result tagged with its index. */
    method ValidateEach(commands: seq<string>, execute: bool, returnJson: bool, run: string -> Run) returns (results: seq<Checked>)
      modifies this`history
      ensures results == Multiple(config, validate, commands, execute, returnJson, run)
      ensures history == old(history) + (if config.logValidations then Entries(results) else [])
    {
      results := [];
      var i := 0;
      while i < |commands|
        invariant 0 <= i <= |commands|
        invariant results == Multiple(config, validate, commands[..i], execute, returnJson, run)
        invariant history == old(history) + (if config.logValidations then Entries(results) else [])
      {
        results := ValidateNext(commands, execute, returnJson, run, i, results, old(history));
        i := i + 1;
      }
      assert commands[..i] == commands;
    }

    /** One turn of the loop: the next command validated, logged and tagged with its index. */
    method ValidateNext(commands: seq<string>, execute: bool, returnJson: bool, run: string -> Run,
                        i: nat, results: seq<Checked>, ghost base: seq<Entry>) returns (more: seq<Checked>)
      requires i < |commands| && results == Multiple(config, validate, commands[..i], execute, returnJson, run)
      requires history == base + (if config.logValidations then Entries(results) else [])
      modifies this`history
      ensures more == Multiple(config, validate, commands[..i + 1], execute, returnJson, run)
      ensures history == base + (if config.logValidations then Entries(more) else [])
    {
      ghost var single := (c: string) => Single(config, validate, c, execute, returnJson, run);
      var r := ValidateSingle(commands[i], execute, returnJson, run);
      assert r == single(commands[i]);
      BatchStep(single, commands, i, results, r.(batchIndex := Some(i)));
      more := results + [r.(batchIndex := Some(i))];
    }

    /** `get_statistics` over the history. */
    function GetStatistics(): (s: Option<Statistics>)
      reads this
      ensures s.None? <==> |history| == 0
      ensures s.Some? ==> s.value.total == |history| && s.value.blocked == s.value.total - s.value.valid
    {
      StatisticsOf(history)
    }
  }
}
