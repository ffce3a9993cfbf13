# Nmap command pipeline: validation, risk scoring, simulation and repair

This project is a Dafny model of the core of an Nmap assistant. The
assistant turns a natural-language request into an `nmap` command, checks the
command, and repairs it until it is acceptable. The model covers these parts:

- **Classify**: the keyword classifier that decides whether a request is about
  nmap, and how hard it is.
- **Orchestrator**: tries the generators tier by tier (easy, medium, hard).
  Each candidate goes to the validator, and a repairable candidate goes to the
  self-corrector, a bounded number of times per tier.
- **RagAgent**: the retrieval agent's rule-based command builder. It covers the
  scan type, target, ports, options, the final command line and the warnings.
- **SyntaxCheck**: the first-generation syntax check.
- **Security**: the risk engine. It covers the forbidden and warning flag
  tables, the IPv4 blocked ranges, the risk score, the level and the advice.
- **Validator**: the structural validator. It checks for injection
  characters, tokenises the command, separates flags from targets, checks the
  target formats and calls the risk engine. It also covers the batch mode and
  the summary counts.
- **Scorer** and **ValidationV2**: the JSON scorer, and the validation service
  that adds execution gating, strict mode and a validation history.
- **Simulator**: the execution simulator. It classifies each stderr line
  against an error-pattern table, counts the progress lines on stdout,
  interprets the exit code, builds the sandbox command line and suggests
  alternatives.
- **Corrections**: the error-to-correction engine. It covers the mapping
  table, the command rewriters, a stable ranking by confidence and the
  analysis history.
- **SelfCorrection**: the self-correction agent. It covers autonomous repair,
  the iterative repair loop, upstream and final feedback, and the session
  report.
- **Routes**: the parts of the repair API that compute something. These are
  result conversion, feedback preparation, the legacy heuristic repair, and
  session lookup and statistics.

Each piece keeps the source's own form:

- Objects whose fields the source updates are Dafny classes:
  - `SecurityRules`
  - `ExecutionResult`
  - `ErrorAnalyzer`
  - `SelfCorrectionAgent`
  - `ValidationService`
  - `Orchestrator`
- Loops are methods with invariants, each proved equal to a specification
  function.
- Everything that is pure is a function.
- The properties the code promises are lemmas about those functions.

Regular expressions are written out as hand-made recognisers, one per fixed
pattern, with the backtracking order of Python's `re` where it matters.
Python's `str.replace` is `Text.ReplaceAll`, and `re.search` is a leftmost
search over a per-position matcher. `shlex.split` is a POSIX-mode tokeniser
with quotes, backslashes and the unclosed-quote error.

A few behaviours of the code differ from what its comments suggest. They are
modelled as written and stated as lemmas:

- The hints `-sS`, `-sU` and `-A` never match the lower-cased request
  (`Classify.NmapHintsThatMatch`).
- `-e` rejects every `--exclude` (`SyntaxCheck.ExcludeIsForbidden`).
- "port 80-90" yields `-p 80` (`RagAgent.SinglePortShadowsRange`).
- "host discovery" never gives a ping scan (`RagAgent.HostDiscoveryNeverPings`).
- A permission error is always "repaired" (`SelfCorrection.PermissionAlwaysRepaired`).
- Only `permission_denied` can reach the autonomous fixes
  (`SelfCorrection.OnlyPermissionIsReachable`).
- The removal pattern swallows the token after a flag
  (`Corrections.RemovalSwallowsNextToken`).
- Adding a flag rewrites every `nmap` in the command, including one inside
  a host name, because it is a global `str.replace` (`Corrections.AddFlagOf`
  is `ReplaceAll(command, "nmap", "nmap " + flag)`).

## Model

| member | source | states |
|---|---|---|
| Security.SecurityRules.constructor | NMAP-AI-Security-Validation-main/validation/security_rules.py:55-69 | The instance tables are the class tables updated by the custom rows and extended by the custom ranges; the class tables are never changed |
| Security.UpdateTableLookup | NMAP-AI-Security-Validation-main/validation/security_rules.py:63-69 | Dictionary update: a custom key takes the last reason given to it, every other key keeps its reason, and the original keys keep their places |
| Security.CollectHits | NMAP-AI-Security-Validation-main/validation/security_rules.py:71-121 | The nested flag/rule loop yields exactly the (flag, rule) pairs where the flag starts with the rule's flag, in order |
| Security.RuleHitsEmptyIff | NMAP-AI-Security-Validation-main/validation/security_rules.py:80-95 | A flag has no hit exactly when it starts with no row's flag |
| Security.FlagHitsEmptyIff | NMAP-AI-Security-Validation-main/validation/security_rules.py:92-95 | There are no hits exactly when no flag starts with any row's flag |
| Security.RuleHitsAtMostOne | NMAP-AI-Security-Validation-main/validation/security_rules.py:80-90 | With a prefix-free table a flag has one hit if it matches and none otherwise |
| Security.PrefixFreeHitCount | NMAP-AI-Security-Validation-main/validation/security_rules.py:80-90 | With a prefix-free table the number of hits is the number of matching flags |
| Security.BuiltInTablesPrefixFree | NMAP-AI-Security-Validation-main/validation/security_rules.py:11-41 | No flag of the built-in forbidden or warning table is a prefix of another, so the two lemmas above apply to the tables the engine uses |
| Security.SortTargets | NMAP-AI-Security-Validation-main/validation/security_rules.py:166-214 | The target loop puts each target into the unsafe or the safe list, in order, as its verdict says |
| Security.Partitioned | NMAP-AI-Security-Validation-main/validation/security_rules.py:166-214 | Every target lands in exactly one list; there is no unsafe target exactly when every verdict is safe |
| Security.TargetsPartitioned | NMAP-AI-Security-Validation-main/validation/security_rules.py:166-214 | The same partition for the engine's own target classification |
| Security.BuiltInRangesParse | NMAP-AI-Security-Validation-main/validation/security_rules.py:44-48 | The built-in ranges parse as the /4 blocks at 224.0.0.0 and 240.0.0.0 |
| Security.BlockedIffReachesMulticast | NMAP-AI-Security-Validation-main/validation/security_rules.py:123-152 | With the built-in ranges a target network is blocked exactly when its highest address is at least 224.0.0.0 |
| Security.FirstOverlapPair | NMAP-AI-Security-Validation-main/validation/security_rules.py:141-147 | With two well-formed ranges, a network is blocked exactly when it overlaps either one |
| Security.SmallBlockBlocked | NMAP-AI-Security-Validation-main/validation/security_rules.py:141-147 | A network no larger than a /4 overlaps a blocked /4 exactly when it ends at 224.0.0.0 or above |
| Security.LargeBlockBlocked | NMAP-AI-Security-Validation-main/validation/security_rules.py:141-147 | A network at least as large as a /4 overlaps a blocked /4 exactly when it reaches 224.0.0.0 |
| Security.AllowedIff | NMAP-AI-Security-Validation-main/validation/security_rules.py:268-271 | A command is allowed exactly when no flag is forbidden and no target is unsafe; warnings never block |
| Security.ScoreAndLevel | NMAP-AI-Security-Validation-main/validation/security_rules.py:235-265 | The score is 40 per violation, 10 per warning and 30 per unsafe target, capped at 100; the level is critical at 70 or more, high at 40, medium at 20, else low |
| Security.BlockedIsNeverLow | NMAP-AI-Security-Validation-main/validation/security_rules.py:239-265 | A blocked command scores at least 30 and is never low; a forbidden flag alone makes it high or critical |
| Security.RecommendationBands | NMAP-AI-Security-Validation-main/validation/security_rules.py:284-293 | BLOCK exactly for blocked commands; otherwise CAUTION from 40, WARNING from 20, ALLOW below |
| Security.RiskFactorsListed | NMAP-AI-Security-Validation-main/validation/security_rules.py:238-251 | The risk factors name exactly the non-empty finding lists |
| Security.SecurityRules.CheckForbiddenFlags | NMAP-AI-Security-Validation-main/validation/security_rules.py:71-95 | The violations are the hits of the flags against the instance's forbidden table |
| Security.SecurityRules.CheckWarningFlags | NMAP-AI-Security-Validation-main/validation/security_rules.py:97-121 | The warnings are the hits against the class-level warning table, whatever the instance's configuration |
| Security.SecurityRules.CheckTargets | NMAP-AI-Security-Validation-main/validation/security_rules.py:166-214 | The unsafe and safe lists are the engine's classification against the instance's ranges |
| Security.SecurityRules.EvaluateCommand | NMAP-AI-Security-Validation-main/validation/security_rules.py:216-282 | The evaluation is the three checks followed by the score, level, verdict and advice |
| Ipv4.ParseAddress | NMAP-AI-Security-Validation-main/validation/security_rules.py:137-139 | An accepted IPv4 address is below 2^32 |
| Ipv4.ParseNetwork | NMAP-AI-Security-Validation-main/validation/security_rules.py:133-140 | A parsed network is well formed: its prefix is at most 32 and its base is aligned to it |
| Ipv4.OverlapsIffShorterContains | NMAP-AI-Security-Validation-main/validation/security_rules.py:141-146 | Two aligned blocks overlap exactly when the larger one contains the other's base |
| Ipv4.InNetworkRange | NMAP-AI-Security-Validation-main/validation/security_rules.py:141-146 | With an aligned base, an address is in a network exactly when it lies in [base, base + size) |
| Shlex.PlainSplit | NMAP-AI-Security-Validation-main/validation/validator.py:51-55 | Without quotes or backslashes, tokenising is a plain whitespace split |
| Shlex.SingleQuotedWord | NMAP-AI-Security-Validation-main/validation/validator.py:51-55 | A single-quoted word is one token, even if it is empty or holds spaces |
| Shlex.SingleQuotedVerbatim | NMAP-AI-Security-Validation-main/validation/validator.py:51-55 | A single-quoted stretch is copied into the word verbatim |
| Shlex.UnclosedQuote | NMAP-AI-Security-Validation-main/validation/validator.py:51-55 | A quote that is never closed is a parse error |
| Shlex.UnclosedSingleQuote | NMAP-AI-Security-Validation-main/validation/validator.py:51-55 | An unclosed single quote fails the whole split |
| Shlex.LexBetweenPlain | NMAP-AI-Security-Validation-main/validation/validator.py:51-55 | Between words, plain text splits at whitespace |
| Shlex.LexWordPlain | NMAP-AI-Security-Validation-main/validation/validator.py:51-55 | Inside a word, plain text extends the word up to the next whitespace |
| Validator.SeparateTokens | NMAP-AI-Security-Validation-main/validation/validator.py:67-83 | The skip-flag loop computes the flag/target separation |
| Validator.SeparateShape | NMAP-AI-Security-Validation-main/validation/validator.py:67-83 | Flags start with `-` and targets do not; both come from the tokens and no token is used twice; with no argument-taking flag, every token is kept |
| Validator.NoBadTargets | NMAP-AI-Security-Validation-main/validation/validator.py:95-101 | There are no bad targets exactly when every target is IPv4/CIDR-shaped or domain-shaped |
| Validator.IpIsNotDomain | NMAP-AI-Security-Validation-main/validation/validator.py:95-100 | An IPv4-shaped target never matches the domain pattern |
| Validator.SecurityIssues | NMAP-AI-Security-Validation-main/validation/validator.py:131-137 | One issue per forbidden flag, then one per unsafe target, each with its fixed lead text |
| Validator.WarningLines | NMAP-AI-Security-Validation-main/validation/validator.py:148-152 | One warning line per warning flag |
| Validator.ValidIff | NMAP-AI-Security-Validation-main/validation/validator.py:8-158 | A command is valid exactly when it passes the structural checks and, with the rules on, the risk engine allows its flags and targets |
| Validator.RejectionSeverity | NMAP-AI-Security-Validation-main/validation/validator.py:22-62 | Injection is critical, empty input is high, and every structural rejection has an error and no security report |
| Validator.ValidateCases | NMAP-AI-Security-Validation-main/validation/validator.py:22-119 | A structurally valid command is assessed by the risk engine; any other is rejected before it |
| Validator.BlockedResponse | NMAP-AI-Security-Validation-main/validation/validator.py:125-146 | A security block is invalid, lists one issue per forbidden flag and per unsafe target (at least one), and takes the risk level as its severity, never low |
| Validator.AcceptedResponse | NMAP-AI-Security-Validation-main/validation/validator.py:113-158 | An accepted command carries the clamped score, the level, the advice and one warning per warning flag; its targets are well formed and no flag is forbidden |
| Validator.ResponseFlagsConsistent | NMAP-AI-Security-Validation-main/validation/validator.py:113-158 | Only invalid responses are blocked, and only valid ones carry a risk level |
| Validator.Tagged | NMAP-AI-Security-Validation-main/validation/validator.py:220-225 | The batch results keep input order, and result i carries command index i |
| Validator.TagEach | NMAP-AI-Security-Validation-main/validation/validator.py:220-225 | The batch loop computes the tagged results |
| Validator.Batch | NMAP-AI-Security-Validation-main/validation/validator.py:208-225 | One result per command |
| Validator.ValidateBatch | NMAP-AI-Security-Validation-main/validation/validator.py:208-225 | The batch method computes the batch results |
| Validator.SummaryBounds | NMAP-AI-Security-Validation-main/validation/validator.py:228-249 | The total is the batch size, valid and blocked results never overlap, and every high-risk result is valid |
| ValidationV2.EntriesAt | NMAP-AI-Security-Validation-main/validation/validation_v2.py:107-114 | One history entry per result, in order |
| ValidationV2.TaggingAt | NMAP-AI-Security-Validation-main/validation/validation_v2.py:78-83 | The results keep input order, and result i carries batch index i |
| ValidationV2.ExecutionNeedsConfig | NMAP-AI-Security-Validation-main/validation/validation_v2.py:41-51 | Without `enable_execution` the call behaves as if execution had not been asked for; a command runs only when it is enabled, asked for and valid |
| ValidationV2.StrictModeVerdict | NMAP-AI-Security-Validation-main/validation/validation_v2.py:53-63 | Strict mode blocks exactly the valid results that have warnings or high/critical risk; the JSON score exists exactly when asked for |
| ValidationV2.StrictModeAfterRun | NMAP-AI-Security-Validation-main/validation/validation_v2.py:45-58 | A command that strict mode blocks has already been run when execution was on |
| ValidationV2.DistributionCountsValid | NMAP-AI-Security-Validation-main/validation/validation_v2.py:88-94 | With the rules on and no strict mode, the risk distribution counts exactly the valid results |
| ValidationV2.LevelsPartition | NMAP-AI-Security-Validation-main/validation/validation_v2.py:89-94 | When exactly the valid results carry a level, the four level counts add up to the valid count |
| ValidationV2.StatisticsShape | NMAP-AI-Security-Validation-main/validation/validation_v2.py:116-135 | The statistics exist exactly for a non-empty history; valid plus blocked is the total, and the level counts never exceed it |
| ValidationV2.ValidationService.constructor | NMAP-AI-Security-Validation-main/validation/validation_v2.py:15-31 | A missing configuration falls back to the defaults, and the history starts empty |
| ValidationV2.ValidationService.ValidateSingle | NMAP-AI-Security-Validation-main/validation/validation_v2.py:33-69 | The result is the single-command specification; with logging on, the history grows by exactly its entry |
| ValidationV2.ValidationService.ValidateAndRun | NMAP-AI-Security-Validation-main/validation/validation_v2.py:41-51 | Validation, then a run only when execution is enabled, asked for and the command passed, as the execution specification says |
| ValidationV2.ValidationService.StrictCheck | NMAP-AI-Security-Validation-main/validation/validation_v2.py:53-58 | Strict mode turns a valid result with warnings or high/critical risk into a blocked one, as the strict-mode specification says |
| ValidationV2.ValidationService.LogValidation | NMAP-AI-Security-Validation-main/validation/validation_v2.py:107-114 | The history gains exactly one record, the entry for this result, at its end |
| ValidationV2.ValidationService.ValidateMultiple | NMAP-AI-Security-Validation-main/validation/validation_v2.py:71-105 | The report holds the results in order, the count, the summary and the distribution; each result is logged |
| ValidationV2.ValidationService.ValidateEach | NMAP-AI-Security-Validation-main/validation/validation_v2.py:78-83 | The loop yields the batch specification, each result tagged with its index, and logs one entry per result in order when logging is on |
| ValidationV2.ValidationService.ValidateNext | NMAP-AI-Security-Validation-main/validation/validation_v2.py:80-83 | One more command extends the results and the history exactly as the batch specification does |
| ValidationV2.BatchStep | NMAP-AI-Security-Validation-main/validation/validation_v2.py:78-83 | Appending the next tagged result gives the tagging of one more command, and one more history entry |
| ValidationV2.SingleLevelIffValid | NMAP-AI-Security-Validation-main/validation/validation_v2.py:88-94 | With the rules on and no strict mode, a single result carries a risk level exactly when it is valid |
| ValidationV2.ValidationService.GetStatistics | NMAP-AI-Security-Validation-main/validation/validation_v2.py:116-135 | No statistics for an empty history; otherwise blocked is the total minus the valid count |
| Scorer.AppendEach | NMAP-AI-Security-Validation-main/validation/json_scorer.py:35-67 | Each append loop adds one finding per element, in order |
| Scorer.ComplianceInfo | NMAP-AI-Security-Validation-main/validation/json_scorer.py:15-69 | The counters and lists of the compliance section |
| Scorer.Advisories | NMAP-AI-Security-Validation-main/validation/json_scorer.py:59-67 | The advisory block exists exactly when there are warnings, and lists one advisory per warning in order |
| Scorer.ComplianceShape | NMAP-AI-Security-Validation-main/validation/json_scorer.py:15-69 | Two checks are counted; the violations list the forbidden flags, then the unsafe targets, in order; advisories exist exactly when there are warnings |
| Scorer.CompliantIffNoFailure | NMAP-AI-Security-Validation-main/validation/json_scorer.py:26-56 | Compliant exactly when no check failed, and exactly when there is no violation |
| Scorer.SubScore | NMAP-AI-Security-Validation-main/validation/json_scorer.py:108-110 | A sub-score lies in 0..100, and with a positive weight it is 100 exactly when there is no item |
| Scorer.SubScoreWeighted | NMAP-AI-Security-Validation-main/validation/json_scorer.py:108-110 | With at least one item the sub-score is 100 minus weight times count, floored at 0 |
| Scorer.SubScoreMonotone | NMAP-AI-Security-Validation-main/validation/json_scorer.py:108-110 | More items never score higher |
| Scorer.ScoresOfEvaluation | NMAP-AI-Security-Validation-main/validation/json_scorer.py:71-112 | The overall score is the safety score `100 - risk`; each breakdown score is 100 exactly when its list is empty |
| Scorer.FlagNames | NMAP-AI-Security-Validation-main/validation/json_scorer.py:136-140 | The names of the forbidden flags, in order |
| Scorer.RecommendationShape | NMAP-AI-Security-Validation-main/validation/json_scorer.py:114-188 | A valid result gets the optional warnings advice and exactly one of risk mitigation or best practice; an invalid, unblocked one gets exactly the syntax advice |
| Scorer.BlockedGetsAdvice | NMAP-AI-Security-Validation-main/validation/json_scorer.py:126-150 | A blocked command gets at least one piece of advice, all of high priority |
| Scorer.BlockedAdvice | NMAP-AI-Security-Validation-main/validation/json_scorer.py:126-150 | A blocked response with a violation or an unsafe target gets at least one piece of advice, all high priority |
| Scorer.JsonScoreShape | NMAP-AI-Security-Validation-main/validation/json_scorer.py:190-281 | The analysis exists exactly with an evaluation; execution is performed exactly for a run, and succeeds exactly on return code 0; passed exactly when valid |
| Scorer.BlockedRiskAssessment | NMAP-AI-Security-Validation-main/validation/json_scorer.py:227-242 | A blocked command's assessment shows score 0 and no level, because the response keeps its score inside the evaluation |
| Scorer.AcceptedScore | NMAP-AI-Security-Validation-main/validation/json_scorer.py:227-242 | An accepted command is compliant, with its clamped score in the assessment |
| Simulator.FirstMatchFrom | NMAP-AI-Security-Validation-main/src/utils/execution_simulator.py:256-266 | The first table row, in order, whose pattern is found in the line |
| Simulator.RecordLine | NMAP-AI-Security-Validation-main/src/utils/execution_simulator.py:254-273 | A line is an error exactly when some row matches, built from the first such row; otherwise it is a warning exactly when it reads like one |
| Simulator.RowKinds | NMAP-AI-Security-Validation-main/src/utils/execution_simulator.py:36-69 | No row of the table yields a timeout or an unknown error |
| Simulator.ClassifiedSeverity | NMAP-AI-Security-Validation-main/src/utils/execution_simulator.py:275-294 | A classified line is critical exactly for permission and syntax errors, and high exactly for network, DNS and script errors |
| Simulator.ExitCodeErrors | NMAP-AI-Security-Validation-main/src/utils/execution_simulator.py:315-329 | One unknown, high-severity error exactly for exit codes 1, 2, 3 and 255 |
| Simulator.GenerateAlternativeCommand | NMAP-AI-Security-Validation-main/src/utils/execution_simulator.py:364-384 | The replacement loop computes the alternative command |
| Simulator.AlternativeDropsStealthFlag | NMAP-AI-Security-Validation-main/src/utils/execution_simulator.py:364-384 | For a permission issue, the first stealth flag present is gone from the alternative; otherwise the command is unchanged |
| Simulator.SuggestionFor | NMAP-AI-Security-Validation-main/src/utils/execution_simulator.py:333-362 | One suggestion for a suggestible error, pointing back at it, and none otherwise |
| Simulator.SuggestionsMatchErrors | NMAP-AI-Security-Validation-main/src/utils/execution_simulator.py:331-362 | The suggestions match the suggestible errors one for one |
| Simulator.BuildDockerCommand | NMAP-AI-Security-Validation-main/src/utils/execution_simulator.py:198-232 | The sandbox argv: the fixed base, the raw-socket capabilities only when root is needed, the scripts volume only with `--script`, then the image and the shell command |
| Simulator.Classify | NMAP-AI-Security-Validation-main/src/utils/execution_simulator.py:254-273 | The method's decision for one line is the line's record |
| Simulator.Suggest | NMAP-AI-Security-Validation-main/src/utils/execution_simulator.py:333-362 | The method adds the error's suggestion |
| Simulator.FindRow | NMAP-AI-Security-Validation-main/src/utils/execution_simulator.py:256-266 | The pattern loop finds the first matching row |
| Simulator.ExecutionResult.constructor | NMAP-AI-Security-Validation-main/src/utils/execution_simulator.py:93-115 | The report skeleton: not completed, no exit code, empty lists, zero metrics |
| Simulator.ExecutionResult.ParseRuntimeOutput | NMAP-AI-Security-Validation-main/src/utils/execution_simulator.py:234-252 | A stdout line updates only the metrics |
| Simulator.ExecutionResult.ParseErrorOutput | NMAP-AI-Security-Validation-main/src/utils/execution_simulator.py:254-273 | A stderr line appends its error or warning record, and nothing else |
| Simulator.ExecutionResult.ReadEvent | NMAP-AI-Security-Validation-main/src/utils/execution_simulator.py:153-162 | Each line of the reading loop goes to the parser of its stream |
| Simulator.ExecutionResult.ReadLoop | NMAP-AI-Security-Validation-main/src/utils/execution_simulator.py:138-164 | After the loop the report holds the skeleton plus the records of every line read, in order, and the kept lines of each stream are exactly that stream's lines |
| Simulator.ExecutionResult.ReadNext | NMAP-AI-Security-Validation-main/src/utils/execution_simulator.py:153-162 | One more line read extends the report and the kept lines exactly as the loop specification does for one more event |
| Simulator.ExecutionResult.Finish | NMAP-AI-Security-Validation-main/src/utils/execution_simulator.py:140-178 | A timeout adds its critical record and nothing else; the stored execution is completed, with the exit code and the joined output |
| Simulator.ExecutionResult.RecordCrash | NMAP-AI-Security-Validation-main/src/utils/execution_simulator.py:185-193 | An exception adds one critical unknown-error record and marks the run incomplete, keeping the earlier records |
| Simulator.ExecutionResult.InterpretExitCode | NMAP-AI-Security-Validation-main/src/utils/execution_simulator.py:315-329 | Appends exactly the exit code's errors |
| Simulator.ExecutionResult.GenerateSuggestions | NMAP-AI-Security-Validation-main/src/utils/execution_simulator.py:331-362 | Appends one suggestion per suggestible error |
| Simulator.SimulateExecution | NMAP-AI-Security-Validation-main/src/utils/execution_simulator.py:79-196 | The report of a given run: the lines read in the loop are parsed as they arrive, then the ending is handled |
| Simulator.LoopRecords | NMAP-AI-Security-Validation-main/src/utils/execution_simulator.py:138-164 | One error per matched stderr line, never a timeout or unknown; one warning per warning-like line; one count per host-up, open-port and service line |
| Simulator.RaisedRun | NMAP-AI-Security-Validation-main/src/utils/execution_simulator.py:186-194 | An exception leaves the run incomplete, with no exit code or suggestions, and a critical unknown error last |
| Simulator.FinishedRun | NMAP-AI-Security-Validation-main/src/utils/execution_simulator.py:138-184 | A finished run completes with its exit code; its errors are the matched lines, plus one for a timeout and one for a known exit code |
| Simulator.CleanRun | NMAP-AI-Security-Validation-main/src/utils/execution_simulator.py:79-196 | A clean exit with no matched stderr line gives no error and no suggestion |
| Corrections.MappingsPaired | NMAP-AI-Security-Validation-main/src/utils/agents/error_mapping_logic.py:47-169 | Every mapping carries the parameters its correction kind needs |
| Corrections.ApplyReplacements | NMAP-AI-Security-Validation-main/src/utils/agents/error_mapping_logic.py:276-287 | The replacement loop computes the rewritten command and its changes |
| Corrections.StealthReplacement | NMAP-AI-Security-Validation-main/src/utils/agents/error_mapping_logic.py:276-287 | The first stealth flag present loses every occurrence and one change is recorded; with none present nothing changes |
| Corrections.AddFlagWithoutNmap | NMAP-AI-Security-Validation-main/src/utils/agents/error_mapping_logic.py:233-237 | Without the flag the change is reported even when there is no `nmap` to extend, and the command stays as it was |
| Corrections.AddFlagAfterProgram | NMAP-AI-Security-Validation-main/src/utils/agents/error_mapping_logic.py:233-237 | With `nmap` only at the front, the flag lands right after the program name |
| Corrections.RemoveEach | NMAP-AI-Security-Validation-main/src/utils/agents/error_mapping_logic.py:239-245 | The removal loop computes the rewritten command and its changes |
| Corrections.RemovalSwallowsNextToken | NMAP-AI-Security-Validation-main/src/utils/agents/error_mapping_logic.py:243 | When the flag is followed by one blank and a non-blank token running to the end, the removal match runs to the end of the command, so a trailing target is removed too |
| Corrections.AdjustTimingOf | NMAP-AI-Security-Validation-main/src/utils/agents/error_mapping_logic.py:289-306 | The timing loop computes the rewritten command and its change |
| Corrections.TimingStepsDown | NMAP-AI-Security-Validation-main/src/utils/agents/error_mapping_logic.py:289-306 | With the timeout mapping's three steps: the first of `-T5`, `-T4`, `-T3` present is replaced everywhere by the template one lower and is then gone, with the "Adjusted timing from … to …" change; a command with only `-T0` to `-T2` is left alone; with no timing template at all, the default `-T3` is added after every `nmap` |
| Corrections.PortSpecAt | NMAP-AI-Security-Validation-main/src/utils/agents/error_mapping_logic.py:314 | A matched port specification is never empty |
| Corrections.LeadingRangeDigits | NMAP-AI-Security-Validation-main/src/utils/agents/error_mapping_logic.py:322 | A leading range has two non-empty digit groups |
| Corrections.LeadingRangeAt | NMAP-AI-Security-Validation-main/src/utils/agents/error_mapping_logic.py:322 | The two groups are the two whole digit runs around the dash |
| Corrections.RangeReadsBack | NMAP-AI-Security-Validation-main/src/utils/agents/error_mapping_logic.py:322-326 | Two digit runs joined by `-` read back as their values |
| Corrections.SwappedAscends | NMAP-AI-Security-Validation-main/src/utils/agents/error_mapping_logic.py:321-327 | A reversed range, once swapped, reads back ascending and holds no `;` |
| Corrections.PortFixNeedsSpec | NMAP-AI-Security-Validation-main/src/utils/agents/error_mapping_logic.py:308-338 | Without a `-p <spec>`, the command and the change list stay as they are |
| Corrections.FirstProblem | NMAP-AI-Security-Validation-main/src/utils/agents/error_mapping_logic.py:351-361 | The first problem script, in table order, that occurs in the script argument |
| Corrections.AlternativeReportsUnappliedChange | NMAP-AI-Security-Validation-main/src/utils/agents/error_mapping_logic.py:340-363 | When `--script <arg>` is not literally present, the command stays as it was even though a change is reported |
| Corrections.Simplify | NMAP-AI-Security-Validation-main/src/utils/agents/error_mapping_logic.py:365-403 | The method computes the simplified command and its changes |
| Corrections.SimplifiedHasNoT5 | NMAP-AI-Security-Validation-main/src/utils/agents/error_mapping_logic.py:365-403 | A simplified command never holds `-T5` |
| Corrections.TimingStepClearsT5 | NMAP-AI-Security-Validation-main/src/utils/agents/error_mapping_logic.py:395-401 | The timing step leaves no `-T5` behind |
| Corrections.CorrectionFor | NMAP-AI-Security-Validation-main/src/utils/agents/error_mapping_logic.py:218-274 | A correction has the mapping's kind and the original command |
| Corrections.GeneralSyntaxUnchanged | NMAP-AI-Security-Validation-main/src/utils/agents/error_mapping_logic.py:255-259 | The general-syntax mapping returns the command unchanged, with no change |
| Corrections.GenerateCorrection | NMAP-AI-Security-Validation-main/src/utils/agents/error_mapping_logic.py:218-274 | The method computes the mapping's correction |
| Corrections.FirstMappingFrom | NMAP-AI-Security-Validation-main/src/utils/agents/error_mapping_logic.py:189-203 | The first mapping in table order that applies to the error |
| Corrections.FindMapping | NMAP-AI-Security-Validation-main/src/utils/agents/error_mapping_logic.py:189-203 | The mapping loop finds the first applicable mapping |
| Corrections.OnePerError | NMAP-AI-Security-Validation-main/src/utils/agents/error_mapping_logic.py:185-203 | Each error yields at most one correction, made from the first applicable mapping, with that mapping's confidence |
| Corrections.InsertByConfidence | NMAP-AI-Security-Validation-main/src/utils/agents/error_mapping_logic.py:206 | Insertion adds exactly the new element |
| Corrections.Ranked | NMAP-AI-Security-Validation-main/src/utils/agents/error_mapping_logic.py:206 | Ranking keeps every correction |
| Corrections.InsertDescending | NMAP-AI-Security-Validation-main/src/utils/agents/error_mapping_logic.py:206 | Insertion keeps the list in descending confidence |
| Corrections.InsertFilter | NMAP-AI-Security-Validation-main/src/utils/agents/error_mapping_logic.py:206 | The inserted element goes after every element of the same confidence |
| Corrections.RankedIsStableSort | NMAP-AI-Security-Validation-main/src/utils/agents/error_mapping_logic.py:206 | Ranking sorts by descending confidence, is a permutation, and is stable |
| Corrections.BestCorrection | NMAP-AI-Security-Validation-main/src/utils/agents/error_mapping_logic.py:405-411 | Nothing for an empty list, else the head |
| Corrections.BestIsMostConfident | NMAP-AI-Security-Validation-main/src/utils/agents/error_mapping_logic.py:405-411 | The head of a ranked list has the highest confidence of all |
| Corrections.CorrectError | NMAP-AI-Security-Validation-main/src/utils/agents/error_mapping_logic.py:190-203 | The per-error body adds the first applicable mapping's correction, if any |
| Corrections.CollectCorrections | NMAP-AI-Security-Validation-main/src/utils/agents/error_mapping_logic.py:185-204 | The loop over the errors collects their corrections, in order |
| Corrections.ErrorAnalyzer.constructor | NMAP-AI-Security-Validation-main/src/utils/agents/error_mapping_logic.py:43-45 | The analyzer starts with the mapping table and an empty history |
| Corrections.ErrorAnalyzer.AnalyzeErrors | NMAP-AI-Security-Validation-main/src/utils/agents/error_mapping_logic.py:171-216 | The corrections are the collected ones, ranked, and the call adds exactly one history entry |
| SelfCorrection.FixFor | NMAP-AI-Security-Validation-main/src/utils/agents/self_correction_agent.py:76-128 | A fix exists exactly for the four table keys |
| SelfCorrection.RepairOf | NMAP-AI-Security-Validation-main/src/utils/agents/self_correction_agent.py:136-206 | No repair for an unknown type; a repair keeps the type and changes the command or records a change |
| SelfCorrection.AttemptAutonomousRepair | NMAP-AI-Security-Validation-main/src/utils/agents/self_correction_agent.py:136-206 | The fix loop computes the repair |
| SelfCorrection.RunFixes | NMAP-AI-Security-Validation-main/src/utils/agents/self_correction_agent.py:159-181 | The loop applies each pattern of the fix to the output of the one before, collecting the change notes, as the fix specification says |
| SelfCorrection.ScriptPass | NMAP-AI-Security-Validation-main/src/utils/agents/self_correction_agent.py:183-194 | Only the first listed dangerous script found is replaced, once, with its note |
| SelfCorrection.SubAllLiteral | NMAP-AI-Security-Validation-main/src/utils/agents/self_correction_agent.py:171-179 | A literal substitution is a global replace, and it matches exactly when the text is present |
| SelfCorrection.OnlyPermissionIsReachable | NMAP-AI-Security-Validation-main/src/utils/agents/self_correction_agent.py:76-127 | Of the fix keys, only `permission_denied` is an error type a report carries |
| SelfCorrection.PermissionAlwaysRepaired | NMAP-AI-Security-Validation-main/src/utils/agents/self_correction_agent.py:160-181 | A permission error is always repaired: both reasons are recorded and no `-sS` or `-sA` is left |
| SelfCorrection.PortRangeRepair | NMAP-AI-Security-Validation-main/src/utils/agents/self_correction_agent.py:96-181 | The guarded range fix acts only when the first range is reversed, then swaps every range and records one reason |
| SelfCorrection.UnguardedAlwaysRepaired | NMAP-AI-Security-Validation-main/src/utils/agents/self_correction_agent.py:160-181 | The script and timing fixes always report a repair, led by their own reason |
| SelfCorrection.NoCriticalErrors | NMAP-AI-Security-Validation-main/src/utils/agents/self_correction_agent.py:384-404 | There is no critical error exactly when no error has critical severity |
| SelfCorrection.SuccessMeans | NMAP-AI-Security-Validation-main/src/utils/agents/self_correction_agent.py:384-404 | A run passes exactly when no error is critical, the exit code is 0 and the run completed |
| SelfCorrection.TypesOf | NMAP-AI-Security-Validation-main/src/utils/agents/self_correction_agent.py:426-429 | The type name of each error, in order |
| SelfCorrection.FrequentTypesMeans | NMAP-AI-Security-Validation-main/src/utils/agents/self_correction_agent.py:421-434 | A type is listed exactly when it occurs at least the threshold times, and is listed once |
| SelfCorrection.PersistentMeans | NMAP-AI-Security-Validation-main/src/utils/agents/self_correction_agent.py:421-434 | A type is persistent exactly when it occurs at least once per attempt, and is listed once |
| SelfCorrection.UpstreamTypePrecedence | NMAP-AI-Security-Validation-main/src/utils/agents/self_correction_agent.py:406-471 | The feedback type is the last rule that applies, and there is one recommendation per applicable rule |
| SelfCorrection.PersistentIssues | NMAP-AI-Security-Validation-main/src/utils/agents/self_correction_agent.py:501-512 | The last attempt's remaining errors, one issue each; none without attempts |
| SelfCorrection.TypesOfMeans | NMAP-AI-Security-Validation-main/src/utils/agents/self_correction_agent.py:426-429 | A kind's name is among the type names exactly when an error of that kind is present |
| SelfCorrection.AllErrorTypesMeans | NMAP-AI-Security-Validation-main/src/utils/agents/self_correction_agent.py:514-531 | A kind's name is among the attempts' types exactly when some attempt met that kind |
| SelfCorrection.FinalActionPrecedence | NMAP-AI-Security-Validation-main/src/utils/agents/self_correction_agent.py:514-531 | The final advice asks for privileges exactly when a permission error was met; otherwise the network advice, then the syntax advice |
| SelfCorrection.FinalFeedback | NMAP-AI-Security-Validation-main/src/utils/agents/self_correction_agent.py:473-499 | A success summary exactly for a successful session, with its changes and final command; otherwise the persistent issues |
| SelfCorrection.Record | NMAP-AI-Security-Validation-main/src/utils/agents/self_correction_agent.py:223-375 | Recording an attempt appends it, keeps the feedback and the origin, and marks success once any attempt succeeded |
| SelfCorrection.WithFeedback | NMAP-AI-Security-Validation-main/src/utils/agents/self_correction_agent.py:223-375 | Adding feedback appends it and changes nothing else |
| SelfCorrection.AfterTest | NMAP-AI-Security-Validation-main/src/utils/agents/self_correction_agent.py:339-356 | Testing the best correction is one pass that keeps the session's origin |
| SelfCorrection.Continued | NMAP-AI-Security-Validation-main/src/utils/agents/self_correction_agent.py:355-364 | A pass that goes on records the attempt and does not stop |
| SelfCorrection.AfterAnalysis | NMAP-AI-Security-Validation-main/src/utils/agents/self_correction_agent.py:314-364 | After the analysis: stop without corrections, else test the best one |
| SelfCorrection.Iteration | NMAP-AI-Security-Validation-main/src/utils/agents/self_correction_agent.py:294-364 | One pass adds one attempt, which starts from the previous attempt's corrected command (the original on the first pass) |
| SelfCorrection.IterateBounds | NMAP-AI-Security-Validation-main/src/utils/agents/self_correction_agent.py:289-364 | The loop keeps the attempts it starts with and adds at most one attempt and one analysis per remaining pass |
| SelfCorrection.SessionShape | NMAP-AI-Security-Validation-main/src/utils/agents/self_correction_agent.py:208-375 | At most `max_attempts + 1` attempts and `max_attempts` analyses; a failed session ends with its final summary |
| SelfCorrection.AutonomousSuccess | NMAP-AI-Security-Validation-main/src/utils/agents/self_correction_agent.py:238-279 | A passing autonomous repair gives a one-attempt autonomous success, and the loop never runs |
| SelfCorrection.AutonomousFailure | NMAP-AI-Security-Validation-main/src/utils/agents/self_correction_agent.py:280-299 | A failing repair stays as a failed first attempt, and the loop starts from the repaired command |
| SelfCorrection.LoopAfterPhase | NMAP-AI-Security-Validation-main/src/utils/agents/self_correction_agent.py:286-303 | The loop's first attempt is numbered 1, names the original command and runs the phase's command |
| SelfCorrection.NoAutonomousPhase | NMAP-AI-Security-Validation-main/src/utils/agents/self_correction_agent.py:237-245 | Without `Repairable`, or with no first errors, the loop starts from the command itself |
| SelfCorrection.StopsWithoutCorrections | NMAP-AI-Security-Validation-main/src/utils/agents/self_correction_agent.py:316-327 | A failing pass with no corrections stops with `no_corrections_available` feedback |
| SelfCorrection.GenerateReport | NMAP-AI-Security-Validation-main/src/utils/agents/self_correction_agent.py:533-582 | One detail per attempt, in order |
| SelfCorrection.ImprovementBounds | NMAP-AI-Security-Validation-main/src/utils/agents/self_correction_agent.py:566-580 | Never more errors fixed than the first attempt had; a success fixed all of them |
| SelfCorrection.ReportHasNoRepairType | NMAP-AI-Security-Validation-main/src/utils/agents/self_correction_agent.py:555-564 | A session from the agent never reports a repair type |
| SelfCorrection.AutonomousRepairPhase | NMAP-AI-Security-Validation-main/src/utils/agents/self_correction_agent.py:237-285 | The method computes the autonomous phase |
| SelfCorrection.SelfCorrectionAgent.constructor | NMAP-AI-Security-Validation-main/src/utils/agents/self_correction_agent.py:130-134 | A fresh analyzer with the mapping table and no sessions |
| SelfCorrection.SelfCorrectionAgent.RunIteration | NMAP-AI-Security-Validation-main/src/utils/agents/self_correction_agent.py:289-364 | One pass of the loop, whose analysis is logged by the analyzer |
| SelfCorrection.SelfCorrectionAgent.TryBest | NMAP-AI-Security-Validation-main/src/utils/agents/self_correction_agent.py:314-364 | With no correction the loop stops; otherwise the best correction is tried and the pass ends as the iteration specification says, keeping the analyses |
| SelfCorrection.SelfCorrectionAgent.RunLoop | NMAP-AI-Security-Validation-main/src/utils/agents/self_correction_agent.py:289-364 | The loop runs passes from 1 up to the attempt limit and stops at the first pass that says so; the analyzer's log grows by exactly the analyses the passes asked for |
| SelfCorrection.SelfCorrectionAgent.CorrectCommand | NMAP-AI-Security-Validation-main/src/utils/agents/self_correction_agent.py:208-375 | The session is returned and appended to the history; the analyzer logs each analysis |
| Orchestrator.LevelIndex | nmap-ai/nmap-ai/backend/app/orchestrator/engine.py:76-77 | A level's index is its place in the tier chain |
| Orchestrator.GeneratedFallsThrough | nmap-ai/nmap-ai/backend/app/orchestrator/engine.py:180-208 | Generation succeeds with the first tier that answers, logging one failure per earlier tier; it fails only when every tier up to hard failed |
| Orchestrator.TierBound | nmap-ai/nmap-ai/backend/app/orchestrator/engine.py:106-167 | A tier calls the validator at most `MAX_CORRECTIONS + 1` times, and an accepted candidate was validated as valid |
| Orchestrator.TiersInChainOrder | nmap-ai/nmap-ai/backend/app/orchestrator/engine.py:76-83 | The tiers are entered in chain order from the first one, each at most once |
| Orchestrator.HandledOutcome | nmap-ai/nmap-ai/backend/app/orchestrator/engine.py:49-175 | A request not about nmap is refused with 400 before any generator runs; a decision carries a validated command and its score; 503 only when hard generation fails |
| Orchestrator.EscalateOutcome | nmap-ai/nmap-ai/backend/app/orchestrator/engine.py:82-175 | Escalation ends in a validated decision, 503 when hard generation fails, or 500 after a logged pipeline failure |
| Orchestrator.Orchestrator.constructor | nmap-ai/nmap-ai/backend/app/orchestrator/engine.py:42-44 | The dependencies, the correction bound and the existing log are kept |
| Orchestrator.Orchestrator.Generate | nmap-ai/nmap-ai/backend/app/orchestrator/engine.py:180-208 | The fall-through loop computes the generation and its log |
| Orchestrator.Orchestrator.RunTier | nmap-ai/nmap-ai/backend/app/orchestrator/engine.py:106-167 | The attempt loop computes the tier's end and its log |
| Orchestrator.Orchestrator.EnterTier | nmap-ai/nmap-ai/backend/app/orchestrator/engine.py:82-167 | One tier, generation then attempts |
| Orchestrator.Orchestrator.Escalation | nmap-ai/nmap-ai/backend/app/orchestrator/engine.py:82-175 | The tier loop computes the outcome and its log |
| Orchestrator.Orchestrator.Handle | nmap-ai/nmap-ai/backend/app/orchestrator/engine.py:49-175 | The request's outcome and its log |
| Classify.IsNmapRelated | nmap-ai/nmap-ai/backend/app/orchestrator/classify.py:9-17 | The reason text matches the verdict |
| Classify.BaselineComplexity | nmap-ai/nmap-ai/backend/app/orchestrator/classify.py:19-34 | Hard goes with 70, medium with 60 and easy with 80 |
| Classify.LowerHasNoUpper | nmap-ai/nmap-ai/backend/app/orchestrator/classify.py:14 | Lower-cased text never contains a pattern with an upper-case letter |
| Classify.NmapHintsThatMatch | nmap-ai/nmap-ai/backend/app/orchestrator/classify.py:5-17 | A request is about nmap exactly when one of the eight lower-case hints occurs |
| Classify.MediumNeedsLowerCaseKeyword | nmap-ai/nmap-ai/backend/app/orchestrator/classify.py:26-34 | Medium exactly when no hard keyword and one of the four lower-case medium keywords occurs |
| Classify.UdpIsHard | nmap-ai/nmap-ai/backend/app/orchestrator/classify.py:28-29 | A request naming UDP is always hard |
| Routes.IssuesOfAt | NMAP-AI-Security-Validation-main/api/routes.py:79-141 | One issue per text, in order |
| Routes.ConvertToValidationResult | NMAP-AI-Security-Validation-main/api/routes.py:79-141 | The conversion loop computes the converted result |
| Routes.StatusMeaning | NMAP-AI-Security-Validation-main/api/routes.py:79-141 | Invalid exactly for invalid results; warning exactly for valid ones at high or critical risk |
| Routes.IssuesMeaning | NMAP-AI-Security-Validation-main/api/routes.py:79-141 | A block gives one issue per security issue; any other invalid result gives one syntax issue; a valid one gives none |
| Routes.EngineIssues | NMAP-AI-Security-Validation-main/api/routes.py:79-141 | For a block by the risk engine, the forbidden flags come first as critical issues, and no issue is a `validation_error` |
| Routes.ValidatorIssues | NMAP-AI-Security-Validation-main/api/routes.py:79-141 | The same for the validator's own results, plus the exact syntax issue of a structural rejection |
| Routes.ValidatorRisk | NMAP-AI-Security-Validation-main/api/routes.py:79-141 | Default risk fields for a structural rejection, else the risk engine's; an accepted one's score is within 0..100 |
| Routes.PrepareFeedback | NMAP-AI-Security-Validation-main/api/routes.py:152-165 | Nothing without feedback, else the last record, with retry asked for |
| Routes.NoRepairType | NMAP-AI-Security-Validation-main/api/routes.py:168-172 | A session from the agent never yields a repair type |
| Routes.ExtractAllChanges | NMAP-AI-Security-Validation-main/api/routes.py:144-149 | The loop concatenates the attempts' changes |
| Routes.ChangesConcatenate | NMAP-AI-Security-Validation-main/api/routes.py:144-149 | The changes of two runs of attempts are the changes of each, in order |
| Routes.RepairOutcome | NMAP-AI-Security-Validation-main/api/routes.py:294-369 | A success names the last attempt's command, its agent and full confidence; a failure names no command and carries the final summary |
| Routes.Repair | NMAP-AI-Security-Validation-main/api/routes.py:254-369 | One session on the agent, recorded in its history, and the response built from it |
| Routes.FlagCount | NMAP-AI-Security-Validation-main/api/routes.py:397-398 | The flag count never exceeds the token count |
| Routes.LegacyNeverSyn | NMAP-AI-Security-Validation-main/api/routes.py:392-443 | The legacy repair never leaves a SYN scan, and it changes the command only for a privilege issue |
| Routes.LegacyGeneratorChoice | NMAP-AI-Security-Validation-main/api/routes.py:392-443 | High or critical risk, or a complexity of 5 or more, selects the small model; a one-token command at lower risk keeps diffusion |
| Routes.LegacyPreviousAgent | NMAP-AI-Security-Validation-main/api/routes.py:392-443 | The candidate's context wins over the query's metadata; with neither, the previous agent is diffusion |
| Routes.GetRepairSession | NMAP-AI-Security-Validation-main/api/routes.py:450-464 | The lookup loop computes the lookup |
| Routes.FindSessionMeans | NMAP-AI-Security-Validation-main/api/routes.py:450-464 | A lookup finds exactly the stored ids, then the first session stored under it; any other id is a 404 |
| Routes.CountSessions | NMAP-AI-Security-Validation-main/api/routes.py:467-506 | A count never exceeds the number of sessions |
| Routes.AutonomousMeansSuccess | NMAP-AI-Security-Validation-main/api/routes.py:467-506 | An autonomous repair is recorded only when it succeeded |
| Routes.RepairCountsPartition | NMAP-AI-Security-Validation-main/api/routes.py:467-506 | The autonomous, iterative and failed counts partition the sessions |
| Routes.RecentSessionsShape | NMAP-AI-Security-Validation-main/api/routes.py:535-559 | The last `limit` sessions, or all of them when the limit is not positive or too large, summarised in order |
| SyntaxCheck.QuadStartIsTarget | NMAP-AI-Security-Validation-main/src/utils/syntax_checker.py:20-21 | A dotted quad always matches the word-dot-word alternative |
| SyntaxCheck.FirstForbidden | NMAP-AI-Security-Validation-main/src/utils/syntax_checker.py:28-34 | The first forbidden substring in list order that is present |
| SyntaxCheck.CheckSyntaxV1 | NMAP-AI-Security-Validation-main/src/utils/syntax_checker.py:3-40 | The step-by-step check computes the result |
| SyntaxCheck.BlankRejected | NMAP-AI-Security-Validation-main/src/utils/syntax_checker.py:13-16 | Blank input is rejected at once, with no details |
| SyntaxCheck.ValidIff | NMAP-AI-Security-Validation-main/src/utils/syntax_checker.py:3-40 | Valid exactly when non-blank, with a target and no forbidden substring; then the success message and no details |
| SyntaxCheck.LastErrorWins | NMAP-AI-Security-Validation-main/src/utils/syntax_checker.py:18-40 | A forbidden substring overwrites the missing-target message, and the details keep both notes in order |
| SyntaxCheck.ExcludeIsForbidden | NMAP-AI-Security-Validation-main/src/utils/syntax_checker.py:28-34 | Any command using `--exclude` is rejected, because `-e` matches inside it |
| RagAgent.FirstScanGroup | test_project_Nmap/app/agents/rag_agent_api.py:143-163 | The first keyword group with a keyword in the request |
| RagAgent.ScanTypeFirstHit | test_project_Nmap/app/agents/rag_agent_api.py:143-163 | The scan type is the flag of the earliest group with a hit |
| RagAgent.ScanTypeDefault | test_project_Nmap/app/agents/rag_agent_api.py:143-163 | With no keyword of any group, the scan is a SYN scan |
| RagAgent.ScanTypeFromTable | test_project_Nmap/app/agents/rag_agent_api.py:143-163 | The scan type is always one of the table's flags |
| RagAgent.UdpAlwaysWins | test_project_Nmap/app/agents/rag_agent_api.py:143-163 | A request naming UDP always gets a UDP scan |
| RagAgent.HostDiscoveryNeverPings | test_project_Nmap/app/agents/rag_agent_api.py:143-163 | "host discovery" is claimed by the OS group (via "os" in "host") and never gives a ping scan |
| RagAgent.RunAt | test_project_Nmap/app/agents/rag_agent_api.py:165-179 | The maximal run of matching characters |
| RagAgent.RunAtExact | test_project_Nmap/app/agents/rag_agent_api.py:165-179 | A run that ends exactly at length n measures n |
| RagAgent.Octets | test_project_Nmap/app/agents/rag_agent_api.py:168 | The repeated octet group starts with a digit and ends after a dot |
| RagAgent.DashDigits | test_project_Nmap/app/agents/rag_agent_api.py:168 | The range suffix ends at a word boundary |
| RagAgent.DashEnd | test_project_Nmap/app/agents/rag_agent_api.py:168 | The optional range suffix ends at a word boundary |
| RagAgent.SlashDigits | test_project_Nmap/app/agents/rag_agent_api.py:168 | The prefix-length digits end at a word boundary |
| RagAgent.SlashEnd | test_project_Nmap/app/agents/rag_agent_api.py:168 | The optional prefix length and range end at a word boundary |
| RagAgent.LastOctet | test_project_Nmap/app/agents/rag_agent_api.py:168 | The last octet and its suffixes end at a word boundary |
| RagAgent.IpAt | test_project_Nmap/app/agents/rag_agent_api.py:168 | An address match starts at a word boundary on a digit and ends at a word boundary |
| RagAgent.LabelEnds | test_project_Nmap/app/agents/rag_agent_api.py:174 | A label starts with a letter or digit and ends with a dot |
| RagAgent.InnerEnds | test_project_Nmap/app/agents/rag_agent_api.py:174 | Each label end with a middle part follows a dot |
| RagAgent.TldEnd | test_project_Nmap/app/agents/rag_agent_api.py:174 | The top-level domain has at least two letters and ends at a word boundary |
| RagAgent.DomainFrom | test_project_Nmap/app/agents/rag_agent_api.py:174 | A domain match starts with a letter or digit and ends at a word boundary |
| RagAgent.TryLabels | test_project_Nmap/app/agents/rag_agent_api.py:174 | The label backtracking ends at a word boundary |
| RagAgent.DomainAt | test_project_Nmap/app/agents/rag_agent_api.py:174 | A domain match starts at a word boundary and ends at one |
| RagAgent.FirstMatch | test_project_Nmap/app/agents/rag_agent_api.py:169 | The leftmost position where the matcher succeeds, with no success before it |
| RagAgent.ExtractTarget | test_project_Nmap/app/agents/rag_agent_api.py:165-179 | The target is the default host or starts with a letter or digit, so it is never taken for a flag |
| RagAgent.NoDotDefaultTarget | test_project_Nmap/app/agents/rag_agent_api.py:165-179 | A request without a dot always targets the default host |
| RagAgent.StandaloneQuadExtracted | test_project_Nmap/app/agents/rag_agent_api.py:165-171 | A standalone dotted quad (no prefix length or range after it) is matched whole by the address pattern |
| RagAgent.FirstAddressExtracted | test_project_Nmap/app/agents/rag_agent_api.py:165-171 | The first address-like match in the request is the extracted target |
| RagAgent.DropSpaces | test_project_Nmap/app/agents/rag_agent_api.py:185-186 | Dropping spaces never lengthens the text |
| RagAgent.DropSpacesKeeps | test_project_Nmap/app/agents/rag_agent_api.py:185-186 | Dropping spaces keeps every other character and a non-blank head |
| RagAgent.AfterPortWord | test_project_Nmap/app/agents/rag_agent_api.py:184-186 | The port numbers start after `port` or `ports` and the spaces |
| RagAgent.RangeEnd | test_project_Nmap/app/agents/rag_agent_api.py:185 | A range starts on a digit and holds only digits, dashes and spaces |
| RagAgent.SepDigits | test_project_Nmap/app/agents/rag_agent_api.py:186 | A port list holds only digits, commas and spaces |
| RagAgent.SinglePortWellFormed | test_project_Nmap/app/agents/rag_agent_api.py:184 | A single port gives a well-formed `-p` specification |
| RagAgent.PortRangeWellFormed | test_project_Nmap/app/agents/rag_agent_api.py:185 | A range gives a well-formed `-p` specification |
| RagAgent.PortListWellFormed | test_project_Nmap/app/agents/rag_agent_api.py:186 | A list gives a well-formed `-p` specification |
| RagAgent.FromToWellFormed | test_project_Nmap/app/agents/rag_agent_api.py:187 | A "de … à …" range gives a well-formed `-p` specification |
| RagAgent.PortsWellFormed | test_project_Nmap/app/agents/rag_agent_api.py:181-205 | The ports are `--top-ports 100`, `-p-`, `-F`, or `-p ` followed by digits, commas and dashes only |
| RagAgent.SinglePortShadowsRange | test_project_Nmap/app/agents/rag_agent_api.py:183-193 | "port a-b" yields `-p a`: the single-port pattern is tried first |
| RagAgent.ExtractOptions | test_project_Nmap/app/agents/rag_agent_api.py:207-229 | The table loop computes the selected option set |
| RagAgent.ChosenAt | test_project_Nmap/app/agents/rag_agent_api.py:223-227 | A table option is chosen exactly when a keyword hits and it is not made redundant |
| RagAgent.ChosenOnlyTable | test_project_Nmap/app/agents/rag_agent_api.py:223-227 | Only table options are ever chosen |
| RagAgent.OptionSelected | test_project_Nmap/app/agents/rag_agent_api.py:207-229 | An option is selected exactly when a keyword hits, except `-sV`, `-O` and `-sC` for an aggressive scan |
| RagAgent.AggressiveDropsRedundant | test_project_Nmap/app/agents/rag_agent_api.py:226 | An aggressive scan never adds the options it implies |
| RagAgent.AppendNewMeans | test_project_Nmap/app/agents/rag_agent_api.py:258-260 | The original parts come first, every option ends up present, nothing else is added, and no added part repeats an earlier one |
| RagAgent.BuildFinalCommand | test_project_Nmap/app/agents/rag_agent_api.py:250-286 | The command is the parts joined with spaces |
| RagAgent.CommandShape | test_project_Nmap/app/agents/rag_agent_api.py:250-286 | `nmap`, the scan type, the new options, one timing flag, the ports, the scripts unless aggressive, and the target last |
| RagAgent.ImpliedOptionsAbsent | test_project_Nmap/app/agents/rag_agent_api.py:255-260 | An aggressive command lists none of the options it implies, given options outside that set |
| RagAgent.GenerateWarnings | test_project_Nmap/app/agents/rag_agent_api.py:307-324 | The warnings are appended one check at a time |
| RagAgent.WarningsMeaning | test_project_Nmap/app/agents/rag_agent_api.py:307-324 | Each warning is present exactly when its condition holds, and none repeats |
| RagAgent.WarningsAsCalled | test_project_Nmap/app/agents/rag_agent_api.py:98-102 | As called, the warnings never include the aggressive-timing one, because no request text is passed |
| RagAgent.UdpWithoutPortsWarnings | test_project_Nmap/app/agents/rag_agent_api.py:312-318 | A UDP scan without ports gets both UDP warnings and the privilege warning |
| RagAgent.RequestCommandShape | test_project_Nmap/app/agents/rag_agent_api.py:63-86 | For any order of the option set, the command has exactly one timing flag; an aggressive scan gets `-T4` and none of the options it implies |

## Left out

- Real process execution: the Docker/subprocess loop, `communicate` and wall-clock timing. A run is given as a trace of stdout/stderr lines plus how it ended. `execute_real` and `execute_sandbox.py` are not part of this model.
- Docker's own behaviour and the "Nmap done" summary line of the complete-output analysis are not modelled.
- Floating point:
  - confidences and compliance scores;
  - `_calculate_confidence` and `_calculate_duration`;
  - `scan_time`;
  - pass and success rates.
  Mapping confidences are integer hundredths. Validator scores are carried through as given.
- Timestamps, session identifiers built from the clock, and uuids. A stored session is a pair of an id and a session.
- HTTP and FastAPI plumbing: route decorators, `HTTPException`, the health, validate, batch, security-rules and autonomous-fixes endpoints, and the HTTP clients. A refusal is modelled as its status code.
- Logging and output sinks: the MCP file sink (its events are a log sequence), `print` and debug output, JSON export and demos.
- Neo4j access: `_query_kg`, `check_connection`, `_extract_scripts` (the scripts are a parameter), `_generate_rationale`, the async `generate_command` wrapper with its exception fallback, and `close`.
- Concurrency and async/await: the pipeline is modelled sequentially.
- The generators, validator and self-corrector of the orchestrator are parameters. Their exceptions are modelled as absent results.
- The order of `list(set(options))` is unspecified. The options arrive as a set, and any enumeration of it is allowed.
- Configuration and environment reads, such as `MAX_CORRECTIONS`: these are parameters.
- The `generate_report` of the correction engine, `run_validation.py` and the demo modules.
- Character classes and lower-casing cover ASCII only. Python's Unicode `\d`, `\w` and `str.lower` are not modelled beyond ASCII.
- Custom unsafe ranges in netmask, hostmask or IPv6 notation are treated as malformed.
- The legacy repair's `request.issues` objects are reduced to their messages, and its user and context fields are dropped.
- `simulate_only` in the repair request is ignored, as in the source.
- A run's report is a function of the command (`exec: string -> Report`): the agent and the routes get the same report each time they simulate the same command, although two real runs of one command can end differently.
- The objects the agent shares with its callers are modelled as values, so a session appended to the history and then changed is not aliased.
