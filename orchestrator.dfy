/**
 * The escalation orchestrator: a request about nmap is sent to the generator
 * tier its complexity picks (easy, medium, hard); each tier's candidate is
 * validated, repaired while the validator calls it repairable, and abandoned
 * when it is invalid, and the next tier is tried. Every step is logged as an
 * event.
 *
 * The generators, the validator and the self-corrector are collaborators
 * given as functions; `None` stands for a call that raised.
 */
module Orchestrator {
  import opened Text
  import Classify

  type Level = Classify.Level

  /** The tier chain, easy to hard. */
  const Chain: seq<Level> := [Classify.Easy, Classify.Medium, Classify.Hard]

  function LevelIndex(l: Level): (i: nat)
    ensures i < 3 && Chain[i] == l
  {
    match l
    case Easy => 0
    case Medium => 1
    case Hard => 2
  }

  datatype Status = Valid | Repairable | Invalid

  datatype Candidate = Candidate(command: string, rationale: Option<string>, sourceAgent: string)

  datatype Validation = Validation(status: Status, issues: seq<string>, score: real)

  /** The final decision; its flag explanations are always empty. */
  datatype Decision = Decision(command: string, confidence: real)

  /** A decision, or the HTTP status of the error raised. */
  datatype Outcome = Decided(decision: Decision) | Refused(code: nat)

  datatype Deps = Deps(
    generate: (Level, string) -> Option<Candidate>,
    validate: Candidate -> Option<Validation>,
    repair: (Candidate, Validation) -> Option<Candidate>)

  /** One logged event (the stage and its data, without the timestamp or exception text). */
  datatype Event =
    | ComprehensionLogged(isNmapRelated: bool, reason: string, query: string)
    | ComplexityLogged(level: Level, confidence: nat, query: string)
    | GenerationStart(level: Level, isInitialLevel: bool)
    | GenerationFailure(level: Level, query: string)
    | GenerationSuccess(level: Level, command: string, sourceAgent: string, rationale: Option<string>)
    | ValidationAttempt(attempt: nat, level: Level, status: Status, score: real, issues: seq<string>, command: string)
    | PipelineSuccess(finalCommand: string, finalConfidence: real, finalLevel: Level, totalAttempts: nat)
    | SelfCorrectionFailure(level: Level, attempt: nat)
    | SelfCorrectionSuccess(attempt: nat, newCommand: string, issuesFixed: seq<string>)
    | ValidationFailure(attempt: nat, level: Level, issues: seq<string>)
    | PipelineFailure(query: string)

  /** The validator's verdict; a validator that raised counts as invalid with score 0. */
  function Validated(deps: Deps, c: Candidate): Validation
  {
    match deps.validate(c)
    case Some(v) => v
    case None => Validation(Invalid, ["Erreur interne lors de la validation"], 0.0)
  }

  /** `_generate` from tier `i`: a failing generator passes on to the next tier; none left means 503. */
  function Generated(deps: Deps, text: string, i: nat): (r: (Option<Candidate>, seq<Event>))
    requires i < 3
    decreases 3 - i
  {
    match deps.generate(Chain[i], text)
    case Some(c) => (Some(c), [])
    case None =>
      if i == 2 then (None, [GenerationFailure(Chain[i], text)])
      else
        var rest := Generated(deps, text, i + 1);
        (rest.0, [GenerationFailure(Chain[i], text)] + rest.1)
  }

  datatype TierEnd = Accepted(cand: Candidate, verdict: Validation, attempt: nat) | Abandoned | Exhausted

  /** The attempt loop of one tier, from attempt number `attempt` on. */
  function Tier(deps: Deps, maxCorrections: nat, level: Level, c: Candidate, attempt: nat): (r: (TierEnd, seq<Event>))
    requires attempt >= 1
    decreases maxCorrections + 2 - attempt
  {
    if attempt > maxCorrections + 1 then (Exhausted, [])
    else
      var v := Validated(deps, c);
      var logged := [ValidationAttempt(attempt, level, v.status, v.score, v.issues, c.command)];
      if v.status == Valid then
        (Accepted(c, v, attempt), logged + [PipelineSuccess(c.command, v.score, level, attempt)])
      else if v.status == Repairable then
        match deps.repair(c, v)
        case None => (Abandoned, logged + [SelfCorrectionFailure(level, attempt)])
        case Some(fixed) =>
          var rest := Tier(deps, maxCorrections, level, fixed, attempt + 1);
          (rest.0, logged + [SelfCorrectionSuccess(attempt, fixed.command, v.issues)] + rest.1)
      else (Abandoned, logged + [ValidationFailure(attempt, level, v.issues)])
  }

  /**
   * Tier `i` of the chain entered from `start`: `Some` outcome when the
   * request ends there (a decision, or 503 when no generator answered),
   * `None` when the tier was abandoned or ran out of attempts.
   */
  function TierStep(deps: Deps, maxCorrections: nat, text: string, start: nat, i: nat): (Option<Outcome>, seq<Event>)
    requires i < 3
  {
    var g := Generated(deps, text, i);
    var begun := [GenerationStart(Chain[i], i == start)] + g.1;
    match g.0
    case None => (Some(Refused(503)), begun)
    case Some(c) =>
      var tier := Tier(deps, maxCorrections, Chain[i], c, 1);
      var events := begun + [GenerationSuccess(Chain[i], c.command, c.sourceAgent, c.rationale)] + tier.1;
      if tier.0.Accepted? then (Some(Decided(Decision(tier.0.cand.command, tier.0.verdict.score))), events)
      else (None, events)
  }

  /** The tiers from index `i` on, having started at `start`; past the hard tier, 500. */
  function Escalate(deps: Deps, maxCorrections: nat, text: string, start: nat, i: nat): (r: (Outcome, seq<Event>))
    requires i <= 3
    decreases 3 - i
  {
    if i == 3 then (Refused(500), [PipelineFailure(text)])
    else
      var step := TierStep(deps, maxCorrections, text, start, i);
      match step.0
      case Some(o) => (o, step.1)
      case None =>
        var rest := Escalate(deps, maxCorrections, text, start, i + 1);
        (rest.0, step.1 + rest.1)
  }

  /** `handle`: the outcome and the events it logs. */
  function Handled(deps: Deps, maxCorrections: nat, text: string): (Outcome, seq<Event>)
  {
    var comp := Classify.IsNmapRelated(text);
    var first := [ComprehensionLogged(comp.isNmapRelated, comp.reason, text)];
    if !comp.isNmapRelated then (Refused(400), first)
    else
      var cx := Classify.BaselineComplexity(text);
      var start := LevelIndex(cx.level);
      var rest := Escalate(deps, maxCorrections, text, start, start);
      (rest.0, first + [ComplexityLogged(cx.level, cx.confidence, text)] + rest.1)
  }

  // ---- properties ----

  /**
   * Generation succeeds with the first tier from `i` on whose generator
   * answers, every earlier one logging a failure; it fails only when every
   * tier from `i` to hard failed.
   */
  lemma {:induction false} GeneratedFallsThrough(deps: Deps, text: string, i: nat)
    requires i < 3
    ensures var g := Generated(deps, text, i);
      && (g.0.None? <==> forall k :: i <= k < 3 ==> deps.generate(Chain[k], text).None?)
      && (g.0.Some? ==> exists j :: i <= j < 3 && deps.generate(Chain[j], text) == g.0
                                    && (forall k :: i <= k < j ==> deps.generate(Chain[k], text).None?)
                                    && |g.1| == j - i)
      && (g.0.None? ==> |g.1| == 3 - i)
    decreases 3 - i
  {
    if deps.generate(Chain[i], text).None? && i < 2 {
      GeneratedFallsThrough(deps, text, i + 1);
      var g := Generated(deps, text, i + 1);
      if g.0.Some? {
        var j :| i + 1 <= j < 3 && deps.generate(Chain[j], text) == g.0
                 && (forall k :: i + 1 <= k < j ==> deps.generate(Chain[k], text).None?) && |g.1| == j - (i + 1);
        assert forall k :: i <= k < j ==> deps.generate(Chain[k], text).None?;
      }
    }
  }


  /** The number of validator calls in a list of events. */
  function Validations(events: seq<Event>): nat
    decreases |events|
  {
    if |events| == 0 then 0
    else Validations(events[..|events| - 1]) + (if events[|events| - 1].ValidationAttempt? then 1 else 0)
  }

  lemma {:induction false} ValidationsAppend(a: seq<Event>, b: seq<Event>)
    ensures Validations(a + b) == Validations(a) + Validations(b)
    decreases |b|
  {
    if |b| == 0 {
      assert a + b == a;
    } else {
      ValidationsAppend(a, b[..|b| - 1]);
      assert (a + b)[..|a + b| - 1] == a + b[..|b| - 1];
    }
  }

  /**
   * A tier entered at attempt `attempt` calls the validator at most
   * `maxCorrections + 2 - attempt` times, so at most `maxCorrections + 1`
   * times from the first attempt; an accepted candidate passed the validator.
   */
  lemma {:induction false} TierBound(deps: Deps, maxCorrections: nat, level: Level, c: Candidate, attempt: nat)
    requires 1 <= attempt <= maxCorrections + 2
    ensures var t := Tier(deps, maxCorrections, level, c, attempt);
      && Validations(t.1) <= maxCorrections + 2 - attempt
      && (t.0.Accepted? ==> Validated(deps, t.0.cand) == t.0.verdict && t.0.verdict.status == Valid
                            && attempt <= t.0.attempt <= maxCorrections + 1)
      && (t.0.Exhausted? ==> Validations(t.1) == maxCorrections + 2 - attempt)
    decreases maxCorrections + 2 - attempt
  {
    if attempt <= maxCorrections + 1 {
      var v := Validated(deps, c);
      var logged := [ValidationAttempt(attempt, level, v.status, v.score, v.issues, c.command)];
      assert Validations(logged) == 1 by { assert logged[..0] == []; }
      if v.status == Valid {
        ValidationsAppend(logged, [PipelineSuccess(c.command, v.score, level, attempt)]);
      } else if v.status == Repairable {
        match deps.repair(c, v)
        case None =>
          ValidationsAppend(logged, [SelfCorrectionFailure(level, attempt)]);
        case Some(fixed) =>
          var rest := Tier(deps, maxCorrections, level, fixed, attempt + 1);
          TierBound(deps, maxCorrections, level, fixed, attempt + 1);
          var ev := SelfCorrectionSuccess(attempt, fixed.command, v.issues);
          ValidationsAppend(logged, [ev]);
          ValidationsAppend(logged + [ev], rest.1);
      } else {
        ValidationsAppend(logged, [ValidationFailure(attempt, level, v.issues)]);
      }
    }
  }

  /** The indices of the tiers entered, in the order of their `generation_start` events. */
  function TiersEntered(events: seq<Event>): seq<nat>
    decreases |events|
  {
    if |events| == 0 then []
    else
      TiersEntered(events[..|events| - 1])
        + (if events[|events| - 1].GenerationStart? then [LevelIndex(events[|events| - 1].level)] else [])
  }

  lemma {:induction false} TiersEnteredAppend(a: seq<Event>, b: seq<Event>)
    ensures TiersEntered(a + b) == TiersEntered(a) + TiersEntered(b)
    decreases |b|
  {
    if |b| == 0 {
      assert a + b == a;
    } else {
      TiersEnteredAppend(a, b[..|b| - 1]);
      assert (a + b)[..|a + b| - 1] == a + b[..|b| - 1];
    }
  }

  lemma {:induction false} NoTierInGeneration(deps: Deps, text: string, i: nat)
    requires i < 3
    ensures TiersEntered(Generated(deps, text, i).1) == []
    decreases 3 - i
  {
    if deps.generate(Chain[i], text).None? {
      var ev := [GenerationFailure(Chain[i], text)];
      assert TiersEntered(ev) == [] by { assert ev[..0] == []; }
      if i < 2 {
        NoTierInGeneration(deps, text, i + 1);
        TiersEnteredAppend(ev, Generated(deps, text, i + 1).1);
      }
    }
  }

  lemma {:induction false} NoTierInAttempts(deps: Deps, maxCorrections: nat, level: Level, c: Candidate, attempt: nat)
    requires attempt >= 1
    ensures TiersEntered(Tier(deps, maxCorrections, level, c, attempt).1) == []
    decreases maxCorrections + 2 - attempt
  {
    if attempt <= maxCorrections + 1 {
      var v := Validated(deps, c);
      var logged := [ValidationAttempt(attempt, level, v.status, v.score, v.issues, c.command)];
      assert TiersEntered(logged) == [] by { assert logged[..0] == []; }
      if v.status == Valid {
        TiersEnteredAppend(logged, [PipelineSuccess(c.command, v.score, level, attempt)]);
      } else if v.status == Repairable {
        match deps.repair(c, v)
        case None =>
          TiersEnteredAppend(logged, [SelfCorrectionFailure(level, attempt)]);
        case Some(fixed) =>
          NoTierInAttempts(deps, maxCorrections, level, fixed, attempt + 1);
          var ev := SelfCorrectionSuccess(attempt, fixed.command, v.issues);
          TiersEnteredAppend(logged, [ev]);
          TiersEnteredAppend(logged + [ev], Tier(deps, maxCorrections, level, fixed, attempt + 1).1);
      } else {
        TiersEnteredAppend(logged, [ValidationFailure(attempt, level, v.issues)]);
      }
    }
  }

  /** `i, i + 1, …, j - 1`. */
  function Run(i: nat, j: nat): (r: seq<nat>)
    requires i <= j
    ensures |r| == j - i && forall k :: 0 <= k < |r| ==> r[k] == i + k
    decreases j - i
  {
    if i == j then [] else [i] + Run(i + 1, j)
  }

  /**
   * The tiers are entered in chain order from the first one on, each at most
   * once: the entered tiers are `i, i + 1, …, j - 1` for some `j`.
   */
  lemma {:induction false} TiersInChainOrder(deps: Deps, maxCorrections: nat, text: string, start: nat, i: nat)
    requires i <= 3
    ensures exists j :: i <= j <= 3 && TiersEntered(Escalate(deps, maxCorrections, text, start, i).1) == Run(i, j)
    decreases 3 - i
  {
    if i == 3 {
      var ev := [PipelineFailure(text)];
      assert TiersEntered(ev) == [] == Run(3, 3) by { assert ev[..0] == []; }
    } else {
      var g := Generated(deps, text, i);
      var head := [GenerationStart(Chain[i], i == start)];
      assert TiersEntered(head) == [i] by { assert head[..0] == []; }
      NoTierInGeneration(deps, text, i);
      TiersEnteredAppend(head, g.1);
      var begun := head + g.1;
      if g.0.Some? {
        var c := g.0.value;
        var tier := Tier(deps, maxCorrections, Chain[i], c, 1);
        var ev := [GenerationSuccess(Chain[i], c.command, c.sourceAgent, c.rationale)];
        assert TiersEntered(ev) == [] by { assert ev[..0] == []; }
        NoTierInAttempts(deps, maxCorrections, Chain[i], c, 1);
        TiersEnteredAppend(begun, ev);
        TiersEnteredAppend(begun + ev, tier.1);
        var events := begun + ev + tier.1;
        assert TiersEntered(events) == [i];
        if !tier.0.Accepted? {
          TiersInChainOrder(deps, maxCorrections, text, start, i + 1);
          var rest := Escalate(deps, maxCorrections, text, start, i + 1);
          var j :| i + 1 <= j <= 3 && TiersEntered(rest.1) == Run(i + 1, j);
          TiersEnteredAppend(events, rest.1);
          assert [i] + Run(i + 1, j) == Run(i, j);
        } else {
          assert [i] == Run(i, i + 1);
        }
      } else {
        assert [i] == Run(i, i + 1);
      }
    }
  }

  /**
   * A request not about nmap is refused with 400 before any generator runs;
   * otherwise the outcome is a decision carrying a candidate the validator
   * accepted and its score, 503 when the hard generator failed, or 500 once
   * every tier was abandoned.
   */
  lemma HandledOutcome(deps: Deps, maxCorrections: nat, text: string)
    ensures var h := Handled(deps, maxCorrections, text);
      && (!Classify.IsNmapRelated(text).isNmapRelated ==> h.0 == Refused(400) && |h.1| == 1)
      && (h.0.Refused? ==> h.0.code in {400, 500, 503})
      && (h.0 == Refused(503) ==> deps.generate(Classify.Hard, text).None?)
      && (h.0.Decided? ==> exists c :: Validated(deps, c).status == Valid && h.0.decision == Decision(c.command, Validated(deps, c).score))
  {
    if Classify.IsNmapRelated(text).isNmapRelated {
      var start := LevelIndex(Classify.BaselineComplexity(text).level);
      EscalateOutcome(deps, maxCorrections, text, start, start);
    }
  }

  lemma {:induction false} EscalateOutcome(deps: Deps, maxCorrections: nat, text: string, start: nat, i: nat)
    requires i <= 3
    ensures var e := Escalate(deps, maxCorrections, text, start, i);
      && (e.0.Refused? ==> e.0.code in {500, 503})
      && (e.0 == Refused(503) ==> deps.generate(Classify.Hard, text).None?)
      && (e.0 == Refused(500) ==> e.1[|e.1| - 1] == PipelineFailure(text))
      && (e.0.Decided? ==> exists c :: Validated(deps, c).status == Valid && e.0.decision == Decision(c.command, Validated(deps, c).score))
    decreases 3 - i
  {
    if i < 3 {
      var g := Generated(deps, text, i);
      GeneratedFallsThrough(deps, text, i);
      if g.0.Some? {
        var c := g.0.value;
        var tier := Tier(deps, maxCorrections, Chain[i], c, 1);
        TierBound(deps, maxCorrections, Chain[i], c, 1);
        if !tier.0.Accepted? {
          EscalateOutcome(deps, maxCorrections, text, start, i + 1);
        } else {
          assert Validated(deps, tier.0.cand).status == Valid;
        }
      } else {
        assert deps.generate(Chain[2], text).None?;
      }
    }
  }

  // ---- the orchestrator ----

  class Orchestrator {
    const deps: Deps
    const maxCorrections: nat
    /** The MCP log: one event per line, appended to. */
    var log: seq<Event>

    /** The log file is kept if it exists, created empty otherwise. */
    constructor (deps: Deps, maxCorrections: nat, existing: seq<Event>)
      ensures this.deps == deps && this.maxCorrections == maxCorrections && log == existing
    {
      this.deps := deps;
      this.maxCorrections := maxCorrections;
      log := existing;
    }

    /** `_generate`, its recursion to the next tier written as a loop over the tier index. */
    method Generate(text: string, i: nat) returns (c: Option<Candidate>)
      requires i < 3
      modifies this`log
      ensures c == Generated(deps, text, i).0
      ensures log == old(log) + Generated(deps, text, i).1
    {
      var k := i;
      while true
        invariant i <= k < 3
        invariant Generated(deps, text, i).0 == Generated(deps, text, k).0
        invariant old(log) + Generated(deps, text, i).1 == log + Generated(deps, text, k).1
        decreases 3 - k
      {
        c := deps.generate(Chain[k], text);
        if c.Some? {
          return;
        }
        log := log + [GenerationFailure(Chain[k], text)];
        if k == 2 {
          return None;
        }
        k := k + 1;
      }
    }

    /** The attempt loop of one tier. */
    method RunTier(level: Level, cand: Candidate) returns (end: TierEnd)
      modifies this`log
      ensures end == Tier(deps, maxCorrections, level, cand, 1).0
      ensures log == old(log) + Tier(deps, maxCorrections, level, cand, 1).1
    {
      var c := cand;
      var attempt := 1;
      while attempt < maxCorrections + 2
        invariant 1 <= attempt <= maxCorrections + 2
        invariant Tier(deps, maxCorrections, level, cand, 1).0 == Tier(deps, maxCorrections, level, c, attempt).0
        invariant old(log) + Tier(deps, maxCorrections, level, cand, 1).1 == log + Tier(deps, maxCorrections, level, c, attempt).1
        decreases maxCorrections + 2 - attempt
      {
        var v := Validated(deps, c);
        log := log + [ValidationAttempt(attempt, level, v.status, v.score, v.issues, c.command)];
        if v.status == Valid {
          log := log + [PipelineSuccess(c.command, v.score, level, attempt)];
          return Accepted(c, v, attempt);
        }
        if v.status == Repairable {
          var fixed := deps.repair(c, v);
          if fixed.None? {
            log := log + [SelfCorrectionFailure(level, attempt)];
            return Abandoned;
          }
          c := fixed.value;
          log := log + [SelfCorrectionSuccess(attempt, c.command, v.issues)];
          attempt := attempt + 1;
          continue;
        }
        log := log + [ValidationFailure(attempt, level, v.issues)];
        return Abandoned;
      }
      return Exhausted;
    }

    /** One tier: generation, then the attempt loop. */
    method EnterTier(text: string, start: nat, i: nat) returns (r: Option<Outcome>)
      requires i < 3
      modifies this`log
      ensures r == TierStep(deps, maxCorrections, text, start, i).0
      ensures log == old(log) + TierStep(deps, maxCorrections, text, start, i).1
    {
      log := log + [GenerationStart(Chain[i], i == start)];
      var cand := Generate(text, i);
      if cand.None? {
        return Some(Refused(503));
      }
      var c := cand.value;
      log := log + [GenerationSuccess(Chain[i], c.command, c.sourceAgent, c.rationale)];
      var end := RunTier(Chain[i], c);
      if end.Accepted? {
        return Some(Decided(Decision(end.cand.command, end.verdict.score)));
      }
      return None;
    }

    /** The tier loop of `handle`, from tier `start` on. */
    method Escalation(text: string, start: nat) returns (outcome: Outcome)
      requires start < 3
      modifies this`log
      ensures outcome == Escalate(deps, maxCorrections, text, start, start).0
      ensures log == old(log) + Escalate(deps, maxCorrections, text, start, start).1
    {
      var i := start;
      while i < 3
        invariant start <= i <= 3
        invariant Escalate(deps, maxCorrections, text, start, start).0 == Escalate(deps, maxCorrections, text, start, i).0
        invariant old(log) + Escalate(deps, maxCorrections, text, start, start).1 == log + Escalate(deps, maxCorrections, text, start, i).1
        decreases 3 - i
      {
        ghost var before := log;
        ghost var step := TierStep(deps, maxCorrections, text, start, i);
        var r := EnterTier(text, start, i);
        if r.Some? {
          assert Escalate(deps, maxCorrections, text, start, i) == (r.value, step.1);
          return r.value;
        }
        ghost var rest := Escalate(deps, maxCorrections, text, start, i + 1);
        assert Escalate(deps, maxCorrections, text, start, i) == (rest.0, step.1 + rest.1);
        AppendAssoc(before, step.1, rest.1);
        i := i + 1;
      }
      log := log + [PipelineFailure(text)];
      return Refused(500);
    }

    /** `handle`. */
    method Handle(text: string) returns (outcome: Outcome)
      modifies this`log
      ensures outcome == Handled(deps, maxCorrections, text).0
      ensures log == old(log) + Handled(deps, maxCorrections, text).1
    {
      var comp := Classify.IsNmapRelated(text);
      log := log + [ComprehensionLogged(comp.isNmapRelated, comp.reason, text)];
      if !comp.isNmapRelated {
        return Refused(400);
      }
      var cx := Classify.BaselineComplexity(text);
      log := log + [ComplexityLogged(cx.level, cx.confidence, text)];
      ghost var before := log;
      outcome := Escalation(text, LevelIndex(cx.level));
      ghost var rest := Escalate(deps, maxCorrections, text, LevelIndex(cx.level), LevelIndex(cx.level));
      ghost var first, second := [ComprehensionLogged(comp.isNmapRelated, comp.reason, text)], [ComplexityLogged(cx.level, cx.confidence, text)];
      assert Handled(deps, maxCorrections, text) == (rest.0, first + second + rest.1);
      AppendAssoc(old(log), first, second);
      AppendAssoc(old(log), first + second, rest.1);
    }
  }
}
