/** The E4 study as persistent state changed by commands (backend/finrisk/e4_core.py, `StudyState` and
    `write_json`; scripts/run_e4.py, the commands). */
module StudyCommands {
  import opened Wrappers
  import opened Ordering
  import Batches = AgentBatches
  import Runs = AgentReplay
  import Frozen = FrozenReplay

  datatype Stage =
    | INIT | INPUTS_VERIFIED | LOCAL_AGENT_VERIFIED | PROTOCOL_FROZEN | COHORT_FROZEN | FEATURES_FROZEN
    | PREDICTIONS_FROZEN | OUTCOMES_FROZEN | EVALUATED | REPRODUCED | README_RENDERED

  function Index(s: Stage): (n: nat)
    ensures n <= 10
  {
    match s
    case INIT => 0
    case INPUTS_VERIFIED => 1
    case LOCAL_AGENT_VERIFIED => 2
    case PROTOCOL_FROZEN => 3
    case COHORT_FROZEN => 4
    case FEATURES_FROZEN => 5
    case PREDICTIONS_FROZEN => 6
    case OUTCOMES_FROZEN => 7
    case EVALUATED => 8
    case REPRODUCED => 9
    case README_RENDERED => 10
  }

  /** The frozen files. `Public...` are those of the public directory. */
  datatype Artifact =
    | InputInventory | LocalAgentVerification | ExperimentConfig | ProtocolFreeze
    | Cohort | CohortReport | Features | FeatureReport
    | NumericPredictions | NumericReport
    | AgentBatchManifest | AgentPredictions | AgentRawResponses
    | AgentStabilityRuns | AgentStabilityRaw | AgentSingleCasePredictions | AgentSingleCaseRaw
    | HybridPredictions | Predictions | PredictionFreeze
    | Outcomes | OutcomeReport
    | Evaluation | ThresholdSensitivity | SectorHeterogeneity | Missingness | Attrition | SourceConcordance
    | AgentStabilitySummary | BatchSensitivitySummary
    | ReproducibilitySummary | AgentReplayVerification
    | PublicReadmeSummary | PublicStabilitySummary | PublicBatchSensitivity | PublicSourceConcordance
    | PublicReproducibility
    | RenderReplayVerification | PublicRenderReplay

  /** What a frozen file holds: what the agent's replay reads is kept, everything else is a number standing for it. */
  datatype Value =
    | FeatureRows(rows: seq<Batches.Row>)
    | Report(agentIds: set<string>)
    | Config(configHash: string)
    | Manifest(batches: seq<Batches.Batch>)
    | AgentResult(predictions: seq<Runs.Prediction>)
    | AgentLog(raw: Runs.RawLog)
    | Other(id: int)

  datatype Transition = Transition(from: Stage, to: Stage, evidence: Value)

  /** `state.json` */
  datatype StateFile = StateFile(stage: Stage, evidence: Value, history: seq<Transition>)

  /** What surrounds one invocation: whether the outcome mount variable is set, and whether outcome
      storage can be seen in any of the places the isolation check looks at. */
  datatype Environment = Environment(mountSet: bool, inputsPresent: bool, archivesPresent: bool, leakedIntoFeatures: bool)

  predicate OutcomesVisible(env: Environment) {
    env.mountSet || env.inputsPresent || env.archivesPresent || env.leakedIntoFeatures
  }

  /** A frozen write, with what could be seen when it happened. */
  datatype WriteEvent = WriteEvent(artifact: Artifact, visible: bool, outcomesExisted: bool)

  /** The persistent state, and the history of its frozen writes. */
  datatype World = World(files: map<Artifact, Value>, state: Option<StateFile>, log: seq<WriteEvent>)

  const EMPTY := World(map[], None, [])

  function StageOf(w: World): Stage {
    if w.state.None? then INIT else w.state.value.stage
  }

  // ----- what the files hold

  function Held(w: World, a: Artifact): Value {
    if a in w.files then w.files[a] else Other(0)
  }

  function Chosen(ids: set<string>): Batches.Row -> bool {
    (r: Batches.Row) => r.observationId in ids
  }

  /** `_selected_features("e4b_ids")`: the feature rows whose ids the feature report lists. */
  function Selected(features: Value, report: Value): seq<Batches.Row> {
    if features.FeatureRows? && report.Report? then Filter(features.rows, Chosen(report.agentIds)) else []
  }

  function AgentRows(w: World): seq<Batches.Row> {
    Selected(Held(w, Features), Held(w, FeatureReport))
  }

  function ConfigIn(w: World): string {
    if Held(w, ExperimentConfig).Config? then Held(w, ExperimentConfig).configHash else ""
  }

  /** The frozen log rebuilds exactly the frozen predictions. */
  predicate LogReplays(w: World) {
    && Held(w, AgentBatchManifest).Manifest? && Held(w, AgentRawResponses).AgentLog? && Held(w, AgentPredictions).AgentResult?
    && Frozen.Replay(AgentRows(w), Held(w, AgentBatchManifest).batches, Held(w, AgentRawResponses).raw, ConfigIn(w))
         == Success(Held(w, AgentPredictions).predictions)
  }

  // ----- the steps of a command

  /** `Replays` is the comparison of `verify-agent-replay`, which raises on a log that does not replay. */
  datatype Op = Need(artifact: Artifact) | Write(artifact: Artifact) | Replays(artifact: Artifact)

  /** A command: the stage it requires, its guards in the order they are checked, the files it reads and
      writes in order, and the stage it advances to. */
  datatype Script = Script(
    stage: Stage, isolated: bool, mounted: bool, refuses: Option<Artifact>, body: seq<Op>, target: Option<Stage>)

  function Record(w: World, from: Stage, to: Stage, evidence: Value): StateFile {
    var previous := if w.state.None? then [] else w.state.value.history;
    StateFile(to, evidence, previous + [Transition(from, to, evidence)])
  }

  /** One read, comparison or frozen write; None when it raises. A frozen write refuses to overwrite. */
  function Perform(w: World, op: Op, env: Environment, values: Artifact -> Value): Option<World> {
    match op
    case Need(a) => if a in w.files then Some(w) else None
    case Replays(_) => if LogReplays(w) then Some(w) else None
    case Write(a) =>
      if a in w.files then None
      else Some(w.(files := w.files[a := values(a)],
                   log := w.log + [WriteEvent(a, OutcomesVisible(env), Outcomes in w.files)]))
  }

  /** The stage is re-checked and moves by exactly one. */
  function AdvanceTo(w: World, from: Stage, to: Stage, evidence: Value): Option<World> {
    if StageOf(w) != from || Index(to) != Index(from) + 1 then None
    else Some(w.(state := Some(Record(w, from, to, evidence))))
  }

  datatype Ran = Ran(world: World, done: bool)

  /** The body runs until a step raises, it ends, or the command crashes after `budget` steps. */
  function ExecBody(w: World, body: seq<Op>, env: Environment, values: Artifact -> Value, budget: nat): Ran
    decreases |body|
  {
    if body == [] then Ran(w, true)
    else if budget == 0 then Ran(w, false)
    else
      match Perform(w, body[0], env, values)
      case None => Ran(w, false)
      case Some(next) => ExecBody(next, body[1..], env, values, budget - 1)
  }

  /** The checks before the first read or write. */
  predicate Admitted(w: World, c: Script, env: Environment) {
    && StageOf(w) == c.stage
    && (c.isolated ==> !OutcomesVisible(env))
    && (c.mounted ==> env.mountSet)
    && (c.refuses.Some? ==> c.refuses.value !in w.files)
  }

  function Exec(w: World, c: Script, env: Environment, values: Artifact -> Value, evidence: Value, budget: nat): World {
    if !Admitted(w, c, env) then w else Concluded(ExecBody(w, c.body, env, values, budget), c, evidence, budget)
  }

  /** The advance at the end, for a command that has one and was not cut short. */
  function Concluded(ran: Ran, c: Script, evidence: Value, budget: nat): World {
    if !ran.done || c.target.None? || budget <= |c.body| then ran.world
    else
      match AdvanceTo(ran.world, c.stage, c.target.value, evidence)
      case None => ran.world
      case Some(next) => next
  }

  /** The command ends without raising or crashing. */
  predicate Completes(w: World, c: Script, env: Environment, values: Artifact -> Value, budget: nat) {
    Admitted(w, c, env) && Concludes(ExecBody(w, c.body, env, values, budget), c, budget)
  }

  predicate Concludes(ran: Ran, c: Script, budget: nat) {
    && ran.done
    && budget > |c.body|
    && (c.target.Some? ==> StageOf(ran.world) == c.stage && Index(c.target.value) == Index(c.stage) + 1)
  }

  // ----- the commands

  datatype Command =
    | VerifyInputs | VerifyLocalAgent | FreezeProtocol | BuildCohort | BuildFeatures | RunNumeric | RunAgent | RunHybrid
    | FreezePredictions | BuildOutcomes | Evaluate | Reproduce | VerifyAgentReplay | Render | VerifyRenderReplay

  function ScriptOf(c: Command): Script {
    match c
    case VerifyInputs =>
      Script(INIT, false, false, None, [Write(InputInventory)], Some(INPUTS_VERIFIED))
    case VerifyLocalAgent =>
      Script(INPUTS_VERIFIED, false, false, None, [Write(LocalAgentVerification)], Some(LOCAL_AGENT_VERIFIED))
    case FreezeProtocol =>
      Script(LOCAL_AGENT_VERIFIED, false, false, None,
        [Need(InputInventory), Need(LocalAgentVerification), Write(ExperimentConfig), Write(ProtocolFreeze)],
        Some(PROTOCOL_FROZEN))
    case BuildCohort =>
      Script(PROTOCOL_FROZEN, true, false, None, [Write(Cohort), Write(CohortReport)], Some(COHORT_FROZEN))
    case BuildFeatures =>
      Script(COHORT_FROZEN, true, false, None, [Need(Cohort), Write(Features), Write(FeatureReport)], Some(FEATURES_FROZEN))
    case RunNumeric =>
      Script(FEATURES_FROZEN, true, false, Some(NumericPredictions),
        [Need(Features), Need(ExperimentConfig), Write(NumericPredictions), Write(NumericReport)], None)
    case RunAgent =>
      Script(FEATURES_FROZEN, true, false, Some(AgentPredictions),
        [Need(FeatureReport), Need(Features), Write(AgentBatchManifest), Need(ExperimentConfig), Write(AgentPredictions),
         Write(AgentRawResponses), Write(AgentStabilityRuns), Write(AgentStabilityRaw),
         Write(AgentSingleCasePredictions), Write(AgentSingleCaseRaw)], None)
    case RunHybrid =>
      Script(FEATURES_FROZEN, true, false, Some(HybridPredictions),
        [Need(NumericPredictions), Need(AgentPredictions), Need(ExperimentConfig), Write(HybridPredictions)], None)
    case FreezePredictions =>
      Script(FEATURES_FROZEN, true, false, None,
        [Need(NumericPredictions), Need(AgentPredictions), Need(HybridPredictions), Need(AgentBatchManifest),
         Need(AgentRawResponses), Need(ExperimentConfig), Write(Predictions), Write(PredictionFreeze)],
        Some(PREDICTIONS_FROZEN))
    case BuildOutcomes =>
      Script(PREDICTIONS_FROZEN, false, true, None, [Need(Features), Write(Outcomes), Write(OutcomeReport)],
        Some(OUTCOMES_FROZEN))
    case Evaluate =>
      Script(OUTCOMES_FROZEN, false, false, None,
        [Need(Features), Need(Predictions), Need(Outcomes), Write(Evaluation), Write(ThresholdSensitivity),
         Write(SectorHeterogeneity), Write(Missingness), Write(Attrition), Write(SourceConcordance),
         Need(AgentStabilityRuns), Write(AgentStabilitySummary), Need(AgentPredictions),
         Need(AgentSingleCasePredictions), Write(BatchSensitivitySummary)],
        Some(EVALUATED))
    case Reproduce =>
      Script(EVALUATED, false, false, None,
        [Need(Features), Need(ExperimentConfig), Need(NumericPredictions), Need(AgentPredictions), Need(HybridPredictions),
         Need(Predictions), Need(Outcomes), Need(Evaluation), Write(ReproducibilitySummary)],
        Some(REPRODUCED))
    case VerifyAgentReplay =>
      Script(REPRODUCED, false, false, None,
        [Need(FeatureReport), Need(Features), Need(AgentBatchManifest), Need(AgentRawResponses), Need(ExperimentConfig),
         Need(AgentPredictions), Replays(AgentRawResponses), Write(AgentReplayVerification)], None)
    case Render =>
      Script(REPRODUCED, false, false, None,
        [Need(Evaluation), Need(Attrition), Need(CohortReport), Need(OutcomeReport), Need(AgentRawResponses),
         Need(AgentStabilitySummary), Need(BatchSensitivitySummary), Need(SourceConcordance),
         Need(ReproducibilitySummary), Need(AgentReplayVerification), Write(PublicReadmeSummary),
         Write(PublicStabilitySummary), Write(PublicBatchSensitivity), Write(PublicSourceConcordance),
         Write(PublicReproducibility)],
        Some(README_RENDERED))
    case VerifyRenderReplay =>
      Script(README_RENDERED, false, false, None, [Write(RenderReplayVerification), Write(PublicRenderReplay)], None)
  }

  /** One invocation: a command, what surrounds it, what it computes, and the step after which it crashes. */
  datatype Invocation = Invocation(
    command: Command, env: Environment, values: Artifact -> Value, evidence: Value, budget: nat)

  function Invoke(w: World, i: Invocation): World {
    Exec(w, ScriptOf(i.command), i.env, i.values, i.evidence, i.budget)
  }

  /** The state after any number of invocations, in any order. */
  function After(w: World, runs: seq<Invocation>): World {
    if runs == [] then w else Invoke(After(w, runs[..|runs| - 1]), runs[|runs| - 1])
  }

  // ----- the same on the stored state itself

  /** The artifact directory with its state file. */
  class Study {
    var files: map<Artifact, Value>
    var state: Option<StateFile>
    ghost var log: seq<WriteEvent>

    ghost function View(): World
      reads this
    {
      World(files, state, log)
    }

    constructor ()
      ensures View() == EMPTY
    {
      files, state, log := map[], None, [];
    }

    /** `write_json(frozen=True)` */
    method WriteFrozen(a: Artifact, value: Value, env: Environment) returns (ok: bool)
      modifies this
      ensures ok <==> a !in old(files)
      ensures !ok ==> View() == old(View())
      ensures ok ==>
        && files == old(files)[a := value] && state == old(state)
        && log == old(log) + [WriteEvent(a, OutcomesVisible(env), Outcomes in old(files))]
    {
      if a in files {
        return false;
      }
      log := log + [WriteEvent(a, OutcomesVisible(env), Outcomes in files)];
      files := files[a := value];
      ok := true;
    }

    /** `StudyState.advance` */
    method AdvanceStage(from: Stage, to: Stage, evidence: Value) returns (ok: bool)
      modifies this
      ensures files == old(files) && log == old(log)
      ensures ok <==> StageOf(old(View())) == from && Index(to) == Index(from) + 1
      ensures state == if ok then Some(Record(old(View()), from, to, evidence)) else old(state)
    {
      var current := if state.None? then INIT else state.value.stage;
      if current != from || Index(to) != Index(from) + 1 {
        return false;
      }
      var previous := if state.None? then [] else state.value.history;
      state := Some(StateFile(to, evidence, previous + [Transition(from, to, evidence)]));
      ok := true;
    }

    function HeldIn(a: Artifact): Value
      reads this
    {
      if a in files then files[a] else Other(0)
    }

    /** `replay_frozen_agent` on the frozen files, compared with the frozen predictions. */
    method ReplayMatches() returns (ok: bool)
      ensures ok == LogReplays(View())
    {
      var manifest, log, expected := HeldIn(AgentBatchManifest), HeldIn(AgentRawResponses), HeldIn(AgentPredictions);
      if !manifest.Manifest? || !log.AgentLog? || !expected.AgentResult? {
        return false;
      }
      var config := if HeldIn(ExperimentConfig).Config? then HeldIn(ExperimentConfig).configHash else "";
      var rows := Selected(HeldIn(Features), HeldIn(FeatureReport));
      var replayed := Frozen.ReplayFrozenAgent(rows, manifest.batches, log.raw, config);
      ok := replayed == Success(expected.predictions);
    }

    /** One read, comparison or write; it either happens or raises and changes nothing. */
    method Step(op: Op, env: Environment, values: Artifact -> Value) returns (ok: bool)
      modifies this
      ensures var next := Perform(old(View()), op, env, values);
        ok == next.Some? && View() == if ok then next.value else old(View())
    {
      match op
      case Need(a) => ok := a in files;
      case Replays(_) => ok := ReplayMatches();
      case Write(a) => ok := WriteFrozen(a, values(a), env);
    }

    /** Runs the steps of a body up to its end, its first failing step, or a crash. */
    method RunBody(body: seq<Op>, env: Environment, values: Artifact -> Value, budget: nat) returns (done: bool)
      modifies this
      ensures Ran(View(), done) == ExecBody(old(View()), body, env, values, budget)
    {
      for k := 0 to |body|
        invariant k <= budget
        invariant ExecBody(View(), body[k..], env, values, budget - k) == ExecBody(old(View()), body, env, values, budget)
      {
        assert body[k..][0] == body[k] && body[k..][1..] == body[k + 1..];
        if budget == k {
          return false;
        }
        var ok := Step(body[k], env, values);
        if !ok {
          return false;
        }
      }
      assert body[|body|..] == [];
      done := true;
    }

    method Conclude(c: Script, done: bool, evidence: Value, budget: nat) returns (ok: bool)
      modifies this
      ensures View() == Concluded(Ran(old(View()), done), c, evidence, budget)
      ensures ok == Concludes(Ran(old(View()), done), c, budget)
    {
      if !done || budget <= |c.body| {
        return false;
      }
      ok := true;
      if c.target.Some? {
        ok := AdvanceStage(c.stage, c.target.value, evidence);
      }
    }

    /** Runs a command. */
    method RunScript(c: Script, env: Environment, values: Artifact -> Value, evidence: Value, budget: nat) returns (ok: bool)
      modifies this
      ensures View() == Exec(old(View()), c, env, values, evidence, budget)
      ensures ok == Completes(old(View()), c, env, values, budget)
    {
      var current := if state.None? then INIT else state.value.stage;
      if current != c.stage || (c.isolated && OutcomesVisible(env)) || (c.mounted && !env.mountSet)
        || (c.refuses.Some? && c.refuses.value in files) {
        return false;
      }
      var done := RunBody(c.body, env, values, budget);
      ok := Conclude(c, done, evidence, budget);
    }

    method RunCommand(i: Invocation) returns (ok: bool)
      modifies this
      ensures View() == Invoke(old(View()), i)
      ensures ok == Completes(old(View()), ScriptOf(i.command), i.env, i.values, i.budget)
    {
      ok := RunScript(ScriptOf(i.command), i.env, i.values, i.evidence, i.budget);
    }
  }
}
