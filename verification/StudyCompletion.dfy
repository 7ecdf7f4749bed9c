/** Exactly when the E4 study can still be finished. Of what the commands compute, the agent's part is modelled in full:
    its manifest is the one `build_manifest` gives for the selected rows, its predictions and log come from a run under
    some transport, and `verify-agent-replay` compares them with the replay. Every other computation is assumed to
    succeed, with any value. */
module StudyCompletion {
  import opened Ordering
  import Batches = AgentBatches
  import Execution = AgentExecution
  import Runs = AgentReplay
  import Logged = RoundTrip
  import Trip = RoundTripTheorem
  import Built = ManifestRoundTrip
  import opened StudyCommands
  import opened StudySafety
  import opened StudyProgress

  // ----- invocations whose agent files are an agent's

  /** The manifest, the predictions and the log of one agent run over the selected rows. */
  ghost predicate RunOf(w: World, manifest: Value, result: Value, log: Value,
                        batches: seq<Batches.Batch>, transport: Execution.Transport) {
    && Batches.ManifestOf(AgentRows(w), batches)
    && (forall i | 0 <= i < |batches| :: Runs.Consistent(batches[i]))
    && manifest == Manifest(batches)
    && Runs.Ran(AgentRows(w), batches, ConfigIn(w), transport).Completed?
    && result == AgentResult(Runs.Ran(AgentRows(w), batches, ConfigIn(w), transport).predictions)
    && log == AgentLog(Runs.Ran(AgentRows(w), batches, ConfigIn(w), transport).raw)
  }

  ghost predicate FromRun(w: World, manifest: Value, result: Value, log: Value) {
    exists batches: seq<Batches.Batch>, transport: Execution.Transport :: RunOf(w, manifest, result, log, batches, transport)
  }

  ghost predicate IsManifest(w: World, manifest: Value) {
    manifest.Manifest? && Batches.ManifestOf(AgentRows(w), manifest.batches)
  }

  /** The agent command gets past its manifest only if there is one, and past its predictions only with a completed run. */
  ghost predicate GenuineAgent(w: World, i: Invocation) {
    && (i.budget > 2 ==> IsManifest(w, i.values(AgentBatchManifest)))
    && (i.budget > 4 ==> FromRun(w, i.values(AgentBatchManifest), i.values(AgentPredictions), i.values(AgentRawResponses)))
  }

  /** Feature rows have distinct observation and company ids, as `build_features` numbers them. */
  ghost predicate GenuineFeatures(v: Value) {
    v.FeatureRows? && Built.DistinctRows(v.rows)
  }

  ghost predicate Genuine(w: World, i: Invocation) {
    && (i.command == BuildFeatures ==> GenuineFeatures(i.values(Features)))
    && (i.command == RunAgent && Admitted(w, ScriptOf(RunAgent), i.env) && AgentBatchManifest !in w.files ==> GenuineAgent(w, i))
  }

  ghost predicate Possible(w: World, runs: seq<Invocation>) {
    runs == [] || (Possible(w, runs[..|runs| - 1]) && Genuine(After(w, runs[..|runs| - 1]), runs[|runs| - 1]))
  }

  /** Some run of commands reaches the last stage. */
  ghost predicate CanFinish(w: World) {
    exists runs :: Possible(w, runs) && StageOf(After(w, runs)) == README_RENDERED
  }

  // ----- the states that are lost

  /** The agent's manifest was frozen, but not every file of the same command that a later one reads. */
  predicate AgentIncomplete(w: World) {
    && AgentBatchManifest in w.files
    && !(AgentPredictions in w.files && AgentRawResponses in w.files
         && AgentStabilityRuns in w.files && AgentSingleCasePredictions in w.files)
  }

  /** The agent has not begun, and some packet of its rows exceeds the budget alone. */
  ghost predicate AgentImpossible(w: World) {
    StageOf(w) == FEATURES_FROZEN && AgentBatchManifest !in w.files && Batches.Unpackable(AgentRows(w))
  }

  /** The frozen log holds a stored schema failure or an accepted score in the rounding band. */
  predicate LogUnsteady(w: World) {
    && AgentPredictions in w.files && AgentRawResponses in w.files
    && Held(w, AgentRawResponses).AgentLog?
    && !(Trip.NoStoredFailure(Held(w, AgentRawResponses).raw) && Trip.NoCrossing(Held(w, AgentRawResponses).raw))
  }

  /** Every state that cannot be finished any more; all of it can be read off the stage and the files. */
  ghost predicate Doomed(w: World) {
    StageOf(w) != README_RENDERED && (Clogged(w) || AgentIncomplete(w) || AgentImpossible(w) || LogUnsteady(w))
  }

  // ----- what runs of genuine invocations keep

  /** The agent's files come after its manifest, the numeric report after the predictions. */
  ghost predicate FileOrder(w: World) {
    && (forall a | a in w.files && WriterOf(a) == RunAgent :: AgentBatchManifest in w.files)
    && (NumericReport in w.files ==> NumericPredictions in w.files)
  }

  ghost predicate AgentFiles(w: World) {
    && (Features in w.files ==> GenuineFeatures(w.files[Features]))
    && (AgentPredictions in w.files && AgentRawResponses in w.files ==>
          FromRun(w, Held(w, AgentBatchManifest), Held(w, AgentPredictions), Held(w, AgentRawResponses)))
  }

  predicate LateFiles(w: World) {
    && (Index(StageOf(w)) >= 8 ==> AgentStabilityRuns in w.files && AgentSingleCasePredictions in w.files)
    && (AgentReplayVerification in w.files ==> LogReplays(w))
  }

  ghost predicate GoodFiles(w: World) {
    Inv(w) && FileOrder(w) && AgentFiles(w) && LateFiles(w)
  }

  /** A new file sits at a position of the command's body that was reached, after its earlier writes. */
  lemma InvokeOrder(w: World, i: Invocation, y: Artifact) returns (k: nat)
    requires y !in w.files && y in Invoke(w, i).files
    ensures Admitted(w, ScriptOf(i.command), i.env)
    ensures k < |ScriptOf(i.command).body| && k < i.budget && ScriptOf(i.command).body[k] == Write(y)
    ensures forall j | 0 <= j < k && ScriptOf(i.command).body[j].Write? ::
      ScriptOf(i.command).body[j].artifact in Invoke(w, i).files && ScriptOf(i.command).body[j].artifact !in w.files
  {
    BodyEffects(w, ScriptOf(i.command).body, i.env, i.values, i.budget);
    k := WritesInOrder(w, ScriptOf(i.command).body, i.env, i.values, i.budget, y);
  }

  lemma InvokeChecks(w: World, i: Invocation, n: nat, y: Artifact)
    requires y !in w.files && y in Invoke(w, i).files
    requires n <= |ScriptOf(i.command).body| && forall j | 0 <= j < n :: !ScriptOf(i.command).body[j].Write?
    ensures forall j | 0 <= j < n && ScriptOf(i.command).body[j].Replays? :: LogReplays(w)
  {
    BodyEffects(w, ScriptOf(i.command).body, i.env, i.values, i.budget);
    ChecksBeforeWrite(w, ScriptOf(i.command).body, i.env, i.values, i.budget, n, y);
  }

  lemma WriterAt(c: Command, k: nat, a: Artifact)
    requires k < |ScriptOf(c).body| && ScriptOf(c).body[k] == Write(a)
    ensures WriterOf(a) == c
  {
    ScriptWrites(c, a);
  }

  lemma ManifestFirst(c: Command, k: nat, a: Artifact)
    requires k < |ScriptOf(c).body| && ScriptOf(c).body[k] == Write(a) && WriterOf(a) == RunAgent && a != AgentBatchManifest
    ensures k > 2 && ScriptOf(c).body[2] == Write(AgentBatchManifest)
  {
    WriterAt(c, k, a);
    FirstBody(k, a);
  }

  lemma FirstBody(k: nat, a: Artifact)
    requires k < |ScriptOf(RunAgent).body| && ScriptOf(RunAgent).body[k] == Write(a) && a != AgentBatchManifest
    ensures k > 2 && ScriptOf(RunAgent).body[2] == Write(AgentBatchManifest)
  {
  }

  /** Whatever else the agent command writes, it wrote the manifest in the same invocation. */
  lemma AgentFileAfterManifest(w: World, i: Invocation, a: Artifact)
    requires WriterOf(a) == RunAgent && a != AgentBatchManifest && a !in w.files && a in Invoke(w, i).files
    ensures i.command == RunAgent && AgentBatchManifest !in w.files && AgentBatchManifest in Invoke(w, i).files
  {
    var k := InvokeOrder(w, i, a);
    ManifestFirst(i.command, k, a);
    ScriptWrites(i.command, a);
  }

  lemma NumericOrder(c: Command, k: nat)
    requires k < |ScriptOf(c).body| && ScriptOf(c).body[k] == Write(NumericReport)
    ensures k > 2 && ScriptOf(c).body[2] == Write(NumericPredictions)
  {
    WriterAt(c, k, NumericReport);
    NumericBody(k);
  }

  lemma NumericBody(k: nat)
    requires k < |ScriptOf(RunNumeric).body| && ScriptOf(RunNumeric).body[k] == Write(NumericReport)
    ensures k > 2 && ScriptOf(RunNumeric).body[2] == Write(NumericPredictions)
  {
  }

  /** With the manifest already there, the agent command adds nothing. */
  lemma NoNewAgentFile(w: World, i: Invocation, a: Artifact)
    requires AgentBatchManifest in w.files && WriterOf(a) == RunAgent && a !in w.files
    ensures a !in Invoke(w, i).files
  {
    if a in Invoke(w, i).files {
      AgentFileAfterManifest(w, i, a);
    }
  }

  lemma InvokeGrows(w: World, i: Invocation)
    ensures Keeps(w, Invoke(w, i))
  {
    BodyEffects(w, ScriptOf(i.command).body, i.env, i.values, i.budget);
  }

  lemma NumericReportLast(w: World, i: Invocation)
    requires NumericReport !in w.files && NumericReport in Invoke(w, i).files
    ensures NumericPredictions in Invoke(w, i).files
  {
    var k := InvokeOrder(w, i, NumericReport);
    NumericOrder(i.command, k);
  }

  lemma InvokeKeepsOrder(w: World, i: Invocation)
    requires FileOrder(w)
    ensures FileOrder(Invoke(w, i))
  {
    InvokeGrows(w, i);
    var t := Invoke(w, i);
    forall a | a in t.files && WriterOf(a) == RunAgent ensures AgentBatchManifest in t.files {
      if a !in w.files && a != AgentBatchManifest {
        AgentFileAfterManifest(w, i, a);
      }
    }
    if NumericReport in t.files && NumericReport !in w.files {
      NumericReportLast(w, i);
    }
  }

  /** A file an invocation adds, by its own command, with its own value. */
  lemma Added(w: World, i: Invocation, a: Artifact)
    requires a !in w.files && a in Invoke(w, i).files
    ensures i.command == WriterOf(a) && Admitted(w, ScriptOf(i.command), i.env)
    ensures Invoke(w, i).files[a] == i.values(a)
  {
    var body := ScriptOf(i.command).body;
    BodyEffects(w, body, i.env, i.values, i.budget);
    ScriptWrites(i.command, a);
    WritesValues(w, body, i.env, i.values, i.budget, a);
  }

  /** Once features, report and configuration are frozen, the agent's inputs are fixed. */
  lemma SameInputs(w: World, t: World)
    requires Keeps(w, t) && Features in w.files && FeatureReport in w.files && ExperimentConfig in w.files
    ensures AgentRows(w) == AgentRows(t) && ConfigIn(w) == ConfigIn(t)
  {
  }

  lemma EarlierFiles(w: World)
    requires Timely(w) && Index(StageOf(w)) >= 5
    ensures Features in w.files && FeatureReport in w.files && ExperimentConfig in w.files && CohortReport in w.files
  {
  }

  lemma StageOfFile(w: World, a: Artifact)
    requires Timely(w) && a in w.files
    ensures WrittenAt(a) <= Index(StageOf(w))
  {
  }

  lemma AgentWritesAt(c: Command, k: nat)
    requires k < |ScriptOf(c).body| && ScriptOf(c).body[k] == Write(AgentRawResponses)
    ensures k == 5 && ScriptOf(c).body[4] == Write(AgentPredictions) && ScriptOf(c).body[2] == Write(AgentBatchManifest)
  {
    WriterAt(c, k, AgentRawResponses);
    AgentBody(k);
  }

  lemma AgentBody(k: nat)
    requires k < |ScriptOf(RunAgent).body| && ScriptOf(RunAgent).body[k] == Write(AgentRawResponses)
    ensures k == 5 && ScriptOf(RunAgent).body[4] == Write(AgentPredictions) && ScriptOf(RunAgent).body[2] == Write(AgentBatchManifest)
  {
  }

  lemma GenuineLog(w: World, i: Invocation)
    requires Genuine(w, i) && i.command == WriterOf(AgentRawResponses) && Admitted(w, ScriptOf(i.command), i.env)
    requires AgentBatchManifest !in w.files && i.budget > 4
    ensures FromRun(w, i.values(AgentBatchManifest), i.values(AgentPredictions), i.values(AgentRawResponses))
  {
    assert GenuineAgent(w, i);
  }

  lemma AgentStageIs(w: World, c: Command, env: Environment)
    requires c == WriterOf(AgentRawResponses) && Admitted(w, ScriptOf(c), env)
    ensures StageOf(w) == FEATURES_FROZEN
  {
  }

  /** A new raw log was written after the manifest and the predictions of the same invocation. */
  lemma LogIsLast(w: World, i: Invocation)
    requires AgentRawResponses !in w.files && AgentRawResponses in Invoke(w, i).files
    ensures i.budget > 4
    ensures AgentBatchManifest !in w.files && AgentBatchManifest in Invoke(w, i).files
    ensures AgentPredictions !in w.files && AgentPredictions in Invoke(w, i).files
  {
    var k := InvokeOrder(w, i, AgentRawResponses);
    AgentWritesAt(i.command, k);
    assert ScriptOf(i.command).body[4].artifact == AgentPredictions && ScriptOf(i.command).body[2].artifact == AgentBatchManifest;
  }

  lemma NewLog(w: World, i: Invocation)
    requires Genuine(w, i) && AgentRawResponses !in w.files && AgentRawResponses in Invoke(w, i).files
    ensures StageOf(w) == FEATURES_FROZEN
    ensures var t := Invoke(w, i);
      FromRun(w, Held(t, AgentBatchManifest), Held(t, AgentPredictions), Held(t, AgentRawResponses))
  {
    LogIsLast(w, i);
    HeldNew(w, i, AgentRawResponses);
    HeldNew(w, i, AgentPredictions);
    HeldNew(w, i, AgentBatchManifest);
    Added(w, i, AgentRawResponses);
    GenuineLog(w, i);
    AgentStageIs(w, i.command, i.env);
  }

  lemma HeldNew(w: World, i: Invocation, a: Artifact)
    requires a !in w.files && a in Invoke(w, i).files
    ensures Held(Invoke(w, i), a) == i.values(a)
  {
    Added(w, i, a);
  }

  lemma RunOfKeeps(w: World, t: World, manifest: Value, result: Value, log: Value)
    requires FromRun(w, manifest, result, log) && AgentRows(w) == AgentRows(t) && ConfigIn(w) == ConfigIn(t)
    ensures FromRun(t, manifest, result, log)
  {
    var batches: seq<Batches.Batch>, transport: Execution.Transport :| RunOf(w, manifest, result, log, batches, transport);
    assert RunOf(t, manifest, result, log, batches, transport);
  }

  /** A log that was there had its manifest and its predictions. */
  lemma OldLog(w: World, i: Invocation)
    requires FileOrder(w) && AgentRawResponses in w.files && AgentPredictions in Invoke(w, i).files
    ensures AgentBatchManifest in w.files && AgentPredictions in w.files
  {
    assert WriterOf(AgentRawResponses) == WriterOf(AgentPredictions) == RunAgent;
    if AgentPredictions !in w.files {
      NoNewAgentFile(w, i, AgentPredictions);
    }
  }

  lemma AgentStage(w: World, a: Artifact)
    requires Timely(w) && a in w.files && WrittenAt(a) >= 5
    ensures Features in w.files && FeatureReport in w.files && ExperimentConfig in w.files
  {
    StageOfFile(w, a);
    EarlierFiles(w);
  }

  /** The origin of a log does not depend on later files. */
  lemma OriginCarries(w: World, t: World)
    requires Keeps(w, t) && Features in w.files && FeatureReport in w.files && ExperimentConfig in w.files
    requires FromRun(w, Held(t, AgentBatchManifest), Held(t, AgentPredictions), Held(t, AgentRawResponses))
    ensures FromRun(t, Held(t, AgentBatchManifest), Held(t, AgentPredictions), Held(t, AgentRawResponses))
  {
    SameInputs(w, t);
    RunOfKeeps(w, t, Held(t, AgentBatchManifest), Held(t, AgentPredictions), Held(t, AgentRawResponses));
  }

  /** A file is added at its own stage. */
  lemma AddedStage(w: World, i: Invocation, a: Artifact)
    requires a !in w.files && a in Invoke(w, i).files
    ensures Index(StageOf(w)) == WrittenAt(a)
  {
    BodyEffects(w, ScriptOf(i.command).body, i.env, i.values, i.budget);
    ScriptWrites(i.command, a);
  }

  lemma NewLogOrigin(w: World, i: Invocation)
    requires Genuine(w, i) && AgentRawResponses !in w.files && AgentRawResponses in Invoke(w, i).files
    requires Features in w.files && FeatureReport in w.files && ExperimentConfig in w.files
    ensures var t := Invoke(w, i);
      FromRun(t, Held(t, AgentBatchManifest), Held(t, AgentPredictions), Held(t, AgentRawResponses))
  {
    NewLog(w, i);
    InvokeGrows(w, i);
    OriginCarries(w, Invoke(w, i));
  }

  /** The files that fix the agent's inputs are there. */
  predicate InputsFrozen(w: World) {
    Features in w.files && FeatureReport in w.files && ExperimentConfig in w.files
  }

  lemma LogInputs(w: World, i: Invocation)
    requires Timely(w) && AgentRawResponses in Invoke(w, i).files
    ensures InputsFrozen(w)
  {
    if AgentRawResponses !in w.files {
      AddedStage(w, i, AgentRawResponses);
      EarlierFiles(w);
    } else {
      AgentStage(w, AgentRawResponses);
    }
  }

  lemma OldLogKept(w: World, t: World)
    requires InputsFrozen(w) && AgentFiles(w) && Keeps(w, t)
    requires AgentBatchManifest in w.files && AgentPredictions in w.files && AgentRawResponses in w.files
    ensures FromRun(t, Held(t, AgentBatchManifest), Held(t, AgentPredictions), Held(t, AgentRawResponses))
  {
    OriginCarries(w, t);
  }

  lemma InvokeKeepsLogOrigin(w: World, i: Invocation)
    requires InputsFrozen(w) && FileOrder(w) && AgentFiles(w) && Genuine(w, i)
    requires AgentPredictions in Invoke(w, i).files && AgentRawResponses in Invoke(w, i).files
    ensures var t := Invoke(w, i);
      FromRun(t, Held(t, AgentBatchManifest), Held(t, AgentPredictions), Held(t, AgentRawResponses))
  {
    if AgentRawResponses !in w.files {
      NewLogOrigin(w, i);
    } else {
      OldLog(w, i);
      InvokeGrows(w, i);
      OldLogKept(w, Invoke(w, i));
    }
  }

  lemma InvokeKeepsFeatures(w: World, i: Invocation)
    requires Genuine(w, i) && Features in Invoke(w, i).files
    requires Features in w.files ==> GenuineFeatures(w.files[Features])
    ensures GenuineFeatures(Invoke(w, i).files[Features])
  {
    InvokeGrows(w, i);
    if Features !in w.files {
      Added(w, i, Features);
      FeaturesFrom(w, i);
    }
  }

  lemma FeaturesFrom(w: World, i: Invocation)
    requires Genuine(w, i) && i.command == WriterOf(Features)
    ensures GenuineFeatures(i.values(Features))
  {
  }

  lemma InvokeKeepsAgentFiles(w: World, i: Invocation)
    requires Timely(w) && FileOrder(w) && AgentFiles(w) && Genuine(w, i)
    ensures AgentFiles(Invoke(w, i))
  {
    var t := Invoke(w, i);
    if Features in t.files {
      InvokeKeepsFeatures(w, i);
    }
    if AgentPredictions in t.files && AgentRawResponses in t.files {
      LogInputs(w, i);
      InvokeKeepsLogOrigin(w, i);
    }
  }

  lemma EvaluateBodyReads()
    ensures Need(AgentStabilityRuns) in ScriptOf(Evaluate).body && Need(AgentSingleCasePredictions) in ScriptOf(Evaluate).body
  {
    assert ScriptOf(Evaluate).body[9] == Need(AgentStabilityRuns);
    assert ScriptOf(Evaluate).body[12] == Need(AgentSingleCasePredictions);
  }

  lemma BodyKeepsState(w: World, body: seq<Op>, env: Environment, values: Artifact -> Value, budget: nat)
    ensures ExecBody(w, body, env, values, budget).world.state == w.state
  {
    BodyEffects(w, body, env, values, budget);
  }

  /** What a script has done that left its stage. */
  lemma ScriptLeaves(w: World, s: Script, env: Environment, values: Artifact -> Value, evidence: Value, budget: nat)
    requires StageOf(Exec(w, s, env, values, evidence, budget)) != StageOf(w)
    ensures ExecBody(w, s.body, env, values, budget).done && s.target.Some? && StageOf(w) == s.stage
    ensures StageOf(Exec(w, s, env, values, evidence, budget)) == s.target.value
    ensures Exec(w, s, env, values, evidence, budget).files == ExecBody(w, s.body, env, values, budget).world.files
  {
    BodyKeepsState(w, s.body, env, values, budget);
  }

  /** A stage is left by its advancing command, for the next one, and after all its reads. */
  ghost predicate LeftBy(w: World, t: World, c: Command) {
    && c == AdvancerOf(StageOf(w))
    && Index(StageOf(t)) == Index(StageOf(w)) + 1
    && forall a | Need(a) in ScriptOf(c).body :: a in t.files
  }

  lemma Left(w: World, i: Invocation)
    requires StageOf(Invoke(w, i)) != StageOf(w)
    ensures LeftBy(w, Invoke(w, i), i.command)
  {
    ScriptLeaves(w, ScriptOf(i.command), i.env, i.values, i.evidence, i.budget);
    OnlyAdvancer(i.command);
    TargetsAreNext(i.command);
    BodyDone(w, ScriptOf(i.command).body, i.env, i.values, i.budget);
  }

  lemma LeftEvaluated(w: World, t: World, c: Command)
    requires LeftBy(w, t, c) && Index(StageOf(t)) == 8
    ensures AgentStabilityRuns in t.files && AgentSingleCasePredictions in t.files
  {
    IndexInjective(StageOf(w), OUTCOMES_FROZEN);
    EvaluateBodyReads();
  }

  /** What the six inputs of the comparison say does not change once they exist. */
  lemma ReplaysStill(w: World, t: World)
    requires Keeps(w, t) && LogReplays(w)
    requires Features in w.files && FeatureReport in w.files && ExperimentConfig in w.files
    ensures LogReplays(t)
  {
    SameInputs(w, t);
    assert AgentBatchManifest in w.files && AgentRawResponses in w.files && AgentPredictions in w.files;
  }

  lemma ReplayCheckFirst(c: Command, k: nat)
    requires k < |ScriptOf(c).body| && ScriptOf(c).body[k] == Write(AgentReplayVerification)
    ensures k == 7 && ScriptOf(c).body[6].Replays? && forall j | 0 <= j < 7 :: !ScriptOf(c).body[j].Write?
    ensures ScriptOf(c).stage == REPRODUCED
  {
    WriterAt(c, k, AgentReplayVerification);
    ReplayBody(k);
  }

  lemma ReplayBody(k: nat)
    requires k < |ScriptOf(VerifyAgentReplay).body| && ScriptOf(VerifyAgentReplay).body[k] == Write(AgentReplayVerification)
    ensures k == 7 && ScriptOf(VerifyAgentReplay).body[6].Replays?
    ensures forall j | 0 <= j < 7 :: !ScriptOf(VerifyAgentReplay).body[j].Write?
  {
  }

  /** A replay verification is only ever written over a log that replays. */
  lemma NewVerification(w: World, i: Invocation)
    requires AgentReplayVerification !in w.files && AgentReplayVerification in Invoke(w, i).files
    ensures LogReplays(w) && StageOf(w) == REPRODUCED
  {
    var k := InvokeOrder(w, i, AgentReplayVerification);
    ReplayCheckFirst(i.command, k);
    InvokeChecks(w, i, 7, AgentReplayVerification);
    assert ScriptOf(i.command).body[6].Replays?;
  }

  lemma EvaluatedHasRepeats(w: World, i: Invocation)
    requires Index(StageOf(Invoke(w, i))) >= 8 && Index(StageOf(w)) < 8
    ensures AgentStabilityRuns in Invoke(w, i).files && AgentSingleCasePredictions in Invoke(w, i).files
  {
    Left(w, i);
    LeftEvaluated(w, Invoke(w, i), i.command);
  }

  lemma NewlyVerified(w: World, i: Invocation)
    requires Timely(w) && AgentReplayVerification !in w.files && AgentReplayVerification in Invoke(w, i).files
    ensures LogReplays(Invoke(w, i))
  {
    NewVerification(w, i);
    EarlierFiles(w);
    InvokeGrows(w, i);
    ReplaysStill(w, Invoke(w, i));
  }

  lemma StillVerified(w: World, i: Invocation)
    requires Timely(w) && AgentReplayVerification in w.files && LogReplays(w)
    ensures LogReplays(Invoke(w, i))
  {
    AgentStage(w, AgentReplayVerification);
    InvokeGrows(w, i);
    ReplaysStill(w, Invoke(w, i));
  }

  lemma InvokeKeepsLateFiles(w: World, i: Invocation)
    requires Timely(w) && LateFiles(w)
    ensures LateFiles(Invoke(w, i))
  {
    InvokeGrows(w, i);
    var t := Invoke(w, i);
    if Index(StageOf(t)) >= 8 && Index(StageOf(w)) < 8 {
      EvaluatedHasRepeats(w, i);
    }
    if AgentReplayVerification in t.files {
      if AgentReplayVerification in w.files {
        StillVerified(w, i);
      } else {
        NewlyVerified(w, i);
      }
    }
  }

  lemma InvokeKeepsGood(w: World, i: Invocation)
    requires GoodFiles(w) && Genuine(w, i)
    ensures GoodFiles(Invoke(w, i)) && Keeps(w, Invoke(w, i))
  {
    InvokeKeepsInv(w, i);
    InvokeKeepsOrder(w, i);
    InvokeKeepsAgentFiles(w, i);
    InvokeKeepsLateFiles(w, i);
  }

  lemma {:induction false} RunsKeepGood(w: World, runs: seq<Invocation>)
    requires GoodFiles(w) && Possible(w, runs)
    ensures GoodFiles(After(w, runs))
  {
    if runs != [] {
      var last := |runs| - 1;
      RunsKeepGood(w, runs[..last]);
      InvokeKeepsGood(After(w, runs[..last]), runs[last]);
    }
  }

  lemma EmptyGood()
    ensures GoodFiles(EMPTY)
  {
    EmptyInv();
  }

  // ----- the frozen log

  lemma {:induction false} FilterDistinct(rows: seq<Batches.Row>, p: Batches.Row -> bool, key: Batches.Row -> string)
    requires Distinct(Map(key, rows))
    ensures Distinct(Map(key, Filter(rows, p)))
    ensures forall k | k in Map(key, Filter(rows, p)) :: k in Map(key, rows)
  {
    if rows != [] {
      var rest := rows[1..];
      assert Map(key, rows) == [key(rows[0])] + Map(key, rest);
      DistinctTail(Map(key, rows));
      FilterDistinct(rest, p, key);
      var kept := Map(key, Filter(rest, p));
      if p(rows[0]) {
        assert Map(key, Filter(rows, p)) == [key(rows[0])] + kept;
        assert key(rows[0]) !in kept;
      } else {
        assert Filter(rows, p) == Filter(rest, p);
      }
    }
  }

  /** The selected rows are distinct because all rows are. */
  lemma AgentRowsDistinct(w: World)
    requires AgentFiles(w)
    ensures Built.DistinctRows(AgentRows(w))
  {
    if Held(w, Features).FeatureRows? && Held(w, FeatureReport).Report? {
      var rows := Held(w, Features).rows;
      var p := Chosen(Held(w, FeatureReport).agentIds);
      FilterDistinct(rows, p, Logged.CompanyIdOf);
      FilterDistinct(rows, p, Logged.ObservationIdOf);
    }
  }

  /** Whether the frozen log replays can be read off the log. */
  lemma ReplaysIffSteady(w: World)
    requires AgentFiles(w) && AgentPredictions in w.files && AgentRawResponses in w.files
    ensures LogReplays(w) <==> !LogUnsteady(w)
  {
    AgentRowsDistinct(w);
    var batches: seq<Batches.Batch>, transport: Execution.Transport :|
      RunOf(w, Held(w, AgentBatchManifest), Held(w, AgentPredictions), Held(w, AgentRawResponses), batches, transport);
    Built.BuiltManifestReplays(AgentRows(w), batches, ConfigIn(w), transport);
  }

  // ----- lost states stay lost

  lemma IncompleteEarly(w: World)
    requires GoodFiles(w) && AgentIncomplete(w)
    ensures Index(StageOf(w)) <= 7
  {
  }

  lemma IncompleteStays(w: World, i: Invocation)
    requires AgentIncomplete(w)
    ensures AgentIncomplete(Invoke(w, i))
  {
    InvokeGrows(w, i);
    if AgentPredictions !in w.files {
      NoNewAgentFile(w, i, AgentPredictions);
    } else if AgentRawResponses !in w.files {
      NoNewAgentFile(w, i, AgentRawResponses);
    } else if AgentStabilityRuns !in w.files {
      NoNewAgentFile(w, i, AgentStabilityRuns);
    } else {
      NoNewAgentFile(w, i, AgentSingleCasePredictions);
    }
  }

  lemma FreezeReadsPredictions()
    ensures Need(AgentPredictions) in ScriptOf(FreezePredictions).body
  {
    assert ScriptOf(FreezePredictions).body[1] == Need(AgentPredictions);
  }

  lemma GenuineManifest(w: World, i: Invocation)
    requires Genuine(w, i) && AgentBatchManifest !in w.files && AgentBatchManifest in Invoke(w, i).files
    ensures !Batches.Unpackable(AgentRows(w))
  {
    ManifestReached(w, i);
    Added(w, i, AgentBatchManifest);
    ManifestFrom(w, i);
    Batches.ManifestIffPackable(AgentRows(w));
  }

  lemma ManifestReached(w: World, i: Invocation)
    requires AgentBatchManifest !in w.files && AgentBatchManifest in Invoke(w, i).files
    ensures i.budget > 2
  {
    var k := InvokeOrder(w, i, AgentBatchManifest);
    ManifestPlace(i.command, k);
  }

  lemma ManifestFrom(w: World, i: Invocation)
    requires Genuine(w, i) && i.command == WriterOf(AgentBatchManifest) && Admitted(w, ScriptOf(i.command), i.env)
    requires AgentBatchManifest !in w.files && i.budget > 2
    ensures IsManifest(w, i.values(AgentBatchManifest))
  {
    assert GenuineAgent(w, i);
  }

  lemma UnfreezableStays(w: World, i: Invocation)
    requires StageOf(w) == FEATURES_FROZEN && AgentPredictions !in w.files
    ensures StageOf(Invoke(w, i)) == FEATURES_FROZEN
  {
    var c := ScriptOf(i.command);
    BodyEffects(w, c.body, i.env, i.values, i.budget);
    if StageOf(Invoke(w, i)) != StageOf(w) {
      OnlyAdvancer(i.command);
      FreezeReadsPredictions();
      MissingNeed(w, i, AgentPredictions);
    }
  }

  /** Without a manifest there are no predictions to freeze, and unpackable rows have no manifest. */
  lemma ImpossibleStays(w: World, i: Invocation)
    requires Timely(w) && FileOrder(w) && AgentImpossible(w) && Genuine(w, i)
    ensures AgentImpossible(Invoke(w, i))
  {
    EarlierFiles(w);
    InvokeGrows(w, i);
    SameInputs(w, Invoke(w, i));
    if AgentBatchManifest in Invoke(w, i).files {
      GenuineManifest(w, i);
    }
    assert AgentPredictions !in w.files by {
      assert WriterOf(AgentPredictions) == RunAgent;
    }
    UnfreezableStays(w, i);
  }

  lemma ManifestPlace(c: Command, k: nat)
    requires k < |ScriptOf(c).body| && ScriptOf(c).body[k] == Write(AgentBatchManifest)
    ensures k == 2
  {
    WriterAt(c, k, AgentBatchManifest);
    ManifestBody(k);
  }

  lemma ManifestBody(k: nat)
    requires k < |ScriptOf(RunAgent).body| && ScriptOf(RunAgent).body[k] == Write(AgentBatchManifest)
    ensures k == 2
  {
  }

  lemma UnsteadyStays(w: World, i: Invocation)
    requires LogUnsteady(w)
    ensures LogUnsteady(Invoke(w, i))
  {
    InvokeGrows(w, i);
  }

  lemma RenderedIsVerified(w: World)
    requires Timely(w) && StageOf(w) == README_RENDERED
    ensures AgentReplayVerification in w.files
  {
    assert WrittenAt(AgentReplayVerification) == 9;
  }

  /** With an unsteady log the last stage is out of reach. */
  lemma UnsteadyUnrendered(w: World)
    requires Timely(w) && AgentFiles(w) && LateFiles(w) && LogUnsteady(w)
    ensures StageOf(w) != README_RENDERED
  {
    ReplaysIffSteady(w);
    if StageOf(w) == README_RENDERED {
      RenderedIsVerified(w);
    }
  }

  lemma DoomedStays(w: World, i: Invocation)
    requires GoodFiles(w) && Doomed(w) && Genuine(w, i)
    ensures Doomed(Invoke(w, i))
  {
    InvokeKeepsGood(w, i);
    var t := Invoke(w, i);
    if Clogged(w) {
      CloggedKeepsStage(w, i);
    } else if AgentIncomplete(w) {
      IncompleteStays(w, i);
      IncompleteEarly(t);
    } else if AgentImpossible(w) {
      ImpossibleStays(w, i);
    } else {
      UnsteadyStays(w, i);
      UnsteadyUnrendered(t);
    }
  }

  /** From a lost state no run of commands reaches the last stage. */
  lemma {:induction false} DoomedForever(w: World, runs: seq<Invocation>)
    requires GoodFiles(w) && Doomed(w) && Possible(w, runs)
    ensures GoodFiles(After(w, runs)) && Doomed(After(w, runs))
  {
    if runs != [] {
      var last := |runs| - 1;
      DoomedForever(w, runs[..last]);
      InvokeKeepsGood(After(w, runs[..last]), runs[last]);
      DoomedStays(After(w, runs[..last]), runs[last]);
    }
  }
}
