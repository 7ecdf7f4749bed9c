/** Every state of the E4 study that is not lost can be finished; together with `DoomedForever` this makes the
    condition exact. */
module StudyFinishing {
  import Batches = AgentBatches
  import Runs = AgentReplay
  import Trip = RoundTripTheorem
  import Built = ManifestRoundTrip
  import Obliging = ObligingTransport
  import opened StudyCommands
  import opened StudySafety
  import opened StudyProgress
  import opened StudyCompletion

  // ----- running one command to its end

  function EnvFor(c: Command): Environment {
    if ScriptOf(c).mounted then MOUNTED else ISOLATED
  }

  function Whole(c: Command, values: Artifact -> Value): Invocation {
    Invocation(c, EnvFor(c), values, Other(0), |ScriptOf(c).body| + 1)
  }

  function Defaults(a: Artifact): Value {
    match a
    case Features => FeatureRows([])
    case FeatureReport => Report({})
    case ExperimentConfig => Config("")
    case _ => Other(0)
  }

  /** What a command that runs to its end leaves behind. */
  ghost predicate Ended(w: World, t: World, c: Command, values: Artifact -> Value) {
    && Keeps(w, t)
    && (forall k | 0 <= k < |ScriptOf(c).body| && !ScriptOf(c).body[k].Replays? :: ScriptOf(c).body[k].artifact in t.files)
    && (forall a | a in t.files && a !in w.files :: WriterOf(a) == c && t.files[a] == values(a))
    && StageOf(t) == (if ScriptOf(c).target.Some? then ScriptOf(c).target.value else StageOf(w))
  }

  lemma NewFiles(w: World, c: Command, values: Artifact -> Value, a: Artifact)
    requires a !in w.files && a in Invoke(w, Whole(c, values)).files
    ensures WriterOf(a) == c && Invoke(w, Whole(c, values)).files[a] == values(a)
  {
    Added(w, Whole(c, values), a);
  }

  lemma TouchedFiles(w: World, body: seq<Op>, env: Environment, values: Artifact -> Value, budget: nat)
    requires ExecBody(w, body, env, values, budget).done
    ensures forall k | 0 <= k < |body| && !body[k].Replays? :: body[k].artifact in ExecBody(w, body, env, values, budget).world.files
  {
    BodyDone(w, body, env, values, budget);
    forall k | 0 <= k < |body| && !body[k].Replays?
      ensures body[k].artifact in ExecBody(w, body, env, values, budget).world.files
    {
      assert body[k] in body;
      assert body[k] == Need(body[k].artifact) || body[k] == Write(body[k].artifact);
    }
  }

  /** A command that is admitted and ready ends, and advances if it is one that does. */
  lemma WholeWorld(w: World, c: Command, values: Artifact -> Value)
    requires Admitted(w, ScriptOf(c), EnvFor(c)) && Ready(w, ScriptOf(c).body)
    ensures var i := Whole(c, values);
      var ran := ExecBody(w, ScriptOf(c).body, i.env, values, i.budget);
      && ran.done
      && Invoke(w, i).files == ran.world.files
      && StageOf(Invoke(w, i)) == (if ScriptOf(c).target.Some? then ScriptOf(c).target.value else StageOf(w))
  {
    var i := Whole(c, values);
    ReadyCompletes(w, ScriptOf(c).body, i.env, values, i.budget);
    BodyEffects(w, ScriptOf(c).body, i.env, values, i.budget);
    if ScriptOf(c).target.Some? {
      TargetsAreNext(c);
    }
    ConcludedWorld(ExecBody(w, ScriptOf(c).body, i.env, values, i.budget), ScriptOf(c), i.budget);
  }

  lemma ConcludedWorld(ran: Ran, c: Script, budget: nat)
    requires ran.done && budget > |c.body| && StageOf(ran.world) == c.stage
    requires c.target.Some? ==> Index(c.target.value) == Index(c.stage) + 1
    ensures Concluded(ran, c, Other(0), budget).files == ran.world.files
    ensures StageOf(Concluded(ran, c, Other(0), budget)) == if c.target.Some? then c.target.value else c.stage
  {
  }

  lemma WholeRun(w: World, c: Command, values: Artifact -> Value)
    requires Admitted(w, ScriptOf(c), EnvFor(c)) && Ready(w, ScriptOf(c).body)
    ensures Ended(w, Invoke(w, Whole(c, values)), c, values)
  {
    var i := Whole(c, values);
    WholeWorld(w, c, values);
    TouchedFiles(w, ScriptOf(c).body, i.env, values, i.budget);
    InvokeGrows(w, i);
    forall a | a in Invoke(w, i).files && a !in w.files ensures WriterOf(a) == c && Invoke(w, i).files[a] == values(a) {
      NewFiles(w, c, values, a);
    }
  }

  lemma {:induction false} AfterFirst(w: World, i: Invocation, runs: seq<Invocation>)
    requires Genuine(w, i) && Possible(Invoke(w, i), runs)
    ensures After(w, [i] + runs) == After(Invoke(w, i), runs) && Possible(w, [i] + runs)
  {
    var all := [i] + runs;
    if runs == [] {
      assert all == [i] && [i][..0] == [];
      assert After(w, []) == w && Possible(w, []);
    } else {
      var init, last := runs[..|runs| - 1], runs[|runs| - 1];
      assert all[..|all| - 1] == [i] + init && all[|all| - 1] == last;
      AfterFirst(w, i, init);
      assert After(w, all) == Invoke(After(w, [i] + init), last);
    }
  }

  lemma FinishFirst(w: World, i: Invocation)
    requires Genuine(w, i) && CanFinish(Invoke(w, i))
    ensures CanFinish(w)
  {
    var runs :| Possible(Invoke(w, i), runs) && StageOf(After(Invoke(w, i), runs)) == README_RENDERED;
    AfterFirst(w, i, runs);
  }

  // ----- hope

  /** Not lost, whatever the stage's own files. */
  predicate Hopeful(w: World) {
    !AgentIncomplete(w) && !LogUnsteady(w)
  }

  lemma StaysHopeful(w: World, t: World, c: Command)
    requires Hopeful(w) && Keeps(w, t) && c != RunAgent
    requires forall a | a in t.files && a !in w.files :: WriterOf(a) == c
    ensures Hopeful(t)
  {
    assert WriterOf(AgentBatchManifest) == WriterOf(AgentPredictions) == WriterOf(AgentRawResponses) == RunAgent;
  }

  /** At a new stage nothing of the next command exists yet. */
  lemma NextUnclogged(w: World, t: World, c: Command)
    requires Timely(w) && ScriptOf(c).stage == StageOf(w) && Index(StageOf(t)) == Index(StageOf(w)) + 1
    requires forall a | a in t.files && a !in w.files :: WriterOf(a) == c
    ensures !Clogged(t)
  {
    if Clogged(t) {
      var a :| Write(a) in ScriptOf(AdvancerOf(StageOf(t))).body && a in t.files;
      ScriptWrites(AdvancerOf(StageOf(t)), a);
      AdvancerStage(StageOf(t));
      if a !in w.files {
        WriterStage(a);
      }
      assert false;
    }
  }

  lemma AdvancerStage(s: Stage)
    ensures ScriptOf(AdvancerOf(s)).stage == s
  {
  }

  lemma StillUnclogged(w: World, t: World, c: Command)
    requires !Clogged(w) && StageOf(t) == StageOf(w) && c != AdvancerOf(StageOf(w))
    requires forall a | a in t.files && a !in w.files :: WriterOf(a) == c
    ensures !Clogged(t)
  {
    if Clogged(t) {
      var a :| Write(a) in ScriptOf(AdvancerOf(StageOf(t))).body && a in t.files;
      ScriptWrites(AdvancerOf(StageOf(t)), a);
      assert false;
    }
  }

  // ----- the advancing commands

  lemma ShortCompareNothing(c: Command)
    requires !LongScript(c)
    ensures forall k | 0 <= k < |ScriptOf(c).body| :: !ScriptOf(c).body[k].Replays?
  {
  }

  lemma EvaluateComparesNothing()
    ensures forall k | 0 <= k < |ScriptOf(Evaluate).body| :: !ScriptOf(Evaluate).body[k].Replays?
  {
  }

  lemma ReproduceComparesNothing()
    ensures forall k | 0 <= k < |ScriptOf(Reproduce).body| :: !ScriptOf(Reproduce).body[k].Replays?
  {
  }

  lemma RenderComparesNothing()
    ensures forall k | 0 <= k < |ScriptOf(Render).body| :: !ScriptOf(Render).body[k].Replays?
  {
  }

  lemma FreezeComparesNothing()
    ensures forall k | 0 <= k < |ScriptOf(FreezePredictions).body| :: !ScriptOf(FreezePredictions).body[k].Replays?
  {
  }

  lemma BodyReady(w: World, body: seq<Op>)
    requires DistinctWrites(body) && forall k | 0 <= k < |body| :: !body[k].Replays?
    requires forall k | 0 <= k < |body| && body[k].Need? :: body[k].artifact in w.files
    requires forall a | Write(a) in body :: a !in w.files
    ensures Ready(w, body)
  {
    forall k | 0 <= k < |body| && body[k].Write? ensures body[k].artifact !in w.files {
      assert Write(body[k].artifact) in body;
    }
  }

  /** Between the stages with more than one command, the advancing command finds all it reads. */
  lemma SimpleReady(w: World)
    requires Timely(w) && !Clogged(w)
    requires StageOf(w) !in {FEATURES_FROZEN, OUTCOMES_FROZEN, REPRODUCED, README_RENDERED}
    ensures Ready(w, ScriptOf(AdvancerOf(StageOf(w))).body)
  {
    var c := AdvancerOf(StageOf(w));
    AdvancerFits(StageOf(w));
    if c == Reproduce {
      ReproduceReads();
      ReproduceComparesNothing();
    } else {
      ShortAdvancers(c);
      ShortCompareNothing(c);
    }
    ReadsAreThere(w, ScriptOf(c).body);
    BodyReady(w, ScriptOf(c).body);
  }

  lemma ManifestIsThere(w: World)
    requires Timely(w) && Index(StageOf(w)) >= 6
    ensures AgentBatchManifest in w.files
  {
  }

  lemma EvaluateReady(w: World)
    requires Timely(w) && !Clogged(w) && !AgentIncomplete(w) && StageOf(w) == OUTCOMES_FROZEN
    ensures Ready(w, ScriptOf(AdvancerOf(StageOf(w))).body)
  {
    var body := ScriptOf(Evaluate).body;
    ManifestIsThere(w);
    EvaluateWritesDiffer();
    EvaluateComparesNothing();
    forall k | 0 <= k < |body| && body[k].Need? ensures body[k].artifact in w.files {
      EvaluateReads(k);
    }
    BodyReady(w, body);
  }

  lemma RenderReady(w: World)
    requires Timely(w) && !Clogged(w) && StageOf(w) == REPRODUCED && AgentReplayVerification in w.files
    ensures Ready(w, ScriptOf(AdvancerOf(StageOf(w))).body)
  {
    var body := ScriptOf(Render).body;
    RenderWritesDiffer();
    RenderComparesNothing();
    forall k | 0 <= k < |body| && body[k].Need? ensures body[k].artifact in w.files {
      RenderReads(k);
    }
    BodyReady(w, body);
  }

  /** The agent command is not the one in question. */
  lemma GenuineDefaults(w: World, c: Command)
    requires c != RunAgent
    ensures Genuine(w, Whole(c, Defaults))
  {
  }

  /** The features of `Defaults` select no rows, which pack. */
  lemma NoRowsPack(t: World)
    requires Held(t, Features) == FeatureRows([])
    ensures !Batches.Unpackable(AgentRows(t))
  {
    assert AgentRows(t) == [];
  }

  lemma AdvanceAdmitted(w: World)
    requires StageOf(w) != README_RENDERED
    ensures Admitted(w, ScriptOf(AdvancerOf(StageOf(w))), EnvFor(AdvancerOf(StageOf(w))))
    ensures ScriptOf(AdvancerOf(StageOf(w))).target.Some? && AdvancerOf(StageOf(w)) != RunAgent
  {
    AdvancerFits(StageOf(w));
  }

  /** The files that other commands of the stage leave for the advancing one. */
  predicate Prepared(w: World) {
    && (StageOf(w) == FEATURES_FROZEN ==>
          NumericPredictions in w.files && AgentBatchManifest in w.files && HybridPredictions in w.files)
    && (StageOf(w) == REPRODUCED ==> AgentReplayVerification in w.files)
  }

  lemma AdvancerReady(w: World)
    requires Timely(w) && StageOf(w) != README_RENDERED && !Clogged(w) && !AgentIncomplete(w) && Prepared(w)
    ensures Ready(w, ScriptOf(AdvancerOf(StageOf(w))).body)
  {
    if StageOf(w) == FEATURES_FROZEN {
      InputsThere(w);
      FreezeReady(w);
    } else if StageOf(w) == OUTCOMES_FROZEN {
      EvaluateReady(w);
    } else if StageOf(w) == REPRODUCED {
      RenderReady(w);
    } else {
      SimpleReady(w);
    }
  }

  /** One stage further, and still not lost. */
  lemma Leave(w: World) returns (t: World)
    requires GoodFiles(w) && StageOf(w) != README_RENDERED && !Clogged(w) && Hopeful(w) && Prepared(w)
    ensures GoodFiles(t) && !Doomed(t) && Index(StageOf(t)) == Index(StageOf(w)) + 1
    ensures CanFinish(t) ==> CanFinish(w)
  {
    var c := AdvancerOf(StageOf(w));
    AdvanceAdmitted(w);
    AdvancerReady(w);
    t := Unhurt(w, c);
    TargetsAreNext(c);
    AdvancerStage(StageOf(w));
    NextUnclogged(w, t, c);
    if StageOf(t) == FEATURES_FROZEN {
      IndexInjective(StageOf(w), COHORT_FROZEN);
      FreshFeatures(w, t);
      NoRowsPack(t);
    }
  }

  lemma FreshFeatures(w: World, t: World)
    requires StageOf(w) == COHORT_FROZEN && !Clogged(w) && Ended(w, t, BuildFeatures, Defaults)
    ensures Held(t, Features) == FeatureRows([])
  {
    assert ScriptOf(BuildFeatures).body[1] == Write(Features);
    assert Write(Features) in ScriptOf(AdvancerOf(COHORT_FROZEN)).body;
  }

  // ----- the prediction stage

  ghost predicate Predicting(w: World) {
    && GoodFiles(w) && StageOf(w) == FEATURES_FROZEN
    && !Clogged(w) && Hopeful(w) && !AgentImpossible(w)
  }

  lemma NumericBodyIs()
    ensures ScriptOf(RunNumeric).body == [Need(Features), Need(ExperimentConfig), Write(NumericPredictions), Write(NumericReport)]
  {
  }

  lemma HybridBodyIs()
    ensures ScriptOf(RunHybrid).body == [Need(NumericPredictions), Need(AgentPredictions), Need(ExperimentConfig), Write(HybridPredictions)]
  {
  }

  lemma AgentDistinct()
    ensures DistinctWrites(ScriptOf(RunAgent).body)
  {
  }

  lemma AgentComparesNothing()
    ensures forall k | 0 <= k < |ScriptOf(RunAgent).body| :: !ScriptOf(RunAgent).body[k].Replays?
  {
  }

  lemma AgentReads(k: nat)
    requires k < |ScriptOf(RunAgent).body| && ScriptOf(RunAgent).body[k].Need?
    ensures ScriptOf(RunAgent).body[k].artifact in {Features, FeatureReport, ExperimentConfig}
  {
  }

  /** Where the agent's files stand in its command. */
  lemma AgentPlaces()
    ensures |ScriptOf(RunAgent).body| == 10
    ensures ScriptOf(RunAgent).body[2] == Write(AgentBatchManifest) && ScriptOf(RunAgent).body[4] == Write(AgentPredictions)
    ensures ScriptOf(RunAgent).body[5] == Write(AgentRawResponses) && ScriptOf(RunAgent).body[6] == Write(AgentStabilityRuns)
    ensures ScriptOf(RunAgent).body[8] == Write(AgentSingleCasePredictions)
  {
  }

  lemma PredictionAdmitted(w: World, c: Command, refused: Artifact)
    requires StageOf(w) == FEATURES_FROZEN && refused !in w.files
    requires (c == RunNumeric && refused == NumericPredictions) || (c == RunAgent && refused == AgentPredictions)
      || (c == RunHybrid && refused == HybridPredictions)
    ensures Admitted(w, ScriptOf(c), EnvFor(c)) && ScriptOf(c).target.None? && c != AdvancerOf(StageOf(w))
  {
  }

  lemma InputsThere(w: World)
    requires Timely(w) && Index(StageOf(w)) >= 5
    ensures InputsFrozen(w)
  {
    EarlierFiles(w);
  }

  /** After a prediction command the stage is still open. */
  lemma StillPredicting(w: World, t: World, c: Command)
    requires Predicting(w) && GoodFiles(t) && StageOf(t) == FEATURES_FROZEN && Keeps(w, t) && Hopeful(t)
    requires c != AdvancerOf(StageOf(w)) && forall a | a in t.files && a !in w.files :: WriterOf(a) == c
    requires AgentBatchManifest in t.files ==> AgentBatchManifest in w.files || c == RunAgent
    ensures Predicting(t)
  {
    StillUnclogged(w, t, c);
    InputsThere(w);
    SameInputs(w, t);
  }

  lemma NoManifestFrom(w: World, t: World, c: Command)
    requires Ended(w, t, c, Defaults) && c != RunAgent
    ensures AgentBatchManifest in t.files ==> AgentBatchManifest in w.files
  {
    assert WriterOf(AgentBatchManifest) == RunAgent;
  }

  /** A prediction command other than the agent's that has not run and whose inputs are there. */
  predicate Open(w: World, c: Command) {
    || (c == RunNumeric && NumericPredictions !in w.files)
    || (c == RunHybrid && HybridPredictions !in w.files && NumericPredictions in w.files && AgentBatchManifest in w.files)
  }

  lemma OpenReady(w: World, c: Command)
    requires InputsFrozen(w) && FileOrder(w) && !AgentIncomplete(w) && Open(w, c)
    ensures Ready(w, ScriptOf(c).body)
  {
    if c == RunNumeric {
      NumericReady(w);
    } else {
      HybridReady(w);
    }
  }

  lemma OpenAdmitted(w: World, c: Command)
    requires StageOf(w) == FEATURES_FROZEN && Open(w, c)
    ensures Admitted(w, ScriptOf(c), EnvFor(c)) && ScriptOf(c).target.None? && c != AdvancerOf(StageOf(w))
  {
    PredictionAdmitted(w, c, if c == RunNumeric then NumericPredictions else HybridPredictions);
  }

  lemma OpenMayRun(w: World, c: Command)
    requires Timely(w) && FileOrder(w) && !AgentIncomplete(w) && StageOf(w) == FEATURES_FROZEN && Open(w, c)
    ensures Admitted(w, ScriptOf(c), EnvFor(c)) && ScriptOf(c).target.None? && c != AdvancerOf(StageOf(w)) && c != RunAgent
    ensures Ready(w, ScriptOf(c).body)
  {
    InputsThere(w);
    OpenReady(w, c);
    OpenAdmitted(w, c);
  }

  lemma OpenDone(w: World, t: World, c: Command)
    requires Ended(w, t, c, Defaults)
    ensures c == RunNumeric ==> NumericPredictions in t.files
    ensures c == RunHybrid ==> HybridPredictions in t.files
  {
    if c == RunNumeric {
      NumericThere(w, t);
    } else if c == RunHybrid {
      HybridThere(w, t);
    }
  }

  /** An open prediction command run to its end. */
  lemma Predict(w: World, c: Command) returns (t: World)
    requires Predicting(w) && Open(w, c)
    ensures Predicting(t) && Keeps(w, t)
    ensures c == RunNumeric ==> NumericPredictions in t.files
    ensures c == RunHybrid ==> HybridPredictions in t.files
    ensures CanFinish(t) ==> CanFinish(w)
  {
    OpenMayRun(w, c);
    t := Unhurt(w, c);
    OpenDone(w, t, c);
    NoManifestFrom(w, t, c);
    StillPredicting(w, t, c);
  }

  /** Any command but the agent's, run to its end with the default values. */
  lemma Unhurt(w: World, c: Command) returns (t: World)
    requires GoodFiles(w) && Hopeful(w) && c != RunAgent
    requires Admitted(w, ScriptOf(c), EnvFor(c)) && Ready(w, ScriptOf(c).body)
    ensures GoodFiles(t) && Hopeful(t) && Ended(w, t, c, Defaults)
    ensures CanFinish(t) ==> CanFinish(w)
  {
    var i := Whole(c, Defaults);
    WholeRun(w, c, Defaults);
    GenuineDefaults(w, c);
    t := Invoke(w, i);
    InvokeKeepsGood(w, i);
    StaysHopeful(w, t, c);
    if CanFinish(t) {
      FinishFirst(w, i);
    }
  }

  lemma NumericReady(w: World)
    requires InputsFrozen(w) && NumericPredictions !in w.files && NumericReport !in w.files
    ensures Ready(w, ScriptOf(RunNumeric).body)
  {
    NumericBodyIs();
  }

  lemma HybridReady(w: World)
    requires InputsFrozen(w) && NumericPredictions in w.files && AgentPredictions in w.files && HybridPredictions !in w.files
    ensures Ready(w, ScriptOf(RunHybrid).body)
  {
    HybridBodyIs();
  }

  lemma AgentReady(w: World)
    requires InputsFrozen(w) && forall a | WriterOf(a) == RunAgent :: a !in w.files
    ensures Ready(w, ScriptOf(RunAgent).body)
  {
    AgentDistinct();
    AgentComparesNothing();
    forall k | 0 <= k < |ScriptOf(RunAgent).body| && ScriptOf(RunAgent).body[k].Need?
      ensures ScriptOf(RunAgent).body[k].artifact in w.files
    {
      AgentReads(k);
    }
    forall a | Write(a) in ScriptOf(RunAgent).body ensures a !in w.files {
      ScriptWrites(RunAgent, a);
    }
    BodyReady(w, ScriptOf(RunAgent).body);
  }

  /** The values of an agent run. */
  function AgentValues(batches: seq<Batches.Batch>, predictions: seq<Runs.Prediction>, raw: Runs.RawLog): Artifact -> Value {
    (a: Artifact) =>
      if a == AgentBatchManifest then Manifest(batches)
      else if a == AgentPredictions then AgentResult(predictions)
      else if a == AgentRawResponses then AgentLog(raw)
      else Other(0)
  }

  /** What the agent command may write over the manifest, with a log that is steady. */
  lemma ObligingWork(w: World, batches: seq<Batches.Batch>) returns (predictions: seq<Runs.Prediction>, raw: Runs.RawLog)
    requires Built.DistinctRows(AgentRows(w)) && Batches.ManifestOf(AgentRows(w), batches)
    ensures FromRun(w, Manifest(batches), AgentResult(predictions), AgentLog(raw))
    ensures Trip.NoStoredFailure(raw) && Trip.NoCrossing(raw)
  {
    Obliging.SomeRunReplays(AgentRows(w), batches, ConfigIn(w));
    var run := Runs.Ran(AgentRows(w), batches, ConfigIn(w), Obliging.Obliging());
    predictions, raw := run.predictions, run.raw;
    assert RunOf(w, Manifest(batches), AgentResult(predictions), AgentLog(raw), batches, Obliging.Obliging());
  }

  lemma SomeManifest(rows: seq<Batches.Row>) returns (batches: seq<Batches.Batch>)
    requires !Batches.Unpackable(rows)
    ensures Batches.ManifestOf(rows, batches)
  {
    Batches.ManifestIffPackable(rows);
    batches :| Batches.ManifestOf(rows, batches);
  }

  lemma ValuesHeld(batches: seq<Batches.Batch>, predictions: seq<Runs.Prediction>, raw: Runs.RawLog)
    ensures var values := AgentValues(batches, predictions, raw);
      && values(AgentBatchManifest) == Manifest(batches) && values(AgentPredictions) == AgentResult(predictions)
      && values(AgentRawResponses) == AgentLog(raw)
  {
  }

  lemma AgentGenuine(w: World, values: Artifact -> Value)
    requires IsManifest(w, values(AgentBatchManifest))
    requires FromRun(w, values(AgentBatchManifest), values(AgentPredictions), values(AgentRawResponses))
    ensures Genuine(w, Whole(RunAgent, values))
  {
    var i := Whole(RunAgent, values);
    assert GenuineAgent(w, i);
  }

  lemma AgentPlan(w: World) returns (values: Artifact -> Value, raw: Runs.RawLog)
    requires AgentFiles(w) && !Batches.Unpackable(AgentRows(w))
    ensures Genuine(w, Whole(RunAgent, values)) && values(AgentRawResponses) == AgentLog(raw)
    ensures Trip.NoStoredFailure(raw) && Trip.NoCrossing(raw)
  {
    AgentRowsDistinct(w);
    var batches := SomeManifest(AgentRows(w));
    var predictions;
    predictions, raw := ObligingWork(w, batches);
    values := AgentValues(batches, predictions, raw);
    ValuesHeld(batches, predictions, raw);
    AgentGenuine(w, values);
  }

  lemma AgentFilesThere(w: World, t: World, values: Artifact -> Value)
    requires Ended(w, t, RunAgent, values)
    ensures AgentBatchManifest in t.files && AgentPredictions in t.files && AgentRawResponses in t.files
    ensures AgentStabilityRuns in t.files && AgentSingleCasePredictions in t.files
  {
    AgentPlaces();
  }

  lemma AgentHopeful(w: World, t: World, values: Artifact -> Value, raw: Runs.RawLog)
    requires Ended(w, t, RunAgent, values) && AgentRawResponses !in w.files && values(AgentRawResponses) == AgentLog(raw)
    requires Trip.NoStoredFailure(raw) && Trip.NoCrossing(raw)
    ensures Hopeful(t)
  {
    AgentFilesThere(w, t, values);
  }

  lemma NoAgentFiles(w: World)
    requires FileOrder(w) && AgentBatchManifest !in w.files
    ensures forall a | WriterOf(a) == RunAgent :: a !in w.files
    ensures AgentPredictions !in w.files && AgentRawResponses !in w.files
  {
    assert WriterOf(AgentPredictions) == WriterOf(AgentRawResponses) == RunAgent;
  }

  lemma AgentMayRun(w: World)
    requires Timely(w) && FileOrder(w) && StageOf(w) == FEATURES_FROZEN && AgentBatchManifest !in w.files
    ensures Admitted(w, ScriptOf(RunAgent), EnvFor(RunAgent)) && Ready(w, ScriptOf(RunAgent).body)
    ensures RunAgent != AdvancerOf(StageOf(w)) && ScriptOf(RunAgent).target.None? && AgentRawResponses !in w.files
  {
    NoAgentFiles(w);
    InputsThere(w);
    AgentReady(w);
    PredictionAdmitted(w, RunAgent, AgentPredictions);
  }

  /** The agent command, under a model server that answers every case. */
  lemma PredictAgent(w: World) returns (t: World)
    requires Predicting(w) && AgentBatchManifest !in w.files
    ensures Predicting(t) && Keeps(w, t) && AgentBatchManifest in t.files
    ensures CanFinish(t) ==> CanFinish(w)
  {
    var values, raw := AgentPlan(w);
    AgentMayRun(w);
    t := AgentRan(w, values, raw);
    StillPredicting(w, t, RunAgent);
  }

  lemma AgentRan(w: World, values: Artifact -> Value, raw: Runs.RawLog) returns (t: World)
    requires GoodFiles(w) && AgentRawResponses !in w.files && Genuine(w, Whole(RunAgent, values))
    requires Admitted(w, ScriptOf(RunAgent), EnvFor(RunAgent)) && Ready(w, ScriptOf(RunAgent).body)
    requires values(AgentRawResponses) == AgentLog(raw) && Trip.NoStoredFailure(raw) && Trip.NoCrossing(raw)
    ensures GoodFiles(t) && Hopeful(t) && Ended(w, t, RunAgent, values) && AgentBatchManifest in t.files
    ensures CanFinish(t) ==> CanFinish(w)
  {
    var i := Whole(RunAgent, values);
    WholeRun(w, RunAgent, values);
    t := Invoke(w, i);
    AgentHopeful(w, t, values, raw);
    AgentFilesThere(w, t, values);
    InvokeKeepsGood(w, i);
    if CanFinish(t) {
      FinishFirst(w, i);
    }
  }

  lemma FreezeReady(w: World)
    requires InputsFrozen(w) && !Clogged(w) && !AgentIncomplete(w) && StageOf(w) == FEATURES_FROZEN
    requires NumericPredictions in w.files && AgentBatchManifest in w.files && HybridPredictions in w.files
    ensures Ready(w, ScriptOf(AdvancerOf(StageOf(w))).body)
  {
    FreezeReads(w);
    FreezeComparesNothing();
    BodyReady(w, ScriptOf(FreezePredictions).body);
  }

  /** Numeric, agent and hybrid predictions, whichever are missing. */
  lemma AllPredictions(w: World) returns (t: World)
    requires Predicting(w)
    ensures Predicting(t) && NumericPredictions in t.files && AgentBatchManifest in t.files && HybridPredictions in t.files
    ensures CanFinish(t) ==> CanFinish(w)
  {
    var numeric := WithNumeric(w);
    var agent := numeric;
    if AgentBatchManifest !in numeric.files {
      agent := PredictAgent(numeric);
    }
    t := WithHybrid(agent);
  }

  lemma NumericThere(w: World, t: World)
    requires Ended(w, t, RunNumeric, Defaults)
    ensures NumericPredictions in t.files
  {
    NumericBodyIs();
    assert ScriptOf(RunNumeric).body[2].artifact in t.files;
  }

  lemma HybridThere(w: World, t: World)
    requires Ended(w, t, RunHybrid, Defaults)
    ensures HybridPredictions in t.files && Keeps(w, t)
  {
    HybridBodyIs();
    assert ScriptOf(RunHybrid).body[3].artifact in t.files;
  }

  lemma WithNumeric(w: World) returns (t: World)
    requires Predicting(w)
    ensures Predicting(t) && NumericPredictions in t.files
    ensures CanFinish(t) ==> CanFinish(w)
  {
    t := w;
    if NumericPredictions !in w.files {
      t := Predict(w, RunNumeric);
    }
  }

  lemma WithHybrid(w: World) returns (t: World)
    requires Predicting(w) && NumericPredictions in w.files && AgentBatchManifest in w.files
    ensures Predicting(t) && NumericPredictions in t.files && AgentBatchManifest in t.files && HybridPredictions in t.files
    ensures CanFinish(t) ==> CanFinish(w)
  {
    t := w;
    if HybridPredictions !in w.files {
      t := Predict(w, RunHybrid);
    }
  }

  // ----- the last stage

  lemma VerifyBodyIs()
    ensures ScriptOf(VerifyAgentReplay).body == [Need(FeatureReport), Need(Features), Need(AgentBatchManifest),
      Need(AgentRawResponses), Need(ExperimentConfig), Need(AgentPredictions), Replays(AgentRawResponses),
      Write(AgentReplayVerification)]
  {
  }

  lemma VerifyReady(w: World)
    requires InputsFrozen(w) && AgentBatchManifest in w.files && AgentRawResponses in w.files && AgentPredictions in w.files
    requires LogReplays(w) && AgentReplayVerification !in w.files
    ensures Ready(w, ScriptOf(VerifyAgentReplay).body)
  {
    VerifyBodyIs();
  }

  lemma VerifyAdmitted(w: World)
    requires StageOf(w) == REPRODUCED
    ensures Admitted(w, ScriptOf(VerifyAgentReplay), EnvFor(VerifyAgentReplay))
    ensures ScriptOf(VerifyAgentReplay).target.None? && VerifyAgentReplay != AdvancerOf(StageOf(w))
  {
  }

  lemma VerificationThere(w: World, t: World)
    requires Ended(w, t, VerifyAgentReplay, Defaults)
    ensures AgentReplayVerification in t.files
  {
    VerifyBodyIs();
    assert ScriptOf(VerifyAgentReplay).body[7].artifact in t.files;
  }

  /** At the last stage but one a hopeful log replays. */
  lemma HopefulReplays(w: World)
    requires Timely(w) && AgentFiles(w) && StageOf(w) == REPRODUCED && Hopeful(w)
    ensures InputsFrozen(w) && AgentBatchManifest in w.files && AgentRawResponses in w.files && AgentPredictions in w.files
    ensures LogReplays(w)
  {
    ManifestIsThere(w);
    EarlierFiles(w);
    ReplaysIffSteady(w);
  }

  lemma Verified(w: World) returns (t: World)
    requires GoodFiles(w) && StageOf(w) == REPRODUCED && !Clogged(w) && Hopeful(w)
    ensures GoodFiles(t) && StageOf(t) == REPRODUCED && !Clogged(t) && Hopeful(t) && AgentReplayVerification in t.files
    ensures CanFinish(t) ==> CanFinish(w)
  {
    t := w;
    if AgentReplayVerification !in w.files {
      HopefulReplays(w);
      VerifyReady(w);
      VerifyAdmitted(w);
      t := Unhurt(w, VerifyAgentReplay);
      VerificationThere(w, t);
      StillUnclogged(w, t, VerifyAgentReplay);
    }
  }

  // ----- the theorem

  lemma LeavePredictions(w: World) returns (t: World)
    requires Predicting(w)
    ensures GoodFiles(t) && !Doomed(t) && Index(StageOf(t)) == Index(StageOf(w)) + 1
    ensures CanFinish(t) ==> CanFinish(w)
  {
    var ready := AllPredictions(w);
    t := Leave(ready);
  }

  lemma LeaveReproduced(w: World) returns (t: World)
    requires GoodFiles(w) && StageOf(w) == REPRODUCED && !Clogged(w) && Hopeful(w)
    ensures GoodFiles(t) && !Doomed(t) && Index(StageOf(t)) == Index(StageOf(w)) + 1
    ensures CanFinish(t) ==> CanFinish(w)
  {
    var verified := Verified(w);
    t := Leave(verified);
  }

  lemma LeaveOther(w: World) returns (t: World)
    requires GoodFiles(w) && !Clogged(w) && Hopeful(w) && StageOf(w) !in {FEATURES_FROZEN, REPRODUCED, README_RENDERED}
    ensures GoodFiles(t) && !Doomed(t) && Index(StageOf(t)) == Index(StageOf(w)) + 1
    ensures CanFinish(t) ==> CanFinish(w)
  {
    t := Leave(w);
  }

  /** From every state short of the last stage that is not lost, the next stage can be reached without losing it. */
  lemma NextStage(w: World) returns (t: World)
    requires GoodFiles(w) && !Doomed(w) && StageOf(w) != README_RENDERED
    ensures GoodFiles(t) && !Doomed(t) && Index(StageOf(t)) == Index(StageOf(w)) + 1
    ensures CanFinish(t) ==> CanFinish(w)
  {
    if StageOf(w) == FEATURES_FROZEN {
      t := LeavePredictions(w);
    } else if StageOf(w) == REPRODUCED {
      t := LeaveReproduced(w);
    } else {
      t := LeaveOther(w);
    }
  }

  lemma {:induction false} Finishes(w: World)
    requires GoodFiles(w) && !Doomed(w)
    ensures CanFinish(w)
    decreases 10 - Index(StageOf(w))
  {
    if StageOf(w) == README_RENDERED {
      assert Possible(w, []) && After(w, []) == w;
    } else {
      var t := NextStage(w);
      Finishes(t);
    }
  }

  lemma NeverFinishes(w: World)
    requires GoodFiles(w) && Doomed(w)
    ensures !CanFinish(w)
  {
    forall runs | Possible(w, runs) ensures StageOf(After(w, runs)) != README_RENDERED {
      DoomedForever(w, runs);
    }
  }

  /** Exactly when the study can still be finished. From every state that a run of commands can produce, with crashes
      anywhere, some continuation reaches the last stage if and only if the state is not doomed: no file that the
      advancing command still has to write exists already; the agent command, once its manifest is frozen, has also
      written its predictions, raw log, repeated runs and single-case predictions; if it has not begun, every packet of
      its rows fits the budget; and the frozen log holds no stored schema failure and no accepted score in the rounding
      band. Computations other than the agent's are assumed to succeed. */
  lemma FinishesUnlessDoomed(runs: seq<Invocation>)
    requires Possible(EMPTY, runs)
    ensures CanFinish(After(EMPTY, runs)) <==> !Doomed(After(EMPTY, runs))
  {
    var w := After(EMPTY, runs);
    EmptyGood();
    RunsKeepGood(EMPTY, runs);
    if Doomed(w) {
      NeverFinishes(w);
    } else {
      Finishes(w);
    }
  }

  /** So a new study can be finished. */
  lemma NewStudyCanFinish()
    ensures CanFinish(EMPTY)
  {
    assert After(EMPTY, []) == EMPTY && Possible(EMPTY, []);
    FinishesUnlessDoomed([]);
  }
}
