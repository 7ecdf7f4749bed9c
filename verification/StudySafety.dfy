/** What every run of E4 commands keeps: the stage chain, the frozen files, and the separation of
    predictions from outcomes. */
module StudySafety {
  import opened StudyCommands

  function StageAt(n: nat): Stage
    requires n <= 10
    ensures Index(StageAt(n)) == n
  {
    match n
    case 0 => INIT
    case 1 => INPUTS_VERIFIED
    case 2 => LOCAL_AGENT_VERIFIED
    case 3 => PROTOCOL_FROZEN
    case 4 => COHORT_FROZEN
    case 5 => FEATURES_FROZEN
    case 6 => PREDICTIONS_FROZEN
    case 7 => OUTCOMES_FROZEN
    case 8 => EVALUATED
    case 9 => REPRODUCED
    case _ => README_RENDERED
  }

  lemma IndexInjective(a: Stage, b: Stage)
    requires Index(a) == Index(b)
    ensures a == b
  {
  }

  /** The index of the stage in which the commands write a file. */
  function WrittenAt(a: Artifact): nat {
    match a
    case InputInventory => 0
    case LocalAgentVerification => 1
    case ExperimentConfig => 2
    case ProtocolFreeze => 2
    case Cohort => 3
    case CohortReport => 3
    case Features => 4
    case FeatureReport => 4
    case Outcomes => 6
    case OutcomeReport => 6
    case Evaluation => 7
    case ThresholdSensitivity => 7
    case SectorHeterogeneity => 7
    case Missingness => 7
    case Attrition => 7
    case SourceConcordance => 7
    case AgentStabilitySummary => 7
    case BatchSensitivitySummary => 7
    case ReproducibilitySummary => 8
    case AgentReplayVerification => 9
    case PublicReadmeSummary => 9
    case PublicStabilitySummary => 9
    case PublicBatchSensitivity => 9
    case PublicSourceConcordance => 9
    case PublicReproducibility => 9
    case RenderReplayVerification => 10
    case PublicRenderReplay => 10
    case _ => 5
  }

  /** The only command that writes a file. */
  function WriterOf(a: Artifact): Command {
    match a
    case InputInventory => VerifyInputs
    case LocalAgentVerification => VerifyLocalAgent
    case ExperimentConfig => FreezeProtocol
    case ProtocolFreeze => FreezeProtocol
    case Cohort => BuildCohort
    case CohortReport => BuildCohort
    case Features => BuildFeatures
    case FeatureReport => BuildFeatures
    case NumericPredictions => RunNumeric
    case NumericReport => RunNumeric
    case HybridPredictions => RunHybrid
    case Predictions => FreezePredictions
    case PredictionFreeze => FreezePredictions
    case Outcomes => BuildOutcomes
    case OutcomeReport => BuildOutcomes
    case ReproducibilitySummary => Reproduce
    case AgentReplayVerification => VerifyAgentReplay
    case Evaluation => Evaluate
    case ThresholdSensitivity => Evaluate
    case SectorHeterogeneity => Evaluate
    case Missingness => Evaluate
    case Attrition => Evaluate
    case SourceConcordance => Evaluate
    case AgentStabilitySummary => Evaluate
    case BatchSensitivitySummary => Evaluate
    case PublicReadmeSummary => Render
    case PublicStabilitySummary => Render
    case PublicBatchSensitivity => Render
    case PublicSourceConcordance => Render
    case PublicReproducibility => Render
    case RenderReplayVerification => VerifyRenderReplay
    case PublicRenderReplay => VerifyRenderReplay
    case _ => RunAgent
  }

  /** The prediction artifacts: everything the prediction stage writes. */
  predicate IsPrediction(a: Artifact) {
    WrittenAt(a) == 5
  }

  /** Files that need not exist when their stage is over. */
  predicate Optional(a: Artifact) {
    || a.NumericReport? || a.AgentStabilityRuns? || a.AgentStabilityRaw? || a.AgentSingleCasePredictions?
    || a.AgentSingleCaseRaw? || a.RenderReplayVerification? || a.PublicRenderReplay?
  }

  // ----- what the scripts say

  predicate LongScript(c: Command) {
    c.RunAgent? || c.FreezePredictions? || c.Evaluate? || c.Reproduce? || c.VerifyAgentReplay? || c.Render?
  }

  /** The command writes only its own files. */
  ghost predicate OwnWrites(c: Command) {
    var body := ScriptOf(c).body;
    forall i | 0 <= i < |body| && body[i].Write? :: WriterOf(body[i].artifact) == c
  }

  lemma RunAgentWrites()
    ensures OwnWrites(RunAgent)
  {
  }

  lemma FreezePredictionsWrites()
    ensures OwnWrites(FreezePredictions)
  {
  }

  lemma EvaluateWrites()
    ensures OwnWrites(Evaluate)
  {
    var body := ScriptOf(Evaluate).body;
    forall i | 0 <= i < |body| && body[i].Write? ensures WriterOf(body[i].artifact) == Evaluate {
      assert i == 3 || i == 4 || i == 5 || i == 6 || i == 7 || i == 8 || i == 10 || i == 13;
    }
  }

  lemma ReproduceWrites()
    ensures OwnWrites(Reproduce)
  {
  }

  lemma VerifyAgentReplayWrites()
    ensures OwnWrites(VerifyAgentReplay)
  {
  }

  lemma RenderWrites()
    ensures OwnWrites(Render)
  {
    var body := ScriptOf(Render).body;
    forall i | 0 <= i < |body| && body[i].Write? ensures WriterOf(body[i].artifact) == Render {
      assert i == 10 || i == 11 || i == 12 || i == 13 || i == 14;
    }
  }

  lemma EarlyWrites(c: Command)
    requires c.VerifyInputs? || c.VerifyLocalAgent? || c.FreezeProtocol? || c.BuildCohort?
    ensures OwnWrites(c)
  {
  }

  lemma MiddleWrites(c: Command)
    requires c.BuildFeatures? || c.RunNumeric? || c.RunHybrid?
    ensures OwnWrites(c)
  {
  }

  lemma LaterWrites(c: Command)
    requires c.BuildOutcomes? || c.VerifyRenderReplay?
    ensures OwnWrites(c)
  {
  }

  lemma AllOwnWrites(c: Command)
    ensures OwnWrites(c)
  {
    if c == RunAgent {
      RunAgentWrites();
    } else if c == FreezePredictions {
      FreezePredictionsWrites();
    } else if c == Evaluate {
      EvaluateWrites();
    } else if c == Reproduce {
      ReproduceWrites();
    } else if c == VerifyAgentReplay {
      VerifyAgentReplayWrites();
    } else if c == Render {
      RenderWrites();
    } else if c.VerifyInputs? || c.VerifyLocalAgent? || c.FreezeProtocol? || c.BuildCohort? {
      EarlyWrites(c);
    } else if c.BuildFeatures? || c.RunNumeric? || c.RunHybrid? {
      MiddleWrites(c);
    } else {
      LaterWrites(c);
    }
  }

  lemma WriterStage(a: Artifact)
    ensures WrittenAt(a) == Index(ScriptOf(WriterOf(a)).stage)
  {
  }

  /** A command writes only its own files, which belong to the stage it requires. */
  lemma ScriptWrites(c: Command, a: Artifact)
    requires Write(a) in ScriptOf(c).body
    ensures WriterOf(a) == c && WrittenAt(a) == Index(ScriptOf(c).stage)
  {
    AllOwnWrites(c);
    var body := ScriptOf(c).body;
    var i :| 0 <= i < |body| && body[i] == Write(a);
    assert WriterOf(body[i].artifact) == c;
    WriterStage(a);
  }

  lemma PredictionsIsolated(c: Command)
    requires ScriptOf(c).stage == FEATURES_FROZEN
    ensures ScriptOf(c).isolated
  {
  }

  lemma TargetsAreNext(c: Command)
    requires ScriptOf(c).target.Some?
    ensures Index(ScriptOf(c).target.value) == Index(ScriptOf(c).stage) + 1
  {
  }

  /** The body reads or writes the file. */
  predicate Covers(body: seq<Op>, a: Artifact) {
    Write(a) in body || Need(a) in body
  }

  lemma EvaluateCovers(a: Artifact)
    requires WrittenAt(a) == 7
    ensures Covers(ScriptOf(Evaluate).body, a)
  {
    var body := ScriptOf(Evaluate).body;
    assert body[3] == Write(Evaluation) && body[4] == Write(ThresholdSensitivity) && body[5] == Write(SectorHeterogeneity);
    assert body[6] == Write(Missingness) && body[7] == Write(Attrition) && body[8] == Write(SourceConcordance);
    assert body[10] == Write(AgentStabilitySummary) && body[13] == Write(BatchSensitivitySummary);
  }

  lemma FreezePredictionsCovers(a: Artifact)
    requires WrittenAt(a) == 5 && !Optional(a)
    ensures Covers(ScriptOf(FreezePredictions).body, a)
  {
    var body := ScriptOf(FreezePredictions).body;
    assert body[0] == Need(NumericPredictions) && body[1] == Need(AgentPredictions) && body[2] == Need(HybridPredictions);
    assert body[3] == Need(AgentBatchManifest) && body[4] == Need(AgentRawResponses);
    assert body[6] == Write(Predictions) && body[7] == Write(PredictionFreeze);
  }

  lemma RenderCovers(a: Artifact)
    requires WrittenAt(a) == 9
    ensures Covers(ScriptOf(Render).body, a)
  {
    var body := ScriptOf(Render).body;
    assert body[9] == Need(AgentReplayVerification) && body[10] == Write(PublicReadmeSummary);
    assert body[11] == Write(PublicStabilitySummary) && body[12] == Write(PublicBatchSensitivity);
    assert body[13] == Write(PublicSourceConcordance) && body[14] == Write(PublicReproducibility);
  }

  lemma ReproduceCovers(a: Artifact)
    requires WrittenAt(a) == 8
    ensures Covers(ScriptOf(Reproduce).body, a)
  {
    assert ScriptOf(Reproduce).body[8] == Write(ReproducibilitySummary);
  }

  lemma ShortScriptCovers(c: Command, a: Artifact)
    requires !LongScript(c) && ScriptOf(c).target.Some? && WrittenAt(a) == Index(ScriptOf(c).stage)
    ensures Covers(ScriptOf(c).body, a)
  {
    var body := ScriptOf(c).body;
    match c
    case VerifyInputs => assert body[0] == Write(InputInventory);
    case VerifyLocalAgent => assert body[0] == Write(LocalAgentVerification);
    case FreezeProtocol => assert body[2] == Write(ExperimentConfig) && body[3] == Write(ProtocolFreeze);
    case BuildCohort => assert body[0] == Write(Cohort) && body[1] == Write(CohortReport);
    case BuildFeatures => assert body[1] == Write(Features) && body[2] == Write(FeatureReport);
    case BuildOutcomes => assert body[1] == Write(Outcomes) && body[2] == Write(OutcomeReport);
  }

  /** An advancing command reads or writes everything that is due at its stage. */
  lemma AdvancersCover(c: Command, a: Artifact)
    requires ScriptOf(c).target.Some? && WrittenAt(a) == Index(ScriptOf(c).stage) && !Optional(a)
    ensures Covers(ScriptOf(c).body, a)
  {
    if c.Evaluate? {
      EvaluateCovers(a);
    } else if c.FreezePredictions? {
      FreezePredictionsCovers(a);
    } else if c.Render? {
      RenderCovers(a);
    } else if c.Reproduce? {
      ReproduceCovers(a);
    } else {
      ShortScriptCovers(c, a);
    }
  }

  // ----- bodies

  /** `after` keeps every file of `before` with its contents. */
  ghost predicate Keeps(before: World, after: World) {
    forall a | a in before.files :: a in after.files && after.files[a] == before.files[a]
  }

  /** What executing a body may change. */
  ghost predicate BodyEffect(w: World, r: World, body: seq<Op>, env: Environment) {
    && Keeps(w, r)
    && r.state == w.state
    && (forall a | a in r.files && a !in w.files :: Write(a) in body)
    && |w.log| <= |r.log| && r.log[..|w.log|] == w.log
    && (forall i | |w.log| <= i < |r.log| :: EventOk(w, r.log[i], body, env))
  }

  ghost predicate EventOk(w: World, e: WriteEvent, body: seq<Op>, env: Environment) {
    && Write(e.artifact) in body && e.artifact !in w.files
    && e.visible == OutcomesVisible(env)
    && (e.outcomesExisted ==> Outcomes in w.files || Write(Outcomes) in body)
  }

  lemma {:induction false} BodyEffects(w: World, body: seq<Op>, env: Environment, values: Artifact -> Value, budget: nat)
    ensures BodyEffect(w, ExecBody(w, body, env, values, budget).world, body, env)
    decreases |body|
  {
    if body != [] && budget > 0 && Perform(w, body[0], env, values).Some? {
      var next := Perform(w, body[0], env, values).value;
      BodyEffects(next, body[1..], env, values, budget - 1);
      var r := ExecBody(next, body[1..], env, values, budget - 1).world;
      assert body == [body[0]] + body[1..];
      forall i | |w.log| <= i < |r.log| ensures EventOk(w, r.log[i], body, env) {
        if i < |next.log| {
          assert r.log[..|next.log|][i] == next.log[i];
        } else {
          assert EventOk(next, r.log[i], body[1..], env);
        }
      }
      assert r.log[..|w.log|] == r.log[..|next.log|][..|w.log|];
    }
  }

  lemma {:induction false} BodyDone(w: World, body: seq<Op>, env: Environment, values: Artifact -> Value, budget: nat)
    requires ExecBody(w, body, env, values, budget).done
    ensures var r := ExecBody(w, body, env, values, budget).world;
      && (forall a | Write(a) in body :: a !in w.files && a in r.files)
      && (forall a | Need(a) in body :: a in r.files)
    decreases |body|
  {
    if body != [] {
      var next := Perform(w, body[0], env, values).value;
      var r := ExecBody(next, body[1..], env, values, budget - 1).world;
      BodyDone(next, body[1..], env, values, budget - 1);
      BodyEffects(next, body[1..], env, values, budget - 1);
      assert body == [body[0]] + body[1..];
      assert Keeps(next, r);
    }
  }

  // ----- the invariant

  /** The history is the contiguous chain of stages from INIT, as long as the stage number. */
  ghost predicate Chain(w: World) {
    w.state.Some? ==>
      var history := w.state.value.history;
      && |history| == Index(w.state.value.stage)
      && (forall i | 0 <= i < |history| :: history[i].from == StageAt(i) && history[i].to == StageAt(i + 1))
      && |history| > 0 && history[|history| - 1].evidence == w.state.value.evidence
  }

  /** Nothing is written before its stage, and whatever is due by now exists. */
  ghost predicate Timely(w: World) {
    && (forall a | a in w.files :: WrittenAt(a) <= Index(StageOf(w)))
    && (forall a | WrittenAt(a) < Index(StageOf(w)) && !Optional(a) :: a in w.files)
  }

  /** Every logged file exists, and none was written twice. */
  ghost predicate LoggedOnce(w: World) {
    && (forall i | 0 <= i < |w.log| :: w.log[i].artifact in w.files)
    && (forall i, j | 0 <= i < j < |w.log| :: w.log[i].artifact != w.log[j].artifact)
  }

  /** The log accounts for the files, one write each, and every prediction artifact was written while no
      outcome could be seen and before the outcome file existed. */
  ghost predicate LogOk(w: World) {
    && LoggedOnce(w)
    && (forall i | 0 <= i < |w.log| && IsPrediction(w.log[i].artifact) :: !w.log[i].visible && !w.log[i].outcomesExisted)
  }

  ghost predicate Inv(w: World) {
    Chain(w) && Timely(w) && LogOk(w)
  }

  lemma {:induction false} BodyLogsOnce(w: World, body: seq<Op>, env: Environment, values: Artifact -> Value, budget: nat)
    requires LoggedOnce(w)
    ensures LoggedOnce(ExecBody(w, body, env, values, budget).world)
    decreases |body|
  {
    if body != [] && budget > 0 && Perform(w, body[0], env, values).Some? {
      var next := Perform(w, body[0], env, values).value;
      assert LoggedOnce(next);
      BodyLogsOnce(next, body[1..], env, values, budget - 1);
    }
  }

  lemma BodyKeepsLog(w: World, c: Command, env: Environment, values: Artifact -> Value, budget: nat)
    requires Inv(w) && Admitted(w, ScriptOf(c), env)
    ensures LogOk(ExecBody(w, ScriptOf(c).body, env, values, budget).world)
  {
    var body := ScriptOf(c).body;
    var r := ExecBody(w, body, env, values, budget).world;
    BodyEffects(w, body, env, values, budget);
    BodyLogsOnce(w, body, env, values, budget);
    forall i | 0 <= i < |r.log| && IsPrediction(r.log[i].artifact)
      ensures !r.log[i].visible && !r.log[i].outcomesExisted
    {
      if i < |w.log| {
        assert r.log[..|w.log|][i] == w.log[i];
      } else {
        PredictionWrite(w, c, env, r.log[i]);
      }
    }
  }

  /** A prediction artifact is written under isolation and before outcomes. */
  lemma PredictionWrite(w: World, c: Command, env: Environment, e: WriteEvent)
    requires Timely(w) && Admitted(w, ScriptOf(c), env) && EventOk(w, e, ScriptOf(c).body, env) && IsPrediction(e.artifact)
    ensures !e.visible && !e.outcomesExisted
  {
    ScriptWrites(c, e.artifact);
    IndexInjective(ScriptOf(c).stage, FEATURES_FROZEN);
    PredictionsIsolated(c);
    if Write(Outcomes) in ScriptOf(c).body {
      ScriptWrites(c, Outcomes);
    }
  }

  lemma BodyKeepsTimely(w: World, c: Command, env: Environment, values: Artifact -> Value, budget: nat)
    requires Timely(w) && Admitted(w, ScriptOf(c), env)
    ensures Timely(ExecBody(w, ScriptOf(c).body, env, values, budget).world)
  {
    var body := ScriptOf(c).body;
    var r := ExecBody(w, body, env, values, budget).world;
    BodyEffects(w, body, env, values, budget);
    forall a | a in r.files ensures WrittenAt(a) <= Index(StageOf(r)) {
      if a !in w.files {
        ScriptWrites(c, a);
      }
    }
  }

  lemma AdvanceKeepsChain(w: World, from: Stage, to: Stage, evidence: Value)
    requires Chain(w) && AdvanceTo(w, from, to, evidence).Some?
    ensures Chain(AdvanceTo(w, from, to, evidence).value)
  {
    IndexInjective(from, StageAt(Index(from)));
    IndexInjective(to, StageAt(Index(to)));
  }

  lemma AdvanceKeepsTimely(w: World, r: World, c: Command, evidence: Value)
    requires Timely(r) && StageOf(r) == ScriptOf(c).stage && ScriptOf(c).target.Some?
    requires forall a | Write(a) in ScriptOf(c).body :: a in r.files
    requires forall a | Need(a) in ScriptOf(c).body :: a in r.files
    ensures AdvanceTo(r, ScriptOf(c).stage, ScriptOf(c).target.value, evidence).Some?
    ensures Timely(AdvanceTo(r, ScriptOf(c).stage, ScriptOf(c).target.value, evidence).value)
  {
    TargetsAreNext(c);
    var t := AdvanceTo(r, ScriptOf(c).stage, ScriptOf(c).target.value, evidence).value;
    forall a | WrittenAt(a) < Index(StageOf(t)) && !Optional(a) ensures a in t.files {
      if WrittenAt(a) == Index(ScriptOf(c).stage) {
        AdvancersCover(c, a);
      }
    }
  }

  lemma BodyKeepsInv(w: World, c: Command, env: Environment, values: Artifact -> Value, budget: nat)
    requires Inv(w) && Admitted(w, ScriptOf(c), env)
    ensures var r := ExecBody(w, ScriptOf(c).body, env, values, budget).world;
      Inv(r) && Keeps(w, r) && StageOf(r) == StageOf(w)
  {
    BodyEffects(w, ScriptOf(c).body, env, values, budget);
    BodyKeepsLog(w, c, env, values, budget);
    BodyKeepsTimely(w, c, env, values, budget);
  }

  lemma AdvanceKeepsInv(r: World, c: Command, evidence: Value)
    requires Inv(r) && StageOf(r) == ScriptOf(c).stage && ScriptOf(c).target.Some?
    requires forall a | Write(a) in ScriptOf(c).body :: a in r.files
    requires forall a | Need(a) in ScriptOf(c).body :: a in r.files
    ensures var next := AdvanceTo(r, ScriptOf(c).stage, ScriptOf(c).target.value, evidence);
      && next.Some? && Inv(next.value) && next.value.files == r.files
      && Index(StageOf(next.value)) == Index(StageOf(r)) + 1
  {
    AdvanceKeepsTimely(r, r, c, evidence);
    AdvanceKeepsChain(r, ScriptOf(c).stage, ScriptOf(c).target.value, evidence);
  }

  /** One invocation of any command, crashing anywhere or not at all. */
  lemma InvokeKeepsInv(w: World, i: Invocation)
    requires Inv(w)
    ensures Inv(Invoke(w, i)) && Keeps(w, Invoke(w, i))
    ensures Index(StageOf(w)) <= Index(StageOf(Invoke(w, i))) <= Index(StageOf(w)) + 1
  {
    var c := ScriptOf(i.command);
    if Admitted(w, c, i.env) {
      var ran := ExecBody(w, c.body, i.env, i.values, i.budget);
      BodyKeepsInv(w, i.command, i.env, i.values, i.budget);
      if ran.done && c.target.Some? && i.budget > |c.body| {
        BodyDone(w, c.body, i.env, i.values, i.budget);
        AdvanceKeepsInv(ran.world, i.command, i.evidence);
      }
    }
  }

  lemma EmptyInv()
    ensures Inv(EMPTY)
  {
  }

  /** Every run keeps the invariant, never changes a frozen file once written, and never lowers the stage. */
  lemma {:induction false} RunsKeepInv(w: World, runs: seq<Invocation>)
    requires Inv(w)
    ensures Inv(After(w, runs)) && Keeps(w, After(w, runs))
    ensures Index(StageOf(w)) <= Index(StageOf(After(w, runs)))
  {
    if runs != [] {
      var last := |runs| - 1;
      RunsKeepInv(w, runs[..last]);
      InvokeKeepsInv(After(w, runs[..last]), runs[last]);
    }
  }

  /** The history is the chain of stages, the predictions were written in isolation and before outcomes,
      and no file was written twice. */
  ghost predicate Separated(w: World) {
    && Chain(w)
    && (forall i | 0 <= i < |w.log| && IsPrediction(w.log[i].artifact) :: !w.log[i].visible && !w.log[i].outcomesExisted)
    && (Outcomes in w.files ==> Predictions in w.files && PredictionFreeze in w.files)
    && LoggedOnce(w)
  }

  lemma InvSeparates(w: World)
    requires Inv(w)
    ensures Separated(w)
  {
    if Outcomes in w.files {
      assert WrittenAt(Predictions) == WrittenAt(PredictionFreeze) == 5;
    }
  }

  /** On every run of commands from an empty directory, in any order, with crashes anywhere and outcome
      storage appearing or vanishing between commands: the recorded history is the contiguous chain of
      stages from INIT, as long as the stage number; every prediction artifact was written while outcomes
      could not be seen and before the outcome file existed; once the outcome file exists the frozen
      predictions exist; and no file is written twice. */
  lemma PredictionsPrecedeOutcomes(runs: seq<Invocation>)
    ensures Separated(After(EMPTY, runs))
  {
    EmptyInv();
    RunsKeepInv(EMPTY, runs);
    InvSeparates(After(EMPTY, runs));
  }

  /** A frozen file, once written, has the same contents after every further run. */
  lemma FrozenFilesStay(before: seq<Invocation>, more: seq<Invocation>, a: Artifact)
    requires a in After(EMPTY, before).files
    ensures a in After(After(EMPTY, before), more).files
    ensures After(After(EMPTY, before), more).files[a] == After(EMPTY, before).files[a]
  {
    EmptyInv();
    RunsKeepInv(EMPTY, before);
    RunsKeepInv(After(EMPTY, before), more);
  }
}
