/** Where the E4 study can be lost. A crash between a frozen write and the stage change leaves files that the same
    command refuses to overwrite; what commands write, in which order, and when a command can run to its end. */
module StudyProgress {
  import opened StudyCommands
  import opened StudySafety

  /** The command that leaves a stage. */
  function AdvancerOf(s: Stage): Command {
    match s
    case INIT => VerifyInputs
    case INPUTS_VERIFIED => VerifyLocalAgent
    case LOCAL_AGENT_VERIFIED => FreezeProtocol
    case PROTOCOL_FROZEN => BuildCohort
    case COHORT_FROZEN => BuildFeatures
    case FEATURES_FROZEN => FreezePredictions
    case PREDICTIONS_FROZEN => BuildOutcomes
    case OUTCOMES_FROZEN => Evaluate
    case EVALUATED => Reproduce
    case REPRODUCED => Render
    case README_RENDERED => VerifyRenderReplay
  }

  lemma OnlyAdvancer(c: Command)
    requires ScriptOf(c).target.Some?
    ensures c == AdvancerOf(ScriptOf(c).stage)
  {
  }

  /** A file that the advancing command still has to write is already there. */
  ghost predicate Clogged(w: World) {
    exists a :: Write(a) in ScriptOf(AdvancerOf(StageOf(w))).body && a in w.files
  }

  // ----- the order of a command's writes

  /** Position `k` of the body wrote `y`, after everything before it had been read or written. */
  ghost predicate WroteAt(w: World, r: World, body: seq<Op>, budget: nat, k: nat, y: Artifact) {
    && k < |body| && k < budget && body[k] == Write(y)
    && (forall j | 0 <= j < k :: body[j].artifact in r.files || body[j].Replays?)
    && (forall j | 0 <= j < k && body[j].Write? :: body[j].artifact !in w.files)
  }

  lemma {:induction false} WritesInOrder(w: World, body: seq<Op>, env: Environment, values: Artifact -> Value, budget: nat, y: Artifact)
    returns (k: nat)
    requires y !in w.files && y in ExecBody(w, body, env, values, budget).world.files
    ensures WroteAt(w, ExecBody(w, body, env, values, budget).world, body, budget, k, y)
    decreases |body|
  {
    var r := ExecBody(w, body, env, values, budget).world;
    var next := Perform(w, body[0], env, values).value;
    BodyEffects(next, body[1..], env, values, budget - 1);
    if y !in next.files {
      var rest := WritesInOrder(next, body[1..], env, values, budget - 1, y);
      k := rest + 1;
      forall j | 0 <= j < k ensures body[j].artifact in r.files || body[j].Replays? {
        if j > 0 {
          assert body[j] == body[1..][j - 1];
        }
      }
      forall j | 0 <= j < k && body[j].Write? ensures body[j].artifact !in w.files {
        if j > 0 {
          assert body[j] == body[1..][j - 1];
        }
      }
    } else {
      k := 0;
    }
  }

  /** A new file holds what the command computed for it. */
  lemma {:induction false} WritesValues(w: World, body: seq<Op>, env: Environment, values: Artifact -> Value, budget: nat, a: Artifact)
    requires a !in w.files && a in ExecBody(w, body, env, values, budget).world.files
    ensures ExecBody(w, body, env, values, budget).world.files[a] == values(a)
    decreases |body|
  {
    var next := Perform(w, body[0], env, values).value;
    BodyEffects(next, body[1..], env, values, budget - 1);
    if a !in next.files {
      WritesValues(next, body[1..], env, values, budget - 1, a);
    }
  }

  /** Before its first write a body has left the world as it was, and every comparison up to there succeeded. */
  lemma {:induction false} ChecksBeforeWrite(w: World, body: seq<Op>, env: Environment, values: Artifact -> Value, budget: nat, n: nat, a: Artifact)
    requires n <= |body| && forall j | 0 <= j < n :: !body[j].Write?
    requires a !in w.files && a in ExecBody(w, body, env, values, budget).world.files
    ensures forall j | 0 <= j < n && body[j].Replays? :: LogReplays(w)
    decreases n
  {
    if n > 0 {
      ChecksBeforeWrite(w, body[1..], env, values, budget - 1, n - 1, a);
      forall j | 0 <= j < n && body[j].Replays? ensures LogReplays(w) {
        if j > 0 {
          assert body[1..][j - 1].Replays?;
        }
      }
    }
  }

  /** A command cannot run to its end without a file that it reads and another command writes. */
  lemma MissingNeed(w: World, i: Invocation, a: Artifact)
    requires Need(a) in ScriptOf(i.command).body && a !in w.files && WriterOf(a) != i.command
    ensures !ExecBody(w, ScriptOf(i.command).body, i.env, i.values, i.budget).done
  {
    var c := ScriptOf(i.command);
    if ExecBody(w, c.body, i.env, i.values, i.budget).done {
      BodyDone(w, c.body, i.env, i.values, i.budget);
      BodyEffects(w, c.body, i.env, i.values, i.budget);
      assert Write(a) in c.body;
      ScriptWrites(i.command, a);
      assert false;
    }
  }

  // ----- clogged stages

  lemma CloggedBlocks(w: World, i: Invocation)
    requires Clogged(w) && ScriptOf(i.command).stage == StageOf(w) && ScriptOf(i.command).target.Some?
    ensures !ExecBody(w, ScriptOf(i.command).body, i.env, i.values, i.budget).done
  {
    OnlyAdvancer(i.command);
    var a :| Write(a) in ScriptOf(AdvancerOf(StageOf(w))).body && a in w.files;
    if ExecBody(w, ScriptOf(i.command).body, i.env, i.values, i.budget).done {
      BodyDone(w, ScriptOf(i.command).body, i.env, i.values, i.budget);
    }
  }

  lemma CloggedKeepsStage(w: World, i: Invocation)
    requires Inv(w) && Clogged(w)
    ensures StageOf(Invoke(w, i)) == StageOf(w) && Clogged(Invoke(w, i)) && Inv(Invoke(w, i))
  {
    var c := ScriptOf(i.command);
    BodyEffects(w, c.body, i.env, i.values, i.budget);
    InvokeKeepsInv(w, i);
    if Admitted(w, c, i.env) && c.target.Some? {
      OnlyAdvancer(i.command);
      CloggedBlocks(w, i);
    }
    CloggedStays(w, Invoke(w, i));
  }

  lemma CloggedStays(w: World, t: World)
    requires Clogged(w) && Keeps(w, t) && StageOf(t) == StageOf(w)
    ensures Clogged(t)
  {
    var a :| Write(a) in ScriptOf(AdvancerOf(StageOf(w))).body && a in w.files;
    assert a in t.files;
  }

  /** Once a file that the advancing command has to write exists, no run of commands leaves the stage. */
  lemma {:induction false} CloggedForever(w: World, runs: seq<Invocation>)
    requires Inv(w) && Clogged(w)
    ensures StageOf(After(w, runs)) == StageOf(w) && Clogged(After(w, runs)) && Inv(After(w, runs))
  {
    if runs != [] {
      var last := |runs| - 1;
      CloggedForever(w, runs[..last]);
      CloggedKeepsStage(After(w, runs[..last]), runs[last]);
    }
  }

  const ISOLATED := Environment(false, false, false, false)

  const MOUNTED := Environment(true, true, true, false)

  // ----- crashes that lose the study

  /** A crash right after the cohort is frozen, before the stage changes, is final. */
  lemma CrashAfterFirstWriteIsFinal(w: World, values: Artifact -> Value, evidence: Value, more: seq<Invocation>)
    requires Inv(w) && StageOf(w) == PROTOCOL_FROZEN && !Clogged(w)
    ensures var crashed := Invoke(w, Invocation(BuildCohort, ISOLATED, values, evidence, 1));
      StageOf(After(crashed, more)) == PROTOCOL_FROZEN
  {
    var i := Invocation(BuildCohort, ISOLATED, values, evidence, 1);
    var body := ScriptOf(BuildCohort).body;
    var crashed := Invoke(w, i);
    assert body[0] == Write(Cohort);
    assert Write(body[0].artifact) in body && Cohort !in w.files;
    InvokeKeepsInv(w, i);
    BodyEffects(w, body, i.env, i.values, i.budget);
    assert ExecBody(w, body, i.env, i.values, 1) == ExecBody(Perform(w, body[0], i.env, values).value, body[1..], i.env, values, 0);
    assert Cohort in crashed.files;
    assert Write(Cohort) in ScriptOf(AdvancerOf(PROTOCOL_FROZEN)).body;
    CloggedForever(crashed, more);
  }

  lemma AdvancerFits(s: Stage)
    requires s != README_RENDERED
    ensures ScriptOf(AdvancerOf(s)).stage == s && ScriptOf(AdvancerOf(s)).target.Some? && ScriptOf(AdvancerOf(s)).refuses.None?
    ensures ScriptOf(AdvancerOf(s)).mounted ==> !ScriptOf(AdvancerOf(s)).isolated
  {
  }

  // ----- commands that can run to their end

  /** What a body needs before it starts, for running to its end. */
  ghost predicate Ready(w: World, body: seq<Op>) {
    && (forall k | 0 <= k < |body| && body[k].Need? :: body[k].artifact in w.files)
    && (forall k | 0 <= k < |body| && body[k].Write? :: body[k].artifact !in w.files)
    && (forall j, k | 0 <= j < k < |body| && body[j].Write? && body[k].Write? :: body[j] != body[k])
    && (forall k | 0 <= k < |body| && body[k].Replays? :: LogReplays(w) && forall j | 0 <= j < k :: !body[j].Write?)
  }

  lemma ReadyTail(w: World, body: seq<Op>, env: Environment, values: Artifact -> Value)
    requires Ready(w, body) && body != []
    ensures Perform(w, body[0], env, values).Some? && Ready(Perform(w, body[0], env, values).value, body[1..])
  {
    var next := Perform(w, body[0], env, values).value;
    var tail := body[1..];
    forall k | 0 <= k < |tail| && tail[k].Need? ensures tail[k].artifact in next.files {
      assert tail[k] == body[k + 1];
    }
    forall k | 0 <= k < |tail| && tail[k].Write? ensures tail[k].artifact !in next.files {
      assert tail[k] == body[k + 1];
    }
    forall j, k | 0 <= j < k < |tail| && tail[j].Write? && tail[k].Write? ensures tail[j] != tail[k] {
      assert tail[j] == body[j + 1] && tail[k] == body[k + 1];
    }
    forall k | 0 <= k < |tail| && tail[k].Replays? ensures LogReplays(next) && forall j | 0 <= j < k :: !tail[j].Write? {
      assert tail[k] == body[k + 1] && !body[0].Write?;
      assert forall j | 0 <= j < k :: tail[j] == body[j + 1];
    }
  }

  lemma {:induction false} ReadyCompletes(w: World, body: seq<Op>, env: Environment, values: Artifact -> Value, budget: nat)
    requires Ready(w, body) && budget >= |body|
    ensures ExecBody(w, body, env, values, budget).done
    decreases |body|
  {
    if body != [] {
      ReadyTail(w, body, env, values);
      ReadyCompletes(Perform(w, body[0], env, values).value, body[1..], env, values, budget - 1);
    }
  }

  /** The writes of a body are pairwise different files. */
  ghost predicate DistinctWrites(body: seq<Op>) {
    forall j, k | 0 <= j < k < |body| && body[j].Write? && body[k].Write? :: body[j] != body[k]
  }

  /** Every file read was due at an earlier stage. */
  ghost predicate ReadsEarlier(body: seq<Op>, stage: nat) {
    forall k | 0 <= k < |body| && body[k].Need? :: WrittenAt(body[k].artifact) < stage && !Optional(body[k].artifact)
  }

  lemma ReadsAreThere(w: World, body: seq<Op>)
    requires Timely(w) && ReadsEarlier(body, Index(StageOf(w)))
    ensures forall k | 0 <= k < |body| && body[k].Need? :: body[k].artifact in w.files
  {
  }

  // ----- the scripts of the advancing commands

  lemma EvaluateWritesDiffer()
    ensures DistinctWrites(ScriptOf(Evaluate).body)
  {
  }

  lemma RenderWritesDiffer()
    ensures DistinctWrites(ScriptOf(Render).body)
  {
  }

  lemma ReproduceReads()
    ensures DistinctWrites(ScriptOf(Reproduce).body) && ReadsEarlier(ScriptOf(Reproduce).body, 8)
  {
  }

  lemma ShortAdvancers(c: Command)
    requires !LongScript(c) && ScriptOf(c).target.Some?
    ensures DistinctWrites(ScriptOf(c).body) && ReadsEarlier(ScriptOf(c).body, Index(ScriptOf(c).stage))
  {
  }

  lemma EvaluateReads(k: nat)
    requires k < |ScriptOf(Evaluate).body| && ScriptOf(Evaluate).body[k].Need?
    ensures var a := ScriptOf(Evaluate).body[k].artifact;
      a == AgentStabilityRuns || a == AgentSingleCasePredictions || (WrittenAt(a) < 7 && !Optional(a))
  {
  }

  lemma RenderReads(k: nat)
    requires k < |ScriptOf(Render).body| && ScriptOf(Render).body[k].Need?
    ensures var a := ScriptOf(Render).body[k].artifact;
      a == AgentReplayVerification || (WrittenAt(a) < 9 && !Optional(a))
  {
  }

  lemma FreezeReads(w: World)
    requires NumericPredictions in w.files && AgentPredictions in w.files && HybridPredictions in w.files
    requires AgentBatchManifest in w.files && AgentRawResponses in w.files && ExperimentConfig in w.files
    ensures var body := ScriptOf(FreezePredictions).body;
      DistinctWrites(body) && forall k | 0 <= k < |body| && body[k].Need? :: body[k].artifact in w.files
  {
  }
}
