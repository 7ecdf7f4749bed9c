/** `command_all` (scripts/run_e4.py): resuming the study through the stages open in the current phase. */
module StudyDriver {
  import opened StudyCommands
  import opened StudySafety
  import opened StudyProgress
  import opened StudyCompletion

  datatype Outcome = Finished | PhaseBoundary | RaisedError

  /** What surrounds the driver and what its next command computes; both differ from one moment to the next. */
  datatype Moment = Moment(env: Environment, values: Artifact -> Value, evidence: Value)

  /** The visibility test of the driver; unlike the commands' own it does not look into the feature mount. */
  predicate DriverSeesOutcomes(env: Environment) {
    env.mountSet || env.inputsPresent || env.archivesPresent
  }

  function Plain(c: Command, m: Moment): Invocation {
    Invocation(c, m.env, m.values, m.evidence, |ScriptOf(c).body| + 1)
  }

  lemma AfterSnoc(w: World, runs: seq<Invocation>, i: Invocation)
    ensures After(w, runs + [i]) == Invoke(After(w, runs), i)
  {
    assert (runs + [i])[..|runs|] == runs;
  }

  lemma NoTargetStage(w: World, s: Script, env: Environment, values: Artifact -> Value, evidence: Value, budget: nat)
    requires s.target.None?
    ensures StageOf(Exec(w, s, env, values, evidence, budget)) == StageOf(w)
  {
    BodyKeepsState(w, s.body, env, values, budget);
  }

  lemma ConcludedStage(ran: Ran, s: Script, evidence: Value, budget: nat)
    requires Concludes(ran, s, budget) && s.target.Some?
    ensures StageOf(Concluded(ran, s, evidence, budget)) == s.target.value
  {
  }

  /** A script that advances and completes leaves the study at its target. */
  lemma TargetStage(w: World, s: Script, env: Environment, values: Artifact -> Value, evidence: Value, budget: nat)
    requires s.target.Some? && Completes(w, s, env, values, budget)
    ensures StageOf(w) == s.stage && StageOf(Exec(w, s, env, values, evidence, budget)) == s.target.value
  {
    ConcludedStage(ExecBody(w, s.body, env, values, budget), s, evidence, budget);
  }

  /** A command that advances and completes raises the stage by one. */
  lemma CompletionAdvances(w: World, c: Command, m: Moment)
    requires ScriptOf(c).target.Some?
    requires Completes(w, ScriptOf(c), m.env, m.values, |ScriptOf(c).body| + 1)
    ensures Index(StageOf(Invoke(w, Plain(c, m)))) == Index(StageOf(w)) + 1
  {
    TargetsAreNext(c);
    TargetStage(w, ScriptOf(c), m.env, m.values, m.evidence, |ScriptOf(c).body| + 1);
  }

  lemma NoTargetKeepsStage(w: World, c: Command, m: Moment)
    requires ScriptOf(c).target.None?
    ensures StageOf(Invoke(w, Plain(c, m))) == StageOf(w)
  {
    NoTargetStage(w, ScriptOf(c), m.env, m.values, m.evidence, |ScriptOf(c).body| + 1);
  }

  /** A file that only another command writes neither appears nor disappears. */
  lemma ForeignFile(w: World, i: Invocation, a: Artifact)
    requires i.command != WriterOf(a)
    ensures a in Invoke(w, i).files <==> a in w.files
  {
    InvokeGrows(w, i);
    if a !in w.files && a in Invoke(w, i).files {
      Added(w, i, a);
    }
  }

  lemma OnlyRenderFinishes(c: Command)
    requires ScriptOf(c).target.Some? && ScriptOf(c).target.value == README_RENDERED
    ensures c == Render
  {
  }

  /** The last stage is entered only by a command that reads the verification of another. */
  lemma FinisherReadsVerification(c: Command)
    requires ScriptOf(c).target.Some? && ScriptOf(c).target.value == README_RENDERED
    ensures Need(AgentReplayVerification) in ScriptOf(c).body && WriterOf(AgentReplayVerification) != c
  {
    OnlyRenderFinishes(c);
    assert ScriptOf(Render).body[9] == Need(AgentReplayVerification);
  }

  lemma FinishedOnVerification(w: World, i: Invocation)
    requires StageOf(Invoke(w, i)) == README_RENDERED && StageOf(w) != README_RENDERED
    ensures AgentReplayVerification in w.files
  {
    BodyEffects(w, ScriptOf(i.command).body, i.env, i.values, i.budget);
    FinisherReadsVerification(i.command);
    if AgentReplayVerification !in w.files {
      MissingNeed(w, i, AgentReplayVerification);
    }
  }

  /** What one command of the driver keeps: the verification file is neither made nor lost, and the last stage is
      entered only over it. */
  predicate NoShortcut(w: World, t: World) {
    && (AgentReplayVerification in t.files <==> AgentReplayVerification in w.files)
    && (StageOf(t) == README_RENDERED ==> StageOf(w) == README_RENDERED || AgentReplayVerification in w.files)
  }

  lemma CommandTakesNoShortcut(w: World, c: Command, m: Moment)
    requires c != VerifyAgentReplay
    ensures NoShortcut(w, Invoke(w, Plain(c, m)))
  {
    var i := Plain(c, m);
    ForeignFile(w, i, AgentReplayVerification);
    if StageOf(Invoke(w, i)) == README_RENDERED && StageOf(w) != README_RENDERED {
      FinishedOnVerification(w, i);
    }
  }

  /** One command of the driver, recorded in the run. */
  method Perform(study: Study, c: Command, m: Moment, ghost start: World, ghost before: seq<Invocation>)
    returns (ok: bool, ghost runs: seq<Invocation>)
    requires study.View() == After(start, before) && c != VerifyAgentReplay
    modifies study
    ensures runs == before + [Plain(c, m)]
    ensures study.View() == After(start, runs)
    ensures ok && ScriptOf(c).target.Some? ==> Index(StageOf(study.View())) == Index(old(StageOf(study.View()))) + 1
    ensures ScriptOf(c).target.None? ==> StageOf(study.View()) == old(StageOf(study.View()))
    ensures NoShortcut(old(study.View()), study.View())
  {
    var i := Plain(c, m);
    ghost var w := study.View();
    ok := study.RunCommand(i);
    runs := before + [i];
    AfterSnoc(start, before, i);
    CommandTakesNoShortcut(w, c, m);
    if ScriptOf(c).target.None? {
      NoTargetKeepsStage(w, c, m);
    } else if ok {
      CompletionAdvances(w, c, m);
    }
  }

  lemma PredictionTargets()
    ensures ScriptOf(RunNumeric).target.None? && ScriptOf(RunAgent).target.None? && ScriptOf(RunHybrid).target.None?
    ensures ScriptOf(FreezePredictions).target.Some?
  {
  }

  /** The prediction stage: whichever predictions are missing, and then the freeze. */
  method PerformPredictions(study: Study, moments: nat -> Moment, clock: nat, ghost start: World, ghost before: seq<Invocation>)
    returns (ok: bool, later: nat, ghost runs: seq<Invocation>)
    requires study.View() == After(start, before)
    modifies study
    ensures study.View() == After(start, runs)
    ensures ok ==> Index(StageOf(study.View())) == Index(old(StageOf(study.View()))) + 1
    ensures NoShortcut(old(study.View()), study.View())
  {
    PredictionTargets();
    runs, later := before, clock;
    if NumericPredictions !in study.files {
      ok, runs := Perform(study, RunNumeric, moments(later), start, runs);
      later := later + 1;
      if !ok {
        return;
      }
    }
    if AgentPredictions !in study.files {
      ok, runs := Perform(study, RunAgent, moments(later), start, runs);
      later := later + 1;
      if !ok {
        return;
      }
    }
    if HybridPredictions !in study.files {
      ok, runs := Perform(study, RunHybrid, moments(later), start, runs);
      later := later + 1;
      if !ok {
        return;
      }
    }
    ok, runs := Perform(study, FreezePredictions, moments(later), start, runs);
    later := later + 1;
  }

  lemma DriverAdvances(s: Stage)
    requires s != README_RENDERED
    ensures ScriptOf(AdvancerOf(s)).target.Some? && AdvancerOf(s) != VerifyAgentReplay
  {
    AdvancerFits(s);
  }

  /** The driver is itself a run of commands, whatever changes around it between them, so everything proved of runs
      holds of it. Every turn of its loop raises the stage. It stops without an error only at the end or at a phase
      boundary that it saw at moment `at`; and it ends with the last stage only if the study was there when it began
      or the replay had been verified by then, since none of its commands verifies it. */
  method CommandAll(study: Study, moments: nat -> Moment)
    returns (outcome: Outcome, ghost runs: seq<Invocation>, ghost at: nat)
    modifies study
    ensures study.View() == After(old(study.View()), runs)
    ensures outcome == Finished ==> StageOf(study.View()) == README_RENDERED
    ensures outcome == Finished ==>
      StageOf(old(study.View())) == README_RENDERED || AgentReplayVerification in old(study.files)
    ensures AgentReplayVerification in study.files <==> AgentReplayVerification in old(study.files)
    ensures outcome == PhaseBoundary ==>
      || (3 <= Index(StageOf(study.View())) <= 5 && DriverSeesOutcomes(moments(at).env))
      || (StageOf(study.View()) == PREDICTIONS_FROZEN && !moments(at).env.mountSet)
  {
    ghost var start := study.View();
    runs, at := [], 0;
    var clock := 0;
    while true
      invariant study.View() == After(start, runs)
      invariant NoShortcut(start, study.View())
      decreases 10 - Index(StageOf(study.View()))
    {
      var current := if study.state.None? then INIT else study.state.value.stage;
      if current == README_RENDERED {
        return Finished, runs, clock;
      }
      var now := moments(clock);
      if current in {PROTOCOL_FROZEN, COHORT_FROZEN, FEATURES_FROZEN} && DriverSeesOutcomes(now.env) {
        return PhaseBoundary, runs, clock;
      }
      if current == PREDICTIONS_FROZEN && !now.env.mountSet {
        return PhaseBoundary, runs, clock;
      }
      clock := clock + 1;
      var ok;
      if current == FEATURES_FROZEN {
        ok, clock, runs := PerformPredictions(study, moments, clock, start, runs);
      } else {
        DriverAdvances(current);
        ok, runs := Perform(study, AdvancerOf(current), moments(clock), start, runs);
        clock := clock + 1;
      }
      if !ok {
        return RaisedError, runs, clock;
      }
    }
  }
}
