/** The killable worker boundary as a step system (backend/finrisk/process_isolation.py): a parent
    coroutine, its shielded clean-up task, a child process and the private result directory. */
module WorkerProtocol {
  import opened Wrappers

  const MAX_WORKER_RESULT_BYTES: nat := 134217728

  /** What the child is going to publish: its pickled size and whether it is a pair. */
  datatype Payload = Payload(size: nat, isPair: bool)

  datatype Child = NotStarted | Working | Writing | Published | GivenUp | Dead

  /** How `run_spawned_worker` ends; `Returned` carries the number of bytes loaded. */
  datatype Exit =
    | Returned(bytes: nat)
    | TimedOut
    | ExitedWithoutResult
    | Oversize
    | InvalidResult
    | StartFailed
    | CouldNotBeReclaimed
    | Cancelled

  /** Program points of the parent. `TerminateMain` to `LastMain` are `_terminate` called before the return. */
  datatype Main =
    | Starting
    | CheckDeadline
    | CheckResult
    | LoadResult
    | CheckAlive
    | CheckResultAgain
    | Sleeping
    | Joining(bytes: nat)
    | Joined(bytes: nat)
    | TerminateMain(bytes: nat)
    | JoinTerminated(bytes: nat)
    | KillMain(bytes: nat)
    | JoinKilled(bytes: nat)
    | LastMain(bytes: nat)
    | Reclaiming(pending: Exit)
    | Left(exit: Exit)

  /** Program points of the clean-up task. */
  datatype Cleanup =
    | NotCreated
    | ReclaimAlive
    | Terminate
    | JoinAfterTerminate
    | Kill
    | JoinAfterKill
    | LastCheck
    | CloseProcess
    | RemoveDirectory
    | Finished
    | Failed

  datatype State = State(
    payload: Payload,
    child: Child,
    partial: Option<nat>,
    result: Option<nat>,
    published: bool,
    directory: bool,
    main: Main,
    cleanup: Cleanup,
    cancelled: bool,
    killed: bool,
    expired: bool)

  /** One atomic step of one of the parties. */
  datatype Event =
    | MainStep
    | StartRaises
    | DeadlinePasses
    | Cancel
    | CleanupStep
    | ChildOpens
    | ChildWrites(bytes: nat)
    | ChildOverflows
    | ChildReplaces
    | ChildDies

  predicate Alive(c: Child) {
    c.Working? || c.Writing? || c.Published? || c.GivenUp?
  }

  function Initial(payload: Payload): State {
    State(payload, NotStarted, None, None, false, true, Starting, NotCreated, false, false, false)
  }

  /** Every exit of the `try` block enters `finally`, which creates the clean-up task. */
  function Leave(s: State, exit: Exit): State {
    s.(main := Reclaiming(exit), cleanup := ReclaimAlive)
  }

  /** The parent is suspended exactly at its awaits; only there can a cancellation reach it. */
  predicate Suspended(m: Main) {
    m.Sleeping? || m.Joining? || m.JoinTerminated? || m.JoinKilled? || m.Reclaiming?
  }

  /** The bytes the parent has loaded, between loading and leaving the `try` block. */
  function Loaded(m: Main): Option<nat> {
    match m
    case Joining(bytes) => Some(bytes)
    case Joined(bytes) => Some(bytes)
    case TerminateMain(bytes) => Some(bytes)
    case JoinTerminated(bytes) => Some(bytes)
    case KillMain(bytes) => Some(bytes)
    case JoinKilled(bytes) => Some(bytes)
    case LastMain(bytes) => Some(bytes)
    case _ => None
  }

  /** Starting the child and the polling loop. */
  function StepPoll(s: State): Option<State> {
    match s.main
    case Starting => Some(s.(child := Working, main := CheckDeadline))
    case CheckDeadline => Some(if s.expired then Leave(s, TimedOut) else s.(main := CheckResult))
    case CheckResult => Some(s.(main := if s.result.Some? then LoadResult else CheckAlive))
    case LoadResult =>
      if s.result.None? then None
      else if s.result.value > MAX_WORKER_RESULT_BYTES then Some(Leave(s, Oversize))
      else if !s.payload.isPair then Some(Leave(s, InvalidResult))
      else Some(s.(main := Joining(s.result.value)))
    case CheckAlive => Some(s.(main := if Alive(s.child) then Sleeping else CheckResultAgain))
    case CheckResultAgain => Some(if s.result.Some? then s.(main := CheckDeadline) else Leave(s, ExitedWithoutResult))
    case Sleeping => Some(s.(main := CheckDeadline))
    case _ => None
  }

  /** Joining the child, and terminating it if need be, before the return. */
  function StepReturn(s: State, bytes: nat): Option<State> {
    match s.main
    case Joining(_) => Some(s.(main := Joined(bytes)))
    case Joined(_) => Some(if Alive(s.child) then s.(main := TerminateMain(bytes)) else Leave(s, Returned(bytes)))
    case TerminateMain(_) => Some(s.(main := JoinTerminated(bytes)))
    case JoinTerminated(_) => Some(s.(main := KillMain(bytes)))
    case KillMain(_) =>
      Some(if Alive(s.child) then s.(killed := true, main := JoinKilled(bytes)) else s.(main := LastMain(bytes)))
    case JoinKilled(_) => Some(s.(main := LastMain(bytes)))
    case LastMain(_) => Some(Leave(s, if Alive(s.child) then CouldNotBeReclaimed else Returned(bytes)))
    case _ => None
  }

  /** Waiting for the shielded clean-up task, and leaving once it is done. */
  function StepReclaim(s: State): Option<State> {
    if !s.main.Reclaiming? then None
    else if s.cleanup.Finished? then Some(s.(main := Left(if s.cancelled then Cancelled else s.main.pending)))
    else if s.cleanup.Failed? then Some(s.(main := Left(CouldNotBeReclaimed)))
    else None
  }

  function StepMain(s: State): Option<State> {
    if Loaded(s.main).Some? then StepReturn(s, Loaded(s.main).value)
    else if s.main.Reclaiming? then StepReclaim(s)
    else StepPoll(s)
  }

  function StepCleanup(s: State): Option<State> {
    match s.cleanup
    case NotCreated => None
    case ReclaimAlive => Some(s.(cleanup := if Alive(s.child) then Terminate else CloseProcess))
    case Terminate => Some(s.(cleanup := JoinAfterTerminate))
    case JoinAfterTerminate => Some(s.(cleanup := Kill))
    case Kill => Some(if Alive(s.child) then s.(killed := true, cleanup := JoinAfterKill) else s.(cleanup := LastCheck))
    case JoinAfterKill => Some(s.(cleanup := LastCheck))
    case LastCheck => Some(s.(cleanup := if Alive(s.child) then Failed else CloseProcess))
    case CloseProcess => Some(s.(cleanup := RemoveDirectory))
    case RemoveDirectory => Some(s.(directory := false, partial := None, result := None, cleanup := Finished))
    case Finished => None
    case Failed => None
  }

  /** The child writes a partial file in pieces, refuses to exceed the size limit, and publishes the
      complete file by one atomic rename. It can die, or be killed, at any point. */
  function StepChild(s: State, e: Event): Option<State> {
    match e
    case ChildOpens => if s.child == Working then Some(s.(child := Writing, partial := Some(0))) else None
    case ChildWrites(bytes) =>
      if s.child == Writing && s.partial.Some? && s.partial.value + bytes <= s.payload.size
        && s.partial.value + bytes <= MAX_WORKER_RESULT_BYTES
      then Some(s.(partial := Some(s.partial.value + bytes))) else None
    case ChildOverflows =>
      if s.child == Writing && s.payload.size > MAX_WORKER_RESULT_BYTES then Some(s.(child := GivenUp)) else None
    case ChildReplaces =>
      if s.child == Writing && s.partial == Some(s.payload.size)
      then Some(s.(child := Published, partial := None, result := s.partial, published := true)) else None
    case ChildDies => if Alive(s.child) then Some(s.(child := Dead)) else None
    case _ => None
  }

  function Apply(s: State, e: Event): Option<State> {
    match e
    case MainStep => StepMain(s)
    case StartRaises => if s.main == Starting then Some(Leave(s, StartFailed)) else None
    case DeadlinePasses => Some(s.(expired := true))
    case Cancel =>
      if !Suspended(s.main) then None
      else if s.main.Reclaiming? then Some(s.(cancelled := true))
      else Some(Leave(s, Cancelled))
    case CleanupStep => if s.main.Reclaiming? then StepCleanup(s) else None
    case _ => StepChild(s, e)
  }

  /** The state after a run, if every step of it was possible. */
  function After(payload: Payload, events: seq<Event>): Option<State> {
    if events == [] then Some(Initial(payload))
    else
      var last := |events| - 1;
      match After(payload, events[..last])
      case None => None
      case Some(s) => Apply(s, events[last])
  }

  // ----- invariant

  ghost predicate FilesOk(s: State) {
    && (s.result.Some? ==> s.result.value == s.payload.size <= MAX_WORKER_RESULT_BYTES && s.published)
    && (s.published && s.directory ==> s.result.Some?)
    && (s.published ==> s.child.Published? || s.child.Dead?)
    && (s.partial.Some? ==> s.partial.value <= s.payload.size && s.partial.value <= MAX_WORKER_RESULT_BYTES)
    && (s.child.NotStarted? || s.child.Working? ==> s.partial.None?)
  }

  /** What each outcome says about the child and its file. */
  ghost predicate ExitOk(s: State, exit: Exit) {
    && !exit.Oversize?
    && (exit.Returned? ==> exit.bytes == s.payload.size && s.payload.isPair && s.published)
    && (exit.InvalidResult? ==> !s.payload.isPair && s.published)
    && (exit.ExitedWithoutResult? ==> s.child.Dead? && !s.published)
    && (exit.StartFailed? ==> s.child.NotStarted?)
    && (exit.TimedOut? ==> s.expired)
    && (exit.CouldNotBeReclaimed? ==> s.killed)
  }

  ghost predicate MainOk(s: State) {
    && (s.main.Starting? <==> s.child.NotStarted? && !s.main.Reclaiming? && !s.main.Left?)
    && (s.main.LoadResult? ==> s.result.Some?)
    && (s.main.CheckResultAgain? ==> s.child.Dead?)
    && (Loaded(s.main).Some? ==> Loaded(s.main).value == s.payload.size && s.payload.isPair && s.published)
    && (s.main.JoinKilled? ==> s.killed)
    && (s.main.LastMain? && Alive(s.child) ==> s.killed)
    && (s.main.Reclaiming? ==> ExitOk(s, s.main.pending))
  }

  ghost predicate CleanupOk(s: State) {
    && (s.cleanup.NotCreated? <==> !s.main.Reclaiming? && !s.main.Left?)
    && (s.cleanup.CloseProcess? || s.cleanup.RemoveDirectory? || s.cleanup.Finished? ==> !Alive(s.child))
    && (s.cleanup.JoinAfterKill? ==> s.killed)
    && (s.cleanup.LastCheck? && Alive(s.child) ==> s.killed)
    && (s.cleanup.Failed? ==> s.killed)
    && (!s.directory <==> s.cleanup.Finished?)
    && (s.cancelled ==> s.main.Reclaiming? || s.main.Left?)
  }

  /** The state in which the function is left. */
  ghost predicate LeftOk(s: State) {
    s.main.Left? ==>
      if s.cleanup.Finished? then
        && !Alive(s.child) && !s.directory
        && (if s.cancelled then s.main.exit == Cancelled else ExitOk(s, s.main.exit))
      else s.cleanup.Failed? && s.main.exit == CouldNotBeReclaimed && s.killed
  }

  ghost predicate Inv(s: State) {
    FilesOk(s) && MainOk(s) && CleanupOk(s) && LeftOk(s)
  }

  lemma PollKeepsInv(s: State)
    requires Inv(s) && Loaded(s.main).None? && StepPoll(s).Some?
    ensures Inv(StepPoll(s).value) && StepPoll(s).value.payload == s.payload
  {
  }

  lemma ReturnKeepsInv(s: State)
    requires Inv(s) && Loaded(s.main).Some?
    ensures var t := StepReturn(s, Loaded(s.main).value); t.Some? && Inv(t.value) && t.value.payload == s.payload
  {
    ReturnTouches(s);
    ReturnKeepsMain(s);
  }

  lemma ReturnTouches(s: State)
    requires Loaded(s.main).Some?
    ensures StepReturn(s, Loaded(s.main).value).Some?
    ensures var t := StepReturn(s, Loaded(s.main).value).value;
      && t == s.(main := t.main, cleanup := t.cleanup, killed := t.killed)
      && (s.killed ==> t.killed)
      && !t.main.Left? && !t.main.Starting?
      && (if t.main.Reclaiming? then t.cleanup.ReclaimAlive? else t.cleanup == s.cleanup)
  {
  }

  lemma ReturnKeepsMain(s: State)
    requires MainOk(s) && Loaded(s.main).Some? && StepReturn(s, Loaded(s.main).value).Some?
    ensures MainOk(StepReturn(s, Loaded(s.main).value).value)
  {
  }

  lemma ReclaimKeepsInv(s: State)
    requires Inv(s) && StepReclaim(s).Some?
    ensures Inv(StepReclaim(s).value) && StepReclaim(s).value.payload == s.payload
  {
  }

  lemma CleanupKeepsInv(s: State)
    requires Inv(s) && s.main.Reclaiming? && StepCleanup(s).Some?
    ensures Inv(StepCleanup(s).value)
    ensures StepCleanup(s).value.payload == s.payload
  {
    CleanupTouches(s);
    CleanupKeepsCleanup(s);
  }

  lemma CleanupTouches(s: State)
    requires StepCleanup(s).Some?
    ensures var t := StepCleanup(s).value;
      && t == s.(cleanup := t.cleanup, killed := t.killed, directory := t.directory, partial := t.partial, result := t.result)
      && (s.killed ==> t.killed)
      && (if s.cleanup.RemoveDirectory? then !t.directory && t.partial.None? && t.result.None?
          else t.directory == s.directory && t.partial == s.partial && t.result == s.result)
  {
    if s.cleanup.RemoveDirectory? {
    } else if s.cleanup.Kill? {
    } else {
      assert StepCleanup(s).value == s.(cleanup := StepCleanup(s).value.cleanup);
    }
  }

  lemma CleanupKeepsCleanup(s: State)
    requires CleanupOk(s) && s.main.Reclaiming? && StepCleanup(s).Some?
    ensures CleanupOk(StepCleanup(s).value)
  {
  }

  lemma ChildKeepsInv(s: State, e: Event)
    requires Inv(s) && StepChild(s, e).Some?
    ensures Inv(StepChild(s, e).value)
    ensures StepChild(s, e).value.payload == s.payload
  {
  }

  lemma ParentKeepsInv(s: State, e: Event)
    requires Inv(s) && (e.StartRaises? || e.DeadlinePasses? || e.Cancel?) && Apply(s, e).Some?
    ensures Inv(Apply(s, e).value)
    ensures Apply(s, e).value.payload == s.payload
  {
  }

  lemma StepKeepsInv(s: State, e: Event)
    requires Inv(s) && Apply(s, e).Some?
    ensures Inv(Apply(s, e).value)
    ensures Apply(s, e).value.payload == s.payload
  {
    if e.MainStep? {
      if Loaded(s.main).Some? {
        ReturnKeepsInv(s);
      } else if s.main.Reclaiming? {
        ReclaimKeepsInv(s);
      } else {
        PollKeepsInv(s);
      }
    } else if e.CleanupStep? {
      CleanupKeepsInv(s);
    } else if e.StartRaises? || e.DeadlinePasses? || e.Cancel? {
      ParentKeepsInv(s, e);
    } else {
      ChildKeepsInv(s, e);
    }
  }

  lemma InitialInv(payload: Payload)
    ensures Inv(Initial(payload))
  {
  }

  lemma {:induction false} RunsKeepInv(payload: Payload, events: seq<Event>)
    requires After(payload, events).Some?
    ensures Inv(After(payload, events).value) && After(payload, events).value.payload == payload
  {
    if events == [] {
      InitialInv(payload);
    } else {
      var last := |events| - 1;
      var before := After(payload, events[..last]);
      assert before.Some?;
      RunsKeepInv(payload, events[..last]);
      StepKeepsInv(before.value, events[last]);
    }
  }

  // ----- what every interleaving guarantees

  /** In every interleaving of parent, clean-up, child, deadline and repeated cancellations:
      - what the parent has loaded is the child's complete published file, a pair within the limit;
      - the function is left either with the child dead and its directory removed, raising a cancellation
        that arrived during clean-up, or with the "could not be reclaimed" error after a kill;
      - a result is returned only if it was published in full, "exited without a result" is reported only
        for a dead child that never published, a time-out only after the deadline, and the size check on a
        published file never fires. */
  lemma EveryRunIsSafe(payload: Payload, events: seq<Event>)
    requires After(payload, events).Some?
    ensures var s := After(payload, events).value;
      && (Loaded(s.main).Some? ==> Loaded(s.main).value == payload.size && payload.isPair && s.published)
      && (s.main.Left? ==>
            || (s.cleanup.Finished? && !Alive(s.child) && !s.directory && (s.cancelled ==> s.main.exit == Cancelled))
            || (s.cleanup.Failed? && s.main.exit == CouldNotBeReclaimed && s.killed))
      && (s.main.Left? && s.main.exit.Returned? ==> s.main.exit.bytes == payload.size && payload.isPair && s.published)
      && (s.main.Left? && s.main.exit == ExitedWithoutResult ==> s.child == Dead && !s.published)
      && (s.main.Left? && s.main.exit == TimedOut ==> s.expired)
      && (s.main.Left? ==> s.main.exit != Oversize)
  {
    RunsKeepInv(payload, events);
  }

  // ----- reclamation takes a bounded number of the parent's own steps

  function CleanupRank(c: Cleanup): nat {
    match c
    case NotCreated => 0
    case ReclaimAlive => 8
    case Terminate => 7
    case JoinAfterTerminate => 6
    case Kill => 5
    case JoinAfterKill => 4
    case LastCheck => 3
    case CloseProcess => 2
    case RemoveDirectory => 1
    case Finished => 0
    case Failed => 0
  }

  function Rank(s: State): nat {
    match s.main
    case Starting => 21
    case CheckResult => 20
    case LoadResult => 19
    case Joining(_) => 18
    case Joined(_) => 17
    case TerminateMain(_) => 16
    case JoinTerminated(_) => 15
    case KillMain(_) => 14
    case JoinKilled(_) => 13
    case LastMain(_) => 12
    case CheckAlive => 13
    case Sleeping => 12
    case CheckResultAgain => 12
    case CheckDeadline => 11
    case Reclaiming(_) => 1 + CleanupRank(s.cleanup)
    case Left(_) => 0
  }

  predicate OwnStep(e: Event) {
    e.MainStep? || e.CleanupStep?
  }

  /** Until the function is left, the parent or its clean-up task can always move. */
  lemma NeverStuck(s: State)
    requires Inv(s) && !s.main.Left?
    ensures Apply(s, MainStep).Some? || Apply(s, CleanupStep).Some?
  {
  }

  lemma PollDescends(s: State)
    requires MainOk(s) && s.expired && Loaded(s.main).None? && StepPoll(s).Some?
    ensures StepPoll(s).value.expired && Rank(StepPoll(s).value) < Rank(s)
  {
  }

  lemma ReturnDescends(s: State)
    requires s.expired && Loaded(s.main).Some? && StepReturn(s, Loaded(s.main).value).Some?
    ensures var t := StepReturn(s, Loaded(s.main).value).value; t.expired && Rank(t) < Rank(s)
  {
    ReturnTouches(s);
    var t := StepReturn(s, Loaded(s.main).value).value;
    if t.main.Reclaiming? {
      assert Rank(t) == 9;
    }
  }

  lemma ReclaimDescends(s: State)
    requires s.expired && StepReclaim(s).Some?
    ensures StepReclaim(s).value.expired && Rank(StepReclaim(s).value) < Rank(s)
  {
  }

  lemma CleanupDescends(s: State)
    requires s.expired && s.main.Reclaiming? && StepCleanup(s).Some?
    ensures StepCleanup(s).value.expired && Rank(StepCleanup(s).value) < Rank(s)
  {
    var t := StepCleanup(s).value;
    CleanupTouches(s);
    assert t.main == s.main;
    assert CleanupRank(t.cleanup) < CleanupRank(s.cleanup);
  }

  lemma OthersKeepRank(s: State, e: Event)
    requires CleanupOk(s) && s.expired && !OwnStep(e) && Apply(s, e).Some?
    ensures Apply(s, e).value.expired && Rank(Apply(s, e).value) <= Rank(s)
  {
    if !e.StartRaises? && !e.DeadlinePasses? && !e.Cancel? {
      ChildKeepsRank(s, e);
    }
  }

  lemma ChildKeepsRank(s: State, e: Event)
    requires StepChild(s, e).Some?
    ensures var t := StepChild(s, e).value; t.main == s.main && t.cleanup == s.cleanup && t.expired == s.expired
  {
  }

  lemma OwnStepsDescend(s: State, e: Event)
    requires Inv(s) && s.expired && Apply(s, e).Some?
    ensures var t := Apply(s, e).value;
      && t.expired
      && Rank(t) <= Rank(s)
      && (OwnStep(e) ==> Rank(t) < Rank(s))
  {
    if !OwnStep(e) {
      OthersKeepRank(s, e);
    } else if e.CleanupStep? {
      CleanupDescends(s);
    } else if s.main.Reclaiming? {
      ReclaimDescends(s);
    } else if Loaded(s.main).Some? {
      ReturnDescends(s);
    } else {
      PollDescends(s);
    }
  }

  function OwnSteps(events: seq<Event>): nat {
    if events == [] then 0
    else OwnSteps(events[..|events| - 1]) + if OwnStep(events[|events| - 1]) then 1 else 0
  }

  lemma {:induction false} OwnStepsBounded(payload: Payload, before: seq<Event>, more: seq<Event>)
    requires After(payload, before).Some? && After(payload, before).value.expired
    requires After(payload, before + more).Some?
    ensures After(payload, before + more).value.expired
    ensures OwnSteps(more) + Rank(After(payload, before + more).value) <= Rank(After(payload, before).value)
  {
    if more == [] {
      assert before + more == before;
    } else {
      var init, e := more[..|more| - 1], more[|more| - 1];
      assert more == init + [e] && before + more == before + init + [e];
      var t := LastStep(payload, before + init, e);
      RunsKeepInv(payload, before + init);
      OwnStepsBounded(payload, before, init);
      OwnStepsDescend(t, e);
    }
  }

  lemma RankBound(s: State)
    ensures Rank(s) <= 21
  {
  }

  /** Once the deadline has passed, no run, however the child behaves and however often the caller is
      cancelled, makes the parent and its clean-up take more than 21 further steps. */
  lemma ReclaimsInBoundedSteps(payload: Payload, before: seq<Event>, more: seq<Event>)
    requires After(payload, before).Some? && After(payload, before).value.expired
    requires After(payload, before + more).Some?
    ensures OwnSteps(more) <= 21
  {
    OwnStepsBounded(payload, before, more);
    RankBound(After(payload, before).value);
  }

  /** Until the function is left, the parent or its clean-up can always take a step. */
  lemma RunsNeverStick(payload: Payload, events: seq<Event>)
    requires After(payload, events).Some? && !After(payload, events).value.main.Left?
    ensures After(payload, events + [MainStep]).Some? || After(payload, events + [CleanupStep]).Some?
  {
    RunsKeepInv(payload, events);
    NeverStuck(After(payload, events).value);
    assert (events + [MainStep])[..|events|] == events;
    assert (events + [CleanupStep])[..|events|] == events;
  }

  lemma LastStep(payload: Payload, events: seq<Event>, e: Event) returns (t: State)
    requires After(payload, events + [e]).Some?
    ensures After(payload, events) == Some(t) && Apply(t, e) == After(payload, events + [e])
  {
    assert (events + [e])[..|events|] == events;
    t := After(payload, events).value;
  }
}
