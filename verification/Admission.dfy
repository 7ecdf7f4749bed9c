/** Bounded admission of request bodies as a step system: any number of requests interleave at their awaits
    (backend/finrisk/request_boundary.py and backend/finrisk/upload_boundary.py). */
module Admission {
  import opened Wrappers
  import opened BodyReading

  const MULTIPART_OVERHEAD_BYTES: nat := 65536

  /** `RequestBodyBoundary` and `UploadBoundary`. */
  datatype Kind = Bodies | Uploads

  datatype Scope = Scope(protocol: string, verb: string, path: string)

  const ANALYZE_PATH := "/api/v1/documents/analyze"

  /** `path.rstrip("/")` */
  function StripSlashes(path: string): string {
    if path != [] && path[|path| - 1] == '/' then StripSlashes(path[..|path| - 1]) else path
  }

  predicate ChangesState(verb: string) {
    verb == "POST" || verb == "PUT" || verb == "PATCH" || verb == "DELETE"
  }

  /** The requests a boundary does not simply pass on. */
  predicate Guards(kind: Kind, scope: Scope) {
    && scope.protocol == "http"
    && if kind.Uploads? then scope.verb == "POST" && StripSlashes(scope.path) == ANALYZE_PATH
       else ChangesState(scope.verb) && StripSlashes(scope.path) != ANALYZE_PATH
  }

  /** A request as the boundary first sees it: its scope, the limit in force (if the setting is sound), the
      Content-Length header (absent, or its integer if it parses), and what `state` holds under the upload
      principal's key. */
  datatype Request = Request(scope: Scope, limit: Option<nat>, declared: Option<Option<int>>, inherited: Option<string>)

  datatype Outcome = Answered(status: int) | Disconnected | Served | Raised

  /** The awaits of a request, and its two ends. */
  datatype Phase =
    | Fresh
    | Passing
    | Authenticating
    | Responding(status: int)
    | Waiting
    | Receiving(buffered: seq<Byte>)
    | Refusing(status: int, timed: bool)
    | InApp(body: seq<Byte>, delivered: bool)
    | Ended(outcome: Outcome)

  /** A request in flight. `received` are the messages the boundary itself consumed, `called` the body the
      application was called with, `seen` what the application has received through the boundary and `passed`
      the connection's messages since; `acquired` and `released` count operations on the semaphore. */
  datatype Task = Task(
    request: Request,
    phase: Phase,
    user: Option<string>,
    principal: Option<string>,
    received: seq<Message>,
    called: Option<seq<Byte>>,
    seen: seq<Message>,
    passed: seq<Message>,
    acquired: nat,
    released: nat)

  /** `asyncio.Semaphore`: its value and the tasks suspended on it. */
  datatype Semaphore = Semaphore(value: nat, waiters: seq<nat>) {
    predicate Locked() { value == 0 || waiters != [] }
  }

  datatype World = World(kind: Kind, capacity: nat, slots: Semaphore, tasks: seq<Task>)

  datatype Event =
    | Begin
    | Authenticated(user: string)
    | Denied(status: int)
    | Deliver(message: Message)
    | TimeUp
    | Sent
    | AppReceives(message: Message)
    | AppReturns
    | Fails

  function NewTask(r: Request): Task {
    Task(r, Fresh, None, r.inherited, [], None, [], [], 0, 0)
  }

  function Limit(kind: Kind, r: Request): Option<nat> {
    match r.limit
    case None => None
    case Some(limit) => Some(if kind.Uploads? then limit + MULTIPART_OVERHEAD_BYTES else limit)
  }

  /** The status a Content-Length earns before any byte is read. */
  function DeclaredRefusal(declared: Option<Option<int>>, limit: nat): Option<int> {
    match declared
    case None => None
    case Some(None) => Some(400)
    case Some(Some(length)) => if length < 0 then Some(400) else if length > limit then Some(413) else None
  }

  /** The configuration and header checks; the body boundary makes them first, the upload boundary in the slot. */
  function Checked(kind: Kind, r: Request): Result<nat, int> {
    match Limit(kind, r)
    case None => Failure(503)
    case Some(limit) =>
      match DeclaredRefusal(r.declared, limit)
      case Some(status) => Failure(status)
      case None => Success(limit)
  }

  /** `acquire` takes a slot at once if there is one and suspends otherwise. */
  function Acquire(slots: Semaphore, id: nat): (Semaphore, bool) {
    if slots.Locked() then (slots.(waiters := slots.waiters + [id]), false)
    else (slots.(value := slots.value - 1), true)
  }

  /** Turned away when the semaphore is locked; else `acquire`, and on into the `try` block. */
  function Admit(kind: Kind, slots: Semaphore, id: nat, t: Task): (Semaphore, Task) {
    if slots.Locked() then (slots, t.(phase := Responding(503)))
    else
      var (left, granted) := Acquire(slots, id);
      if !granted then (left, t.(phase := Waiting))
      else
        var held := t.(acquired := t.acquired + 1);
        match if kind.Uploads? then Checked(kind, t.request) else Success(0)
        case Failure(status) => (left, held.(phase := Refusing(status, false)))
        case Success(_) => (left, held.(phase := Receiving([])))
  }

  /** `finally`: drop the principal (uploads only) and give the slot back. */
  function Leave(kind: Kind, slots: Semaphore, t: Task, outcome: Outcome): (Semaphore, Task) {
    (slots.(value := slots.value + 1),
     t.(phase := Ended(outcome), released := t.released + 1, principal := if kind.Uploads? then None else t.principal))
  }

  /** From the call up to the first await. */
  function Start(kind: Kind, slots: Semaphore, id: nat, t: Task): (Semaphore, Task) {
    if !Guards(kind, t.request.scope) then (slots, t.(phase := Passing))
    else if kind.Uploads? then (slots, t.(phase := Authenticating))
    else match Checked(kind, t.request)
      case Failure(status) => (slots, t.(phase := Responding(status)))
      case Success(_) => Admit(kind, slots, id, t)
  }

  /** A message for the reading loop. */
  function Hear(kind: Kind, slots: Semaphore, t: Task, buffered: seq<Byte>, message: Message, limit: nat): (Semaphore, Task) {
    var heard := t.(received := t.received + [message]);
    match Feed(buffered, message, limit)
    case Gone => Leave(kind, slots, heard, Disconnected)
    case TooLarge => (slots, heard.(phase := Refusing(413, true)))
    case Open(more) => (slots, heard.(phase := Receiving(more)))
    case Whole(body) =>
      (slots, heard.(phase := InApp(body, false), called := Some(body), principal := if kind.Uploads? then t.user else t.principal))
  }

  /** One step of task `id`; an event that does not fit its phase changes nothing. */
  function Move(kind: Kind, slots: Semaphore, id: nat, t: Task, event: Event): (Semaphore, Task) {
    match event
    case Begin => if t.phase.Fresh? then Start(kind, slots, id, t) else (slots, t)
    case Authenticated(user) =>
      if t.phase.Authenticating? then Admit(kind, slots, id, t.(user := Some(user))) else (slots, t)
    case Denied(status) => if t.phase.Authenticating? then (slots, t.(phase := Responding(status))) else (slots, t)
    case Deliver(message) =>
      if t.phase.Receiving? && Limit(kind, t.request).Some?
      then Hear(kind, slots, t, t.phase.buffered, message, Limit(kind, t.request).value) else (slots, t)
    case TimeUp =>
      if t.phase.Receiving? || (t.phase.Refusing? && t.phase.timed) then (slots, t.(phase := Refusing(408, false))) else (slots, t)
    case Sent =>
      if t.phase.Responding? then (slots, t.(phase := Ended(Answered(t.phase.status))))
      else if t.phase.Refusing? then Leave(kind, slots, t, Answered(t.phase.status))
      else (slots, t)
    case AppReceives(message) =>
      if !t.phase.InApp? then (slots, t)
      else (slots, t.(phase := InApp(t.phase.body, true),
                      seen := t.seen + [BoundedMessage(t.phase.body, t.phase.delivered, message)],
                      passed := if t.phase.delivered then t.passed + [message] else t.passed))
    case AppReturns =>
      if t.phase.InApp? then Leave(kind, slots, t, Served)
      else if t.phase.Passing? then (slots, t.(phase := Ended(Served)))
      else (slots, t)
    case Fails =>
      if Holding(t.phase) then Leave(kind, slots, t, Raised)
      else if t.phase.Ended? then (slots, t)
      else (slots, t.(phase := Ended(Raised)))
  }

  /** Inside the `try` whose `finally` releases. */
  predicate Holding(p: Phase) {
    p.Receiving? || p.Refusing? || p.InApp?
  }

  function Apply(w: World, id: nat, event: Event): World {
    if id >= |w.tasks| then w
    else
      var (slots, t) := Move(w.kind, w.slots, id, w.tasks[id], event);
      w.(slots := slots, tasks := w.tasks[id := t])
  }

  function After(w: World, run: seq<(nat, Event)>): World {
    if run == [] then w else Apply(After(w, run[..|run| - 1]), run[|run| - 1].0, run[|run| - 1].1)
  }

  function Initial(kind: Kind, capacity: nat, requests: seq<Request>): World {
    World(kind, capacity, Semaphore(capacity, []), seq(|requests|, i requires 0 <= i < |requests| => NewTask(requests[i])))
  }

  function Holders(tasks: seq<Task>): nat {
    if tasks == [] then 0 else (if Holding(tasks[0].phase) then 1 else 0) + Holders(tasks[1..])
  }

  // ----- what every step keeps

  /** The slot is taken at most once, and given back exactly when it is no longer needed. */
  predicate SlotOk(t: Task) {
    && t.acquired <= 1
    && t.acquired == t.released + (if Holding(t.phase) then 1 else 0)
    && !t.phase.Waiting?
  }

  /** What is kept is what was received, within the limit, and only a complete body reaches the application. */
  predicate BodyOk(kind: Kind, t: Task) {
    && (t.acquired == 0 ==> t.received == [])
    && (t.phase.Receiving? ==>
          && Limit(kind, t.request).Some?
          && Continues(t.received)
          && t.phase.buffered == Body(t.received)
          && |t.phase.buffered| <= Limit(kind, t.request).value
          && t.called == None)
    && (t.called.Some? ==>
          && Limit(kind, t.request).Some?
          && Complete(t.received)
          && t.called.value == Body(t.received)
          && |t.called.value| <= Limit(kind, t.request).value)
    && (t.phase.Refusing? ==> t.called == None)
  }

  /** The application sees its body once and first, then the connection's messages unchanged. */
  predicate AppOk(t: Task) {
    && (t.phase.InApp? ==> t.called == Some(t.phase.body) && (t.seen != [] <==> t.phase.delivered))
    && (t.seen != [] ==> t.called.Some? && t.seen == [Chunk(t.called.value, false)] + t.passed)
    && (t.seen == [] ==> t.passed == [])
    && (t.called == None ==> t.seen == [])
  }

  /** Uploads: nothing is read and no slot taken before authentication, and the principal is in place exactly
      while the application runs. */
  predicate UserOk(kind: Kind, t: Task) {
    && (kind.Uploads? && t.user == None ==> t.acquired == 0 && t.received == [])
    && (kind.Uploads? && t.phase.InApp? ==> t.user.Some? && t.principal == t.user)
    && (kind.Uploads? && t.acquired == 1 && t.phase.Ended? ==> t.principal == None)
    && (kind.Bodies? ==> t.principal == t.request.inherited)
    && (t.acquired == 0 ==> t.principal == t.request.inherited)
  }

  predicate TaskOk(kind: Kind, t: Task) {
    SlotOk(t) && BodyOk(kind, t) && AppOk(t) && UserOk(kind, t) && PhaseOk(kind, t)
  }

  predicate PhaseOk(kind: Kind, t: Task) {
    && (t.acquired == 0 ==> t.called == None)
    && (!Holding(t.phase) && !t.phase.Ended? ==> t.acquired == 0)
    && (t.phase.Fresh? || t.phase.Authenticating? ==> t.user == None)
    && (t.phase.Authenticating? ==> kind.Uploads? && Guards(kind, t.request.scope))
    && (kind.Bodies? && t.acquired == 1 ==> Checked(kind, t.request).Success?)
    && (t.acquired == 1 ==> Guards(kind, t.request.scope))
  }

  predicate Inv(w: World) {
    && w.slots.waiters == []
    && w.slots.value + Holders(w.tasks) == w.capacity
    && forall i | 0 <= i < |w.tasks| :: TaskOk(w.kind, w.tasks[i])
  }

  lemma HoldersUpdate(tasks: seq<Task>, i: nat, t: Task)
    requires i < |tasks|
    ensures Holders(tasks[i := t]) + (if Holding(tasks[i].phase) then 1 else 0) == Holders(tasks) + if Holding(t.phase) then 1 else 0
  {
    if i > 0 {
      HoldersUpdate(tasks[1..], i - 1, t);
      assert tasks[i := t][1..] == tasks[1..][i - 1 := t];
    } else {
      assert tasks[0 := t][1..] == tasks[1..];
    }
  }

  /** A step of one task keeps the task in order and the sum of free slots and holders. */
  predicate Kept(kind: Kind, slots: Semaphore, t: Task, result: (Semaphore, Task)) {
    && TaskOk(kind, result.1)
    && result.0.waiters == []
    && result.0.value + (if Holding(result.1.phase) then 1 else 0) == slots.value + if Holding(t.phase) then 1 else 0
  }

  lemma LeaveKeeps(kind: Kind, slots: Semaphore, t: Task, outcome: Outcome)
    requires slots.waiters == [] && TaskOk(kind, t) && Holding(t.phase)
    ensures Kept(kind, slots, t, Leave(kind, slots, t, outcome))
  {
  }

  lemma AdmitKeeps(kind: Kind, slots: Semaphore, id: nat, t: Task)
    requires slots.waiters == [] && TaskOk(kind, t.(user := None)) && (t.phase.Fresh? || t.phase.Authenticating?)
    requires if kind.Uploads? then t.user.Some? else t.user == None && Checked(kind, t.request).Success?
    requires Guards(kind, t.request.scope)
    ensures Kept(kind, slots, t, Admit(kind, slots, id, t))
  {
  }

  lemma HearMore(kind: Kind, t: Task, message: Message, limit: nat)
    requires TaskOk(kind, t) && t.phase.Receiving? && Limit(kind, t.request) == Some(limit)
    requires Feed(t.phase.buffered, message, limit).Open?
    ensures TaskOk(kind, t.(received := t.received + [message], phase := Receiving(t.phase.buffered + message.body)))
  {
    BodySnoc(t.received, message);
  }

  lemma HearWhole(kind: Kind, t: Task, message: Message, limit: nat, body: seq<Byte>)
    requires TaskOk(kind, t) && t.phase.Receiving? && Limit(kind, t.request) == Some(limit)
    requires Feed(t.phase.buffered, message, limit) == Whole(body)
    ensures TaskOk(kind, t.(received := t.received + [message], phase := InApp(body, false), called := Some(body),
                            principal := if kind.Uploads? then t.user else t.principal))
  {
    var heard := t.received + [message];
    BodySnoc(t.received, message);
    assert heard[..|heard| - 1] == t.received;
  }

  lemma HearKeeps(kind: Kind, slots: Semaphore, t: Task, message: Message, limit: nat)
    requires slots.waiters == [] && TaskOk(kind, t) && t.phase.Receiving? && Limit(kind, t.request) == Some(limit)
    ensures Kept(kind, slots, t, Hear(kind, slots, t, t.phase.buffered, message, limit))
  {
    match Feed(t.phase.buffered, message, limit)
    case Open(_) => HearMore(kind, t, message, limit);
    case Whole(body) => HearWhole(kind, t, message, limit, body);
    case _ =>
  }

  lemma StartKeeps(kind: Kind, slots: Semaphore, id: nat, t: Task)
    requires slots.waiters == [] && TaskOk(kind, t) && t.phase.Fresh?
    ensures Kept(kind, slots, t, Start(kind, slots, id, t))
  {
    if Guards(kind, t.request.scope) && kind.Bodies? && Checked(kind, t.request).Success? {
      AdmitKeeps(kind, slots, id, t);
    }
  }

  lemma AuthenticatedKeeps(kind: Kind, slots: Semaphore, id: nat, t: Task, user: string)
    requires slots.waiters == [] && TaskOk(kind, t) && t.phase.Authenticating?
    ensures Kept(kind, slots, t, Admit(kind, slots, id, t.(user := Some(user))))
  {
    assert t.(user := Some(user)).(user := None) == t;
    AdmitKeeps(kind, slots, id, t.(user := Some(user)));
  }

  lemma MoveKeeps(kind: Kind, slots: Semaphore, id: nat, t: Task, event: Event)
    requires slots.waiters == [] && TaskOk(kind, t)
    ensures Kept(kind, slots, t, Move(kind, slots, id, t, event))
  {
    match event
    case Begin =>
      if t.phase.Fresh? {
        StartKeeps(kind, slots, id, t);
      }
    case Authenticated(user) =>
      if t.phase.Authenticating? {
        AuthenticatedKeeps(kind, slots, id, t, user);
      }
    case Deliver(message) =>
      if t.phase.Receiving? {
        HearKeeps(kind, slots, t, message, Limit(kind, t.request).value);
      }
    case Sent =>
      if t.phase.Refusing? {
        LeaveKeeps(kind, slots, t, Answered(t.phase.status));
      }
    case AppReceives(message) => AppKeeps(kind, slots, id, t, message);
    case AppReturns =>
      if t.phase.InApp? {
        LeaveKeeps(kind, slots, t, Served);
      }
    case Fails =>
      if Holding(t.phase) {
        LeaveKeeps(kind, slots, t, Raised);
      }
    case Denied(_) =>
    case TimeUp =>
  }

  lemma AppKeeps(kind: Kind, slots: Semaphore, id: nat, t: Task, message: Message)
    requires slots.waiters == [] && TaskOk(kind, t)
    ensures Kept(kind, slots, t, Move(kind, slots, id, t, AppReceives(message)))
  {
  }

  lemma StepKeepsInv(w: World, id: nat, event: Event)
    requires Inv(w)
    ensures Inv(Apply(w, id, event))
  {
    if id < |w.tasks| {
      MoveKeeps(w.kind, w.slots, id, w.tasks[id], event);
      HoldersUpdate(w.tasks, id, Move(w.kind, w.slots, id, w.tasks[id], event).1);
    }
  }

  lemma {:induction false} NobodyHolds(tasks: seq<Task>)
    requires forall i | 0 <= i < |tasks| :: !Holding(tasks[i].phase)
    ensures Holders(tasks) == 0
  {
    if tasks != [] {
      NobodyHolds(tasks[1..]);
    }
  }

  /** However the requests interleave, time out, disconnect, fail or are cancelled. */
  lemma {:induction false} RunsKeepInv(kind: Kind, capacity: nat, requests: seq<Request>, run: seq<(nat, Event)>)
    ensures Inv(After(Initial(kind, capacity, requests), run))
    decreases |run|
  {
    if run == [] {
      NobodyHolds(Initial(kind, capacity, requests).tasks);
    } else {
      var last := |run| - 1;
      RunsKeepInv(kind, capacity, requests, run[..last]);
      StepKeepsInv(After(Initial(kind, capacity, requests), run[..last]), run[last].0, run[last].1);
    }
  }

  // ----- what follows for every reachable state

  ghost predicate Reachable(w: World) {
    exists requests: seq<Request>, run: seq<(nat, Event)> :: w == After(Initial(w.kind, w.capacity, requests), run)
  }

  lemma ReachableInv(w: World)
    requires Reachable(w)
    ensures Inv(w)
  {
    var requests: seq<Request>, run: seq<(nat, Event)> :| w == After(Initial(w.kind, w.capacity, requests), run);
    RunsKeepInv(w.kind, w.capacity, requests, run);
  }

  /** Free slots and holders always make up the capacity, nobody is ever suspended on the semaphore, and once
      every request has ended all slots are free again. */
  lemma SlotsNeverLeak(w: World)
    requires Reachable(w)
    ensures w.slots.value + Holders(w.tasks) == w.capacity
    ensures w.slots.waiters == [] && forall i | 0 <= i < |w.tasks| :: !w.tasks[i].phase.Waiting?
    ensures (forall i | 0 <= i < |w.tasks| :: w.tasks[i].phase.Ended?) ==> w.slots.value == w.capacity
  {
    ReachableInv(w);
    assert forall i | 0 <= i < |w.tasks| :: TaskOk(w.kind, w.tasks[i]);
    if forall i | 0 <= i < |w.tasks| :: w.tasks[i].phase.Ended? {
      NobodyHolds(w.tasks);
    }
  }

  /** A slot is taken at most once per request and given back exactly once, on whichever exit. */
  lemma SlotGivenBackOnce(w: World, i: nat)
    requires Reachable(w) && i < |w.tasks|
    ensures var t := w.tasks[i];
      && t.acquired <= 1
      && (t.phase.Ended? ==> t.released == t.acquired)
      && (Holding(t.phase) ==> t.acquired == 1 && t.released == 0)
  {
    ReachableInv(w);
    assert TaskOk(w.kind, w.tasks[i]);
  }

  /** Whatever Content-Length declared: what is buffered is what was received and stays within the limit, and the
      application is called only with the exact concatenation of a complete body, which it receives once, before
      the connection's later messages. */
  lemma BodiesAreExact(w: World, i: nat)
    requires Reachable(w) && i < |w.tasks|
    ensures var t := w.tasks[i];
      && (t.phase.Receiving? ==>
            Limit(w.kind, t.request).Some? && t.phase.buffered == Body(t.received) && |t.phase.buffered| <= Limit(w.kind, t.request).value)
      && (t.called.Some? ==>
            && Complete(t.received)
            && t.called.value == Body(t.received)
            && Limit(w.kind, t.request).Some?
            && |t.called.value| <= Limit(w.kind, t.request).value)
      && (t.seen != [] ==> t.called.Some? && t.seen == [Chunk(t.called.value, false)] + t.passed)
  {
    ReachableInv(w);
    assert TaskOk(w.kind, w.tasks[i]);
  }

  /** No byte of an upload is read and no slot taken before its credentials were accepted; while the application runs
      the request carries that principal, and after the exit it carries none. */
  lemma UploadsAuthenticateFirst(w: World, i: nat)
    requires Reachable(w) && i < |w.tasks| && w.kind.Uploads?
    ensures var t := w.tasks[i];
      && (t.user == None ==> t.received == [] && t.acquired == 0 && t.called == None)
      && (t.phase.InApp? ==> t.user.Some? && t.principal == t.user)
      && (t.phase.Ended? && t.acquired == 1 ==> t.principal == None)
  {
    ReachableInv(w);
    assert TaskOk(w.kind, w.tasks[i]);
  }

  /** The event after which a request asks for a slot. */
  predicate AsksForSlot(w: World, i: nat, event: Event)
    requires i < |w.tasks|
  {
    var t := w.tasks[i];
    if w.kind.Uploads? then t.phase.Authenticating? && event.Authenticated?
    else t.phase.Fresh? && event.Begin? && Guards(w.kind, t.request.scope) && Checked(w.kind, t.request).Success?
  }

  /** It is turned away with 503 exactly when all slots are held, and otherwise holds one from then on. */
  lemma TurnedAwayExactlyWhenFull(w: World, i: nat, event: Event)
    requires Reachable(w) && i < |w.tasks| && AsksForSlot(w, i, event)
    ensures var after := Apply(w, i, event).tasks[i].phase;
      && (after == Responding(503) <==> Holders(w.tasks) == w.capacity)
      && (Holding(after) <==> Holders(w.tasks) < w.capacity)
  {
    ReachableInv(w);
  }

  /** Delivering a message stream to a request that is being read. */
  function DeliverAll(w: World, i: nat, messages: seq<Message>): World
    decreases |messages|
  {
    if messages == [] then w else DeliverAll(Apply(w, i, Deliver(messages[0])), i, messages[1..])
  }

  function PhaseAfter(r: Reading): Phase {
    match r
    case Open(buffered) => Receiving(buffered)
    case Whole(body) => InApp(body, false)
    case TooLarge => Refusing(413, true)
    case Gone => Ended(Disconnected)
  }

  lemma {:induction false} Deaf(w: World, i: nat, messages: seq<Message>)
    requires i < |w.tasks| && !w.tasks[i].phase.Receiving?
    ensures DeliverAll(w, i, messages) == w
    decreases |messages|
  {
    if messages != [] {
      assert w.tasks[i := w.tasks[i]] == w.tasks;
      Deaf(w, i, messages[1..]);
    }
  }

  /** The concurrent reading of one request is the sequential loop: only its own messages and its limit count. */
  lemma {:induction false} ReadsLikeTheLoop(w: World, i: nat, messages: seq<Message>)
    requires i < |w.tasks| && w.tasks[i].phase.Receiving? && Limit(w.kind, w.tasks[i].request).Some?
    ensures i < |DeliverAll(w, i, messages).tasks|
    ensures DeliverAll(w, i, messages).tasks[i].phase
      == PhaseAfter(Read(w.tasks[i].phase.buffered, messages, Limit(w.kind, w.tasks[i].request).value))
    decreases |messages|
  {
    if messages != [] {
      var next := Apply(w, i, Deliver(messages[0]));
      assert next.tasks[i].request == w.tasks[i].request;
      if next.tasks[i].phase.Receiving? {
        ReadsLikeTheLoop(next, i, messages[1..]);
      } else {
        Deaf(next, i, messages[1..]);
      }
    }
  }
}
