/** Tool invocation at run time: asynchronous tasks and synchronous callers share the permits of one semaphore,
    every run hands its history record to a draining queue, and cleanup stops it all in order.

    Each numbered position of a worker is a point at which any other request, worker, cancellation,
    timeout or cleanup step may come in between. */
module Execution {
  import Q = BackgroundQueue

  type Id = nat

  datatype Status = Pending | Running | Succeeded | Failed | Cancelled | TimedOut
  datatype Ctx = Live | CtxCanceled | CtxExpired
  datatype Err = NoError | OtherError | CanceledError | DeadlineError
  datatype Task = Task(status: Status, cancelRequested: bool, ctx: Ctx, hasDeadline: bool)

  // A task worker, by what it does next.
  datatype Hand =
    | Idle
    | Fetched(id: Id)
    | Checked(id: Id)
    | Waiting(id: Id)
    | Holding(id: Id)
    | Called(id: Id, err: Err)
    | Recorded(id: Id, err: Err)
    | Ending(id: Id, err: Err)
    | Exited

  // A synchronous caller that got a permit.
  datatype Caller = CallerHolding | CallerCalled | CallerRecorded | CallerGone

  datatype Cleanup = CloseDb | CloseRedis | StopAudit | StopAlert | StopHistory | StopTasks | StopHealth | StopAuditCleanup

  // The last four fields only remember the past: `finished` the tasks no worker will touch again, `reached` the runs
  // whose tool call was made, `direct` the records written by their own run, `handed` the records given to the
  // database sink and whether the database was open then.
  datatype State = State(
    limit: nat, permits: nat, capacity: nat, closed: bool, queue: seq<Id>, tasks: map<Id, Task>,
    hands: seq<Hand>, callers: map<Id, Caller>, history: Q.Queue,
    dbOpen: bool, plan: seq<Cleanup>, tasksStopped: bool, historyStopped: bool,
    finished: set<Id>, reached: set<Id>, direct: set<Id>, handed: map<Id, bool>)

  datatype Action =
    | Submit(id: Id, hasDeadline: bool)
    | Fetch(w: nat)
    | Check(w: nat)
    | Begin(w: nat)
    | Acquire(w: nat)
    | GiveUp(w: nat)
    | Call(w: nat, err: Err)
    | Record(w: nat, saveErr: Err)
    | Release(w: nat)
    | End(w: nat)
    | Exit(w: nat)
    | Cancel(id: Id)
    | Expire(id: Id)
    | CallerAcquire(id: Id)
    | CallerCall(id: Id)
    | CallerRecord(id: Id)
    | CallerRelease(id: Id)
    | History(action: Q.Action)
    | CleanupStep

  // The actions of the task workers.
  predicate IsHandAction(a: Action) {
    a.Fetch? || a.Check? || a.Begin? || a.Acquire? || a.GiveUp? || a.Call? || a.Record? || a.Release? || a.End? || a.Exit?
  }

  // ---------- what the actions compute ----------

  predicate IsTerminal(s: Status) {
    s.Succeeded? || s.Failed? || s.Cancelled? || s.TimedOut?
  }

  // The status a finished run is given.
  function FinalStatus(err: Err): Status {
    match err
    case DeadlineError => TimedOut
    case CanceledError => Cancelled
    case OtherError => Failed
    case NoError => Succeeded
  }

  function CtxError(ctx: Ctx): Err {
    match ctx
    case Live => NoError
    case CtxCanceled => CanceledError
    case CtxExpired => DeadlineError
  }

  // Cancelling ends a task that has not started; one that has is only asked to stop through its context.
  function CancelTask(t: Task): Task {
    if IsTerminal(t.status) then t
    else t.(cancelRequested := true, status := if t.status == Pending then Cancelled else t.status,
            ctx := if t.ctx == Live then CtxCanceled else t.ctx)
  }

  function ExpireTask(t: Task): Task {
    t.(ctx := if t.ctx == Live && t.hasDeadline then CtxExpired else t.ctx)
  }

  predicate CanAcquire(limit: nat, permits: nat) {
    limit == 0 || permits < limit
  }

  // Without a limit there is no semaphore and nothing to count.
  function Taken(limit: nat, permits: nat): nat {
    if limit == 0 then permits else permits + 1
  }

  function Returned(limit: nat, permits: nat): nat {
    if limit == 0 || permits == 0 then permits else permits - 1
  }

  function IdOf(h: Hand): set<Id> {
    if h.Idle? || h.Exited? then {} else {h.id}
  }

  predicate HoldsPermit(h: Hand) {
    h.Holding? || h.Called? || h.Recorded?
  }

  predicate CallerHolds(c: Caller) {
    c != CallerGone
  }

  // A record is queued if the history queue takes it, and otherwise written at once.
  predicate IsQueued(q: Q.Queue) {
    Q.AnswerOf(q) == Q.Sent
  }

  // What the history queue becomes when it is offered a record.
  function Offered(q: Q.Queue, id: Id): Q.Queue {
    if Q.AnswerOf(q) == Q.Sent then q.(jobs := q.jobs + [id], accepted := q.accepted + {id}, sending := q.sending + 1)
    else q
  }

  function Handed(s: State, id: Id): map<Id, bool> {
    if IsQueued(s.history) then s.handed else s.handed[id := s.dbOpen]
  }

  function Direct(s: State, id: Id): set<Id> {
    if IsQueued(s.history) then s.direct else s.direct + {id}
  }

  predicate AllExited(hands: seq<Hand>) {
    forall w | 0 <= w < |hands| :: hands[w] == Exited
  }

  // The run whose tool an action calls, and the run whose record it gives to the database sink.
  function CalledBy(s: State, a: Action): set<Id> {
    match a
    case Call(w, _) => if w < |s.hands| && s.hands[w].Holding? then {s.hands[w].id} else {}
    case CallerCall(id) => {id}
    case _ => {}
  }

  function HandedBy(s: State, a: Action): set<Id> {
    match a
    case Record(w, _) => if w < |s.hands| && s.hands[w].Called? && !IsQueued(s.history) then {s.hands[w].id} else {}
    case CallerRecord(id) => if IsQueued(s.history) then {} else {id}
    case History(b) =>
      if b.Finish? && b.w < |s.history.workers| && s.history.workers[b.w].Running? then {s.history.workers[b.w].job} else {}
    case _ => {}
  }

  // ---------- steps ----------

  predicate Enabled(s: State, a: Action) {
    match a
    case Submit(id, _) => id !in s.tasks && id !in s.callers
    case Fetch(w) => w < |s.hands| && s.hands[w].Idle? && s.queue != []
    case Check(w) => w < |s.hands| && s.hands[w].Fetched? && s.hands[w].id in s.tasks
    case Begin(w) => w < |s.hands| && s.hands[w].Checked? && s.hands[w].id in s.tasks
    case Acquire(w) => w < |s.hands| && s.hands[w].Waiting? && CanAcquire(s.limit, s.permits)
    case GiveUp(w) => w < |s.hands| && s.hands[w].Waiting? && s.limit > 0 && s.hands[w].id in s.tasks
                      && s.tasks[s.hands[w].id].ctx != Live
    case Call(w, _) => w < |s.hands| && s.hands[w].Holding?
    case Record(w, _) => w < |s.hands| && s.hands[w].Called?
    case Release(w) => w < |s.hands| && s.hands[w].Recorded?
    case End(w) => w < |s.hands| && s.hands[w].Ending? && s.hands[w].id in s.tasks
    case Exit(w) => w < |s.hands| && s.hands[w].Idle? && s.closed && s.queue == []
    case Cancel(id) => id in s.tasks
    case Expire(id) => id in s.tasks
    case CallerAcquire(id) => id !in s.tasks && id !in s.callers && CanAcquire(s.limit, s.permits)
    case CallerCall(id) => id in s.callers && s.callers[id] == CallerHolding
    case CallerRecord(id) => id in s.callers && s.callers[id] == CallerCalled
    case CallerRelease(id) => id in s.callers && s.callers[id] == CallerRecorded
    case History(b) => !b.Submit? && b != Q.Close
    case CleanupStep => s.plan != []
  }

  // The history queue makes a step; a job that runs is a record given to the database sink.
  ghost predicate HistoryStep(s: State, b: Q.Action, t: State) {
    && Q.Step(s.history, b, t.history)
    && t == s.(history := t.history,
               handed := if b.Finish? then s.handed[s.history.workers[b.w].job := s.dbOpen] else s.handed)
  }

  ghost predicate RecordStep(s: State, w: nat, saveErr: Err, t: State)
    requires w < |s.hands| && s.hands[w].Called?
  {
    var id := s.hands[w].id;
    && Q.Step(s.history, Q.Submit(id), t.history)
    && t == s.(history := t.history, direct := Direct(s, id), handed := Handed(s, id),
               hands := s.hands[w := Recorded(id, if saveErr == NoError then s.hands[w].err else saveErr)])
  }

  ghost predicate CallerRecordStep(s: State, id: Id, t: State) {
    && Q.Step(s.history, Q.Submit(id), t.history)
    && t == s.(history := t.history, direct := Direct(s, id), handed := Handed(s, id),
               callers := s.callers[id := CallerRecorded])
  }

  // Stopping closes first and returns only when the workers are gone; until then cleanup waits.
  ghost predicate CleanupDoes(s: State, t: State)
    requires s.plan != []
  {
    match s.plan[0]
    case StopTasks =>
      if !s.closed then t == s.(closed := true)
      else if AllExited(s.hands) then t == s.(plan := s.plan[1..], tasksStopped := true)
      else t == s
    case StopHistory =>
      if !s.history.closed then t == s.(history := s.history.(closed := true))
      else if Q.Drained(s.history) then t == s.(plan := s.plan[1..], historyStopped := true)
      else t == s
    case CloseDb => t == s.(plan := s.plan[1..], dbOpen := false)
    case _ => t == s.(plan := s.plan[1..])
  }

  // The steps of a task worker.
  ghost predicate HandStep(s: State, a: Action, w: nat, t: State)
    requires Enabled(s, a) && w < |s.hands|
  {
    match a
    case Fetch(v) => v == w && t == s.(queue := s.queue[1..], hands := s.hands[w := Fetched(s.queue[0])])
    case Check(v) => v == w &&
      var id := s.hands[w].id;
      if IsTerminal(s.tasks[id].status) then t == s.(hands := s.hands[w := Idle], finished := s.finished + {id})
      else t == s.(hands := s.hands[w := Checked(id)])
    case Begin(v) => v == w &&
      var id := s.hands[w].id;
      t == s.(tasks := s.tasks[id := s.tasks[id].(status := Running)], hands := s.hands[w := Waiting(id)])
    case Acquire(v) => v == w &&
      t == s.(permits := Taken(s.limit, s.permits), hands := s.hands[w := Holding(s.hands[w].id)])
    case GiveUp(v) => v == w &&
      var id := s.hands[w].id;
      t == s.(hands := s.hands[w := Ending(id, CtxError(s.tasks[id].ctx))])
    case Call(v, err) => v == w &&
      var id := s.hands[w].id;
      t == s.(reached := s.reached + {id}, hands := s.hands[w := Called(id, err)])
    case Record(v, saveErr) => v == w && RecordStep(s, w, saveErr, t)
    case Release(v) => v == w &&
      t == s.(permits := Returned(s.limit, s.permits), hands := s.hands[w := Ending(s.hands[w].id, s.hands[w].err)])
    case End(v) => v == w &&
      var id := s.hands[w].id;
      t == s.(tasks := s.tasks[id := s.tasks[id].(status := FinalStatus(s.hands[w].err))],
              hands := s.hands[w := Idle], finished := s.finished + {id})
    case Exit(v) => v == w && t == s.(hands := s.hands[w := Exited])
    case _ => false
  }

  ghost predicate Step(s: State, a: Action, t: State) {
    Enabled(s, a) &&
    match a
    case Submit(id, hasDeadline) =>
      if s.closed || |s.queue| >= s.capacity then t == s
      else t == s.(queue := s.queue + [id], tasks := s.tasks[id := Task(Pending, false, Live, hasDeadline)])
    case Cancel(id) => t == s.(tasks := s.tasks[id := CancelTask(s.tasks[id])])
    case Expire(id) => t == s.(tasks := s.tasks[id := ExpireTask(s.tasks[id])])
    case CallerAcquire(id) => t == s.(permits := Taken(s.limit, s.permits), callers := s.callers[id := CallerHolding])
    case CallerCall(id) => t == s.(reached := s.reached + {id}, callers := s.callers[id := CallerCalled])
    case CallerRecord(id) => CallerRecordStep(s, id, t)
    case CallerRelease(id) => t == s.(permits := Returned(s.limit, s.permits), callers := s.callers[id := CallerGone])
    case History(b) => HistoryStep(s, b, t)
    case CleanupStep => CleanupDoes(s, t)
    case _ => HandStep(s, a, a.w, t)
  }

  // With the history queue switched off, every record is written at once: the queue is closed from the start.
  predicate HistoryOff(q: Q.Queue) {
    q.closed && q.jobs == [] && |q.workers| > 0 && (forall w | 0 <= w < |q.workers| :: q.workers[w] == Q.Exited)
    && q.sending == 0 && q.pending == 0 && q.errors == 0 && q.accepted == {} && q.ran == map[]
  }

  predicate Init(s: State) {
    && s.permits == 0 && !s.closed && s.capacity > 0 && s.queue == [] && s.tasks == map[] && s.callers == map[]
    && |s.hands| > 0 && (forall w | 0 <= w < |s.hands| :: s.hands[w] == Idle)
    && (if s.historyStopped then HistoryOff(s.history) else Q.Init(s.history))
    && s.dbOpen && !s.tasksStopped
    && s.finished == {} && s.reached == {} && s.direct == {} && s.handed == map[]
  }

  ghost predicate IsRun(states: seq<State>, actions: seq<Action>) {
    && |states| == |actions| + 1 && Init(states[0])
    && forall i {:trigger actions[i]} | 0 <= i < |actions| :: Step(states[i], actions[i], states[i + 1])
  }
}
