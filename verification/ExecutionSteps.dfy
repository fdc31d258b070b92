/** Every step of the execution machine keeps its invariants, so every run does. */
module ExecutionSteps {
  import opened Counting
  import opened Execution
  import opened ExecutionInvariants
  import Q = BackgroundQueue

  // A worker goes on without calling its tool or recording a call.
  lemma MoveKeeps(s: State, w: nat, h: Hand, permits: nat, tasks: map<Id, Task>)
    requires s in SAFE && w < |s.hands| && IdOf(h) == IdOf(s.hands[w]) && h != Exited
    requires tasks.Keys == s.tasks.Keys && StatusOk(s.queue, s.hands[w := h], tasks, s.finished)
    requires if HoldsPermit(h) && !HoldsPermit(s.hands[w]) then CanAcquire(s.limit, s.permits) && permits == Taken(s.limit, s.permits)
             else if HoldsPermit(s.hands[w]) && !HoldsPermit(h) then permits == Returned(s.limit, s.permits)
             else permits == s.permits
    requires !h.Called? && !s.hands[w].Called? && (NotYetCalled(h) ==> NotYetCalled(s.hands[w]))
    ensures s.(tasks := tasks, hands := s.hands[w := h], permits := permits) in SAFE
  {
    PlacesAfterMove(s.queue, s.hands, s.tasks.Keys, s.finished, w, h);
    PermitsAfterMove(s.limit, s.permits, s.hands, s.callers, w, h, permits);
    RunsAfterMove(s.hands, s.queue, s.reached, RecordsOf(s), w, h);
    RecordsAfterMove(s.hands, s.callers, s.reached, RecordsOf(s), w, h);
  }

  // It takes or returns a permit, or waits for one.
  lemma OnwardKeeps(s: State, w: nat, h: Hand, permits: nat)
    requires s in SAFE && w < |s.hands| && IdOf(h) == IdOf(s.hands[w]) && IdOf(h) != {}
    requires forall x :: StatusFits(s.hands[w], x) ==> StatusFits(h, x)
    requires if HoldsPermit(h) && !HoldsPermit(s.hands[w]) then CanAcquire(s.limit, s.permits) && permits == Taken(s.limit, s.permits)
             else if HoldsPermit(s.hands[w]) && !HoldsPermit(h) then permits == Returned(s.limit, s.permits)
             else permits == s.permits
    requires !h.Called? && !s.hands[w].Called? && (NotYetCalled(h) ==> NotYetCalled(s.hands[w]))
    ensures s.(hands := s.hands[w := h], permits := permits) in SAFE
  {
    StatusAfterMove(s.queue, s.hands, s.tasks, s.finished, w, h);
    MoveKeeps(s, w, h, permits, s.tasks);
  }

  lemma FetchKeeps(s: State, w: nat)
    requires s in SAFE && w < |s.hands| && s.hands[w].Idle? && s.queue != []
    ensures s.(queue := s.queue[1..], hands := s.hands[w := Fetched(s.queue[0])]) in SAFE
  {
    FetchWorks(s, w);
    FetchRecording(s, w);
  }

  lemma FetchWorks(s: State, w: nat)
    requires s in WORKING && w < |s.hands| && s.hands[w].Idle? && s.queue != []
    ensures s.(queue := s.queue[1..], hands := s.hands[w := Fetched(s.queue[0])]) in WORKING
  {
    var h := Fetched(s.queue[0]);
    PlacesAfterFetch(s.queue, s.hands, s.tasks.Keys, s.finished, w, h);
    StatusAfterFetch(s.queue, s.hands, s.tasks, s.finished, w);
    PermitsAfterMove(s.limit, s.permits, s.hands, s.callers, w, h, s.permits);
  }

  lemma FetchRecording(s: State, w: nat)
    requires s in RECORDING && w < |s.hands| && s.hands[w].Idle? && s.queue != []
    ensures s.(queue := s.queue[1..], hands := s.hands[w := Fetched(s.queue[0])]) in RECORDING
  {
    RunsAfterMove(s.hands, s.queue, s.reached, RecordsOf(s), w, Fetched(s.queue[0]));
    RecordsAfterMove(s.hands, s.callers, s.reached, RecordsOf(s), w, Fetched(s.queue[0]));
  }

  // A worker leaves its task, which has a terminal status or is given one.
  lemma LeaveKeeps(s: State, w: nat, id: Id, b: Task)
    requires s in SAFE && w < |s.hands| && IdOf(s.hands[w]) == {id} && id in s.tasks && IsTerminal(b.status)
    requires !HoldsPermit(s.hands[w])
    ensures s.(tasks := s.tasks[id := b], hands := s.hands[w := Idle], finished := s.finished + {id}) in SAFE
  {
    LeaveWorks(s, w, id, b);
    RunsAfterMove(s.hands, s.queue, s.reached, RecordsOf(s), w, Idle);
    RecordsAfterMove(s.hands, s.callers, s.reached, RecordsOf(s), w, Idle);
  }

  lemma LeaveWorks(s: State, w: nat, id: Id, b: Task)
    requires s in WORKING && w < |s.hands| && IdOf(s.hands[w]) == {id} && id in s.tasks && IsTerminal(b.status)
    requires !HoldsPermit(s.hands[w])
    ensures s.(tasks := s.tasks[id := b], hands := s.hands[w := Idle], finished := s.finished + {id}) in WORKING
  {
    hide PlacesOk, StatusOk, PermitsOk;
    assert s.tasks[id := b].Keys == s.tasks.Keys;
    PlacesAfterEnd(s.queue, s.hands, s.tasks.Keys, s.finished, w, id);
    StatusAfterWrite(s.queue, s.hands, s.tasks, s.finished, w, id, Idle, b, {id});
    PermitsAfterMove(s.limit, s.permits, s.hands, s.callers, w, Idle, s.permits);
  }

  lemma BeginKeeps(s: State, w: nat, id: Id)
    requires s in SAFE && w < |s.hands| && s.hands[w] == Checked(id) && id in s.tasks
    ensures s.(tasks := s.tasks[id := s.tasks[id].(status := Running)], hands := s.hands[w := Waiting(id)]) in SAFE
  {
    var b := s.tasks[id].(status := Running);
    StatusAfterWrite(s.queue, s.hands, s.tasks, s.finished, w, id, Waiting(id), b, {});
    MoveKeeps(s, w, Waiting(id), s.permits, s.tasks[id := b]);
  }

  lemma CallKeeps(s: State, w: nat, id: Id, err: Err)
    requires s in SAFE && w < |s.hands| && s.hands[w] == Holding(id)
    ensures s.(reached := s.reached + {id}, hands := s.hands[w := Called(id, err)]) in SAFE
  {
    var h := Called(id, err);
    HolderWorks(s, w, h);
    CallRecording(s, w, id, h);
  }

  // A worker that holds a permit goes on holding it.
  lemma HolderWorks(s: State, w: nat, h: Hand)
    requires s in WORKING && w < |s.hands| && HoldsPermit(s.hands[w]) && HoldsPermit(h) && h.id == s.hands[w].id
    ensures s.(hands := s.hands[w := h]) in WORKING
  {
    PlacesAfterMove(s.queue, s.hands, s.tasks.Keys, s.finished, w, h);
    StatusAfterMove(s.queue, s.hands, s.tasks, s.finished, w, h);
    PermitsAfterMove(s.limit, s.permits, s.hands, s.callers, w, h, s.permits);
  }

  lemma CallRecording(s: State, w: nat, id: Id, h: Hand)
    requires s in SAFE && w < |s.hands| && s.hands[w] == Holding(id) && h.Called? && h.id == id
    ensures s.(reached := s.reached + {id}, hands := s.hands[w := h]) in RECORDING
  {
    RunsAfterCall(s.hands, s.queue, s.tasks.Keys, s.finished, s.reached, RecordsOf(s), w, h);
    CallersAfterTask(s.tasks.Keys, s.callers, s.reached, RecordsOf(s), id);
    RecordsAfterCall(s.hands, s.callers, s.reached, RecordsOf(s), w, h);
  }

  lemma RecordKeeps(s: State, w: nat, id: Id, err: Err, history: Q.Queue, direct: set<Id>, handed: map<Id, bool>)
    requires s in SAFE && w < |s.hands| && s.hands[w].Called? && s.hands[w].id == id
    requires Q.Step(s.history, Q.Submit(id), history) && direct == Direct(s, id) && handed == Handed(s, id)
    ensures s.(history := history, direct := direct, handed := handed, hands := s.hands[w := Recorded(id, err)]) in SAFE
  {
    HolderWorks(s, w, Recorded(id, err));
    RecordRuns(s, w, id, err);
    SinkAfterRecord(s, id, history);
    RecordRecording(s, w, id, err, history, direct, handed);
  }

  lemma RecordRuns(s: State, w: nat, id: Id, err: Err)
    requires s in SAFE && w < |s.hands| && s.hands[w].Called? && s.hands[w].id == id
    ensures id in s.tasks && id !in RecordsOf(s)
    ensures RunsOk(s.hands[w := Recorded(id, err)], s.queue, s.reached, RecordsOf(s) + {id})
  {
    hide StatusOk, PermitsOk, ExitsOk, CallersOk, RecordsOk, SinkOk;
    assert id in IdOf(s.hands[w]);
    RunsAfterRecord(s.hands, s.queue, s.tasks.Keys, s.finished, s.reached, RecordsOf(s), w, err);
  }

  lemma RecordRecording(s: State, w: nat, id: Id, err: Err, history: Q.Queue, direct: set<Id>, handed: map<Id, bool>)
    requires s in RECORDING && w < |s.hands| && s.hands[w].Called? && s.hands[w].id == id && id in s.tasks
    requires history.accepted + direct == RecordsOf(s) + {id} && SinkOk(history, direct, handed)
    requires RunsOk(s.hands[w := Recorded(id, err)], s.queue, s.reached, RecordsOf(s) + {id})
    ensures s.(history := history, direct := direct, handed := handed, hands := s.hands[w := Recorded(id, err)]) in RECORDING
  {
    CallersAfterTask(s.tasks.Keys, s.callers, s.reached, RecordsOf(s), id);
    RecordsAfterRecord(s.hands, s.callers, s.reached, RecordsOf(s), w, Recorded(id, err));
  }

  // One record more, with the queue or with the database sink.
  lemma SinkAfterRecord(s: State, id: Id, history: Q.Queue)
    requires SinkOk(s.history, s.direct, s.handed) && id !in RecordsOf(s)
    requires Q.Step(s.history, Q.Submit(id), history)
    ensures SinkOk(history, Direct(s, id), Handed(s, id))
    ensures history.accepted + Direct(s, id) == RecordsOf(s) + {id}
    ensures IsQueued(s.history) || id !in s.handed
  {
    Q.StepInv(s.history, Q.Submit(id), history);
  }

  lemma ExitKeeps(s: State, w: nat)
    requires s in SAFE && w < |s.hands| && s.hands[w].Idle? && s.closed && s.queue == []
    ensures s.(hands := s.hands[w := Exited]) in SAFE
  {
    PlacesAfterMove(s.queue, s.hands, s.tasks.Keys, s.finished, w, Exited);
    StatusAfterMove(s.queue, s.hands, s.tasks, s.finished, w, Exited);
    PermitsAfterMove(s.limit, s.permits, s.hands, s.callers, w, Exited, s.permits);
    RunsAfterMove(s.hands, s.queue, s.reached, RecordsOf(s), w, Exited);
    RecordsAfterMove(s.hands, s.callers, s.reached, RecordsOf(s), w, Exited);
  }

  // ---------- submitters, cancellations, timeouts ----------

  lemma SubmitKeeps(s: State, id: Id, b: Task)
    requires s in SAFE && id !in s.tasks && id !in s.callers && b.status == Pending && !s.closed
    ensures s.(queue := s.queue + [id], tasks := s.tasks[id := b]) in SAFE
  {
    assert s.tasks[id := b].Keys == s.tasks.Keys + {id};
    SubmitWorks(s, id, b);
    CallersAfterSubmit(s.tasks.Keys, s.callers, s.reached, RecordsOf(s), id);
  }

  lemma SubmitWorks(s: State, id: Id, b: Task)
    requires s in WORKING && id !in s.tasks && b.status == Pending && !s.closed
    ensures s.(queue := s.queue + [id], tasks := s.tasks[id := b]) in WORKING
  {
    assert s.tasks[id := b].Keys == s.tasks.Keys + {id};
    PlacesAfterSubmit(s.queue, s.hands, s.tasks.Keys, s.finished, id);
    StatusAfterSubmit(s.queue, s.hands, s.tasks, s.finished, id, b);
  }

  lemma SignalKeeps(s: State, id: Id, b: Task)
    requires s in SAFE && id in s.tasks && SameStage(s.tasks[id], b)
    ensures s.(tasks := s.tasks[id := b]) in SAFE
  {
    assert s.tasks[id := b].Keys == s.tasks.Keys;
    StatusAfterSignal(s.queue, s.hands, s.tasks, s.finished, id, b);
  }

  // ---------- synchronous callers ----------

  lemma CallerWorks(s: State, id: Id, c: Caller, permits: nat)
    requires s in WORKING
    requires if id !in s.callers then c == CallerHolding && CanAcquire(s.limit, s.permits) && permits == Taken(s.limit, s.permits)
             else if c == CallerGone then CallerHolds(s.callers[id]) && permits == Returned(s.limit, s.permits)
             else CallerHolds(s.callers[id]) && permits == s.permits
    ensures s.(callers := s.callers[id := c], permits := permits) in WORKING
  {
    PermitsAfterCaller(s.limit, s.permits, s.hands, s.callers, id, c, permits);
  }

  lemma CallerComesOrGoes(s: State, id: Id, c: Caller)
    requires s in RECORDING && id !in s.tasks
    requires if id in s.callers then s.callers[id] == CallerRecorded && c == CallerGone else c == CallerHolding
    ensures s.(callers := s.callers[id := c]) in RECORDING
  {
    CallersStillCalled(s.hands, s.callers, id, c);
  }

  lemma CallersStillCalled(hands: seq<Hand>, callers: map<Id, Caller>, id: Id, c: Caller)
    requires id in callers ==> callers[id] != CallerCalled
    ensures forall x | InCall(hands, callers, x) :: InCall(hands, callers[id := c], x)
  {
  }

  lemma CallerCallKeeps(s: State, id: Id)
    requires s in SAFE && id in s.callers && s.callers[id] == CallerHolding
    ensures s.(reached := s.reached + {id}, callers := s.callers[id := CallerCalled]) in SAFE
  {
    CallerWorks(s, id, CallerCalled, s.permits);
    CallerCallRecording(s, id);
  }

  lemma CallerCallRecording(s: State, id: Id)
    requires s in SAFE && id in s.callers && s.callers[id] == CallerHolding
    ensures s.(reached := s.reached + {id}, callers := s.callers[id := CallerCalled]) in RECORDING
  {
    RunsAfterCaller(s.hands, s.queue, s.tasks.Keys, s.finished, s.reached, RecordsOf(s), id);
    CallersAfterCall(s.tasks.Keys, s.callers, s.reached, RecordsOf(s), id);
    RecordsAfterCallerCall(s.hands, s.callers, s.reached, RecordsOf(s), id);
  }

  lemma CallerRecordKeeps(s: State, id: Id, history: Q.Queue, direct: set<Id>, handed: map<Id, bool>)
    requires s in SAFE && id in s.callers && s.callers[id] == CallerCalled
    requires Q.Step(s.history, Q.Submit(id), history) && direct == Direct(s, id) && handed == Handed(s, id)
    ensures s.(history := history, direct := direct, handed := handed, callers := s.callers[id := CallerRecorded]) in SAFE
  {
    CallerWorks(s, id, CallerRecorded, s.permits);
    SinkAfterRecord(s, id, history);
    CallerRecordRecording(s, id, history, direct, handed);
  }

  lemma CallerRecordRecording(s: State, id: Id, history: Q.Queue, direct: set<Id>, handed: map<Id, bool>)
    requires s in SAFE && id in s.callers && s.callers[id] == CallerCalled
    requires history.accepted + direct == RecordsOf(s) + {id} && SinkOk(history, direct, handed)
    ensures s.(history := history, direct := direct, handed := handed, callers := s.callers[id := CallerRecorded]) in RECORDING
  {
    RunsAfterCaller(s.hands, s.queue, s.tasks.Keys, s.finished, s.reached, RecordsOf(s), id);
    CallersAfterRecord(s.tasks.Keys, s.callers, s.reached, RecordsOf(s), id);
    RecordsAfterCallerRecord(s.hands, s.callers, s.reached, RecordsOf(s), id);
  }

  // ---------- the history queue and cleanup ----------

  lemma HistoryKeeps(s: State, b: Q.Action, t: State)
    requires s in SAFE && !b.Submit? && HistoryStep(s, b, t)
    ensures t in SAFE
    ensures b.Finish? ==> s.history.workers[b.w].job !in s.handed
  {
    Q.StepInv(s.history, b, t.history);
    if b.Finish? { Q.FinishInv(s.history, t.history, b.w, b.ok); }
    assert SinkOk(t.history, t.direct, t.handed);
    assert RecordsOf(t) == RecordsOf(s);
  }

  lemma CleanupKeeps(s: State, t: State)
    requires s in SAFE && s.plan != [] && CleanupDoes(s, t)
    ensures t in SAFE
  {
    CleanupTouches(s, t);
    assert SinkOk(t.history, t.direct, t.handed);
  }

  // Cleanup touches no task, worker, caller or record.
  lemma CleanupTouches(s: State, t: State)
    requires s.plan != [] && CleanupDoes(s, t)
    ensures t == s.(plan := t.plan, closed := t.closed, history := t.history, dbOpen := t.dbOpen,
                    tasksStopped := t.tasksStopped, historyStopped := t.historyStopped)
    ensures t.history == s.history.(closed := t.history.closed)
    ensures s.closed ==> t.closed
  {
    if s.plan[0] == StopTasks { StopTasksTouches(s, t); }
    else if s.plan[0] == StopHistory { StopHistoryTouches(s, t); }
    else { PassingTouches(s, t); }
  }

  lemma StopTasksTouches(s: State, t: State)
    requires s.plan != [] && s.plan[0] == StopTasks && CleanupDoes(s, t)
    ensures t == s.(plan := t.plan, closed := t.closed, tasksStopped := t.tasksStopped) && (s.closed ==> t.closed)
  {
  }

  lemma StopHistoryTouches(s: State, t: State)
    requires s.plan != [] && s.plan[0] == StopHistory && CleanupDoes(s, t)
    ensures t == s.(plan := t.plan, history := s.history.(closed := t.history.closed), historyStopped := t.historyStopped)
  {
  }

  lemma PassingTouches(s: State, t: State)
    requires s.plan != [] && s.plan[0] != StopTasks && s.plan[0] != StopHistory && CleanupDoes(s, t)
    ensures t == s.(plan := t.plan, dbOpen := t.dbOpen)
  {
  }

  // ---------- every step ----------

  lemma CheckKeeps(s: State, w: nat, t: State)
    requires s in SAFE && Step(s, Check(w), t)
    ensures t in SAFE
  {
    var id := s.hands[w].id;
    if IsTerminal(s.tasks[id].status) {
      LeaveKeeps(s, w, id, s.tasks[id]);
      assert s.tasks[id := s.tasks[id]] == s.tasks;
    } else {
      OnwardKeeps(s, w, Checked(id), s.permits);
    }
  }

  lemma OnwardSteps(s: State, a: Action, t: State)
    requires s in SAFE && Step(s, a, t) && (a.Acquire? || a.GiveUp? || a.Release?)
    ensures t in SAFE
  {
    OnwardKeeps(s, a.w, t.hands[a.w], t.permits);
  }

  lemma RunKeeps(s: State, a: Action, t: State)
    requires s in SAFE && Step(s, a, t) && (a.Call? || a.Record?)
    ensures t in SAFE
  {
    match a
    case Call(w, err) => CallKeeps(s, w, s.hands[w].id, err);
    case Record(w, _) => RecordKeeps(s, w, s.hands[w].id, t.hands[w].err, t.history, t.direct, t.handed);
  }

  lemma StartKeeps(s: State, a: Action, t: State)
    requires s in SAFE && Step(s, a, t) && (a.Fetch? || a.Check? || a.Begin?)
    ensures t in SAFE
  {
    match a
    case Fetch(w) => FetchKeeps(s, w);
    case Check(w) => CheckKeeps(s, w, t);
    case Begin(w) => BeginKeeps(s, w, s.hands[w].id);
  }

  lemma HandKeeps(s: State, a: Action, t: State)
    requires s in SAFE && Step(s, a, t) && IsHandAction(a)
    ensures t in SAFE
  {
    if a.Fetch? || a.Check? || a.Begin? {
      StartKeeps(s, a, t);
    } else if a.Call? || a.Record? {
      RunKeeps(s, a, t);
    } else if a.End? {
      LeaveKeeps(s, a.w, s.hands[a.w].id, t.tasks[s.hands[a.w].id]);
    } else if a.Exit? {
      ExitKeeps(s, a.w);
    } else {
      OnwardSteps(s, a, t);
    }
  }

  lemma CallerKeeps(s: State, a: Action, t: State)
    requires s in SAFE && Step(s, a, t)
    requires a.CallerAcquire? || a.CallerCall? || a.CallerRecord? || a.CallerRelease?
    ensures t in SAFE
  {
    match a
    case CallerAcquire(id) =>
      CallerWorks(s, id, CallerHolding, t.permits);
      CallerComesOrGoes(s, id, CallerHolding);
    case CallerCall(id) => CallerCallKeeps(s, id);
    case CallerRecord(id) => CallerRecordKeeps(s, id, t.history, t.direct, t.handed);
    case CallerRelease(id) =>
      CallerWorks(s, id, CallerGone, t.permits);
      CallerComesOrGoes(s, id, CallerGone);
  }

  lemma TaskKeeps(s: State, a: Action, t: State)
    requires s in SAFE && Step(s, a, t) && (a.Submit? || a.Cancel? || a.Expire?)
    ensures t in SAFE
  {
    match a
    case Submit(id, _) => if t != s { SubmitKeeps(s, id, t.tasks[id]); }
    case Cancel(id) => SignalKeeps(s, id, t.tasks[id]);
    case Expire(id) => SignalKeeps(s, id, t.tasks[id]);
  }

  lemma StepKeeps(s: State, a: Action, t: State)
    requires s in SAFE && Step(s, a, t)
    ensures t in SAFE
  {
    if a.Submit? || a.Cancel? || a.Expire? {
      TaskKeeps(s, a, t);
    } else if a.CallerAcquire? || a.CallerCall? || a.CallerRecord? || a.CallerRelease? {
      CallerKeeps(s, a, t);
    } else if a.History? {
      HistoryKeeps(s, a.action, t);
    } else if a.CleanupStep? {
      CleanupKeeps(s, t);
    } else {
      HandKeeps(s, a, t);
    }
  }

  lemma OffInv(q: Q.Queue)
    requires HistoryOff(q)
    ensures Q.Inv(q)
  {
    assert Q.Busy(q.workers) == {} && Q.Erring(q.workers) == {} && Q.FailedRuns(q.ran) == {};
  }

  lemma InitWorks(s: State)
    requires Init(s)
    ensures s in WORKING
  {
    assert Where(s.hands, HoldsPermit) == {} && Holders(s.callers) == {};
  }

  lemma InitRecording(s: State)
    requires Init(s)
    ensures s in RECORDING
  {
    if s.historyStopped { OffInv(s.history); } else { Q.InitInv(s.history); }
    assert s.history.accepted == {} && s.history.ran == map[];
    assert SinkOk(s.history, s.direct, s.handed);
  }

  lemma InitSafe(s: State)
    requires Init(s)
    ensures s in SAFE
  {
    InitWorks(s);
    InitRecording(s);
  }

  lemma {:induction false} RunSafe(states: seq<State>, actions: seq<Action>, i: nat)
    requires IsRun(states, actions) && i < |states|
    ensures states[i] in SAFE
  {
    if i == 0 {
      InitSafe(states[0]);
    } else {
      RunSafe(states, actions, i - 1);
      StepKeeps(states[i - 1], actions[i - 1], states[i]);
    }
  }
}
