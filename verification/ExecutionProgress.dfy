/** Cleanup never gets stuck: from every state of every run the plan can be carried through. */
module ExecutionProgress {
  import opened Counting
  import opened Execution
  import opened ExecutionInvariants
  import opened ExecutionSteps
  import opened ExecutionTheorems
  import Q = BackgroundQueue

  // ---------- how much is left to do ----------

  function HandWork(h: Hand): nat {
    match h
    case Fetched(_) => 8
    case Checked(_) => 7
    case Waiting(_) => 6
    case Holding(_) => 5
    case Called(_, _) => 4
    case Recorded(_, _) => 3
    case Ending(_, _) => 2
    case Idle => 1
    case Exited => 0
  }

  function WorkerWork(w: Q.Worker): nat {
    match w
    case Running(_) => 4
    case CountingError(_) => 3
    case CountingDone(_) => 2
    case Idle => 1
    case Exited => 0
  }

  function CallerWork(c: Caller): nat {
    match c
    case CallerHolding => 3
    case CallerCalled => 2
    case CallerRecorded => 1
    case CallerGone => 0
  }

  // The callers with at least `n` stages to go.
  ghost function Pending(callers: map<Id, Caller>, n: nat): set<Id> {
    set id | id in callers && CallerWork(callers[id]) >= n
  }

  ghost function TaskWork(s: State): nat {
    9 * |s.queue| + Total(s.hands, HandWork)
    + |Pending(s.callers, 1)| + |Pending(s.callers, 2)| + |Pending(s.callers, 3)|
  }

  ghost function HistoryWork(q: Q.Queue): nat {
    5 * |q.jobs| + Total(q.workers, WorkerWork)
  }

  ghost function PlanWork(s: State): nat {
    |s.plan| + One(!s.closed) + One(!s.history.closed)
  }

  // Calls under way come first, then records that wait, then the plan.
  ghost predicate Nearer(s: State, t: State) {
    || TaskWork(t) < TaskWork(s)
    || (TaskWork(t) == TaskWork(s) && HistoryWork(t.history) < HistoryWork(s.history))
    || (TaskWork(t) == TaskWork(s) && HistoryWork(t.history) == HistoryWork(s.history) && PlanWork(t) < PlanWork(s))
  }

  // ---------- workers and callers go on ----------

  // One worker has moved to a stage nearer its end.
  ghost predicate HandMoved(s: State, t: State, w: nat) {
    && w < |s.hands| == |t.hands| && t.queue == s.queue && t.callers == s.callers
    && t.hands == s.hands[w := t.hands[w]] && HandWork(t.hands[w]) < HandWork(s.hands[w])
  }

  lemma HandMovedIsNearer(s: State, t: State, w: nat)
    requires HandMoved(s, t, w)
    ensures Nearer(s, t)
  {
    TotalMoves(s.hands, w, t.hands[w], HandWork);
  }

  lemma LooksAndStarts(s: State, w: nat) returns (a: Action, t: State)
    requires s in SAFE && w < |s.hands| && (s.hands[w].Fetched? || s.hands[w].Checked?)
    ensures Step(s, a, t) && HandMoved(s, t, w)
  {
    hide WorkOk, HistoryOk;
    var id := s.hands[w].id;
    HolderStatus(s, w, id);
    if s.hands[w].Checked? {
      a, t := Begin(w), s.(tasks := s.tasks[id := s.tasks[id].(status := Running)], hands := s.hands[w := Waiting(id)]);
    } else if IsTerminal(s.tasks[id].status) {
      a, t := Check(w), s.(hands := s.hands[w := Idle], finished := s.finished + {id});
    } else {
      a, t := Check(w), s.(hands := s.hands[w := Checked(id)]);
    }
  }

  lemma CallsAndReturns(s: State, w: nat) returns (a: Action, t: State)
    requires w < |s.hands| && (s.hands[w].Holding? || s.hands[w].Recorded? || (s.hands[w].Waiting? && CanAcquire(s.limit, s.permits)))
    ensures Step(s, a, t) && HandMoved(s, t, w)
  {
    var id := s.hands[w].id;
    if s.hands[w].Waiting? {
      a, t := Acquire(w), s.(permits := Taken(s.limit, s.permits), hands := s.hands[w := Holding(id)]);
    } else if s.hands[w].Holding? {
      a, t := Call(w, NoError), s.(reached := s.reached + {id}, hands := s.hands[w := Called(id, NoError)]);
    } else {
      a := Release(w);
      t := s.(permits := Returned(s.limit, s.permits), hands := s.hands[w := Ending(id, s.hands[w].err)]);
    }
  }

  lemma Records(s: State, w: nat) returns (a: Action, t: State)
    requires s in SAFE && w < |s.hands| && s.hands[w].Called?
    ensures Step(s, a, t) && HandMoved(s, t, w)
  {
    hide WorkOk, HistoryOk, RunsOk;
    var id := s.hands[w].id;
    a := Record(w, NoError);
    t := s.(history := Offered(s.history, id), direct := Direct(s, id), handed := Handed(s, id),
            hands := s.hands[w := Recorded(id, s.hands[w].err)]);
    RecordRuns(s, w, id, NoError);
  }

  lemma Ends(s: State, w: nat) returns (a: Action, t: State)
    requires s in SAFE && w < |s.hands| && s.hands[w].Ending?
    ensures Step(s, a, t) && HandMoved(s, t, w)
  {
    var id := s.hands[w].id;
    HolderStatus(s, w, id);
    a := End(w);
    t := s.(tasks := s.tasks[id := s.tasks[id].(status := FinalStatus(s.hands[w].err))],
            hands := s.hands[w := Idle], finished := s.finished + {id});
  }

  lemma CallerRecords(s: State, id: Id) returns (t: State)
    requires s in SAFE && id in s.callers && s.callers[id] == CallerCalled
    ensures Step(s, CallerRecord(id), t)
    ensures t.queue == s.queue && t.hands == s.hands && t.callers == s.callers[id := CallerRecorded]
  {
    hide WorkOk, HistoryOk;
    CallerIsNew(s, id);
    t := s.(history := Offered(s.history, id), direct := Direct(s, id), handed := Handed(s, id),
            callers := s.callers[id := CallerRecorded]);
  }

  // Whoever holds a permit gets one stage further.
  lemma CallerMoves(s: State, id: Id) returns (a: Action, t: State)
    requires s in SAFE && id in s.callers && CallerHolds(s.callers[id])
    ensures Step(s, a, t) && Nearer(s, t)
  {
    hide WorkOk, HistoryOk, Nearer;
    match s.callers[id] {
      case CallerHolding =>
        a, t := CallerCall(id), s.(reached := s.reached + {id}, callers := s.callers[id := CallerCalled]);
      case CallerCalled =>
        a := CallerRecord(id);
        t := CallerRecords(s, id);
      case CallerRecorded =>
        a := CallerRelease(id);
        t := s.(permits := Returned(s.limit, s.permits), callers := s.callers[id := CallerGone]);
    }
    CallerMovedIsNearer(s, t, id);
  }

  lemma CallerIsNew(s: State, id: Id)
    requires s in SAFE && id in s.callers && s.callers[id] == CallerCalled
    ensures id !in s.history.accepted
  {
  }

  lemma CallerMovedIsNearer(s: State, t: State, id: Id)
    requires t.queue == s.queue && t.hands == s.hands && id in s.callers && id in t.callers
    requires t.callers == s.callers[id := t.callers[id]] && CallerWork(t.callers[id]) + 1 == CallerWork(s.callers[id])
    ensures Nearer(s, t)
  {
    var n := CallerWork(s.callers[id]);
    forall k: nat
      ensures Pending(t.callers, k) == if k == n then Pending(s.callers, k) - {id} else Pending(s.callers, k)
    {
    }
    SizeWithout(Pending(s.callers, n), id);
  }

  // Where no permit is free, somebody holds one.
  lemma SomebodyHolds(s: State) returns (w: nat, id: Id)
    requires s in SAFE && !CanAcquire(s.limit, s.permits)
    ensures (w < |s.hands| && HoldsPermit(s.hands[w])) || (id in s.callers && CallerHolds(s.callers[id]))
  {
    w, id := |s.hands|, 0;
    if Where(s.hands, HoldsPermit) != {} {
      var v :| v in Where(s.hands, HoldsPermit);
      w := v;
    } else {
      assert Holders(s.callers) != {};
      id :| id in Holders(s.callers);
    }
  }

  lemma BusyHandMoves(s: State, w: nat) returns (a: Action, t: State)
    requires s in SAFE && w < |s.hands| && IdOf(s.hands[w]) != {} && !s.hands[w].Waiting?
    ensures Step(s, a, t) && Nearer(s, t)
  {
    hide Step, Nearer;
    if s.hands[w].Fetched? || s.hands[w].Checked? { a, t := LooksAndStarts(s, w); }
    else if s.hands[w].Called? { a, t := Records(s, w); }
    else if s.hands[w].Ending? { a, t := Ends(s, w); }
    else { a, t := CallsAndReturns(s, w); }
    HandMovedIsNearer(s, t, w);
  }

  lemma WaitingHandMoves(s: State, w: nat) returns (a: Action, t: State)
    requires s in SAFE && w < |s.hands| && s.hands[w].Waiting?
    ensures Step(s, a, t) && Nearer(s, t)
  {
    hide Step, Nearer;
    if CanAcquire(s.limit, s.permits) {
      a, t := CallsAndReturns(s, w);
      HandMovedIsNearer(s, t, w);
    } else {
      var v, id := SomebodyHolds(s);
      if v < |s.hands| && HoldsPermit(s.hands[v]) { a, t := BusyHandMoves(s, v); } else { a, t := CallerMoves(s, id); }
    }
  }

  lemma IdleHandMoves(s: State, w: nat) returns (a: Action, t: State)
    requires s in SAFE && w < |s.hands| && s.hands[w].Idle? && s.closed
    ensures Step(s, a, t) && Nearer(s, t)
  {
    if s.queue != [] {
      a, t := Fetch(w), s.(queue := s.queue[1..], hands := s.hands[w := Fetched(s.queue[0])]);
    } else {
      a, t := Exit(w), s.(hands := s.hands[w := Exited]);
    }
    TotalMoves(s.hands, w, t.hands[w], HandWork);
  }

  // Until all workers of a closed queue have left, something goes on.
  lemma TasksProgress(s: State) returns (a: Action, t: State)
    requires s in SAFE && s.closed && !AllExited(s.hands)
    ensures Step(s, a, t) && Nearer(s, t)
  {
    hide Step, Nearer;
    var w :| 0 <= w < |s.hands| && s.hands[w] != Exited;
    if s.hands[w].Idle? { a, t := IdleHandMoves(s, w); }
    else if s.hands[w].Waiting? { a, t := WaitingHandMoves(s, w); }
    else { a, t := BusyHandMoves(s, w); }
  }

  // ---------- the history queue goes on ----------

  lemma WorkerMoves(q: Q.Queue, w: nat) returns (b: Q.Action, r: Q.Queue)
    requires w < |q.workers| && q.workers[w] != Q.Exited && q.closed
    ensures Q.Step(q, b, r) && HistoryWork(r) < HistoryWork(q) && !b.Submit? && b != Q.Close
  {
    match q.workers[w] {
      case Running(job) => b, r := Q.Finish(w, true), q.(ran := q.ran[job := true], workers := q.workers[w := Q.CountingDone(job)]);
      case CountingError(job) => b, r := Q.CountError(w), q.(errors := q.errors + 1, workers := q.workers[w := Q.CountingDone(job)]);
      case CountingDone(_) => b, r := Q.CountDone(w), q.(pending := q.pending - 1, workers := q.workers[w := Q.Idle]);
      case Idle =>
        if q.jobs != [] {
          b, r := Q.Take(w), q.(jobs := q.jobs[1..], workers := q.workers[w := Q.Running(q.jobs[0])]);
        } else {
          b, r := Q.Exit(w), q.(workers := q.workers[w := Q.Exited]);
        }
    }
    TotalMoves(q.workers, w, r.workers[w], WorkerWork);
  }

  lemma HistoryProgress(s: State) returns (a: Action, t: State)
    requires s.history.closed && !Q.Drained(s.history)
    ensures Step(s, a, t) && Nearer(s, t)
  {
    var w :| 0 <= w < |s.history.workers| && s.history.workers[w] != Q.Exited;
    var b, r := WorkerMoves(s.history, w);
    a := History(b);
    t := s.(history := r, handed := if b.Finish? then s.handed[s.history.workers[b.w].job := s.dbOpen] else s.handed);
  }

  // ---------- cleanup goes on ----------

  lemma PlanMoves(s: State) returns (t: State)
    requires s.plan != []
    requires s.plan[0] == StopTasks && s.closed ==> AllExited(s.hands)
    requires s.plan[0] == StopHistory && s.history.closed ==> Q.Drained(s.history)
    ensures Step(s, CleanupStep, t) && Nearer(s, t)
  {
    hide AllExited, Q.Drained;
    match s.plan[0] {
      case StopTasks =>
        t := if s.closed then s.(plan := s.plan[1..], tasksStopped := true) else s.(closed := true);
      case StopHistory =>
        t := if s.history.closed then s.(plan := s.plan[1..], historyStopped := true)
             else s.(history := s.history.(closed := true));
      case CloseDb => t := s.(plan := s.plan[1..], dbOpen := false);
      case _ => t := s.(plan := s.plan[1..]);
    }
  }

  // In every state in which cleanup is not over, some step brings its end nearer.
  lemma Progress(s: State) returns (a: Action, t: State)
    requires s in SAFE && s.plan != []
    ensures Step(s, a, t) && Nearer(s, t)
  {
    hide Step, Nearer;
    if s.plan[0] == StopTasks && s.closed && !AllExited(s.hands) {
      a, t := TasksProgress(s);
    } else if s.plan[0] == StopHistory && s.history.closed && !Q.Drained(s.history) {
      a, t := HistoryProgress(s);
    } else {
      a := CleanupStep;
      t := PlanMoves(s);
    }
  }

  // Every run can be continued to one in which cleanup has gone through its whole plan, whatever the limit, the
  // numbers of workers, the calls under way and the records that wait.
  lemma {:induction false} CleanupNeverDeadlocks(states: seq<State>, actions: seq<Action>)
    returns (longer: seq<State>, more: seq<Action>)
    requires IsRun(states, actions)
    ensures IsRun(longer, more) && states <= longer && actions <= more
    ensures longer[|more|].plan == []
    decreases TaskWork(states[|actions|]), HistoryWork(states[|actions|].history), PlanWork(states[|actions|])
  {
    hide Step;
    var s := states[|actions|];
    if s.plan == [] {
      longer, more := states, actions;
    } else {
      RunSafe(states, actions, |actions|);
      var a, t := Progress(s);
      Extended(states, actions, a, t);
      longer, more := CleanupNeverDeadlocks(states + [t], actions + [a]);
    }
  }

  // With an ordered plan such a continuation ends with every task terminal and every record in the database's hands.
  lemma CleanupCanFinish(states: seq<State>, actions: seq<Action>) returns (longer: seq<State>, more: seq<Action>)
    requires IsRun(states, actions)
    requires CloseDb in states[0].plan && PlanOk(states[0].plan, false, states[0].historyStopped)
    ensures IsRun(longer, more) && states <= longer && actions <= more
    ensures var s := longer[|more|];
            && s.plan == []
            && forall id | id in s.tasks ::
                 IsTerminal(s.tasks[id].status) && (id in s.reached <==> id in s.handed) && (id in s.handed ==> s.handed[id])
  {
    hide Step, PlanOk;
    longer, more := CleanupNeverDeadlocks(states, actions);
    forall id | id in longer[|more|].tasks
      ensures var s := longer[|more|];
              IsTerminal(s.tasks[id].status) && (id in s.reached <==> id in s.handed) && (id in s.handed ==> s.handed[id])
    {
      AfterCleanup(longer, more, |more|, id);
    }
  }
}
