/** What every step of the execution machine keeps, one part of the state at a time. */
module ExecutionInvariants {
  import opened Counting
  import opened Execution
  import Q = BackgroundQueue

  // ---------- where a task is ----------

  ghost predicate HeldBy(hands: seq<Hand>, id: Id) {
    exists w :: 0 <= w < |hands| && id in IdOf(hands[w])
  }

  // Every known task is waiting in the queue, with one worker, or finished, and in one of these only.
  ghost predicate PlacesOk(queue: seq<Id>, hands: seq<Hand>, known: set<Id>, finished: set<Id>) {
    && (forall i | 0 <= i < |queue| :: queue[i] in known && queue[i] !in finished)
    && (forall i, k | 0 <= i < k < |queue| :: queue[i] != queue[k])
    && (forall w, id | 0 <= w < |hands| && id in IdOf(hands[w]) :: id in known && id !in finished && id !in queue)
    && (forall v, w, id | 0 <= v < w < |hands| && id in IdOf(hands[v]) :: id !in IdOf(hands[w]))
    && (forall id | id in known :: id in queue || id in finished || HeldBy(hands, id))
    && finished <= known
  }

  lemma HeldElsewhere(hands: seq<Hand>, w: nat, h: Hand, id: Id)
    requires w < |hands|
    ensures HeldBy(hands, id) && id !in IdOf(hands[w]) ==> HeldBy(hands[w := h], id)
    ensures id in IdOf(h) ==> HeldBy(hands[w := h], id)
  {
    var moved := hands[w := h];
    assert moved[w] == h;
    if HeldBy(hands, id) && id !in IdOf(hands[w]) {
      var v :| 0 <= v < |hands| && id in IdOf(hands[v]);
      assert id in IdOf(moved[v]);
    }
  }

  lemma PlacesAfterSubmit(queue: seq<Id>, hands: seq<Hand>, known: set<Id>, finished: set<Id>, id: Id)
    requires PlacesOk(queue, hands, known, finished) && id !in known
    ensures PlacesOk(queue + [id], hands, known + {id}, finished)
  {
  }

  lemma PlacesAfterFetch(queue: seq<Id>, hands: seq<Hand>, known: set<Id>, finished: set<Id>, w: nat, h: Hand)
    requires PlacesOk(queue, hands, known, finished) && queue != []
    requires w < |hands| && IdOf(hands[w]) == {} && IdOf(h) == {queue[0]}
    ensures PlacesOk(queue[1..], hands[w := h], known, finished)
  {
    assert queue == [queue[0]] + queue[1..];
    forall id | id in known
      ensures id in queue[1..] || id in finished || HeldBy(hands[w := h], id)
    {
      HeldElsewhere(hands, w, h, id);
    }
  }

  lemma PlacesAfterMove(queue: seq<Id>, hands: seq<Hand>, known: set<Id>, finished: set<Id>, w: nat, h: Hand)
    requires PlacesOk(queue, hands, known, finished)
    requires w < |hands| && IdOf(h) == IdOf(hands[w])
    ensures PlacesOk(queue, hands[w := h], known, finished)
  {
    forall id | id in known
      ensures id in queue || id in finished || HeldBy(hands[w := h], id)
    {
      HeldElsewhere(hands, w, h, id);
    }
  }

  lemma PlacesAfterEnd(queue: seq<Id>, hands: seq<Hand>, known: set<Id>, finished: set<Id>, w: nat, id: Id)
    requires PlacesOk(queue, hands, known, finished)
    requires w < |hands| && IdOf(hands[w]) == {id}
    ensures PlacesOk(queue, hands[w := Idle], known, finished + {id})
  {
    forall x | x in known
      ensures x in queue || x in finished + {id} || HeldBy(hands[w := Idle], x)
    {
      HeldElsewhere(hands, w, Idle, x);
    }
  }

  // ---------- what its status may be there ----------

  predicate Unstarted(s: Status) {
    s == Pending || s == Cancelled
  }

  predicate StatusFits(h: Hand, s: Status) {
    if h.Fetched? || h.Checked? then Unstarted(s) else s == Running
  }

  ghost predicate StatusOk(queue: seq<Id>, hands: seq<Hand>, tasks: map<Id, Task>, finished: set<Id>) {
    && (forall i | 0 <= i < |queue| :: queue[i] in tasks && Unstarted(tasks[queue[i]].status))
    && (forall w, id | 0 <= w < |hands| && id in IdOf(hands[w]) :: id in tasks && StatusFits(hands[w], tasks[id].status))
    && (forall id | id in finished :: id in tasks && IsTerminal(tasks[id].status))
  }

  // A cancellation or a timeout does not move a task.
  predicate SameStage(a: Task, b: Task) {
    || b.status == a.status
    || (a.status == Pending && b.status == Cancelled)
  }

  lemma StatusAfterSubmit(queue: seq<Id>, hands: seq<Hand>, tasks: map<Id, Task>, finished: set<Id>, id: Id, b: Task)
    requires StatusOk(queue, hands, tasks, finished) && id !in tasks && b.status == Pending
    ensures StatusOk(queue + [id], hands, tasks[id := b], finished)
  {
  }

  lemma StatusAfterSignal(queue: seq<Id>, hands: seq<Hand>, tasks: map<Id, Task>, finished: set<Id>, id: Id, b: Task)
    requires StatusOk(queue, hands, tasks, finished) && id in tasks && SameStage(tasks[id], b)
    ensures StatusOk(queue, hands, tasks[id := b], finished)
  {
  }

  lemma StatusAfterFetch(queue: seq<Id>, hands: seq<Hand>, tasks: map<Id, Task>, finished: set<Id>, w: nat)
    requires StatusOk(queue, hands, tasks, finished) && queue != [] && w < |hands|
    ensures StatusOk(queue[1..], hands[w := Fetched(queue[0])], tasks, finished)
  {
  }

  lemma StatusAfterMove(queue: seq<Id>, hands: seq<Hand>, tasks: map<Id, Task>, finished: set<Id>, w: nat, h: Hand)
    requires StatusOk(queue, hands, tasks, finished) && w < |hands|
    requires IdOf(h) == IdOf(hands[w]) && (IdOf(h) != {} ==> forall s :: StatusFits(hands[w], s) ==> StatusFits(h, s))
    ensures StatusOk(queue, hands[w := h], tasks, finished)
  {
  }

  lemma StatusAfterWrite(queue: seq<Id>, hands: seq<Hand>, tasks: map<Id, Task>, finished: set<Id>,
                         w: nat, id: Id, h: Hand, b: Task, ended: set<Id>)
    requires PlacesOk(queue, hands, tasks.Keys, finished) && StatusOk(queue, hands, tasks, finished)
    requires w < |hands| && IdOf(hands[w]) == {id} && id in tasks
    requires if h == Idle then IsTerminal(b.status) && ended == {id}
             else IdOf(h) == {id} && StatusFits(h, b.status) && ended == {}
    ensures StatusOk(queue, hands[w := h], tasks[id := b], finished + ended)
  {
  }

  // ---------- permits ----------

  ghost function Holders(callers: map<Id, Caller>): set<Id> {
    set id | id in callers && CallerHolds(callers[id])
  }

  ghost predicate PermitsOk(limit: nat, permits: nat, hands: seq<Hand>, callers: map<Id, Caller>) {
    if limit == 0 then permits == 0
    else permits == |Where(hands, HoldsPermit)| + |Holders(callers)| && permits <= limit
  }

  lemma PermitsAfterMove(limit: nat, permits: nat, hands: seq<Hand>, callers: map<Id, Caller>, w: nat, h: Hand, after: nat)
    requires PermitsOk(limit, permits, hands, callers) && w < |hands|
    requires if HoldsPermit(h) && !HoldsPermit(hands[w]) then CanAcquire(limit, permits) && after == Taken(limit, permits)
             else if HoldsPermit(hands[w]) && !HoldsPermit(h) then after == Returned(limit, permits)
             else after == permits
    ensures PermitsOk(limit, after, hands[w := h], callers)
    ensures HoldsPermit(hands[w]) && limit > 0 ==> permits > 0
  {
    PlaceMoves(hands, w, h, HoldsPermit);
    if HoldsPermit(hands[w]) { SizeWithout(Where(hands, HoldsPermit), w); }
  }

  lemma PermitsAfterCaller(limit: nat, permits: nat, hands: seq<Hand>, callers: map<Id, Caller>, id: Id, c: Caller, after: nat)
    requires PermitsOk(limit, permits, hands, callers)
    requires if id !in callers then c == CallerHolding && CanAcquire(limit, permits) && after == Taken(limit, permits)
             else if c == CallerGone then CallerHolds(callers[id]) && after == Returned(limit, permits)
             else CallerHolds(callers[id]) && after == permits
    ensures PermitsOk(limit, after, hands, callers[id := c])
    ensures id in callers && CallerHolds(callers[id]) && limit > 0 ==> permits > 0
  {
    assert Holders(callers[id := c]) - {id} == Holders(callers) - {id};
    SizeWithout(Holders(callers), id);
    SizeWithout(Holders(callers[id := c]), id);
  }

  // ---------- runs and their records ----------

  predicate NotYetCalled(h: Hand) {
    h.Fetched? || h.Checked? || h.Waiting? || h.Holding?
  }

  ghost predicate InCall(hands: seq<Hand>, callers: map<Id, Caller>, id: Id) {
    || (id in callers && callers[id] == CallerCalled)
    || exists w :: 0 <= w < |hands| && hands[w].Called? && hands[w].id == id
  }

  // A task's run calls its tool at most once and then leaves exactly one record.
  ghost predicate RunsOk(hands: seq<Hand>, queue: seq<Id>, reached: set<Id>, recorded: set<Id>) {
    && (forall i | 0 <= i < |queue| :: queue[i] !in reached)
    && (forall w | 0 <= w < |hands| && NotYetCalled(hands[w]) :: hands[w].id !in reached)
    && (forall w | 0 <= w < |hands| && hands[w].Called? :: hands[w].id in reached && hands[w].id !in recorded)
  }

  ghost predicate CallersOk(known: set<Id>, callers: map<Id, Caller>, reached: set<Id>, recorded: set<Id>) {
    && known !! callers.Keys
    && reached <= known + callers.Keys
    && (forall id | id in callers && callers[id] == CallerHolding :: id !in reached)
    && (forall id | id in callers && callers[id] == CallerCalled :: id in reached && id !in recorded)
  }

  // What has been called and has no record yet is being called now.
  ghost predicate RecordsOk(hands: seq<Hand>, callers: map<Id, Caller>, reached: set<Id>, recorded: set<Id>) {
    && recorded <= reached
    && forall id | id in reached :: id in recorded || InCall(hands, callers, id)
  }

  lemma RunsAfterMove(hands: seq<Hand>, queue: seq<Id>, reached: set<Id>, recorded: set<Id>, w: nat, h: Hand)
    requires RunsOk(hands, queue, reached, recorded) && w < |hands|
    requires !h.Called? && (NotYetCalled(h) ==> h.id !in reached)
    ensures RunsOk(hands[w := h], queue, reached, recorded)
    ensures queue != [] ==> RunsOk(hands[w := h], queue[1..], reached, recorded)
  {
  }

  lemma RunsAfterCall(hands: seq<Hand>, queue: seq<Id>, known: set<Id>, finished: set<Id>,
                      reached: set<Id>, recorded: set<Id>, w: nat, h: Hand)
    requires PlacesOk(queue, hands, known, finished) && RunsOk(hands, queue, reached, recorded) && recorded <= reached
    requires w < |hands| && hands[w].Holding? && h.Called? && h.id == hands[w].id
    ensures RunsOk(hands[w := h], queue, reached + {h.id}, recorded)
  {
    forall v | 0 <= v < |hands| && v != w && IdOf(hands[v]) != {}
      ensures hands[v].id != h.id
    {
      assert hands[v].id in IdOf(hands[v]) && h.id in IdOf(hands[w]);
    }
    assert h.id !in queue by { assert h.id in IdOf(hands[w]); }
  }

  lemma RunsAfterRecord(hands: seq<Hand>, queue: seq<Id>, known: set<Id>, finished: set<Id>,
                        reached: set<Id>, recorded: set<Id>, w: nat, err: Err)
    requires PlacesOk(queue, hands, known, finished) && RunsOk(hands, queue, reached, recorded)
    requires w < |hands| && hands[w].Called?
    ensures RunsOk(hands[w := Recorded(hands[w].id, err)], queue, reached, recorded + {hands[w].id})
  {
    forall v | 0 <= v < |hands| && v != w && hands[v].Called?
      ensures hands[v].id != hands[w].id
    {
      assert hands[v].id in IdOf(hands[v]) && hands[w].id in IdOf(hands[w]);
    }
  }

  // A task and a caller are never the same run.
  lemma CallersAfterTask(known: set<Id>, callers: map<Id, Caller>, reached: set<Id>, recorded: set<Id>, id: Id)
    requires CallersOk(known, callers, reached, recorded) && id in known
    ensures CallersOk(known, callers, reached + {id}, recorded)
    ensures CallersOk(known, callers, reached, recorded + {id})
  {
  }

  lemma CallersAfterCall(known: set<Id>, callers: map<Id, Caller>, reached: set<Id>, recorded: set<Id>, id: Id)
    requires CallersOk(known, callers, reached, recorded)
    requires recorded <= reached && id in callers && callers[id] == CallerHolding
    ensures CallersOk(known, callers[id := CallerCalled], reached + {id}, recorded)
  {
  }

  lemma CallersAfterRecord(known: set<Id>, callers: map<Id, Caller>, reached: set<Id>, recorded: set<Id>, id: Id)
    requires CallersOk(known, callers, reached, recorded)
    requires id in callers && callers[id] == CallerCalled
    ensures CallersOk(known, callers[id := CallerRecorded], reached, recorded + {id})
  {
  }

  lemma CallersAfterSubmit(known: set<Id>, callers: map<Id, Caller>, reached: set<Id>, recorded: set<Id>, id: Id)
    requires CallersOk(known, callers, reached, recorded) && id !in callers
    ensures CallersOk(known + {id}, callers, reached, recorded)
  {
  }

  lemma RecordsAfterCallerCall(hands: seq<Hand>, callers: map<Id, Caller>, reached: set<Id>, recorded: set<Id>, id: Id)
    requires RecordsOk(hands, callers, reached, recorded)
    ensures RecordsOk(hands, callers[id := CallerCalled], reached + {id}, recorded)
  {
    forall x | x in reached && x !in recorded && x != id
      ensures InCall(hands, callers[id := CallerCalled], x)
    {
      assert InCall(hands, callers, x);
    }
  }

  lemma RecordsAfterCallerRecord(hands: seq<Hand>, callers: map<Id, Caller>, reached: set<Id>, recorded: set<Id>, id: Id)
    requires RecordsOk(hands, callers, reached, recorded) && id in reached
    ensures RecordsOk(hands, callers[id := CallerRecorded], reached, recorded + {id})
  {
    forall x | x in reached && x !in recorded && x != id
      ensures InCall(hands, callers[id := CallerRecorded], x)
    {
      assert InCall(hands, callers, x);
    }
  }

  lemma RunsAfterCaller(hands: seq<Hand>, queue: seq<Id>, known: set<Id>, finished: set<Id>,
                        reached: set<Id>, recorded: set<Id>, id: Id)
    requires PlacesOk(queue, hands, known, finished) && RunsOk(hands, queue, reached, recorded) && id !in known
    ensures RunsOk(hands, queue, reached + {id}, recorded)
    ensures RunsOk(hands, queue, reached, recorded + {id})
  {
  }

  lemma StillCalled(hands: seq<Hand>, callers: map<Id, Caller>, w: nat, h: Hand, id: Id)
    requires w < |hands|
    ensures InCall(hands, callers, id) && (hands[w].Called? ==> hands[w].id != id)
            ==> InCall(hands[w := h], callers, id)
    ensures h.Called? && h.id == id ==> InCall(hands[w := h], callers, id)
  {
    var moved := hands[w := h];
    assert moved[w] == h;
    if InCall(hands, callers, id) && !(id in callers && callers[id] == CallerCalled) {
      var v :| 0 <= v < |hands| && hands[v].Called? && hands[v].id == id;
      assert v != w ==> moved[v] == hands[v];
    }
  }

  lemma RecordsAfterMove(hands: seq<Hand>, callers: map<Id, Caller>, reached: set<Id>, recorded: set<Id>, w: nat, h: Hand)
    requires RecordsOk(hands, callers, reached, recorded) && w < |hands| && !hands[w].Called?
    ensures RecordsOk(hands[w := h], callers, reached, recorded)
  {
    forall id | id in reached
      ensures id in recorded || InCall(hands[w := h], callers, id)
    {
      StillCalled(hands, callers, w, h, id);
    }
  }

  lemma RecordsAfterCall(hands: seq<Hand>, callers: map<Id, Caller>, reached: set<Id>, recorded: set<Id>, w: nat, h: Hand)
    requires RecordsOk(hands, callers, reached, recorded) && w < |hands| && !hands[w].Called? && h.Called?
    ensures RecordsOk(hands[w := h], callers, reached + {h.id}, recorded)
  {
    forall id | id in reached + {h.id}
      ensures id in recorded || InCall(hands[w := h], callers, id)
    {
      StillCalled(hands, callers, w, h, id);
    }
  }

  lemma RecordsAfterRecord(hands: seq<Hand>, callers: map<Id, Caller>, reached: set<Id>, recorded: set<Id>, w: nat, h: Hand)
    requires RecordsOk(hands, callers, reached, recorded) && w < |hands| && hands[w].Called? && hands[w].id in reached
    ensures RecordsOk(hands[w := h], callers, reached, recorded + {hands[w].id})
  {
    forall id | id in reached
      ensures id in recorded + {hands[w].id} || InCall(hands[w := h], callers, id)
    {
      StillCalled(hands, callers, w, h, id);
    }
  }

  ghost predicate SinkOk(history: Q.Queue, direct: set<Id>, handed: map<Id, bool>) {
    && Q.Inv(history)
    && history.accepted !! direct
    && handed.Keys == history.ran.Keys + direct
  }

  function RecordsOf(s: State): set<Id> {
    s.history.accepted + s.direct
  }

  // ---------- cleanup ----------

  // The database is closed only after both the task workers and the history queue have stopped.
  predicate PlanOk(plan: seq<Cleanup>, tasksStopped: bool, historyStopped: bool) {
    forall i | 0 <= i < |plan| && plan[i] == CloseDb ::
      (tasksStopped || StopTasks in plan[..i]) && (historyStopped || StopHistory in plan[..i])
  }

  predicate TasksStopFirst(plan: seq<Cleanup>, tasksStopped: bool) {
    forall i | 0 <= i < |plan| && plan[i] == StopHistory :: tasksStopped || StopTasks in plan[..i]
  }

  predicate CleanupOk(s: State) {
    && (s.tasksStopped ==> s.closed && AllExited(s.hands))
    && (s.historyStopped ==> Q.Drained(s.history))
    && (CloseDb in s.plan || !s.dbOpen)
    && (!s.dbOpen ==> s.tasksStopped && s.historyStopped)
    && PlanOk(s.plan, s.tasksStopped, s.historyStopped)
  }

  predicate ExitsOk(closed: bool, queue: seq<Id>, hands: seq<Hand>) {
    |hands| > 0 && forall w | 0 <= w < |hands| && hands[w] == Exited :: closed && queue == []
  }

  // Records of tasks never meet a closed database.
  ghost predicate OpenOk(known: set<Id>, handed: map<Id, bool>) {
    forall id | id in known && id in handed :: handed[id]
  }

  // ---------- all of it ----------

  ghost predicate WorkOk(s: State) {
    && PlacesOk(s.queue, s.hands, s.tasks.Keys, s.finished)
    && StatusOk(s.queue, s.hands, s.tasks, s.finished)
    && PermitsOk(s.limit, s.permits, s.hands, s.callers)
    && ExitsOk(s.closed, s.queue, s.hands)
  }

  ghost predicate HistoryOk(s: State) {
    && RunsOk(s.hands, s.queue, s.reached, RecordsOf(s))
    && CallersOk(s.tasks.Keys, s.callers, s.reached, RecordsOf(s))
    && RecordsOk(s.hands, s.callers, s.reached, RecordsOf(s))
    && SinkOk(s.history, s.direct, s.handed)
  }

  ghost const WORKING: iset<State> := iset s | WorkOk(s)
  ghost const RECORDING: iset<State> := iset s | HistoryOk(s)
  ghost const SAFE: iset<State> := iset s | s in WORKING && s in RECORDING
}
