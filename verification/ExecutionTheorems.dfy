/** What the execution machine guarantees about tasks, permits and call records over all its runs. */
module ExecutionTheorems {
  import opened Counting
  import opened Execution
  import opened ExecutionInvariants
  import opened ExecutionSteps
  import Q = BackgroundQueue

  // ---------- tasks ----------

  // Each accepted task waits in the queue, is with one worker, or is finished, and never two of these.
  lemma EveryTaskInOnePlace(states: seq<State>, actions: seq<Action>, i: nat, id: Id)
    requires IsRun(states, actions) && i < |states| && id in states[i].tasks
    ensures var s := states[i];
            && (id in s.queue || id in s.finished || HeldBy(s.hands, id))
            && !(id in s.queue && id in s.finished)
            && !(id in s.queue && HeldBy(s.hands, id))
            && !(id in s.finished && HeldBy(s.hands, id))
            && (forall v, w | 0 <= v < w < |s.hands| && id in IdOf(s.hands[v]) :: id !in IdOf(s.hands[w]))
            && (forall j, k | 0 <= j < k < |s.queue| :: s.queue[j] != s.queue[k])
  {
    RunSafe(states, actions, i);
  }

  lemma StatusSteps(s: State, a: Action, t: State, id: Id)
    requires s in SAFE && Step(s, a, t) && id in s.tasks
    ensures id in t.tasks
    ensures id in s.finished ==> id in t.finished && t.tasks[id].status == s.tasks[id].status
    ensures IsTerminal(s.tasks[id].status) ==>
      (t.tasks[id].status != s.tasks[id].status <==> a.Begin? && s.hands[a.w] == Checked(id))
  {
    if IsHandAction(a) {
      HandStatusSteps(s, a, t, id);
    } else {
      OthersLeaveStatus(s, a, t, id);
    }
  }

  lemma OthersLeaveStatus(s: State, a: Action, t: State, id: Id)
    requires Step(s, a, t) && !IsHandAction(a) && id in s.tasks
    ensures id in t.tasks && t.finished == s.finished
    ensures IsTerminal(s.tasks[id].status) ==> t.tasks[id].status == s.tasks[id].status
  {
    if a.CleanupStep? { CleanupTouches(s, t); }
  }

  lemma HandStatusSteps(s: State, a: Action, t: State, id: Id)
    requires s in SAFE && Step(s, a, t) && IsHandAction(a) && id in s.tasks
    ensures id in t.tasks
    ensures id in s.finished ==> id in t.finished && t.tasks[id].status == s.tasks[id].status
    ensures IsTerminal(s.tasks[id].status) ==>
      (t.tasks[id].status != s.tasks[id].status <==> a.Begin? && s.hands[a.w] == Checked(id))
  {
    if a.Begin? {
      BeginStatus(s, a.w, t, id);
    } else if a.End? {
      EndStatus(s, a.w, t, id);
    } else {
      HandLeavesTasks(s, a, t);
    }
  }

  lemma HandLeavesTasks(s: State, a: Action, t: State)
    requires Step(s, a, t) && IsHandAction(a) && !a.Begin? && !a.End?
    ensures t.tasks == s.tasks && s.finished <= t.finished
  {
    if a.Acquire? || a.GiveUp? || a.Call? || a.Release? { RunLeavesOthers(s, a, t); }
  }

  lemma EndStatus(s: State, w: nat, t: State, id: Id)
    requires s in SAFE && Step(s, End(w), t) && id in s.tasks
    ensures id in t.tasks
    ensures id in s.finished ==> id in t.finished && t.tasks[id].status == s.tasks[id].status
    ensures IsTerminal(s.tasks[id].status) ==> t.tasks[id].status == s.tasks[id].status
  {
    HolderStatus(s, w, s.hands[w].id);
  }

  lemma BeginStatus(s: State, w: nat, t: State, id: Id)
    requires s in SAFE && Step(s, Begin(w), t) && id in s.tasks
    ensures id in t.tasks
    ensures id in s.finished ==> id in t.finished && t.tasks[id].status == s.tasks[id].status
    ensures IsTerminal(s.tasks[id].status) ==> (t.tasks[id].status != s.tasks[id].status <==> s.hands[w] == Checked(id))
  {
    HolderStatus(s, w, s.hands[w].id);
  }

  lemma HolderStatus(s: State, w: nat, id: Id)
    requires s in WORKING && w < |s.hands| && IdOf(s.hands[w]) == {id}
    ensures id in s.tasks && id !in s.finished && StatusFits(s.hands[w], s.tasks[id].status)
  {
    assert id in IdOf(s.hands[w]);
  }

  // Once a worker is done with a task, its status is final.
  lemma {:induction false} FinishedIsFinal(states: seq<State>, actions: seq<Action>, i: nat, j: nat, id: Id)
    requires IsRun(states, actions) && i <= j < |states| && id in states[i].finished
    ensures id in states[i].tasks && id in states[j].finished && id in states[j].tasks
    ensures IsTerminal(states[j].tasks[id].status) && states[j].tasks[id].status == states[i].tasks[id].status
    decreases j - i
  {
    hide Step;
    if i == j {
      RunSafe(states, actions, i);
    } else {
      FinishedIsFinal(states, actions, i, j - 1, id);
      RunSafe(states, actions, j - 1);
      StatusSteps(states[j - 1], actions[j - 1], states[j], id);
    }
  }

  // A terminal status that a task has before that is not: it is left exactly when the worker that found the task
  // still pending goes on to start it, which is possible since both are separate steps.
  lemma TerminalIsLeftOnlyByBegin(states: seq<State>, actions: seq<Action>, i: nat, id: Id)
    requires IsRun(states, actions) && i < |actions|
    requires id in states[i].tasks && IsTerminal(states[i].tasks[id].status)
    ensures id in states[i + 1].tasks
    ensures states[i + 1].tasks[id].status != states[i].tasks[id].status
            <==> actions[i].Begin? && states[i].hands[actions[i].w] == Checked(id)
  {
    RunSafe(states, actions, i);
    StatusSteps(states[i], actions[i], states[i + 1], id);
  }

  // A cancelled task that no worker has looked at yet, or that is over without having called its tool.
  ghost predicate Dropped(s: State, id: Id) {
    && id in s.tasks && s.tasks[id].status == Cancelled && id !in s.reached
    && (id in s.queue || id in s.finished || Fetched(id) in s.hands)
  }

  lemma QueuedIsNotCalled(s: State, id: Id)
    requires s in SAFE && id in s.queue
    ensures id in s.tasks && Unstarted(s.tasks[id].status) && id !in s.reached
  {
  }

  // A worker that has come past its first look holds some other task.
  lemma DroppedIsElsewhere(s: State, id: Id, w: nat)
    requires s in SAFE && Dropped(s, id) && w < |s.hands| && IdOf(s.hands[w]) != {} && !s.hands[w].Fetched?
    ensures s.hands[w].id != id
  {
    hide HistoryOk, StatusOk, PermitsOk, ExitsOk;
    HeldInOnePlace(s.queue, s.hands, s.tasks.Keys, s.finished, w);
    if Fetched(id) in s.hands {
      var v :| 0 <= v < |s.hands| && s.hands[v] == Fetched(id);
      assert id in IdOf(s.hands[v]);
    }
  }

  lemma HeldInOnePlace(queue: seq<Id>, hands: seq<Hand>, known: set<Id>, finished: set<Id>, w: nat)
    requires PlacesOk(queue, hands, known, finished) && w < |hands| && IdOf(hands[w]) != {}
    ensures var id := hands[w].id;
            id !in queue && id !in finished && forall v | 0 <= v < |hands| && v != w :: id !in IdOf(hands[v])
  {
    assert hands[w].id in IdOf(hands[w]);
  }

  lemma DroppedStays(s: State, a: Action, t: State, id: Id)
    requires s in SAFE && Step(s, a, t) && Dropped(s, id)
    ensures Dropped(t, id)
  {
    if a.Fetch? {
      DroppedIsFetched(s, a.w, t, id);
    } else if a.Check? {
      DroppedIsChecked(s, a.w, t, id);
    } else if IsHandAction(a) {
      DroppedIsPassed(s, a, t, id);
    } else {
      OthersLeaveDropped(s, a, t, id);
    }
  }

  lemma DroppedIsFetched(s: State, w: nat, t: State, id: Id)
    requires Step(s, Fetch(w), t) && Dropped(s, id)
    ensures Dropped(t, id)
  {
    hide Step;
    FetchTakesFirst(s, w, t);
    assert s.queue == [s.queue[0]] + s.queue[1..];
    FetchedStays(s.hands, w, t.hands[w], id);
  }

  lemma FetchTakesFirst(s: State, w: nat, t: State)
    requires Step(s, Fetch(w), t)
    ensures w < |s.hands| && s.hands[w] == Idle && s.queue != []
    ensures t == s.(queue := s.queue[1..], hands := s.hands[w := Fetched(s.queue[0])])
  {
  }

  lemma FetchedStays(hands: seq<Hand>, w: nat, h: Hand, id: Id)
    requires w < |hands|
    ensures Fetched(id) in hands && hands[w] != Fetched(id) ==> Fetched(id) in hands[w := h]
    ensures h == Fetched(id) ==> Fetched(id) in hands[w := h]
  {
    assert hands[w := h][w] == h;
    if Fetched(id) in hands && hands[w] != Fetched(id) {
      var v :| 0 <= v < |hands| && hands[v] == Fetched(id);
      assert hands[w := h][v] == Fetched(id);
    }
  }

  lemma DroppedIsChecked(s: State, w: nat, t: State, id: Id)
    requires Step(s, Check(w), t) && Dropped(s, id)
    ensures Dropped(t, id)
  {
    hide Step;
    CheckTouchesOwn(s, w, t);
    FetchedStays(s.hands, w, t.hands[w], id);
  }

  lemma CheckTouchesOwn(s: State, w: nat, t: State)
    requires Step(s, Check(w), t)
    ensures w < |s.hands| == |t.hands| && s.hands[w].Fetched? && t == s.(hands := s.hands[w := t.hands[w]], finished := t.finished)
    ensures s.hands[w].id in s.tasks && s.finished <= t.finished
    ensures IsTerminal(s.tasks[s.hands[w].id].status) ==> s.hands[w].id in t.finished
  {
  }

  lemma DroppedIsPassed(s: State, a: Action, t: State, id: Id)
    requires s in SAFE && Step(s, a, t) && IsHandAction(a) && !a.Fetch? && !a.Check? && Dropped(s, id)
    ensures Dropped(t, id)
  {
    FetchedStays(s.hands, a.w, t.hands[a.w], id);
    if !a.Exit? { DroppedIsElsewhere(s, id, a.w); }
    HandTouchesOwn(s, a, t, id);
  }

  lemma HandTouchesOwn(s: State, a: Action, t: State, id: Id)
    requires Step(s, a, t) && IsHandAction(a) && !a.Fetch? && !a.Check? && id in s.tasks
    requires a.Exit? || s.hands[a.w].id != id
    ensures t.queue == s.queue && s.finished <= t.finished && t.hands == s.hands[a.w := t.hands[a.w]]
    ensures id in t.tasks && t.tasks[id] == s.tasks[id] && (id in t.reached ==> id in s.reached)
  {
    if a.Acquire? || a.GiveUp? || a.Call? || a.Release? { RunTouchesOwn(s, a, t, id); } else { EndTouchesOwn(s, a, t, id); }
  }

  lemma RunTouchesOwn(s: State, a: Action, t: State, id: Id)
    requires Step(s, a, t) && (a.Acquire? || a.GiveUp? || a.Call? || a.Release?) && id in s.tasks && s.hands[a.w].id != id
    ensures t.queue == s.queue && s.finished <= t.finished && t.hands == s.hands[a.w := t.hands[a.w]]
    ensures id in t.tasks && t.tasks[id] == s.tasks[id] && (id in t.reached ==> id in s.reached)
  {
  }

  lemma EndTouchesOwn(s: State, a: Action, t: State, id: Id)
    requires Step(s, a, t) && (a.Begin? || a.Record? || a.End? || a.Exit?) && id in s.tasks
    requires a.Exit? || s.hands[a.w].id != id
    ensures t.queue == s.queue && s.finished <= t.finished && t.hands == s.hands[a.w := t.hands[a.w]]
    ensures id in t.tasks && t.tasks[id] == s.tasks[id] && (id in t.reached ==> id in s.reached)
  {
  }

  lemma OthersLeaveDropped(s: State, a: Action, t: State, id: Id)
    requires s in SAFE && Step(s, a, t) && !IsHandAction(a) && Dropped(s, id)
    ensures Dropped(t, id)
  {
    OthersLeaveStatus(s, a, t, id);
    if a.CleanupStep? { CleanupTouches(s, t); }
  }

  lemma {:induction false} DroppedForGood(states: seq<State>, actions: seq<Action>, i: nat, j: nat, id: Id)
    requires IsRun(states, actions) && i <= j < |states| && Dropped(states[i], id)
    ensures Dropped(states[j], id)
    decreases j - i
  {
    hide Step;
    if i == j {
    } else {
      DroppedForGood(states, actions, i, j - 1, id);
      RunSafe(states, actions, j - 1);
      DroppedStays(states[j - 1], actions[j - 1], states[j], id);
    }
  }

  // No worker has found the task pending and not started it yet.
  predicate Unseen(hands: seq<Hand>, id: Id) {
    Checked(id) !in hands
  }

  // What does hold of cancellation: a pending task that no worker has looked at when it is cancelled never calls its
  // tool, leaves no record and stays cancelled.
  lemma CancelledInTimeNeverRuns(states: seq<State>, actions: seq<Action>, i: nat, j: nat, id: Id)
    requires IsRun(states, actions) && i < j < |states| && actions[i] == Cancel(id)
    requires id in states[i].tasks && states[i].tasks[id].status == Pending && Unseen(states[i].hands, id)
    ensures id in states[j].tasks && states[j].tasks[id].status == Cancelled
    ensures id !in states[j].reached && id !in states[j].handed
  {
    hide Step, SAFE, Dropped;
    RunSafe(states, actions, i);
    CancelDrops(states[i], states[i + 1], id);
    DroppedForGood(states, actions, i + 1, j, id);
    RunSafe(states, actions, j);
    DroppedIsUncalled(states[j], id);
  }

  lemma DroppedIsUncalled(s: State, id: Id)
    requires s in SAFE && Dropped(s, id)
    ensures id in s.tasks && s.tasks[id].status == Cancelled && id !in s.reached && id !in s.handed
  {
    HandedIsReached(s, id);
  }

  // And this is the exact condition: one that a worker has looked at is started if that worker moves next.
  lemma CancelledTooLateMayRun(states: seq<State>, actions: seq<Action>, id: Id, t: State)
    returns (longer: seq<State>, more: seq<Action>)
    requires IsRun(states, actions) && Step(states[|actions|], Cancel(id), t)
    requires states[|actions|].tasks[id].status == Pending && !Unseen(states[|actions|].hands, id)
    ensures IsRun(longer, more) && |more| == |actions| + 2 && |longer| == |states| + 2
    ensures more[..|actions| + 1] == actions + [Cancel(id)] && longer[..|states| + 1] == states + [t]
    ensures var u := longer[|more|]; t.tasks[id].status == Cancelled && id in u.tasks && u.tasks[id].status == Running
  {
    hide Step;
    CancelMoves(states[|actions|], t, id);
    var w :| 0 <= w < |t.hands| && t.hands[w] == Checked(id);
    var u := t.(tasks := t.tasks[id := t.tasks[id].(status := Running)], hands := t.hands[w := Waiting(id)]);
    assert Step(t, Begin(w), u) by { BeginMoves(t, w, id); }
    Extended(states, actions, Cancel(id), t);
    Extended(states + [t], actions + [Cancel(id)], Begin(w), u);
    longer, more := states + [t] + [u], actions + [Cancel(id)] + [Begin(w)];
  }

  lemma CancelMoves(s: State, t: State, id: Id)
    requires Step(s, Cancel(id), t)
    ensures id in s.tasks && t == s.(tasks := s.tasks[id := CancelTask(s.tasks[id])])
  {
  }

  lemma BeginMoves(s: State, w: nat, id: Id)
    requires w < |s.hands| && s.hands[w] == Checked(id) && id in s.tasks
    ensures Step(s, Begin(w), s.(tasks := s.tasks[id := s.tasks[id].(status := Running)], hands := s.hands[w := Waiting(id)]))
  {
  }

  lemma CancelDrops(s: State, t: State, id: Id)
    requires s in SAFE && Step(s, Cancel(id), t)
    requires s.tasks[id].status == Pending && Unseen(s.hands, id)
    ensures Dropped(t, id)
  {
    PendingIsEarly(s, id);
  }

  lemma PendingIsEarly(s: State, id: Id)
    requires s in SAFE && id in s.tasks && s.tasks[id].status == Pending && Unseen(s.hands, id)
    ensures (id in s.queue || Fetched(id) in s.hands) && id !in s.reached
  {
    if id in s.queue {
      QueuedIsNotCalled(s, id);
    } else {
      assert HeldBy(s.hands, id);
      var w :| 0 <= w < |s.hands| && id in IdOf(s.hands[w]);
      assert StatusFits(s.hands[w], Pending);
      assert NotYetCalled(s.hands[w]);
    }
  }

  lemma HandedIsReached(s: State, id: Id)
    requires s in SAFE
    ensures id in s.handed ==> id in s.reached
  {
  }

  ghost function RunningTasks(tasks: map<Id, Task>): set<Id> {
    set id | id in tasks && tasks[id].status == Running
  }

  ghost function IdsHeld(hands: seq<Hand>): set<Id> {
    if hands == [] then {} else IdOf(hands[0]) + IdsHeld(hands[1..])
  }

  lemma {:induction false} OneTaskEach(hands: seq<Hand>)
    ensures |IdsHeld(hands)| <= |hands|
    ensures forall w, id | 0 <= w < |hands| && id in IdOf(hands[w]) :: id in IdsHeld(hands)
    decreases |hands|
  {
    if hands == [] {
    } else {
      OneTaskEach(hands[1..]);
      var first, rest := IdOf(hands[0]), IdsHeld(hands[1..]);
      assert |first| <= 1;
      assert |first + rest| <= |first| + |rest|;
      assert hands == [hands[0]] + hands[1..];
    }
  }

  // No more tasks run than there are workers.
  lemma RunningIsBounded(states: seq<State>, actions: seq<Action>, i: nat)
    requires IsRun(states, actions) && i < |states|
    ensures |RunningTasks(states[i].tasks)| <= |states[i].hands|
  {
    RunSafe(states, actions, i);
    RunningIsHeld(states[i]);
    OneTaskEach(states[i].hands);
    SubsetIsSmaller(RunningTasks(states[i].tasks), IdsHeld(states[i].hands));
  }

  lemma RunningIsHeld(s: State)
    requires s in WORKING
    ensures RunningTasks(s.tasks) <= IdsHeld(s.hands)
  {
    OneTaskEach(s.hands);
    forall id | id in RunningTasks(s.tasks)
      ensures id in IdsHeld(s.hands)
    {
      assert HeldBy(s.hands, id);
    }
  }

  lemma SubsetIsSmaller<T>(a: set<T>, b: set<T>)
    requires a <= b
    ensures |a| <= |b|
  {
    assert b == a + (b - a);
  }

  // ---------- permits ----------

  // Every permit in use belongs to one worker or caller between taking and returning it, and none is lost:
  // with a limit, the slots in use are exactly their holders and never exceed it.
  lemma PermitsAreConserved(states: seq<State>, actions: seq<Action>, i: nat)
    requires IsRun(states, actions) && i < |states| && states[i].limit > 0
    ensures var s := states[i];
            s.permits == |Where(s.hands, HoldsPermit)| + |Holders(s.callers)| && s.permits <= s.limit
  {
    RunSafe(states, actions, i);
  }

  // ---------- calls and their records ----------

  lemma CallAdds(s: State, a: Action, t: State)
    requires Step(s, a, t)
    ensures t.reached == s.reached + CalledBy(s, a)
  {
    if IsHandAction(a) {
      HandCallAdds(s, a, t);
    } else if a.CleanupStep? {
      CleanupTouches(s, t);
    }
  }

  lemma HandCallAdds(s: State, a: Action, t: State)
    requires Step(s, a, t) && IsHandAction(a)
    ensures t.reached == s.reached + CalledBy(s, a)
  {
    if a.Begin? || a.End? { WriteLeavesOthers(s, a, t); }
    else if a.Fetch? || a.Check? || a.Exit? { TurnLeavesOthers(s, a, t); }
  }

  lemma CallIsNew(s: State, a: Action)
    requires s in RECORDING && Enabled(s, a)
    ensures CalledBy(s, a) !! s.reached
  {
    assert a.Call? ==> NotYetCalled(s.hands[a.w]);
  }

  lemma RecordAdds(s: State, a: Action, t: State)
    requires Step(s, a, t)
    ensures t.handed.Keys == s.handed.Keys + HandedBy(s, a)
  {
    if IsHandAction(a) {
      HandRecordAdds(s, a, t);
    } else if a.CallerRecord? || a.History? {
      StrangeRecordAdds(s, a, t);
    } else if a.CleanupStep? {
      CleanupTouches(s, t);
    }
  }

  lemma StrangeRecordAdds(s: State, a: Action, t: State)
    requires Step(s, a, t) && (a.CallerRecord? || a.History?)
    ensures t.handed.Keys == s.handed.Keys + HandedBy(s, a)
  {
  }

  lemma HandRecordAdds(s: State, a: Action, t: State)
    requires Step(s, a, t) && IsHandAction(a)
    ensures t.handed.Keys == s.handed.Keys + HandedBy(s, a)
  {
    if a.Record? { TaskRecordAdds(s, a.w, a.saveErr, t); }
    else { OtherHandsHandNothing(s, a, t); }
  }

  lemma OtherHandsHandNothing(s: State, a: Action, t: State)
    requires Step(s, a, t) && IsHandAction(a) && !a.Record?
    ensures t.handed == s.handed
  {
    hide Step;
    if a.Acquire? || a.GiveUp? || a.Call? || a.Release? { RunLeavesOthers(s, a, t); }
    else if a.Begin? || a.End? { WriteLeavesOthers(s, a, t); }
    else { TurnLeavesOthers(s, a, t); }
  }

  lemma TaskRecordAdds(s: State, w: nat, saveErr: Err, t: State)
    requires Step(s, Record(w, saveErr), t)
    ensures t.handed.Keys == s.handed.Keys + HandedBy(s, Record(w, saveErr))
  {
  }

  lemma JobIsNew(q: Q.Queue, direct: set<Id>, handed: map<Id, bool>, w: nat)
    requires SinkOk(q, direct, handed) && w < |q.workers| && q.workers[w].Running?
    ensures q.workers[w].job !in handed
  {
  }

  lemma TaskRecordIsNew(s: State, w: nat)
    requires s in SAFE && w < |s.hands| && s.hands[w].Called?
    ensures s.hands[w].id !in s.handed
  {
    RecordRuns(s, w, s.hands[w].id, NoError);
  }

  lemma RecordIsNew(s: State, a: Action)
    requires s in SAFE && Enabled(s, a)
    ensures HandedBy(s, a) !! s.handed.Keys
  {
    match a
    case Record(w, _) => TaskRecordIsNew(s, w);
    case History(b) => if HandedBy(s, a) != {} { JobIsNew(s.history, s.direct, s.handed, b.w); }
    case CallerRecord(id) => CallerRecordIsNew(s, id);
    case _ =>
  }

  lemma CallerRecordIsNew(s: State, id: Id)
    requires s in RECORDING && id in s.callers && s.callers[id] == CallerCalled
    ensures id !in s.handed
  {
  }

  lemma CallStep(s: State, a: Action, t: State)
    requires s in SAFE && Step(s, a, t)
    ensures CalledBy(s, a) !! s.reached && t.reached == s.reached + CalledBy(s, a)
  {
    CallAdds(s, a, t);
    CallIsNew(s, a);
  }

  lemma RecordStep(s: State, a: Action, t: State)
    requires s in SAFE && Step(s, a, t)
    ensures HandedBy(s, a) !! s.handed.Keys && t.handed.Keys == s.handed.Keys + HandedBy(s, a)
  {
    RecordAdds(s, a, t);
    RecordIsNew(s, a);
  }

  // What is new each time it is added is added at most once.
  lemma {:induction false} AddedOnce(known: seq<set<Id>>, added: seq<set<Id>>, i: nat, j: nat)
    requires |known| == |added| + 1 && i < j < |added|
    requires forall k | 0 <= k < |added| :: added[k] !! known[k] && known[k + 1] == known[k] + added[k]
    ensures added[i] !! added[j] && added[i] <= known[j]
    decreases j - i
  {
    if i + 1 == j {
    } else {
      AddedOnce(known, added, i, j - 1);
    }
    assert known[j - 1 + 1] == known[j - 1] + added[j - 1];
  }

  lemma CallIsNewAt(states: seq<State>, actions: seq<Action>, k: nat)
    requires IsRun(states, actions) && k < |actions|
    ensures |states| == |actions| + 1
    ensures CalledBy(states[k], actions[k]) !! states[k].reached
    ensures states[k + 1].reached == states[k].reached + CalledBy(states[k], actions[k])
  {
    hide Step, CalledBy;
    RunSafe(states, actions, k);
    CallStep(states[k], actions[k], states[k + 1]);
  }

  lemma RecordIsNewAt(states: seq<State>, actions: seq<Action>, k: nat)
    requires IsRun(states, actions) && k < |actions|
    ensures |states| == |actions| + 1
    ensures HandedBy(states[k], actions[k]) !! states[k].handed.Keys
    ensures states[k + 1].handed.Keys == states[k].handed.Keys + HandedBy(states[k], actions[k])
  {
    hide Step, HandedBy;
    RunSafe(states, actions, k);
    RecordStep(states[k], actions[k], states[k + 1]);
  }

  // In a whole run, no two steps call the tool of the same run.
  lemma CalledOnce(states: seq<State>, actions: seq<Action>, i: nat, j: nat)
    requires IsRun(states, actions) && i < j < |actions|
    ensures CalledBy(states[i], actions[i]) !! CalledBy(states[j], actions[j])
  {
    hide IsRun, CalledBy;
    CallIsNewAt(states, actions, i);
    var known := seq(|states|, k requires 0 <= k < |states| => states[k].reached);
    var added := seq(|actions|, k requires 0 <= k < |actions| => CalledBy(states[k], actions[k]));
    forall k | 0 <= k < |added|
      ensures added[k] !! known[k] && known[k + 1] == known[k] + added[k]
    {
      CallIsNewAt(states, actions, k);
    }
    AddedOnce(known, added, i, j);
  }

  // Nor do two steps give the database sink the record of the same run.
  lemma HandedOnce(states: seq<State>, actions: seq<Action>, i: nat, j: nat)
    requires IsRun(states, actions) && i < j < |actions|
    ensures HandedBy(states[i], actions[i]) !! HandedBy(states[j], actions[j])
  {
    hide IsRun, HandedBy;
    RecordIsNewAt(states, actions, i);
    var known := seq(|states|, k requires 0 <= k < |states| => states[k].handed.Keys);
    var added := seq(|actions|, k requires 0 <= k < |actions| => HandedBy(states[k], actions[k]));
    forall k | 0 <= k < |added|
      ensures added[k] !! known[k] && known[k + 1] == known[k] + added[k]
    {
      RecordIsNewAt(states, actions, k);
    }
    AddedOnce(known, added, i, j);
  }

  // ---------- cleanup ----------

  ghost predicate StoppedOk(s: State) {
    CleanupOk(s) && OpenOk(s.tasks.Keys, s.handed)
  }

  ghost const STOPPED: iset<State> := iset s | StoppedOk(s)

  lemma ExitedStays(s: State, a: Action, t: State)
    requires AllExited(s.hands) && Step(s, a, t)
    ensures t.hands == s.hands && !IsHandAction(a)
  {
    if a.CleanupStep? { CleanupTouches(s, t); }
  }

  lemma DrainedStays(s: State, a: Action, t: State)
    requires Q.Drained(s.history) && Step(s, a, t)
    ensures Q.Drained(t.history) && (a.History? ==> !a.action.Finish?)
  {
    if IsHandAction(a) {
      HandLeavesCleanup(s, a, t);
    } else if a.CleanupStep? {
      CleanupTouches(s, t);
    }
  }

  lemma HandLeavesCleanup(s: State, a: Action, t: State)
    requires Step(s, a, t) && IsHandAction(a)
    ensures t.plan == s.plan && t.dbOpen == s.dbOpen && t.tasksStopped == s.tasksStopped
    ensures t.historyStopped == s.historyStopped && t.closed == s.closed
    ensures t.history.closed == s.history.closed && t.history.workers == s.history.workers
  {
    if a.Record? { RecordLeavesCleanup(s, a.w, a.saveErr, t); }
    else if a.Acquire? || a.GiveUp? || a.Call? || a.Release? { RunLeavesOthers(s, a, t); }
    else if a.Begin? || a.End? { WriteLeavesOthers(s, a, t); }
    else { TurnLeavesOthers(s, a, t); }
  }

  lemma RunLeavesOthers(s: State, a: Action, t: State)
    requires Step(s, a, t) && (a.Acquire? || a.GiveUp? || a.Call? || a.Release?)
    ensures t == s.(hands := t.hands, permits := t.permits, reached := t.reached)
  {
  }

  lemma WriteLeavesOthers(s: State, a: Action, t: State)
    requires Step(s, a, t) && (a.Begin? || a.End?)
    ensures t == s.(tasks := t.tasks, hands := t.hands, finished := t.finished)
  {
  }

  lemma TurnLeavesOthers(s: State, a: Action, t: State)
    requires Step(s, a, t) && (a.Fetch? || a.Check? || a.Exit?)
    ensures t == s.(queue := t.queue, hands := t.hands, finished := t.finished)
  {
    if a.Check? { CheckTouchesOwn(s, a.w, t); }
  }

  lemma RecordLeavesCleanup(s: State, w: nat, saveErr: Err, t: State)
    requires Step(s, Record(w, saveErr), t)
    ensures t.plan == s.plan && t.dbOpen == s.dbOpen && t.tasksStopped == s.tasksStopped
    ensures t.historyStopped == s.historyStopped && t.closed == s.closed
    ensures t.history.closed == s.history.closed && t.history.workers == s.history.workers
  {
  }

  lemma ClosedStays(s: State, a: Action, t: State)
    requires Step(s, a, t) && !a.CleanupStep?
    ensures t.plan == s.plan && t.dbOpen == s.dbOpen && t.tasksStopped == s.tasksStopped
    ensures t.historyStopped == s.historyStopped && t.closed == s.closed && t.history.closed == s.history.closed
  {
    if IsHandAction(a) { HandLeavesCleanup(s, a, t); }
  }

  lemma PlanShrinks(plan: seq<Cleanup>, ts: bool, hs: bool)
    requires PlanOk(plan, ts, hs) && plan != []
    ensures PlanOk(plan[1..], ts || plan[0] == StopTasks, hs || plan[0] == StopHistory)
    ensures plan[0] == CloseDb ==> ts && hs
    ensures CloseDb in plan && plan[0] != CloseDb ==> CloseDb in plan[1..]
  {
    forall i | 0 <= i < |plan[1..]| && plan[1..][i] == CloseDb
      ensures ts || plan[0] == StopTasks || StopTasks in plan[1..][..i]
      ensures hs || plan[0] == StopHistory || StopHistory in plan[1..][..i]
    {
      assert plan[..i + 1] == [plan[0]] + plan[1..][..i];
    }
  }

  lemma CleanupKeepsStopped(s: State, t: State)
    requires CleanupOk(s) && s.plan != [] && CleanupDoes(s, t)
    ensures CleanupOk(t)
  {
    PlanShrinks(s.plan, s.tasksStopped, s.historyStopped);
    CleanupTouches(s, t);
  }

  lemma OthersKeepStopped(s: State, a: Action, t: State)
    requires CleanupOk(s) && Step(s, a, t) && !a.CleanupStep?
    ensures CleanupOk(t)
  {
    ClosedStays(s, a, t);
    if s.tasksStopped { ExitedStays(s, a, t); }
    if s.historyStopped { DrainedStays(s, a, t); }
  }

  // While a worker or the history queue can still hand over a record, the database is open.
  lemma StepKeepsOpen(s: State, a: Action, t: State)
    requires s in SAFE && s in STOPPED && Step(s, a, t)
    ensures OpenOk(t.tasks.Keys, t.handed)
  {
    if a.Record? {
      TaskRecordMeetsOpen(s, a.w, a.saveErr, t);
    } else if IsHandAction(a) {
      OthersHandNothing(s, a, t);
    } else if a.History? {
      QueuedRecordMeetsOpen(s, a.action, t);
    } else if a.CallerRecord? || a.Submit? {
      StrangersKeepOpen(s, a, t);
    } else if a.CleanupStep? {
      CleanupTouches(s, t);
    }
  }

  lemma TaskRecordMeetsOpen(s: State, w: nat, saveErr: Err, t: State)
    requires s in SAFE && s in STOPPED && Step(s, Record(w, saveErr), t)
    ensures OpenOk(t.tasks.Keys, t.handed)
  {
    hide WorkOk, HistoryOk, PlanOk;
    CallerIsAlive(s, w, saveErr, t);
    assert s.dbOpen;
  }

  lemma OthersHandNothing(s: State, a: Action, t: State)
    requires s in STOPPED && Step(s, a, t) && IsHandAction(a) && !a.Record?
    ensures OpenOk(t.tasks.Keys, t.handed)
  {
    hide CleanupOk;
    if a.Begin? || a.End? { WriteLeavesOthers(s, a, t); }
    else if a.Fetch? || a.Check? || a.Exit? { TurnLeavesOthers(s, a, t); }
    else { RunLeavesOthers(s, a, t); }
    assert t.handed == s.handed && t.tasks.Keys == s.tasks.Keys by { if a.Begin? || a.End? { WriteKeepsKeys(s, a, t); } }
  }

  lemma WriteKeepsKeys(s: State, a: Action, t: State)
    requires Step(s, a, t) && (a.Begin? || a.End?)
    ensures t.tasks.Keys == s.tasks.Keys
  {
  }

  lemma QueuedRecordMeetsOpen(s: State, b: Q.Action, t: State)
    requires s in STOPPED && HistoryStep(s, b, t)
    ensures OpenOk(t.tasks.Keys, t.handed)
  {
    hide PlanOk;
    if b.Finish? {
      assert !Q.Drained(s.history) by { assert s.history.workers[b.w].Running?; }
    }
  }

  // A synchronous caller is no task, and a new task has no record.
  lemma StrangersKeepOpen(s: State, a: Action, t: State)
    requires s in SAFE && s in STOPPED && Step(s, a, t) && (a.CallerRecord? || a.Submit?)
    ensures OpenOk(t.tasks.Keys, t.handed)
  {
    hide WorkOk, CleanupOk;
  }

  lemma StepKeepsStopped(s: State, a: Action, t: State)
    requires s in SAFE && s in STOPPED && Step(s, a, t)
    ensures t in STOPPED
  {
    if a.CleanupStep? { CleanupKeepsStopped(s, t); } else { OthersKeepStopped(s, a, t); }
    StepKeepsOpen(s, a, t);
  }

  lemma {:induction false} RunStopped(states: seq<State>, actions: seq<Action>, i: nat)
    requires IsRun(states, actions) && i < |states|
    requires CloseDb in states[0].plan && PlanOk(states[0].plan, false, states[0].historyStopped)
    ensures states[i] in STOPPED
  {
    hide Step;
    if i == 0 {
      assert states[0].historyStopped ==> Q.Drained(states[0].history);
    } else {
      RunStopped(states, actions, i - 1);
      RunSafe(states, actions, i - 1);
      StepKeepsStopped(states[i - 1], actions[i - 1], states[i]);
    }
  }

  // Once cleanup has gone through a plan that closes the database last, every task accepted in the run is finished
  // with a terminal status, and every one of its runs that called its tool has had its record handed to the
  // database sink, while the database was open; by HandedOnce no record was handed over twice.
  lemma AfterCleanup(states: seq<State>, actions: seq<Action>, i: nat, id: Id)
    requires IsRun(states, actions) && i < |states| && states[i].plan == []
    requires CloseDb in states[0].plan && PlanOk(states[0].plan, false, states[0].historyStopped)
    requires id in states[i].tasks
    ensures var s := states[i];
            && id in s.finished && IsTerminal(s.tasks[id].status)
            && (id in s.reached <==> id in s.handed)
            && (id in s.handed ==> s.handed[id])
  {
    RunStopped(states, actions, i);
    RunSafe(states, actions, i);
    StoppedIsComplete(states[i], id);
  }

  lemma StoppedIsComplete(s: State, id: Id)
    requires s in SAFE && s in STOPPED && s.plan == [] && id in s.tasks
    ensures id in s.finished && IsTerminal(s.tasks[id].status)
    ensures id in s.reached <==> id in s.handed
    ensures id in s.handed ==> s.handed[id]
  {
    assert s.hands[0] == Exited;
    assert !HeldBy(s.hands, id);
    assert !InCall(s.hands, s.callers, id);
    Q.DrainedRanAll(s.history);
  }

  lemma {:induction false} HistoryClosesLast(states: seq<State>, actions: seq<Action>, i: nat)
    requires IsRun(states, actions) && i < |states|
    requires !states[0].historyStopped && TasksStopFirst(states[0].plan, false)
    ensures TasksStopFirst(states[i].plan, states[i].tasksStopped)
    ensures states[i].history.closed ==> states[i].tasksStopped
  {
    hide Step, TasksStopFirst;
    if i == 0 {
    } else {
      HistoryClosesLast(states, actions, i - 1);
      StepStopsTasksFirst(states[i - 1], actions[i - 1], states[i]);
    }
  }

  lemma StepStopsTasksFirst(s: State, a: Action, t: State)
    requires Step(s, a, t) && TasksStopFirst(s.plan, s.tasksStopped) && (s.history.closed ==> s.tasksStopped)
    ensures TasksStopFirst(t.plan, t.tasksStopped) && (t.history.closed ==> t.tasksStopped)
  {
    if a.CleanupStep? { CleanupStopsTasksFirst(s, t); } else { ClosedStays(s, a, t); }
  }

  lemma CleanupStopsTasksFirst(s: State, t: State)
    requires s.plan != [] && CleanupDoes(s, t)
    requires TasksStopFirst(s.plan, s.tasksStopped) && (s.history.closed ==> s.tasksStopped)
    ensures TasksStopFirst(t.plan, t.tasksStopped) && (t.history.closed ==> t.tasksStopped)
  {
    forall i | 0 <= i < |s.plan[1..]| && s.plan[1..][i] == StopHistory
      ensures s.tasksStopped || s.plan[0] == StopTasks || StopTasks in s.plan[1..][..i]
    {
      assert s.plan[..i + 1] == [s.plan[0]] + s.plan[1..][..i];
    }
  }

  // With a history queue that stops after the task workers, the record of a task never meets a stopped queue:
  // it is queued, and written at once only when the queue is full.
  lemma TaskRecordsAreQueued(states: seq<State>, actions: seq<Action>, i: nat)
    requires IsRun(states, actions) && i < |actions| && actions[i].Record?
    requires !states[0].historyStopped && TasksStopFirst(states[0].plan, false)
    requires CloseDb in states[0].plan && PlanOk(states[0].plan, false, false)
    ensures !states[i].history.closed
    ensures HandedBy(states[i], actions[i]) == {} <==> |states[i].history.jobs| < states[i].history.capacity
  {
    HistoryClosesLast(states, actions, i);
    RunStopped(states, actions, i);
    CallerIsAlive(states[i], actions[i].w, actions[i].saveErr, states[i + 1]);
  }

  lemma CallerIsAlive(s: State, w: nat, saveErr: Err, t: State)
    requires Step(s, Record(w, saveErr), t)
    ensures w < |s.hands| && s.hands[w].Called? && !AllExited(s.hands)
  {
  }

  // ---------- what does not hold ----------

  // A history queue with one worker, or one that is switched off.
  function OneWorker(off: bool): Q.Queue {
    Q.Queue(1, off, [], [if off then Q.Exited else Q.Idle], 0, 0, 0, {}, map[])
  }

  // One worker, no limit, nothing submitted yet.
  function Bare(plan: seq<Cleanup>, off: bool): State {
    State(0, 0, 1, false, [], map[], [Idle], map[], OneWorker(off), true, plan, false, off, {}, {}, {}, map[])
  }

  // Its worker has taken the one task there is.
  lemma Started(plan: seq<Cleanup>, off: bool, task: Task) returns (states: seq<State>, actions: seq<Action>)
    requires task == Task(Pending, false, Live, false)
    ensures IsRun(states, actions) && |actions| == 3 && states[0] == Bare(plan, off)
    ensures states[3] == Bare(plan, off).(tasks := map[7 := task], hands := [Checked(7)])
  {
    var s0 := Bare(plan, off);
    var s1 := s0.(queue := [7], tasks := map[7 := task]);
    var s2 := s1.(queue := [], hands := [Fetched(7)]);
    states := [s0, s1, s2, s2.(hands := [Checked(7)])];
    actions := [Submit(7, false), Fetch(0), Check(0)];
  }

  lemma Extended(states: seq<State>, actions: seq<Action>, a: Action, t: State)
    requires IsRun(states, actions) && Step(states[|actions|], a, t)
    ensures IsRun(states + [t], actions + [a])
  {
  }

  // A cancelled task may still be run: the cancellation comes between the worker's two looks at the task.
  lemma CancelledMayStillRun() returns (states: seq<State>, actions: seq<Action>)
    ensures IsRun(states, actions) && |actions| == 5
    ensures 7 in states[4].tasks && states[4].tasks[7].status == Cancelled
    ensures 7 in states[5].tasks && states[5].tasks[7].status == Running
  {
    var task := Task(Pending, false, Live, false);
    states, actions := Started([], true, task);
    var s4 := states[3].(tasks := map[7 := CancelTask(task)]);
    var s5 := s4.(tasks := map[7 := CancelTask(task).(status := Running)], hands := [Waiting(7)]);
    Extended(states, actions, Cancel(7), s4);
    Extended(states + [s4], actions + [Cancel(7)], Begin(0), s5);
    states, actions := states + [s4] + [s5], actions + [Cancel(7)] + [Begin(0)];
  }
}
