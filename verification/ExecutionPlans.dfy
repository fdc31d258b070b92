/** In which order cleanup must go: exactly the plans that close the database last lose no record. */
module ExecutionPlans {
  import opened Execution
  import opened ExecutionInvariants
  import opened ExecutionTheorems
  import Q = BackgroundQueue

  // ---------- cleanup steps of a state in which nothing is left to wait for ----------

  predicate TasksReady(s: State) {
    (s.hands == [Idle] && s.queue == []) || (s.hands == [Exited] && s.closed)
  }

  predicate HistoryReady(q: Q.Queue) {
    (q.workers == [Q.Idle] && q.jobs == []) || (q.workers == [Q.Exited] && q.closed)
  }

  predicate Ready(s: State, items: seq<Cleanup>) {
    (StopTasks in items ==> TasksReady(s)) && (StopHistory in items ==> HistoryReady(s.history))
  }

  // The first `n` items of the plan are done, and nothing else has happened.
  ghost predicate Cleaned(s: State, t: State, n: nat)
    requires n <= |s.plan|
  {
    && t == s.(plan := s.plan[n..], dbOpen := s.dbOpen && CloseDb !in s.plan[..n],
               closed := t.closed, hands := t.hands, tasksStopped := t.tasksStopped, historyStopped := t.historyStopped,
               history := s.history.(closed := t.history.closed, workers := t.history.workers))
    && (StopTasks !in s.plan[..n] ==> t.hands == s.hands)
    && (if StopHistory in s.plan[..n] then t.history.closed else t.history == s.history)
  }

  lemma TasksStop(states: seq<State>, actions: seq<Action>) returns (longer: seq<State>, more: seq<Action>)
    requires IsRun(states, actions)
    requires var s := states[|actions|]; s.plan != [] && s.plan[0] == StopTasks && TasksReady(s)
    ensures IsRun(longer, more) && longer[0] == states[0]
    ensures var s := states[|actions|];
            longer[|more|] == s.(plan := s.plan[1..], closed := true, hands := [Exited], tasksStopped := true)
  {
    var s := states[|actions|];
    longer, more := states, actions;
    if s.hands == [Idle] {
      if !s.closed {
        Extended(longer, more, CleanupStep, s.(closed := true));
        longer, more := longer + [s.(closed := true)], more + [CleanupStep];
      }
      var gone := s.(closed := true, hands := [Exited]);
      Extended(longer, more, Exit(0), gone);
      longer, more := longer + [gone], more + [Exit(0)];
    }
    var done := s.(plan := s.plan[1..], closed := true, hands := [Exited], tasksStopped := true);
    Extended(longer, more, CleanupStep, done);
    longer, more := longer + [done], more + [CleanupStep];
  }

  // Stopping the history queue closes it, ...
  lemma HistoryShuts(states: seq<State>, actions: seq<Action>) returns (longer: seq<State>, more: seq<Action>)
    requires IsRun(states, actions)
    requires var s := states[|actions|]; s.plan != [] && s.plan[0] == StopHistory
    ensures IsRun(longer, more) && longer[0] == states[0]
    ensures var s := states[|actions|]; longer[|more|] == s.(history := s.history.(closed := true))
  {
    var s := states[|actions|];
    if s.history.closed {
      longer, more := states, actions;
    } else {
      var shut := s.(history := s.history.(closed := true));
      Extended(states, actions, CleanupStep, shut);
      longer, more := states + [shut], actions + [CleanupStep];
    }
  }

  // ... waits for its worker to leave, ...
  lemma HistoryLeaves(states: seq<State>, actions: seq<Action>) returns (longer: seq<State>, more: seq<Action>)
    requires IsRun(states, actions)
    requires var s := states[|actions|]; HistoryReady(s.history) && s.history.closed
    ensures IsRun(longer, more) && longer[0] == states[0]
    ensures var s := states[|actions|]; longer[|more|] == s.(history := s.history.(workers := [Q.Exited]))
  {
    var s := states[|actions|];
    if s.history.workers == [Q.Idle] {
      var gone := s.(history := s.history.(workers := [Q.Exited]));
      assert HistoryStep(s, Q.Exit(0), gone);
      Extended(states, actions, History(Q.Exit(0)), gone);
      longer, more := states + [gone], actions + [History(Q.Exit(0))];
    } else {
      longer, more := states, actions;
    }
  }

  // ... and goes on.
  lemma HistoryStops(states: seq<State>, actions: seq<Action>) returns (longer: seq<State>, more: seq<Action>)
    requires IsRun(states, actions)
    requires var s := states[|actions|]; s.plan != [] && s.plan[0] == StopHistory && HistoryReady(s.history)
    ensures IsRun(longer, more) && longer[0] == states[0]
    ensures var s := states[|actions|];
            longer[|more|] == s.(plan := s.plan[1..], history := s.history.(closed := true, workers := [Q.Exited]),
                                 historyStopped := true)
  {
    longer, more := HistoryShuts(states, actions);
    longer, more := HistoryLeaves(longer, more);
    var gone := longer[|more|];
    var done := gone.(plan := gone.plan[1..], historyStopped := true);
    Extended(longer, more, CleanupStep, done);
    longer, more := longer + [done], more + [CleanupStep];
  }

  lemma ItemPasses(states: seq<State>, actions: seq<Action>) returns (longer: seq<State>, more: seq<Action>)
    requires IsRun(states, actions)
    requires var s := states[|actions|]; s.plan != [] && Ready(s, s.plan[..1])
    ensures IsRun(longer, more) && longer[0] == states[0]
    ensures Cleaned(states[|actions|], longer[|more|], 1)
    ensures TasksReady(states[|actions|]) ==> TasksReady(longer[|more|])
    ensures HistoryReady(states[|actions|].history) ==> HistoryReady(longer[|more|].history)
  {
    var s := states[|actions|];
    assert s.plan[..1] == [s.plan[0]];
    if s.plan[0] == StopTasks {
      longer, more := TasksStop(states, actions);
    } else if s.plan[0] == StopHistory {
      longer, more := HistoryStops(states, actions);
    } else {
      var t := s.(plan := s.plan[1..], dbOpen := s.dbOpen && s.plan[0] != CloseDb);
      Extended(states, actions, CleanupStep, t);
      longer, more := states + [t], actions + [CleanupStep];
    }
  }

  lemma CleanedTogether(s: State, t: State, u: State, n: nat)
    requires 0 < n <= |s.plan| && Cleaned(s, t, 1) && Cleaned(t, u, n - 1)
    ensures Cleaned(s, u, n)
  {
    assert s.plan[..n] == s.plan[..1] + t.plan[..n - 1];
    assert s.plan[1..][n - 1..] == s.plan[n..];
  }

  lemma {:induction false} CleanupPasses(states: seq<State>, actions: seq<Action>, n: nat)
    returns (longer: seq<State>, more: seq<Action>)
    requires IsRun(states, actions)
    requires var s := states[|actions|]; n <= |s.plan| && Ready(s, s.plan[..n])
    ensures IsRun(longer, more) && longer[0] == states[0]
    ensures Cleaned(states[|actions|], longer[|more|], n)
    decreases n
  {
    hide Step;
    if n == 0 {
      longer, more := states, actions;
    } else {
      var s := states[|actions|];
      assert s.plan[..n] == s.plan[..1] + s.plan[1..][..n - 1];
      longer, more := ItemPasses(states, actions);
      var t := longer[|more|];
      longer, more := CleanupPasses(longer, more, n - 1);
      CleanedTogether(s, t, longer[|more|], n);
    }
  }

  // ---------- records that come too late ----------

  // The one worker is in the middle of the task's call.
  lemma Calling(plan: seq<Cleanup>, off: bool, task: Task) returns (states: seq<State>, actions: seq<Action>)
    requires task == Task(Pending, false, Live, false)
    ensures IsRun(states, actions) && states[0] == Bare(plan, off)
    ensures states[|actions|] == Bare(plan, off).(tasks := map[7 := task.(status := Running)], reached := {7},
                                                  hands := [Called(7, NoError)])
  {
    states, actions := Started(plan, off, task);
    var s4 := states[3].(tasks := map[7 := task.(status := Running)], hands := [Waiting(7)]);
    var s5 := s4.(hands := [Holding(7)]);
    var s6 := s5.(reached := {7}, hands := [Called(7, NoError)]);
    Extended(states, actions, Begin(0), s4);
    states, actions := states + [s4], actions + [Begin(0)];
    Extended(states, actions, Acquire(0), s5);
    states, actions := states + [s5], actions + [Acquire(0)];
    Extended(states, actions, Call(0, NoError), s6);
    states, actions := states + [s6], actions + [Call(0, NoError)];
  }

  // It records the call, in the queue if that is on, and goes back for the next task.
  lemma Recording(plan: seq<Cleanup>, task: Task) returns (states: seq<State>, actions: seq<Action>)
    requires task == Task(Pending, false, Live, false)
    ensures IsRun(states, actions) && states[0] == Bare(plan, false)
    ensures states[|actions|] == Bare(plan, false).(
              tasks := map[7 := task.(status := Succeeded)], reached := {7}, finished := {7},
              history := OneWorker(false).(jobs := [7], accepted := {7}, sending := 1))
  {
    states, actions := Calling(plan, false, task);
    var s := states[|actions|];
    var s1 := s.(history := OneWorker(false).(jobs := [7], accepted := {7}, sending := 1), hands := [Recorded(7, NoError)]);
    var s2 := s1.(hands := [Ending(7, NoError)]);
    var s3 := s2.(hands := [Idle], finished := {7}, tasks := map[7 := task.(status := Succeeded)]);
    Extended(states, actions, Record(0, NoError), s1);
    states, actions := states + [s1], actions + [Record(0, NoError)];
    Extended(states, actions, Release(0), s2);
    states, actions := states + [s2], actions + [Release(0)];
    Extended(states, actions, End(0), s3);
    states, actions := states + [s3], actions + [End(0)];
  }

  // The database is closed while the task's tool is being called, and by then there is no queue any more.
  lemma CallEndsTooLate(plan: seq<Cleanup>, off: bool, i: nat) returns (states: seq<State>, actions: seq<Action>)
    requires i < |plan| && plan[i] == CloseDb && StopTasks !in plan[..i] && (off || StopHistory in plan[..i])
    ensures IsRun(states, actions) && states[0] == Bare(plan, off)
    ensures var s := states[|actions|]; 7 in s.tasks && 7 in s.handed && !s.handed[7]
  {
    states, actions := Calling(plan, off, Task(Pending, false, Live, false));
    assert plan[..i + 1] == plan[..i] + [CloseDb];
    states, actions := CleanupPasses(states, actions, i + 1);
    var s := states[|actions|];
    var t := s.(direct := {7}, handed := map[7 := false], hands := [Recorded(7, NoError)]);
    Extended(states, actions, Record(0, NoError), t);
    states, actions := states + [t], actions + [Record(0, NoError)];
  }

  // The one worker of the history queue takes the one record there is and hands it over.
  lemma Drains(states: seq<State>, actions: seq<Action>) returns (longer: seq<State>, more: seq<Action>)
    requires IsRun(states, actions)
    requires var q := states[|actions|].history; q.jobs == [7] && q.workers == [Q.Idle]
    ensures IsRun(longer, more) && longer[0] == states[0]
    ensures var s, t := states[|actions|], longer[|more|]; t.tasks == s.tasks && t.handed == s.handed[7 := s.dbOpen]
  {
    var s := states[|actions|];
    var s1 := s.(history := s.history.(jobs := [], workers := [Q.Running(7)]));
    var s2 := s1.(history := s1.history.(ran := s.history.ran[7 := true], workers := [Q.CountingDone(7)]),
                  handed := s.handed[7 := s.dbOpen]);
    assert HistoryStep(s, Q.Take(0), s1);
    Extended(states, actions, History(Q.Take(0)), s1);
    assert HistoryStep(s1, Q.Finish(0, true), s2);
    Extended(states + [s1], actions + [History(Q.Take(0))], History(Q.Finish(0, true)), s2);
    longer, more := states + [s1] + [s2], actions + [History(Q.Take(0))] + [History(Q.Finish(0, true))];
  }

  // The database is closed while the task's record waits in the queue.
  lemma QueueDrainsTooLate(plan: seq<Cleanup>, i: nat) returns (states: seq<State>, actions: seq<Action>)
    requires i < |plan| && plan[i] == CloseDb && StopHistory !in plan[..i]
    ensures IsRun(states, actions) && states[0] == Bare(plan, false)
    ensures var s := states[|actions|]; 7 in s.tasks && 7 in s.handed && !s.handed[7]
  {
    hide Step;
    states, actions := Recording(plan, Task(Pending, false, Live, false));
    assert plan[..i + 1] == plan[..i] + [CloseDb];
    states, actions := CleanupPasses(states, actions, i + 1);
    states, actions := Drains(states, actions);
  }

  // The order of cleanup matters: under any plan that closes the database before the tasks have stopped, or before a
  // history queue that is on has, some run hands a task's record over too late.
  lemma UnorderedPlanLosesARecord(plan: seq<Cleanup>, off: bool) returns (states: seq<State>, actions: seq<Action>)
    requires !PlanOk(plan, false, off)
    ensures IsRun(states, actions) && states[0].plan == plan && states[0].historyStopped == off
    ensures var s := states[|actions|]; 7 in s.tasks && 7 in s.handed && !s.handed[7]
  {
    var i :| 0 <= i < |plan| && plan[i] == CloseDb && !(StopTasks in plan[..i] && (off || StopHistory in plan[..i]));
    if off || StopHistory in plan[..i] {
      states, actions := CallEndsTooLate(plan, off, i);
    } else {
      states, actions := QueueDrainsTooLate(plan, i);
    }
  }

  // ---------- the exact condition ----------

  // Every record of a task that is ever handed over meets an open database.
  ghost predicate NeverLate(states: seq<State>) {
    forall i, id | 0 <= i < |states| && id in states[i].tasks && id in states[i].handed :: states[i].handed[id]
  }

  ghost predicate Follows(states: seq<State>, plan: seq<Cleanup>, off: bool) {
    |states| > 0 && states[0].plan == plan && states[0].historyStopped == off
  }

  // A plan that closes the database at all is safe in all its runs if and only if it is ordered.
  lemma OrderIsExact(plan: seq<Cleanup>, off: bool)
    requires CloseDb in plan
    ensures PlanOk(plan, false, off)
       <==> forall states, actions | IsRun(states, actions) && Follows(states, plan, off) :: NeverLate(states)
  {
    if PlanOk(plan, false, off) {
      forall states, actions | IsRun(states, actions) && Follows(states, plan, off)
        ensures NeverLate(states)
      {
        OrderedIsNeverLate(states, actions);
      }
    } else {
      var states, actions := UnorderedPlanLosesARecord(plan, off);
      assert IsRun(states, actions) && Follows(states, plan, off);
      assert !NeverLate(states) by { assert !states[|actions|].handed[7]; }
    }
  }

  lemma OrderedIsNeverLate(states: seq<State>, actions: seq<Action>)
    requires IsRun(states, actions)
    requires CloseDb in states[0].plan && PlanOk(states[0].plan, false, states[0].historyStopped)
    ensures NeverLate(states)
  {
    hide Step, PlanOk;
    forall i | 0 <= i < |states|
      ensures OpenOk(states[i].tasks.Keys, states[i].handed)
    {
      RunStopped(states, actions, i);
    }
  }
}
