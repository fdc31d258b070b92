/** A worker left alone in the execution machine does to the tasks and permits what Manager.WorkOne does. */
module TaskManagerRefines {
  import opened Execution
  import opened ExecutionInvariants
  import T = TaskManager

  ghost predicate IsPath(states: seq<State>, actions: seq<Action>) {
    |states| == |actions| + 1 && forall i | 0 <= i < |actions| :: Step(states[i], actions[i], states[i + 1])
  }

  lemma Extended(states: seq<State>, actions: seq<Action>, a: Action, t: State)
    requires IsPath(states, actions) && Step(states[|actions|], a, t)
    ensures IsPath(states + [t], actions + [a])
  {
  }

  // Nothing but the tasks, the queue and what remembers the past has changed.
  predicate LeftAsFound(s: State, t: State) {
    && t.hands == s.hands && t.permits == s.permits && t.limit == s.limit && t.callers == s.callers
    && t.closed == s.closed && t.plan == s.plan && t.dbOpen == s.dbOpen
  }

  // Taking a task that needs no work: its worker goes back for the next.
  lemma SkipsAlone(s: State, w: nat) returns (states: seq<State>, actions: seq<Action>)
    requires s in SAFE && w < |s.hands| && s.hands[w].Idle? && s.queue != []
    requires s.queue[0] in s.tasks && IsTerminal(s.tasks[s.queue[0]].status)
    ensures IsPath(states, actions) && states[0] == s
    ensures var t := states[|actions|];
            LeftAsFound(s, t) && t.queue == s.queue[1..] && t.tasks == s.tasks && t.finished == s.finished + {s.queue[0]}
            && t.reached == s.reached
  {
    hide WorkOk, HistoryOk;
    var s1 := s.(queue := s.queue[1..], hands := s.hands[w := Fetched(s.queue[0])]);
    var s2 := s1.(hands := s1.hands[w := Idle], finished := s.finished + {s.queue[0]});
    assert s2.hands == s.hands;
    Extended([s], [], Fetch(w), s1);
    Extended([s] + [s1], [] + [Fetch(w)], Check(w), s2);
    states, actions := [s] + [s1] + [s2], [] + [Fetch(w)] + [Check(w)];
  }

  lemma ReachesPermits(s: State, w: nat) returns (states: seq<State>, actions: seq<Action>)
    requires s in SAFE && w < |s.hands| && s.hands[w].Idle? && s.queue != []
    requires s.queue[0] in s.tasks && !IsTerminal(s.tasks[s.queue[0]].status)
    ensures IsPath(states, actions) && states[0] == s
    ensures var id := s.queue[0];
            states[|actions|] == s.(queue := s.queue[1..], hands := s.hands[w := Waiting(id)],
                                    tasks := s.tasks[id := s.tasks[id].(status := Running)])
  {
    hide WorkOk, HistoryOk;
    var id := s.queue[0];
    var s1 := s.(queue := s.queue[1..], hands := s.hands[w := Fetched(id)]);
    var s2 := s1.(hands := s1.hands[w := Checked(id)]);
    var s3 := s2.(tasks := s.tasks[id := s.tasks[id].(status := Running)], hands := s2.hands[w := Waiting(id)]);
    assert s3.hands == s.hands[w := Waiting(id)];
    states, actions := [s], [];
    Extended(states, actions, Fetch(w), s1);
    states, actions := states + [s1], actions + [Fetch(w)];
    Extended(states, actions, Check(w), s2);
    states, actions := states + [s2], actions + [Check(w)];
    Extended(states, actions, Begin(w), s3);
    states, actions := states + [s3], actions + [Begin(w)];
  }

  lemma StartsAlone(s: State, w: nat) returns (states: seq<State>, actions: seq<Action>)
    requires s in SAFE && w < |s.hands| && s.hands[w].Idle? && s.queue != []
    requires s.queue[0] in s.tasks && !IsTerminal(s.tasks[s.queue[0]].status) && CanAcquire(s.limit, s.permits)
    ensures IsPath(states, actions) && states[0] == s
    ensures var id := s.queue[0];
            states[|actions|] == s.(queue := s.queue[1..], hands := s.hands[w := Holding(id)],
                                    tasks := s.tasks[id := s.tasks[id].(status := Running)],
                                    permits := Taken(s.limit, s.permits))
  {
    var id := s.queue[0];
    states, actions := ReachesPermits(s, w);
    var s3 := states[|actions|];
    var s4 := s3.(permits := Taken(s.limit, s.permits), hands := s3.hands[w := Holding(id)]);
    assert s4.hands == s.hands[w := Holding(id)];
    Extended(states, actions, Acquire(w), s4);
    states, actions := states + [s4], actions + [Acquire(w)];
  }

  lemma EndsAlone(states: seq<State>, actions: seq<Action>, w: nat, id: Id, err: Err)
    returns (longer: seq<State>, more: seq<Action>)
    requires IsPath(states, actions)
    requires var s := states[|actions|];
             w < |s.hands| && s.hands[w] == Holding(id) && id in s.tasks && id !in s.history.accepted
    ensures IsPath(longer, more) && longer[0] == states[0]
    ensures var s, t := states[|actions|], longer[|more|];
            && t.hands == s.hands[w := Idle] && t.permits == Returned(s.limit, s.permits)
            && t == s.(tasks := s.tasks[id := s.tasks[id].(status := FinalStatus(err))], hands := t.hands,
                       permits := t.permits, reached := s.reached + {id}, finished := s.finished + {id},
                       history := t.history, direct := t.direct, handed := t.handed)
  {
    var s := states[|actions|];
    var s1 := s.(reached := s.reached + {id}, hands := s.hands[w := Called(id, err)]);
    var s2 := s1.(history := Offered(s.history, id), direct := Direct(s1, id), handed := Handed(s1, id),
                  hands := s1.hands[w := Recorded(id, err)]);
    var s3 := s2.(permits := Returned(s.limit, s.permits), hands := s2.hands[w := Ending(id, err)]);
    var s4 := s3.(tasks := s.tasks[id := s.tasks[id].(status := FinalStatus(err))], hands := s3.hands[w := Idle],
                  finished := s.finished + {id});
    assert s4.hands == s.hands[w := Idle];
    longer, more := states, actions;
    Extended(longer, more, Call(w, err), s1);
    longer, more := longer + [s1], more + [Call(w, err)];
    Extended(longer, more, Record(w, NoError), s2);
    longer, more := longer + [s2], more + [Record(w, NoError)];
    Extended(longer, more, Release(w), s3);
    longer, more := longer + [s3], more + [Release(w)];
    Extended(longer, more, End(w), s4);
    longer, more := longer + [s4], more + [End(w)];
  }

  // No permit in time: the worker leaves with the error of the task's context.
  lemma GivesUpAlone(s: State, w: nat) returns (states: seq<State>, actions: seq<Action>)
    requires s in SAFE && w < |s.hands| && s.hands[w].Idle? && s.queue != [] && s.limit > 0
    requires s.queue[0] in s.tasks && !IsTerminal(s.tasks[s.queue[0]].status) && s.tasks[s.queue[0]].ctx != Live
    ensures IsPath(states, actions) && states[0] == s
    ensures var id, t := s.queue[0], states[|actions|];
            && LeftAsFound(s, t) && t.queue == s.queue[1..] && id in t.finished && t.reached == s.reached
            && t.tasks == s.tasks[id := T.Worked(s.tasks[id], CtxError(s.tasks[id].ctx))]
  {
    hide Step;
    var id := s.queue[0];
    states, actions := ReachesPermits(s, w);
    states, actions := LeavesWaiting(states, actions, w, id);
    assert states[|actions|].hands == s.hands;
  }

  lemma LeavesWaiting(states: seq<State>, actions: seq<Action>, w: nat, id: Id)
    returns (longer: seq<State>, more: seq<Action>)
    requires IsPath(states, actions)
    requires var s := states[|actions|];
             w < |s.hands| && s.hands[w] == Waiting(id) && id in s.tasks && s.tasks[id].ctx != Live && s.limit > 0
    ensures IsPath(longer, more) && longer[0] == states[0]
    ensures var s := states[|actions|];
            longer[|more|] == s.(tasks := s.tasks[id := s.tasks[id].(status := FinalStatus(CtxError(s.tasks[id].ctx)))],
                                 hands := s.hands[w := Idle], finished := s.finished + {id})
  {
    var s := states[|actions|];
    var err := CtxError(s.tasks[id].ctx);
    var s1 := s.(hands := s.hands[w := Ending(id, err)]);
    var s2 := s1.(tasks := s.tasks[id := s.tasks[id].(status := FinalStatus(err))], hands := s1.hands[w := Idle],
                  finished := s.finished + {id});
    assert s2.hands == s.hands[w := Idle];
    Extended(states, actions, GiveUp(w), s1);
    Extended(states + [s1], actions + [GiveUp(w)], End(w), s2);
    longer, more := states + [s1] + [s2], actions + [GiveUp(w)] + [End(w)];
  }

  // Whenever one turn of the object's worker can be taken, the machine has a path on which only this worker moves,
  // which makes or omits the call with the same outcome, leaves the tasks alike, and returns every permit.
  lemma WorksAlone(s: State, w: nat, slotFirst: bool, err: Err)
    returns (states: seq<State>, actions: seq<Action>, called: bool, outcome: Err)
    requires s in SAFE && w < |s.hands| && s.hands[w].Idle? && s.queue != [] && s.queue[0] in s.tasks
    requires var t := s.tasks[s.queue[0]]; IsTerminal(t.status) || CanAcquire(s.limit, s.permits) || t.ctx != Live
    ensures IsPath(states, actions) && states[0] == s
    ensures var id, t := s.queue[0], states[|actions|];
            && LeftAsFound(s, t) && t.queue == s.queue[1..] && id in t.finished
            && t.tasks == s.tasks[id := T.Worked(s.tasks[id], outcome)]
            && t.reached == (if called then s.reached + {id} else s.reached)
    ensures var t := s.tasks[s.queue[0]];
            && (called <==> !IsTerminal(t.status) && CanAcquire(s.limit, s.permits) && (t.ctx == Live || slotFirst || s.limit == 0))
            && (called ==> outcome == err)
            && (!called ==> IsTerminal(t.status) || (outcome != NoError && outcome == CtxError(t.ctx)))
  {
    hide Step;
    var id := s.queue[0];
    var t := s.tasks[id];
    outcome := err;
    if IsTerminal(t.status) {
      states, actions := SkipsAlone(s, w);
      called := false;
      assert s.tasks == s.tasks[id := t];
    } else if CanAcquire(s.limit, s.permits) && (t.ctx == Live || slotFirst || s.limit == 0) {
      states, actions := CallsAlone(s, w, err);
      called := true;
    } else {
      states, actions := GivesUpAlone(s, w);
      called, outcome := false, CtxError(t.ctx);
    }
  }

  lemma CallsAlone(s: State, w: nat, err: Err) returns (states: seq<State>, actions: seq<Action>)
    requires s in SAFE && w < |s.hands| && s.hands[w].Idle? && s.queue != []
    requires s.queue[0] in s.tasks && !IsTerminal(s.tasks[s.queue[0]].status) && CanAcquire(s.limit, s.permits)
    ensures IsPath(states, actions) && states[0] == s
    ensures var id, t := s.queue[0], states[|actions|];
            && LeftAsFound(s, t) && t.queue == s.queue[1..] && id in t.finished && t.reached == s.reached + {id}
            && t.tasks == s.tasks[id := T.Worked(s.tasks[id], err)]
  {
    hide Step;
    QueuedIsNew(s);
    states, actions := StartsAlone(s, w);
    states, actions := EndsAlone(states, actions, w, s.queue[0], err);
    var t := states[|actions|];
    assert t.hands == s.hands;
    assert t.tasks == s.tasks[s.queue[0] := T.Worked(s.tasks[s.queue[0]], err)];
  }

  lemma QueuedIsNew(s: State)
    requires s in SAFE && s.queue != []
    ensures s.queue[0] in s.tasks && s.queue[0] !in s.history.accepted
  {
  }
}
