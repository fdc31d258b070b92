/** Where the status of a finished task comes from: the errors of its call and of its record, or the end of its context. */
module ExecutionOutcomes {
  import opened Execution
  import opened ExecutionInvariants
  import opened ExecutionSteps
  import opened ExecutionTheorems
  import Q = BackgroundQueue

  // ---------- one step on its own ----------

  // A worker takes up the tool call of a task, which returns `err`.
  predicate Calls(s: State, a: Action, id: Id, err: Err) {
    a.Call? && a.w < |s.hands| && s.hands[a.w] == Holding(id) && a.err == err
  }

  // It records the call; an error of the record takes the place of the call's own.
  predicate Records(s: State, a: Action, id: Id, err: Err, left: Err) {
    a.Record? && a.w < |s.hands| && s.hands[a.w] == Called(id, err) && left == (if a.saveErr == NoError then err else a.saveErr)
  }

  // It stops waiting for a slot because the context of the task is over.
  predicate GivesUp(s: State, a: Action, id: Id, ctx: Ctx) {
    a.GiveUp? && a.w < |s.hands| && s.hands[a.w] == Waiting(id) && id in s.tasks && ctx != Live && s.tasks[id].ctx == ctx
  }

  // It finds the task cancelled and puts it aside.
  predicate Skips(s: State, a: Action, id: Id) {
    a.Check? && a.w < |s.hands| && s.hands[a.w] == Fetched(id) && id in s.tasks && s.tasks[id].status == Cancelled
  }

  // The status that tells of an error.
  predicate Tells(status: Status, err: Err) {
    && (status == Succeeded <==> err == NoError)
    && (status == Failed <==> err == OtherError)
    && (status == Cancelled <==> err == CanceledError)
    && (status == TimedOut <==> err == DeadlineError)
  }

  // Submitting: a task is taken, pending and last in the queue, exactly if tasks have not been stopped and there is room.
  lemma SubmitEffects(s: State, t: State, id: Id, hasDeadline: bool)
    requires Step(s, Submit(id, hasDeadline), t)
    ensures id !in s.tasks
    ensures if !s.closed && |s.queue| < s.capacity then
              && t.queue == s.queue + [id] && t.tasks.Keys == s.tasks.Keys + {id}
              && t.tasks[id] == Task(Pending, false, Live, hasDeadline) && forall x | x in s.tasks :: t.tasks[x] == s.tasks[x]
            else t == s
  {
  }

  // Cancelling: a task that has ended stays as it is, a pending one is over, a running one is asked to stop.
  lemma CancelEffects(s: State, t: State, id: Id)
    requires Step(s, Cancel(id), t)
    ensures id in s.tasks && id in t.tasks && forall x | x in s.tasks && x != id :: x in t.tasks && t.tasks[x] == s.tasks[x]
    ensures var before, after := s.tasks[id], t.tasks[id];
            if before.status in {Pending, Running} then
              && after.cancelRequested && after.status == (if before.status == Pending then Cancelled else Running)
              && after.ctx == (if before.ctx == Live then CtxCanceled else before.ctx) && after.hasDeadline == before.hasDeadline
            else after == before
  {
  }

  // A deadline ends the context of a task that has one, and nothing else.
  lemma ExpireEffects(s: State, t: State, id: Id)
    requires Step(s, Expire(id), t)
    ensures id in s.tasks && id in t.tasks && forall x | x in s.tasks && x != id :: x in t.tasks && t.tasks[x] == s.tasks[x]
    ensures var before, after := s.tasks[id], t.tasks[id];
            && after.status == before.status && after.cancelRequested == before.cancelRequested
            && after.hasDeadline == before.hasDeadline
            && after.ctx == (if before.ctx == Live && before.hasDeadline then CtxExpired else before.ctx)
  {
  }

  // ---------- what lies behind a worker's position ----------

  ghost predicate CalledWith(states: seq<State>, actions: seq<Action>, j: nat, id: Id, err: Err)
    requires j <= |actions| <= |states|
  {
    exists c {:trigger states[c]} | 0 <= c < j :: Calls(states[c], actions[c], id, err)
  }

  ghost predicate LeftWith(states: seq<State>, actions: seq<Action>, j: nat, id: Id, left: Err)
    requires j <= |actions| <= |states|
  {
    exists r: nat, err {:trigger Records(states[r], actions[r], id, err, left)} | r < j ::
      Records(states[r], actions[r], id, err, left) && CalledWith(states, actions, r, id, err)
  }

  ghost predicate GaveUp(states: seq<State>, actions: seq<Action>, j: nat, id: Id, ctx: Ctx)
    requires j <= |actions| <= |states|
  {
    exists g {:trigger states[g]} | 0 <= g < j :: GivesUp(states[g], actions[g], id, ctx)
  }

  ghost predicate Skipped(states: seq<State>, actions: seq<Action>, j: nat, id: Id)
    requires j <= |actions| <= |states|
  {
    exists k {:trigger states[k]} | 0 <= k < j :: Skips(states[k], actions[k], id)
  }

  // The error with which a worker that has given up leaves.
  predicate CtxTells(ctx: Ctx, err: Err) {
    (ctx == CtxCanceled && err == CanceledError) || (ctx == CtxExpired && err == DeadlineError)
  }

  ghost predicate HandTold(states: seq<State>, actions: seq<Action>, j: nat, h: Hand)
    requires j <= |actions| < |states|
  {
    match h
    case Called(id, err) => CalledWith(states, actions, j, id, err)
    case Recorded(id, left) => LeftWith(states, actions, j, id, left)
    case Ending(id, left) =>
      || LeftWith(states, actions, j, id, left)
      || (id !in states[j].reached && exists ctx :: CtxTells(ctx, left) && GaveUp(states, actions, j, id, ctx))
    case _ => true
  }

  lemma LaterToo(states: seq<State>, actions: seq<Action>, j: nat, id: Id)
    requires j < |actions| <= |states|
    ensures forall err | CalledWith(states, actions, j, id, err) :: CalledWith(states, actions, j + 1, id, err)
    ensures forall left | LeftWith(states, actions, j, id, left) :: LeftWith(states, actions, j + 1, id, left)
    ensures forall ctx | GaveUp(states, actions, j, id, ctx) :: GaveUp(states, actions, j + 1, id, ctx)
    ensures Skipped(states, actions, j, id) ==> Skipped(states, actions, j + 1, id)
  {
  }

  // A step moves the hand of the worker that makes it, and no other.
  lemma OthersKeepHands(s: State, a: Action, t: State, w: nat)
    requires Step(s, a, t) && w < |t.hands| && (!IsHandAction(a) || a.w != w)
    ensures w < |s.hands| && t.hands[w] == s.hands[w]
  {
    hide Step;
    if IsHandAction(a) { OnlyOwnHand(s, a, t); } else { NoHand(s, a, t); }
  }

  lemma OnlyOwnHand(s: State, a: Action, t: State)
    requires Step(s, a, t) && IsHandAction(a)
    ensures |t.hands| == |s.hands| && forall w | 0 <= w < |s.hands| && w != a.w :: t.hands[w] == s.hands[w]
  {
    hide Step;
    if a.Check? { CheckTouchesOwn(s, a.w, t); }
    else if a.Fetch? { FetchTakesFirst(s, a.w, t); }
    else if a.Begin? || a.Acquire? || a.GiveUp? || a.Call? { OnlyOwnRun(s, a, t); }
    else { OnlyOwnEnd(s, a, t); }
  }

  lemma OnlyOwnRun(s: State, a: Action, t: State)
    requires Step(s, a, t) && (a.Begin? || a.Acquire? || a.GiveUp? || a.Call?)
    ensures |t.hands| == |s.hands| && forall w | 0 <= w < |s.hands| && w != a.w :: t.hands[w] == s.hands[w]
  {
  }

  lemma OnlyOwnEnd(s: State, a: Action, t: State)
    requires Step(s, a, t) && (a.Record? || a.Release? || a.End? || a.Exit?)
    ensures |t.hands| == |s.hands| && forall w | 0 <= w < |s.hands| && w != a.w :: t.hands[w] == s.hands[w]
  {
  }

  lemma NoHand(s: State, a: Action, t: State)
    requires Step(s, a, t) && !IsHandAction(a)
    ensures t.hands == s.hands
  {
    if a.CleanupStep? { CleanupTouches(s, t); }
  }

  // How a worker comes to hold the outcome of a call.
  lemma HandMoves(s: State, a: Action, t: State)
    requires Step(s, a, t) && IsHandAction(a)
    ensures a.w < |s.hands| == |t.hands|
    ensures var h := t.hands[a.w];
            match h
            case Called(id, err) => Calls(s, a, id, err)
            case Recorded(id, left) => s.hands[a.w].Called? && Records(s, a, id, s.hands[a.w].err, left)
            case Ending(id, left) =>
              || s.hands[a.w] == Recorded(id, left)
              || (exists ctx :: CtxTells(ctx, left) && GivesUp(s, a, id, ctx))
            case _ => true
  {
    hide Step, Calls, Records, GivesUp, CtxTells;
    if a.Call? { CallMoves(s, a, t); }
    else if a.Record? { RecordMoves(s, a, t); }
    else if a.GiveUp? { GiveUpMoves(s, a, t); }
    else if a.Release? { ReleaseMoves(s, a, t); }
    else { QuietMoves(s, a, t); }
  }

  lemma CallMoves(s: State, a: Action, t: State)
    requires Step(s, a, t) && a.Call?
    ensures a.w < |s.hands| == |t.hands| && t.hands[a.w].Called? && Calls(s, a, t.hands[a.w].id, t.hands[a.w].err)
  {
  }

  lemma RecordMoves(s: State, a: Action, t: State)
    requires Step(s, a, t) && a.Record?
    ensures a.w < |s.hands| == |t.hands| && s.hands[a.w].Called? && t.hands[a.w].Recorded?
    ensures Records(s, a, t.hands[a.w].id, s.hands[a.w].err, t.hands[a.w].err)
  {
  }

  lemma GiveUpMoves(s: State, a: Action, t: State)
    requires Step(s, a, t) && a.GiveUp?
    ensures a.w < |s.hands| == |t.hands| && t.hands[a.w].Ending?
    ensures exists ctx :: CtxTells(ctx, t.hands[a.w].err) && GivesUp(s, a, t.hands[a.w].id, ctx)
  {
    var task := s.tasks[s.hands[a.w].id];
    assert CtxTells(task.ctx, CtxError(task.ctx));
  }

  lemma ReleaseMoves(s: State, a: Action, t: State)
    requires Step(s, a, t) && a.Release?
    ensures a.w < |s.hands| == |t.hands| && t.hands[a.w].Ending?
    ensures s.hands[a.w] == Recorded(t.hands[a.w].id, t.hands[a.w].err)
  {
  }

  lemma QuietMoves(s: State, a: Action, t: State)
    requires Step(s, a, t) && (a.Fetch? || a.Check? || a.Begin? || a.Acquire? || a.End? || a.Exit?)
    ensures a.w < |s.hands| == |t.hands|
    ensures !t.hands[a.w].Called? && !t.hands[a.w].Recorded? && !t.hands[a.w].Ending?
  {
  }

  // A task whose tool has not been called and that no worker is about to call stays so.
  lemma NotCalledStays(s: State, a: Action, t: State, id: Id)
    requires s in SAFE && Step(s, a, t) && id in s.tasks && id !in s.reached
    requires forall w | 0 <= w < |s.hands| :: s.hands[w] != Holding(id)
    ensures id !in t.reached
  {
    hide Step;
    CallAdds(s, a, t);
    assert Enabled(s, a) by { StepIsEnabled(s, a, t); }
    if a.CallerCall? { CallersAreNotTasks(s, a.id); }
  }

  lemma StepIsEnabled(s: State, a: Action, t: State)
    requires Step(s, a, t)
    ensures Enabled(s, a)
  {
  }

  lemma CallersAreNotTasks(s: State, id: Id)
    requires s in RECORDING && id in s.callers
    ensures id !in s.tasks
  {
  }

  lemma NobodyHolds(s: State, id: Id, w: nat)
    requires s in SAFE
    requires id in s.finished || (w < |s.hands| && IdOf(s.hands[w]) == {id} && !s.hands[w].Holding?)
    ensures id in s.tasks && forall v | 0 <= v < |s.hands| :: s.hands[v] != Holding(id)
  {
    hide StatusOk, PermitsOk, ExitsOk, HistoryOk;
    if id !in s.finished { assert id in IdOf(s.hands[w]); }
    forall v | 0 <= v < |s.hands|
      ensures s.hands[v] != Holding(id)
    {
      if s.hands[v] == Holding(id) { HeldInOnePlace(s.queue, s.hands, s.tasks.Keys, s.finished, v); }
    }
  }

  // ---------- runs ----------

  lemma HandGoesOn(states: seq<State>, actions: seq<Action>, j: nat, w: nat)
    requires IsRun(states, actions) && j < |actions| && w < |states[j + 1].hands|
    requires w < |states[j].hands| ==> HandTold(states, actions, j, states[j].hands[w])
    ensures HandTold(states, actions, j + 1, states[j + 1].hands[w])
  {
    hide Step, HandTold;
    var s, a, t := states[j], actions[j], states[j + 1];
    var h := t.hands[w];
    RunSafe(states, actions, j);
    if !IsHandAction(a) || a.w != w {
      OthersKeepHands(s, a, t, w);
      KeptHand(states, actions, j, w);
    } else {
      HandMoves(s, a, t);
      MovedHand(states, actions, j);
    }
  }

  lemma KeptHand(states: seq<State>, actions: seq<Action>, j: nat, w: nat)
    requires IsRun(states, actions) && j < |actions| && states[j] in SAFE
    requires w < |states[j].hands| && HandTold(states, actions, j, states[j].hands[w])
    ensures HandTold(states, actions, j + 1, states[j].hands[w])
  {
    hide Step;
    var h := states[j].hands[w];
    if h.Called? || h.Recorded? || h.Ending? {
      LaterToo(states, actions, j, h.id);
    }
    if h.Ending? {
      NobodyHolds(states[j], h.id, w);
      if h.id !in states[j].reached { NotCalledStays(states[j], actions[j], states[j + 1], h.id); }
    }
  }

  lemma MovedHand(states: seq<State>, actions: seq<Action>, j: nat)
    requires IsRun(states, actions) && j < |actions| && states[j] in SAFE && IsHandAction(actions[j])
    requires actions[j].w < |states[j].hands| == |states[j + 1].hands| && HandTold(states, actions, j, states[j].hands[actions[j].w])
    ensures HandTold(states, actions, j + 1, states[j + 1].hands[actions[j].w])
  {
    hide Step;
    var s, a, t := states[j], actions[j], states[j + 1];
    var h := t.hands[a.w];
    HandMoves(s, a, t);
    match h
    case Called(id, err) => assert Calls(states[j], actions[j], id, err);
    case Recorded(id, left) =>
      LaterToo(states, actions, j, id);
      assert Records(states[j], actions[j], id, s.hands[a.w].err, left);
    case Ending(id, left) =>
      LaterToo(states, actions, j, id);
      if s.hands[a.w] != Recorded(id, left) {
        var ctx :| CtxTells(ctx, left) && GivesUp(s, a, id, ctx);
        assert GaveUp(states, actions, j + 1, id, ctx) by { assert GivesUp(states[j], actions[j], id, ctx); }
        NobodyHolds(s, id, a.w);
        WaitingIsNotCalled(s, a.w);
        NotCalledStays(s, a, t, id);
      }
    case _ =>
  }

  lemma WaitingIsNotCalled(s: State, w: nat)
    requires s in RECORDING && w < |s.hands| && (s.hands[w].Waiting? || s.hands[w].Fetched?)
    ensures s.hands[w].id !in s.reached
  {
  }

  lemma {:induction false} HandTrail(states: seq<State>, actions: seq<Action>, j: nat, w: nat)
    requires IsRun(states, actions) && j < |states| && w < |states[j].hands|
    ensures HandTold(states, actions, j, states[j].hands[w])
  {
    hide Step, HandTold;
    if j == 0 {
      NothingToTell(states, actions, w);
    } else {
      if w < |states[j - 1].hands| { HandTrail(states, actions, j - 1, w); }
      HandGoesOn(states, actions, j - 1, w);
    }
  }

  lemma NothingToTell(states: seq<State>, actions: seq<Action>, w: nat)
    requires IsRun(states, actions) && w < |states[0].hands|
    ensures HandTold(states, actions, 0, states[0].hands[w])
  {
  }

  // How a finished task has ended: by its call, by giving up, or by being skipped.
  ghost predicate EndTold(states: seq<State>, actions: seq<Action>, j: nat, id: Id)
    requires j <= |actions| < |states|
  {
    && id in states[j].tasks
    && var status := states[j].tasks[id].status;
    || (exists left :: LeftWith(states, actions, j, id, left) && Tells(status, left))
    || (id !in states[j].reached
        && ((exists ctx, left :: CtxTells(ctx, left) && GaveUp(states, actions, j, id, ctx) && Tells(status, left))
            || (Skipped(states, actions, j, id) && status == Cancelled)))
  }

  lemma EndStays(states: seq<State>, actions: seq<Action>, j: nat, id: Id)
    requires IsRun(states, actions) && j < |actions| && id in states[j].finished && EndTold(states, actions, j, id)
    ensures EndTold(states, actions, j + 1, id)
  {
    hide Step, LeftWith, GaveUp, Skipped, Tells, CtxTells;
    var s, a, t := states[j], actions[j], states[j + 1];
    RunSafe(states, actions, j);
    StatusSteps(s, a, t, id);
    LaterToo(states, actions, j, id);
    NobodyHolds(s, id, 0);
    if id !in s.reached { NotCalledStays(s, a, t, id); }
  }

  // The step that finishes a task: its worker ends it, or finds it cancelled.
  lemma FinishingStep(s: State, a: Action, t: State, id: Id)
    requires s in SAFE && Step(s, a, t) && id !in s.finished && id in t.finished
    ensures a.End? || a.Check?
    ensures a.w < |s.hands| && id in s.tasks && id in t.tasks && t.reached == s.reached
    ensures if a.End? then s.hands[a.w].Ending? && s.hands[a.w].id == id && Tells(t.tasks[id].status, s.hands[a.w].err)
            else Skips(s, a, id) && t.tasks[id].status == Cancelled
  {
    if IsHandAction(a) {
      FinishingHand(s, a, t, id);
    } else {
      NothingFinishes(s, a, t);
    }
  }

  lemma NothingFinishes(s: State, a: Action, t: State)
    requires Step(s, a, t) && !IsHandAction(a)
    ensures t.finished == s.finished
  {
    if a.CleanupStep? { CleanupTouches(s, t); }
  }

  lemma FinishingHand(s: State, a: Action, t: State, id: Id)
    requires s in SAFE && Step(s, a, t) && IsHandAction(a) && id !in s.finished && id in t.finished
    ensures a.End? || a.Check?
    ensures a.w < |s.hands| && id in s.tasks && id in t.tasks && t.reached == s.reached
    ensures if a.End? then s.hands[a.w].Ending? && s.hands[a.w].id == id && Tells(t.tasks[id].status, s.hands[a.w].err)
            else Skips(s, a, id) && t.tasks[id].status == Cancelled
  {
    hide Step, Tells, Skips;
    if a.Check? { FinishingCheck(s, a, t, id); }
    else if a.End? { FinishingEnd(s, a, t, id); }
    else { GoingOnFinishesNothing(s, a, t); }
  }

  lemma FinishingCheck(s: State, a: Action, t: State, id: Id)
    requires s in SAFE && Step(s, a, t) && a.Check? && id !in s.finished && id in t.finished
    ensures a.w < |s.hands| && id in s.tasks && id in t.tasks && t.reached == s.reached
    ensures Skips(s, a, id) && t.tasks[id].status == Cancelled
  {
    hide Step;
    CheckFinishes(s, a, t, id);
    HolderStatus(s, a.w, id);
  }

  lemma CheckFinishes(s: State, a: Action, t: State, id: Id)
    requires Step(s, a, t) && a.Check? && id !in s.finished && id in t.finished
    ensures a.w < |s.hands| && s.hands[a.w] == Fetched(id) && id in s.tasks && IsTerminal(s.tasks[id].status)
    ensures t.tasks == s.tasks && t.reached == s.reached
  {
  }

  lemma FinishingEnd(s: State, a: Action, t: State, id: Id)
    requires Step(s, a, t) && a.End? && id !in s.finished && id in t.finished
    ensures a.w < |s.hands| && id in s.tasks && id in t.tasks && t.reached == s.reached
    ensures s.hands[a.w].Ending? && s.hands[a.w].id == id && Tells(t.tasks[id].status, s.hands[a.w].err)
  {
  }

  lemma GoingOnFinishesNothing(s: State, a: Action, t: State)
    requires Step(s, a, t) && IsHandAction(a) && !a.End? && !a.Check?
    ensures t.finished == s.finished
  {
    if a.Acquire? || a.GiveUp? || a.Call? || a.Release? { RunLeavesOthers(s, a, t); }
  }

  lemma EndComes(states: seq<State>, actions: seq<Action>, j: nat, id: Id)
    requires IsRun(states, actions) && j < |actions| && id !in states[j].finished && id in states[j + 1].finished
    ensures EndTold(states, actions, j + 1, id)
  {
    hide Step, LeftWith, GaveUp;
    var s, a, t := states[j], actions[j], states[j + 1];
    RunSafe(states, actions, j);
    FinishingStep(s, a, t, id);
    if a.End? {
      HandTrail(states, actions, j, a.w);
      LaterToo(states, actions, j, id);
    } else {
      WaitingIsNotCalled(s, a.w);
      assert Skips(states[j], actions[j], id);
    }
  }

  lemma {:induction false} EndTrail(states: seq<State>, actions: seq<Action>, j: nat, id: Id)
    requires IsRun(states, actions) && j < |states| && id in states[j].finished
    ensures EndTold(states, actions, j, id)
  {
    hide Step, EndTold;
    if j == 0 {
      assert false;
    } else if id in states[j - 1].finished {
      EndTrail(states, actions, j - 1, id);
      EndStays(states, actions, j - 1, id);
    } else {
      EndComes(states, actions, j - 1, id);
    }
  }

  // A task whose tool was called ends as the call and the recording of the call went: it has succeeded exactly if both
  // were without error, and otherwise its status tells which error it was.
  lemma StatusTellsTheCall(states: seq<State>, actions: seq<Action>, j: nat, id: Id)
    returns (c: nat, r: nat, err: Err, left: Err)
    requires IsRun(states, actions) && j < |states| && id in states[j].finished && id in states[j].reached
    ensures c < r < j && actions[c].Call? && actions[c].err == err && actions[r].Record?
    ensures actions[c].w < |states[c].hands| && states[c].hands[actions[c].w] == Holding(id)
    ensures actions[r].w < |states[r].hands| && states[r].hands[actions[r].w] == Called(id, err)
    ensures left == if actions[r].saveErr == NoError then err else actions[r].saveErr
    ensures id in states[j].tasks
    ensures var status := states[j].tasks[id].status;
            && (status == Succeeded <==> left == NoError) && (status == Failed <==> left == OtherError)
            && (status == Cancelled <==> left == CanceledError) && (status == TimedOut <==> left == DeadlineError)
  {
    hide Step;
    EndTrail(states, actions, j, id);
    left :| LeftWith(states, actions, j, id, left) && Tells(states[j].tasks[id].status, left);
    r, err :| r < j && Records(states[r], actions[r], id, err, left) && CalledWith(states, actions, r, id, err);
    c :| 0 <= c < r && Calls(states[c], actions[c], id, err);
  }

  // A task whose tool was not called was cancelled before a worker came to it, or has waited for a slot until its
  // context was over, and then its status tells how.
  lemma StatusTellsTheWait(states: seq<State>, actions: seq<Action>, j: nat, id: Id) returns (k: nat)
    requires IsRun(states, actions) && j < |states| && id in states[j].finished && id !in states[j].reached
    ensures k < j && (actions[k].GiveUp? || actions[k].Check?) && actions[k].w < |states[k].hands| && id in states[k].tasks
    ensures id in states[j].tasks
    ensures var status := states[j].tasks[id].status;
            if actions[k].Check? then states[k].hands[actions[k].w] == Fetched(id) && status == states[k].tasks[id].status == Cancelled
            else
              && states[k].hands[actions[k].w] == Waiting(id)
              && (status == Cancelled <==> states[k].tasks[id].ctx == CtxCanceled)
              && (status == TimedOut <==> states[k].tasks[id].ctx == CtxExpired)
              && status in {Cancelled, TimedOut}
  {
    hide Step;
    EndTrail(states, actions, j, id);
    if exists left :: LeftWith(states, actions, j, id, left) {
      var left :| LeftWith(states, actions, j, id, left);
      LeftIsReached(states, actions, j, id, left);
    }
    if Skipped(states, actions, j, id) && states[j].tasks[id].status == Cancelled {
      k :| 0 <= k < j && Skips(states[k], actions[k], id);
    } else {
      var ctx, left :| CtxTells(ctx, left) && GaveUp(states, actions, j, id, ctx) && Tells(states[j].tasks[id].status, left);
      k :| 0 <= k < j && GivesUp(states[k], actions[k], id, ctx);
    }
  }

  lemma LeftIsReached(states: seq<State>, actions: seq<Action>, j: nat, id: Id, left: Err)
    requires IsRun(states, actions) && j < |states| && LeftWith(states, actions, j, id, left)
    ensures id in states[j].reached
  {
    hide Step;
    var r: nat, err :| r < j && Records(states[r], actions[r], id, err, left) && CalledWith(states, actions, r, id, err);
    var c :| 0 <= c < r && Calls(states[c], actions[c], id, err);
    CallIsNewAt(states, actions, c);
    ReachedStays(states, actions, c + 1, j, id);
  }

  lemma {:induction false} ReachedStays(states: seq<State>, actions: seq<Action>, i: nat, j: nat, id: Id)
    requires IsRun(states, actions) && i <= j < |states| && id in states[i].reached
    ensures id in states[j].reached
    decreases j - i
  {
    hide Step;
    if i == j {
    } else {
      ReachedStays(states, actions, i, j - 1, id);
      CallIsNewAt(states, actions, j - 1);
    }
  }

  // ---------- who ends a context ----------

  lemma CtxStep(s: State, a: Action, t: State, id: Id)
    requires Step(s, a, t) && id in t.tasks
    ensures id !in s.tasks ==> t.tasks[id].ctx == Live
    ensures id in s.tasks ==> t.tasks[id].hasDeadline == s.tasks[id].hasDeadline
    ensures id in s.tasks && t.tasks[id].ctx != s.tasks[id].ctx ==>
              s.tasks[id].ctx == Live && (if t.tasks[id].ctx == CtxCanceled then a == Cancel(id)
                                          else a == Expire(id) && s.tasks[id].hasDeadline)
  {
    if IsHandAction(a) {
      HandKeepsCtx(s, a, t, id);
    } else if !a.Submit? && !a.Cancel? && !a.Expire? {
      StrangersKeepTasks(s, a, t);
    }
  }

  lemma StrangersKeepTasks(s: State, a: Action, t: State)
    requires Step(s, a, t) && !IsHandAction(a) && !a.Submit? && !a.Cancel? && !a.Expire?
    ensures t.tasks == s.tasks
  {
    if a.CleanupStep? { CleanupTouches(s, t); }
  }

  lemma HandKeepsCtx(s: State, a: Action, t: State, id: Id)
    requires Step(s, a, t) && IsHandAction(a)
    ensures id in s.tasks <==> id in t.tasks
    ensures id in s.tasks ==> t.tasks[id].ctx == s.tasks[id].ctx && t.tasks[id].hasDeadline == s.tasks[id].hasDeadline
  {
    if a.Acquire? || a.GiveUp? || a.Call? || a.Release? { RunLeavesOthers(s, a, t); }
  }

  // A context ends because somebody has cancelled the task, or because the task had a deadline that has passed; so a
  // task is only TimedOut if it was given a deadline, or if its call returned a deadline error of its own.
  lemma {:induction false} ContextEndsForAReason(states: seq<State>, actions: seq<Action>, j: nat, id: Id) returns (k: nat)
    requires IsRun(states, actions) && j < |states| && id in states[j].tasks && states[j].tasks[id].ctx != Live
    ensures k < j && (if states[j].tasks[id].ctx == CtxCanceled then actions[k] == Cancel(id) else actions[k] == Expire(id))
    ensures states[j].tasks[id].ctx == CtxExpired ==> states[j].tasks[id].hasDeadline
  {
    hide Step;
    if j == 0 {
      assert false;
    } else {
      CtxStep(states[j - 1], actions[j - 1], states[j], id);
      if states[j - 1].tasks[id].ctx == states[j].tasks[id].ctx {
        k := ContextEndsForAReason(states, actions, j - 1, id);
      } else {
        k := j - 1;
      }
    }
  }
}
