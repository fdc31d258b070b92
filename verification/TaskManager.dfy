/** The task manager and the semaphore as objects: what one call, or one worker left alone, does to them. */
module TaskManager {
  import opened Counting
  import opened Execution

  class Semaphore {
    const limit: nat  // zero means there is no limit
    var inUse: nat

    ghost predicate Valid()
      reads this
    {
      if limit == 0 then inUse == 0 else inUse <= limit
    }

    constructor (limit: int)
      ensures Valid() && this.limit == (if limit > 0 then limit else 0) && inUse == 0
    {
      this.limit := if limit > 0 then limit else 0;
      inUse := 0;
    }

    // A synchronous caller does not wait: it is refused exactly when every slot is in use.
    method Acquire() returns (ok: bool)
      requires Valid()
      modifies this
      ensures Valid()
      ensures ok <==> limit == 0 || old(inUse) < limit
      ensures inUse == if limit > 0 && ok then old(inUse) + 1 else old(inUse)
      ensures ok == CanAcquire(limit, old(inUse)) && inUse == if ok then Taken(limit, old(inUse)) else old(inUse)
    {
      if limit == 0 { return true; }
      if inUse < limit {
        inUse := inUse + 1;
        return true;
      }
      ok := false;
    }

    // A worker waits for a slot or for the end of its context, and when both are there either may win.
    method WaitAcquire(ctx: Ctx, slotFirst: bool) returns (err: Err)
      requires Valid()
      requires CanAcquire(limit, inUse) || ctx != Live
      modifies this
      ensures Valid()
      ensures err == NoError <==> limit == 0 || (old(inUse) < limit && (ctx == Live || slotFirst))
      ensures err == CanceledError <==> err != NoError && ctx == CtxCanceled
      ensures err == DeadlineError <==> err != NoError && ctx == CtxExpired
      ensures err != NoError ==> ctx != Live && err == CtxError(ctx)
      ensures inUse == if limit > 0 && err == NoError then old(inUse) + 1 else old(inUse)
      ensures err == NoError ==> CanAcquire(limit, old(inUse)) && inUse == Taken(limit, old(inUse))
    {
      if limit == 0 { return NoError; }
      if inUse < limit && (ctx == Live || slotFirst) {
        inUse := inUse + 1;
        return NoError;
      }
      err := CtxError(ctx);
    }

    method Release()
      requires Valid() && (limit > 0 ==> inUse > 0)
      modifies this
      ensures Valid() && inUse == if limit > 0 then old(inUse) - 1 else old(inUse)
      ensures inUse == Returned(limit, old(inUse))
    {
      if limit > 0 { inUse := inUse - 1; }
    }
  }

  datatype Submission = Accepted | QueueStopped | QueueFull

  datatype Cancellation = NotFound | Forbidden | Done(task: Task)

  datatype Stats = Stats(pending: nat, running: nat, succeeded: nat, failed: nat, cancelled: nat, timedOut: nat)

  ghost function WithStatus(tasks: map<Id, Task>, among: set<Id>, status: Status): set<Id> {
    set id | id in among && id in tasks && tasks[id].status == status
  }

  lemma CountOne(tasks: map<Id, Task>, counted: set<Id>, id: Id, status: Status)
    requires id in tasks && id !in counted
    ensures |WithStatus(tasks, counted + {id}, status)|
            == |WithStatus(tasks, counted, status)| + One(tasks[id].status == status)
  {
    var more := WithStatus(tasks, counted + {id}, status);
    assert more - {id} == WithStatus(tasks, counted, status);
    SizeWithout(more, id);
  }

  // What a worker left alone makes of a task: nothing if it is terminal, and else the outcome of waiting and running.
  function Worked(t: Task, err: Err): Task {
    if IsTerminal(t.status) then t else t.(status := FinalStatus(err))
  }

  class Manager {
    const capacity: nat
    const semaphore: Semaphore
    var queue: seq<Id>
    var tasks: map<Id, Task>
    var closed: bool

    ghost predicate Valid()
      reads this, semaphore
    {
      && semaphore.Valid()
      && (forall i | 0 <= i < |queue| :: queue[i] in tasks)
      && (forall i, k | 0 <= i < k < |queue| :: queue[i] != queue[k])
    }

    // A capacity that is not positive becomes one.
    constructor (capacity: int, semaphore: Semaphore)
      requires semaphore.Valid()
      ensures this.semaphore == semaphore && this.capacity == (if capacity <= 0 then 1 else capacity)
      ensures Valid() && queue == [] && tasks == map[] && !closed
    {
      this.capacity := if capacity <= 0 then 1 else capacity;
      this.semaphore := semaphore;
      queue, tasks, closed := [], map[], false;
    }

    // A task that does not fit into the queue leaves no trace.
    method Submit(id: Id, hasDeadline: bool) returns (r: Submission)
      requires Valid() && id !in tasks
      modifies this
      ensures Valid() && closed == old(closed)
      ensures r == if old(closed) then QueueStopped else if |old(queue)| < capacity then Accepted else QueueFull
      ensures queue == if r == Accepted then old(queue) + [id] else old(queue)
      ensures tasks == if r == Accepted then old(tasks)[id := Task(Pending, false, Live, hasDeadline)] else old(tasks)
    {
      if closed { return QueueStopped; }
      ghost var before := tasks;
      tasks := tasks[id := Task(Pending, false, Live, hasDeadline)];
      if |queue| < capacity {
        queue := queue + [id];
        return Accepted;
      }
      tasks := tasks - {id};
      assert tasks == before;
      r := QueueFull;
    }

    method Cancel(id: Id, mayAccess: bool) returns (r: Cancellation)
      requires Valid()
      modifies this`tasks
      ensures Valid()
      ensures r == if id !in old(tasks) then NotFound else if !mayAccess then Forbidden else Done(CancelTask(old(tasks)[id]))
      ensures tasks == if r.Done? then old(tasks)[id := r.task] else old(tasks)
      ensures r.Done? ==>
                var before := old(tasks)[id];
                if before.status == Pending || before.status == Running then
                  r.task == before.(cancelRequested := true, status := if before.status == Pending then Cancelled else Running,
                                    ctx := if before.ctx == Live then CtxCanceled else before.ctx)
                else r.task == before
    {
      if id !in tasks { return NotFound; }
      if !mayAccess { return Forbidden; }
      var t := tasks[id];
      if IsTerminal(t.status) {
        assert tasks[id := t] == tasks;
        return Done(t);
      }
      t := t.(cancelRequested := true);
      if t.status == Pending { t := t.(status := Cancelled); }
      if t.ctx == Live { t := t.(ctx := CtxCanceled); }
      tasks := tasks[id := t];
      r := Done(t);
    }

    // One turn of a worker. `err` is what its tool call returns if it gets to make it; the semaphore is left
    // as it was found on every path, and the status tells what came of the task.
    method WorkOne(slotFirst: bool, err: Err) returns (called: bool, outcome: Err)
      requires Valid() && queue != []
      requires var t := tasks[queue[0]]; IsTerminal(t.status) || CanAcquire(semaphore.limit, semaphore.inUse) || t.ctx != Live
      modifies this`queue, this`tasks, semaphore
      ensures Valid() && semaphore.inUse == old(semaphore.inUse)
      ensures queue == old(queue)[1..]
      ensures tasks == old(tasks)[old(queue)[0] := Worked(old(tasks)[old(queue)[0]], outcome)]
      ensures var t := old(tasks)[old(queue)[0]];
              called <==> !IsTerminal(t.status) && CanAcquire(semaphore.limit, old(semaphore.inUse))
                          && (t.ctx == Live || slotFirst || semaphore.limit == 0)
      ensures called ==> outcome == err
      ensures !called ==> IsTerminal(old(tasks)[old(queue)[0]].status)
                          || (outcome != NoError && outcome == CtxError(old(tasks)[old(queue)[0]].ctx))
      ensures var id := old(queue)[0];
              var before := old(tasks)[id];
              if before.status != Pending && before.status != Running then !called && tasks == old(tasks)
              else
                && tasks == old(tasks)[id := before.(status := tasks[id].status)]
                && (!called ==> outcome == if before.ctx == CtxCanceled then CanceledError else DeadlineError)
                && tasks[id].status == if outcome == NoError then Succeeded else if outcome == OtherError then Failed
                                       else if outcome == CanceledError then Cancelled else TimedOut
    {
      var id := queue[0];
      queue := queue[1..];
      var t := tasks[id];
      if IsTerminal(t.status) {
        assert tasks[id := t] == tasks;
        return false, NoError;
      }
      tasks := tasks[id := tasks[id].(status := Running)];
      outcome := semaphore.WaitAcquire(t.ctx, slotFirst);
      called := outcome == NoError;
      if called {
        outcome := err;
        semaphore.Release();
      }
      tasks := tasks[id := tasks[id].(status := FinalStatus(outcome))];
    }

    // The six counters are the numbers of tasks with each status, so that together they count every task once.
    method Count() returns (st: Stats)
      ensures st.pending == |WithStatus(tasks, tasks.Keys, Pending)|
      ensures st.running == |WithStatus(tasks, tasks.Keys, Running)|
      ensures st.succeeded == |WithStatus(tasks, tasks.Keys, Succeeded)|
      ensures st.failed == |WithStatus(tasks, tasks.Keys, Failed)|
      ensures st.cancelled == |WithStatus(tasks, tasks.Keys, Cancelled)|
      ensures st.timedOut == |WithStatus(tasks, tasks.Keys, TimedOut)|
      ensures st.pending + st.running + st.succeeded + st.failed + st.cancelled + st.timedOut == |tasks|
    {
      hide StatsOf;
      NothingCounted(tasks);
      st := Stats(0, 0, 0, 0, 0, 0);
      var left := tasks.Keys;
      ghost var counted: set<Id> := {};
      while left != {}
        invariant left !! counted && left + counted == tasks.Keys
        invariant StatsOf(tasks, counted, st)
        decreases |left|
      {
        var id :| id in left;
        ghost var before := st;
        match tasks[id].status {
          case Pending => st := st.(pending := st.pending + 1);
          case Running => st := st.(running := st.running + 1);
          case Succeeded => st := st.(succeeded := st.succeeded + 1);
          case Failed => st := st.(failed := st.failed + 1);
          case Cancelled => st := st.(cancelled := st.cancelled + 1);
          case TimedOut => st := st.(timedOut := st.timedOut + 1);
        }
        OneMoreCounted(tasks, counted, id, before);
        left, counted := left - {id}, counted + {id};
      }
      assert counted == tasks.Keys;
      StatsTell(tasks, st);
    }
  }

  // What the counters hold when `counted` has been gone through.
  ghost predicate StatsOf(tasks: map<Id, Task>, counted: set<Id>, st: Stats) {
    && st.pending == |WithStatus(tasks, counted, Pending)|
    && st.running == |WithStatus(tasks, counted, Running)|
    && st.succeeded == |WithStatus(tasks, counted, Succeeded)|
    && st.failed == |WithStatus(tasks, counted, Failed)|
    && st.cancelled == |WithStatus(tasks, counted, Cancelled)|
    && st.timedOut == |WithStatus(tasks, counted, TimedOut)|
    && st.pending + st.running + st.succeeded + st.failed + st.cancelled + st.timedOut == |counted|
  }

  function Increased(st: Stats, status: Status): Stats {
    match status
    case Pending => st.(pending := st.pending + 1)
    case Running => st.(running := st.running + 1)
    case Succeeded => st.(succeeded := st.succeeded + 1)
    case Failed => st.(failed := st.failed + 1)
    case Cancelled => st.(cancelled := st.cancelled + 1)
    case TimedOut => st.(timedOut := st.timedOut + 1)
  }

  lemma OneMoreCounted(tasks: map<Id, Task>, counted: set<Id>, id: Id, st: Stats)
    requires id in tasks && id !in counted && StatsOf(tasks, counted, st)
    ensures StatsOf(tasks, counted + {id}, Increased(st, tasks[id].status))
  {
    hide WithStatus;
    CountEach(tasks, counted, id);
  }

  lemma NothingCounted(tasks: map<Id, Task>)
    ensures StatsOf(tasks, {}, Stats(0, 0, 0, 0, 0, 0))
  {
    forall status: Status
      ensures WithStatus(tasks, {}, status) == {}
    {
    }
  }

  lemma StatsTell(tasks: map<Id, Task>, st: Stats)
    requires StatsOf(tasks, tasks.Keys, st)
    ensures st.pending == |WithStatus(tasks, tasks.Keys, Pending)|
    ensures st.running == |WithStatus(tasks, tasks.Keys, Running)|
    ensures st.succeeded == |WithStatus(tasks, tasks.Keys, Succeeded)|
    ensures st.failed == |WithStatus(tasks, tasks.Keys, Failed)|
    ensures st.cancelled == |WithStatus(tasks, tasks.Keys, Cancelled)|
    ensures st.timedOut == |WithStatus(tasks, tasks.Keys, TimedOut)|
    ensures st.pending + st.running + st.succeeded + st.failed + st.cancelled + st.timedOut == |tasks|
  {
    assert |tasks.Keys| == |tasks|;
  }

  lemma CountEach(tasks: map<Id, Task>, counted: set<Id>, id: Id)
    requires id in tasks && id !in counted
    ensures forall status {:trigger WithStatus(tasks, counted, status)} ::
      |WithStatus(tasks, counted + {id}, status)| == |WithStatus(tasks, counted, status)| + One(tasks[id].status == status)
  {
    forall status: Status
      ensures |WithStatus(tasks, counted + {id}, status)|
              == |WithStatus(tasks, counted, status)| + One(tasks[id].status == status)
    {
      CountOne(tasks, counted, id, status);
    }
  }
}
