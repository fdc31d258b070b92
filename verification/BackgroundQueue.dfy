/** The draining background queue, as a state machine over its submitters and workers and as an object.

    Jobs are closures, so two submitted jobs are never the same; a job is named by an identifier. */
module BackgroundQueue {
  import opened Counting

  type Job = nat

  // A worker, by what it does next.
  datatype Worker =
    | Idle
    | Running(job: Job)
    | CountingError(job: Job)
    | CountingDone(job: Job)
    | Exited

  // `accepted` and `ran` remember the past: the jobs ever sent, and of those that ran whether they succeeded.
  // `sending` counts the submitters that have sent a job but not yet counted it.
  datatype Queue = Queue(
    capacity: nat, closed: bool, jobs: seq<Job>, workers: seq<Worker>,
    sending: nat, pending: int, errors: nat, accepted: set<Job>, ran: map<Job, bool>)

  datatype Answer = Sent | Full | Stopped

  datatype Action =
    | Submit(job: Job)
    | CountSent
    | Take(w: nat)
    | Finish(w: nat, ok: bool)
    | CountError(w: nat)
    | CountDone(w: nat)
    | Close
    | Exit(w: nat)

  function AnswerOf(q: Queue): Answer {
    if q.closed then Stopped else if |q.jobs| < q.capacity then Sent else Full
  }

  predicate At(q: Queue, w: nat, state: Worker) {
    w < |q.workers| && q.workers[w] == state
  }

  predicate HasJob(state: Worker) {
    state.Running? || state.CountingError? || state.CountingDone?
  }

  predicate Enabled(q: Queue, a: Action) {
    match a
    case Submit(job) => job !in q.accepted
    case CountSent => q.sending > 0
    case Take(w) => At(q, w, Idle) && q.jobs != []
    case Finish(w, _) => w < |q.workers| && q.workers[w].Running?
    case CountError(w) => w < |q.workers| && q.workers[w].CountingError?
    case CountDone(w) => w < |q.workers| && q.workers[w].CountingDone?
    case Close => true
    case Exit(w) => At(q, w, Idle) && q.closed && q.jobs == []
  }

  ghost predicate Step(q: Queue, a: Action, r: Queue) {
    Enabled(q, a) &&
    match a
    case Submit(job) =>
      if AnswerOf(q) == Sent then
        r == q.(jobs := q.jobs + [job], accepted := q.accepted + {job}, sending := q.sending + 1)
      else r == q
    case CountSent => r == q.(sending := q.sending - 1, pending := q.pending + 1)
    case Take(w) => r == q.(jobs := q.jobs[1..], workers := q.workers[w := Running(q.jobs[0])])
    case Finish(w, ok) =>
      var job := q.workers[w].job;
      r == q.(ran := q.ran[job := ok], workers := q.workers[w := if ok then CountingDone(job) else CountingError(job)])
    case CountError(w) => r == q.(errors := q.errors + 1, workers := q.workers[w := CountingDone(q.workers[w].job)])
    case CountDone(w) => r == q.(pending := q.pending - 1, workers := q.workers[w := Idle])
    case Close => r == q.(closed := true)
    case Exit(w) => r == q.(workers := q.workers[w := Exited])
  }

  predicate Init(q: Queue) {
    && !q.closed && q.jobs == [] && |q.workers| > 0 && q.capacity > 0
    && (forall w | 0 <= w < |q.workers| :: q.workers[w] == Idle)
    && q.sending == 0 && q.pending == 0 && q.errors == 0 && q.accepted == {} && q.ran == map[]
  }

  // Stop has returned: every worker left its loop.
  predicate Drained(q: Queue) {
    q.closed && forall w | 0 <= w < |q.workers| :: q.workers[w] == Exited
  }

  // ---------- the invariant ----------

  ghost function Busy(workers: seq<Worker>): set<int> {
    Where(workers, HasJob)
  }

  ghost function Erring(workers: seq<Worker>): set<int> {
    set w | 0 <= w < |workers| && workers[w].CountingError?
  }

  ghost function FailedRuns(ran: map<Job, bool>): set<Job> {
    set job | job in ran && !ran[job]
  }

  ghost predicate IsRunning(workers: seq<Worker>, job: Job) {
    exists w :: 0 <= w < |workers| && workers[w] == Running(job)
  }

  ghost predicate WaitingOk(jobs: seq<Job>, accepted: set<Job>, ran: map<Job, bool>) {
    && (forall i, k | 0 <= i < k < |jobs| :: jobs[i] != jobs[k])
    && (forall i | 0 <= i < |jobs| :: jobs[i] in accepted && jobs[i] !in ran)
  }

  ghost predicate RunningOk(jobs: seq<Job>, workers: seq<Worker>, accepted: set<Job>, ran: map<Job, bool>) {
    && (forall w | 0 <= w < |workers| && workers[w].Running? ::
          workers[w].job in accepted && workers[w].job !in ran && workers[w].job !in jobs)
    && (forall v, w | 0 <= v < w < |workers| && workers[v].Running? && workers[w].Running? ::
          workers[v].job != workers[w].job)
  }

  ghost predicate Covered(jobs: seq<Job>, workers: seq<Worker>, accepted: set<Job>, ran: map<Job, bool>) {
    && ran.Keys <= accepted
    && forall job | job in accepted :: job in jobs || job in ran || IsRunning(workers, job)
  }

  // Every accepted job is in exactly one place: waiting, with one worker, or run.
  ghost predicate JobsOk(q: Queue) {
    && WaitingOk(q.jobs, q.accepted, q.ran)
    && RunningOk(q.jobs, q.workers, q.accepted, q.ran)
    && Covered(q.jobs, q.workers, q.accepted, q.ran)
  }

  ghost predicate CountsOk(q: Queue) {
    && q.pending + q.sending == |q.jobs| + |Busy(q.workers)|
    && q.errors + |Erring(q.workers)| == |FailedRuns(q.ran)|
  }

  ghost predicate Inv(q: Queue) {
    && |q.workers| > 0
    && JobsOk(q) && CountsOk(q)
    && (forall w | 0 <= w < |q.workers| && q.workers[w] == Exited :: q.closed && q.jobs == [])
  }

  lemma InitInv(q: Queue)
    requires Init(q)
    ensures Inv(q)
  {
    assert Busy(q.workers) == {} && Erring(q.workers) == {} && FailedRuns(q.ran) == {};
  }

  // Where a worker goes decides which counts change.
  lemma WorkerMoves(workers: seq<Worker>, w: nat, state: Worker)
    requires w < |workers|
    ensures var moved := workers[w := state];
            && |Busy(moved)| + One(HasJob(workers[w])) == |Busy(workers)| + One(HasJob(state))
            && |Erring(moved)| + One(workers[w].CountingError?) == |Erring(workers)| + One(state.CountingError?)
  {
    PlaceMoves(workers, w, state, HasJob);
    PlaceMoves(workers, w, state, (x: Worker) => x.CountingError?);
    assert Erring(workers) == Where(workers, (x: Worker) => x.CountingError?);
    assert Erring(workers[w := state]) == Where(workers[w := state], (x: Worker) => x.CountingError?);
  }

  // A worker that is not running a job leaves what the others run as it was.
  lemma OthersRun(workers: seq<Worker>, w: nat, state: Worker)
    requires w < |workers|
    ensures forall job | IsRunning(workers, job) && workers[w] != Running(job) :: IsRunning(workers[w := state], job)
    ensures state.Running? ==> IsRunning(workers[w := state], state.job)
  {
    var moved := workers[w := state];
    forall job | IsRunning(workers, job) && workers[w] != Running(job)
      ensures IsRunning(moved, job)
    {
      var v :| 0 <= v < |workers| && workers[v] == Running(job);
      assert moved[v] == Running(job);
    }
    assert moved[w] == state;
  }

  lemma SubmitInv(q: Queue, r: Queue, job: Job)
    requires Inv(q) && Step(q, Submit(job), r)
    ensures Inv(r)
  {
  }

  lemma TakeInv(q: Queue, r: Queue, w: nat)
    requires Inv(q) && Step(q, Take(w), r)
    ensures Inv(r)
  {
    WorkerMoves(q.workers, w, Running(q.jobs[0]));
    OthersRun(q.workers, w, Running(q.jobs[0]));
    assert q.jobs == [q.jobs[0]] + q.jobs[1..];
  }

  lemma FinishJobs(q: Queue, r: Queue, w: nat, ok: bool)
    requires Inv(q) && Step(q, Finish(w, ok), r)
    ensures JobsOk(r) && q.workers[w].job !in q.ran
  {
    OthersRun(q.workers, w, r.workers[w]);
  }

  lemma RunRecorded(ran: map<Job, bool>, job: Job, ok: bool)
    requires job !in ran
    ensures |FailedRuns(ran[job := ok])| == |FailedRuns(ran)| + One(!ok)
  {
    assert FailedRuns(ran[job := ok]) == if ok then FailedRuns(ran) else FailedRuns(ran) + {job};
  }

  lemma FinishCounts(q: Queue, r: Queue, w: nat, ok: bool)
    requires Inv(q) && Step(q, Finish(w, ok), r)
    ensures CountsOk(r)
  {
    WorkerMoves(q.workers, w, r.workers[w]);
    RunRecorded(q.ran, q.workers[w].job, ok);
  }

  lemma FinishInv(q: Queue, r: Queue, w: nat, ok: bool)
    requires Inv(q) && Step(q, Finish(w, ok), r)
    ensures Inv(r) && q.workers[w].job !in q.ran
  {
    FinishJobs(q, r, w, ok);
    FinishCounts(q, r, w, ok);
  }

  // A worker without a running job moves to a state without one.
  lemma LeaveInv(q: Queue, a: Action, r: Queue, w: nat)
    requires Inv(q) && Step(q, a, r) && (a == CountError(w) || a == CountDone(w) || a == Exit(w))
    ensures Inv(r)
  {
    OthersRun(q.workers, w, r.workers[w]);
    WorkerMoves(q.workers, w, r.workers[w]);
  }

  lemma StepInv(q: Queue, a: Action, r: Queue)
    requires Inv(q) && Step(q, a, r)
    ensures Inv(r)
  {
    match a
    case Submit(job) => SubmitInv(q, r, job);
    case CountSent =>
    case Take(w) => TakeInv(q, r, w);
    case Finish(w, ok) => FinishInv(q, r, w, ok);
    case CountError(w) => LeaveInv(q, a, r, w);
    case CountDone(w) => LeaveInv(q, a, r, w);
    case Close =>
    case Exit(w) => LeaveInv(q, a, r, w);
  }

  // ---------- runs ----------

  ghost predicate IsRun(states: seq<Queue>, actions: seq<Action>) {
    && |states| == |actions| + 1 && Init(states[0])
    && forall i | 0 <= i < |actions| :: Step(states[i], actions[i], states[i + 1])
  }

  lemma {:induction false} RunInv(states: seq<Queue>, actions: seq<Action>, i: nat)
    requires IsRun(states, actions) && i < |states|
    ensures Inv(states[i])
  {
    if i == 0 {
      InitInv(states[0]);
    } else {
      RunInv(states, actions, i - 1);
      StepInv(states[i - 1], actions[i - 1], states[i]);
    }
  }

  // Nothing is accepted once Stop has closed the queue.
  lemma {:induction false} ClosedAcceptsNothing(states: seq<Queue>, actions: seq<Action>, i: nat, j: nat)
    requires IsRun(states, actions) && i <= j < |states| && states[i].closed
    ensures states[j].closed && states[j].accepted == states[i].accepted
    decreases j - i
  {
    if i == j {
    } else {
      ClosedAcceptsNothing(states, actions, i, j - 1);
    }
  }

  // No job ever runs a second time.
  lemma RunsAtMostOnce(states: seq<Queue>, actions: seq<Action>, i: nat, w: nat, ok: bool)
    requires IsRun(states, actions) && i < |actions| && actions[i] == Finish(w, ok)
    ensures w < |states[i].workers| && states[i].workers[w].Running? && states[i].workers[w].job !in states[i].ran
  {
    RunInv(states, actions, i);
    FinishInv(states[i], states[i + 1], w, ok);
  }

  // When Stop returns, exactly the jobs accepted before it have run, each failure is counted,
  // and what is pending is owed only by submitters that have not counted their job yet.
  lemma DrainedIsComplete(states: seq<Queue>, actions: seq<Action>, i: nat, j: nat)
    requires IsRun(states, actions) && i <= j < |states| && states[i].closed && Drained(states[j])
    ensures states[j].ran.Keys == states[i].accepted && states[j].jobs == []
    ensures states[j].errors == |FailedRuns(states[j].ran)|
    ensures states[j].pending + states[j].sending == 0
  {
    RunInv(states, actions, j);
    ClosedAcceptsNothing(states, actions, i, j);
    var q := states[j];
    assert q.workers[0] == Exited;
    assert Busy(q.workers) == {} && Erring(q.workers) == {};
  }

  // ---------- sinks: what cannot be queued is delivered at once ----------

  // A history, audit or alert sink in front of the queue: `direct` holds the items handed to the next sink
  // by the recorder itself, `recorded` every item ever recorded.
  datatype Sink = Sink(queue: Queue, recorded: set<Job>, direct: set<Job>)

  datatype SinkAction = Record(item: Job) | Inside(action: Action)

  ghost predicate SinkStep(s: Sink, a: SinkAction, t: Sink) {
    match a
    case Record(item) =>
      && item !in s.recorded && t.recorded == s.recorded + {item}
      && Step(s.queue, Submit(item), t.queue)
      && t.direct == if AnswerOf(s.queue) == Sent then s.direct else s.direct + {item}
    case Inside(action) =>
      !action.Submit? && Step(s.queue, action, t.queue) && t.recorded == s.recorded && t.direct == s.direct
  }

  ghost predicate SinkInv(s: Sink) {
    Inv(s.queue) && s.recorded == s.queue.accepted + s.direct && s.queue.accepted !! s.direct
  }

  lemma SinkStepInv(s: Sink, a: SinkAction, t: Sink)
    requires SinkInv(s) && SinkStep(s, a, t)
    ensures SinkInv(t)
  {
    match a
    case Record(item) => StepInv(s.queue, Submit(item), t.queue);
    case Inside(action) => StepInv(s.queue, action, t.queue);
  }

  ghost predicate IsSinkRun(states: seq<Sink>, actions: seq<SinkAction>) {
    && |states| == |actions| + 1
    && Init(states[0].queue) && states[0].recorded == {} && states[0].direct == {}
    && forall i | 0 <= i < |actions| :: SinkStep(states[i], actions[i], states[i + 1])
  }

  lemma {:induction false} SinkRunInv(states: seq<Sink>, actions: seq<SinkAction>, i: nat)
    requires IsSinkRun(states, actions) && i < |states|
    ensures SinkInv(states[i])
  {
    if i == 0 {
      InitInv(states[0].queue);
    } else {
      SinkRunInv(states, actions, i - 1);
      SinkStepInv(states[i - 1], actions[i - 1], states[i]);
    }
  }

  // Whenever the queue is drained, every item ever recorded has reached the next sink exactly once:
  // by its one queued run or by its recorder, never by both, even if it was recorded after Stop.
  lemma RecordedExactlyOnce(states: seq<Sink>, actions: seq<SinkAction>, i: nat)
    requires IsSinkRun(states, actions) && i < |states| && Drained(states[i].queue)
    ensures states[i].recorded == states[i].queue.ran.Keys + states[i].direct
    ensures states[i].queue.ran.Keys !! states[i].direct
  {
    SinkRunInv(states, actions, i);
    DrainedRanAll(states[i].queue);
  }

  lemma DrainedRanAll(q: Queue)
    requires Inv(q) && Drained(q)
    ensures q.ran.Keys == q.accepted && q.jobs == []
  {
    assert q.workers[0] == Exited;
  }

  // ---------- the object ----------

  ghost function Failures(jobs: seq<Job>, fails: Job -> bool): nat {
    if jobs == [] then 0 else One(fails(jobs[0])) + Failures(jobs[1..], fails)
  }

  ghost function Shifted(a: set<nat>): set<nat> {
    set i | i in a :: i + 1
  }

  lemma {:induction false} ShiftedSize(a: set<nat>)
    ensures |Shifted(a)| == |a|
    decreases |a|
  {
    if a == {} {
      assert Shifted(a) == {};
    } else {
      var x :| x in a;
      forall y | y in Shifted(a) - {x + 1}
        ensures y in Shifted(a - {x})
      {
        assert y - 1 in a - {x};
      }
      assert Shifted(a) - {x + 1} == Shifted(a - {x}) && x + 1 in Shifted(a);
      ShiftedSize(a - {x});
      SizeWithout(Shifted(a), x + 1);
    }
  }

  // As many as there are places whose job fails.
  lemma {:induction false} FailuresAreCounted(jobs: seq<Job>, fails: Job -> bool)
    ensures Failures(jobs, fails) == |set i | 0 <= i < |jobs| && fails(jobs[i])|
  {
    var all := set i | 0 <= i < |jobs| && fails(jobs[i]);
    if jobs == [] {
      assert all == {};
    } else {
      var rest := set i | 0 <= i < |jobs[1..]| && fails(jobs[1..][i]);
      FailuresAreCounted(jobs[1..], fails);
      ShiftedSize(rest);
      forall i | i in all - {0}
        ensures i in Shifted(rest)
      {
        assert i - 1 in rest;
      }
      assert all - {0} == Shifted(rest);
      SizeWithout(all, 0);
    }
  }

  class AsyncQueue {
    const capacity: nat
    var closed: bool
    var jobs: seq<Job>
    var pending: int
    var errors: nat
    ghost var ran: seq<Job>  // in the order they ran

    // A capacity that is not positive becomes one.
    constructor (capacity: int)
      ensures this.capacity == if capacity <= 0 then 1 else capacity
      ensures !closed && jobs == [] && pending == 0 && errors == 0 && ran == []
    {
      this.capacity := if capacity <= 0 then 1 else capacity;
      closed, jobs, pending, errors, ran := false, [], 0, 0, [];
    }

    method Submit(job: Job) returns (a: Answer)
      modifies this
      ensures a == if old(closed) then Stopped else if |old(jobs)| < capacity then Sent else Full
      ensures jobs == if a == Sent then old(jobs) + [job] else old(jobs)
      ensures pending == if a == Sent then old(pending) + 1 else old(pending)
      ensures closed == old(closed) && errors == old(errors) && ran == old(ran)
    {
      if closed { return Stopped; }
      if |jobs| >= capacity { return Full; }
      jobs := jobs + [job];
      pending := pending + 1;
      a := Sent;
    }

    // The loop of a worker that finds the queue to itself.
    method Work(fails: Job -> bool)
      modifies this
      ensures jobs == [] && ran == old(ran) + old(jobs)
      ensures pending == old(pending) - |old(jobs)|
      ensures errors == old(errors) + Failures(old(jobs), fails)
      ensures closed == old(closed)
    {
      while jobs != []
        invariant ran + jobs == old(ran) + old(jobs)
        invariant pending - |jobs| == old(pending) - |old(jobs)|
        invariant errors + Failures(jobs, fails) == old(errors) + Failures(old(jobs), fails)
        invariant closed == old(closed)
        decreases |jobs|
      {
        var job := jobs[0];
        assert jobs == [job] + jobs[1..];
        jobs := jobs[1..];
        ran := ran + [job];
        if fails(job) { errors := errors + 1; }
        pending := pending - 1;
      }
    }

    // Only the first Stop closes and drains.
    method Stop(fails: Job -> bool)
      modifies this
      ensures closed
      ensures old(closed) ==> jobs == old(jobs) && ran == old(ran) && pending == old(pending) && errors == old(errors)
      ensures !old(closed) ==> jobs == [] && ran == old(ran) + old(jobs) && pending == old(pending) - |old(jobs)|
      ensures !old(closed) ==> errors == old(errors) + Failures(old(jobs), fails)
    {
      if !closed {
        closed := true;
        Work(fails);
      }
    }
  }

  class AsyncSink {
    const queue: AsyncQueue
    ghost var direct: seq<Job>  // handed to the next sink by Record itself

    constructor (capacity: int)
      ensures fresh(queue) && !queue.closed && queue.jobs == [] && queue.ran == [] && direct == []
    {
      queue := new AsyncQueue(capacity);
      direct := [];
    }

    // The item is queued, or handed over before Record returns: never both, never neither.
    method Record(item: Job)
      modifies this, queue
      ensures queue.closed == old(queue.closed) && queue.ran == old(queue.ran)
      ensures var queued := !old(queue.closed) && |old(queue.jobs)| < queue.capacity;
              && queue.jobs == (if queued then old(queue.jobs) + [item] else old(queue.jobs))
              && direct == (if queued then old(direct) else old(direct) + [item])
    {
      var a := queue.Submit(item);
      if a == Full || a == Stopped { direct := direct + [item]; }
    }
  }
}
