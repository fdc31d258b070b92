/** The cleanup list that assembling the application builds up, and its reverse execution. */
module Bootstrap {
  import opened Execution
  import opened ExecutionInvariants
  import P = ExecutionProgress
  import T = ExecutionTheorems

  // The switches that decide what there is to clean up. `healthChecks` is on only in roles with a local runtime,
  // `controlPlane` in roles that serve the control plane.
  datatype Config = Config(redis: bool, asyncAudit: bool, asyncAlert: bool, asyncHistory: bool, healthChecks: bool,
                           controlPlane: bool)

  // What a configuration has to stop or close.
  predicate Needs(cfg: Config, c: Cleanup) {
    match c
    case CloseDb => true
    case CloseRedis => cfg.redis
    case StopAudit => cfg.asyncAudit
    case StopAlert => cfg.asyncAlert
    case StopHistory => cfg.asyncHistory
    case StopTasks => true
    case StopHealth => cfg.healthChecks
    case StopAuditCleanup => cfg.controlPlane
  }

  // The order of registration.
  function Rank(c: Cleanup): nat {
    match c
    case CloseDb => 0
    case CloseRedis => 1
    case StopAudit => 2
    case StopAlert => 3
    case StopHistory => 4
    case StopTasks => 5
    case StopHealth => 6
    case StopAuditCleanup => 7
  }

  // Exactly what the configuration needs among the first `n` kinds, each once and in order.
  ghost predicate Registered(cfg: Config, fns: seq<Cleanup>, n: nat) {
    && (forall c :: c in fns <==> Needs(cfg, c) && Rank(c) < n)
    && (forall i, k | 0 <= i < k < |fns| :: Rank(fns[i]) < Rank(fns[k]))
  }

  lemma RegisterNext(cfg: Config, fns: seq<Cleanup>, c: Cleanup)
    requires Registered(cfg, fns, Rank(c))
    ensures Registered(cfg, if Needs(cfg, c) then fns + [c] else fns, Rank(c) + 1)
  {
    var more := if Needs(cfg, c) then fns + [c] else fns;
    forall x
      ensures x in more <==> Needs(cfg, x) && Rank(x) < Rank(c) + 1
    {
      assert Rank(x) == Rank(c) ==> x == c;
    }
    forall i | 0 <= i < |fns|
      ensures Rank(fns[i]) < Rank(c)
    {
      assert fns[i] in fns;
    }
  }

  lemma NothingRegistered(cfg: Config)
    ensures Registered(cfg, [], 0)
  {
  }

  lemma RegisteredTells(cfg: Config, fns: seq<Cleanup>)
    requires Registered(cfg, fns, 8)
    ensures CloseDb in fns && StopTasks in fns
    ensures (CloseRedis in fns <==> cfg.redis) && (StopAudit in fns <==> cfg.asyncAudit) && (StopAlert in fns <==> cfg.asyncAlert)
    ensures (StopHistory in fns <==> cfg.asyncHistory) && (StopHealth in fns <==> cfg.healthChecks)
    ensures StopAuditCleanup in fns <==> cfg.controlPlane
  {
  }

  method Build(cfg: Config) returns (fns: seq<Cleanup>)
    ensures Registered(cfg, fns, 8)
    ensures CloseDb in fns && StopTasks in fns
    ensures (CloseRedis in fns <==> cfg.redis) && (StopAudit in fns <==> cfg.asyncAudit) && (StopAlert in fns <==> cfg.asyncAlert)
    ensures (StopHistory in fns <==> cfg.asyncHistory) && (StopHealth in fns <==> cfg.healthChecks)
    ensures StopAuditCleanup in fns <==> cfg.controlPlane
  {
    hide Registered;
    assert Registered(cfg, [], 0) by { NothingRegistered(cfg); }
    RegisterNext(cfg, [], CloseDb);
    fns := [CloseDb];
    assert fns == [] + [CloseDb];
    RegisterNext(cfg, fns, CloseRedis);
    if cfg.redis { fns := fns + [CloseRedis]; }
    RegisterNext(cfg, fns, StopAudit);
    if cfg.asyncAudit { fns := fns + [StopAudit]; }
    RegisterNext(cfg, fns, StopAlert);
    if cfg.asyncAlert { fns := fns + [StopAlert]; }
    RegisterNext(cfg, fns, StopHistory);
    if cfg.asyncHistory { fns := fns + [StopHistory]; }
    RegisterNext(cfg, fns, StopTasks);
    fns := fns + [StopTasks];
    RegisterNext(cfg, fns, StopHealth);
    if cfg.healthChecks { fns := fns + [StopHealth]; }
    RegisterNext(cfg, fns, StopAuditCleanup);
    if cfg.controlPlane { fns := fns + [StopAuditCleanup]; }
    RegisteredTells(cfg, fns);
  }

  function Reversed(fns: seq<Cleanup>): (r: seq<Cleanup>)
    ensures |r| == |fns| && forall i | 0 <= i < |r| :: r[i] == fns[|fns| - 1 - i]
  {
    if fns == [] then [] else Reversed(fns[1..]) + [fns[0]]
  }

  // What was registered last runs first.
  method Cleanup(fns: seq<Cleanup>) returns (ran: seq<Cleanup>)
    ensures ran == Reversed(fns)
  {
    ran := [];
    var i := |fns| - 1;
    while i >= 0
      invariant -1 <= i < |fns|
      invariant |ran| == |fns| - 1 - i
      invariant forall k | 0 <= k < |ran| :: ran[k] == fns[|fns| - 1 - k]
    {
      ran := ran + [fns[i]];
      i := i - 1;
    }
  }

  lemma LaterRunsFirst(cfg: Config, fns: seq<Cleanup>, c: Cleanup, i: nat)
    requires Registered(cfg, fns, 8) && Needs(cfg, c)
    requires i < |fns| && Rank(Reversed(fns)[i]) < Rank(c)
    ensures c in Reversed(fns)[..i]
  {
    hide Registered;
    var plan := Reversed(fns);
    var m := |fns| - 1 - i;
    var k := RegisteredAt(cfg, fns, c, m);
    assert plan[..i][|fns| - 1 - k] == c;
  }

  // What ranks higher than the entry at `m` is registered after it.
  lemma RegisteredAt(cfg: Config, fns: seq<Cleanup>, c: Cleanup, m: nat) returns (k: nat)
    requires Registered(cfg, fns, 8) && Needs(cfg, c) && m < |fns| && Rank(fns[m]) < Rank(c)
    ensures m < k < |fns| && fns[k] == c
  {
    assert c in fns;
    k :| k < |fns| && fns[k] == c;
  }

  // Every configuration stops its task workers before its history queue, and closes the database after both.
  lemma EveryPlanIsOrdered(cfg: Config, fns: seq<Cleanup>)
    requires Registered(cfg, fns, 8)
    ensures CloseDb in Reversed(fns)
    ensures PlanOk(Reversed(fns), false, !cfg.asyncHistory)
    ensures TasksStopFirst(Reversed(fns), false)
  {
    var plan := Reversed(fns);
    assert CloseDb in fns;
    var k :| 0 <= k < |fns| && fns[k] == CloseDb;
    assert plan[|fns| - 1 - k] == CloseDb;
    forall i | 0 <= i < |plan| && (plan[i] == CloseDb || plan[i] == StopHistory)
      ensures StopTasks in plan[..i]
      ensures plan[i] == CloseDb && cfg.asyncHistory ==> StopHistory in plan[..i]
    {
      LaterRunsFirst(cfg, fns, StopTasks, i);
      if plan[i] == CloseDb && cfg.asyncHistory { LaterRunsFirst(cfg, fns, StopHistory, i); }
    }
  }

  // So, whatever the configuration, once Cleanup has returned every accepted task is terminal, and each of its runs
  // that called a tool has had its record handed to the sink of an open database.
  lemma CleanupLosesNothing(cfg: Config, fns: seq<Cleanup>, states: seq<State>, actions: seq<Action>, i: nat, id: Id)
    requires Registered(cfg, fns, 8)
    requires IsRun(states, actions) && states[0].plan == Reversed(fns) && states[0].historyStopped == !cfg.asyncHistory
    requires i < |states| && states[i].plan == [] && id in states[i].tasks
    ensures var s := states[i];
            && IsTerminal(s.tasks[id].status)
            && (id in s.reached <==> id in s.handed) && (id in s.handed ==> s.handed[id])
  {
    EveryPlanIsOrdered(cfg, fns);
    T.AfterCleanup(states, actions, i, id);
  }

  // Nor can Cleanup get stuck: whatever the workers, callers and queues are at, it can return, with that result.
  lemma CleanupCanReturn(cfg: Config, fns: seq<Cleanup>, states: seq<State>, actions: seq<Action>)
    returns (longer: seq<State>, more: seq<Action>)
    requires Registered(cfg, fns, 8)
    requires IsRun(states, actions) && states[0].plan == Reversed(fns) && states[0].historyStopped == !cfg.asyncHistory
    ensures IsRun(longer, more) && states <= longer && actions <= more
    ensures var s := longer[|more|];
            && s.plan == []
            && forall id | id in s.tasks ::
                 IsTerminal(s.tasks[id].status) && (id in s.reached <==> id in s.handed) && (id in s.handed ==> s.handed[id])
  {
    hide Step;
    EveryPlanIsOrdered(cfg, fns);
    longer, more := P.CleanupCanFinish(states, actions);
  }

  // And until then no record of a task is turned away by a history queue that has stopped.
  lemma CleanupStopsTasksInTime(cfg: Config, fns: seq<Cleanup>, states: seq<State>, actions: seq<Action>, i: nat)
    requires Registered(cfg, fns, 8) && cfg.asyncHistory
    requires IsRun(states, actions) && states[0].plan == Reversed(fns) && !states[0].historyStopped
    requires i < |actions| && actions[i].Record?
    ensures !states[i].history.closed
    ensures HandedBy(states[i], actions[i]) == {} <==> |states[i].history.jobs| < states[i].history.capacity
  {
    EveryPlanIsOrdered(cfg, fns);
    T.TaskRecordsAreQueued(states, actions, i);
  }
}
