/** The making of one connection, step by step: events of its clients come in between, and what is built, closed
    and served in the end is what the runs of McpRuns take it to be. */
module McpInitialize {
  import opened Options
  import opened McpConnect
  import opened McpHealth
  import R = McpRuns

  datatype Which = Primary | Fallback

  // What is done next. Between any two stages a client may report a lost connection or deliver a notification.
  datatype Stage =
    | Starting
    | Initializing
    | BuildingFallback
    | StartingFallback
    | InitializingFallback
    | ClosingPrimary
    | Switching
    | Restoring
    | ClosingFallback
    | Writing
    | Validating
    | Closing(error: Error)
    | Done(result: Result)

  // `closed` says of every client built so far whether Close has been called on it.
  datatype State = State(stage: Stage, active: Option<Which>, closed: map<Which, bool>, runtime: Runtime)

  datatype Action = Advance | Lose(client: Which) | Notify(client: Which)

  // ---------- steps ----------

  function Gone(s: State, w: Which): map<Which, bool> {
    s.closed[w := true]
  }

  function Violated(cfg: Service, a: Answers, w: Which): bool {
    if w == Primary then !SessionFits(cfg, cfg.transport, a.session) else !SessionFits(cfg, Sse, a.fallbackSession)
  }

  // Initialization goes on, with the answers that the outside gives.
  function Advanced(cfg: Service, a: Answers, listens: bool, s: State): State {
    match s.stage
    case Starting => s.(stage := if a.started then Initializing else Closing(StartFailed))
    case Initializing =>
      s.(stage := if a.initialized then Writing
                  else if cfg.transport == StreamableHttp && cfg.allowsLegacySse then BuildingFallback
                  else Closing(InitFailed))
    case BuildingFallback =>
      s.(stage := if a.fallbackBuilt then StartingFallback else Closing(InitFailed),
         closed := if a.fallbackBuilt then s.closed[Fallback := false] else s.closed)
    case StartingFallback =>
      s.(stage := if a.fallbackStarted then InitializingFallback else Closing(FallbackStartFailed),
         closed := if a.fallbackStarted then s.closed else Gone(s, Fallback))
    case InitializingFallback =>
      s.(stage := if a.fallbackInitialized then ClosingPrimary else Closing(FallbackInitFailed),
         closed := if a.fallbackInitialized then s.closed else Gone(s, Fallback),
         active := if a.fallbackInitialized then None else s.active)
    case ClosingPrimary => s.(stage := if a.primaryClosed then Switching else Restoring, closed := Gone(s, Primary))
    case Switching => s.(stage := Writing, active := Some(Fallback))
    case Restoring => s.(stage := ClosingFallback, active := Some(Primary))
    case ClosingFallback => s.(stage := Closing(CloseFailed), closed := Gone(s, Fallback))
    case Writing =>
      s.(stage := Validating,
         runtime := s.runtime.(status := Connected, listening := listens,
                               hasSession := if s.active == Some(Fallback) then a.fallbackSession else a.session))
    case Validating =>
      var w := if s.active == Some(Fallback) then Fallback else Primary;
      s.(stage := if Violated(cfg, a, w) then Closing(Violation(cfg))
                  else Done(if w == Fallback then OverFallback else OverPrimary),
         runtime := if Violated(cfg, a, w) then Terminated(s.runtime) else s.runtime)
    case Closing(e) =>
      s.(stage := Done(Refused(e)), closed := if s.active.Some? then Gone(s, s.active.value) else s.closed)
    case Done(_) => s
  }

  // Events of a client that is not the active one are ignored.
  predicate Step(cfg: Service, a: Answers, listens: bool, s: State, action: Action, t: State) {
    match action
    case Advance => t == Advanced(cfg, a, listens, s)
    case Lose(w) =>
      w in s.closed && t == if s.active == Some(w) then s.(runtime := Lost(s.runtime)) else s
    case Notify(w) => w in s.closed && t == if s.active == Some(w) then s.(runtime := Heard(s.runtime)) else s
  }

  predicate Init(s: State) {
    s.stage == Starting && s.active == Some(Primary) && s.closed == map[Primary := false]
  }

  // Initializing starts with a client that has been built.
  predicate IsRun(cfg: Service, a: Answers, listens: bool, states: seq<State>, actions: seq<Action>) {
    && IsBuilt(cfg, a) && |states| == |actions| + 1 && Init(states[0])
    && forall i {:trigger actions[i]} | 0 <= i < |actions| :: Step(cfg, a, listens, states[i], actions[i], states[i + 1])
  }

  // ---------- the invariant ----------

  predicate Open(s: State, primary: bool) {
    s.closed == map[Primary := !primary]
  }

  predicate BothBuilt(s: State, primary: bool, fallback: bool) {
    s.closed == map[Primary := !primary, Fallback := !fallback]
  }

  // A stage tells which clients are open, which is active, and what has been answered on the way to it.
  predicate Fits(cfg: Service, a: Answers, s: State) {
    var falls := a.started && !a.initialized && cfg.transport == StreamableHttp && cfg.allowsLegacySse;
    match s.stage
    case Starting => s.active == Some(Primary) && Open(s, true)
    case Initializing => s.active == Some(Primary) && Open(s, true) && a.started
    case BuildingFallback => s.active == Some(Primary) && Open(s, true) && falls
    case StartingFallback => s.active == Some(Primary) && BothBuilt(s, true, true) && falls && a.fallbackBuilt
    case InitializingFallback =>
      s.active == Some(Primary) && BothBuilt(s, true, true) && falls && a.fallbackBuilt && a.fallbackStarted
    case ClosingPrimary => s.active == None && BothBuilt(s, true, true) && FallbackReady(cfg, a)
    case Switching => s.active == None && BothBuilt(s, false, true) && FallbackReady(cfg, a) && a.primaryClosed
    case Restoring => s.active == None && BothBuilt(s, false, true) && FallbackReady(cfg, a) && !a.primaryClosed
    case ClosingFallback => s.active == Some(Primary) && BothBuilt(s, false, true) && FallbackReady(cfg, a) && !a.primaryClosed
    case Writing => Ready(cfg, a, s)
    case Validating => Ready(cfg, a, s)
    case Closing(e) => Refusing(cfg, a, s, e)
    case Done(r) => Ended(cfg, a, s, r)
  }

  predicate FallbackReady(cfg: Service, a: Answers) {
    && a.started && !a.initialized && cfg.transport == StreamableHttp && cfg.allowsLegacySse
    && a.fallbackBuilt && a.fallbackStarted && a.fallbackInitialized
  }

  // One client is left open, the active one, and it has been initialized.
  predicate Ready(cfg: Service, a: Answers, s: State) {
    || (s.active == Some(Primary) && Open(s, true) && a.started && a.initialized)
    || (s.active == Some(Fallback) && BothBuilt(s, false, true) && FallbackReady(cfg, a) && a.primaryClosed)
  }

  // Nothing is open but the active client, which is about to be closed.
  predicate Refusing(cfg: Service, a: Answers, s: State, e: Error) {
    && s.active.Some? && s.active.value in s.closed
    && s.closed.Keys == BuiltClients(cfg, a)
    && (forall w | w in s.closed && !s.closed[w] :: s.active == Some(w))
    && e == Refusal(cfg, a)
    && !(a.started && a.initialized && SessionFits(cfg, cfg.transport, a.session))
    && !(FallbackReady(cfg, a) && a.primaryClosed && SessionFits(cfg, Sse, a.fallbackSession))
  }

  function BuiltClients(cfg: Service, a: Answers): set<Which> {
    {Primary} + if a.started && !a.initialized && cfg.transport == StreamableHttp && cfg.allowsLegacySse && a.fallbackBuilt
                then {Fallback} else {}
  }

  predicate Ended(cfg: Service, a: Answers, s: State, r: Result) {
    match r
    case OverPrimary =>
      && s.active == Some(Primary) && Open(s, true) && a.started && a.initialized && SessionFits(cfg, cfg.transport, a.session)
    case OverFallback =>
      && s.active == Some(Fallback) && BothBuilt(s, false, true) && FallbackReady(cfg, a) && a.primaryClosed
      && SessionFits(cfg, Sse, a.fallbackSession)
    case Refused(e) => Refusing(cfg, a, s, e) && forall w | w in s.closed :: s.closed[w]
  }

  lemma PrimaryAdvanceFits(cfg: Service, a: Answers, listens: bool, s: State)
    requires IsBuilt(cfg, a) && Fits(cfg, a, s) && (s.stage.Starting? || s.stage.Initializing? || s.stage.BuildingFallback?)
    ensures Fits(cfg, a, Advanced(cfg, a, listens, s))
  {
  }

  lemma FallbackAdvanceFits(cfg: Service, a: Answers, listens: bool, s: State)
    requires IsBuilt(cfg, a) && Fits(cfg, a, s)
    requires s.stage.StartingFallback? || s.stage.InitializingFallback? || s.stage.ClosingPrimary? || s.stage.Switching?
             || s.stage.Restoring? || s.stage.ClosingFallback?
    ensures Fits(cfg, a, Advanced(cfg, a, listens, s))
  {
  }

  lemma LastAdvanceFits(cfg: Service, a: Answers, listens: bool, s: State)
    requires IsBuilt(cfg, a) && Fits(cfg, a, s)
    requires s.stage.Writing? || s.stage.Validating? || s.stage.Closing? || s.stage.Done?
    ensures Fits(cfg, a, Advanced(cfg, a, listens, s))
  {
  }

  lemma AdvanceFits(cfg: Service, a: Answers, listens: bool, s: State)
    requires IsBuilt(cfg, a) && Fits(cfg, a, s)
    ensures Fits(cfg, a, Advanced(cfg, a, listens, s))
  {
    hide Fits, Advanced;
    if s.stage.Starting? || s.stage.Initializing? || s.stage.BuildingFallback? { PrimaryAdvanceFits(cfg, a, listens, s); }
    else if s.stage.Writing? || s.stage.Validating? || s.stage.Closing? || s.stage.Done? { LastAdvanceFits(cfg, a, listens, s); }
    else { FallbackAdvanceFits(cfg, a, listens, s); }
  }

  lemma StepFits(cfg: Service, a: Answers, listens: bool, s: State, action: Action, t: State)
    requires IsBuilt(cfg, a) && Fits(cfg, a, s) && Step(cfg, a, listens, s, action, t)
    ensures Fits(cfg, a, t)
  {
    if action == Advance { AdvanceStepFits(cfg, a, listens, s, t); } else { EventFits(cfg, a, listens, s, action, t); }
  }

  lemma AdvanceStepFits(cfg: Service, a: Answers, listens: bool, s: State, t: State)
    requires IsBuilt(cfg, a) && Fits(cfg, a, s) && Step(cfg, a, listens, s, Advance, t)
    ensures Fits(cfg, a, t)
  {
    hide Fits, Advanced;
    AdvanceFits(cfg, a, listens, s);
  }

  lemma EventFits(cfg: Service, a: Answers, listens: bool, s: State, action: Action, t: State)
    requires Fits(cfg, a, s) && Step(cfg, a, listens, s, action, t) && action != Advance
    ensures Fits(cfg, a, t)
  {
  }

  lemma {:induction false} RunFits(cfg: Service, a: Answers, listens: bool, states: seq<State>, actions: seq<Action>, i: nat)
    requires IsRun(cfg, a, listens, states, actions) && i < |states|
    ensures Fits(cfg, a, states[i])
  {
    if i == 0 {
    } else {
      RunFits(cfg, a, listens, states, actions, i - 1);
      StepFits(cfg, a, listens, states[i - 1], actions[i - 1], states[i]);
    }
  }

  // ---------- what comes out ----------

  function Name(a: R.Action, w: Which): R.Id
    requires a.Connect?
  {
    if w == Primary then a.primary else a.fallback
  }

  // Whatever events come in between, an initialization that ends has built and closed what one Connect step of the
  // manager's machine says, and serves exactly if that does, over the same client.
  lemma InitializeIsConnect(a: R.Action, states: seq<State>, actions: seq<Action>)
    requires a.Connect? && a.primary != a.fallback
    requires IsRun(a.cfg, a.answers, a.listens, states, actions) && states[|actions|].stage.Done?
    ensures var s, built := states[|actions|], R.Built(a);
            && built.Keys <= {a.primary, a.fallback} && (forall w :: w in s.closed <==> Name(a, w) in built)
            && (forall w | w in s.closed :: built[Name(a, w)] == s.closed[w])
            && (!s.stage.result.Refused? <==> R.Serves(a))
            && (R.Serves(a) ==> s.active.Some? && R.NewHandle(a).client == Name(a, s.active.value))
            && (s.stage.result.Refused? ==> s.stage.result.error == Refusal(a.cfg, a.answers))
  {
    RunFits(a.cfg, a.answers, a.listens, states, actions, |actions|);
  }

  // ---------- losses during initialization ----------

  // The final state has been written.
  predicate IsWritten(s: State) {
    s.stage.Validating? || s.stage.Done?
  }

  // The active client reports its connection lost, and the final state has been written before.
  predicate LosesWritten(s: State, action: Action) {
    IsWritten(s) && s.active.Some? && action == Lose(s.active.value)
  }

  predicate LostAfterWrite(states: seq<State>, actions: seq<Action>, i: nat)
    requires i <= |actions| <= |states|
  {
    exists k :: 0 <= k < i && LosesWritten(states[k], actions[k])
  }

  predicate IsEarly(s: State) {
    !IsWritten(s) && !s.stage.Closing?
  }

  lemma EarlyBefore(cfg: Service, a: Answers, listens: bool, s: State, action: Action, t: State)
    requires Step(cfg, a, listens, s, action, t) && IsEarly(t)
    ensures IsEarly(s)
  {
  }

  // Before the final write nothing has been written.
  lemma {:induction false} EarlyAllAlong(cfg: Service, a: Answers, listens: bool, states: seq<State>, actions: seq<Action>, k: nat, i: nat)
    requires IsRun(cfg, a, listens, states, actions) && k <= i < |states| && IsEarly(states[i])
    ensures IsEarly(states[k])
    decreases i - k
  {
    if k == i {
    } else {
      EarlyBefore(cfg, a, listens, states[i - 1], actions[i - 1], states[i]);
      EarlyAllAlong(cfg, a, listens, states, actions, k, i - 1);
    }
  }

  predicate Serving(s: State) {
    s.stage.Validating? || (s.stage.Done? && !s.stage.result.Refused?)
  }

  // A step into a state that serves, and what it does to the status.
  lemma StepIntoServing(cfg: Service, a: Answers, listens: bool, s: State, action: Action, t: State)
    requires Fits(cfg, a, s) && Step(cfg, a, listens, s, action, t) && Serving(t)
    ensures s.stage.Writing? ==> IsEarly(s) && t.runtime.status == Connected && !LosesWritten(s, action)
    ensures !s.stage.Writing? ==> Serving(s)
    ensures !s.stage.Writing? ==> t.runtime.status == (if LosesWritten(s, action) then InError else s.runtime.status)
  {
  }

  lemma OneMoreEvent(states: seq<State>, actions: seq<Action>, i: nat)
    requires i < |actions| <= |states|
    ensures LostAfterWrite(states, actions, i + 1)
            <==> LostAfterWrite(states, actions, i) || LosesWritten(states[i], actions[i])
  {
  }

  lemma {:induction false} StatusSinceWrite(cfg: Service, a: Answers, listens: bool, states: seq<State>, actions: seq<Action>, i: nat)
    requires IsRun(cfg, a, listens, states, actions) && i < |states| && Serving(states[i])
    ensures states[i].runtime.status == (if LostAfterWrite(states, actions, i) then InError else Connected)
  {
    if i == 0 {
    } else {
      var s := states[i - 1];
      RunFits(cfg, a, listens, states, actions, i - 1);
      StepIntoServing(cfg, a, listens, s, actions[i - 1], states[i]);
      OneMoreEvent(states, actions, i - 1);
      if s.stage.Writing? {
        forall k | 0 <= k < i - 1
          ensures !LosesWritten(states[k], actions[k])
        {
          EarlyAllAlong(cfg, a, listens, states, actions, k, i - 1);
        }
      } else {
        StatusSinceWrite(cfg, a, listens, states, actions, i - 1);
      }
    }
  }

  // A connection that serves is reported as lost if and only if the active client has reported it lost after the final
  // state had been written; a loss reported before that is overwritten.
  lemma LossIsSeenIffAfterWrite(cfg: Service, a: Answers, listens: bool, states: seq<State>, actions: seq<Action>)
    requires IsRun(cfg, a, listens, states, actions)
    requires states[|actions|].stage.Done? && !states[|actions|].stage.result.Refused?
    ensures states[|actions|].runtime.status == InError
       <==> exists k | 0 <= k < |actions| ::
              && (states[k].stage.Validating? || states[k].stage.Done?)
              && states[k].active.Some? && actions[k] == Lose(states[k].active.value)
  {
    StatusSinceWrite(cfg, a, listens, states, actions, |actions|);
    if LostAfterWrite(states, actions, |actions|) {
      var k :| 0 <= k < |actions| && LosesWritten(states[k], actions[k]);
      assert states[k].stage.Validating? || states[k].stage.Done?;
    } else {
      forall k | 0 <= k < |actions| && (states[k].stage.Validating? || states[k].stage.Done?) && states[k].active.Some?
        ensures actions[k] != Lose(states[k].active.value)
      {
        assert !LosesWritten(states[k], actions[k]);
      }
    }
  }

  // Such a run: the connection is lost while it is being initialized, and served as connected all the same.
  lemma LostButServed(r: Runtime) returns (a: Answers, states: seq<State>, actions: seq<Action>)
    ensures IsRun(Service(Sse, Auto, false), a, false, states, actions) && Lose(Primary) in actions
    ensures |states| == 6 && states[2].active == Some(Primary) && states[2].runtime.status == InError
    ensures states[5].stage == Done(OverPrimary) && states[5].runtime.status == Connected
  {
    var cfg := Service(Sse, Auto, false);
    a := Answers(true, true, true, false, false, false, false, false, false);
    var s0 := State(Starting, Some(Primary), map[Primary := false], r);
    var s1 := Advanced(cfg, a, false, s0);
    var s2 := s1.(runtime := Lost(r));
    var s3 := Advanced(cfg, a, false, s2);
    var s4 := Advanced(cfg, a, false, s3);
    var s5 := Advanced(cfg, a, false, s4);
    states := [s0, s1, s2, s3, s4, s5];
    actions := [Advance, Lose(Primary), Advance, Advance, Advance];
    assert actions[1] == Lose(Primary);
  }

  // ---------- the switch-over ----------

  predicate PastPrimary(s: State) {
    s.stage.ClosingPrimary? || s.stage.Switching? || s.active == Some(Fallback)
  }

  lemma PastPrimaryStays(cfg: Service, a: Answers, listens: bool, s: State, action: Action, t: State)
    requires IsBuilt(cfg, a) && Fits(cfg, a, s) && Step(cfg, a, listens, s, action, t) && PastPrimary(s) && a.primaryClosed
    ensures PastPrimary(t) && (action == Lose(Primary) || action == Notify(Primary) ==> t == s)
  {
  }

  lemma {:induction false} PastPrimaryForGood(cfg: Service, a: Answers, listens: bool, states: seq<State>, actions: seq<Action>, i: nat, j: nat)
    requires IsRun(cfg, a, listens, states, actions) && i <= j < |states| && PastPrimary(states[i]) && a.primaryClosed
    ensures PastPrimary(states[j])
    decreases j - i
  {
    if i == j {
    } else {
      PastPrimaryForGood(cfg, a, listens, states, actions, i, j - 1);
      RunFits(cfg, a, listens, states, actions, j - 1);
      PastPrimaryStays(cfg, a, listens, states[j - 1], actions[j - 1], states[j]);
    }
  }

  // From the moment the declared connection has lost its place to the fallback, before it is closed and ever after,
  // none of its late events changes anything.
  lemma SwitchedOffIsIgnored(cfg: Service, a: Answers, listens: bool, states: seq<State>, actions: seq<Action>, i: nat, j: nat)
    requires IsRun(cfg, a, listens, states, actions) && i <= j < |actions| && a.primaryClosed
    requires states[i].stage == ClosingPrimary && (actions[j] == Lose(Primary) || actions[j] == Notify(Primary))
    ensures states[j + 1] == states[j]
  {
    PastPrimaryForGood(cfg, a, listens, states, actions, i, j);
    RunFits(cfg, a, listens, states, actions, j);
    PastPrimaryStays(cfg, a, listens, states[j], actions[j], states[j + 1]);
  }

  // If the declared connection cannot be closed it gets its place back only to be closed once more: no client is open.
  lemma FailedSwitchLeavesNothingOpen(cfg: Service, a: Answers, listens: bool, states: seq<State>, actions: seq<Action>)
    requires IsRun(cfg, a, listens, states, actions) && states[|actions|].stage == Done(Refused(CloseFailed))
    ensures states[|actions|].closed == map[Primary := true, Fallback := true]
  {
    RunFits(cfg, a, listens, states, actions, |actions|);
  }

  // ---------- the objects ----------

  lemma OneOrTwo<T>(s: set<T>, x: T)
    requires x in s && |s| <= 2
    ensures |s| == 1 ==> s == {x}
    ensures |s| == 2 ==> exists y :: y != x && s == {x, y}
  {
    var rest := s - {x};
    assert |rest| == |s| - 1;
    if |s| == 1 {
      assert rest == {};
      assert s == {x} + rest;
    } else {
      var y :| y in rest;
      assert |rest - {y}| == 0;
      assert s == {x, y} + (rest - {y});
    }
  }

  // Making a managed client builds and closes what one Connect step of the manager's machine says, and serves over
  // the same connection: `names` gives each low-level object its identifier there.
  method MakeNamed(a: R.Action) returns (r: Result, mc: ManagedClient, ghost names: map<LowClient, R.Id>)
    requires a.Connect? && a.primary != a.fallback
    ensures fresh(mc) && mc.service == a.cfg && forall c | c in mc.built :: fresh(c)
    ensures !r.Refused? <==> R.Serves(a)
    ensures names.Keys == mc.built && forall c, d | c in names && d in names && c != d :: names[c] != names[d]
    ensures forall c | c in names :: names[c] in R.Built(a) && R.Built(a)[names[c]] == c.closed
    ensures |names| == |R.Built(a)|
    ensures R.Serves(a) ==> mc.client != null && mc.client in names && names[mc.client] == R.NewHandle(a).client
  {
    r, mc := NewManagedClient(a.cfg, a.answers);
    names := map[];
    if IsBuilt(a.cfg, a.answers) {
      ghost var active: LowClient;
      if r.Refused? { active :| active in mc.built; } else { active := mc.client; }
      OneOrTwo(mc.built, active);
      if FallbackBuilt(a.cfg, a.answers) {
        ghost var other :| other != active && mc.built == {active, other};
        names := if r == OverFallback then map[active := a.fallback, other := a.primary]
                 else map[active := a.primary, other := a.fallback];
      } else {
        names := map[active := a.primary];
      }
    }
  }
}
