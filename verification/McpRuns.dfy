/** Calls over MCP connections while these are made, replaced and dropped.

    The manager's lock covers one action at a time; a call runs outside it, on the handle it fetched at the start,
    and each of its stages is a point at which anything else may come in between. */
module McpRuns {
  import opened Counting
  import C = McpConnect
  import opened McpHealth

  type Id = nat

  // A managed client: its one connection never changes once it can be fetched.
  datatype Handle = Handle(service: Id, client: Id, closeDone: bool, listens: bool, runtime: Runtime)

  // A call on a fetched handle; `counted` tells a business call from a ping.
  datatype Call =
    | Fetched(handle: Id, counted: bool)
    | Calling(handle: Id, counted: bool)
    | Returned(handle: Id, counted: bool, result: CallResult)
    | Ended(handle: Id, result: CallResult)
    | Dropping(handle: Id)
    | Over(handle: Id)

  // `closed` says of every low-level client ever built whether Close has been called on it.
  datatype State = State(closed: map<Id, bool>, handles: map<Id, Handle>, items: map<Id, Id>, calls: map<Id, Call>)

  datatype Action =
    | Connect(service: Id, cfg: C.Service, answers: C.Answers, listens: bool, failures: int, failing: bool,
              handle: Id, primary: Id, fallback: Id)
    | Disconnect(service: Id, closeOk: bool)
    | Fetch(call: Id, service: Id, counted: bool)
    | Begin(call: Id)
    | Return(call: Id, result: CallResult)
    | End(call: Id)
    | Mark(call: Id)
    | Drop(call: Id)
    | Lose(handle: Id, client: Id)
    | Notify(handle: Id, client: Id)
    | ApplyHealth(service: Id, status: Status, failureCount: int, failed: bool)

  // ---------- what the actions compute ----------

  function Closing(closed: map<Id, bool>, handles: map<Id, Handle>, h: Id): map<Id, bool> {
    if h in handles && !handles[h].closeDone then closed[handles[h].client := true] else closed
  }

  function CloseDone(handles: map<Id, Handle>, h: Id): map<Id, Handle> {
    if h in handles then handles[h := handles[h].(closeDone := true)] else handles
  }

  // The clients that connecting builds, and whether they are closed in the end.
  function Built(a: Action): map<Id, bool>
    requires a.Connect?
  {
    if !C.IsBuilt(a.cfg, a.answers) then map[]
    else if C.FallbackBuilt(a.cfg, a.answers) then map[a.primary := true, a.fallback := !C.FallbackServes(a.cfg, a.answers)]
    else map[a.primary := !C.PrimaryServes(a.cfg, a.answers)]
  }

  predicate Serves(a: Action)
    requires a.Connect?
  {
    C.PrimaryServes(a.cfg, a.answers) || C.FallbackServes(a.cfg, a.answers)
  }

  function NewHandle(a: Action): Handle
    requires a.Connect?
  {
    var client := if C.FallbackServes(a.cfg, a.answers) then a.fallback else a.primary;
    var session := if C.FallbackServes(a.cfg, a.answers) then a.answers.fallbackSession else a.answers.session;
    Handle(a.service, client, false, a.listens, Runtime(Connected, a.failures, a.failing, a.listens, session, 0))
  }

  // A call's last look at its handle.
  function Marked(h: Handle, result: CallResult): Handle {
    h.(runtime := match result
                  case Ok => Seen(h.runtime, h.listens)
                  case Failed => Erred(h.runtime)
                  case SessionLost => Terminated(h.runtime))
  }

  function Counted(h: Handle, change: int): Handle {
    h.(runtime := h.runtime.(inFlight := h.runtime.inFlight + change))
  }

  // ---------- steps ----------

  predicate Enabled(s: State, a: Action) {
    match a
    case Connect(_, _, _, _, _, _, h, p, f) => h !in s.handles && p !in s.closed && f !in s.closed && p != f
    case Disconnect(_, _) => true
    case Fetch(c, id, _) => c !in s.calls && id in s.items
    case Begin(c) => c in s.calls && s.calls[c].Fetched? && s.calls[c].handle in s.handles
    case Return(c, _) => c in s.calls && s.calls[c].Calling?
    case End(c) => c in s.calls && s.calls[c].Returned? && s.calls[c].handle in s.handles
    case Mark(c) => c in s.calls && s.calls[c].Ended? && s.calls[c].handle in s.handles
    case Drop(c) => c in s.calls && s.calls[c].Dropping? && s.calls[c].handle in s.handles
    case Lose(h, _) => h in s.handles
    case Notify(h, _) => h in s.handles
    case ApplyHealth(_, _, _, _) => true
  }

  ghost predicate CallStep(s: State, a: Action, t: State)
    requires Enabled(s, a) && (a.Begin? || a.Return? || a.End? || a.Mark? || a.Drop?)
  {
    var call := s.calls[a.call];
    var h := call.handle;
    match a
    case Begin(c) =>
      t == s.(calls := s.calls[c := Calling(h, call.counted)],
              handles := if call.counted then s.handles[h := Counted(s.handles[h], 1)] else s.handles)
    case Return(c, result) =>
      t == s.(calls := s.calls[c := Returned(h, call.counted, result)])
    case End(c) =>
      t == s.(calls := s.calls[c := Ended(h, call.result)],
              handles := if call.counted && s.handles[h].runtime.inFlight > 0 then s.handles[h := Counted(s.handles[h], -1)]
                         else s.handles)
    case Mark(c) =>
      t == s.(calls := s.calls[c := if call.result == SessionLost then Dropping(h) else Over(h)],
              handles := s.handles[h := Marked(s.handles[h], call.result)])
    case Drop(c) =>
      var id := s.handles[h].service;
      var own := id in s.items && s.items[id] == h;
      t == s.(calls := s.calls[c := Over(h)],
              items := if own then s.items - {id} else s.items,
              closed := if own then Closing(s.closed, s.handles, h) else s.closed,
              handles := if own then CloseDone(s.handles, h) else s.handles)
  }

  ghost predicate ConnectStep(s: State, a: Action, t: State)
    requires a.Connect?
  {
    var id := a.service;
    var left := if id in s.items then CloseDone(s.handles, s.items[id]) else s.handles;
    t == s.(closed := (if id in s.items then Closing(s.closed, s.handles, s.items[id]) else s.closed) + Built(a),
            handles := if Serves(a) then left[a.handle := NewHandle(a)] else left,
            items := if Serves(a) then s.items[id := a.handle] else s.items - {id})
  }

  // Closing an entry that has been closed before answers without an error.
  ghost predicate DisconnectStep(s: State, id: Id, closeOk: bool, t: State) {
    if id !in s.items then t == s
    else
      var h := s.items[id];
      var answered := closeOk || (h in s.handles && s.handles[h].closeDone);
      t == s.(closed := Closing(s.closed, s.handles, h), handles := CloseDone(s.handles, h),
              items := if answered then s.items - {id} else s.items)
  }

  // Events of a connection that is not the handle's own are ignored.
  ghost predicate EventStep(s: State, h: Id, client: Id, runtime: Runtime, t: State)
    requires h in s.handles
  {
    if s.handles[h].client != client then t == s
    else t == s.(handles := s.handles[h := s.handles[h].(runtime := runtime)])
  }

  ghost predicate HealthStep(s: State, a: Action, t: State)
    requires a.ApplyHealth?
  {
    if a.service in s.items && s.items[a.service] in s.handles then
      var h := s.items[a.service];
      var handle := s.handles[h];
      t == s.(handles := s.handles[h := handle.(runtime := WithHealth(handle.runtime, a.status, a.failureCount, a.failed, handle.listens))])
    else t == s
  }

  ghost predicate Step(s: State, a: Action, t: State) {
    Enabled(s, a) &&
    match a
    case Connect(_, _, _, _, _, _, _, _, _) => ConnectStep(s, a, t)
    case Disconnect(id, closeOk) => DisconnectStep(s, id, closeOk, t)
    case Fetch(c, id, counted) => t == s.(calls := s.calls[c := Fetched(s.items[id], counted)])
    case Lose(h, client) => EventStep(s, h, client, Lost(s.handles[h].runtime), t)
    case Notify(h, client) => EventStep(s, h, client, Heard(s.handles[h].runtime), t)
    case ApplyHealth(_, _, _, _) => HealthStep(s, a, t)
    case _ => CallStep(s, a, t)
  }

  predicate Init(s: State) {
    s == State(map[], map[], map[], map[])
  }

  ghost predicate IsRun(states: seq<State>, actions: seq<Action>) {
    && |states| == |actions| + 1 && Init(states[0])
    && forall i | 0 <= i < |actions| :: Step(states[i], actions[i], states[i + 1])
  }

  // ---------- the invariant ----------

  predicate ItemsOk(handles: map<Id, Handle>, items: map<Id, Id>) {
    forall id | id in items :: items[id] in handles && handles[items[id]].service == id
  }

  predicate HandlesOk(closed: map<Id, bool>, handles: map<Id, Handle>) {
    && (forall h | h in handles :: handles[h].client in closed && (handles[h].closeDone ==> closed[handles[h].client]))
    && (forall g, h | g in handles && h in handles && g != h :: handles[g].client != handles[h].client)
  }

  ghost predicate Holds(handles: map<Id, Handle>, items: map<Id, Id>, c: Id) {
    exists id :: id in items && items[id] in handles && handles[items[id]].client == c
  }

  // Every client that was ever built and not closed is the connection of an entry.
  ghost predicate NoLeak(closed: map<Id, bool>, handles: map<Id, Handle>, items: map<Id, Id>) {
    forall c | c in closed && !closed[c] :: Holds(handles, items, c)
  }

  predicate Counts(c: Call, h: Id) {
    (c.Calling? || c.Returned?) && c.counted && c.handle == h
  }

  ghost function Interactions(calls: map<Id, Call>, h: Id): set<Id> {
    set c | c in calls && Counts(calls[c], h)
  }

  ghost predicate CallsOk(handles: map<Id, Handle>, calls: map<Id, Call>) {
    && (forall c | c in calls :: calls[c].handle in handles)
    && (forall h | h in handles :: handles[h].runtime.inFlight == |Interactions(calls, h)|)
  }

  ghost predicate Inv(s: State) {
    ItemsOk(s.handles, s.items) && HandlesOk(s.closed, s.handles) && NoLeak(s.closed, s.handles, s.items)
    && CallsOk(s.handles, s.calls)
  }

  ghost const SAFE: iset<State> := iset s | Inv(s)

  // ---------- the invariant is kept ----------

  lemma CloseKeepsHandles(closed: map<Id, bool>, handles: map<Id, Handle>, h: Id)
    requires HandlesOk(closed, handles) && h in handles
    ensures HandlesOk(Closing(closed, handles, h), CloseDone(handles, h))
    ensures Closing(closed, handles, h)[handles[h].client]
  {
  }

  // Closing an entry's connection leaks nothing, whether the entry goes or stays.
  lemma CloseLeaksNothing(closed: map<Id, bool>, handles: map<Id, Handle>, items: map<Id, Id>, id: Id, keep: bool)
    requires HandlesOk(closed, handles) && NoLeak(closed, handles, items) && ItemsOk(handles, items) && id in items
    ensures NoLeak(Closing(closed, handles, items[id]), CloseDone(handles, items[id]), if keep then items else items - {id})
  {
    var h := items[id];
    var after, left := CloseDone(handles, h), if keep then items else items - {id};
    forall c | c in closed && !Closing(closed, handles, h)[c]
      ensures Holds(after, left, c)
    {
      assert Holds(handles, items, c);
      var k :| k in items && items[k] in handles && handles[items[k]].client == c;
      assert k in left && items[k] in after && after[items[k]].client == c;
    }
  }

  // What an update of a handle must leave alone.
  predicate SameHold(a: Handle, b: Handle) {
    b.service == a.service && b.client == a.client && b.closeDone == a.closeDone
  }

  lemma UpdateKeeps(s: State, h: Id, b: Handle)
    requires s in SAFE && h in s.handles && SameHold(s.handles[h], b)
    requires b.runtime.inFlight == s.handles[h].runtime.inFlight
    ensures s.(handles := s.handles[h := b]) in SAFE
  {
    UpdateLeaksNothing(s.closed, s.handles, s.items, h, b);
  }

  lemma UpdateLeaksNothing(closed: map<Id, bool>, handles: map<Id, Handle>, items: map<Id, Id>, h: Id, b: Handle)
    requires NoLeak(closed, handles, items) && h in handles && SameHold(handles[h], b)
    ensures NoLeak(closed, handles[h := b], items)
  {
    forall c | c in closed && !closed[c]
      ensures Holds(handles[h := b], items, c)
    {
      assert Holds(handles, items, c);
      var k :| k in items && items[k] in handles && handles[items[k]].client == c;
      assert handles[h := b][items[k]].client == c;
    }
  }

  // A call moves on, and its handle's count with it.
  lemma InteractionsMove(calls: map<Id, Call>, c: Id, next: Call, h: Id)
    ensures |Interactions(calls[c := next], h)| + One(c in calls && Counts(calls[c], h))
            == |Interactions(calls, h)| + One(Counts(next, h))
  {
    hide Counts;
    OthersInteract(calls, c, next, h);
    SizeWithout(Interactions(calls[c := next], h), c);
    SizeWithout(Interactions(calls, h), c);
  }

  lemma OthersInteract(calls: map<Id, Call>, c: Id, next: Call, h: Id)
    ensures Interactions(calls[c := next], h) - {c} == Interactions(calls, h) - {c}
    ensures c in Interactions(calls[c := next], h) <==> Counts(next, h)
  {
  }

  lemma CallMoveKeeps(handles: map<Id, Handle>, calls: map<Id, Call>, c: Id, next: Call, b: Handle)
    requires CallsOk(handles, calls) && next.handle in handles && (c in calls ==> calls[c].handle == next.handle)
    requires b.runtime.inFlight + One(c in calls && Counts(calls[c], next.handle))
             == handles[next.handle].runtime.inFlight + One(Counts(next, next.handle))
    ensures CallsOk(handles[next.handle := b], calls[c := next])
    ensures c in calls && Counts(calls[c], next.handle) ==> handles[next.handle].runtime.inFlight > 0
  {
    var after := handles[next.handle := b];
    forall h | h in after
      ensures after[h].runtime.inFlight == |Interactions(calls[c := next], h)|
    {
      InteractionsMove(calls, c, next, h);
    }
    if c in calls && Counts(calls[c], next.handle) {
      SizeWithout(Interactions(calls, next.handle), c);
    }
  }

  lemma CallKeeps(s: State, c: Id, next: Call, b: Handle)
    requires s in SAFE && next.handle in s.handles && (c in s.calls ==> s.calls[c].handle == next.handle)
    requires SameHold(s.handles[next.handle], b)
    requires b.runtime.inFlight + One(c in s.calls && Counts(s.calls[c], next.handle))
             == s.handles[next.handle].runtime.inFlight + One(Counts(next, next.handle))
    ensures s.(handles := s.handles[next.handle := b], calls := s.calls[c := next]) in SAFE
    ensures c in s.calls && Counts(s.calls[c], next.handle) ==> s.handles[next.handle].runtime.inFlight > 0
  {
    CallMoveKeeps(s.handles, s.calls, c, next, b);
    UpdateLeaksNothing(s.closed, s.handles, s.items, next.handle, b);
  }

  // An entry is closed, and deleted or kept.
  lemma CloseKeeps(s: State, id: Id, keep: bool)
    requires s in SAFE && id in s.items
    ensures s.(closed := Closing(s.closed, s.handles, s.items[id]), handles := CloseDone(s.handles, s.items[id]),
               items := if keep then s.items else s.items - {id}) in SAFE
  {
    CloseKeepsHandles(s.closed, s.handles, s.items[id]);
    CloseLeaksNothing(s.closed, s.handles, s.items, id, keep);
  }

  // A new connection, or none, comes in for a service that has no entry.
  lemma ConnectKeeps(s: State, a: Action)
    requires s in SAFE && a.Connect? && Enabled(s, a) && a.service !in s.items
    ensures s.(closed := s.closed + Built(a), handles := if Serves(a) then s.handles[a.handle := NewHandle(a)] else s.handles,
               items := if Serves(a) then s.items[a.service := a.handle] else s.items) in SAFE
  {
    hide HandlesOk, NoLeak, CallsOk;
    NewLeaksNothing(s.closed, s.handles, s.items, a);
    NewHandlesOk(s.closed, s.handles, a);
    NewHandleIsUnused(s.handles, s.calls, a);
  }

  lemma NewHandleIsUnused(handles: map<Id, Handle>, calls: map<Id, Call>, a: Action)
    requires a.Connect? && CallsOk(handles, calls) && a.handle !in handles
    ensures CallsOk(handles[a.handle := NewHandle(a)], calls)
  {
    assert Interactions(calls, a.handle) == {};
  }

  lemma NewHandlesOk(closed: map<Id, bool>, handles: map<Id, Handle>, a: Action)
    requires a.Connect? && HandlesOk(closed, handles)
    requires a.handle !in handles && a.primary !in closed && a.fallback !in closed
    ensures HandlesOk(closed + Built(a), if Serves(a) then handles[a.handle := NewHandle(a)] else handles)
  {
  }

  lemma NewLeaksNothing(closed: map<Id, bool>, handles: map<Id, Handle>, items: map<Id, Id>, a: Action)
    requires a.Connect? && NoLeak(closed, handles, items) && a.service !in items && a.handle !in handles
    requires ItemsOk(handles, items)
    ensures NoLeak(closed + Built(a), if Serves(a) then handles[a.handle := NewHandle(a)] else handles,
                   if Serves(a) then items[a.service := a.handle] else items)
  {
    var more := if Serves(a) then handles[a.handle := NewHandle(a)] else handles;
    var left := if Serves(a) then items[a.service := a.handle] else items;
    var all := closed + Built(a);
    forall c | c in all && !all[c]
      ensures Holds(more, left, c)
    {
      if c in Built(a) {
        assert left[a.service] == a.handle && more[a.handle].client == c;
      } else {
        assert Holds(handles, items, c);
        var k :| k in items && items[k] in handles && handles[items[k]].client == c;
        assert left[k] == items[k] && more[left[k]].client == c;
      }
    }
  }
}
