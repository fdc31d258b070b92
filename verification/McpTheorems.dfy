/** What holds in every run of calls, reconnections and failures over MCP connections. */
module McpTheorems {
  import opened Counting
  import opened McpHealth
  import opened McpRuns

  // ---------- every step ----------

  function Cleared(s: State, id: Id): State
    requires id in s.items
  {
    s.(closed := Closing(s.closed, s.handles, s.items[id]), handles := CloseDone(s.handles, s.items[id]), items := s.items - {id})
  }

  // Connecting first clears the entry there is.
  lemma ConnectFirstClears(s: State, a: Action, t: State)
    requires ItemsOk(s.handles, s.items) && HandlesOk(s.closed, s.handles)
    requires a.Connect? && Enabled(s, a) && a.service in s.items && ConnectStep(s, a, t)
    ensures Enabled(Cleared(s, a.service), a) && ConnectStep(Cleared(s, a.service), a, t)
  {
    assert s.items[a.service := a.handle] == (s.items - {a.service})[a.service := a.handle];
    assert (s.items - {a.service}) - {a.service} == s.items - {a.service};
  }

  lemma ConnectStepKeeps(s: State, a: Action, t: State)
    requires s in SAFE && a.Connect? && Enabled(s, a) && ConnectStep(s, a, t)
    ensures t in SAFE
  {
    if a.service in s.items {
      CloseKeeps(s, a.service, false);
      ConnectFirstClears(s, a, t);
      NewEntryKeeps(Cleared(s, a.service), a, t);
    } else {
      NewEntryKeeps(s, a, t);
    }
  }

  lemma NewEntryKeeps(s: State, a: Action, t: State)
    requires s in SAFE && a.Connect? && Enabled(s, a) && a.service !in s.items && ConnectStep(s, a, t)
    ensures t in SAFE
  {
    assert s.items - {a.service} == s.items;
    ConnectKeeps(s, a);
  }

  lemma DropStepKeeps(s: State, a: Action, t: State)
    requires s in SAFE && Step(s, a, t) && a.Drop?
    ensures t in SAFE
  {
    hide HandlesOk, NoLeak, CallsOk;
    var h := s.calls[a.call].handle;
    var id := s.handles[h].service;
    var moved := s.(calls := s.calls[a.call := Over(h)]);
    CallKeeps(s, a.call, Over(h), s.handles[h]);
    assert s.handles[h := s.handles[h]] == s.handles;
    if id in s.items && s.items[id] == h { CloseKeeps(moved, id, false); }
  }

  lemma BeginStepKeeps(s: State, a: Action, t: State)
    requires s in SAFE && Step(s, a, t) && a.Begin?
    ensures t in SAFE
  {
    var call := s.calls[a.call];
    var b := if call.counted then Counted(s.handles[call.handle], 1) else s.handles[call.handle];
    CallKeeps(s, a.call, Calling(call.handle, call.counted), b);
    assert s.handles[call.handle := s.handles[call.handle]] == s.handles;
  }

  lemma ReturnStepKeeps(s: State, a: Action, t: State)
    requires s in SAFE && Step(s, a, t) && a.Return?
    ensures t in SAFE
  {
    var call := s.calls[a.call];
    CallKeeps(s, a.call, Returned(call.handle, call.counted, a.result), s.handles[call.handle]);
    assert s.handles[call.handle := s.handles[call.handle]] == s.handles;
  }

  lemma EndStepKeeps(s: State, a: Action, t: State)
    requires s in SAFE && Step(s, a, t) && a.End?
    ensures t in SAFE
    ensures s.calls[a.call].counted ==> s.handles[s.calls[a.call].handle].runtime.inFlight > 0
  {
    var call := s.calls[a.call];
    var b := if call.counted then Counted(s.handles[call.handle], -1) else s.handles[call.handle];
    CallKeeps(s, a.call, Ended(call.handle, call.result), b);
    assert s.handles[call.handle := s.handles[call.handle]] == s.handles;
  }

  lemma MarkStepKeeps(s: State, a: Action, t: State)
    requires s in SAFE && Step(s, a, t) && a.Mark?
    ensures t in SAFE
  {
    var call := s.calls[a.call];
    var next := if call.result == SessionLost then Dropping(call.handle) else Over(call.handle);
    CallKeeps(s, a.call, next, Marked(s.handles[call.handle], call.result));
  }

  lemma FetchStepKeeps(s: State, a: Action, t: State)
    requires s in SAFE && Step(s, a, t) && a.Fetch?
    ensures t in SAFE
  {
    var h := s.items[a.service];
    CallKeeps(s, a.call, Fetched(h, a.counted), s.handles[h]);
    assert s.handles[h := s.handles[h]] == s.handles;
  }

  predicate IsCallAction(a: Action) {
    a.Begin? || a.Return? || a.End? || a.Mark? || a.Drop?
  }

  lemma CallStepKeeps(s: State, a: Action, t: State)
    requires s in SAFE && Step(s, a, t) && IsCallAction(a)
    ensures t in SAFE
  {
    match a
    case Begin(_) => BeginStepKeeps(s, a, t);
    case Return(_, _) => ReturnStepKeeps(s, a, t);
    case End(_) => EndStepKeeps(s, a, t);
    case Mark(_) => MarkStepKeeps(s, a, t);
    case Drop(_) => DropStepKeeps(s, a, t);
  }

  lemma StepKeeps(s: State, a: Action, t: State)
    requires s in SAFE && Step(s, a, t)
    ensures t in SAFE
  {
    match a
    case Connect(_, _, _, _, _, _, _, _, _) => ConnectStepKeeps(s, a, t);
    case Disconnect(id, closeOk) => if id in s.items { CloseKeeps(s, id, t.items == s.items); }
    case Fetch(_, _, _) => FetchStepKeeps(s, a, t);
    case Lose(h, _) => if t != s { UpdateKeeps(s, h, t.handles[h]); }
    case Notify(h, _) => if t != s { UpdateKeeps(s, h, t.handles[h]); }
    case ApplyHealth(id, _, _, _) => if id in s.items { UpdateKeeps(s, s.items[id], t.handles[s.items[id]]); }
    case _ => CallStepKeeps(s, a, t);
  }

  lemma {:induction false} RunSafe(states: seq<State>, actions: seq<Action>, i: nat)
    requires IsRun(states, actions) && i < |states|
    ensures states[i] in SAFE
  {
    if i == 0 {
    } else {
      RunSafe(states, actions, i - 1);
      StepKeeps(states[i - 1], actions[i - 1], states[i]);
    }
  }

  // ---------- connections ----------

  ghost function Open(closed: map<Id, bool>): set<Id> {
    set c | c in closed && !closed[c]
  }

  // A low-level client on which Close was never called is the connection of an entry. What an attempt to connect that
  // fails has closed itself, at whatever stage, is Built; McpInitialize derives it from the stages and the objects.
  lemma NoConnectionLeaks(states: seq<State>, actions: seq<Action>, i: nat, c: Id)
    requires IsRun(states, actions) && i < |states| && c in Open(states[i].closed)
    ensures exists id :: id in states[i].items && states[i].items[id] in states[i].handles
                         && states[i].handles[states[i].items[id]].client == c
  {
    RunSafe(states, actions, i);
    assert Holds(states[i].handles, states[i].items, c);
  }

  lemma {:induction false} ImageIsSmaller(items: map<Id, Id>, handles: map<Id, Handle>, image: set<Id>, keys: set<Id>)
    requires forall c | c in image :: exists id :: id in keys && id in items && items[id] in handles && handles[items[id]].client == c
    ensures |image| <= |keys|
    decreases |image|
  {
    if image != {} {
      var c :| c in image;
      var id :| id in keys && id in items && items[id] in handles && handles[items[id]].client == c;
      ImageIsSmaller(items, handles, image - {c}, keys - {id});
      SizeWithout(image, c);
      SizeWithout(keys, id);
    }
  }

  // So there are never more open clients than entries.
  lemma OpenIsBounded(states: seq<State>, actions: seq<Action>, i: nat)
    requires IsRun(states, actions) && i < |states|
    ensures |Open(states[i].closed)| <= |states[i].items|
  {
    var s := states[i];
    forall c | c in Open(s.closed)
      ensures exists id :: id in s.items.Keys && id in s.items && s.items[id] in s.handles && s.handles[s.items[id]].client == c
    {
      NoConnectionLeaks(states, actions, i, c);
    }
    ImageIsSmaller(s.items, s.handles, Open(s.closed), s.items.Keys);
  }

  lemma HandleStays(s: State, a: Action, t: State, h: Id)
    requires Step(s, a, t) && h in s.handles
    ensures h in t.handles && t.handles[h].client == s.handles[h].client && t.handles[h].service == s.handles[h].service
    ensures forall c | c in s.closed && s.closed[c] :: c in t.closed && t.closed[c]
  {
  }

  // A handle never changes its connection, and what has been closed stays closed.
  lemma {:induction false} ConnectionStays(states: seq<State>, actions: seq<Action>, i: nat, j: nat, h: Id)
    requires IsRun(states, actions) && i <= j < |states| && h in states[i].handles
    ensures h in states[j].handles && states[j].handles[h].client == states[i].handles[h].client
    ensures forall c | c in states[i].closed && states[i].closed[c] :: c in states[j].closed && states[j].closed[c]
    decreases j - i
  {
    if i == j {
    } else {
      ConnectionStays(states, actions, i, j - 1, h);
      HandleStays(states[j - 1], actions[j - 1], states[j], h);
    }
  }

  // Late events of a connection that was switched away from, whenever they come, change nothing.
  lemma LateEventsAreIgnored(states: seq<State>, actions: seq<Action>, i: nat, j: nat, h: Id, c: Id)
    requires IsRun(states, actions) && i <= j < |actions| && h in states[i].handles && states[i].handles[h].client != c
    requires actions[j] == Lose(h, c) || actions[j] == Notify(h, c)
    ensures states[j + 1] == states[j]
  {
    ConnectionStays(states, actions, i, j, h);
  }

  // ---------- calls on old handles ----------

  lemma CallTouchesOwn(s: State, a: Action, t: State, id: Id)
    requires s in SAFE && Step(s, a, t) && IsCallAction(a) && id in s.items && s.items[id] != s.calls[a.call].handle
    ensures id in t.items && t.items[id] == s.items[id]
    ensures var h := s.items[id]; h in s.handles && h in t.handles && t.handles[h] == s.handles[h]
    ensures s.handles[s.items[id]].client in s.closed
    ensures s.handles[s.items[id]].client in t.closed
    ensures t.closed[s.handles[s.items[id]].client] == s.closed[s.handles[s.items[id]].client]
  {
    if a.Drop? {
      DropTouchesOwn(s, a, t, id);
    } else {
      assert t.closed == s.closed && t.items == s.items;
    }
  }

  lemma DropTouchesOwn(s: State, a: Action, t: State, id: Id)
    requires s in SAFE && Step(s, a, t) && a.Drop? && id in s.items && s.items[id] != s.calls[a.call].handle
    ensures id in t.items && t.items[id] == s.items[id]
    ensures var h := s.items[id]; h in s.handles && h in t.handles && t.handles[h] == s.handles[h]
    ensures s.handles[s.items[id]].client in s.closed
    ensures s.handles[s.items[id]].client in t.closed
    ensures t.closed[s.handles[s.items[id]].client] == s.closed[s.handles[s.items[id]].client]
  {
  }

  // Whatever a call does with the handle it fetched, ending with a lost session included: an entry that by then has
  // another handle keeps it, with its connection and its run-time state untouched.
  lemma OldHandleIsHarmless(states: seq<State>, actions: seq<Action>, i: nat, id: Id)
    requires IsRun(states, actions) && i < |actions| && IsCallAction(actions[i])
    requires id in states[i].items && actions[i].call in states[i].calls
    requires states[i].items[id] != states[i].calls[actions[i].call].handle
    ensures var h := states[i].items[id];
            && id in states[i + 1].items && states[i + 1].items[id] == h
            && h in states[i].handles && h in states[i + 1].handles && states[i + 1].handles[h] == states[i].handles[h]
            && var c := states[i].handles[h].client;
               c in states[i].closed && c in states[i + 1].closed && states[i + 1].closed[c] == states[i].closed[c]
  {
    RunSafe(states, actions, i);
    CallTouchesOwn(states[i], actions[i], states[i + 1], id);
  }

  // An entry changes only by connecting or disconnecting its service, or by a call on the entry's own handle that
  // has found the session lost.
  lemma EntryChangesOnlyBy(states: seq<State>, actions: seq<Action>, i: nat, id: Id)
    requires IsRun(states, actions) && i < |actions| && id in states[i].items
    requires !(id in states[i + 1].items && states[i + 1].items[id] == states[i].items[id])
    ensures match actions[i]
            case Connect(service, _, _, _, _, _, _, _, _) => service == id
            case Disconnect(service, _) => service == id
            case Drop(c) => c in states[i].calls && states[i].calls[c] == Dropping(states[i].items[id])
            case _ => false
  {
    RunSafe(states, actions, i);
    EntryStep(states[i], actions[i], states[i + 1], id);
  }

  lemma EntryStep(s: State, a: Action, t: State, id: Id)
    requires s in SAFE && Step(s, a, t) && id in s.items && !(id in t.items && t.items[id] == s.items[id])
    ensures match a
            case Connect(service, _, _, _, _, _, _, _, _) => service == id
            case Disconnect(service, _) => service == id
            case Drop(c) => c in s.calls && s.calls[c] == Dropping(s.items[id])
            case _ => false
  {
  }

  // ---------- counting ----------

  // A handle's count is the number of business calls between begin and end on it, whatever has become of the handle.
  lemma InFlightIsExact(states: seq<State>, actions: seq<Action>, i: nat, h: Id)
    requires IsRun(states, actions) && i < |states| && h in states[i].handles
    ensures states[i].handles[h].runtime.inFlight == |Interactions(states[i].calls, h)|
  {
    RunSafe(states, actions, i);
  }

  // So the guard against counting below zero is never needed.
  lemma GuardIsNeverNeeded(states: seq<State>, actions: seq<Action>, i: nat)
    requires IsRun(states, actions) && i < |actions| && actions[i].End?
    ensures var s, c := states[i], actions[i].call;
            && c in s.calls && s.calls[c].Returned? && s.calls[c].handle in s.handles
            && (s.calls[c].counted ==> s.handles[s.calls[c].handle].runtime.inFlight > 0)
  {
    RunSafe(states, actions, i);
    EndStepKeeps(states[i], actions[i], states[i + 1]);
  }

  // ---------- what connecting, disconnecting and losing a session leave ----------

  // A connection that serves becomes the entry, open and with nothing under way; one that does not leaves no entry.
  // What was there before is closed either way, and no other entry is touched.
  lemma ConnectLeaves(states: seq<State>, actions: seq<Action>, i: nat)
    requires IsRun(states, actions) && i < |actions| && actions[i].Connect?
    ensures var s, t, a := states[i], states[i + 1], actions[i];
            && (forall id | id != a.service :: id in t.items <==> id in s.items)
            && (forall id | id != a.service && id in s.items :: t.items[id] == s.items[id])
            && (a.service in s.items ==>
                  var h := s.items[a.service];
                  h in s.handles && s.handles[h].client in t.closed && t.closed[s.handles[h].client])
            && if C.PrimaryServes(a.cfg, a.answers) || C.FallbackServes(a.cfg, a.answers) then
                 && a.service in t.items && t.items[a.service] == a.handle && a.handle in t.handles
                 && var h := t.handles[a.handle];
                    && h.client == (if C.PrimaryServes(a.cfg, a.answers) then a.primary else a.fallback)
                    && h.client in t.closed && !t.closed[h.client] && !h.closeDone
                    && h.runtime.status == Connected && h.runtime.inFlight == 0
               else a.service !in t.items
  {
    RunSafe(states, actions, i);
    ConnectEffects(states[i], actions[i], states[i + 1]);
  }

  lemma ConnectEffects(s: State, a: Action, t: State)
    requires s in SAFE && a.Connect? && Step(s, a, t)
    ensures && (forall id | id != a.service :: id in t.items <==> id in s.items)
            && (forall id | id != a.service && id in s.items :: t.items[id] == s.items[id])
            && (a.service in s.items ==>
                  var h := s.items[a.service];
                  h in s.handles && s.handles[h].client in t.closed && t.closed[s.handles[h].client])
            && if C.PrimaryServes(a.cfg, a.answers) || C.FallbackServes(a.cfg, a.answers) then
                 && a.service in t.items && t.items[a.service] == a.handle && a.handle in t.handles
                 && var h := t.handles[a.handle];
                    && h.client == (if C.PrimaryServes(a.cfg, a.answers) then a.primary else a.fallback)
                    && h.client in t.closed && !t.closed[h.client] && !h.closeDone
                    && h.runtime.status == Connected && h.runtime.inFlight == 0
               else a.service !in t.items
  {
  }

  // Disconnecting closes the connection, and drops the entry unless closing has answered with an error the first time.
  lemma DisconnectLeaves(states: seq<State>, actions: seq<Action>, i: nat)
    requires IsRun(states, actions) && i < |actions| && actions[i].Disconnect?
    ensures var s, t, id := states[i], states[i + 1], actions[i].service;
            if id !in s.items then t == s
            else
              var h := s.items[id];
              && h in s.handles && h in t.handles && t.handles[h].closeDone
              && s.handles[h].client in t.closed && t.closed[s.handles[h].client]
              && t.items == (if actions[i].closeOk || s.handles[h].closeDone then s.items - {id} else s.items)
  {
    RunSafe(states, actions, i);
  }

  // A call ends on its handle as its result says.
  lemma CallEndsAsItReturned(states: seq<State>, actions: seq<Action>, i: nat)
    requires IsRun(states, actions) && i < |actions| && actions[i].Mark?
    ensures var s, t, c := states[i], states[i + 1], actions[i].call;
            && c in s.calls && s.calls[c].Ended? && c in t.calls && t.items == s.items && t.closed == s.closed
            && var h := s.calls[c].handle;
               && t.calls[c] == (if s.calls[c].result == SessionLost then Dropping(h) else Over(h))
               && h in s.handles && h in t.handles
               && var before, after := s.handles[h].runtime, t.handles[h].runtime;
                  match s.calls[c].result
                  case Ok => after == Runtime(Connected, 0, false, s.handles[h].listens, before.hasSession, before.inFlight)
                  case Failed => after == before.(failing := true, listening := false)
                  case SessionLost => after == Runtime(InError, before.failureCount, true, false, false, before.inFlight)
  {
    hide Step;
    MarkEffects(states[i], actions[i], states[i + 1]);
  }

  // And a lost session, if the handle is still the entry's own, takes the entry with it and closes its connection.
  lemma LostSessionIsDropped(states: seq<State>, actions: seq<Action>, i: nat)
    requires IsRun(states, actions) && i < |actions| && actions[i].Drop?
    ensures var s, t, c := states[i], states[i + 1], actions[i].call;
            && c in s.calls && s.calls[c].Dropping?
            && var h := s.calls[c].handle;
               && h in s.handles
               && var id := s.handles[h].service;
                  if id in s.items && s.items[id] == h then
                    && t.items == s.items - {id} && s.handles[h].client in t.closed && t.closed[s.handles[h].client]
                  else t.items == s.items && t.closed == s.closed
  {
    RunSafe(states, actions, i);
    DropEffects(states[i], actions[i], states[i + 1]);
  }

  lemma DropEffects(s: State, a: Action, t: State)
    requires s in SAFE && Step(s, a, t) && a.Drop?
    ensures a.call in s.calls && s.calls[a.call].Dropping?
    ensures var h := s.calls[a.call].handle;
            && h in s.handles
            && var id := s.handles[h].service;
               if id in s.items && s.items[id] == h then
                 && t.items == s.items - {id} && s.handles[h].client in t.closed && t.closed[s.handles[h].client]
               else t.items == s.items && t.closed == s.closed
  {
  }

  lemma MarkEffects(s: State, a: Action, t: State)
    requires Step(s, a, t) && a.Mark?
    ensures a.call in s.calls && s.calls[a.call].Ended? && t.items == s.items && t.closed == s.closed
    ensures var h := s.calls[a.call].handle;
            && h in s.handles
            && t.calls == s.calls[a.call := if s.calls[a.call].result == SessionLost then Dropping(h) else Over(h)]
            && t.handles == s.handles[h := Marked(s.handles[h], s.calls[a.call].result)]
  {
  }
}
