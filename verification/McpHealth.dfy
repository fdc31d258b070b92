/** The run-time state of one connected MCP service, and how the health checker drives it. */
module McpHealth {
  import opened Options

  datatype Status = Connecting | Connected | InError

  // `failing` says that a last error is recorded.
  datatype Runtime = Runtime(status: Status, failureCount: int, failing: bool, listening: bool, hasSession: bool, inFlight: int)

  datatype CallResult = Ok | Failed | SessionLost

  // A probe pings; a service that does not know ping is asked for its tools instead.
  datatype Probe = Ping(result: CallResult) | ListTools(result: CallResult)

  // What can happen to one client, one thing at a time: a probe, a business call, the transport reporting
  // a lost connection or delivering a notification.
  datatype Event = Probed(probe: Probe) | Called(result: CallResult) | ConnectionLost | Notified

  // ---------- the updates ----------

  function Seen(r: Runtime, listens: bool): Runtime {
    r.(status := Connected, failureCount := 0, failing := false, listening := listens)
  }

  function Erred(r: Runtime): Runtime {
    r.(failing := true, listening := false)
  }

  function Terminated(r: Runtime): Runtime {
    r.(status := InError, failing := true, listening := false, hasSession := false)
  }

  function Lost(r: Runtime): Runtime {
    r.(status := InError, failing := true, listening := false)
  }

  function Heard(r: Runtime): Runtime {
    r.(listening := true)
  }

  function WithHealth(r: Runtime, status: Status, failureCount: int, failed: bool, listens: bool): Runtime {
    r.(status := status, failureCount := failureCount, failing := failed, listening := !failed && listens)
  }

  // ---------- the objects ----------

  class Client {
    const listens: bool
    var runtime: Runtime
    var removed: bool  // the manager has dropped it and closed its connection

    constructor (listens: bool, runtime: Runtime)
      ensures this.listens == listens && this.runtime == runtime && !removed
    {
      this.listens, this.runtime, removed := listens, runtime, false;
    }

    // What every call reports, before anyone else looks at the client.
    method Finish(result: CallResult)
      modifies this
      ensures runtime == match result
                         case Ok => Seen(old(runtime), listens)
                         case Failed => Erred(old(runtime))
                         case SessionLost => Terminated(old(runtime))
      ensures removed == (old(removed) || result == SessionLost)
    {
      match result {
        case Ok =>
          runtime := runtime.(status := Connected, failureCount := 0);
          runtime := runtime.(failing := false, listening := listens);
        case Failed =>
          runtime := runtime.(failing := true, listening := false);
        case SessionLost =>
          runtime := runtime.(status := InError, hasSession := false);
          runtime := runtime.(failing := true, listening := false);
          removed := true;
      }
    }

    // The health checker finds its client by the name of the service, and so not once it has been removed.
    method ApplyHealth(status: Status, failureCount: int, failed: bool)
      modifies this`runtime
      ensures runtime == if removed then old(runtime) else WithHealth(old(runtime), status, failureCount, failed, listens)
    {
      if !removed {
        runtime := runtime.(status := status, failureCount := failureCount, failing := failed);
        runtime := runtime.(listening := if failed then false else listens);
      }
    }
  }

  // What the checker reports for the service record, besides what it applies to the client.
  datatype Report = Report(status: Status, failureCount: int)

  class Checker {
    const threshold: int

    constructor (threshold: int)
      ensures this.threshold == threshold
    {
      this.threshold := threshold;
    }

    method MarkHealthy(client: Client) returns (rep: Report)
      modifies client`runtime
      ensures rep == Report(Connected, 0)
      ensures !client.removed ==> client.runtime == Seen(old(client.runtime), client.listens)
      ensures client.removed ==> client.runtime == old(client.runtime)
    {
      client.ApplyHealth(Connected, 0, false);
      rep := Report(Connected, 0);
    }

    // A lost session goes to the error status at once, whatever the count was.
    method MarkFailure(client: Client, count: int, sessionLost: bool) returns (rep: Report)
      modifies client`runtime
      ensures sessionLost ==> rep == Report(InError, threshold)
      ensures !sessionLost ==> rep.failureCount == count + 1 && (rep.status == InError <==> count + 1 >= threshold)
      ensures rep.status != Connecting
      ensures !client.removed ==> client.runtime == WithHealth(old(client.runtime), rep.status, rep.failureCount, true, client.listens)
      ensures client.removed ==> client.runtime == old(client.runtime)
    {
      var next, status := count + 1, Connected;
      if sessionLost {
        next, status := threshold, InError;
      } else if next >= threshold {
        status := InError;
      }
      client.ApplyHealth(status, next, true);
      rep := Report(status, next);
    }

    // One probe. A ping that is not supported counts as failed on the client before the tools are asked for; what
    // the fallback fails with is passed on as text, so that a session lost there is counted like any failure. A service
    // dropped since its name was listed is not found, and reported with a first failure whatever it had before.
    method CheckOne(client: Client, probe: Probe) returns (rep: Report)
      modifies client
      ensures client.removed <==> (old(client.removed) || probe.result == SessionLost)
      ensures !old(client.removed) ==>
        client.runtime == AfterProbe(old(client.runtime), probe, threshold, client.listens) &&
        rep == Reported(old(client.runtime), probe, threshold)
      ensures !old(client.removed) ==>
        rep == if probe.result == Ok then Report(Connected, 0)
               else if probe == Ping(SessionLost) then Report(InError, threshold)
               else var count := old(client.runtime).failureCount + 1; Report(if count >= threshold then InError else Connected, count)
      ensures old(client.removed) ==>
        client.runtime == old(client.runtime) && rep == Report(if 1 >= threshold then InError else Connected, 1)
    {
      if client.removed {
        rep := MarkFailure(client, 0, false);
        return;
      }
      match probe {
        case Ping(result) =>
          client.Finish(result);
          if result == Ok {
            rep := MarkHealthy(client);
          } else {
            rep := MarkFailure(client, client.runtime.failureCount, result == SessionLost);
          }
        case ListTools(result) =>
          client.Finish(Failed);
          client.Finish(result);
          if result == Ok {
            rep := MarkHealthy(client);
          } else {
            rep := MarkFailure(client, client.runtime.failureCount, false);
          }
      }
    }
  }

  // ---------- traces ----------

  function Max(a: int, b: int): int {
    if a < b then b else a
  }

  // A failed probe sets both the count and the status anew.
  function AfterProbe(r: Runtime, probe: Probe, threshold: int, listens: bool): Runtime {
    match probe.result
    case Ok => Seen(r, listens)
    case SessionLost => Terminated(r)
    case Failed => r.(status := if r.failureCount + 1 >= threshold then InError else Connected,
                      failureCount := r.failureCount + 1, failing := true, listening := false)
  }

  function Reported(r: Runtime, probe: Probe, threshold: int): Report {
    if probe.result == Ok then Report(Connected, 0)
    else if probe == Ping(SessionLost) then Report(InError, threshold)
    else Report(if r.failureCount + 1 >= threshold then InError else Connected, r.failureCount + 1)
  }

  function After(r: Runtime, e: Event, threshold: int, listens: bool): Runtime {
    match e
    case Probed(probe) => AfterProbe(r, probe, threshold, listens)
    case Called(Ok) => Seen(r, listens)
    case Called(Failed) => Erred(r)
    case Called(SessionLost) => Terminated(r)
    case ConnectionLost => Lost(r)
    case Notified => Heard(r)
  }

  // Once a session has been lost the client is removed, and no probe finds it any more; a call that was under way
  // may still end on it.
  function AfterAll(r: Runtime, events: seq<Event>, threshold: int, listens: bool): Runtime {
    if events == [] then r
    else
      var last, before := events[|events| - 1], events[..|events| - 1];
      var now := AfterAll(r, before, threshold, listens);
      if Reaches(before, last) then After(now, last, threshold, listens) else now
  }

  predicate Succeeds(e: Event) {
    e == Called(Ok) || (e.Probed? && e.probe.result == Ok)
  }

  predicate ProbeFails(e: Event) {
    e.Probed? && e.probe.result == Failed
  }

  predicate LosesSession(e: Event) {
    e == Called(SessionLost) || (e.Probed? && e.probe.result == SessionLost)
  }

  predicate SessionGone(events: seq<Event>) {
    events != [] && (LosesSession(events[|events| - 1]) || SessionGone(events[..|events| - 1]))
  }

  predicate Reaches(before: seq<Event>, e: Event) {
    !(e.Probed? && SessionGone(before))
  }

  // The failed probes since the last success, counted from the events alone.
  function FailedProbes(events: seq<Event>): nat {
    if events == [] then 0
    else
      var last, before := events[|events| - 1], events[..|events| - 1];
      if !Reaches(before, last) then FailedProbes(before)
      else if Succeeds(last) then 0
      else FailedProbes(before) + (if ProbeFails(last) then 1 else 0)
  }

  // The connection or the session was lost, and no probe that found the client and no successful call has come since.
  function LostSince(events: seq<Event>): bool {
    if events == [] then false
    else
      var last, before := events[|events| - 1], events[..|events| - 1];
      if !Reaches(before, last) then LostSince(before)
      else last == ConnectionLost || LosesSession(last) || (!last.Probed? && !Succeeds(last) && LostSince(before))
  }

  predicate Fresh(r: Runtime) {
    r.status == Connected && r.failureCount == 0
  }

  // Starting just after a success and whatever happens then, the failure count is the number of failed probes since the
  // last success, and the service is in error exactly if that number has reached the threshold, or if its connection or
  // its session was lost and no probe or successful call has come since.
  lemma {:induction false} StatusIsExact(r: Runtime, events: seq<Event>, threshold: int, listens: bool)
    requires Fresh(r)
    ensures var now := AfterAll(r, events, threshold, listens);
            && now.failureCount == FailedProbes(events)
            && now.status == (if LostSince(events) || (FailedProbes(events) > 0 && FailedProbes(events) >= threshold)
                              then InError else Connected)
    decreases |events|
  {
    if events == [] {
    } else {
      StatusIsExact(r, events[..|events| - 1], threshold, listens);
    }
  }

  // A lost session is an error at once, however few probes have failed, and it stays one, whatever is probed, reported
  // or fails then, until a call that was still under way succeeds.
  lemma SessionLossIsAtOnce(r: Runtime, before: seq<Event>, e: Event, later: seq<Event>, threshold: int, listens: bool)
    requires Fresh(r) && LosesSession(e) && Reaches(before, e) && Called(Ok) !in later
    ensures AfterAll(r, before + [e] + later, threshold, listens).status == InError
  {
    StatusIsExact(r, before + [e] + later, threshold, listens);
    LostUntilCalled(before, e, later);
  }

  lemma {:induction false} LostUntilCalled(before: seq<Event>, e: Event, later: seq<Event>)
    requires LosesSession(e) && Reaches(before, e) && Called(Ok) !in later
    ensures LostSince(before + [e] + later) && SessionGone(before + [e] + later)
    decreases |later|
  {
    var all := before + [e] + later;
    if later == [] {
      assert all[..|all| - 1] == before;
    } else {
      var front := later[..|later| - 1];
      assert all[..|all| - 1] == before + [e] + front;
      assert later[|later| - 1] in later;
      LostUntilCalled(before, e, front);
    }
  }

  // So a failed probe can undo what the transport has reported: a connection lost, then one failed ping of two allowed.
  lemma LostConnectionComesBack(r: Runtime, listens: bool)
    requires Fresh(r)
    ensures AfterAll(r, [ConnectionLost], 2, listens).status == InError
    ensures AfterAll(r, [ConnectionLost, Probed(Ping(Failed))], 2, listens).status == Connected
  {
    var lost := [ConnectionLost];
    var both := [ConnectionLost, Probed(Ping(Failed))];
    assert lost[..0] == [] && both[..1] == lost;
    assert !SessionGone(lost[..0]) && !SessionGone(lost);
    assert AfterAll(r, lost, 2, listens) == Lost(r);
  }

  // Nothing in the events takes the connection or the session away.
  predicate WithoutLoss(events: seq<Event>) {
    forall x | x in events :: !LosesSession(x) && x != ConnectionLost
  }

  lemma StatusWithoutLoss(r: Runtime, events: seq<Event>, threshold: int, listens: bool)
    requires Fresh(r) && WithoutLoss(events)
    ensures AfterAll(r, events, threshold, listens).status
            == if FailedProbes(events) > 0 && FailedProbes(events) >= threshold then InError else Connected
  {
    hide AfterAll, FailedProbes, LostSince;
    StatusIsExact(r, events, threshold, listens);
    NeverLost(events);
  }

  lemma OneMoreProbe(events: seq<Event>, e: Event)
    requires WithoutLoss(events)
    ensures FailedProbes(events + [e]) == if Succeeds(e) then 0 else FailedProbes(events) + (if ProbeFails(e) then 1 else 0)
  {
    hide WithoutLoss, LostSince;
    NeverLost(events);
    assert (events + [e])[..|events|] == events;
  }

  // Without losses, the first move to the error status is made by the failed probe that is the threshold-th in a row
  // (the first one, if the threshold is not positive).
  lemma ErrorComesAtTheThreshold(r: Runtime, events: seq<Event>, e: Event, threshold: int, listens: bool)
    requires Fresh(r) && WithoutLoss(events + [e])
    requires AfterAll(r, events, threshold, listens).status == Connected
    ensures AfterAll(r, events + [e], threshold, listens).status == InError
            <==> ProbeFails(e) && FailedProbes(events) + 1 == Max(1, threshold)
  {
    hide AfterAll, FailedProbes;
    assert WithoutLoss(events) by { assert forall x | x in events :: x in events + [e]; }
    StatusWithoutLoss(r, events, threshold, listens);
    StatusWithoutLoss(r, events + [e], threshold, listens);
    OneMoreProbe(events, e);
  }

  lemma {:induction false} NeverLost(events: seq<Event>)
    requires WithoutLoss(events)
    ensures !LostSince(events) && !SessionGone(events)
    decreases |events|
  {
    if events == [] {
    } else {
      assert events[|events| - 1] in events;
      NeverLost(events[..|events| - 1]);
    }
  }

  // ---------- what one event leaves ----------

  // Every field after every kind of event.
  lemma EventEffects(r: Runtime, e: Event, threshold: int, listens: bool)
    ensures var now := After(r, e, threshold, listens);
            && now.inFlight == r.inFlight
            && now.status == (if Succeeds(e) then Connected
                              else if LosesSession(e) || e == ConnectionLost then InError
                              else if ProbeFails(e) then (if r.failureCount + 1 >= threshold then InError else Connected)
                              else r.status)
            && now.failureCount == (if Succeeds(e) then 0 else if ProbeFails(e) then r.failureCount + 1 else r.failureCount)
            && now.failing == (!Succeeds(e) && (r.failing || e != Notified))
            && now.listening == (if Succeeds(e) then listens else e == Notified)
            && now.hasSession == (r.hasSession && !LosesSession(e))
  {
  }

  // A service has a session until it is lost, and an error on record exactly if the last event that reached it, other
  // than a notification, was not a success.
  lemma {:induction false} FlagsAreExact(r: Runtime, events: seq<Event>, threshold: int, listens: bool)
    ensures var now := AfterAll(r, events, threshold, listens);
            && now.inFlight == r.inFlight
            && (now.hasSession <==> r.hasSession && !SessionGone(events))
            && (now.failing <==> match LastWord(events) case Some(e) => !Succeeds(e) case None => r.failing)
    decreases |events|
  {
    if events == [] {
    } else {
      var before, last := events[..|events| - 1], events[|events| - 1];
      FlagsAreExact(r, before, threshold, listens);
      EventEffects(AfterAll(r, before, threshold, listens), last, threshold, listens);
    }
  }

  function LastWord(events: seq<Event>): (e: Option<Event>)
    ensures e.Some? ==> e.value in events && e.value != Notified
  {
    if events == [] then None
    else
      var last, before := events[|events| - 1], events[..|events| - 1];
      if Reaches(before, last) && last != Notified then Some(last) else LastWord(before)
  }
}
