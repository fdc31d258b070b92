/** Connecting to one MCP service: which low-level clients are built, which one stays open, and why it may fail. */
module McpConnect {
  datatype Transport = Stdio | Sse | StreamableHttp | UnknownTransport(name: string)
  datatype SessionMode = Auto | Required | Disabled | OtherMode(name: string)

  datatype Service = Service(transport: Transport, mode: SessionMode, allowsLegacySse: bool)

  // What the outside answers to each call that connecting may make.
  datatype Answers = Answers(
    built: bool, started: bool, initialized: bool, session: bool,
    fallbackBuilt: bool, fallbackStarted: bool, fallbackInitialized: bool, fallbackSession: bool, primaryClosed: bool)

  datatype Error = BuildFailed | StartFailed | InitFailed | FallbackStartFailed | FallbackInitFailed | CloseFailed
                 | SessionRequired | SessionDisabled

  datatype Result = OverPrimary | OverFallback | Refused(error: Error)

  // ---------- what is wanted ----------

  // A session policy binds streamable HTTP services only; one that requires sessions rules out the fallback.
  predicate SessionFits(s: Service, actual: Transport, session: bool) {
    s.transport == StreamableHttp ==>
      match s.mode
      case Required => actual == StreamableHttp && session
      case Disabled => !(actual == StreamableHttp && session)
      case _ => true
  }

  // Whether there is a first connection to work with at all.
  predicate IsBuilt(s: Service, a: Answers) {
    !s.transport.UnknownTransport? && a.built
  }

  predicate PrimaryServes(s: Service, a: Answers) {
    IsBuilt(s, a) && a.started && a.initialized && SessionFits(s, s.transport, a.session)
  }

  // The fallback is tried exactly when a streamable HTTP service that allows it starts but does not initialize.
  predicate FallbackBuilt(s: Service, a: Answers) {
    s.transport == StreamableHttp && a.built && a.started && !a.initialized && s.allowsLegacySse && a.fallbackBuilt
  }

  predicate FallbackServes(s: Service, a: Answers) {
    && FallbackBuilt(s, a) && a.fallbackStarted && a.fallbackInitialized && a.primaryClosed
    && SessionFits(s, Sse, a.fallbackSession)
  }

  function Violation(s: Service): Error {
    if s.mode == Required then SessionRequired else SessionDisabled
  }

  // Why a service that was built does not serve; a fallback that cannot be built leaves the first error standing.
  function Refusal(s: Service, a: Answers): Error {
    if !a.started then StartFailed
    else if a.initialized then Violation(s)
    else if !FallbackBuilt(s, a) then InitFailed
    else if !a.fallbackStarted then FallbackStartFailed
    else if !a.fallbackInitialized then FallbackInitFailed
    else if !a.primaryClosed then CloseFailed
    else Violation(s)
  }

  // ---------- the objects ----------

  class LowClient {
    var closed: bool  // Close has been called

    constructor ()
      ensures !closed
    {
      closed := false;
    }

    method Close()
      modifies this
      ensures closed
    {
      closed := true;
    }
  }

  class ManagedClient {
    const service: Service
    var client: LowClient?
    var actual: Transport
    var closeDone: bool
    ghost var built: set<LowClient>  // every low-level client made for this service

    constructor (service: Service)
      ensures this.service == service && client == null && actual == service.transport && !closeDone && built == {}
    {
      this.service, client, actual, closeDone, built := service, null, service.transport, false, {};
    }

    method Build(a: Answers) returns (ok: bool)
      requires built == {} && client == null
      modifies this
      ensures closeDone == old(closeDone) && actual == service.transport
      ensures ok <==> IsBuilt(service, a)
      ensures ok ==> client != null && fresh(client) && built == {client} && !client.closed
      ensures !ok ==> client == null && built == {}
    {
      actual := service.transport;
      ok := !service.transport.UnknownTransport? && a.built;
      if ok {
        client := new LowClient();
        built := {client};
      }
    }

    // Closes what is active now, the first time only.
    method Close()
      modifies this`closeDone, client
      ensures closeDone
      ensures client != null ==> client.closed == (!old(closeDone) || old(client.closed))
    {
      if !closeDone {
        closeDone := true;
        if client != null { client.Close(); }
      }
    }

    // At most one client stays open: the active one.
    ghost predicate OnlyActiveOpen()
      reads this, built
    {
      forall c | c in built :: c.closed || c == client
    }

    method Initialize(a: Answers) returns (r: Result)
      requires client != null && built == {client} && !client.closed && actual == service.transport && !closeDone
      requires IsBuilt(service, a)
      modifies this, client
      ensures !closeDone && client != null && client in built && OnlyActiveOpen()
      ensures forall c | c in built :: c == old(client) || fresh(c)
      ensures r == OverPrimary <==> PrimaryServes(service, a)
      ensures r == OverFallback <==> FallbackServes(service, a)
      ensures r.Refused? ==> r.error == Refusal(service, a)
      ensures |built| == if FallbackBuilt(service, a) then 2 else 1
      ensures r == OverPrimary ==> client == old(client) && actual == service.transport && !client.closed
      ensures r == OverFallback ==> client != old(client) && actual == Sse && !client.closed
    {
      var primary := client;
      if !a.started { return Refused(StartFailed); }
      var initialized, transport := a.initialized, actual;
      if !initialized && service.transport == StreamableHttp && service.allowsLegacySse {
        if !a.fallbackBuilt { return Refused(InitFailed); }
        var fallback := new LowClient();
        built := built + {fallback};
        if !a.fallbackStarted {
          fallback.Close();
          return Refused(FallbackStartFailed);
        }
        if !a.fallbackInitialized {
          fallback.Close();
          return Refused(FallbackInitFailed);
        }
        // The old connection loses its place before it is closed, so that its late events find nobody.
        client := null;
        primary.Close();
        if !a.primaryClosed {
          client := primary;
          fallback.Close();
          return Refused(CloseFailed);
        }
        client := fallback;
        transport := Sse;
        initialized := true;
      }
      if !initialized { return Refused(InitFailed); }
      actual := transport;
      var session := if client == primary then a.session else a.fallbackSession;
      var violation := ValidateSession(service, actual, session);
      if violation.Refused? { return violation; }
      r := if client == primary then OverPrimary else OverFallback;
    }
  }

  // The result is a refusal exactly when the session policy is violated.
  method ValidateSession(s: Service, actual: Transport, session: bool) returns (r: Result)
    ensures r == Refused(SessionRequired)
       <==> s.transport == StreamableHttp && s.mode == Required && !(actual == StreamableHttp && session)
    ensures r == Refused(SessionDisabled)
       <==> s.transport == StreamableHttp && s.mode == Disabled && actual == StreamableHttp && session
    ensures r.Refused? ==> r.error == Violation(s)
    ensures r.Refused? <==> !SessionFits(s, actual, session)
  {
    r := OverPrimary;
    if s.transport != StreamableHttp { return; }
    match s.mode {
      case Required =>
        if actual != StreamableHttp { return Refused(SessionRequired); }
        if !session { return Refused(SessionRequired); }
      case Disabled =>
        if actual == StreamableHttp && session { return Refused(SessionDisabled); }
      case _ =>
    }
  }

  // A managed client is returned exactly when one of its connections serves, and then that one is the only client
  // left open; otherwise every client built on the way has been closed.
  method NewManagedClient(service: Service, a: Answers) returns (r: Result, mc: ManagedClient)
    ensures fresh(mc) && mc.service == service && forall c | c in mc.built :: fresh(c)
    ensures r == OverPrimary <==> PrimaryServes(service, a)
    ensures r == OverFallback <==> FallbackServes(service, a)
    ensures r == Refused(BuildFailed) <==> !IsBuilt(service, a)
    ensures r.Refused? && IsBuilt(service, a) ==> r.error == Refusal(service, a)
    ensures |mc.built| == if !IsBuilt(service, a) then 0 else if FallbackBuilt(service, a) then 2 else 1
    ensures !r.Refused? ==>
      !mc.closeDone && mc.client != null && mc.client in mc.built && forall c | c in mc.built :: !c.closed <==> c == mc.client
    ensures !r.Refused? ==> mc.actual == if r == OverFallback then Sse else service.transport
    ensures r.Refused? ==> forall c | c in mc.built :: c.closed
  {
    mc := new ManagedClient(service);
    var ok := mc.Build(a);
    if !ok { return Refused(BuildFailed), mc; }
    r := mc.Initialize(a);
    if r.Refused? { mc.Close(); }
  }

  // ---------- which connection serves, and why none does ----------

  // What the session policy leaves of the connections. Over streamable HTTP a service that requires sessions is served
  // by the first connection with a session only, and one that has disabled them by the first connection without one or
  // by the fallback, which never has a policy to meet.
  lemma ServesByPolicy(s: Service, a: Answers)
    ensures var first := !s.transport.UnknownTransport? && a.built && a.started && a.initialized;
            var second := && s.transport == StreamableHttp && s.allowsLegacySse && a.built && a.started && !a.initialized
                          && a.fallbackBuilt && a.fallbackStarted && a.fallbackInitialized && a.primaryClosed;
            if s.transport == StreamableHttp && s.mode == Required then
              (PrimaryServes(s, a) <==> first && a.session) && !FallbackServes(s, a)
            else if s.transport == StreamableHttp && s.mode == Disabled then
              (PrimaryServes(s, a) <==> first && !a.session) && (FallbackServes(s, a) <==> second)
            else
              (PrimaryServes(s, a) <==> first) && (FallbackServes(s, a) <==> second)
  {
  }

  // The error is that of the first thing that went wrong.
  lemma RefusalTells(s: Service, a: Answers)
    requires IsBuilt(s, a) && !PrimaryServes(s, a) && !FallbackServes(s, a)
    ensures var e := Refusal(s, a);
            var falls := a.started && !a.initialized && s.transport == StreamableHttp && s.allowsLegacySse && a.fallbackBuilt;
            && (e == StartFailed <==> !a.started)
            && (e == InitFailed <==> a.started && !a.initialized && !falls)
            && (e == FallbackStartFailed <==> falls && !a.fallbackStarted)
            && (e == FallbackInitFailed <==> falls && a.fallbackStarted && !a.fallbackInitialized)
            && (e == CloseFailed <==> falls && a.fallbackStarted && a.fallbackInitialized && !a.primaryClosed)
            && (e == SessionDisabled <==> a.started && a.initialized && s.mode == Disabled)
            && e in {StartFailed, InitFailed, FallbackStartFailed, FallbackInitFailed, CloseFailed, SessionDisabled, SessionRequired}
            && (e == SessionRequired ==> s.mode == Required)
  {
  }
}
