/** The fixed-window rate limiter: buckets as they run, the log they stand for, and the bound they give. */
module RateLimit {
  import opened Options

  type Key = string

  datatype Scope = ServiceScope | UserScope | NoScope
  datatype Bucket = Bucket(windowStart: int, count: nat)
  datatype Limits = Limits(serviceLimit: int, userLimit: int, window: int)
  datatype Buckets = Buckets(service: map<Key, Bucket>, user: map<Key, Bucket>)
  datatype Decision = Decision(allowed: bool, scope: Scope, key: Key, limit: int, count: nat)
  datatype Request = Request(service: Key, user: Key, at: int)

  // ---------- one decision ----------

  function Find(store: map<Key, Bucket>, key: Key): Option<Bucket> {
    if key in store then Some(store[key]) else None
  }

  // The bucket after one more request at `now`: a new window if none is open or the open one is used up.
  function Charge(b: Option<Bucket>, window: int, now: int): Bucket {
    if b.None? || now - b.value.windowStart >= window then Bucket(now, 1)
    else Bucket(b.value.windowStart, b.value.count + 1)
  }

  predicate Limited(limit: int, key: Key) {
    limit > 0 && key != ""
  }

  // Whether `key` may go on, and the store after asking.
  function AllowKey(store: map<Key, Bucket>, scope: Scope, key: Key, limit: int, window: int, now: int)
    : (map<Key, Bucket>, Decision)
  {
    var b := Charge(Find(store, key), window, now);
    if !Limited(limit, key) then (store, Decision(true, scope, key, limit, 0))
    else (store[key := b], Decision(b.count <= limit, scope, key, limit, b.count))
  }

  // The service is asked first; the user only if the service agreed.
  function Decide(cfg: Limits, b: Buckets, r: Request): (Buckets, Decision) {
    var (service, d) := AllowKey(b.service, ServiceScope, r.service, cfg.serviceLimit, cfg.window, r.at);
    if !d.allowed then (Buckets(service, b.user), d)
    else
      var (user, e) := AllowKey(b.user, UserScope, r.user, cfg.userLimit, cfg.window, r.at);
      (Buckets(service, user), if e.allowed then Decision(true, NoScope, "", 0, 0) else e)
  }

  class BucketStore {
    var buckets: map<Key, Bucket>

    constructor ()
      ensures buckets == map[]
    {
      buckets := map[];
    }

    method Ask(scope: Scope, key: Key, limit: int, window: int, now: int) returns (d: Decision)
      modifies this
      ensures (buckets, d) == AllowKey(old(buckets), scope, key, limit, window, now)
      ensures if limit <= 0 || key == "" then d.allowed && buckets == old(buckets)
              else
                && buckets.Keys == old(buckets).Keys + {key}
                && (forall k | k in old(buckets) && k != key :: buckets[k] == old(buckets)[k])
                && buckets[key] == (if key in old(buckets) && now - old(buckets)[key].windowStart < window then
                                      Bucket(old(buckets)[key].windowStart, old(buckets)[key].count + 1)
                                    else Bucket(now, 1))
                && (d.allowed <==> buckets[key].count <= limit)
    {
      if limit <= 0 || key == "" { return Decision(true, scope, key, limit, 0); }
      if key !in buckets || now - buckets[key].windowStart >= window {
        buckets := buckets[key := Bucket(now, 0)];
      }
      buckets := buckets[key := buckets[key].(count := buckets[key].count + 1)];
      assert buckets == old(buckets)[key := Charge(Find(old(buckets), key), window, now)];
      d := Decision(buckets[key].count <= limit, scope, key, limit, buckets[key].count);
    }
  }

  class InvokeController {
    const limits: Limits
    const service: BucketStore
    const user: BucketStore

    // A window that is not positive becomes one minute.
    constructor (serviceLimit: int, userLimit: int, window: int)
      ensures limits == Limits(serviceLimit, userLimit, if window <= 0 then 60 else window)
      ensures fresh(service) && fresh(user) && service != user
      ensures service.buckets == map[] && user.buckets == map[]
    {
      limits := Limits(serviceLimit, userLimit, if window <= 0 then 60 else window);
      service := new BucketStore();
      user := new BucketStore();
    }

    method Allow(r: Request) returns (d: Decision)
      requires service != user
      modifies service, user
      ensures (Buckets(service.buckets, user.buckets), d)
           == Decide(limits, Buckets(old(service.buckets), old(user.buckets)), r)
    {
      d := service.Ask(ServiceScope, r.service, limits.serviceLimit, limits.window, r.at);
      if !d.allowed { return; }
      d := user.Ask(UserScope, r.user, limits.userLimit, limits.window, r.at);
      if d.allowed { d := Decision(true, NoScope, "", 0, 0); }
    }
  }

  // ---------- one key: the bucket stands for the log of its charges ----------

  ghost function Replay(b: Option<Bucket>, charges: seq<int>, window: int): Option<Bucket>
    decreases |charges|
  {
    if charges == [] then b else Replay(Some(Charge(b, window, charges[0])), charges[1..], window)
  }

  // The charge that opened the window of the last charge.
  ghost function WindowFirst(log: seq<int>, window: int): (i: nat)
    requires |log| > 0
    ensures i < |log|
  {
    var last := |log| - 1;
    if last == 0 then 0
    else
      var i := WindowFirst(log[..last], window);
      if log[last] - log[i] >= window then last else i
  }

  lemma {:induction false} ReplayExtends(b: Option<Bucket>, charges: seq<int>, at: int, window: int)
    ensures Replay(b, charges + [at], window) == Some(Charge(Replay(b, charges, window), window, at))
    decreases |charges|
  {
    if charges == [] {
      assert Replay(Some(Charge(b, window, at)), [at][1..], window) == Some(Charge(b, window, at));
    } else {
      assert (charges + [at])[1..] == charges[1..] + [at];
      ReplayExtends(Some(Charge(b, window, charges[0])), charges[1..], at, window);
    }
  }

  // After any charges the bucket holds when its window opened and how many charges fell into it.
  lemma {:induction false} BucketIsLog(log: seq<int>, window: int)
    requires |log| > 0
    ensures var first := WindowFirst(log, window);
            Replay(None, log, window) == Some(Bucket(log[first], |log| - first))
  {
    var last := |log| - 1;
    assert log == log[..last] + [log[last]];
    ReplayExtends(None, log[..last], log[last], window);
    if last == 0 {
    } else {
      BucketIsLog(log[..last], window);
    }
  }

  // How many of the charges in [from, to) are within the limit.
  ghost function Within(b: Option<Bucket>, charges: seq<int>, window: int, limit: int, from: int, to: int): nat
    decreases |charges|
  {
    if charges == [] then 0
    else
      var c := Charge(b, window, charges[0]);
      (if from <= charges[0] < to && c.count <= limit then 1 else 0) + Within(Some(c), charges[1..], window, limit, from, to)
  }

  ghost predicate Ordered(times: seq<int>, since: int) {
    && (forall i | 0 <= i < |times| :: since <= times[i])
    && (forall i, j | 0 <= i < j < |times| :: times[i] <= times[j])
  }

  // What is left of the open window, plus one full limit for each further window.
  function Budget(count: nat, limit: nat, windows: nat): nat {
    if windows == 0 then 0 else (if count < limit then limit - count else 0) + (windows - 1) * limit
  }

  lemma BudgetSteps(count: nat, limit: nat, windows: nat)
    requires windows > 0 && limit > 0
    ensures (if count + 1 <= limit then 1 else 0) + Budget(count + 1, limit, windows) <= Budget(count, limit, windows)
    ensures windows > 1 ==> 1 + Budget(1, limit, windows - 1) <= Budget(count, limit, windows)
  {
    if windows > 1 { assert (windows - 1) * limit == (windows - 2) * limit + limit; }
  }

  // Windows start at least `window` apart, so `windows` of them cover everything before `to`.
  lemma {:induction false} WindowsBound(b: Bucket, charges: seq<int>, window: int, limit: nat, from: int, to: int, windows: nat)
    requires window > 0 && limit > 0 && Ordered(charges, b.windowStart) && to <= b.windowStart + windows * window
    ensures Within(Some(b), charges, window, limit, from, to) <= Budget(b.count, limit, windows)
    decreases |charges|
  {
    if charges == [] { return; }
    var at, rest := charges[0], charges[1..];
    var c := Charge(Some(b), window, at);
    if windows == 0 {
      WindowsBound(c, rest, window, limit, from, to, 0) by { assert Ordered(rest, c.windowStart); }
    } else if at - b.windowStart >= window {
      assert b.windowStart + windows * window == b.windowStart + window + (windows - 1) * window;
      WindowsBound(c, rest, window, limit, from, to, windows - 1) by { assert Ordered(rest, at); }
      if windows > 1 { BudgetSteps(b.count, limit, windows); }
    } else {
      WindowsBound(c, rest, window, limit, from, to, windows) by { assert Ordered(rest, b.windowStart); }
      BudgetSteps(b.count, limit, windows);
    }
  }

  lemma BudgetAtMost(count: nat, limit: nat, windows: nat)
    ensures Budget(count, limit, windows) <= windows * limit
  {
    if windows > 0 { assert windows * limit == (windows - 1) * limit + limit; }
  }

  ghost predicate Follows(b: Option<Bucket>, charges: seq<int>) {
    && (b.Some? ==> Ordered(charges, b.value.windowStart))
    && (charges != [] ==> Ordered(charges, charges[0]))
  }

  // In any half-open interval of `k` windows' length at most k + 1 limits' worth of charges are within the limit.
  lemma {:induction false} IntervalBound(b: Option<Bucket>, charges: seq<int>, window: int, limit: nat, from: int, k: nat)
    requires window > 0 && limit > 0 && Follows(b, charges)
    ensures Within(b, charges, window, limit, from, from + k * window) <= (k + 1) * limit
    decreases |charges|
  {
    if charges == [] { return; }
    var at, rest, to := charges[0], charges[1..], from + k * window;
    var c := Charge(b, window, at);
    assert Ordered(rest, at) && Ordered(rest, c.windowStart);
    if at < from {
      IntervalBound(Some(c), rest, window, limit, from, k);
    } else if c.windowStart == at && c.count == 1 {
      WindowsBound(c, rest, window, limit, from, to, k);
      BudgetAtMost(1, limit, k);
    } else {
      assert (k + 1) * window == k * window + window;
      WindowsBound(b.value, charges, window, limit, from, to, k + 1);
      BudgetAtMost(b.value.count, limit, k + 1);
    }
  }

  // ---------- all keys: every decision of every run ----------

  ghost function Play(cfg: Limits, b: Buckets, reqs: seq<Request>): Buckets
    decreases |reqs|
  {
    if reqs == [] then b else Play(cfg, Decide(cfg, b, reqs[0]).0, reqs[1..])
  }

  // Whether a request is charged to a key: always to its service, but to its user only if the service agreed.
  ghost predicate IsCharged(cfg: Limits, b: Buckets, r: Request, scope: Scope, key: Key) {
    match scope
    case ServiceScope => r.service == key && Limited(cfg.serviceLimit, key)
    case UserScope => r.user == key && Limited(cfg.userLimit, key) && Decide(cfg, b, r).1.scope != ServiceScope
    case NoScope => false
  }

  // The times of the requests charged to a key.
  ghost function ChargesOf(cfg: Limits, b: Buckets, reqs: seq<Request>, scope: Scope, key: Key): seq<int>
    decreases |reqs|
  {
    if reqs == [] then []
    else
      (if IsCharged(cfg, b, reqs[0], scope, key) then [reqs[0].at] else [])
      + ChargesOf(cfg, Decide(cfg, b, reqs[0]).0, reqs[1..], scope, key)
  }

  function StoreOf(b: Buckets, scope: Scope): map<Key, Bucket> {
    match scope
    case ServiceScope => b.service
    case UserScope => b.user
    case NoScope => map[]
  }

  function LimitOf(cfg: Limits, scope: Scope): int {
    if scope == ServiceScope then cfg.serviceLimit else cfg.userLimit
  }

  // One decision touches the bucket of a key exactly if it is charged to it.
  lemma DecisionCharges(cfg: Limits, b: Buckets, r: Request, scope: Scope, key: Key)
    ensures var before := Find(StoreOf(b, scope), key);
            Find(StoreOf(Decide(cfg, b, r).0, scope), key)
              == if IsCharged(cfg, b, r, scope, key) then Some(Charge(before, cfg.window, r.at)) else before
  {
  }

  // Refinement: the bucket of every key is the replay of its own charges and of nothing else.
  lemma {:induction false} BucketsAreLogs(cfg: Limits, b: Buckets, reqs: seq<Request>, scope: Scope, key: Key)
    ensures Find(StoreOf(Play(cfg, b, reqs), scope), key)
         == Replay(Find(StoreOf(b, scope), key), ChargesOf(cfg, b, reqs, scope, key), cfg.window)
    decreases |reqs|
  {
    if reqs == [] {
    } else {
      DecisionCharges(cfg, b, reqs[0], scope, key);
      BucketsAreLogs(cfg, Decide(cfg, b, reqs[0]).0, reqs[1..], scope, key);
      var rest := ChargesOf(cfg, Decide(cfg, b, reqs[0]).0, reqs[1..], scope, key);
      assert ([reqs[0].at] + rest)[1..] == rest && [] + rest == rest;
    }
  }

  ghost predicate Agrees(cfg: Limits, b: Buckets, r: Request, scope: Scope) {
    var d := Decide(cfg, b, r).1;
    d.allowed || d.scope != scope
  }

  // A charged key agrees if and only if its log since the window start, this request included, fits the limit.
  lemma DecisionReadsLog(cfg: Limits, reqs: seq<Request>, r: Request, scope: Scope, key: Key)
    requires var b := Play(cfg, Buckets(map[], map[]), reqs); IsCharged(cfg, b, r, scope, key)
    ensures var none := Buckets(map[], map[]);
            var log := ChargesOf(cfg, none, reqs, scope, key) + [r.at];
            Agrees(cfg, Play(cfg, none, reqs), r, scope) <==> |log| - WindowFirst(log, cfg.window) <= LimitOf(cfg, scope)
  {
    var none := Buckets(map[], map[]);
    var charges := ChargesOf(cfg, none, reqs, scope, key);
    BucketsAreLogs(cfg, none, reqs, scope, key);
    ReplayExtends(None, charges, r.at, cfg.window);
    BucketIsLog(charges + [r.at], cfg.window);
  }

  // How many requests of a key its own check let through in [from, to).
  ghost function Granted(cfg: Limits, b: Buckets, reqs: seq<Request>, scope: Scope, key: Key, from: int, to: int): nat
    decreases |reqs|
  {
    if reqs == [] then 0
    else
      var r := reqs[0];
      (if IsCharged(cfg, b, r, scope, key) && Agrees(cfg, b, r, scope) && from <= r.at < to then 1 else 0)
      + Granted(cfg, Decide(cfg, b, r).0, reqs[1..], scope, key, from, to)
  }

  lemma {:induction false} GrantedIsWithin(cfg: Limits, b: Buckets, reqs: seq<Request>, scope: Scope, key: Key, from: int, to: int)
    requires LimitOf(cfg, scope) > 0
    ensures Granted(cfg, b, reqs, scope, key, from, to)
         == Within(Find(StoreOf(b, scope), key), ChargesOf(cfg, b, reqs, scope, key), cfg.window, LimitOf(cfg, scope), from, to)
    decreases |reqs|
  {
    if reqs == [] {
    } else {
      var next := Decide(cfg, b, reqs[0]).0;
      DecisionCharges(cfg, b, reqs[0], scope, key);
      GrantedIsWithin(cfg, next, reqs[1..], scope, key, from, to);
      var rest := ChargesOf(cfg, next, reqs[1..], scope, key);
      assert ([reqs[0].at] + rest)[1..] == rest && [] + rest == rest;
    }
  }

  ghost predicate InTime(reqs: seq<Request>, since: int) {
    && (forall i | 0 <= i < |reqs| :: since <= reqs[i].at)
    && (forall i, j | 0 <= i < j < |reqs| :: reqs[i].at <= reqs[j].at)
  }

  lemma {:induction false} ChargesInTime(cfg: Limits, b: Buckets, reqs: seq<Request>, scope: Scope, key: Key, since: int)
    requires InTime(reqs, since)
    ensures Ordered(ChargesOf(cfg, b, reqs, scope, key), since)
    decreases |reqs|
  {
    if reqs == [] {
    } else {
      ChargesInTime(cfg, Decide(cfg, b, reqs[0]).0, reqs[1..], scope, key, reqs[0].at);
    }
  }

  // The promise of the limiter: over any clock that never goes back, any key with a limit is granted at most
  // k + 1 limits' worth of requests in any half-open interval that is k windows long.
  lemma GrantedBound(cfg: Limits, reqs: seq<Request>, scope: Scope, key: Key, from: int, k: nat)
    requires cfg.window > 0 && LimitOf(cfg, scope) > 0
    requires forall i, j | 0 <= i < j < |reqs| :: reqs[i].at <= reqs[j].at
    ensures Granted(cfg, Buckets(map[], map[]), reqs, scope, key, from, from + k * cfg.window) <= (k + 1) * LimitOf(cfg, scope)
  {
    var none := Buckets(map[], map[]);
    var charges := ChargesOf(cfg, none, reqs, scope, key);
    if reqs != [] { ChargesInTime(cfg, none, reqs, scope, key, reqs[0].at); }
    GrantedIsWithin(cfg, none, reqs, scope, key, from, from + k * cfg.window);
    IntervalBound(None, charges, cfg.window, LimitOf(cfg, scope), from, k);
  }

  // ---------- what a caller sees ----------

  predicate Names(r: Request, scope: Scope, key: Key) {
    (scope == ServiceScope && r.service == key) || (scope == UserScope && r.user == key)
  }

  // How many requests that name a key are let through in [from, to).
  ghost function Allowed(cfg: Limits, b: Buckets, reqs: seq<Request>, scope: Scope, key: Key, from: int, to: int): nat
    decreases |reqs|
  {
    if reqs == [] then 0
    else
      var (next, d) := Decide(cfg, b, reqs[0]);
      (if Names(reqs[0], scope, key) && d.allowed && from <= reqs[0].at < to then 1 else 0)
      + Allowed(cfg, next, reqs[1..], scope, key, from, to)
  }

  lemma {:induction false} AllowedIsGranted(cfg: Limits, b: Buckets, reqs: seq<Request>, scope: Scope, key: Key, from: int, to: int)
    requires scope != NoScope && LimitOf(cfg, scope) > 0 && key != ""
    ensures Allowed(cfg, b, reqs, scope, key, from, to) <= Granted(cfg, b, reqs, scope, key, from, to)
    decreases |reqs|
  {
    if reqs == [] {
    } else {
      AllowedIsGranted(cfg, Decide(cfg, b, reqs[0]).0, reqs[1..], scope, key, from, to);
    }
  }

  // A limited service, and likewise a limited user, gets at most k + 1 limits' worth of requests through in any
  // half-open interval that is k windows long, whatever the requests are otherwise.
  lemma AllowedBound(cfg: Limits, reqs: seq<Request>, key: Key, from: int, k: nat)
    requires cfg.window > 0 && key != ""
    requires forall i, j | 0 <= i < j < |reqs| :: reqs[i].at <= reqs[j].at
    ensures cfg.serviceLimit > 0 ==>
              Allowed(cfg, Buckets(map[], map[]), reqs, ServiceScope, key, from, from + k * cfg.window) <= (k + 1) * cfg.serviceLimit
    ensures cfg.userLimit > 0 ==>
              Allowed(cfg, Buckets(map[], map[]), reqs, UserScope, key, from, from + k * cfg.window) <= (k + 1) * cfg.userLimit
  {
    var none := Buckets(map[], map[]);
    if cfg.serviceLimit > 0 {
      AllowedIsGranted(cfg, none, reqs, ServiceScope, key, from, from + k * cfg.window);
      GrantedBound(cfg, reqs, ServiceScope, key, from, k);
    }
    if cfg.userLimit > 0 {
      AllowedIsGranted(cfg, none, reqs, UserScope, key, from, from + k * cfg.window);
      GrantedBound(cfg, reqs, UserScope, key, from, k);
    }
  }

  predicate RefusedBy(d: Decision, scope: Scope) {
    !d.allowed && d.scope == scope
  }

  // The times of the requests for a service.
  ghost function TimesOfService(reqs: seq<Request>, key: Key): seq<int> {
    if reqs == [] then []
    else (if reqs[0].service == key then [reqs[0].at] else []) + TimesOfService(reqs[1..], key)
  }

  // The times of the requests of a user that their services did not refuse.
  ghost function TimesOfUser(cfg: Limits, b: Buckets, reqs: seq<Request>, key: Key): seq<int>
    decreases |reqs|
  {
    if reqs == [] then []
    else
      var (next, d) := Decide(cfg, b, reqs[0]);
      (if reqs[0].user == key && !RefusedBy(d, ServiceScope) then [reqs[0].at] else []) + TimesOfUser(cfg, next, reqs[1..], key)
  }

  lemma {:induction false} ServiceCharges(cfg: Limits, b: Buckets, reqs: seq<Request>, key: Key)
    requires cfg.serviceLimit > 0 && key != ""
    ensures ChargesOf(cfg, b, reqs, ServiceScope, key) == TimesOfService(reqs, key)
    decreases |reqs|
  {
    if reqs == [] {
    } else {
      ServiceCharges(cfg, Decide(cfg, b, reqs[0]).0, reqs[1..], key);
    }
  }

  lemma {:induction false} UserCharges(cfg: Limits, b: Buckets, reqs: seq<Request>, key: Key)
    requires cfg.userLimit > 0 && key != ""
    ensures ChargesOf(cfg, b, reqs, UserScope, key) == TimesOfUser(cfg, b, reqs, key)
    decreases |reqs|
  {
    if reqs == [] {
    } else {
      UserCharges(cfg, Decide(cfg, b, reqs[0]).0, reqs[1..], key);
    }
  }

  // A service refuses a request exactly if it has a name and a limit, and the requests for it since its window opened,
  // this one included, are more than the limit.
  lemma ServiceRefusesIff(cfg: Limits, reqs: seq<Request>, r: Request)
    ensures var d := Decide(cfg, Play(cfg, Buckets(map[], map[]), reqs), r).1;
            var log := TimesOfService(reqs, r.service) + [r.at];
            var count := |log| - WindowFirst(log, cfg.window);
            && (RefusedBy(d, ServiceScope) <==> r.service != "" && cfg.serviceLimit > 0 && count > cfg.serviceLimit)
            && (RefusedBy(d, ServiceScope) ==> d == Decision(false, ServiceScope, r.service, cfg.serviceLimit, count))
  {
    var none := Buckets(map[], map[]);
    if r.service != "" && cfg.serviceLimit > 0 {
      var charges := ChargesOf(cfg, none, reqs, ServiceScope, r.service);
      ServiceCharges(cfg, none, reqs, r.service);
      BucketsAreLogs(cfg, none, reqs, ServiceScope, r.service);
      ReplayExtends(None, charges, r.at, cfg.window);
      BucketIsLog(charges + [r.at], cfg.window);
    }
  }

  // A user is refused exactly if the service has not refused, the user has a name and a limit, and the requests of the
  // user that came so far since the user's window opened, this one included, are more than the limit.
  lemma UserRefusesIff(cfg: Limits, reqs: seq<Request>, r: Request)
    ensures var none := Buckets(map[], map[]);
            var d := Decide(cfg, Play(cfg, none, reqs), r).1;
            var log := TimesOfUser(cfg, none, reqs, r.user) + [r.at];
            var count := |log| - WindowFirst(log, cfg.window);
            && (RefusedBy(d, UserScope) <==>
                  !RefusedBy(d, ServiceScope) && r.user != "" && cfg.userLimit > 0 && count > cfg.userLimit)
            && (RefusedBy(d, UserScope) ==> d == Decision(false, UserScope, r.user, cfg.userLimit, count))
            && (d.allowed <==> !RefusedBy(d, ServiceScope) && !RefusedBy(d, UserScope))
  {
    var none := Buckets(map[], map[]);
    if r.user != "" && cfg.userLimit > 0 {
      var charges := ChargesOf(cfg, none, reqs, UserScope, r.user);
      UserCharges(cfg, none, reqs, r.user);
      BucketsAreLogs(cfg, none, reqs, UserScope, r.user);
      ReplayExtends(None, charges, r.at, cfg.window);
      BucketIsLog(charges + [r.at], cfg.window);
    }
  }

  // The window that the logs speak of: everything since its first charge lies within one window of it, and that charge
  // came a window or more after the one that opened the window before.
  lemma {:induction false} WindowIsOpen(log: seq<int>, window: int)
    requires |log| > 0 && window > 0
    ensures var first := WindowFirst(log, window);
            && (forall i | first < i < |log| :: log[i] - log[first] < window)
            && (first > 0 ==> log[first] - log[WindowFirst(log[..first], window)] >= window)
  {
    var last := |log| - 1;
    if last == 0 {
    } else {
      WindowIsOpen(log[..last], window);
      var i := WindowFirst(log[..last], window);
      assert log[..last][..i] == log[..i];
    }
  }
}
