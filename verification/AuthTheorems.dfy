/** The promises of the session protocol, proved for every run. */
module AuthTheorems {
  import opened Options
  import opened AuthEntities
  import opened RowUpdates
  import opened AuthProtocol
  import opened AuthInvariants
  import opened AuthSteps

  // ---------- a served token tells the truth ----------

  // The user of token `c` exists, is active, and is what the token says.
  predicate Truthful(s: State, c: Claims) {
    && FindUser(s.users, c.userId).Some?
    && s.users[c.userId].isActive
    && c == ClaimsFor(c.userId, c.sessionId, s.users[c.userId])
  }

  // The session of token `c` can be used and was opened for the same user at the same version.
  predicate SessionLive(s: State, c: Claims) {
    StatusMatches(s.sessions, c, s.now) && Describes(c, s.sessions[c.sessionId])
  }

  lemma VersionCheckIsTruthful(s: State, c: Claims)
    requires s in SAFE && c in s.minted && VersionMatches(s.users, c)
    ensures Truthful(s, c)
  {
    assert TokenOk(s.users, c);
  }

  // The positions the theorems look back from, and what a step into them was.
  ghost predicate SteppedInto(s: State, before: Thread, after: Thread) {
    match after
    case CheckStatus(c, goal) => before == CheckVersion(c, goal) && VersionMatches(s.users, c)
    case RefreshRotate(sid, _, _, _, _) =>
      before.RefreshUser? && before.sid == sid && RefreshAllowed(s.users, before.seen)
    case Finished(Accepted(c)) => before == CheckStatus(c, Serve) && StatusMatches(s.sessions, c, s.now)
    case Finished(NewPair(_, Some(sid))) => before.RefreshRotate? && before.sid == sid
    case _ => true
  }

  // The states a step of request `tid` may lead to, as far as the positions of requests go.
  ghost function Stepped(s: State, tid: Id): iset<State>
    requires tid in s.threads
  {
    iset t: State | tid in t.threads && t.threads == s.threads[tid := t.threads[tid]]
                    && SteppedInto(s, s.threads[tid], t.threads[tid])
  }

  lemma LoginStepsInto(s: State, tid: Id, found: Option<Id>, newId: Id, newHash: Id, t: State)
    requires Enabled(s, Run(tid, found, newId, newHash)) && RunStep(s, tid, found, newId, newHash, t)
    requires s.threads[tid].LoginStart?
    ensures t in Stepped(s, tid)
  {
  }

  lemma CreateStepsInto(s: State, tid: Id, found: Option<Id>, newId: Id, newHash: Id, t: State)
    requires s in SAFE && Enabled(s, Run(tid, found, newId, newHash)) && RunStep(s, tid, found, newId, newHash, t)
    requires s.threads[tid].LoginCreate?
    ensures t in Stepped(s, tid)
  {
  }

  lemma RefreshStepsInto(s: State, tid: Id, found: Option<Id>, newId: Id, newHash: Id, t: State)
    requires Enabled(s, Run(tid, found, newId, newHash)) && RunStep(s, tid, found, newId, newHash, t)
    requires s.threads[tid].RefreshUser?
    ensures t in Stepped(s, tid)
  {
  }

  lemma RotateStepsInto(s: State, tid: Id, found: Option<Id>, newId: Id, newHash: Id, t: State)
    requires Enabled(s, Run(tid, found, newId, newHash)) && RunStep(s, tid, found, newId, newHash, t)
    requires s.threads[tid].RefreshRotate?
    ensures t in Stepped(s, tid)
  {
  }

  lemma ReadStepsInto(s: State, tid: Id, found: Option<Id>, newId: Id, newHash: Id, t: State)
    requires s in SAFE && Enabled(s, Run(tid, found, newId, newHash)) && RunStep(s, tid, found, newId, newHash, t)
    requires s.threads[tid].RefreshStart? || s.threads[tid].RefreshLost? || s.threads[tid].PasswordStart? || s.threads[tid].LogoutByHash?
    ensures t in Stepped(s, tid)
  {
    KnowThread(s, tid);
  }

  lemma CheckStepsInto(s: State, tid: Id, found: Option<Id>, newId: Id, newHash: Id, t: State)
    requires s in SAFE && Enabled(s, Run(tid, found, newId, newHash)) && RunStep(s, tid, found, newId, newHash, t)
    requires s.threads[tid].CheckVersion? || s.threads[tid].CheckStatus?
    ensures t in Stepped(s, tid)
  {
    KnowThread(s, tid);
  }

  lemma RevokeStepsInto(s: State, tid: Id, found: Option<Id>, newId: Id, newHash: Id, t: State)
    requires s in SAFE && Enabled(s, Run(tid, found, newId, newHash)) && RunStep(s, tid, found, newId, newHash, t)
    requires s.threads[tid].MarkReuse? || s.threads[tid].RevokeAll? || s.threads[tid].LogoutRevoke?
    ensures t in Stepped(s, tid)
  {
    KnowThread(s, tid);
  }

  lemma BumpStepsInto(s: State, tid: Id, found: Option<Id>, newId: Id, newHash: Id, t: State)
    requires s in SAFE && Enabled(s, Run(tid, found, newId, newHash)) && RunStep(s, tid, found, newId, newHash, t)
    requires s.threads[tid].Burn? || s.threads[tid].PasswordBump?
    ensures t in Stepped(s, tid)
  {
    KnowThread(s, tid);
  }

  lemma RunStepsInto(s: State, tid: Id, found: Option<Id>, newId: Id, newHash: Id, t: State)
    requires s in SAFE && Enabled(s, Run(tid, found, newId, newHash)) && RunStep(s, tid, found, newId, newHash, t)
    ensures t in Stepped(s, tid)
  {
    var th := s.threads[tid];
    if th.LoginStart? { LoginStepsInto(s, tid, found, newId, newHash, t); }
    else if th.LoginCreate? { CreateStepsInto(s, tid, found, newId, newHash, t); }
    else if th.RefreshUser? { RefreshStepsInto(s, tid, found, newId, newHash, t); }
    else if th.RefreshRotate? { RotateStepsInto(s, tid, found, newId, newHash, t); }
    else if th.CheckVersion? || th.CheckStatus? { CheckStepsInto(s, tid, found, newId, newHash, t); }
    else if th.MarkReuse? || th.RevokeAll? || th.LogoutRevoke? { RevokeStepsInto(s, tid, found, newId, newHash, t); }
    else if th.Burn? || th.PasswordBump? { BumpStepsInto(s, tid, found, newId, newHash, t); }
    else { ReadStepsInto(s, tid, found, newId, newHash, t); }
  }

  // Any request that is past its start was there one step earlier, at the same place or about to step into it.
  predicate IsPast(th: Thread) {
    th.CheckStatus? || th.RefreshRotate? || (th.Finished? && (th.outcome.Accepted? || th.outcome.NewPair?))
  }

  lemma CameFrom(s: State, a: Action, t: State, tid: Id)
    requires s in SAFE && Step(s, a, t) && tid in t.threads && IsPast(t.threads[tid])
    ensures tid in s.threads
    ensures s.threads[tid] == t.threads[tid] || SteppedInto(s, s.threads[tid], t.threads[tid])
  {
    if a.Run? { RunCameFrom(s, a, t, tid); } else { OthersComeFrom(s, a, t, tid); }
  }

  lemma RunCameFrom(s: State, a: Action, t: State, tid: Id)
    requires s in SAFE && Step(s, a, t) && a.Run? && tid in t.threads && IsPast(t.threads[tid])
    ensures tid in s.threads
    ensures s.threads[tid] == t.threads[tid] || SteppedInto(s, s.threads[tid], t.threads[tid])
  {
    hide RunStep, SteppedInto;
    RunStepsInto(s, a.tid, a.found, a.newId, a.newHash, t);
  }

  lemma OthersComeFrom(s: State, a: Action, t: State, tid: Id)
    requires Step(s, a, t) && !a.Run? && tid in t.threads && IsPast(t.threads[tid])
    ensures tid in s.threads && s.threads[tid] == t.threads[tid]
  {
    if a.UpdateUser? { UpdatesComeFrom(s, a, t, tid); }
  }

  lemma UpdatesComeFrom(s: State, a: Action, t: State, tid: Id)
    requires Step(s, a, t) && a.UpdateUser? && tid in t.threads && IsPast(t.threads[tid])
    ensures tid in s.threads && s.threads[tid] == t.threads[tid]
  {
    hide Step;
    UpdateStartsOne(s, a, t);
  }

  lemma UpdateStartsOne(s: State, a: Action, t: State)
    requires Step(s, a, t) && a.UpdateUser?
    ensures || t.threads == s.threads
            || (a.tid in t.threads && t.threads[a.tid].RevokeAll? && t.threads == s.threads[a.tid := t.threads[a.tid]])
  {
  }

  lemma {:induction false} StatusCheckFollowsVersionCheck(states: seq<State>, actions: seq<Action>, j: nat, tid: Id, c: Claims, goal: Goal)
    returns (i: nat)
    requires IsRun(states, actions) && j < |states|
    requires tid in states[j].threads && states[j].threads[tid] == CheckStatus(c, goal)
    ensures i < j && tid in states[i].threads && Truthful(states[i], c)
  {
    RunInvariant(states, actions, j);
    assert j > 0;
    RunInvariant(states, actions, j - 1);
    CameFrom(states[j - 1], actions[j - 1], states[j], tid);
    KnowThread(states[j - 1], tid);
    if states[j - 1].threads[tid] == CheckStatus(c, goal) {
      i := StatusCheckFollowsVersionCheck(states, actions, j - 1, tid, c, goal);
    } else {
      VersionCheckIsTruthful(states[j - 1], c);
      i := j - 1;
    }
  }

  // A request that was served had its version read at some moment `i` and its session read at a later
  // moment `k`; at `i` the token told the truth about its user, at `k` its session was live.
  lemma {:induction false} AcceptedTokenWasTrue(states: seq<State>, actions: seq<Action>, j: nat, tid: Id, c: Claims)
    returns (i: nat, k: nat)
    requires IsRun(states, actions) && j < |states|
    requires tid in states[j].threads && states[j].threads[tid] == Finished(Accepted(c))
    ensures i < k < j && tid in states[i].threads
    ensures Truthful(states[i], c) && SessionLive(states[k], c)
  {
    assert j > 0;
    RunInvariant(states, actions, j - 1);
    CameFrom(states[j - 1], actions[j - 1], states[j], tid);
    KnowThread(states[j - 1], tid);
    if states[j - 1].threads[tid] == Finished(Accepted(c)) {
      i, k := AcceptedTokenWasTrue(states, actions, j - 1, tid, c);
    } else {
      k := j - 1;
      i := StatusCheckFollowsVersionCheck(states, actions, k, tid, c, Serve);
    }
  }

  // ---------- versions never come back ----------

  // Once the version of a user has moved past v, no check made from then on accepts v:
  // not for an access token, and not for a refresh token.
  lemma StaleVersionIsDead(states: seq<State>, actions: seq<Action>, i: nat, j: nat, uid: Id)
    requires IsRun(states, actions) && i <= j < |states| && uid in states[i].users
    ensures forall c: Claims | c.userId == uid && c.tokenVersion < states[i].users[uid].tokenVersion ::
              !VersionMatches(states[j].users, c)
    ensures forall seen: Session | seen.userId == uid && seen.tokenVersion < states[i].users[uid].tokenVersion ::
              !RefreshAllowed(states[j].users, seen)
  {
    RunEvolves(states, actions, i, j);
  }

  // A request that starts after the bump is never served with an older token ...
  lemma StaleTokenIsNeverServed(states: seq<State>, actions: seq<Action>, i: nat, j: nat, tid: Id, c: Claims)
    requires IsRun(states, actions) && i <= j < |states| && c.userId in states[i].users
    requires tid !in states[i].threads
    requires tid in states[j].threads && states[j].threads[tid] == Finished(Accepted(c))
    ensures states[i].users[c.userId].tokenVersion <= c.tokenVersion
  {
    var m, _ := AcceptedTokenWasTrue(states, actions, j, tid, c);
    if m < i { RunEvolves(states, actions, m, i); }
    RunEvolves(states, actions, i, m);
  }

  // The moment a refresh looked at its user, the session it presented carried the current version.
  lemma {:induction false} RotationFollowsUserCheck(states: seq<State>, actions: seq<Action>, j: nat, tid: Id, sid: Id)
    returns (i: nat)
    requires IsRun(states, actions) && j < |states| && tid in states[j].threads
    requires states[j].threads[tid].RefreshRotate? && states[j].threads[tid].sid == sid
    ensures i < j && tid in states[i].threads && sid in states[i].sessions
    ensures RefreshAllowed(states[i].users, states[i].sessions[sid])
  {
    assert j > 0;
    RunInvariant(states, actions, j - 1);
    CameFrom(states[j - 1], actions[j - 1], states[j], tid);
    if states[j - 1].threads[tid] == states[j].threads[tid] {
      i := RotationFollowsUserCheck(states, actions, j - 1, tid, sid);
    } else {
      KnowThread(states[j - 1], tid);
      i := j - 1;
    }
  }

  lemma {:induction false} PairFollowsUserCheck(states: seq<State>, actions: seq<Action>, j: nat, tid: Id, newId: Id, sid: Id)
    returns (i: nat)
    requires IsRun(states, actions) && j < |states| && tid in states[j].threads
    requires states[j].threads[tid] == Finished(NewPair(newId, Some(sid)))
    ensures i < j && tid in states[i].threads && sid in states[i].sessions
    ensures RefreshAllowed(states[i].users, states[i].sessions[sid])
  {
    assert j > 0;
    RunInvariant(states, actions, j - 1);
    CameFrom(states[j - 1], actions[j - 1], states[j], tid);
    if states[j - 1].threads[tid] == states[j].threads[tid] {
      i := PairFollowsUserCheck(states, actions, j - 1, tid, newId, sid);
    } else {
      i := RotationFollowsUserCheck(states, actions, j - 1, tid, sid);
    }
  }

  // ... and never refreshes an older session, whenever that session was stored.
  lemma StaleSessionIsNeverRefreshed(states: seq<State>, actions: seq<Action>, i: nat, j: nat, tid: Id, newId: Id, sid: Id)
    requires IsRun(states, actions) && i <= j < |states| && tid !in states[i].threads && tid in states[j].threads
    requires states[j].threads[tid] == Finished(NewPair(newId, Some(sid)))
    ensures sid in states[j].sessions
    ensures var row := states[j].sessions[sid];
            row.userId in states[i].users ==> states[i].users[row.userId].tokenVersion <= row.tokenVersion
  {
    var m := PairFollowsUserCheck(states, actions, j, tid, newId, sid);
    RunEvolves(states, actions, m, j);
    if m < i { RunEvolves(states, actions, m, i); }
    RunEvolves(states, actions, i, m);
  }

  // ---------- families ----------

  // The sessions of a family form one chain that starts at the login session; only its last can be active.
  lemma FamilyIsOneChain(states: seq<State>, actions: seq<Action>, i: nat, sid: Id)
    returns (chain: seq<Id>)
    requires IsRun(states, actions) && i < |states| && sid in states[i].sessions
    ensures var rows := states[i].sessions;
            && IsChain(rows, rows[sid].familyId, chain)
            && sid in chain
            && (rows[sid].status == Active ==> sid == chain[|chain| - 1])
  {
    RunInvariant(states, actions, i);
    var rows := states[i].sessions;
    assert SessionOk(states[i].users, states[i].owner, rows, sid);
    assert HasChain(rows, rows[sid].familyId);
    chain :| IsChain(rows, rows[sid].familyId, chain);
    if rows[sid].status == Active { ActiveIsLast(rows, rows[sid].familyId, chain, sid); }
  }

  lemma AtMostOneActive(states: seq<State>, actions: seq<Action>, i: nat, a: Id, b: Id)
    requires IsRun(states, actions) && i < |states| && a in states[i].sessions && b in states[i].sessions
    requires var rows := states[i].sessions;
             rows[a].familyId == rows[b].familyId && rows[a].status == Active && rows[b].status == Active
    ensures a == b
  {
    var chain := FamilyIsOneChain(states, actions, i, a);
    ActiveIsLast(states[i].sessions, states[i].sessions[a].familyId, chain, b);
  }

  // A link is never changed once set, and no session replaces two others.
  lemma LinksAreSetOnce(states: seq<State>, actions: seq<Action>, i: nat, j: nat, a: Id, next: Id)
    requires IsRun(states, actions) && i <= j < |states|
    requires a in states[i].sessions && states[i].sessions[a].replacedBy == Some(next)
    ensures a in states[j].sessions && states[j].sessions[a].replacedBy == Some(next)
  {
    RunEvolves(states, actions, i, j);
  }

  lemma LinkPosition(rows: Sessions, f: Id, chain: seq<Id>, a: Id, next: Id) returns (k: nat)
    requires IsChain(rows, f, chain) && a in chain && rows[a].replacedBy == Some(next)
    ensures k + 1 < |chain| && chain[k] == a && chain[k + 1] == next
  {
    k :| 0 <= k < |chain| && chain[k] == a;
  }

  lemma LinksAreInjective(states: seq<State>, actions: seq<Action>, i: nat, a: Id, b: Id, next: Id)
    requires IsRun(states, actions) && i < |states| && a in states[i].sessions && b in states[i].sessions
    requires states[i].sessions[a].replacedBy == Some(next) && states[i].sessions[b].replacedBy == Some(next)
    ensures a == b
  {
    var rows := states[i].sessions;
    var chainA := FamilyIsOneChain(states, actions, i, a);
    var chainB := FamilyIsOneChain(states, actions, i, b);
    var m := LinkPosition(rows, rows[a].familyId, chainA, a, next);
    var n := LinkPosition(rows, rows[b].familyId, chainB, b, next);
    assert rows[next].familyId == rows[a].familyId == rows[b].familyId;
    assert b in chainA;
    n := LinkPosition(rows, rows[a].familyId, chainA, b, next);
  }

  // ---------- single use ----------

  // Over all runs one refresh token yields at most one pair.
  lemma AtMostOnePair(states: seq<State>, actions: seq<Action>, i: nat, a: Id, b: Id, sid: Id, newA: Id, newB: Id)
    requires IsRun(states, actions) && i < |states| && a in states[i].threads && b in states[i].threads
    requires states[i].threads[a] == Finished(NewPair(newA, Some(sid)))
    requires states[i].threads[b] == Finished(NewPair(newB, Some(sid)))
    ensures a == b
  {
    RunInvariant(states, actions, i);
    KnowThread(states[i], a);
    KnowThread(states[i], b);
  }

  // ---------- statuses, bumps, replays ----------

  lemma StatusNeverGoesBack(states: seq<State>, actions: seq<Action>, i: nat, j: nat, sid: Id)
    requires IsRun(states, actions) && i <= j < |states| && sid in states[i].sessions
    ensures sid in states[j].sessions
    ensures Rank(states[i].sessions[sid].status) <= Rank(states[j].sessions[sid].status) <= Rank(Revoked)
  {
    RunEvolves(states, actions, i, j);
    RunInvariant(states, actions, j);
    assert SessionOk(states[j].users, states[j].owner, states[j].sessions, sid);
  }

  // A version is one plus the burnt sessions, password changes and security updates of its user:
  // nothing else moves it, and each session of the user is burnt at most once.
  lemma VersionCountsItsCauses(states: seq<State>, actions: seq<Action>, i: nat, uid: Id)
    requires IsRun(states, actions) && i < |states| && uid in states[i].users
    ensures var s := states[i];
            && s.users[uid].tokenVersion ==
                 1 + |SetOf(s.burned, uid)| + CountOf(s.passwordChanges, uid) + CountOf(s.securityUpdates, uid)
            && forall sid | sid in SetOf(s.burned, uid) ::
                 sid in s.sessions && s.sessions[sid].userId == uid && s.sessions[sid].status == Revoked
  {
    RunInvariant(states, actions, i);
  }

  // Presenting a refresh token whose session is already revoked changes nothing but the request itself.
  lemma ReplayOfRevokedChangesNothing(states: seq<State>, actions: seq<Action>, i: nat, tid: Id, sid: Id)
    requires IsRun(states, actions) && i < |actions| && actions[i].Run? && actions[i].tid == tid
    requires sid in states[i].sessions && states[i].sessions[sid].status == Revoked
    requires tid in states[i].threads && states[i].threads[tid] == RefreshStart(states[i].sessions[sid].refreshHash)
    ensures states[i + 1] == At(states[i], tid, Finished(Rejected))
  {
    RunInvariant(states, actions, i);
    assert Step(states[i], actions[i], states[i + 1]);
    assert actions[i].found == Some(sid);
  }
}
