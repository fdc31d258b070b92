/** A request that runs alone in the protocol does to the rows what its operation does, and answers the same. */
module AuthAlone {
  import opened Options
  import opened AuthEntities
  import opened RowUpdates
  import P = AuthProtocol
  import O = AuthOperations
  import N = AuthInvariants
  import S = AuthSteps

  type State = P.State
  type Thread = P.Thread

  // Steps of request `tid` only.
  ghost predicate IsPath(states: seq<State>, actions: seq<P.Action>, tid: Id) {
    && |states| == |actions| + 1
    && forall i | 0 <= i < |actions| :: actions[i].Run? && actions[i].tid == tid && P.Step(states[i], actions[i], states[i + 1])
  }

  lemma Extended(states: seq<State>, actions: seq<P.Action>, tid: Id, a: P.Action, t: State)
    requires IsPath(states, actions, tid) && a.Run? && a.tid == tid && P.Step(states[|actions|], a, t)
    ensures IsPath(states + [t], actions + [a], tid)
  {
  }

  function ViewOf(s: State): O.View {
    O.View(O.Db(s.users, s.sessions), map[], map[])
  }

  // The answers of both models agree.
  predicate SameAnswer(th: Thread, o: O.Outcome, minted: set<Claims>, from: Option<Id>) {
    match o
    case NewPair(claims, session) => th == P.Finished(P.NewPair(session, from)) && claims in minted
    case Rejected => th == P.Finished(P.Rejected)
    case StorageError => th == P.Finished(P.StorageError)
    case Completed => th == P.Finished(P.Completed)
  }

  // Where the request ends: the rows are those the operation leaves, and nobody else has moved.
  ghost predicate Ends(s: State, t: State, tid: Id, w: O.View, o: O.Outcome, from: Option<Id>) {
    && tid in t.threads && t.threads == s.threads[tid := t.threads[tid]]
    && t.users == w.db.users && t.sessions == w.db.sessions && t.now == s.now
    && SameAnswer(t.threads[tid], o, t.minted, from)
  }

  // Two pairs of identifiers nobody has used; the second is drawn only for steps that do not need one.
  predicate FreshPairs(s: State, newId: Id, newHash: Id, spareId: Id, spareHash: Id) {
    && P.Fresh(s, newId, newHash) && P.Fresh(s, spareId, spareHash)
    && spareId != newId && spareId != newHash && spareHash != newId && spareHash != newHash
  }

  // ---------- revoking everything ----------

  lemma RevokesAlone(states: seq<State>, actions: seq<P.Action>, tid: Id, uid: Id, reason: Reason, outcome: P.Outcome,
                     newId: Id, newHash: Id)
    returns (longer: seq<State>, more: seq<P.Action>)
    requires IsPath(states, actions, tid)
    requires var s := states[|actions|];
             tid in s.threads && s.threads[tid] == P.RevokeAll(uid, reason, outcome) && P.Fresh(s, newId, newHash)
    ensures IsPath(longer, more, tid) && longer[0] == states[0]
    ensures var s := states[|actions|];
            longer[|more|] == P.At(s.(sessions := RevokeByUserId(s.sessions, uid, reason, s.now)), tid, P.Finished(outcome))
  {
    var s := states[|actions|];
    var t := P.RunRevokeAll(s, tid, uid, reason, outcome);
    var a := P.Run(tid, None, newId, newHash);
    Extended(states, actions, tid, a, t);
    longer, more := states + [t], actions + [a];
  }

  // ---------- ChangePassword ----------

  lemma BumpAlone(states: seq<State>, actions: seq<P.Action>, tid: Id, uid: Id, newPassword: Id, newId: Id, newHash: Id)
    returns (longer: seq<State>, more: seq<P.Action>)
    requires IsPath(states, actions, tid)
    requires var s := states[|actions|];
             && tid in s.threads && s.threads[tid] == P.PasswordBump(uid, newPassword)
             && FindUser(s.users, uid).Some? && P.Fresh(s, newId, newHash)
    ensures IsPath(longer, more, tid) && longer[0] == states[0]
    ensures var s, t := states[|actions|], longer[|more|];
            && t.users == UpdatePasswordAndBump(s.users, uid, newPassword).0
            && t.sessions == RevokeByUserId(s.sessions, uid, PasswordChanged, s.now)
            && t.threads == s.threads[tid := P.Finished(P.Completed)] && t.now == s.now
  {
    var s := states[|actions|];
    var run := P.Run(tid, None, newId, newHash);
    var t := P.RunPasswordBump(s, tid, uid, newPassword);
    Extended(states, actions, tid, run, t);
    longer, more := RevokesAlone(states + [t], actions + [run], tid, uid, PasswordChanged, P.Completed, newId, newHash);
  }

  lemma PasswordAlone(s: State, tid: Id, uid: Id, oldPassword: Id, newPassword: Id, newId: Id, newHash: Id)
    returns (states: seq<State>, actions: seq<P.Action>, w: O.View, o: O.Outcome)
    requires tid in s.threads && s.threads[tid] == P.PasswordStart(uid, oldPassword, newPassword) && P.Fresh(s, newId, newHash)
    ensures IsPath(states, actions, tid) && states[0] == s
    ensures O.PasswordDoes(ViewOf(s), uid, oldPassword, newPassword, s.now, w, o)
    ensures Ends(s, states[|actions|], tid, w, o, None)
  {
    var run := P.Run(tid, None, newId, newHash);
    var t1 := P.At(s, tid, P.AfterPasswordRead(s.users, uid, oldPassword, newPassword));
    states, actions := [s], [];
    Extended(states, actions, tid, run, t1);
    states, actions := states + [t1], actions + [run];
    if FindUser(s.users, uid).None? || s.users[uid].password != oldPassword {
      w, o := ViewOf(s), O.Rejected;
    } else {
      states, actions := BumpAlone(states, actions, tid, uid, newPassword, newId, newHash);
      w, o := O.AfterBump(ViewOf(s), UpdatePasswordAndBump(s.users, uid, newPassword).0, uid, PasswordChanged, s.now), O.Completed;
    }
  }

  // ---------- Login ----------

  lemma LoginAlone(s: State, tid: Id, name: Id, password: Id, found: Option<Id>, newId: Id, newHash: Id, spareId: Id, spareHash: Id)
    returns (states: seq<State>, actions: seq<P.Action>, w: O.View, o: O.Outcome)
    requires tid in s.threads && s.threads[tid] == P.LoginStart(name, password)
    requires FoundByName(s.users, name, found) && FreshPairs(s, newId, newHash, spareId, spareHash)
    ensures IsPath(states, actions, tid) && states[0] == s
    ensures O.LoginDoes(ViewOf(s), found, password, newId, newHash, s.now, s.ttl, w, o)
    ensures Ends(s, states[|actions|], tid, w, o, None)
  {
    var run := P.Run(tid, found, newId, newHash);
    states, actions := [s], [];
    if !LoginAccepted(s.users, found, password) {
      var t := P.At(s, tid, P.Finished(P.Rejected));
      Extended(states, actions, tid, run, t);
      states, actions := states + [t], actions + [run];
      w, o := ViewOf(s), O.Rejected;
    } else {
      states, actions, w, o := OpensAlone(s, tid, found, password, newId, newHash, spareId, spareHash);
    }
  }

  lemma OpensAlone(s: State, tid: Id, found: Option<Id>, password: Id, newId: Id, newHash: Id, spareId: Id, spareHash: Id)
    returns (states: seq<State>, actions: seq<P.Action>, w: O.View, o: O.Outcome)
    requires tid in s.threads && s.threads[tid].LoginStart? && s.threads[tid].password == password
    requires FoundByName(s.users, s.threads[tid].username, found) && FreshPairs(s, newId, newHash, spareId, spareHash)
    requires LoginAccepted(s.users, found, password)
    ensures IsPath(states, actions, tid) && states[0] == s
    ensures O.LoginDoes(ViewOf(s), found, password, newId, newHash, s.now, s.ttl, w, o)
    ensures Ends(s, states[|actions|], tid, w, o, None)
  {
    var uid, u := found.value, s.users[found.value];
    var run, spare := P.Run(tid, found, newId, newHash), P.Run(tid, None, spareId, spareHash);
    var r := NewSession(uid, newHash, u.tokenVersion, newId, s.now, s.ttl);
    var t1 := P.MintLogin(s, tid, uid, newId, newHash);
    var t2 := P.RunCreate(t1, tid, newId, r);
    Extended([s], [], tid, run, t1);
    Extended([s] + [t1], [] + [run], tid, spare, t2);
    states, actions := [s] + [t1] + [t2], [] + [run] + [spare];
    var (rows, ok) := CreateSession(s.sessions, newId, r);
    w := if ok then O.Opened(ViewOf(s), rows, newId, r, s.now) else ViewOf(s);
    o := if ok then O.NewPair(ClaimsFor(uid, newId, u), newId) else O.StorageError;
  }

  // ---------- Refresh ----------

  lemma ReuseAlone(states: seq<State>, actions: seq<P.Action>, tid: Id, sid: Id, newId: Id, newHash: Id)
    returns (longer: seq<State>, more: seq<P.Action>, w: O.View, o: O.Outcome)
    requires IsPath(states, actions, tid)
    requires var s := states[|actions|];
             && sid in s.sessions && s.sessions[sid].status == Rotated && P.Fresh(s, newId, newHash)
             && tid in s.threads && s.threads[tid] == P.MarkReuse(sid, s.sessions[sid].userId, s.now)
    ensures IsPath(longer, more, tid) && longer[0] == states[0]
    ensures O.ReuseDoes(ViewOf(states[|actions|]), sid, states[|actions|].now, w, o)
    ensures Ends(states[|actions|], longer[|more|], tid, w, o, Some(sid))
  {
    var s := states[|actions|];
    var uid := s.sessions[sid].userId;
    var run := P.Run(tid, None, newId, newHash);
    var t1 := P.RunMarkReuse(s, tid, sid, uid, s.now);
    Extended(states, actions, tid, run, t1);
    longer, more := states + [t1], actions + [run];
    var t2 := P.RunBurn(t1, tid, sid, uid);
    Extended(longer, more, tid, run, t2);
    longer, more := longer + [t2], more + [run];
    var marked := ViewOf(s).(db := O.Db(s.users, t1.sessions));
    var (rows, ok) := BumpTokenVersion(s.users, uid);
    if ok {
      longer, more := RevokesAlone(longer, more, tid, uid, RefreshReuse, P.Rejected, newId, newHash);
      w, o := O.AfterBump(marked, rows, uid, RefreshReuse, s.now), O.Rejected;
    } else {
      w, o := marked, O.StorageError;
    }
  }

  lemma RotateAlone(states: seq<State>, actions: seq<P.Action>, tid: Id, sid: Id, newId: Id, newHash: Id, spareId: Id, spareHash: Id)
    returns (longer: seq<State>, more: seq<P.Action>, w: O.View, o: O.Outcome)
    requires IsPath(states, actions, tid)
    requires var s := states[|actions|];
             && sid in s.sessions && IsUsable(s.sessions[sid], s.now) && RefreshAllowed(s.users, s.sessions[sid])
             && FreshPairs(s, newId, newHash, spareId, spareHash)
             && tid in s.threads && s.threads[tid] == P.RefreshUser(sid, s.sessions[sid], s.now)
    ensures IsPath(longer, more, tid) && longer[0] == states[0]
    ensures var s := states[|actions|]; O.RotateDoes(ViewOf(s), sid, newId, newHash, s.now, s.ttl, w, o)
    ensures Ends(states[|actions|], longer[|more|], tid, w, o, Some(sid))
  {
    var s := states[|actions|];
    var row := s.sessions[sid];
    var u := s.users[row.userId];
    var r := NewSession(row.userId, newHash, u.tokenVersion, row.familyId, s.now, s.ttl);
    var run, spare := P.Run(tid, None, newId, newHash), P.Run(tid, None, spareId, spareHash);
    var t1 := P.MintRefresh(s, tid, sid, row, s.now, newId, newHash);
    Extended(states, actions, tid, run, t1);
    longer, more := states + [t1], actions + [run];
    var t2 := P.RunRotate(t1, tid, sid, row, newId, r, s.now);
    Extended(longer, more, tid, spare, t2);
    longer, more := longer + [t2], more + [spare];
    var (rows, outcome) := Rotate(s.sessions, sid, row.refreshHash, newId, r, s.now);
    var v := ViewOf(s);
    w := if outcome == Done then O.Opened(v.(statuses := O.SetStatus(v.statuses, sid, Rotated, row.expiresAt, s.now)), rows, newId, r, s.now)
         else v;
    o := if outcome == Done then O.NewPair(ClaimsFor(row.userId, newId, u), newId) else O.StorageError;
  }

  lemma RefusedAlone(states: seq<State>, actions: seq<P.Action>, tid: Id, sid: Id, newId: Id, newHash: Id)
    returns (longer: seq<State>, more: seq<P.Action>)
    requires IsPath(states, actions, tid)
    requires var s := states[|actions|];
             && sid in s.sessions && !RefreshAllowed(s.users, s.sessions[sid]) && P.Fresh(s, newId, newHash)
             && tid in s.threads && s.threads[tid] == P.RefreshUser(sid, s.sessions[sid], s.now)
    ensures IsPath(longer, more, tid) && longer[0] == states[0]
    ensures longer[|more|] == P.At(states[|actions|], tid, P.Finished(P.Rejected))
  {
    var t := P.At(states[|actions|], tid, P.Finished(P.Rejected));
    var run := P.Run(tid, None, newId, newHash);
    Extended(states, actions, tid, run, t);
    longer, more := states + [t], actions + [run];
  }

  lemma LooksUpAlone(s: State, tid: Id, hash: Id, found: Option<Id>, newId: Id, newHash: Id)
    returns (states: seq<State>, actions: seq<P.Action>)
    requires tid in s.threads && s.threads[tid] == P.RefreshStart(hash)
    requires FoundByHash(s.sessions, hash, found) && P.Fresh(s, newId, newHash)
    ensures IsPath(states, actions, tid) && states[0] == s
    ensures states[|actions|] == P.At(s, tid, P.AfterLookup(s.sessions, found, hash, s.now))
  {
    var run := P.Run(tid, found, newId, newHash);
    var t := P.At(s, tid, P.AfterLookup(s.sessions, found, hash, s.now));
    Extended([s], [], tid, run, t);
    states, actions := [s] + [t], [] + [run];
  }

  lemma RefreshAlone(s: State, tid: Id, hash: Id, found: Option<Id>, newId: Id, newHash: Id, spareId: Id, spareHash: Id)
    returns (states: seq<State>, actions: seq<P.Action>, w: O.View, o: O.Outcome)
    requires tid in s.threads && s.threads[tid] == P.RefreshStart(hash)
    requires FoundByHash(s.sessions, hash, found) && FreshPairs(s, newId, newHash, spareId, spareHash)
    ensures IsPath(states, actions, tid) && states[0] == s
    ensures O.RefreshDoes(ViewOf(s), hash, found, newId, newHash, s.now, s.ttl, w, o)
    ensures Ends(s, states[|actions|], tid, w, o, found)
  {
    hide IsPath;
    states, actions := LooksUpAlone(s, tid, hash, found, newId, newHash);
    if hash == NO_ID || found.None? {
      w, o := ViewOf(s), O.Rejected;
    } else if s.sessions[found.value].status == Rotated {
      states, actions, w, o := ReuseAlone(states, actions, tid, found.value, newId, newHash);
    } else if !IsUsable(s.sessions[found.value], s.now) {
      w, o := ViewOf(s), O.Rejected;
    } else if !RefreshAllowed(s.users, s.sessions[found.value]) {
      states, actions := RefusedAlone(states, actions, tid, found.value, newId, newHash);
      w, o := ViewOf(s), O.Rejected;
    } else {
      states, actions, w, o := RotateAlone(states, actions, tid, found.value, newId, newHash, spareId, spareHash);
    }
  }

  // ---------- checking an access token ----------

  // Where a check leads that is alone: on, if the database alone accepts the token, and else back.
  function Judged(s: State, c: Claims, goal: P.Goal): Thread {
    if O.CheckStored(ViewOf(s).db, c, s.now) == O.Accepted then P.Granted(c, goal) else P.Denied(goal)
  }

  lemma ReadsVersionAlone(s: State, tid: Id, c: Claims, goal: P.Goal, newId: Id, newHash: Id)
    returns (states: seq<State>, actions: seq<P.Action>)
    requires tid in s.threads && s.threads[tid] == P.CheckVersion(c, goal) && P.Fresh(s, newId, newHash)
    ensures IsPath(states, actions, tid) && states[0] == s
    ensures states[|actions|] == P.At(s, tid, P.AfterVersion(s.users, c, goal))
  {
    var run, t := P.Run(tid, None, newId, newHash), P.At(s, tid, P.AfterVersion(s.users, c, goal));
    Extended([s], [], tid, run, t);
    states, actions := [s] + [t], [] + [run];
  }

  lemma ReadsStatusAlone(states: seq<State>, actions: seq<P.Action>, tid: Id, c: Claims, goal: P.Goal, newId: Id, newHash: Id)
    returns (longer: seq<State>, more: seq<P.Action>)
    requires IsPath(states, actions, tid)
    requires var s := states[|actions|];
             tid in s.threads && s.threads[tid] == P.CheckStatus(c, goal) && P.Fresh(s, newId, newHash)
    ensures IsPath(longer, more, tid) && longer[0] == states[0]
    ensures var s := states[|actions|]; longer[|more|] == P.At(s, tid, P.AfterStatus(s.sessions, c, goal, s.now))
  {
    var s := states[|actions|];
    var run, t := P.Run(tid, None, newId, newHash), P.At(s, tid, P.AfterStatus(s.sessions, c, goal, s.now));
    Extended(states, actions, tid, run, t);
    longer, more := states + [t], actions + [run];
  }

  lemma JudgesAlone(s: State, tid: Id, c: Claims, goal: P.Goal, newId: Id, newHash: Id)
    returns (states: seq<State>, actions: seq<P.Action>)
    requires tid in s.threads && s.threads[tid] == P.CheckVersion(c, goal) && P.Fresh(s, newId, newHash)
    ensures IsPath(states, actions, tid) && states[0] == s
    ensures states[|actions|] == P.At(s, tid, Judged(s, c, goal))
  {
    hide IsPath;
    states, actions := ReadsVersionAlone(s, tid, c, goal, newId, newHash);
    if VersionMatches(s.users, c) && c.sessionId != NO_ID {
      states, actions := ReadsStatusAlone(states, actions, tid, c, goal, newId, newHash);
    }
  }

  // A request that presents a token alone is served exactly if the check against the database accepts the token.
  lemma CheckAlone(s: State, tid: Id, c: Claims, newId: Id, newHash: Id)
    returns (states: seq<State>, actions: seq<P.Action>)
    requires tid in s.threads && s.threads[tid] == P.CheckVersion(c, P.Serve) && P.Fresh(s, newId, newHash)
    ensures IsPath(states, actions, tid) && states[0] == s
    ensures var th := P.Finished(if O.CheckStored(ViewOf(s).db, c, s.now) == O.Accepted then P.Accepted(c) else P.Rejected);
            states[|actions|] == P.At(s, tid, th)
  {
    states, actions := JudgesAlone(s, tid, c, P.Serve, newId, newHash);
  }

  // ---------- Logout ----------

  lemma RevokeAlone(states: seq<State>, actions: seq<P.Action>, tid: Id, sid: Id, refresh: Option<Id>, newId: Id, newHash: Id)
    returns (longer: seq<State>, more: seq<P.Action>)
    requires IsPath(states, actions, tid)
    requires var s := states[|actions|];
             tid in s.threads && s.threads[tid] == P.LogoutRevoke(sid, refresh) && P.Fresh(s, newId, newHash)
    ensures IsPath(longer, more, tid) && longer[0] == states[0]
    ensures var s := states[|actions|];
            longer[|more|] == P.At(s.(sessions := RevokeById(s.sessions, sid, LoggedOut, s.now).0), tid, P.LogoutByHash(refresh))
  {
    var run := P.Run(tid, None, newId, newHash);
    var t := P.RunLogoutRevoke(states[|actions|], tid, sid, refresh);
    Extended(states, actions, tid, run, t);
    longer, more := states + [t], actions + [run];
  }

  // The second half of a logout: the session of the refresh token, if there is one.
  lemma ByHashAlone(states: seq<State>, actions: seq<P.Action>, tid: Id, refresh: Option<Id>, found: Option<Id>, newId: Id, newHash: Id)
    returns (longer: seq<State>, more: seq<P.Action>)
    requires IsPath(states, actions, tid)
    requires if refresh.Some? then FoundByHash(states[|actions|].sessions, refresh.value, found) else found.None?
    requires var s := states[|actions|];
             tid in s.threads && s.threads[tid] == P.LogoutByHash(refresh) && P.Fresh(s, newId, newHash)
    ensures IsPath(longer, more, tid) && longer[0] == states[0]
    ensures var s := states[|actions|];
            var rows := if found.Some? then RevokeById(s.sessions, found.value, LoggedOut, s.now).0 else s.sessions;
            longer[|more|] == P.At(s.(sessions := rows), tid, P.Finished(P.Completed))
  {
    var s := states[|actions|];
    var run := P.Run(tid, found, newId, newHash);
    var t := P.At(s, tid, P.AfterLogoutLookup(refresh, found));
    Extended(states, actions, tid, run, t);
    longer, more := states + [t], actions + [run];
    if found.Some? {
      longer, more := RevokeAlone(longer, more, tid, found.value, None, newId, newHash);
      var last := P.Run(tid, None, newId, newHash);
      var u := P.At(longer[|more|], tid, P.Finished(P.Completed));
      Extended(longer, more, tid, last, u);
      longer, more := longer + [u], more + [last];
    }
  }

  // The first half: the session of the access token, if that is accepted.
  lemma ByTokenAlone(s: State, tid: Id, c: Claims, refresh: Option<Id>, newId: Id, newHash: Id)
    returns (states: seq<State>, actions: seq<P.Action>)
    requires tid in s.threads && s.threads[tid] == P.CheckVersion(c, P.Logout(refresh)) && P.Fresh(s, newId, newHash)
    ensures IsPath(states, actions, tid) && states[0] == s
    ensures var accepted := O.CheckStored(ViewOf(s).db, c, s.now) == O.Accepted;
            var rows := if accepted then RevokeById(s.sessions, c.sessionId, LoggedOut, s.now).0 else s.sessions;
            states[|actions|] == P.At(s.(sessions := rows), tid, P.LogoutByHash(refresh))
  {
    states, actions := JudgesAlone(s, tid, c, P.Logout(refresh), newId, newHash);
    if O.CheckStored(ViewOf(s).db, c, s.now) == O.Accepted {
      states, actions := RevokeAlone(states, actions, tid, c.sessionId, refresh, newId, newHash);
    }
  }

  // How a logout starts, with an access token or without.
  function LogoutStart(token: Option<Claims>, refresh: Option<Id>): Thread {
    if token.Some? then P.CheckVersion(token.value, P.Logout(refresh)) else P.LogoutByHash(refresh)
  }

  // What the operation does, without caches.
  function LoggedOutView(s: State, token: Option<Claims>, found: Option<Id>): O.View {
    var v := ViewOf(s);
    var v1 := if token.Some? then O.Checked(v, token.value, s.now) else v;
    var v2 := if token.Some? && O.Check(v, token.value, s.now) == O.Accepted then O.RevokeSession(v1, token.value.sessionId, s.now) else v1;
    if found.Some? then O.RevokeSession(v2, found.value, s.now) else v2
  }

  // No session has the empty identifier in any run, by SessionsAreNamed.
  lemma LogoutAlone(s: State, tid: Id, token: Option<Claims>, refresh: Option<Id>, found: Option<Id>, newId: Id, newHash: Id)
    returns (states: seq<State>, actions: seq<P.Action>, w: O.View)
    requires tid in s.threads && s.threads[tid] == LogoutStart(token, refresh) && P.Fresh(s, newId, newHash)
    requires if refresh.Some? then FoundByHash(s.sessions, refresh.value, found) else found.None?
    requires NO_ID !in s.sessions
    ensures IsPath(states, actions, tid) && states[0] == s
    ensures O.LogoutDoes(ViewOf(s), token, found, s.now, w)
    ensures Ends(s, states[|actions|], tid, w, O.Completed, None)
  {
    states, actions := [s], [];
    if token.Some? {
      states, actions := ByTokenAlone(s, tid, token.value, refresh, newId, newHash);
    }
    states, actions := ByHashAlone(states, actions, tid, refresh, found, newId, newHash);
    w := LoggedOutView(s, token, found);
  }

  // ---------- user updates ----------

  function SecurityReason(before: User, after: User): Reason {
    if before.isActive && !after.isActive then UserDisabled else SecurityChanged
  }

  // The rows an update leaves without caches, and its answer.
  function UpdatedView(s: State, uid: Id, email: Option<Id>, role: Option<Role>, isActive: Option<bool>): O.View
    requires EditAllowed(s.users, uid, email)
  {
    var before := s.users[uid];
    var after := Edited(before, email, role, isActive);
    if MustRevoke(before, after) then
      O.AfterBump(ViewOf(s), UpdateAndBump(s.users, uid, after.email, after.role, after.isActive).0, uid,
                  SecurityReason(before, after), s.now)
    else ViewOf(s.(users := s.users[uid := after]))
  }

  // An update that ends the user's sessions does so in its second step.
  lemma SecurityEditSteps(s: State, tid: Id, uid: Id, email: Option<Id>, role: Option<Role>, isActive: Option<bool>)
    requires tid !in s.threads && EditAllowed(s.users, uid, email)
    requires MustRevoke(s.users[uid], Edited(s.users[uid], email, role, isActive))
    ensures P.Step(s, P.UpdateUser(tid, uid, email, role, isActive),
                   P.RunSecurityEdit(s, tid, uid, Edited(s.users[uid], email, role, isActive)))
  {
  }

  lemma SecurityEditAlone(s: State, tid: Id, uid: Id, after: User, newId: Id, newHash: Id)
    returns (states: seq<State>, actions: seq<P.Action>)
    requires tid !in s.threads && P.Fresh(s, newId, newHash) && uid in s.users
    ensures IsPath(states, actions, tid) && states[0] == P.RunSecurityEdit(s, tid, uid, after)
    ensures states[|actions|] == P.RunRevokeAll(states[0], tid, uid, SecurityReason(s.users[uid], after), P.Completed)
  {
    var t := P.RunSecurityEdit(s, tid, uid, after);
    states, actions := RevokesAlone([t], [], tid, uid, SecurityReason(s.users[uid], after), P.Completed, newId, newHash);
  }

  lemma SecurityEditEnds(s: State, tid: Id, uid: Id, after: User)
    requires uid in s.users
    ensures var reason := SecurityReason(s.users[uid], after);
            var u := P.RunRevokeAll(P.RunSecurityEdit(s, tid, uid, after), tid, uid, reason, P.Completed);
            && u.users == UpdateAndBump(s.users, uid, after.email, after.role, after.isActive).0
            && u.sessions == RevokeByUserId(s.sessions, uid, reason, s.now) && u.now == s.now
            && u.threads == s.threads[tid := P.Finished(P.Completed)]
  {
  }

  // An update is one step of the protocol, and one more if it ends the user's sessions.
  lemma UpdateAlone(s: State, tid: Id, uid: Id, email: Option<Id>, role: Option<Role>, isActive: Option<bool>, newId: Id, newHash: Id)
    returns (t: State, states: seq<State>, actions: seq<P.Action>, w: O.View, o: O.Outcome)
    requires tid !in s.threads && P.Fresh(s, newId, newHash)
    ensures P.Step(s, P.UpdateUser(tid, uid, email, role, isActive), t)
    ensures IsPath(states, actions, tid) && states[0] == t
    ensures O.UpdateDoes(ViewOf(s), uid, email, role, isActive, s.now, w, o)
    ensures var u := states[|actions|];
            && u.users == w.db.users && u.sessions == w.db.sessions && u.now == s.now
            && (u.threads == s.threads || u.threads == s.threads[tid := P.Finished(P.Completed)])
  {
    if !EditAllowed(s.users, uid, email) {
      t, states, actions, w, o := s, [s], [], ViewOf(s), O.Rejected;
    } else {
      w, o := UpdatedView(s, uid, email, role, isActive), O.Completed;
      if MustRevoke(s.users[uid], Edited(s.users[uid], email, role, isActive)) {
        var after := Edited(s.users[uid], email, role, isActive);
        t := P.RunSecurityEdit(s, tid, uid, after);
        SecurityEditSteps(s, tid, uid, email, role, isActive);
        states, actions := SecurityEditAlone(s, tid, uid, after, newId, newHash);
        SecurityEditEnds(s, tid, uid, after);
      } else {
        t := s.(users := w.db.users);
        states, actions := [t], [];
      }
    }
  }

  // ---------- names ----------

  // No step hands out the empty identifier.
  lemma StepNames(s: State, a: P.Action, t: State)
    requires NO_ID !in s.owner && P.Step(s, a, t)
    ensures NO_ID !in t.owner
  {
    if a.Run? {
      var th := s.threads[a.tid];
      if th.LoginStart? { LoginNames(s, a, t); }
      else if th.RefreshUser? { RefreshNames(s, a, t); }
      else if th.LoginCreate? || th.RefreshRotate? || th.MarkReuse? { WritingNames(s, a, t); }
      else if th.Burn? || th.RevokeAll? || th.PasswordBump? || th.LogoutRevoke? { RevokingNames(s, a, t); }
      else { ReadingNames(s, a, t); }
    } else {
      OtherStepNames(s, a, t);
    }
  }

  predicate Signs(s: State, a: P.Action, t: State)
    requires a.Run?
  {
    a.newId != NO_ID && a.newHash != NO_ID && (t.owner == s.owner || t.owner == s.owner[a.newId := a.tid][a.newHash := a.tid])
  }

  lemma LoginNames(s: State, a: P.Action, t: State)
    requires P.Step(s, a, t) && a.Run? && s.threads[a.tid].LoginStart?
    ensures Signs(s, a, t)
  {
  }

  lemma RefreshNames(s: State, a: P.Action, t: State)
    requires P.Step(s, a, t) && a.Run? && s.threads[a.tid].RefreshUser?
    ensures Signs(s, a, t)
  {
  }

  lemma WritingNames(s: State, a: P.Action, t: State)
    requires P.Step(s, a, t) && a.Run?
    requires s.threads[a.tid].LoginCreate? || s.threads[a.tid].RefreshRotate? || s.threads[a.tid].MarkReuse?
    ensures t.owner == s.owner
  {
  }

  lemma RevokingNames(s: State, a: P.Action, t: State)
    requires P.Step(s, a, t) && a.Run?
    requires var th := s.threads[a.tid]; th.Burn? || th.RevokeAll? || th.PasswordBump? || th.LogoutRevoke?
    ensures t.owner == s.owner
  {
  }

  lemma ReadingNames(s: State, a: P.Action, t: State)
    requires P.Step(s, a, t) && a.Run?
    requires var th := s.threads[a.tid];
             th.RefreshStart? || th.RefreshLost? || th.CheckVersion? || th.CheckStatus? || th.LogoutByHash? || th.PasswordStart?
    ensures t.owner == s.owner
  {
  }

  lemma OtherStepNames(s: State, a: P.Action, t: State)
    requires P.Step(s, a, t) && !a.Run?
    ensures t.owner == s.owner
  {
  }

  lemma {:induction false} RunNames(states: seq<State>, actions: seq<P.Action>, i: nat)
    requires P.IsRun(states, actions) && i < |states|
    ensures NO_ID !in states[i].owner
  {
    if i == 0 {
    } else {
      RunNames(states, actions, i - 1);
      StepNames(states[i - 1], actions[i - 1], states[i]);
    }
  }

  // So no session of a run has it.
  lemma SessionsAreNamed(states: seq<State>, actions: seq<P.Action>, i: nat)
    requires P.IsRun(states, actions) && i < |states|
    ensures NO_ID !in states[i].sessions
  {
    RunNames(states, actions, i);
    S.RunInvariant(states, actions, i);
    if NO_ID in states[i].sessions { N.KnowSession(states[i], NO_ID); }
  }
}
