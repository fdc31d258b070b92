/** The refresh-token session protocol as a state machine.

    Any number of requests run at once.  Each repository call is one step; between two steps of a request
    any other request may move, the clock may advance, and any request may stop with a storage error.
    There are no caches here; AuthOperations adds them to whole operations, and AuthAlone relates the two. */
module AuthProtocol {
  import opened Options
  import opened AuthEntities
  import opened RowUpdates

  datatype Outcome =
    | NewPair(session: Id, rotatedFrom: Option<Id>)
    | Rejected
    | StorageError
    | Accepted(claims: Claims)
    | Completed

  // What an access token is checked for: serving a request, or logging out.
  datatype Goal = Serve | Logout(refresh: Option<Id>)

  // A request, by what it does next.
  datatype Thread =
    | LoginStart(username: Id, password: Id)
    | LoginCreate(newId: Id, session: Session)
    | RefreshStart(hash: Id)
    | RefreshUser(sid: Id, seen: Session, at: int)
    | RefreshRotate(sid: Id, seen: Session, newId: Id, session: Session, at: int)
    | RefreshLost(sid: Id, uid: Id, at: int)
    | MarkReuse(sid: Id, uid: Id, at: int)
    | Burn(sid: Id, uid: Id)
    | RevokeAll(uid: Id, reason: Reason, outcome: Outcome)
    | CheckVersion(claims: Claims, goal: Goal)
    | CheckStatus(claims: Claims, goal: Goal)
    | LogoutRevoke(sid: Id, refresh: Option<Id>)
    | LogoutByHash(refresh: Option<Id>)
    | PasswordStart(uid: Id, oldPassword: Id, newPassword: Id)
    | PasswordBump(uid: Id, newPassword: Id)
    | Finished(outcome: Outcome)

  // The last six fields only remember the past; no step looks at them except to pick fresh identifiers:
  // `minted` holds every access token ever signed, `owner` the request that generated an identifier,
  // `burner` the request that found a session reused, `burned` the sessions whose reuse bumped a user's version.
  datatype State = State(
    now: int, ttl: int, users: Users, sessions: Sessions, threads: map<Id, Thread>,
    minted: set<Claims>, owner: map<Id, Id>, burner: map<Id, Id>, burned: map<Id, set<Id>>,
    passwordChanges: map<Id, nat>, securityUpdates: map<Id, nat>)

  datatype Action =
    | Tick(to: int)
    | CreateUser(uid: Id, username: Id, password: Id, email: Id, role: Role)
    | UpdateUser(tid: Id, uid: Id, newEmail: Option<Id>, newRole: Option<Role>, setActive: Option<bool>)
    | DeleteUser(uid: Id)
    | Spawn(tid: Id, thread: Thread)
    | Run(tid: Id, found: Option<Id>, newId: Id, newHash: Id)
    | Fail(tid: Id)

  predicate Init(s: State) {
    && s.users == map[] && s.sessions == map[] && s.threads == map[] && s.minted == {} && s.owner == map[]
    && s.burner == map[] && s.burned == map[] && s.passwordChanges == map[] && s.securityUpdates == map[]
  }

  predicate IsRequest(s: State, th: Thread) {
    match th
    case LoginStart(_, _) => true
    case RefreshStart(_) => true
    case CheckVersion(claims, _) => claims in s.minted
    case LogoutByHash(_) => true
    case PasswordStart(_, _, _) => true
    case _ => false
  }

  ghost predicate LookupOk(s: State, th: Thread, found: Option<Id>) {
    match th
    case LoginStart(name, _) => FoundByName(s.users, name, found)
    case RefreshStart(hash) => FoundByHash(s.sessions, hash, found)
    case LogoutByHash(Some(hash)) => FoundByHash(s.sessions, hash, found)
    case _ => true
  }

  predicate Fresh(s: State, newId: Id, newHash: Id) {
    newId != newHash && newId !in s.owner && newHash !in s.owner && newId != NO_ID && newHash != NO_ID
  }

  ghost predicate Enabled(s: State, a: Action) {
    match a
    case Tick(to) => s.now <= to
    case CreateUser(uid, username, _, email, _) =>
      uid !in s.users && forall u | u in s.users :: s.users[u].username != username && s.users[u].email != email
    case UpdateUser(tid, _, _, _, _) => tid !in s.threads
    case DeleteUser(_) => true
    case Spawn(tid, th) => tid !in s.threads && IsRequest(s, th)
    case Run(tid, found, newId, newHash) =>
      && tid in s.threads && !s.threads[tid].Finished?
      && LookupOk(s, s.threads[tid], found) && Fresh(s, newId, newHash)
    case Fail(tid) => tid in s.threads && !s.threads[tid].Finished?
  }

  function At(s: State, tid: Id, th: Thread): State {
    s.(threads := s.threads[tid := th])
  }

  function CountOf(m: map<Id, nat>, uid: Id): nat {
    if uid in m then m[uid] else 0
  }

  function SetOf(m: map<Id, set<Id>>, uid: Id): set<Id> {
    if uid in m then m[uid] else {}
  }

  // Signing an access token and drawing a refresh token; neither touches the database.
  function Mint(s: State, tid: Id, claims: Claims, hash: Id): State {
    s.(minted := s.minted + {claims}, owner := s.owner[claims.sessionId := tid][hash := tid])
  }

  // ---------- Login ----------

  function MintLogin(s: State, tid: Id, uid: Id, newId: Id, newHash: Id): State
    requires uid in s.users
  {
    var u := s.users[uid];
    At(Mint(s, tid, ClaimsFor(uid, newId, u), newHash), tid,
       LoginCreate(newId, NewSession(uid, newHash, u.tokenVersion, newId, s.now, s.ttl)))
  }

  function RunCreate(s: State, tid: Id, newId: Id, r: Session): State {
    var (rows, ok) := CreateSession(s.sessions, newId, r);
    At(s.(sessions := rows), tid, Finished(if ok then NewPair(newId, None) else StorageError))
  }

  // ---------- Refresh ----------

  function AfterLookup(rows: Sessions, found: Option<Id>, hash: Id, now: int): Thread
    requires found.Some? ==> found.value in rows
  {
    if hash == NO_ID || found.None? then Finished(Rejected)
    else if rows[found.value].status == Rotated then MarkReuse(found.value, rows[found.value].userId, now)
    else if !IsUsable(rows[found.value], now) then Finished(Rejected)
    else RefreshUser(found.value, rows[found.value], now)
  }

  function MintRefresh(s: State, tid: Id, sid: Id, seen: Session, at: int, newId: Id, newHash: Id): State
    requires seen.userId in s.users
  {
    var u := s.users[seen.userId];
    At(Mint(s, tid, ClaimsFor(seen.userId, newId, u), newHash), tid,
       RefreshRotate(sid, seen, newId,
                     NewSession(seen.userId, newHash, u.tokenVersion, seen.familyId, at, s.ttl), at))
  }

  function AfterRotate(outcome: RotateOutcome, sid: Id, seen: Session, newId: Id, at: int): Thread {
    match outcome
    case Done => Finished(NewPair(newId, Some(sid)))
    case Lost => RefreshLost(sid, seen.userId, at)
    case Failed => Finished(StorageError)
  }

  function RunRotate(s: State, tid: Id, sid: Id, seen: Session, newId: Id, r: Session, at: int): State {
    var (rows, outcome) := Rotate(s.sessions, sid, seen.refreshHash, newId, r, at);
    At(s.(sessions := rows), tid, AfterRotate(outcome, sid, seen, newId, at))
  }

  function AfterLost(rows: Sessions, sid: Id, uid: Id, at: int): Thread {
    if sid in rows && rows[sid].status == Rotated then MarkReuse(sid, uid, at) else Finished(Rejected)
  }

  function RunMarkReuse(s: State, tid: Id, sid: Id, uid: Id, at: int): State {
    var (rows, marked) := MarkReuseDetected(s.sessions, sid, at);
    At(s.(sessions := rows, burner := if marked then s.burner[sid := tid] else s.burner), tid,
       if marked then Burn(sid, uid) else Finished(Rejected))
  }

  // ---------- RevokeAllForUser, RevokeSessionsForUser ----------

  function RunBurn(s: State, tid: Id, sid: Id, uid: Id): State {
    var (rows, ok) := BumpTokenVersion(s.users, uid);
    At(s.(users := rows, burned := if ok then s.burned[uid := SetOf(s.burned, uid) + {sid}] else s.burned), tid,
       if ok then RevokeAll(uid, RefreshReuse, Rejected) else Finished(StorageError))
  }

  function RunRevokeAll(s: State, tid: Id, uid: Id, reason: Reason, outcome: Outcome): State {
    At(s.(sessions := RevokeByUserId(s.sessions, uid, reason, s.now)), tid, Finished(outcome))
  }

  // ---------- access-token check and Logout ----------

  function Granted(c: Claims, goal: Goal): Thread {
    match goal
    case Serve => Finished(Accepted(c))
    case Logout(refresh) => LogoutRevoke(c.sessionId, refresh)
  }

  function Denied(goal: Goal): Thread {
    match goal
    case Serve => Finished(Rejected)
    case Logout(refresh) => LogoutByHash(refresh)
  }

  function AfterVersion(users: Users, c: Claims, goal: Goal): Thread {
    if !VersionMatches(users, c) then Denied(goal)
    else if c.sessionId == NO_ID then Granted(c, goal)
    else CheckStatus(c, goal)
  }

  function AfterStatus(rows: Sessions, c: Claims, goal: Goal, now: int): Thread {
    if StatusMatches(rows, c, now) then Granted(c, goal) else Denied(goal)
  }

  function RunLogoutRevoke(s: State, tid: Id, sid: Id, refresh: Option<Id>): State {
    At(s.(sessions := RevokeById(s.sessions, sid, LoggedOut, s.now).0), tid, LogoutByHash(refresh))
  }

  function AfterLogoutLookup(refresh: Option<Id>, found: Option<Id>): Thread {
    if refresh.None? || found.None? then Finished(Completed) else LogoutRevoke(found.value, None)
  }

  // ---------- ChangePassword ----------

  function AfterPasswordRead(users: Users, uid: Id, oldPassword: Id, newPassword: Id): Thread {
    if FindUser(users, uid).Some? && users[uid].password == oldPassword then PasswordBump(uid, newPassword)
    else Finished(Rejected)
  }

  function RunPasswordBump(s: State, tid: Id, uid: Id, newPassword: Id): State {
    var (rows, ok) := UpdatePasswordAndBump(s.users, uid, newPassword);
    At(s.(users := rows,
          passwordChanges := if ok then s.passwordChanges[uid := CountOf(s.passwordChanges, uid) + 1] else s.passwordChanges),
       tid, if ok then RevokeAll(uid, PasswordChanged, Completed) else Finished(StorageError))
  }

  // ---------- one step of a request ----------

  ghost predicate RunStep(s: State, tid: Id, found: Option<Id>, newId: Id, newHash: Id, t: State)
    requires Enabled(s, Run(tid, found, newId, newHash))
  {
    match s.threads[tid]
    case LoginStart(_, password) =>
      if LoginAccepted(s.users, found, password) then t == MintLogin(s, tid, found.value, newId, newHash)
      else t == At(s, tid, Finished(Rejected))
    case LoginCreate(id, r) => t == RunCreate(s, tid, id, r)
    case RefreshStart(hash) => t == At(s, tid, AfterLookup(s.sessions, found, hash, s.now))
    case RefreshUser(sid, seen, at) =>
      if RefreshAllowed(s.users, seen) then t == MintRefresh(s, tid, sid, seen, at, newId, newHash)
      else t == At(s, tid, Finished(Rejected))
    case RefreshRotate(sid, seen, id, r, at) => t == RunRotate(s, tid, sid, seen, id, r, at)
    case RefreshLost(sid, uid, at) => t == At(s, tid, AfterLost(s.sessions, sid, uid, at))
    case MarkReuse(sid, uid, at) => t == RunMarkReuse(s, tid, sid, uid, at)
    case Burn(sid, uid) => t == RunBurn(s, tid, sid, uid)
    case RevokeAll(uid, reason, outcome) => t == RunRevokeAll(s, tid, uid, reason, outcome)
    case CheckVersion(c, goal) => t == At(s, tid, AfterVersion(s.users, c, goal))
    case CheckStatus(c, goal) => t == At(s, tid, AfterStatus(s.sessions, c, goal, s.now))
    case LogoutRevoke(sid, refresh) => t == RunLogoutRevoke(s, tid, sid, refresh)
    case LogoutByHash(refresh) => t == At(s, tid, AfterLogoutLookup(refresh, found))
    case PasswordStart(uid, oldPassword, newPassword) =>
      t == At(s, tid, AfterPasswordRead(s.users, uid, oldPassword, newPassword))
    case PasswordBump(uid, newPassword) => t == RunPasswordBump(s, tid, uid, newPassword)
    case Finished(_) => false
  }

  // ---------- user management ----------

  function RunSecurityEdit(s: State, tid: Id, uid: Id, after: User): State
    requires uid in s.users
  {
    At(s.(users := UpdateAndBump(s.users, uid, after.email, after.role, after.isActive).0,
          securityUpdates := s.securityUpdates[uid := CountOf(s.securityUpdates, uid) + 1]), tid,
       RevokeAll(uid, if s.users[uid].isActive && !after.isActive then UserDisabled else SecurityChanged, Completed))
  }

  ghost predicate UpdateStep(s: State, tid: Id, uid: Id, email: Option<Id>, role: Option<Role>, isActive: Option<bool>, t: State)
  {
    if !EditAllowed(s.users, uid, email) then t == s
    else
      var after := Edited(s.users[uid], email, role, isActive);
      if MustRevoke(s.users[uid], after) then t == RunSecurityEdit(s, tid, uid, after)
      else t == s.(users := s.users[uid := after])
  }

  ghost predicate DeleteStep(s: State, uid: Id, t: State) {
    if FindUser(s.users, uid).None? then t == s else t == s.(users := s.users[uid := s.users[uid].(deleted := true)])
  }

  // ---------- runs ----------

  // Action `a` leads from `s` to `t`.
  ghost predicate Step(s: State, a: Action, t: State) {
    Enabled(s, a) &&
    match a
    case Tick(to) => t == s.(now := to)
    case CreateUser(uid, username, password, email, role) =>
      t == s.(users := s.users[uid := User(username, password, email, role, true, true, 1, false)])
    case UpdateUser(tid, uid, email, role, isActive) => UpdateStep(s, tid, uid, email, role, isActive, t)
    case DeleteUser(uid) => DeleteStep(s, uid, t)
    case Spawn(tid, th) => t == At(s, tid, th)
    case Run(tid, found, newId, newHash) => RunStep(s, tid, found, newId, newHash, t)
    case Fail(tid) => t == At(s, tid, Finished(StorageError))
  }

  ghost predicate IsRun(states: seq<State>, actions: seq<Action>) {
    && |states| == |actions| + 1
    && Init(states[0])
    && forall i | 0 <= i < |actions| :: Step(states[i], actions[i], states[i + 1])
  }
}
